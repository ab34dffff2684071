/** `java.io.File` values as path strings. Android's separator is '/'. */
module Files {
  import opened Wrappers
  import opened Strings

  type Path = string

  const Separator: char := '/'

  /** `File(parent, name)`: the child path of `parent` called `name`. */
  function Child(parent: Path, name: string): Path
  {
    parent + [Separator] + name
  }

  /** `File(null as File?, name)`: with no parent the child is the bare name. */
  function ChildOfNullable(parent: Option<Path>, name: string): Path
  {
    match parent
    case Some(p) => Child(p, name)
    case None => name
  }

  /** `File.getName()`: the text after the last separator. */
  function Name(p: Path): string
  {
    p[LastIndexOf(p, Separator) + 1..]
  }

  /** `File.getParent()`: the text before the last separator, if there is one. */
  function Parent(p: Path): Option<Path>
  {
    var i := LastIndexOf(p, Separator);
    if i < 0 then None else Some(p[..i])
  }

  /** A child path names its parent and its own name again: the two parts of
      `Child` can be read back, whatever the parent holds. */
  lemma ChildParts(parent: Path, name: string)
    requires Separator !in name
    ensures Name(Child(parent, name)) == name
    ensures Parent(Child(parent, name)) == Some(parent)
  {
    var c := Child(parent, name);
    var i := LastIndexOf(c, Separator);
    assert c[|parent|] == Separator;
    assert i == |parent|;
    assert c[i + 1..] == name;
    assert c[..i] == parent;
  }
}
