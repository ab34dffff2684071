/** The Ordnance Survey tile URL builder: a single WMTS GetTile request in
    key-value-pair encoding (OGC WMTS 1.0.0, its KVP binding of GetTile), with
    the tile matrix, row and column filled in from the tile address. */
module UrlTileBuilderOrdnanceSurvey {
  import opened Wrappers
  import opened Strings

  /** The URL up to the '?' that opens the query. */
  const Endpoint: string := "https://api.os.uk/maps/raster/v1/wmts"

  /** The query fields of the template that do not depend on the address, in
      template order. The key is the literal text `<key>`. */
  const FixedParams: seq<(string, string)> := [
    ("key", "<key>"), ("service", "WMTS"), ("version", "1.0.0"), ("request", "GetTile"),
    ("layer", "Light_3857"), ("style", "Light"), ("format", "image/png"),
    ("tileMatrixSet", "EPSG:3857")]

  /** All query fields of the URL for (level, row, col), in template order. */
  function Params(level: int, row: int, col: int): seq<(string, string)>
  {
    FixedParams + [("tileMatrix", IntToString(level)), ("tileRow", IntToString(row)),
                   ("tileCol", IntToString(col))]
  }

  /** `name=value` fields joined by '&'. */
  function EncodeQuery(params: seq<(string, string)>): string
  {
    if params == [] then ""
    else if |params| == 1 then params[0].0 + "=" + params[0].1
    else params[0].0 + "=" + params[0].1 + "&" + EncodeQuery(params[1..])
  }

  /** `build(level, row, col)`: total over all integers, no range check. The
      text is that of the source's template,
      `<Endpoint>?key=<key>&service=WMTS&version=1.0.0&request=GetTile&layer=Light_3857&style=Light&format=image/png&tileMatrixSet=EPSG:3857&tileMatrix=<level>&tileRow=<row>&tileCol=<col>`. */
  function Build(level: int, row: int, col: int): (url: string)
    ensures DecodeUrl(url) == Some((Endpoint, Params(level, row, col)))
  {
    var ps := Params(level, row, col);
    ParamsEncodable(level, row, col);
    DecodeQuery(ps);
    EndpointHasNoQuery();
    SplitAtFirstOf(Endpoint, '?', EncodeQuery(ps));
    Endpoint + "?" + EncodeQuery(ps)
  }

  /** The pieces of `s` between occurrences of `c`, in order. */
  function SplitOn(s: string, c: char): (parts: seq<string>)
    ensures |parts| > 0
    decreases |s|
  {
    match SplitAtFirst(s, c)
    case None => [s]
    case Some(p) => [p.0] + SplitOn(p.1, c)
  }

  /** One `name=value` query field; a field without '=' has an empty value. */
  function KeyValue(field: string): (string, string)
  {
    match SplitAtFirst(field, '=')
    case None => (field, "")
    case Some(p) => p
  }

  function KeyValues(fields: seq<string>): (kvs: seq<(string, string)>)
    ensures |kvs| == |fields|
  {
    if fields == [] then [] else [KeyValue(fields[0])] + KeyValues(fields[1..])
  }

  /** Decodes a URL into its endpoint and its query fields, in order. */
  function DecodeUrl(url: string): Option<(string, seq<(string, string)>)>
  {
    match SplitAtFirst(url, '?')
    case None => None
    case Some(p) => Some((p.0, KeyValues(SplitOn(p.1, '&'))))
  }

  /** The value of the first field called `name`. */
  function Lookup(kvs: seq<(string, string)>, name: string): Option<string>
  {
    if kvs == [] then None
    else if kvs[0].0 == name then Some(kvs[0].1)
    else Lookup(kvs[1..], name)
  }

  /** Recovers (level, row, col) from a URL by reading its three tile fields. */
  function ParseTileAddress(url: string): Option<(int, int, int)>
  {
    match DecodeUrl(url)
    case None => None
    case Some(d) =>
      var l, r, c := Lookup(d.1, "tileMatrix"), Lookup(d.1, "tileRow"), Lookup(d.1, "tileCol");
      if l.None? || r.None? || c.None? then None
      else
        var level, row, col := ParseInt(l.value), ParseInt(r.value), ParseInt(c.value);
        if level.None? || row.None? || col.None? then None
        else Some((level.value, row.value, col.value))
  }

  /** Fields that the KVP encoding can carry unambiguously. */
  predicate Encodable(params: seq<(string, string)>)
  {
    forall i :: 0 <= i < |params| ==>
      '&' !in params[i].0 && '=' !in params[i].0 && '&' !in params[i].1
  }

  lemma {:induction false} DecodeQuery(params: seq<(string, string)>)
    requires params != [] && Encodable(params)
    ensures KeyValues(SplitOn(EncodeQuery(params), '&')) == params
    decreases |params|
  {
    var k, v := params[0].0, params[0].1;
    SplitAtFirstOf(k, '=', v);
    if |params| > 1 {
      SplitAtFirstOf(k + "=" + v, '&', EncodeQuery(params[1..]));
      DecodeQuery(params[1..]);
    }
  }

  lemma FixedParamsEncodable()
    ensures Encodable(FixedParams)
  {
    forall i | 0 <= i < |FixedParams|
      ensures '&' !in FixedParams[i].0 && '=' !in FixedParams[i].0 && '&' !in FixedParams[i].1
    {
    }
  }

  lemma EndpointHasNoQuery()
    ensures '?' !in Endpoint
  {
  }

  lemma ParamsEncodable(level: int, row: int, col: int)
    ensures Encodable(Params(level, row, col))
  {
    var ps := Params(level, row, col);
    FixedParamsEncodable();
    forall i | 0 <= i < |ps|
      ensures '&' !in ps[i].0 && '=' !in ps[i].0 && '&' !in ps[i].1
    {
      if i < 8 {
        assert ps[i] == FixedParams[i];
      } else {
        IntToStringAvoids(level, '&');
        IntToStringAvoids(row, '&');
        IntToStringAvoids(col, '&');
      }
    }
  }

  lemma {:induction false} LookupSkip(a: seq<(string, string)>, b: seq<(string, string)>, name: string)
    requires forall i :: 0 <= i < |a| ==> a[i].0 != name
    ensures Lookup(a + b, name) == Lookup(b, name)
    decreases |a|
  {
    if a != [] {
      assert (a + b)[1..] == a[1..] + b;
      LookupSkip(a[1..], b, name);
    } else {
      assert a + b == b;
    }
  }

  lemma FixedParamsNames()
    ensures forall i :: 0 <= i < |FixedParams| ==>
      FixedParams[i].0 != "tileMatrix" && FixedParams[i].0 != "tileRow" && FixedParams[i].0 != "tileCol"
  {
  }

  /** Level, row and column can be read back from the URL built for them. */
  lemma BuildParseRoundTrip(level: int, row: int, col: int)
    ensures ParseTileAddress(Build(level, row, col)) == Some((level, row, col))
  {
    var tail := [("tileMatrix", IntToString(level)), ("tileRow", IntToString(row)),
                 ("tileCol", IntToString(col))];
    FixedParamsNames();
    LookupSkip(FixedParams, tail, "tileMatrix");
    LookupSkip(FixedParams, tail, "tileRow");
    LookupSkip(FixedParams, tail, "tileCol");
    assert Lookup(tail, "tileRow") == Lookup(tail[1..], "tileRow");
    assert Lookup(tail[1..], "tileCol") == Lookup(tail[2..], "tileCol");
    IntRoundTrip(level);
    IntRoundTrip(row);
    IntRoundTrip(col);
  }

  /** Distinct tile addresses give distinct URLs. */
  lemma BuildInjective(l1: int, r1: int, c1: int, l2: int, r2: int, c2: int)
    ensures Build(l1, r1, c1) == Build(l2, r2, c2) <==> (l1, r1, c1) == (l2, r2, c2)
  {
    if Build(l1, r1, c1) == Build(l2, r2, c2) {
      BuildParseRoundTrip(l1, r1, c1);
      BuildParseRoundTrip(l2, r2, c2);
    }
  }

  /** The endpoint and the first eight fields (key, service, version, request,
      layer, style, format, tileMatrixSet) are the same for every input, the
      key field is the literal `<key>`, and the address fields come last, in
      the order tileMatrix, tileRow, tileCol. */
  lemma BuildConstantFields(level: int, row: int, col: int)
    ensures DecodeUrl(Build(level, row, col)).Some?
    ensures DecodeUrl(Build(level, row, col)).value.0 == Endpoint
    ensures |DecodeUrl(Build(level, row, col)).value.1| == 11
    ensures DecodeUrl(Build(level, row, col)).value.1[..8] == FixedParams
    ensures Lookup(DecodeUrl(Build(level, row, col)).value.1, "key") == Some("<key>")
    ensures DecodeUrl(Build(level, row, col)).value.1[8..] ==
      [("tileMatrix", IntToString(level)), ("tileRow", IntToString(row)), ("tileCol", IntToString(col))]
  {
  }
}
