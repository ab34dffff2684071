/** The map view's check of the IGN license before a licensed map is shown.
    The check's decision is a function of its inputs; the view model records
    what it posts on the event bus and what it persists. */
module MapViewModel {
  import opened Wrappers
  import opened TileModel
  import opened LicenseVerifier

  /** What the persistence strategy stores about a bought license. */
  datatype LicenseInfo = LicenseInfo(purchaseTimeMillis: int)

  /** The billing library's record of the IGN license purchase. */
  datatype Purchase = Purchase(purchaseTime: int)

  /** The events the check posts. */
  datatype IgnLicenseEvent =
    | OutdatedIgnLicenseEvent(ignMap: Map)
    | ErrorIgnLicenseEvent(ignMap: Map)
    | GracePeriodIgnEvent(ignMap: Map, remainingDays: int)

  /** The outcome of one check: the answer, the events posted in order, and
      the license info persisted, if any. */
  datatype LicenseCheck = LicenseCheck(ok: bool, posted: seq<IgnLicenseEvent>, persisted: Option<LicenseInfo>)

  /** `onFailureToReadFile()`: no stored license, so ask billing. */
  function OnFailureToReadFile(m: Map, purchase: Option<Purchase>): (c: LicenseCheck)
    ensures c.ok <==> purchase.Some?
    ensures c.ok ==> c.posted == [] && c.persisted == Some(LicenseInfo(purchase.value.purchaseTime))
    ensures !c.ok ==> c.posted == [ErrorIgnLicenseEvent(m)] && c.persisted.None?
  {
    match purchase
    case Some(p) => LicenseCheck(true, [], Some(LicenseInfo(p.purchaseTime)))
    case None => LicenseCheck(false, [ErrorIgnLicenseEvent(m)], None)
  }

  /** `checkForIgnLicense(map)`: `stored` is what `getLicenseInfo()` returns,
      `purchase` what `getIgnLicensePurchase()` returns, `now` the clock. */
  function IgnLicenseCheck(m: Map, stored: Option<LicenseInfo>, now: int, purchase: Option<Purchase>): (c: LicenseCheck)
    ensures m.origin != IGN_LICENSED ==> c == LicenseCheck(true, [], None)
    ensures |c.posted| <= 1 && forall e :: e in c.posted ==> e.ignMap == m
    ensures stored.Some? ==> c.persisted.None?
    ensures m.origin == IGN_LICENSED && stored.Some? ==>
      (c.ok <==> !CheckTime(stored.value.purchaseTimeMillis, now).AccessDeniedLicenseOutdated?)
  {
    if m.origin != IGN_LICENSED then LicenseCheck(true, [], None)
    else
      match stored
      case Some(info) =>
        (match CheckTime(info.purchaseTimeMillis, now)
         case AccessGranted(_) => LicenseCheck(true, [], None)
         case GracePeriod(d) => LicenseCheck(true, [GracePeriodIgnEvent(m, d)], None)
         case AccessDeniedLicenseOutdated => LicenseCheck(false, [OutdatedIgnLicenseEvent(m)], None))
      case None => OnFailureToReadFile(m, purchase)
  }

  /** The decision table, row by row. */
  lemma LicenseDecisionTable(m: Map, stored: Option<LicenseInfo>, now: int, purchase: Option<Purchase>)
    ensures var c := IgnLicenseCheck(m, stored, now, purchase);
      && (m.origin != IGN_LICENSED ==> c == LicenseCheck(true, [], None))
      && (m.origin == IGN_LICENSED && stored.Some? ==>
            var s := CheckTime(stored.value.purchaseTimeMillis, now);
            && (s.AccessGranted? ==> c == LicenseCheck(true, [], None))
            && (s.GracePeriod? ==> c == LicenseCheck(true, [GracePeriodIgnEvent(m, s.remainingDays)], None))
            && (s.AccessDeniedLicenseOutdated? ==> c == LicenseCheck(false, [OutdatedIgnLicenseEvent(m)], None)))
      && (m.origin == IGN_LICENSED && stored.None? && purchase.Some? ==>
            c == LicenseCheck(true, [], Some(LicenseInfo(purchase.value.purchaseTime))))
      && (m.origin == IGN_LICENSED && stored.None? && purchase.None? ==>
            c == LicenseCheck(false, [ErrorIgnLicenseEvent(m)], None))
  {
  }

  /** What holds of every check: at most one event, about the map checked; the
      answer is false exactly when an outdated or error event is posted; and
      something is persisted only for a licensed map with nothing stored. */
  lemma LicenseCheckShape(m: Map, stored: Option<LicenseInfo>, now: int, purchase: Option<Purchase>)
    ensures var c := IgnLicenseCheck(m, stored, now, purchase);
      && |c.posted| <= 1
      && (forall e :: e in c.posted ==> e.ignMap == m)
      && (!c.ok <==> exists e :: e in c.posted && !e.GracePeriodIgnEvent?)
      && (c.persisted.Some? ==> m.origin == IGN_LICENSED && stored.None? && purchase.Some?)
  {
    var c := IgnLicenseCheck(m, stored, now, purchase);
    if !c.ok {
      assert c.posted[0] in c.posted && !c.posted[0].GracePeriodIgnEvent?;
    }
  }

  /** Once the purchase has been persisted, the next check reads it back and
      decides from its age alone, without asking billing again. */
  lemma CheckAfterPersist(m: Map, now: int, later: int, p: Purchase, other: Option<Purchase>)
    requires m.origin == IGN_LICENSED
    ensures var first := IgnLicenseCheck(m, None, now, Some(p));
      && first.persisted == Some(LicenseInfo(p.purchaseTime))
      && IgnLicenseCheck(m, first.persisted, later, other).ok
         == !CheckTime(p.purchaseTime, later).AccessDeniedLicenseOutdated?
  {
  }

  /** The view model with its two effects made visible: the persistence store
      of license info and the events posted on the bus. */
  class MapViewViewModel {
    /** What `persistenceStrategy` holds. */
    var licenseInfo: Option<LicenseInfo>
    /** Every event posted so far, oldest first. */
    var events: seq<IgnLicenseEvent>

    constructor (stored: Option<LicenseInfo>)
      ensures licenseInfo == stored && events == []
    {
      licenseInfo := stored;
      events := [];
    }

    /** `checkForIgnLicense(map)`, run to completion. */
    method CheckForIgnLicense(m: Map, now: int, purchase: Option<Purchase>) returns (ok: bool)
      modifies this
      ensures var c := IgnLicenseCheck(m, old(licenseInfo), now, purchase);
        && ok == c.ok
        && events == old(events) + c.posted
        && licenseInfo == (if c.persisted.Some? then c.persisted else old(licenseInfo))
    {
      var c := IgnLicenseCheck(m, licenseInfo, now, purchase);
      if c.persisted.Some? {
        licenseInfo := c.persisted;
      }
      events := events + c.posted;
      ok := c.ok;
    }

    /** `getMap()`: returns the current map unchanged; the license check it
        launches runs only when there is a map, and its answer is dropped. */
    method GetMap(currentMap: Option<Map>, now: int, purchase: Option<Purchase>) returns (r: Option<Map>)
      modifies this
      ensures r == currentMap
      ensures currentMap.None? ==> licenseInfo == old(licenseInfo) && events == old(events)
      ensures currentMap.Some? ==>
        var c := IgnLicenseCheck(currentMap.value, old(licenseInfo), now, purchase);
        && events == old(events) + c.posted
        && licenseInfo == (if c.persisted.Some? then c.persisted else old(licenseInfo))
    {
      if currentMap.Some? {
        var _ := CheckForIgnLicense(currentMap.value, now, purchase);
      }
      r := currentMap;
    }

    /** `getMap()` as its documentation describes it: null when there is no
        map or when the license check of the map fails. */
    method GetMapChecked(currentMap: Option<Map>, now: int, purchase: Option<Purchase>) returns (r: Option<Map>)
      modifies this
      ensures currentMap.None? ==> r.None? && licenseInfo == old(licenseInfo) && events == old(events)
      ensures currentMap.Some? ==>
        var c := IgnLicenseCheck(currentMap.value, old(licenseInfo), now, purchase);
        && r == (if c.ok then currentMap else None)
        && events == old(events) + c.posted
        && licenseInfo == (if c.persisted.Some? then c.persisted else old(licenseInfo))
    {
      r := None;
      if currentMap.Some? {
        var ok := CheckForIgnLicense(currentMap.value, now, purchase);
        if ok {
          r := currentMap;
        }
      }
    }
  }

  /** As written, `getMap` hands out a licensed map for which no license is
      stored nor bought: the error event is posted, and the map is returned. */
  method GetMapIgnoresMissingLicense(m: Map, now: int) returns (r: Option<Map>, posted: seq<IgnLicenseEvent>)
    requires m.origin == IGN_LICENSED
    ensures r == Some(m) && posted == [ErrorIgnLicenseEvent(m)]
  {
    var vm := new MapViewViewModel(None);
    r := vm.GetMap(Some(m), now, None);
    posted := vm.events;
  }

  /** The documented behaviour on the same input: the error event is posted
      and no map is returned. */
  method GetMapCheckedRefusesMissingLicense(m: Map, now: int) returns (r: Option<Map>, posted: seq<IgnLicenseEvent>)
    requires m.origin == IGN_LICENSED
    ensures r.None? && posted == [ErrorIgnLicenseEvent(m)]
  {
    var vm := new MapViewViewModel(None);
    r := vm.GetMapChecked(Some(m), now, None);
    posted := vm.events;
  }
}
