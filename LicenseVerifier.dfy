/** The IGN license time check: how long ago the license was bought decides
    whether the map may be shown. */
module LicenseVerifier {

  /** Days the app stays usable after the license has expired. */
  const GracePeriodDays: int := 15

  /** Validity of a license in days (365 - 15). */
  const P: int := 350

  /** `TimeUnit.DAYS` in milliseconds. */
  const MillisPerDay: int := 86_400_000

  datatype AccessState =
    | AccessGranted(remainingDays: int)
    | GracePeriod(remainingDays: int)
    | AccessDeniedLicenseOutdated

  function Abs(x: int): nat
  {
    if x < 0 then -x else x
  }

  /** Whole days between the two instants, truncated (`TimeUnit.DAYS.convert`). */
  function DaysBetween(timeMillis: int, now: int): nat
  {
    Abs(now - timeMillis) / MillisPerDay
  }

  /** `checkTime(timeMillis)`, with the clock reading `now` as a parameter. */
  function CheckTime(timeMillis: int, now: int): (s: AccessState)
    ensures s.AccessGranted? && now > timeMillis ==> 0 <= s.remainingDays <= P
    ensures s.AccessGranted? && now <= timeMillis ==> s.remainingDays >= P
    ensures s.GracePeriod? ==> 1 <= s.remainingDays < GracePeriodDays
    ensures now <= timeMillis ==> s.AccessGranted?
  {
    var millis := now - timeMillis;
    var days := DaysBetween(timeMillis, now);
    if millis > 0 then
      if days <= P then AccessGranted(P - days)
      else if days > P && days < P + GracePeriodDays then GracePeriod(P + GracePeriodDays - days)
      else AccessDeniedLicenseOutdated
    else
      AccessGranted(P + days)
  }

  /** A purchase in the past: each state covers one band of its age in days. */
  lemma PastPurchaseBands(timeMillis: int, now: int)
    requires now > timeMillis
    ensures var days := DaysBetween(timeMillis, now);
      && (days <= P <==> CheckTime(timeMillis, now) == AccessGranted(P - days))
      && (P < days < P + GracePeriodDays <==> CheckTime(timeMillis, now) == GracePeriod(P + GracePeriodDays - days))
      && (days >= P + GracePeriodDays <==> CheckTime(timeMillis, now) == AccessDeniedLicenseOutdated)
  {
  }

  /** A purchase "in the future", or at this very instant, grants access for
      350 days plus however many days ahead it lies. */
  lemma FuturePurchase(timeMillis: int, now: int)
    requires now <= timeMillis
    ensures CheckTime(timeMillis, now) == AccessGranted(P + DaysBetween(timeMillis, now))
  {
  }

  /** The license is refused exactly when at least 365 whole days, counted in
      milliseconds, have passed since the purchase. */
  lemma DeniedExactlyAfterAYear(timeMillis: int, now: int)
    ensures CheckTime(timeMillis, now).AccessDeniedLicenseOutdated?
        <==> now - timeMillis >= (P + GracePeriodDays) * MillisPerDay
  {
    var millis := now - timeMillis;
    if millis > 0 {
      DaysAtLeast(millis, P + GracePeriodDays);
    }
  }

  lemma DaysAtLeast(millis: nat, d: nat)
    ensures millis / MillisPerDay >= d <==> millis >= d * MillisPerDay
  {
    var q, r := millis / MillisPerDay, millis % MillisPerDay;
    assert millis == q * MillisPerDay + r && 0 <= r < MillisPerDay;
    if q >= d {
      assert q * MillisPerDay >= d * MillisPerDay;
    } else {
      assert q + 1 <= d;
      assert (q + 1) * MillisPerDay <= d * MillisPerDay;
    }
  }

  /** Days of use left, counting the grace period; none once access is denied. */
  function DaysLeft(s: AccessState): int
  {
    match s
    case AccessGranted(r) => r + GracePeriodDays
    case GracePeriod(r) => r
    case AccessDeniedLicenseOutdated => 0
  }

  /** For a purchase in the past the days left are 365 minus its age, and
      never negative. */
  lemma DaysLeftOfPastPurchase(timeMillis: int, now: int)
    requires now > timeMillis
    ensures var days := DaysBetween(timeMillis, now);
      DaysLeft(CheckTime(timeMillis, now)) == if days >= P + GracePeriodDays then 0 else P + GracePeriodDays - days
  {
  }

  /** As time passes the days left never grow, whether the purchase lies in
      the past, in the future, or between the two readings of the clock. */
  lemma DaysLeftNeverGrow(timeMillis: int, now1: int, now2: int)
    requires now1 <= now2
    ensures DaysLeft(CheckTime(timeMillis, now2)) <= DaysLeft(CheckTime(timeMillis, now1))
  {
    if timeMillis < now1 {
      DaysLeftOfPastPurchase(timeMillis, now1);
      DaysLeftOfPastPurchase(timeMillis, now2);
      DivMonotone(now1 - timeMillis, now2 - timeMillis);
    } else if now2 <= timeMillis {
      DivMonotone(timeMillis - now2, timeMillis - now1);
    } else {
      DaysLeftOfPastPurchase(timeMillis, now2);
    }
  }

  lemma DivMonotone(a: nat, b: nat)
    requires a <= b
    ensures a / MillisPerDay <= b / MillisPerDay
  {
    DaysAtLeast(b, a / MillisPerDay);
    assert a / MillisPerDay * MillisPerDay <= a;
  }
}
