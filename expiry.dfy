/**
 * Expiry classification of a donated medicine as the listing page computes
 * it. The page tests a record's expiry in four separately written places
 * (the status filter, the two counters, the card badge and the detail
 * badge); each is modelled as written and proved equal to one reference
 * classification on the raw millisecond difference.
 */
module Expiry {

  /** Milliseconds in a day: `1000 * 60 * 60 * 24`. */
  const MsPerDay: int := 1000 * 60 * 60 * 24
  /** The "Expiring Soon" window, in days. */
  const SoonDays: int := 30

  /**
   * A record's `expdate` as seen by `new Date(expdate)`: absent or empty
   * (falsy), a string that does not parse (an Invalid Date), or a time
   * value in milliseconds since the epoch.
   */
  datatype ExpDate = NoExpiry | Unparseable | At(ms: int)

  datatype Status = Valid | ExpiringSoon | Expired

  /** `daysUntilExpiry` as JavaScript holds it: a whole number, NaN (Invalid Date) or Infinity (no date). */
  datatype DayCount = Days(n: int) | NaN | Infinity

  /** `Math.ceil(diff / MsPerDay)` on an integer millisecond difference. */
  function CeilDays(diff: int): (d: int)
    ensures (d - 1) * MsPerDay < diff <= d * MsPerDay
  {
    -((-diff) / MsPerDay)
  }

  /** `d <= k` in JavaScript: false for NaN and for Infinity. */
  predicate AtMost(d: DayCount, k: int) {
    d.Days? && d.n <= k
  }

  /** `d > k` in JavaScript: false for NaN, true for Infinity. */
  predicate Above(d: DayCount, k: int) {
    d.Infinity? || (d.Days? && d.n > k)
  }

  /** `expiryDate ? Math.ceil((expiryDate - today) / MsPerDay) : Infinity`. */
  function DaysUntilExpiry(e: ExpDate, now: int): DayCount {
    match e
    case NoExpiry => Infinity
    case Unparseable => NaN
    case At(t) => Days(CeilDays(t - now))
  }

  /**
   * The reference classification, on the millisecond difference alone:
   * expired once the expiry instant is reached, expiring soon within the
   * next thirty days, valid after that.
   */
  function StatusOf(diff: int): Status {
    if diff <= 0 then Expired
    else if diff <= SoonDays * MsPerDay then ExpiringSoon
    else Valid
  }

  /** A record with no date, or one that does not parse, is neither expired nor expiring. */
  function Classification(e: ExpDate, now: int): Status {
    match e
    case At(t) => StatusOf(t - now)
    case _ => Valid
  }

  /** Position of a status on the way from valid to expired. */
  function Rank(s: Status): nat {
    match s
    case Valid => 0
    case ExpiringSoon => 1
    case Expired => 2
  }

  lemma {:induction false} CeilDaysAtMostZero(diff: int)
    ensures CeilDays(diff) <= 0 <==> diff <= 0
  {
    var d := CeilDays(diff);
    if d <= 0 {
      assert d * MsPerDay <= 0;
    } else {
      assert (d - 1) * MsPerDay >= 0;
    }
  }

  lemma {:induction false} CeilDaysAtMostSoon(diff: int)
    ensures CeilDays(diff) <= SoonDays <==> diff <= SoonDays * MsPerDay
  {
    var d := CeilDays(diff);
    if d <= SoonDays {
      assert d * MsPerDay <= SoonDays * MsPerDay;
    } else {
      assert (d - 1) * MsPerDay >= SoonDays * MsPerDay;
    }
  }

  /** `filterBy` case of `filterMedicines`: a record without a date always passes. */
  predicate PassesStatusFilter(e: ExpDate, filterBy: string, now: int) {
    if e.NoExpiry? then true
    else
      var d := DaysUntilExpiry(e, now);
      if filterBy == "expiring" then AtMost(d, SoonDays) && Above(d, 0)
      else if filterBy == "expired" then AtMost(d, 0)
      else if filterBy == "valid" then Above(d, SoonDays)
      else true
  }

  /** The test behind the "Expiring Soon" counter. */
  predicate CountsAsExpiringSoon(e: ExpDate, now: int) {
    if e.NoExpiry? then false
    else
      var d := DaysUntilExpiry(e, now);
      AtMost(d, SoonDays) && Above(d, 0)
  }

  /** The test behind the "Expired" counter. */
  predicate CountsAsExpired(e: ExpDate, now: int) {
    if e.NoExpiry? then false else AtMost(DaysUntilExpiry(e, now), 0)
  }

  /** The badge on a card of the grid. */
  function CardBadge(e: ExpDate, now: int): Status {
    var d := DaysUntilExpiry(e, now);
    var isExpiringSoon := AtMost(d, SoonDays) && Above(d, 0);
    var isExpired := AtMost(d, 0);
    if isExpired then Expired else if isExpiringSoon then ExpiringSoon else Valid
  }

  /** `disabled={isExpired}` on the card's request button. */
  predicate CardRequestDisabled(e: ExpDate, now: int) {
    AtMost(DaysUntilExpiry(e, now), 0)
  }

  /** `expdate && new Date(expdate) <= new Date()`: compares time values, NaN for an Invalid Date. */
  predicate ModalExpiredTest(e: ExpDate, now: int) {
    !e.NoExpiry? && e.At? && e.ms <= now
  }

  /** `expdate && Math.ceil((new Date(expdate) - new Date()) / MsPerDay) <= 30`. */
  predicate ModalSoonTest(e: ExpDate, now: int) {
    !e.NoExpiry? && AtMost(DaysUntilExpiry(e, now), SoonDays)
  }

  /** The badge of the detail view. */
  function ModalBadge(e: ExpDate, now: int): Status {
    if ModalExpiredTest(e, now) then Expired
    else if ModalSoonTest(e, now) then ExpiringSoon
    else Valid
  }

  /** The detail view's request button is disabled by the same timestamp test as its badge. */
  predicate ModalRequestDisabled(e: ExpDate, now: int) {
    ModalExpiredTest(e, now)
  }

  lemma {:induction false} CardBadgeIsClassification(e: ExpDate, now: int)
    ensures CardBadge(e, now) == Classification(e, now)
    ensures CardRequestDisabled(e, now) <==> CardBadge(e, now) == Expired
  {
    if e.At? {
      CeilDaysAtMostZero(e.ms - now);
      CeilDaysAtMostSoon(e.ms - now);
    }
  }

  lemma {:induction false} ModalBadgeIsClassification(e: ExpDate, now: int)
    ensures ModalBadge(e, now) == Classification(e, now)
    ensures ModalRequestDisabled(e, now) <==> ModalBadge(e, now) == Expired
  {
    if e.At? {
      CeilDaysAtMostSoon(e.ms - now);
    }
  }

  /**
   * The card's ceiling-based test and the detail view's raw-timestamp test
   * classify every record alike, and both disable the request button
   * exactly for an expired record.
   */
  lemma {:induction false} BadgesAgree(e: ExpDate, now: int)
    ensures CardBadge(e, now) == ModalBadge(e, now)
    ensures CardRequestDisabled(e, now) <==> ModalRequestDisabled(e, now)
    ensures CardRequestDisabled(e, now) <==> CardBadge(e, now) == Expired
  {
    CardBadgeIsClassification(e, now);
    ModalBadgeIsClassification(e, now);
  }

  /**
   * The status filter picks exactly the records of the reference class;
   * records without a date pass every filter, and records whose date does
   * not parse pass none of the three named ones.
   */
  lemma {:induction false} StatusFilterIsClassification(e: ExpDate, filterBy: string, now: int)
    ensures e.At? ==> (PassesStatusFilter(e, "expired", now) <==> Classification(e, now) == Expired)
    ensures e.At? ==> (PassesStatusFilter(e, "expiring", now) <==> Classification(e, now) == ExpiringSoon)
    ensures e.At? ==> (PassesStatusFilter(e, "valid", now) <==> Classification(e, now) == Valid)
    ensures e.NoExpiry? ==> PassesStatusFilter(e, filterBy, now)
    ensures e.Unparseable? ==> (PassesStatusFilter(e, filterBy, now) <==> filterBy !in ["expiring", "expired", "valid"])
    ensures filterBy !in ["expiring", "expired", "valid"] ==> PassesStatusFilter(e, filterBy, now)
  {
    if e.At? {
      CeilDaysAtMostZero(e.ms - now);
      CeilDaysAtMostSoon(e.ms - now);
    }
  }

  /** For a dated record exactly one of "expired", "expiring" and "valid" holds. */
  lemma {:induction false} StatusFiltersPartition(e: ExpDate, now: int)
    requires e.At?
    ensures (if PassesStatusFilter(e, "expired", now) then 1 else 0)
          + (if PassesStatusFilter(e, "expiring", now) then 1 else 0)
          + (if PassesStatusFilter(e, "valid", now) then 1 else 0) == 1
  {
    StatusFilterIsClassification(e, "", now);
  }

  /** The counters' tests are the card badge's: a record without a date is counted nowhere. */
  lemma {:induction false} CounterTestsAreClassification(e: ExpDate, now: int)
    ensures CountsAsExpiringSoon(e, now) <==> Classification(e, now) == ExpiringSoon
    ensures CountsAsExpired(e, now) <==> Classification(e, now) == Expired
    ensures !(CountsAsExpiringSoon(e, now) && CountsAsExpired(e, now))
  {
    CardBadgeIsClassification(e, now);
  }

  /** An earlier expiry date can only move a record from valid towards expired, never back. */
  lemma {:induction false} ClassificationMonotonic(t1: int, t2: int, now: int)
    requires t1 <= t2
    ensures Rank(CardBadge(At(t2), now)) <= Rank(CardBadge(At(t1), now))
  {
    CardBadgeIsClassification(At(t1), now);
    CardBadgeIsClassification(At(t2), now);
  }
}
