/**
 * Tariffs, vehicles and the calculator configuration of the toll calculator,
 * and the tariff matcher: the fee that applies to one passage.
 *
 * Time is modelled as whole seconds since 1970-01-01T00:00:00 UTC, and a
 * duration as a whole number of seconds.
 */
module Tariffs {

  const SecondsPerMinute := 60
  const SecondsPerDay := 24 * 60 * SecondsPerMinute

  /** A vehicle category; the source enumerates it as integers starting at 1. */
  type VehicleType = int

  const Car: VehicleType := 1
  const Motorbike: VehicleType := 2
  const Tractor: VehicleType := 3
  const Emergency: VehicleType := 4
  const Diplomat: VehicleType := 5
  const Foreign: VehicleType := 6
  const Military: VehicleType := 7

  datatype Vehicle = Vehicle(vehicleType: VehicleType)

  /**
   * A recurrence set, seen only through the one query the matcher makes of it:
   * `rruleSet(after, before)` is the ordered list of occurrence starts between
   * `after` and `before`, both bounds included.  How the recurrence rule is
   * evaluated is not part of this model.
   */
  type RRuleSet = (int, int) -> seq<int>

  /**
   * A time rule: every occurrence of `rruleSet` opens a window of `duration`
   * seconds during which a passage costs `fee`.
   */
  datatype Tariff = Tariff(rruleSet: RRuleSet, duration: int, fee: int)

  /**
   * The tariffs, in the order of priority in which they apply, and the
   * vehicle types that pass for free.
   */
  datatype Calculator = Calculator(tariffs: seq<Tariff>, vehicleTypeFree: map<VehicleType, bool>)

  /** Midnight (UTC) of the calendar day that holds `date`. */
  function DayStart(date: int): (start: int)
    ensures start <= date < start + SecondsPerDay
    ensures start % SecondsPerDay == 0
  {
    date - date % SecondsPerDay
  }

  /** The occurrence starts of `t` on the UTC day of `date`, from midnight to the next midnight. */
  function DayOccurrences(t: Tariff, date: int): seq<int>
  {
    var dayStart := DayStart(date);
    t.rruleSet(dayStart, dayStart + SecondsPerDay)
  }

  /** `date` lies in the window opened at `start`: the start is inside, the end is not. */
  predicate InWindow(start: int, duration: int, date: int)
  {
    start <= date < start + duration
  }

  /** Every passage of one UTC day sees the same occurrences of a tariff. */
  lemma SameDaySameOccurrences(t: Tariff, date1: int, date2: int)
    requires DayStart(date1) <= date2 < DayStart(date1) + SecondsPerDay
    ensures DayOccurrences(t, date1) == DayOccurrences(t, date2)
  {
  }

  /** Some occurrence of `t` on the day of `date` opens a window holding `date`. */
  ghost predicate Matches(t: Tariff, date: int)
  {
    var occurrences := DayOccurrences(t, date);
    exists i :: 0 <= i < |occurrences| && InWindow(occurrences[i], t.duration, date)
  }

  /** Tariff `k` matches `date` and no tariff before it does. */
  ghost predicate IsFirstMatch(tariffs: seq<Tariff>, k: int, date: int)
  {
    0 <= k < |tariffs| && Matches(tariffs[k], date) &&
    forall j :: 0 <= j < k ==> !Matches(tariffs[j], date)
  }

  ghost predicate NoneMatches(tariffs: seq<Tariff>, date: int)
  {
    forall k :: 0 <= k < |tariffs| ==> !Matches(tariffs[k], date)
  }

  /** The inner search: does any of the windows opened at `starts` hold `date`? */
  function AnyWindowHolds(starts: seq<int>, duration: int, date: int): (found: bool)
    ensures found <==> exists i :: 0 <= i < |starts| && InWindow(starts[i], duration, date)
  {
    if starts == [] then false
    else InWindow(starts[0], duration, date) || AnyWindowHolds(starts[1..], duration, date)
  }

  /**
   * The fee of the first tariff, in priority order, that has a window holding
   * `date`, or 0 when none has.
   */
  function FeeFromDate(tariffs: seq<Tariff>, date: int): int
  {
    if tariffs == [] then 0
    else if AnyWindowHolds(DayOccurrences(tariffs[0], date), tariffs[0].duration, date) then
      tariffs[0].fee
    else
      FeeFromDate(tariffs[1..], date)
  }

  /**
   * The matched fee is that of the first matching tariff, later tariffs not
   * being consulted even when their fee is higher, and 0 when none matches.
   */
  lemma {:induction false} FeeFromDateIsFirstMatch(tariffs: seq<Tariff>, date: int)
    ensures forall k :: IsFirstMatch(tariffs, k, date) ==> FeeFromDate(tariffs, date) == tariffs[k].fee
    ensures NoneMatches(tariffs, date) ==> FeeFromDate(tariffs, date) == 0
  {
    if tariffs != [] {
      FeeFromDateIsFirstMatch(tariffs[1..], date);
      assert forall k :: IsFirstMatch(tariffs, k, date) && k > 0 ==> IsFirstMatch(tariffs[1..], k - 1, date);
    }
  }

  /** The matched fee is 0 or the fee of some tariff in the list. */
  lemma {:induction false} FeeFromDateIsSomeTariffFee(tariffs: seq<Tariff>, date: int)
    ensures FeeFromDate(tariffs, date) == 0 ||
            exists k :: 0 <= k < |tariffs| && FeeFromDate(tariffs, date) == tariffs[k].fee
  {
    if tariffs != [] && !AnyWindowHolds(DayOccurrences(tariffs[0], date), tariffs[0].duration, date) {
      FeeFromDateIsSomeTariffFee(tariffs[1..], date);
      if FeeFromDate(tariffs[1..], date) != 0 {
        var k :| 0 <= k < |tariffs[1..]| && FeeFromDate(tariffs[1..], date) == tariffs[1..][k].fee;
        assert FeeFromDate(tariffs, date) == tariffs[k + 1].fee;
      }
    }
  }

  /**
   * Once some tariff of `first` matches, the tariffs after `first` are never
   * consulted, whatever their fees.
   */
  lemma {:induction false} LaterTariffsIgnored(first: seq<Tariff>, later: seq<Tariff>, date: int, k: int)
    requires 0 <= k < |first| && Matches(first[k], date)
    ensures FeeFromDate(first + later, date) == FeeFromDate(first, date)
  {
    if !AnyWindowHolds(DayOccurrences(first[0], date), first[0].duration, date) {
      assert (first + later)[1..] == first[1..] + later;
      LaterTariffsIgnored(first[1..], later, date, k - 1);
    }
  }

  /** A tariff with a duration of zero or less opens windows that hold no date, so it never applies. */
  lemma NonPositiveDurationNeverMatches(t: Tariff, later: seq<Tariff>, date: int)
    requires t.duration <= 0
    ensures !Matches(t, date)
    ensures FeeFromDate([t] + later, date) == FeeFromDate(later, date)
  {
  }

  /**
   * A tariff whose recurrence yields no occurrence on the day of `date` is
   * inactive that day: the lookup falls through to the tariffs after it.
   */
  lemma NoOccurrenceFallsThrough(t: Tariff, later: seq<Tariff>, date: int)
    requires DayOccurrences(t, date) == []
    ensures FeeFromDate([t] + later, date) == FeeFromDate(later, date)
  {
  }

  /**
   * With one occurrence `s` on that day, the tariff applies exactly from `s`
   * (included) to `s + duration` (excluded); otherwise the later tariffs decide.
   */
  lemma SingleOccurrenceWindow(t: Tariff, later: seq<Tariff>, s: int, date: int)
    requires DayOccurrences(t, date) == [s]
    ensures FeeFromDate([t] + later, date) ==
            if s <= date < s + t.duration then t.fee else FeeFromDate(later, date)
  {
  }
}
