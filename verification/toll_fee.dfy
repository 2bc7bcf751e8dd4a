/**
 * The fee aggregator: the toll a vehicle pays for its passages of one day.
 * Only the highest fee of each interval of 60 minutes is charged, an interval
 * being anchored at its first charged passage, and the day's total is capped.
 */
module TollFee {

  import opened Tariffs

  /** The most a vehicle pays in one day. */
  const DailyCap := 60

  /** Passages at most this many seconds after an interval's first passage belong to it. */
  const IntervalSpan := 60 * SecondsPerMinute

  datatype Option<T> = None | Some(value: T)

  /** A passage with the fee its date matched. */
  datatype Passage = Passage(date: int, fee: int)

  /**
   * The accumulators of the fee loop: the total so far, the date of the first
   * passage of the open interval (None before the first charged passage) and
   * the highest fee charged in that interval.
   */
  datatype Tally = Tally(totalFee: int, intervalStart: Option<int>, intervalMax: int)

  const Initial := Tally(0, None, 0)

  function Max(a: int, b: int): int
  {
    if a < b then b else a
  }

  /** The vehicle's type is present in the exemption map and mapped to true. */
  predicate IsFree(tc: Calculator, vehicle: Vehicle)
  {
    vehicle.vehicleType in tc.vehicleTypeFree && tc.vehicleTypeFree[vehicle.vehicleType]
  }

  /** Each date with the fee the tariffs give it. */
  function Priced(tariffs: seq<Tariff>, dates: seq<int>): seq<Passage>
  {
    if dates == [] then []
    else [Passage(dates[0], FeeFromDate(tariffs, dates[0]))] + Priced(tariffs, dates[1..])
  }

  /** Passage `i` is date `i` with the fee the tariffs give it, and nothing is added or dropped. */
  lemma {:induction false} PricedPointwise(tariffs: seq<Tariff>, dates: seq<int>)
    ensures |Priced(tariffs, dates)| == |dates|
    ensures forall i :: 0 <= i < |dates| ==>
              Priced(tariffs, dates)[i] == Passage(dates[i], FeeFromDate(tariffs, dates[i]))
    decreases |dates|
  {
    if dates != [] {
      PricedPointwise(tariffs, dates[1..]);
    }
  }

  // ---------------------------------------------------------------------------
  // The loop, one passage at a time

  /**
   * One turn of the fee loop: it never lowers the total, and a charged
   * passage always leaves an interval open.
   */
  function Step(t: Tally, p: Passage): (s: Tally)
    ensures s.totalFee >= t.totalFee
    ensures p.fee >= 1 ==> s.intervalStart.Some?
  {
    if p.fee < 1 then t
    else match t.intervalStart
      case None => Tally(t.totalFee + p.fee, Some(p.date), p.fee)
      case Some(start) =>
        if p.date - start <= IntervalSpan then
          if p.fee > t.intervalMax then Tally(t.totalFee + (p.fee - t.intervalMax), t.intervalStart, p.fee)
          else t
        else Tally(t.totalFee + p.fee, Some(p.date), p.fee)
  }

  /** The fee loop run over every passage, without stopping early. */
  function Fold(t: Tally, ps: seq<Passage>): Tally
    decreases |ps|
  {
    if ps == [] then t else Fold(Step(t, ps[0]), ps[1..])
  }

  /** A passage whose fee is below 1 changes none of the accumulators. */
  lemma UnchargedStepChangesNothing(t: Tally, p: Passage)
    requires p.fee < 1
    ensures Step(t, p) == t
  {
  }

  /**
   * A charged passage at most 60 minutes after the interval's first passage
   * keeps the interval's anchor, adds only what its fee exceeds the interval's
   * maximum by, and raises the maximum to its fee if higher.
   */
  lemma StepWithinInterval(t: Tally, p: Passage)
    requires p.fee >= 1 && t.intervalStart.Some?
    requires p.date - t.intervalStart.value <= IntervalSpan
    ensures Step(t, p).intervalStart == t.intervalStart
    ensures Step(t, p).totalFee == t.totalFee + Max(0, p.fee - t.intervalMax)
    ensures Step(t, p).intervalMax == Max(t.intervalMax, p.fee)
  {
  }

  /**
   * A charged passage with no interval open, or more than 60 minutes after the
   * open interval's first passage, opens a new interval anchored at itself and
   * is charged its full fee.
   */
  lemma StepOpensInterval(t: Tally, p: Passage)
    requires p.fee >= 1
    requires t.intervalStart.None? || p.date - t.intervalStart.value > IntervalSpan
    ensures Step(t, p) == Tally(t.totalFee + p.fee, Some(p.date), p.fee)
  {
  }

  /** The total never decreases, whatever the fees. */
  lemma {:induction false} FoldNeverDecreases(t: Tally, ps: seq<Passage>)
    ensures Fold(t, ps).totalFee >= t.totalFee
    decreases |ps|
  {
    if ps != [] {
      FoldNeverDecreases(Step(t, ps[0]), ps[1..]);
    }
  }

  /**
   * Stopping as soon as the total reaches the cap gives the same day fee as
   * going through every passage and capping at the end.
   */
  lemma EarlyStopAgrees(t: Tally, ps: seq<Passage>)
    requires t.totalFee >= DailyCap
    ensures Capped(Fold(t, ps).totalFee) == Capped(t.totalFee) == DailyCap
  {
    FoldNeverDecreases(t, ps);
  }

  // ---------------------------------------------------------------------------
  // The reference definition: the sum of the maximum fee of each interval

  /** The passages that are charged at all: those whose fee is at least 1, in order. */
  function Charged(ps: seq<Passage>): (cs: seq<Passage>)
    ensures |cs| <= |ps|
    ensures forall p :: p in cs <==> p in ps && p.fee >= 1
  {
    if ps == [] then []
    else (if ps[0].fee >= 1 then [ps[0]] else []) + Charged(ps[1..])
  }

  /** Filtering keeps the order: the charged passages of `a + b` are those of `a`, then those of `b`. */
  lemma {:induction false} ChargedKeepsOrder(a: seq<Passage>, b: seq<Passage>)
    ensures Charged(a + b) == Charged(a) + Charged(b)
    decreases |a|
  {
    if a == [] {
      assert a + b == b;
    } else {
      assert (a + b)[0] == a[0] && (a + b)[1..] == a[1..] + b;
      ChargedKeepsOrder(a[1..], b);
    }
  }

  /**
   * The number of leading passages of `cs` at most 60 minutes after `start`:
   * they all are, and the passage after them, if any, is not.
   */
  function IntervalLength(start: int, cs: seq<Passage>): (n: nat)
    ensures n <= |cs|
    ensures forall j :: 0 <= j < n ==> cs[j].date - start <= IntervalSpan
    ensures n < |cs| ==> cs[n].date - start > IntervalSpan
  {
    if cs == [] || cs[0].date - start > IntervalSpan then 0
    else 1 + IntervalLength(start, cs[1..])
  }

  /**
   * Splits charged passages into intervals: each interval starts at a passage
   * and runs on for as long as the passages are at most 60 minutes after it.
   */
  function Intervals(cs: seq<Passage>): (ws: seq<seq<Passage>>)
    ensures forall k :: 0 <= k < |ws| ==> ws[k] != []
    decreases |cs|
  {
    if cs == [] then []
    else
      var n := 1 + IntervalLength(cs[0].date, cs[1..]);
      [cs[..n]] + Intervals(cs[n..])
  }

  /** The highest fee among `w`, and 0 for no passage. */
  function MaxFee(w: seq<Passage>): (m: int)
    ensures m >= 0
    ensures forall j :: 0 <= j < |w| ==> w[j].fee <= m
    ensures m == 0 || exists j :: 0 <= j < |w| && m == w[j].fee
  {
    if w == [] then 0 else Max(w[0].fee, MaxFee(w[1..]))
  }

  /** The highest fee of each interval, summed over the intervals. */
  function SumOfMaxima(ws: seq<seq<Passage>>): (total: int)
    ensures total >= 0
  {
    if ws == [] then 0 else MaxFee(ws[0]) + SumOfMaxima(ws[1..])
  }

  /** The total limited to the daily cap: the smaller of the two. */
  function Capped(total: int): (c: int)
    ensures c <= DailyCap && c <= total
    ensures c == total || c == DailyCap
  {
    if total > DailyCap then DailyCap else total
  }

  /**
   * The day's fee: nothing for a free vehicle type, else the highest fee of
   * each interval summed over the intervals, capped at DailyCap.
   */
  function DayFee(tc: Calculator, vehicle: Vehicle, dates: seq<int>): (fee: int)
    ensures 0 <= fee <= DailyCap
  {
    if IsFree(tc, vehicle) then 0
    else Capped(SumOfMaxima(Intervals(Charged(Priced(tc.tariffs, dates)))))
  }

  /**
   * A vehicle type missing from the exemption map, or mapped to false, pays
   * like any other: the lookup of a missing type reads as "not free".
   */
  lemma UnlistedTypeIsCharged(tc: Calculator, vehicle: Vehicle, dates: seq<int>)
    requires vehicle.vehicleType !in tc.vehicleTypeFree || !tc.vehicleTypeFree[vehicle.vehicleType]
    ensures DayFee(tc, vehicle, dates) == Capped(SumOfMaxima(Intervals(Charged(Priced(tc.tariffs, dates)))))
  {
  }

  function Concat(ws: seq<seq<Passage>>): seq<Passage>
  {
    if ws == [] then [] else ws[0] + Concat(ws[1..])
  }

  /** The intervals cover the charged passages exactly, in order. */
  lemma {:induction false} IntervalsPartition(cs: seq<Passage>)
    ensures Concat(Intervals(cs)) == cs
    decreases |cs|
  {
    if cs != [] {
      var n := 1 + IntervalLength(cs[0].date, cs[1..]);
      var ws := Intervals(cs);
      assert ws == [cs[..n]] + Intervals(cs[n..]);
      assert ws[0] == cs[..n] && ws[1..] == Intervals(cs[n..]);
      IntervalsPartition(cs[n..]);
      calc {
        Concat(ws);
        ws[0] + Concat(ws[1..]);
        cs[..n] + cs[n..];
        cs;
      }
    }
  }

  /**
   * Every interval is anchored at its first passage: all its passages are at
   * most 60 minutes after that one, and the next interval's first passage is
   * more than 60 minutes after it.
   */
  lemma {:induction false} IntervalsAnchored(cs: seq<Passage>, k: nat)
    requires k < |Intervals(cs)|
    ensures Intervals(cs)[k] != []
    ensures forall j :: 0 <= j < |Intervals(cs)[k]| ==>
              Intervals(cs)[k][j].date - Intervals(cs)[k][0].date <= IntervalSpan
    ensures k + 1 < |Intervals(cs)| ==>
              Intervals(cs)[k + 1][0].date - Intervals(cs)[k][0].date > IntervalSpan
    decreases |cs|
  {
    var n := 1 + IntervalLength(cs[0].date, cs[1..]);
    assert Intervals(cs)[1..] == Intervals(cs[n..]);
    if k == 0 {
      var w := cs[..n];
      assert forall j :: 1 <= j < n ==> w[j] == cs[1..][j - 1];
      if 1 < |Intervals(cs)| {
        assert cs[n..] != [];
        assert Intervals(cs)[1][0] == cs[n..][0] == cs[1..][n - 1];
      }
    } else {
      IntervalsAnchored(cs[n..], k - 1);
    }
  }

  /** Two charged passages at most 60 minutes apart are charged the higher fee only. */
  lemma SameIntervalChargesHigher(a: Passage, b: Passage)
    requires a.fee >= 1 && b.fee >= 1
    requires b.date - a.date <= IntervalSpan
    ensures SumOfMaxima(Intervals([a, b])) == Max(a.fee, b.fee)
  {
  }

  /** Two charged passages more than 60 minutes apart are both charged in full. */
  lemma SeparateIntervalsChargeBoth(a: Passage, b: Passage)
    requires a.fee >= 1 && b.fee >= 1
    requires b.date - a.date > IntervalSpan
    ensures SumOfMaxima(Intervals([a, b])) == a.fee + b.fee
  {
    assert [a, b][..1] == [a] && [a, b][1..] == [b];
    assert [b][..1] == [b] && [b][1..] == [];
    assert Intervals([a, b]) == [[a]] + Intervals([b]) == [[a], [b]];
    assert SumOfMaxima([[b]]) == MaxFee([b]) == b.fee;
  }

  // ---------------------------------------------------------------------------
  // The loop computes the reference definition

  /** Passages with a fee below 1 make no difference to the loop. */
  lemma {:induction false} FoldSkipsUncharged(t: Tally, ps: seq<Passage>)
    ensures Fold(t, ps) == Fold(t, Charged(ps))
    decreases |ps|
  {
    if ps != [] {
      FoldSkipsUncharged(Step(t, ps[0]), ps[1..]);
      if ps[0].fee >= 1 {
        assert Charged(ps) == [ps[0]] + Charged(ps[1..]);
        assert Charged(ps)[1..] == Charged(ps[1..]);
      } else {
        assert Charged(ps) == Charged(ps[1..]);
      }
    }
  }

  /**
   * With an interval open at `start` whose maximum is `m`, the loop adds what
   * the interval's remaining passages raise the maximum by, and then the sum
   * of the maxima of the intervals after it.
   */
  lemma {:induction false} FoldFromOpenInterval(total: int, start: int, m: int, cs: seq<Passage>)
    requires m >= 0
    requires forall j :: 0 <= j < |cs| ==> cs[j].fee >= 1
    ensures var n := IntervalLength(start, cs);
      Fold(Tally(total, Some(start), m), cs).totalFee ==
      total + (Max(m, MaxFee(cs[..n])) - m) + SumOfMaxima(Intervals(cs[n..]))
    decreases |cs|, 2
  {
    if cs == [] {
      assert cs[..0] == [];
    } else if cs[0].date - start > IntervalSpan {
      FoldLeavesInterval(total, start, m, cs);
      assert cs[..0] == [] && cs[0..] == cs;
    } else {
      FoldStaysInInterval(total, start, m, cs);
    }
  }

  /** A passage more than 60 minutes after `start` closes the interval: the loop goes on as if none were open. */
  lemma {:induction false} FoldLeavesInterval(total: int, start: int, m: int, cs: seq<Passage>)
    requires forall j :: 0 <= j < |cs| ==> cs[j].fee >= 1
    requires cs != [] && cs[0].date - start > IntervalSpan
    ensures Fold(Tally(total, Some(start), m), cs).totalFee == total + SumOfMaxima(Intervals(cs))
    decreases |cs|, 1
  {
    assert Step(Tally(total, Some(start), m), cs[0]) == Step(Tally(total, None, m), cs[0]);
    FoldFromClosed(total, m, cs);
  }

  /** A passage at most 60 minutes after `start` stays in the interval and raises its maximum. */
  lemma {:induction false} FoldStaysInInterval(total: int, start: int, m: int, cs: seq<Passage>)
    requires m >= 0
    requires forall j :: 0 <= j < |cs| ==> cs[j].fee >= 1
    requires cs != [] && cs[0].date - start <= IntervalSpan
    ensures var n := IntervalLength(start, cs);
      Fold(Tally(total, Some(start), m), cs).totalFee ==
      total + (Max(m, MaxFee(cs[..n])) - m) + SumOfMaxima(Intervals(cs[n..]))
    decreases |cs|, 1
  {
    var total', m' := total + Max(0, cs[0].fee - m), Max(m, cs[0].fee);
    assert Fold(Tally(total, Some(start), m), cs) == Fold(Tally(total', Some(start), m'), cs[1..]);
    FoldFromOpenInterval(total', start, m', cs[1..]);
    ExtendInterval(start, cs, IntervalLength(start, cs[1..]));
  }

  /** How the interval open at `start` grows by the passage `cs[0]` in it. */
  lemma ExtendInterval(start: int, cs: seq<Passage>, n': nat)
    requires cs != [] && cs[0].date - start <= IntervalSpan
    requires n' == IntervalLength(start, cs[1..])
    ensures IntervalLength(start, cs) == n' + 1
    ensures MaxFee(cs[..n' + 1]) == Max(cs[0].fee, MaxFee(cs[1..][..n']))
    ensures cs[n' + 1..] == cs[1..][n'..]
  {
  }

  /** With no interval open, the loop adds the sum of the maxima of the intervals. */
  lemma {:induction false} FoldFromClosed(total: int, m: int, cs: seq<Passage>)
    requires forall j :: 0 <= j < |cs| ==> cs[j].fee >= 1
    ensures Fold(Tally(total, None, m), cs).totalFee == total + SumOfMaxima(Intervals(cs))
    decreases |cs|, 0
  {
    if cs != [] {
      var n := 1 + IntervalLength(cs[0].date, cs[1..]);
      FoldFromOpenInterval(total + cs[0].fee, cs[0].date, cs[0].fee, cs[1..]);
      assert cs[..n][1..] == cs[1..][..n - 1];
      assert cs[n..] == cs[1..][n - 1..];
      assert Intervals(cs)[0] == cs[..n];
      assert Intervals(cs)[1..] == Intervals(cs[n..]);
    }
  }

  /** The loop run over every passage, from the initial accumulators, yields the reference total. */
  lemma FoldIsSumOfMaxima(ps: seq<Passage>)
    ensures Fold(Initial, ps).totalFee == SumOfMaxima(Intervals(Charged(ps)))
  {
    FoldSkipsUncharged(Initial, ps);
    var cs := Charged(ps);
    assert forall j :: 0 <= j < |cs| ==> cs[j] in cs;
    FoldFromClosed(0, 0, cs);
  }

  /**
   * One turn of the loop over the dates from `i` on: the accumulators after
   * the turn, run over the remaining dates, reach the same final tally.
   */
  lemma FoldTurn(before: Tally, after: Tally, tariffs: seq<Tariff>, dates: seq<int>, i: nat)
    requires i < |dates|
    requires after == Step(before, Passage(dates[i], FeeFromDate(tariffs, dates[i])))
    ensures Fold(after, Priced(tariffs, dates[i + 1..])) == Fold(before, Priced(tariffs, dates[i..]))
  {
  }

  /**
   * Whether the loop ran out of dates or stopped once the total reached the
   * cap, the capped total is the reference day fee.
   */
  lemma LoopExitAgrees(tc: Calculator, vehicle: Vehicle, dates: seq<int>, t: Tally, rest: seq<Passage>)
    requires !IsFree(tc, vehicle)
    requires Fold(t, rest) == Fold(Initial, Priced(tc.tariffs, dates))
    requires rest == [] || t.totalFee >= DailyCap
    ensures Capped(t.totalFee) == DayFee(tc, vehicle, dates)
  {
    if t.totalFee >= DailyCap {
      EarlyStopAgrees(t, rest);
    }
    FoldIsSumOfMaxima(Priced(tc.tariffs, dates));
  }

  // ---------------------------------------------------------------------------
  // The fee loop itself

  /** The date the open interval is anchored at, given as an index into `dates`. */
  function Anchor(dates: seq<int>, intervalStart: Option<nat>): Option<int>
    requires intervalStart.Some? ==> intervalStart.value < |dates|
  {
    if intervalStart.None? then None else Some(dates[intervalStart.value])
  }

  /**
   * The fee a vehicle pays for passing toll points at `dates` on one day.  A
   * free vehicle type pays nothing; otherwise each passage is matched against
   * the tariffs and only the highest fee of each 60-minute interval is added,
   * the loop stopping once the total reaches the cap.
   */
  method GetTollFee(tc: Calculator, vehicle: Vehicle, dates: seq<int>) returns (fee: int)
    ensures fee == DayFee(tc, vehicle, dates)
    ensures IsFree(tc, vehicle) ==> fee == 0
    ensures 0 <= fee <= DailyCap
  {
    if vehicle.vehicleType in tc.vehicleTypeFree && tc.vehicleTypeFree[vehicle.vehicleType] {
      return 0;
    }

    var totalFee := 0;
    var intervalStart: Option<nat> := None;
    var intervalMax := 0;
    var i := 0;
    while i < |dates| && totalFee < DailyCap
      invariant 0 <= i <= |dates|
      invariant intervalStart.Some? ==> intervalStart.value < i
      invariant Fold(Tally(totalFee, Anchor(dates, intervalStart), intervalMax), Priced(tc.tariffs, dates[i..]))
                == Fold(Initial, Priced(tc.tariffs, dates))
    {
      ghost var before := Tally(totalFee, Anchor(dates, intervalStart), intervalMax);
      var f := FeeFromDate(tc.tariffs, dates[i]);
      ghost var p := Passage(dates[i], f);
      if f < 1 {
        UnchargedStepChangesNothing(before, p);
      } else if intervalStart.None? {
        StepOpensInterval(before, p);
        intervalStart := Some(i);
        intervalMax := f;
        totalFee := totalFee + f;
      } else if dates[i] - dates[intervalStart.value] <= IntervalSpan {
        StepWithinInterval(before, p);
        if f > intervalMax {
          totalFee := totalFee + (f - intervalMax);
          intervalMax := f;
        }
      } else {
        StepOpensInterval(before, p);
        intervalStart := Some(i);
        intervalMax := f;
        totalFee := totalFee + f;
      }
      FoldTurn(before, Tally(totalFee, Anchor(dates, intervalStart), intervalMax), tc.tariffs, dates, i);
      i := i + 1;
    }

    LoopExitAgrees(tc, vehicle, dates, Tally(totalFee, Anchor(dates, intervalStart), intervalMax),
                   Priced(tc.tariffs, dates[i..]));

    if totalFee > DailyCap {
      return DailyCap;
    }
    return totalFee;
  }
}
