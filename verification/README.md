# Toll fee engine, modelled in Dafny

This project models the fee computation of the Go toll calculator
(`Go/tolls.go`). It has two parts.

- **Tariff matcher** (module `Tariffs`, file `tariffs.dfy`). `FeeFromDate`
  looks up the fee for one passage. It takes the UTC calendar day of the
  passage and walks the tariffs in priority order. For each tariff it walks
  the occurrence starts the tariff's recurrence set yields for that day. It
  returns the fee of the first tariff with a window `[start, start + duration)`
  that holds the passage, and 0 when no tariff has one.
- **Fee aggregator** (module `TollFee`, file `toll_fee.dfy`). `GetTollFee` is
  the day's fee for one vehicle. A vehicle type that the calculator's
  `vehicleTypeFree` map sends to `true` pays 0. Otherwise the method loops over
  the passages. It skips passages whose fee is below 1. It charges only the
  highest fee of each interval, where an interval runs for 60 minutes from its
  first charged passage. The loop stops once the total reaches 60, and the
  result is capped at 60.

The loop is proved against a reference definition, `DayFee`. That definition
splits the charged passages into intervals (`Intervals`), takes the highest
fee of each interval (`MaxFee`), sums those maxima and caps the sum. The proof
goes through `Fold`, which runs the loop body (`Step`) over every passage
without stopping early. `FoldIsSumOfMaxima` shows that this run gives the sum
of interval maxima. `EarlyStopAgrees` shows that stopping at the cap changes
nothing once the result is capped.

Time is whole seconds since 1970-01-01T00:00:00 UTC. A tariff's duration is
in seconds. The 60-minute test `diff.Minutes() <= 60` becomes
`diff <= 3600` seconds, which is exact for whole seconds.

A tariff's recurrence set is a total function `rruleSet(after, before)`. It
stands for the `Between(dayStart, dayEnd, true)` query, which returns the
occurrence starts between the two instants with both bounds included.

The model does what `Go/tolls.go` does, including where it is lenient:

- `Between` is asked for the day's occurrences with both bounds included
  (Go/tolls.go:127), and the model's recurrence query includes both bounds too.
- Fees and durations are not checked. A negative fee is skipped like any fee
  below 1 (Go/tolls.go:92). A non-positive duration opens windows that hold no
  passage (Go/tolls.go:129-130).
- Passages are not checked to be chronological or on one day, so `GetTollFee`
  accepts any sequence of dates and does with it what the loop does.

## Model

| member | source | states |
|---|---|---|
| `Tariffs.DayStart` | Go/tolls.go:124-125 | the day start is a multiple of a day, at or before the date, and less than a day before it |
| `Tariffs.DayOccurrences` | Go/tolls.go:124-127 | no contract of its own: the occurrences asked for run from the date's UTC midnight to the next midnight; `SameDaySameOccurrences` states that every passage of one day sees the same occurrences |
| `Tariffs.SameDaySameOccurrences` | Go/tolls.go:124-127 | two dates of the same UTC day get the same occurrence list from a tariff |
| `Tariffs.InWindow` | Go/tolls.go:129-130 | no contract of its own: the window holds its start and not its end; `NonPositiveDurationNeverMatches` and `SingleOccurrenceWindow` state what follows from it |
| `Tariffs.NonPositiveDurationNeverMatches` | Go/tolls.go:129-131 | a tariff with a duration of zero or less never matches, and the later tariffs decide the fee |
| `Tariffs.AnyWindowHolds` | Go/tolls.go:128-133 | the inner search succeeds exactly when some occurrence start `s` has `s <= date < s + duration` |
| `Tariffs.FeeFromDate` | Go/tolls.go:123-137 | no contract of its own, to keep the loop's proof cheap; `FeeFromDateIsFirstMatch` and `FeeFromDateIsSomeTariffFee` carry its contract |
| `Tariffs.FeeFromDateIsFirstMatch` | Go/tolls.go:123-137 | the matched fee is the fee of the first tariff in list order whose window holds the date, even if a later tariff has a higher fee; it is 0 when no tariff matches |
| `Tariffs.FeeFromDateIsSomeTariffFee` | Go/tolls.go:130-136 | the matched fee is 0 or the fee of some tariff in the list |
| `Tariffs.LaterTariffsIgnored` | Go/tolls.go:126-131 | once a tariff of a prefix matches, appending more tariffs does not change the fee |
| `Tariffs.NoOccurrenceFallsThrough` | Go/tolls.go:126-134 | a tariff with no occurrence on the date's day is skipped, and the later tariffs decide |
| `Tariffs.SingleOccurrenceWindow` | Go/tolls.go:129-131 | with a single occurrence `s`, the tariff applies from `s` (included) to `s + duration` (excluded), and otherwise the later tariffs decide |
| `TollFee.IsFree` | Go/tolls.go:82 | no contract of its own: the type is in the exemption map and mapped to true; `UnlistedTypeIsCharged` and `GetTollFee` state its effect |
| `TollFee.UnlistedTypeIsCharged` | Go/tolls.go:82-84 | a type missing from the exemption map, or mapped to false, pays the ordinary day fee |
| `TollFee.Priced` | Go/tolls.go:90 | no contract of its own; `PricedPointwise` states it |
| `TollFee.PricedPointwise` | Go/tolls.go:89-90 | one passage per date, in order, each with the fee the tariffs give its date |
| `TollFee.Step` | Go/tolls.go:90-112 | one turn never lowers the total, and a charged passage always leaves an interval open; the three `Step*` lemmas state each branch |
| `TollFee.UnchargedStepChangesNothing` | Go/tolls.go:90-94 | a passage with fee below 1 leaves the total, the interval start and the interval maximum unchanged |
| `TollFee.StepWithinInterval` | Go/tolls.go:103-107 | a charged passage at most 60 minutes after the interval's first passage keeps the anchor, adds `max(0, fee - intervalMax)` and raises the maximum to the larger of the two |
| `TollFee.StepOpensInterval` | Go/tolls.go:96-112 | a charged passage with no open interval, or more than 60 minutes after the anchor, opens an interval anchored at itself and adds its full fee |
| `TollFee.FoldNeverDecreases` | Go/tolls.go:86-113 | running the loop body over any passages never lowers the total |
| `TollFee.EarlyStopAgrees` | Go/tolls.go:89-119 | once the total has reached 60, processing more passages and then capping still gives 60 |
| `TollFee.Charged` | Go/tolls.go:90-94 | the charged passages are exactly the passages with a fee of at least 1 |
| `TollFee.ChargedKeepsOrder` | Go/tolls.go:89-94 | skipping uncharged passages keeps the order: the charged passages of `a + b` are those of `a` followed by those of `b` |
| `TollFee.IntervalLength` | Go/tolls.go:103 | an interval takes the longest run of passages at most 60 minutes after its anchor; the passage after the run is more than 60 minutes after it |
| `TollFee.Intervals` | Go/tolls.go:96-112 | every interval holds at least one passage |
| `TollFee.MaxFee` | Go/tolls.go:104-107 | the interval maximum is at least every fee in the interval and is one of them (0 for no passage) |
| `TollFee.SumOfMaxima` | Go/tolls.go:96-112 | the sum of the interval maxima is never negative |
| `TollFee.Capped` | Go/tolls.go:115-119 | the capped total is the smaller of the total and 60 |
| `TollFee.DayFee` | Go/tolls.go:81-120 | the reference day fee is in `[0, 60]` whatever the fees |
| `TollFee.IntervalsPartition` | Go/tolls.go:96-112 | the intervals, concatenated, give back the charged passages in order |
| `TollFee.IntervalsAnchored` | Go/tolls.go:96-112 | every passage of an interval is at most 60 minutes after the interval's first passage, and the next interval starts more than 60 minutes after it, so the anchor never moves to a passage in between |
| `TollFee.SameIntervalChargesHigher` | Go/tolls.go:103-107 | two charged passages at most 60 minutes apart are charged the higher fee only, in either order |
| `TollFee.SeparateIntervalsChargeBoth` | Go/tolls.go:108-112 | two charged passages more than 60 minutes apart are both charged in full |
| `TollFee.FoldSkipsUncharged` | Go/tolls.go:90-94 | dropping the passages with fee below 1 does not change the loop's result |
| `TollFee.FoldFromOpenInterval` | Go/tolls.go:103-112 | with an interval open, the loop adds what the rest of that interval raises its maximum by, plus the maxima of the later intervals |
| `TollFee.FoldLeavesInterval` | Go/tolls.go:108-112 | a passage beyond the open interval makes the loop continue as if no interval were open |
| `TollFee.FoldStaysInInterval` | Go/tolls.go:103-107 | a passage inside the open interval is folded into that interval's maximum |
| `TollFee.FoldFromClosed` | Go/tolls.go:96-101 | with no interval open, the loop adds the sum of the interval maxima |
| `TollFee.FoldIsSumOfMaxima` | Go/tolls.go:86-113 | loop invariant: the total equals the sum of the highest fee of each interval |
| `TollFee.FoldTurn` | Go/tolls.go:89-113 | one turn of the loop keeps the final tally of the remaining passages unchanged |
| `TollFee.LoopExitAgrees` | Go/tolls.go:115-119 | whether the loop ran out of dates or stopped at the cap, the capped total is the reference day fee |
| `TollFee.GetTollFee` | Go/tolls.go:81-120 | the method returns the reference day fee; a free vehicle type pays 0; the result is in `[0, 60]` |

## Left out

- `NewCalculatorFromFile` (Go/tolls.go:42-78): it reads a file and decodes JSON, which is I/O and library code. A `Calculator` value is built directly instead.
- Recurrence rule evaluation (`rrule.StrToRRuleSet`, `Set.Between`): this is a library outside the repository. Each tariff carries an uninterpreted function from a day range to occurrence starts, so no recurrence grammar is modelled.
- Time zones: the code takes the calendar date in the timestamp's own location and builds UTC midnight from it. The model's timestamps are UTC instants, so it covers timestamps given in UTC, as the tests use.
- Sub-second precision and the float conversion in `Duration.Minutes()`: timestamps are whole seconds, where the float comparison equals the integer one.
- 64-bit limits of `time.Duration` and `time.Time` arithmetic: integers are unbounded, so saturation and overflow far from real dates are not modelled.
- GetTollFee: does not model wrap-around of Go's 64-bit `int` total (Go/tolls.go:99, 105, 111). With fees of 2^63 - 59 or more the Go sum can wrap to a negative value, which the model's `0 <= fee <= 60` does not allow. The model's total is unbounded, so its contract holds for fees below that bound.
- `Vehicle` types outside the seven named constants: they are kept as plain integers, as in the code, and are charged unless the map marks them free.
- Go/tolls_test.go: its expected fees depend on a configuration file that is not part of this model.
- Idempotence of the fee computation is not stated as a lemma: every member is a function of its inputs, so equal inputs give equal results by construction.
