/** UAS7 (Urticaria Activity Score over 7 days): validation of the seven daily
    entries, the daily and weekly totals, the rounded daily average, the
    four-band label, and the helpers that build and update an input. */
module Uas7 {
  import opened Common
  import Sorting

  // ---------------------------------------------------------------------
  // Input and output records
  // ---------------------------------------------------------------------

  /** One day's entry; `dailyTotal` is optional on input and filled in by the
      calculation. */
  datatype DailyScore = DailyScore(day: int, wheals: int, itching: int, dailyTotal: Option<int>)

  datatype Uas7Input = Uas7Input(dailyScores: seq<DailyScore>)

  datatype Interpretation = WellControlled | Mild | Moderate | Severe

  datatype Uas7Result = Uas7Result(
    dailyScores: seq<DailyScore>, weeklyTotal: int, interpretation: Interpretation, averageDaily: real)

  /** A violation inside one entry, naming the offending field's value. */
  datatype DayError = DayOutOfRange(day: int) | WhealsInvalid(wheals: int) | ItchingInvalid(itching: int)

  /** A violation of the whole input. `InvalidEntry` groups the errors of one
      entry under its day number; `DaysNotOneToSeven` carries the day numbers
      in input order. */
  datatype Uas7Error =
    | WrongDayCount(count: nat)
    | InvalidEntry(day: int, errors: seq<DayError>)
    | DaysNotOneToSeven(days: seq<int>)

  /** Why `CalculateUas7` refused: the complete validation error list. */
  datatype Uas7Failure = InvalidUas7Input(errors: seq<Uas7Error>)

  // ---------------------------------------------------------------------
  // Field domains
  // ---------------------------------------------------------------------

  predicate DayInRange(d: int) {
    1 <= d <= 7
  }

  /** `[0, 1, 2, 3].includes(score)`, for wheals and itching alike. */
  predicate IsScore(v: int) {
    0 <= v <= 3
  }

  /** Position of an entry error in the order the validator checks fields. */
  function DayErrorRank(e: DayError): nat {
    match e
    case DayOutOfRange(_) => 0
    case WhealsInvalid(_) => 1
    case ItchingInvalid(_) => 2
  }

  // ---------------------------------------------------------------------
  // Validators
  // ---------------------------------------------------------------------

  /** `validateDailyScore`: the day, then the wheals, then the itching score,
      each reported when out of its domain; valid iff none is. */
  function ValidateDailyScore(s: DailyScore): (v: Validation<DayError>)
    ensures v.Valid() <==> DayInRange(s.day) && IsScore(s.wheals) && IsScore(s.itching)
    ensures DayOutOfRange(s.day) in v.errors <==> !DayInRange(s.day)
    ensures WhealsInvalid(s.wheals) in v.errors <==> !IsScore(s.wheals)
    ensures ItchingInvalid(s.itching) in v.errors <==> !IsScore(s.itching)
    ensures forall e | e in v.errors ::
      e == DayOutOfRange(s.day) || e == WhealsInvalid(s.wheals) || e == ItchingInvalid(s.itching)
    ensures forall i, j | 0 <= i < j < |v.errors| :: DayErrorRank(v.errors[i]) < DayErrorRank(v.errors[j])
  {
    var dayErrors := if DayInRange(s.day) then [] else [DayOutOfRange(s.day)];
    var whealErrors := if IsScore(s.wheals) then [] else [WhealsInvalid(s.wheals)];
    var itchErrors := if IsScore(s.itching) then [] else [ItchingInvalid(s.itching)];
    Validation(dayErrors + whealErrors + itchErrors)
  }

  predicate EntryValid(s: DailyScore) {
    ValidateDailyScore(s).Valid()
  }

  /** Every entry passes `validateDailyScore`. */
  predicate AllEntriesValid(ds: seq<DailyScore>) {
    forall s | s in ds :: EntryValid(s)
  }

  /** The error an invalid entry contributes to the whole-input list. */
  function EntryError(s: DailyScore): Uas7Error {
    InvalidEntry(s.day, ValidateDailyScore(s).errors)
  }

  /** The errors one entry contributes: none when valid, else its `InvalidEntry`. */
  function EntryErrorOf(s: DailyScore): seq<Uas7Error> {
    if EntryValid(s) then [] else [EntryError(s)]
  }

  /** One `InvalidEntry` error per invalid entry of `ds`, in input order;
      empty exactly when every entry is valid. */
  function EntryErrors(ds: seq<DailyScore>): (errs: seq<Uas7Error>)
    ensures |errs| <= |ds|
    ensures |errs| == 0 <==> AllEntriesValid(ds)
  {
    if ds == [] then []
    else
      var rest := EntryErrors(ds[1..]);
      assert forall s | s in ds[1..] :: s in ds;
      assert AllEntriesValid(ds) <==> EntryValid(ds[0]) && AllEntriesValid(ds[1..]);
      EntryErrorOf(ds[0]) + rest
  }

  /** The day numbers of the entries, in input order. */
  function Days(ds: seq<DailyScore>): (days: seq<int>)
    ensures |days| == |ds|
    ensures forall i | 0 <= i < |ds| :: days[i] == ds[i].day
  {
    seq(|ds|, i requires 0 <= i < |ds| => ds[i].day)
  }

  const ExpectedDays: seq<int> := [1, 2, 3, 4, 5, 6, 7]

  /** The day numbers are exactly 1..7, each once, in any order. */
  predicate DaysMatch(ds: seq<DailyScore>) {
    multiset(Days(ds)) == multiset(ExpectedDays)
  }

  /** `validateUas7Input`: never stops early; valid iff there are seven
      entries, each entry is valid, and the days are 1..7. The order of the
      errors (count, then entries, then day set) is stated by
      `CountErrorFirst`, `EntryErrorsInMiddle` and `DaySetErrorLast`. */
  function ValidateUas7Input(input: Uas7Input): (v: Validation<Uas7Error>)
    ensures v.Valid() <==>
      |input.dailyScores| == 7 && AllEntriesValid(input.dailyScores) && DaysMatch(input.dailyScores)
  {
    var ds := input.dailyScores;
    Validation(CountErrors(ds) + EntryErrors(ds) + DaySetErrors(ds))
  }

  /** The count check: one error, carrying the count, unless there are seven
      entries. */
  function CountErrors(ds: seq<DailyScore>): (errs: seq<Uas7Error>)
    ensures |errs| <= 1
    ensures |errs| == 1 <==> |ds| != 7
    ensures forall e | e in errs :: e == WrongDayCount(|ds|)
  {
    if |ds| != 7 then [WrongDayCount(|ds|)] else []
  }

  /** The day-set check: one error, carrying the days in input order, unless
      the days are 1..7. */
  function DaySetErrors(ds: seq<DailyScore>): (errs: seq<Uas7Error>)
    ensures |errs| <= 1
    ensures |errs| == 1 <==> !DaysMatch(ds)
    ensures forall e | e in errs :: e == DaysNotOneToSeven(Days(ds))
  {
    if DaysMatch(ds) then [] else [DaysNotOneToSeven(Days(ds))]
  }

  // ---------------------------------------------------------------------
  // Scores
  // ---------------------------------------------------------------------

  /** `calculateDailyTotal`: wheals + itching. */
  function CalculateDailyTotal(wheals: int, itching: int): (t: int)
    ensures IsScore(wheals) && IsScore(itching) ==> 0 <= t <= 6
    ensures IsScore(wheals) && IsScore(itching) ==> (t == 0 <==> wheals == 0 && itching == 0)
  {
    wheals + itching
  }

  /** The entry with its daily total filled in: every other field is kept,
      the stored total agrees with the entry's own scores, and on a valid
      entry it lies in [0, 6]. */
  function WithDailyTotal(s: DailyScore): (r: DailyScore)
    ensures r.(dailyTotal := None) == s.(dailyTotal := None)
    ensures r.dailyTotal == Some(r.wheals + r.itching)
    ensures EntryValid(s) ==> 0 <= r.dailyTotal.value <= 6
  {
    s.(dailyTotal := Some(CalculateDailyTotal(s.wheals, s.itching)))
  }

  /** The `map` over the entries that fills in every daily total: same
      length and order, every other field kept, every stored total equal to
      wheals + itching. */
  function Scored(ds: seq<DailyScore>): (out: seq<DailyScore>)
    ensures |out| == |ds|
    ensures forall i | 0 <= i < |ds| :: ds[i].(dailyTotal := None) == out[i].(dailyTotal := None)
    ensures forall i | 0 <= i < |ds| :: out[i].dailyTotal == Some(ds[i].wheals + ds[i].itching)
  {
    seq(|ds|, i requires 0 <= i < |ds| => WithDailyTotal(ds[i]))
  }

  /** Every stored total agrees with its entry's scores. */
  predicate TotalsStored(ds: seq<DailyScore>) {
    forall i | 0 <= i < |ds| :: ds[i].dailyTotal == Some(ds[i].wheals + ds[i].itching)
  }

  /** No entry carries a stored total. */
  predicate NoTotalsStored(ds: seq<DailyScore>) {
    forall i | 0 <= i < |ds| :: ds[i].dailyTotal.None?
  }

  /** The `reduce` over the entries: sum of the daily totals, an absent total
      counting as 0 (`day.dailyTotal || 0`). When every total is stored it
      is the reference sum of wheals + itching; when none is, it is 0. */
  function WeeklySum(ds: seq<DailyScore>): (w: int)
    ensures TotalsStored(ds) ==> w == RawSum(ds)
    ensures NoTotalsStored(ds) ==> w == 0
  {
    if ds == [] then 0
    else
      assert TotalsStored(ds) ==> TotalsStored(ds[1..]) by {
        if TotalsStored(ds) {
          forall i | 0 <= i < |ds[1..]| ensures ds[1..][i].dailyTotal == Some(ds[1..][i].wheals + ds[1..][i].itching) {
            assert ds[1..][i] == ds[i + 1];
          }
        }
      }
      assert NoTotalsStored(ds) ==> NoTotalsStored(ds[1..]) by {
        if NoTotalsStored(ds) {
          forall i | 0 <= i < |ds[1..]| ensures ds[1..][i].dailyTotal.None? {
            assert ds[1..][i] == ds[i + 1];
          }
        }
      }
      ValueOr(ds[0].dailyTotal, 0) + WeeklySum(ds[1..])
  }

  /** Reference sum: wheals + itching over all entries, ignoring stored totals. */
  function RawSum(ds: seq<DailyScore>): int {
    if ds == [] then 0 else ds[0].wheals + ds[0].itching + RawSum(ds[1..])
  }

  /** `interpretScore` for UAS7: 0 well-controlled, up to 6 mild, up to 15
      moderate, above 15 severe. */
  function Interpret(w: int): (r: Interpretation)
    ensures r == WellControlled <==> w == 0
    ensures r == Mild <==> w != 0 && w <= 6
    ensures r == Moderate <==> 7 <= w <= 15
    ensures r == Severe <==> 16 <= w
  {
    if w == 0 then WellControlled
    else if w <= 6 then Mild
    else if w <= 15 then Moderate
    else Severe
  }

  /** How severe a label is, for comparing labels. */
  function Rank(i: Interpretation): nat {
    match i
    case WellControlled => 0
    case Mild => 1
    case Moderate => 2
    case Severe => 3
  }

  /** `Math.round((weeklyTotal / 7) * 10) / 10`: a whole number of tenths
      within half a tenth of the exact average, and in [0, 6] for a weekly
      total in [0, 42]. */
  function AverageDaily(weeklyTotal: int): (avg: real)
    ensures weeklyTotal as real / 7.0 - 0.05 < avg <= weeklyTotal as real / 7.0 + 0.05
    ensures (10.0 * avg).Floor as real == 10.0 * avg
    ensures 0 <= weeklyTotal <= 42 ==> 0.0 <= avg <= 6.0
  {
    var x := weeklyTotal as real / 7.0;
    if 0 <= weeklyTotal <= 42 then
      Round1Between(x, 0, 60);
      Round1(x)
    else Round1(x)
  }

  // ---------------------------------------------------------------------
  // The calculation
  // ---------------------------------------------------------------------

  /** The scoring half of `calculateUas7`, on entries that passed validation:
      the entries with their daily totals, the weekly sum, its label and the
      rounded daily average. */
  function Summarize(ds: seq<DailyScore>): (res: Uas7Result)
    requires |ds| == 7
    requires AllEntriesValid(ds)
    ensures |res.dailyScores| == |ds|
    ensures forall i | 0 <= i < |ds| ::
      && res.dailyScores[i].day == ds[i].day
      && res.dailyScores[i].wheals == ds[i].wheals
      && res.dailyScores[i].itching == ds[i].itching
      && res.dailyScores[i].dailyTotal == Some(ds[i].wheals + ds[i].itching)
      && 0 <= ds[i].wheals + ds[i].itching <= 6
    ensures res.weeklyTotal == RawSum(ds)
    ensures 0 <= res.weeklyTotal <= 42
    ensures res.interpretation == Interpret(res.weeklyTotal)
    ensures res.averageDaily == Round1(res.weeklyTotal as real / 7.0)
    ensures 0.0 <= res.averageDaily <= 6.0
  {
    var dailyScores := Scored(ds);
    var weeklyTotal := WeeklySum(dailyScores);
    ValidEntriesScored(ds);
    Round1Between(weeklyTotal as real / 7.0, 0, 60);
    Uas7Result(dailyScores, weeklyTotal, Interpret(weeklyTotal), AverageDaily(weeklyTotal))
  }

  /** `calculateUas7`: refuses with the full error list when validation fails;
      otherwise scores the entries as `Summarize` describes. */
  function CalculateUas7(input: Uas7Input): (r: Result<Uas7Result, Uas7Failure>)
    ensures r.Failure? <==> !ValidateUas7Input(input).Valid()
    ensures r.Failure? ==> r.error == InvalidUas7Input(ValidateUas7Input(input).errors)
    ensures r.Success? ==> |input.dailyScores| == 7 && r.value == Summarize(input.dailyScores)
  {
    var validation := ValidateUas7Input(input);
    if !validation.Valid() then Failure(InvalidUas7Input(validation.errors))
    else Success(Summarize(input.dailyScores))
  }

  // ---------------------------------------------------------------------
  // Building and updating an input
  // ---------------------------------------------------------------------

  /** `createEmptyInput`: days 1..7 in order, both scores zero, no stored totals. */
  function EmptyInput(): (e: Uas7Input)
    ensures |e.dailyScores| == 7
    ensures forall i | 0 <= i < 7 :: e.dailyScores[i] == DailyScore(i + 1, 0, 0, None)
  {
    Uas7Input(seq(7, i requires 0 <= i < 7 => DailyScore(i + 1, 0, 0, None)))
  }

  /** `createDailyScore(day, wheals = 0, itching = 0)`: an entry whose stored
      total is already the one the calculation would compute. */
  function CreateDailyScore(day: int, wheals: int := 0, itching: int := 0): (s: DailyScore)
    ensures s.day == day && s.wheals == wheals && s.itching == itching
    ensures WithDailyTotal(s) == s
  {
    DailyScore(day, wheals, itching, Some(wheals + itching))
  }

  /** `updateDayScore`: on each entry whose day equals `day`, replaces the
      wheals and/or itching score that was supplied; every other entry, and
      every other field (the stored total included), is unchanged. */
  function UpdateDayScore(input: Uas7Input, day: int, wheals: Option<int>, itching: Option<int>): (out: Uas7Input)
    ensures |out.dailyScores| == |input.dailyScores|
    ensures forall i | 0 <= i < |input.dailyScores| && input.dailyScores[i].day != day ::
      out.dailyScores[i] == input.dailyScores[i]
    ensures forall i | 0 <= i < |input.dailyScores| && input.dailyScores[i].day == day ::
      && out.dailyScores[i].day == day
      && out.dailyScores[i].wheals == (if wheals.Some? then wheals.value else input.dailyScores[i].wheals)
      && out.dailyScores[i].itching == (if itching.Some? then itching.value else input.dailyScores[i].itching)
      && out.dailyScores[i].dailyTotal == input.dailyScores[i].dailyTotal
  {
    var ds := input.dailyScores;
    Uas7Input(seq(|ds|, i requires 0 <= i < |ds| =>
      if ds[i].day == day
      then ds[i].(wheals := ValueOr(wheals, ds[i].wheals), itching := ValueOr(itching, ds[i].itching))
      else ds[i]))
  }

  // ---------------------------------------------------------------------
  // Properties
  // ---------------------------------------------------------------------

  /** On entries that pass validation, each filled-in daily total lies in
      [0, 6] and the weekly sum of seven of them in [0, 42]. */
  lemma ValidEntriesScored(ds: seq<DailyScore>)
    requires |ds| == 7
    requires AllEntriesValid(ds)
    ensures |Scored(ds)| == |ds|
    ensures forall i | 0 <= i < |ds| ::
      && Scored(ds)[i].day == ds[i].day && Scored(ds)[i].wheals == ds[i].wheals
      && Scored(ds)[i].itching == ds[i].itching
      && Scored(ds)[i].dailyTotal == Some(ds[i].wheals + ds[i].itching)
      && 0 <= ds[i].wheals + ds[i].itching <= 6
    ensures WeeklySum(Scored(ds)) == RawSum(ds)
    ensures 0 <= WeeklySum(Scored(ds)) <= 42
  {
    forall i | 0 <= i < |ds| ensures 0 <= ds[i].wheals + ds[i].itching <= 6 {
      assert ds[i] in ds;
    }
    WeeklySumOfScored(ds);
    RawSumBounded(ds);
  }

  /** Summing the filled-in daily totals is summing wheals + itching. */
  lemma {:induction false} WeeklySumOfScored(ds: seq<DailyScore>)
    ensures WeeklySum(Scored(ds)) == RawSum(ds)
  {
    if ds != [] {
      assert Scored(ds)[1..] == Scored(ds[1..]);
      WeeklySumOfScored(ds[1..]);
    }
  }

  /** Entries with scores in 0..3 sum to a value in [0, 6n]. */
  lemma {:induction false} RawSumBounded(ds: seq<DailyScore>)
    requires AllEntriesValid(ds)
    ensures 0 <= RawSum(ds) <= 6 * |ds|
  {
    if ds != [] {
      assert ds[0] in ds;
      assert forall s | s in ds[1..] :: s in ds;
      RawSumBounded(ds[1..]);
    }
  }

  lemma {:induction false} RawSumZero(ds: seq<DailyScore>)
    requires forall s | s in ds :: s.wheals == 0 && s.itching == 0
    ensures RawSum(ds) == 0
  {
    if ds != [] {
      assert ds[0] in ds;
      assert forall s | s in ds[1..] :: s in ds;
      RawSumZero(ds[1..]);
    }
  }

  /** Every `InvalidEntry` error comes from an invalid entry, and every
      invalid entry contributes its error. */
  lemma {:induction false} EntryErrorsContents(ds: seq<DailyScore>)
    ensures forall e | e in EntryErrors(ds) :: exists s | s in ds :: !EntryValid(s) && e == EntryError(s)
    ensures forall s | s in ds && !EntryValid(s) :: EntryError(s) in EntryErrors(ds)
  {
    if ds != [] {
      EntryErrorsContents(ds[1..]);
      assert forall s | s in ds[1..] :: s in ds;
      assert forall s | s in ds :: s == ds[0] || s in ds[1..];
    }
  }

  /** Every per-entry error is an `InvalidEntry`. */
  lemma {:induction false} EntryErrorsAreEntries(ds: seq<DailyScore>)
    ensures forall e | e in EntryErrors(ds) :: e.InvalidEntry?
  {
    if ds != [] {
      EntryErrorsAreEntries(ds[1..]);
    }
  }

  /** `validateUas7Input` reports the wrong count first, exactly when there
      are not seven entries. */
  lemma CountErrorFirst(input: Uas7Input)
    ensures var ds, errs := input.dailyScores, ValidateUas7Input(input).errors;
      |ds| != 7 <==> |errs| > 0 && errs[0] == WrongDayCount(|ds|)
  {
    var ds := input.dailyScores;
    EntryErrorsAreEntries(ds);
    SegmentEnds(CountErrors(ds), EntryErrors(ds), DaySetErrors(ds));
  }

  /** `validateUas7Input` reports the day-set error last, exactly when the
      days are not 1..7. */
  lemma DaySetErrorLast(input: Uas7Input)
    ensures var ds, errs := input.dailyScores, ValidateUas7Input(input).errors;
      !DaysMatch(ds) <==> |errs| > 0 && errs[|errs| - 1] == DaysNotOneToSeven(Days(ds))
  {
    var ds := input.dailyScores;
    EntryErrorsAreEntries(ds);
    SegmentEnds(CountErrors(ds), EntryErrors(ds), DaySetErrors(ds));
  }

  /** In a list made of at most one count error, then entry errors, then at
      most one day-set error, the first element is a count error exactly when
      the first part is present, and the last a day-set error exactly when
      the last part is. */
  lemma SegmentEnds(c: seq<Uas7Error>, m: seq<Uas7Error>, d: seq<Uas7Error>)
    requires |c| <= 1 && forall e | e in c :: e.WrongDayCount?
    requires forall e | e in m :: e.InvalidEntry?
    requires |d| <= 1 && forall e | e in d :: e.DaysNotOneToSeven?
    ensures var errs := c + m + d;
      && (|c| == 1 <==> |errs| > 0 && errs[0].WrongDayCount?)
      && (|c| == 1 ==> errs[0] == c[0])
      && (|d| == 1 <==> |errs| > 0 && errs[|errs| - 1].DaysNotOneToSeven?)
      && (|d| == 1 ==> errs[|errs| - 1] == d[0])
  {
    var errs := c + m + d;
    if |c| == 0 && |m| > 0 {
      assert errs[0] == m[0] && m[0] in m;
    } else if |c| == 0 && |d| > 0 {
      assert errs[0] == d[0] && d[0] in d;
    }
    if |d| == 0 && |m| > 0 {
      assert errs[|errs| - 1] == m[|m| - 1] && m[|m| - 1] in m;
    } else if |d| == 0 && |c| > 0 {
      assert errs[|errs| - 1] == c[0] && c[0] in c;
    }
  }

  /** Between the count error and the day-set error, `validateUas7Input`
      lists the per-entry errors, in input order. */
  lemma EntryErrorsInMiddle(input: Uas7Input)
    ensures var ds, errs := input.dailyScores, ValidateUas7Input(input).errors;
      var first := if |ds| != 7 then 1 else 0;
      var last := if DaysMatch(ds) then 0 else 1;
      && |errs| == first + |EntryErrors(ds)| + last
      && errs[first .. |errs| - last] == EntryErrors(ds)
  {
    var ds := input.dailyScores;
    var c, m, d := CountErrors(ds), EntryErrors(ds), DaySetErrors(ds);
    assert (c + m + d)[|c| .. |c| + |m|] == m;
  }

  /** The per-entry errors of a concatenation are the concatenation of the
      per-entry errors: they follow input order. */
  lemma {:induction false} EntryErrorsAppend(a: seq<DailyScore>, b: seq<DailyScore>)
    ensures EntryErrors(a + b) == EntryErrors(a) + EntryErrors(b)
  {
    if a == [] {
      assert a + b == b;
    } else {
      assert (a + b)[0] == a[0];
      assert (a + b)[1..] == a[1..] + b;
      EntryErrorsAppend(a[1..], b);
    }
  }

  /** A count other than seven always fails the day-set check too. */
  lemma WrongCountFailsDaySet(ds: seq<DailyScore>)
    requires |ds| != 7
    ensures !DaysMatch(ds)
  {
    assert |multiset(Days(ds))| == |ds|;
    assert |multiset(ExpectedDays)| == 7;
  }

  /** The source sorts the day numbers (as strings) before comparing them
      with [1, ..., 7]. For any antisymmetric comparison under which 1..7 are
      in ascending order, comparing a sorted rearrangement of the days with
      [1, ..., 7] gives the same verdict as `DaysMatch`: the sort only affects
      the message. */
  lemma SortedDaysVerdict(ds: seq<DailyScore>, sorted: seq<int>, le: (int, int) -> bool)
    requires multiset(sorted) == multiset(Days(ds))
    requires Sorting.SortedBy(le, sorted)
    requires Sorting.AntiSymmetric(le)
    requires Sorting.SortedBy(le, ExpectedDays)
    ensures sorted == ExpectedDays <==> DaysMatch(ds)
  {
    if DaysMatch(ds) {
      Sorting.SortedPermutationsEqual(sorted, ExpectedDays, le);
    }
  }

  /** When the day set matches, the seven days are 1..7 each exactly once. */
  lemma DaysMatchDistinct(ds: seq<DailyScore>)
    requires DaysMatch(ds)
    ensures |ds| == 7
    ensures forall i | 0 <= i < |ds| :: DayInRange(ds[i].day)
    ensures forall i, j | 0 <= i < j < |ds| :: ds[i].day != ds[j].day
  {
    OneToSevenOnce(Days(ds));
  }

  /** A rearrangement of 1..7 has seven elements, all in 1..7, no two equal. */
  lemma OneToSevenOnce(days: seq<int>)
    requires multiset(days) == multiset(ExpectedDays)
    ensures |days| == 7
    ensures forall i | 0 <= i < |days| :: DayInRange(days[i])
    ensures forall i, j | 0 <= i < j < |days| :: days[i] != days[j]
  {
    assert |days| == |multiset(days)| == |multiset(ExpectedDays)| == 7;
    forall i | 0 <= i < |days| ensures DayInRange(days[i]) {
      assert days[i] in multiset(ExpectedDays);
    }
    forall i, j | 0 <= i < j < |days| ensures days[i] != days[j] {
      CountOfRepeated(days, i, j);
    }
  }

  /** A value that occurs at two positions occurs at least twice. */
  lemma CountOfRepeated(s: seq<int>, i: int, j: int)
    requires 0 <= i < j < |s|
    ensures s[i] == s[j] ==> multiset(s)[s[i]] >= 2
  {
    assert s == s[..j] + s[j..];
    assert s[i] in s[..j];
    assert s[j] in s[j..];
  }

  /** The calculation reads only the day, wheals and itching of each entry:
      inputs that agree on those get the same result, whatever totals they
      carry (for instance a stale total left by `UpdateDayScore`). */
  lemma CalculateIgnoresStoredTotals(a: Uas7Input, b: Uas7Input)
    requires |a.dailyScores| == |b.dailyScores|
    requires forall i | 0 <= i < |a.dailyScores| ::
      a.dailyScores[i].(dailyTotal := None) == b.dailyScores[i].(dailyTotal := None)
    ensures CalculateUas7(a) == CalculateUas7(b)
  {
    SameFieldsSameValidation(a, b);
    if ValidateUas7Input(a).Valid() {
      SameFieldsSameScored(a.dailyScores, b.dailyScores);
    }
  }

  lemma SameFieldsSameValidation(a: Uas7Input, b: Uas7Input)
    requires |a.dailyScores| == |b.dailyScores|
    requires forall i | 0 <= i < |a.dailyScores| ::
      a.dailyScores[i].(dailyTotal := None) == b.dailyScores[i].(dailyTotal := None)
    ensures ValidateUas7Input(a) == ValidateUas7Input(b)
  {
    SameFieldsSameErrors(a.dailyScores, b.dailyScores);
    assert Days(a.dailyScores) == Days(b.dailyScores);
  }

  lemma SameFieldsSameScored(a: seq<DailyScore>, b: seq<DailyScore>)
    requires |a| == |b|
    requires forall i | 0 <= i < |a| :: a[i].(dailyTotal := None) == b[i].(dailyTotal := None)
    ensures Scored(a) == Scored(b)
  {
    forall i | 0 <= i < |a| ensures WithDailyTotal(a[i]) == WithDailyTotal(b[i]) {
      assert a[i].(dailyTotal := None) == b[i].(dailyTotal := None);
    }
  }

  lemma {:induction false} SameFieldsSameErrors(a: seq<DailyScore>, b: seq<DailyScore>)
    requires |a| == |b|
    requires forall i | 0 <= i < |a| :: a[i].(dailyTotal := None) == b[i].(dailyTotal := None)
    ensures EntryErrors(a) == EntryErrors(b)
  {
    if a != [] {
      assert a[0].(dailyTotal := None) == b[0].(dailyTotal := None);
      assert ValidateDailyScore(a[0]) == ValidateDailyScore(b[0]);
      SameFieldsSameErrors(a[1..], b[1..]);
    }
  }

  /** Calculating again on the result's entries gives the same result. */
  lemma CalculateIdempotent(input: Uas7Input)
    requires CalculateUas7(input).Success?
    ensures CalculateUas7(Uas7Input(CalculateUas7(input).value.dailyScores)) == CalculateUas7(input)
  {
    var ds := input.dailyScores;
    var out := Scored(ds);
    assert CalculateUas7(input).value == Summarize(ds);
    assert Summarize(ds).dailyScores == out;
    CalculateIgnoresStoredTotals(input, Uas7Input(out));
  }

  /** Replacing scores of a valid input with scores in 0..3 keeps it valid,
      and the result then reflects the new scores for that day. */
  lemma UpdatePreservesValidity(input: Uas7Input, day: int, wheals: Option<int>, itching: Option<int>)
    requires ValidateUas7Input(input).Valid()
    requires wheals.Some? ==> IsScore(wheals.value)
    requires itching.Some? ==> IsScore(itching.value)
    ensures ValidateUas7Input(UpdateDayScore(input, day, wheals, itching)).Valid()
  {
    UpdateKeepsDays(input, day, wheals, itching);
    UpdateKeepsEntriesValid(input, day, wheals, itching);
  }

  /** Scores in 0..3 written into valid entries leave them valid. */
  lemma UpdateKeepsEntriesValid(input: Uas7Input, day: int, wheals: Option<int>, itching: Option<int>)
    requires AllEntriesValid(input.dailyScores)
    requires wheals.Some? ==> IsScore(wheals.value)
    requires itching.Some? ==> IsScore(itching.value)
    ensures AllEntriesValid(UpdateDayScore(input, day, wheals, itching).dailyScores)
  {
    var ds, out := input.dailyScores, UpdateDayScore(input, day, wheals, itching).dailyScores;
    forall s | s in out ensures EntryValid(s) {
      var i :| 0 <= i < |out| && out[i] == s;
      assert ds[i] in ds;
    }
  }

  /** An update never changes the day numbers. */
  lemma UpdateKeepsDays(input: Uas7Input, day: int, wheals: Option<int>, itching: Option<int>)
    ensures Days(UpdateDayScore(input, day, wheals, itching).dailyScores) == Days(input.dailyScores)
  {
    var out := UpdateDayScore(input, day, wheals, itching).dailyScores;
    assert forall i | 0 <= i < |out| :: out[i].day == input.dailyScores[i].day;
  }

  /** An update that supplies neither score changes nothing. */
  lemma UpdateWithNothingIsIdentity(input: Uas7Input, day: int)
    ensures UpdateDayScore(input, day, None, None) == input
  {
    assert UpdateDayScore(input, day, None, None).dailyScores == input.dailyScores;
  }

  /** A higher weekly total never gets a milder label. */
  lemma InterpretMonotone(w1: int, w2: int)
    requires w1 <= w2
    requires 0 <= w1
    ensures Rank(Interpret(w1)) <= Rank(Interpret(w2))
  {
  }

  /** The band boundaries 6, 7, 15 and 16. */
  lemma InterpretBoundaries()
    ensures Interpret(6) == Mild && Interpret(7) == Moderate
    ensures Interpret(15) == Moderate && Interpret(16) == Severe
  {
  }
}
