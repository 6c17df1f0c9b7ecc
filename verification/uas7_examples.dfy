/** Worked UAS7 cases: the empty input, the maximum week, a mixed week, and
    the rounding of the daily average. Each case first establishes, in small
    lemmas, that the input is valid and what its raw sum is. */
module Uas7Examples {
  import opened Common
  import opened Uas7

  /** The input `createEmptyInput` returns. */
  const EmptyCase: Uas7Input := EmptyInput()

  lemma EmptyDays()
    ensures |EmptyCase.dailyScores| == 7 && DaysMatch(EmptyCase.dailyScores)
  {
    assert Days(EmptyCase.dailyScores) == ExpectedDays;
  }

  lemma EmptyEntries()
    ensures AllEntriesValid(EmptyCase.dailyScores)
  {
    var ds := EmptyCase.dailyScores;
    forall s | s in ds ensures EntryValid(s) {
      var i :| 0 <= i < 7 && ds[i] == s;
    }
  }

  lemma EmptyValid()
    ensures ValidateUas7Input(EmptyCase).Valid()
  {
    EmptyDays();
    EmptyEntries();
  }

  lemma EmptySum()
    ensures RawSum(EmptyCase.dailyScores) == 0
  {
    RawSumZero(EmptyCase.dailyScores);
  }

  /** The empty input passes validation and scores 0, well-controlled, with
      average 0. */
  lemma EmptyInputScoresZero()
    ensures ValidateUas7Input(EmptyCase).Valid()
    ensures CalculateUas7(EmptyCase).Success?
    ensures CalculateUas7(EmptyCase).value.weeklyTotal == 0
    ensures CalculateUas7(EmptyCase).value.interpretation == WellControlled
    ensures CalculateUas7(EmptyCase).value.averageDaily == 0.0
  {
    EmptyValid();
    EmptySum();
    AverageExamples();
  }

  /** Seven days of wheals 3 and itching 3. */
  const MaximumWeek: Uas7Input := Uas7Input([
    DailyScore(1, 3, 3, None), DailyScore(2, 3, 3, None), DailyScore(3, 3, 3, None),
    DailyScore(4, 3, 3, None), DailyScore(5, 3, 3, None), DailyScore(6, 3, 3, None),
    DailyScore(7, 3, 3, None)])

  lemma MaximumDays()
    ensures |MaximumWeek.dailyScores| == 7 && DaysMatch(MaximumWeek.dailyScores)
  {
    assert Days(MaximumWeek.dailyScores) == ExpectedDays;
  }

  lemma MaximumEntries()
    ensures AllEntriesValid(MaximumWeek.dailyScores)
  {
    var ds := MaximumWeek.dailyScores;
    forall s | s in ds ensures EntryValid(s) {
      var i :| 0 <= i < 7 && ds[i] == s;
    }
  }

  lemma MaximumValid()
    ensures ValidateUas7Input(MaximumWeek).Valid()
  {
    MaximumDays();
    MaximumEntries();
  }

  lemma MaximumSum()
    ensures RawSum(MaximumWeek.dailyScores) == 42
  {
    var ds := MaximumWeek.dailyScores;
    assert RawSum(ds[6..]) == 6;
    assert RawSum(ds[5..]) == 12;
    assert RawSum(ds[4..]) == 18;
    assert RawSum(ds[3..]) == 24;
    assert RawSum(ds[2..]) == 30;
    assert RawSum(ds[1..]) == 36;
  }

  /** The maximum week totals 42, averages 6 a day and is severe. */
  lemma MaximumWeekExample()
    ensures CalculateUas7(MaximumWeek).Success?
    ensures CalculateUas7(MaximumWeek).value.weeklyTotal == 42
    ensures CalculateUas7(MaximumWeek).value.averageDaily == 6.0
    ensures CalculateUas7(MaximumWeek).value.interpretation == Severe
  {
    MaximumValid();
    MaximumSum();
    AverageExamples();
  }

  /** Daily pairs (2,2) (1,1) (3,3) (0,0) (1,2) (2,1) (1,1). */
  const MixedWeek: Uas7Input := Uas7Input([
    DailyScore(1, 2, 2, None), DailyScore(2, 1, 1, None), DailyScore(3, 3, 3, None),
    DailyScore(4, 0, 0, None), DailyScore(5, 1, 2, None), DailyScore(6, 2, 1, None),
    DailyScore(7, 1, 1, None)])

  lemma MixedDays()
    ensures |MixedWeek.dailyScores| == 7 && DaysMatch(MixedWeek.dailyScores)
  {
    assert Days(MixedWeek.dailyScores) == ExpectedDays;
  }

  lemma MixedEntries()
    ensures AllEntriesValid(MixedWeek.dailyScores)
  {
    var ds := MixedWeek.dailyScores;
    forall s | s in ds ensures EntryValid(s) {
      var i :| 0 <= i < 7 && ds[i] == s;
    }
  }

  lemma MixedValid()
    ensures ValidateUas7Input(MixedWeek).Valid()
  {
    MixedDays();
    MixedEntries();
  }

  lemma MixedSum()
    ensures RawSum(MixedWeek.dailyScores) == 20
  {
    var ds := MixedWeek.dailyScores;
    assert RawSum(ds[6..]) == 2;
    assert RawSum(ds[5..]) == 5;
    assert RawSum(ds[4..]) == 8;
    assert RawSum(ds[3..]) == 8;
    assert RawSum(ds[2..]) == 14;
    assert RawSum(ds[1..]) == 16;
  }

  /** The mixed week totals 20, averages 2.9 a day and is severe (above 15). */
  lemma MixedWeekExample()
    ensures CalculateUas7(MixedWeek).Success?
    ensures CalculateUas7(MixedWeek).value.weeklyTotal == 20
    ensures CalculateUas7(MixedWeek).value.averageDaily == 2.9
    ensures CalculateUas7(MixedWeek).value.interpretation == Severe
  {
    MixedValid();
    MixedSum();
    AverageExamples();
  }

  /** Weekly totals 0, 20, 14 and 42 average to 0, 2.9, 2 and 6. */
  lemma AverageExamples()
    ensures AverageDaily(0) == 0.0
    ensures AverageDaily(20) == 2.9
    ensures AverageDaily(14) == 2.0
    ensures AverageDaily(42) == 6.0
  {
    assert 0 as real / 7.0 == 0 as real / 10.0;
    Round1Tenths(0);
    var f := (10.0 * (20.0 / 7.0) + 0.5).Floor;
    assert f as real <= 200.0 / 7.0 + 0.5 < f as real + 1.0;
    assert f == 29;
    assert 14 as real / 7.0 == 20 as real / 10.0;
    Round1Tenths(20);
    assert 42 as real / 7.0 == 60 as real / 10.0;
    Round1Tenths(60);
  }
}
