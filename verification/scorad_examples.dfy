/** Worked SCORAD cases: the all-zero input, intensity alone, the maximum
    input, and a total whose rounding crosses a band boundary. Each case first
    establishes, in two small lemmas, that the input is valid and what its
    components are. */
module ScoradExamples {
  import opened Common
  import opened Scorad

  /** The input `createEmptyInput` returns. */
  const EmptyCase: ScoradInput := EmptyInput()

  lemma EmptyValid()
    ensures ValidInput(EmptyCase)
  {
    ValidInputFieldwise(EmptyCase);
  }

  lemma EmptyComponents()
    ensures AreaSum(EmptyCase.bodyRegions) == 0.0
    ensures IScore(EmptyCase.intensity) == 0
    ensures RawTotal(EmptyCase) == 0.0
  {
  }

  /** The all-zero input scores 0 in every component and is labelled mild. */
  lemma EmptyInputScoresZero()
    ensures CalculateScorad(EmptyCase) == Success(ScoradResult(0.0, 0, 0.0, 0.0, Mild))
  {
    EmptyValid();
    EmptyComponents();
    assert Round1(0.0) == 0.0 by { Round1Tenths(0); }
  }

  const UnroundedLabelInput: ScoradInput := ScoradInput(
    BodyRegions(9.0, 9.0, 6.8, 0.0, 0.0, 0.0, 0.0, 0.0),
    IntensityScores(0, 0, 0, 0, 0, 0),
    SubjectiveScores(10.0, 10.0))

  lemma UnroundedLabelValid()
    ensures ValidInput(UnroundedLabelInput)
  {
    ValidInputFieldwise(UnroundedLabelInput);
  }

  lemma UnroundedLabelComponents()
    ensures AreaSum(UnroundedLabelInput.bodyRegions) == 24.8
    ensures IScore(UnroundedLabelInput.intensity) == 0
    ensures RawTotal(UnroundedLabelInput) == 24.96
  {
  }

  /** 24.96 rounds to 25.0. */
  lemma RoundsUpTo25()
    ensures Round1(24.96) == 25.0
  {
    var f := (10.0 * 24.96 + 0.5).Floor;
    assert f as real <= 250.1 < f as real + 1.0;
  }

  /** The label follows the unrounded total: a valid input whose total is
      24.96 is reported with total 25.0, yet labelled mild rather than the
      moderate that 25.0 itself would get. */
  lemma LabelUsesUnroundedTotal()
    ensures CalculateScorad(UnroundedLabelInput).Success?
    ensures CalculateScorad(UnroundedLabelInput).value.totalScore == 25.0
    ensures CalculateScorad(UnroundedLabelInput).value.interpretation == Mild
    ensures Interpret(25.0) == Moderate
  {
    UnroundedLabelValid();
    UnroundedLabelComponents();
    RoundsUpTo25();
  }

  const IntensityOnlyInput: ScoradInput := ScoradInput(
    BodyRegions(0.0, 0.0, 0.0, 0.0, 0.0, 0.0, 0.0, 0.0),
    IntensityScores(2, 0, 0, 0, 0, 1),
    SubjectiveScores(0.0, 0.0))

  lemma IntensityOnlyValid()
    ensures ValidInput(IntensityOnlyInput)
  {
    ValidInputFieldwise(IntensityOnlyInput);
  }

  lemma IntensityOnlyComponents()
    ensures AreaSum(IntensityOnlyInput.bodyRegions) == 0.0
    ensures IScore(IntensityOnlyInput.intensity) == 3
    ensures RawTotal(IntensityOnlyInput) == 10.5
  {
  }

  /** Intensity alone, I = 3 (redness 2, dryness 1), gives total 10.5 with I
      reported unrounded. */
  lemma IntensityOnlyExample()
    ensures CalculateScorad(IntensityOnlyInput) == Success(ScoradResult(0.0, 3, 0.0, 10.5, Mild))
  {
    IntensityOnlyValid();
    IntensityOnlyComponents();
    Round1Tenths(0);
    Round1Tenths(105);
  }

  const MaximumInput: ScoradInput := ScoradInput(
    BodyRegions(9.0, 9.0, 9.0, 18.0, 18.0, 18.0, 18.0, 1.0),
    IntensityScores(3, 3, 3, 3, 3, 3),
    SubjectiveScores(10.0, 10.0))

  lemma MaximumValid()
    ensures ValidInput(MaximumInput)
  {
    ValidInputFieldwise(MaximumInput);
  }

  lemma MaximumComponents()
    ensures AreaSum(MaximumInput.bodyRegions) == 100.0
    ensures IScore(MaximumInput.intensity) == 18
    ensures RawTotal(MaximumInput) == 103.0
  {
  }

  /** Every region at its maximum, every grade 3 and both subjective scores 10
      reach the maximum total 103, labelled severe. */
  lemma MaximumExample()
    ensures CalculateScorad(MaximumInput) == Success(ScoradResult(100.0, 18, 20.0, 103.0, Severe))
  {
    MaximumValid();
    MaximumComponents();
    Round1Tenths(1000);
    Round1Tenths(1030);
  }
}
