/** SCORAD (SCORing Atopic Dermatitis): validation of the three input groups,
    the A, I and S components, the total A/5 + 7I/2 + S, and its severity label. */
module Scorad {
  import opened Common
  import opened Sorting

  // ---------------------------------------------------------------------
  // Input and output records
  // ---------------------------------------------------------------------

  /** The eight body regions, in the order the input record declares them. */
  datatype Region =
    | HeadNeck | UpperLimbLeft | UpperLimbRight | LowerLimbLeft
    | LowerLimbRight | AnteriorTrunk | Back | Genitals

  /** The regions in declaration order: validation reports in this order. */
  const RegionOrder: seq<Region> :=
    [HeadNeck, UpperLimbLeft, UpperLimbRight, LowerLimbLeft,
     LowerLimbRight, AnteriorTrunk, Back, Genitals]

  /** Position of a region in `RegionOrder`. */
  function RegionIndex(r: Region): nat {
    match r
    case HeadNeck => 0
    case UpperLimbLeft => 1
    case UpperLimbRight => 2
    case LowerLimbLeft => 3
    case LowerLimbRight => 4
    case AnteriorTrunk => 5
    case Back => 6
    case Genitals => 7
  }

  /** `REGION_MAX_BSA`: the largest body-surface-area contribution a region may carry. */
  function MaxBsa(r: Region): real {
    match r
    case HeadNeck => 9.0
    case UpperLimbLeft => 9.0
    case UpperLimbRight => 9.0
    case LowerLimbLeft => 18.0
    case LowerLimbRight => 18.0
    case AnteriorTrunk => 18.0
    case Back => 18.0
    case Genitals => 1.0
  }

  /** Affected body-surface area per region, each value used directly as that
      region's contribution to A. */
  datatype BodyRegions = BodyRegions(
    headNeck: real, upperLimbLeft: real, upperLimbRight: real, lowerLimbLeft: real,
    lowerLimbRight: real, anteriorTrunk: real, back: real, genitals: real)
  {
    function Value(r: Region): real {
      match r
      case HeadNeck => headNeck
      case UpperLimbLeft => upperLimbLeft
      case UpperLimbRight => upperLimbRight
      case LowerLimbLeft => lowerLimbLeft
      case LowerLimbRight => lowerLimbRight
      case AnteriorTrunk => anteriorTrunk
      case Back => back
      case Genitals => genitals
    }
  }

  /** The six clinical signs graded for intensity, in declaration order. */
  datatype Item = Redness | Swelling | OozingCrusting | ScratchMarks | Lichenification | Dryness

  const ItemOrder: seq<Item> :=
    [Redness, Swelling, OozingCrusting, ScratchMarks, Lichenification, Dryness]

  function ItemIndex(it: Item): nat {
    match it
    case Redness => 0
    case Swelling => 1
    case OozingCrusting => 2
    case ScratchMarks => 3
    case Lichenification => 4
    case Dryness => 5
  }

  datatype IntensityScores = IntensityScores(
    redness: int, swelling: int, oozingCrusting: int,
    scratchMarks: int, lichenification: int, dryness: int)
  {
    function Value(it: Item): int {
      match it
      case Redness => redness
      case Swelling => swelling
      case OozingCrusting => oozingCrusting
      case ScratchMarks => scratchMarks
      case Lichenification => lichenification
      case Dryness => dryness
    }
  }

  /** Visual-analogue scores, each meant to lie in [0, 10]; fractions allowed. */
  datatype SubjectiveScores = SubjectiveScores(itch: real, sleeplessness: real)

  datatype ScoradInput = ScoradInput(
    bodyRegions: BodyRegions, intensity: IntensityScores, subjective: SubjectiveScores)

  datatype Interpretation = Mild | Moderate | Severe

  /** `aScore` and `totalScore` are rounded to one decimal; `iScore` and
      `sScore` are reported as computed. */
  datatype ScoradResult = ScoradResult(
    aScore: real, iScore: int, sScore: real, totalScore: real, interpretation: Interpretation)

  /** One violation, naming the offending field and its value. */
  datatype ScoradError =
    | RegionOutOfRange(region: Region, value: real)
    | IntensityInvalid(item: Item, score: int)
    | ItchOutOfRange(itch: real)
    | SleeplessnessOutOfRange(sleeplessness: real)

  /** Why `CalculateScorad` refused: the first group that failed, with its errors. */
  datatype ScoradFailure =
    | InvalidBodyRegions(errors: seq<ScoradError>)
    | InvalidIntensityScores(errors: seq<ScoradError>)
    | InvalidSubjectiveScores(errors: seq<ScoradError>)

  // ---------------------------------------------------------------------
  // Field domains
  // ---------------------------------------------------------------------

  predicate RegionInRange(b: BodyRegions, r: Region) {
    0.0 <= b.Value(r) <= MaxBsa(r)
  }

  /** `[0, 1, 2, 3].includes(score)` */
  predicate IsIntensity(v: int) {
    0 <= v <= 3
  }

  predicate OnSubjectiveScale(v: real) {
    0.0 <= v <= 10.0
  }

  // ---------------------------------------------------------------------
  // Validators
  // ---------------------------------------------------------------------

  /** Errors for the out-of-range regions among `rs`, in the order of `rs`
      (the order is stated by `RegionErrorsOrdered`). */
  function RegionErrors(b: BodyRegions, rs: seq<Region>): (errs: seq<ScoradError>)
    ensures forall e | e in errs ::
      e.RegionOutOfRange? && e.region in rs && !RegionInRange(b, e.region) && e.value == b.Value(e.region)
    ensures forall r | r in rs && !RegionInRange(b, r) :: RegionOutOfRange(r, b.Value(r)) in errs
  {
    if rs == [] then []
    else
      var rest := RegionErrors(b, rs[1..]);
      assert forall r | r in rs[1..] :: r in rs;
      assert forall r | r in rs :: r == rs[0] || r in rs[1..];
      RegionErrorOf(b, rs[0]) + rest
  }

  /** The errors one region contributes: none when in range, else its own. */
  function RegionErrorOf(b: BodyRegions, r: Region): (errs: seq<ScoradError>)
    ensures errs == [] <==> RegionInRange(b, r)
    ensures errs != [] ==> errs == [RegionOutOfRange(r, b.Value(r))]
  {
    if RegionInRange(b, r) then [] else [RegionOutOfRange(r, b.Value(r))]
  }

  /** Regions listed in increasing declaration order give errors in
      increasing declaration order. */
  lemma {:induction false} RegionErrorsOrdered(b: BodyRegions, rs: seq<Region>)
    requires StrictlyAscending(rs, RegionIndex)
    ensures RegionsAscending(RegionErrors(b, rs))
  {
    if rs != [] {
      RegionErrorsOrdered(b, rs[1..]);
      if !RegionInRange(b, rs[0]) {
        TailRegionsAfterHead(b, rs);
        AscendingCons(RegionOutOfRange(rs[0], b.Value(rs[0])), RegionErrors(b, rs[1..]), RegionKey);
      }
    }
  }

  /** The errors for the tail of an ascending region list all name regions
      after its head. */
  lemma TailRegionsAfterHead(b: BodyRegions, rs: seq<Region>)
    requires StrictlyAscending(rs, RegionIndex)
    requires rs != []
    ensures forall e | e in RegionErrors(b, rs[1..]) :: e.RegionOutOfRange? && RegionIndex(rs[0]) < RegionKey(e)
  {
    forall e | e in RegionErrors(b, rs[1..])
      ensures e.RegionOutOfRange? && RegionIndex(rs[0]) < RegionKey(e)
    {
      TailAboveHead(rs, RegionIndex, e.region);
    }
  }

  /** Every error names a region, and earlier errors name earlier regions. */
  predicate RegionsAscending(errs: seq<ScoradError>) {
    && (forall e | e in errs :: e.RegionOutOfRange?)
    && StrictlyAscending(errs, RegionKey)
  }

  /** The declaration position of the region an error names (0 for
      other errors, which never occur where it is used). */
  function RegionKey(e: ScoradError): nat {
    if e.RegionOutOfRange? then RegionIndex(e.region) else 0
  }

  lemma AllRegionsListed()
    ensures forall r: Region :: r in RegionOrder
    ensures StrictlyAscending(RegionOrder, RegionIndex)
  {
    forall r: Region ensures r in RegionOrder {
      assert RegionOrder[RegionIndex(r)] == r;
    }
  }

  /** `validateBodyRegions`: one error per region whose value lies outside
      [0, its maximum]; valid iff there is none. The order of the errors is
      stated by `BodyRegionErrorsInOrder`. */
  function ValidateBodyRegions(b: BodyRegions): (v: Validation<ScoradError>)
    ensures v.Valid() <==> forall r: Region :: RegionInRange(b, r)
    ensures forall r: Region :: !RegionInRange(b, r) <==> RegionOutOfRange(r, b.Value(r)) in v.errors
    ensures forall e | e in v.errors :: e.RegionOutOfRange? && e == RegionOutOfRange(e.region, b.Value(e.region))
  {
    AllRegionsListed();
    var v := Validation(RegionErrors(b, RegionOrder));
    assert !v.Valid() ==> v.errors[0] in v.errors;
    v
  }

  /** `validateBodyRegions` reports the regions in declaration order. */
  lemma BodyRegionErrorsInOrder(b: BodyRegions)
    ensures RegionsAscending(ValidateBodyRegions(b).errors)
  {
    AllRegionsListed();
    RegionErrorsOrdered(b, RegionOrder);
  }

  /** Errors for the intensity items among `items` whose grade is not 0..3,
      in the order of `items` (the order is stated by `IntensityErrorsOrdered`). */
  function IntensityErrors(s: IntensityScores, items: seq<Item>): (errs: seq<ScoradError>)
    ensures forall e | e in errs ::
      e.IntensityInvalid? && e.item in items && !IsIntensity(s.Value(e.item)) && e.score == s.Value(e.item)
    ensures forall it | it in items && !IsIntensity(s.Value(it)) :: IntensityInvalid(it, s.Value(it)) in errs
  {
    if items == [] then []
    else
      var rest := IntensityErrors(s, items[1..]);
      assert forall it | it in items[1..] :: it in items;
      assert forall it | it in items :: it == items[0] || it in items[1..];
      IntensityErrorOf(s, items[0]) + rest
  }

  /** The errors one item contributes: none when graded 0..3, else its own. */
  function IntensityErrorOf(s: IntensityScores, it: Item): (errs: seq<ScoradError>)
    ensures errs == [] <==> IsIntensity(s.Value(it))
    ensures errs != [] ==> errs == [IntensityInvalid(it, s.Value(it))]
  {
    if IsIntensity(s.Value(it)) then [] else [IntensityInvalid(it, s.Value(it))]
  }

  /** Items listed in increasing declaration order give errors in increasing
      declaration order. */
  lemma {:induction false} IntensityErrorsOrdered(s: IntensityScores, items: seq<Item>)
    requires StrictlyAscending(items, ItemIndex)
    ensures ItemsAscending(IntensityErrors(s, items))
  {
    if items != [] {
      IntensityErrorsOrdered(s, items[1..]);
      if !IsIntensity(s.Value(items[0])) {
        TailItemsAfterHead(s, items);
        AscendingCons(IntensityInvalid(items[0], s.Value(items[0])), IntensityErrors(s, items[1..]), ItemKey);
      }
    }
  }

  /** The errors for the tail of an ascending item list all name items after
      its head. */
  lemma TailItemsAfterHead(s: IntensityScores, items: seq<Item>)
    requires StrictlyAscending(items, ItemIndex)
    requires items != []
    ensures forall e | e in IntensityErrors(s, items[1..]) :: e.IntensityInvalid? && ItemIndex(items[0]) < ItemKey(e)
  {
    forall e | e in IntensityErrors(s, items[1..])
      ensures e.IntensityInvalid? && ItemIndex(items[0]) < ItemKey(e)
    {
      TailAboveHead(items, ItemIndex, e.item);
    }
  }

  /** Every error names an item, and earlier errors name earlier items. */
  predicate ItemsAscending(errs: seq<ScoradError>) {
    && (forall e | e in errs :: e.IntensityInvalid?)
    && StrictlyAscending(errs, ItemKey)
  }

  /** The declaration position of the item an error names (0 for
      other errors, which never occur where it is used). */
  function ItemKey(e: ScoradError): nat {
    if e.IntensityInvalid? then ItemIndex(e.item) else 0
  }

  lemma AllItemsListed()
    ensures forall it: Item :: it in ItemOrder
    ensures StrictlyAscending(ItemOrder, ItemIndex)
  {
    forall it: Item ensures it in ItemOrder {
      assert ItemOrder[ItemIndex(it)] == it;
    }
  }

  /** `validateIntensity`: one error per item graded outside {0, 1, 2, 3};
      valid iff there is none. The order of the errors is stated by
      `IntensityErrorsInOrder`. */
  function ValidateIntensity(s: IntensityScores): (v: Validation<ScoradError>)
    ensures v.Valid() <==> forall it: Item :: IsIntensity(s.Value(it))
    ensures forall it: Item :: !IsIntensity(s.Value(it)) <==> IntensityInvalid(it, s.Value(it)) in v.errors
    ensures forall e | e in v.errors :: e.IntensityInvalid? && e == IntensityInvalid(e.item, s.Value(e.item))
  {
    AllItemsListed();
    var v := Validation(IntensityErrors(s, ItemOrder));
    assert !v.Valid() ==> v.errors[0] in v.errors;
    v
  }

  /** `validateIntensity` reports the items in declaration order. */
  lemma IntensityErrorsInOrder(s: IntensityScores)
    ensures ItemsAscending(ValidateIntensity(s).errors)
  {
    AllItemsListed();
    IntensityErrorsOrdered(s, ItemOrder);
  }

  /** `validateSubjective`: at most two errors, the itch error before the
      sleeplessness error; any value in [0, 10], fractional or not, passes. */
  function ValidateSubjective(s: SubjectiveScores): (v: Validation<ScoradError>)
    ensures v.Valid() <==> OnSubjectiveScale(s.itch) && OnSubjectiveScale(s.sleeplessness)
    ensures ItchOutOfRange(s.itch) in v.errors <==> !OnSubjectiveScale(s.itch)
    ensures SleeplessnessOutOfRange(s.sleeplessness) in v.errors <==> !OnSubjectiveScale(s.sleeplessness)
    ensures forall e | e in v.errors ::
      e == ItchOutOfRange(s.itch) || e == SleeplessnessOutOfRange(s.sleeplessness)
    ensures |v.errors| <= 2
    ensures |v.errors| == 2 ==> v.errors[0].ItchOutOfRange? && v.errors[1].SleeplessnessOutOfRange?
  {
    var itchErrors := if OnSubjectiveScale(s.itch) then [] else [ItchOutOfRange(s.itch)];
    var sleepErrors :=
      if OnSubjectiveScale(s.sleeplessness) then [] else [SleeplessnessOutOfRange(s.sleeplessness)];
    Validation(itchErrors + sleepErrors)
  }

  /** Outcome of the non-blocking total-area check. */
  datatype BsaWarning = TotalBsaExceeds100(totalBsa: real)

  datatype BsaCheck = BsaCheck(valid: bool, totalBsa: real, warning: Option<BsaWarning>)

  // ---------------------------------------------------------------------
  // Components
  // ---------------------------------------------------------------------

  /** Sum of the values of the regions `rs` (the `reduce` over the region values). */
  function SumRegions(b: BodyRegions, rs: seq<Region>): real {
    if rs == [] then 0.0 else b.Value(rs[0]) + SumRegions(b, rs[1..])
  }

  /** Sum of the maxima of the regions `rs`. */
  function SumMaxBsa(rs: seq<Region>): real {
    if rs == [] then 0.0 else MaxBsa(rs[0]) + SumMaxBsa(rs[1..])
  }

  /** `calculateTotalBsa` and `calculateAScore` (the source defines both with
      the same body): the fold over the regions is the plain, unweighted sum
      of the eight region values. */
  function AreaSum(b: BodyRegions): (a: real)
    ensures a == b.headNeck + b.upperLimbLeft + b.upperLimbRight + b.lowerLimbLeft
                 + b.lowerLimbRight + b.anteriorTrunk + b.back + b.genitals
  {
    var rs := RegionOrder;
    assert SumRegions(b, rs[7..]) == b.genitals;
    assert SumRegions(b, rs[6..]) == b.back + SumRegions(b, rs[7..]);
    assert SumRegions(b, rs[5..]) == b.anteriorTrunk + SumRegions(b, rs[6..]);
    assert SumRegions(b, rs[4..]) == b.lowerLimbRight + SumRegions(b, rs[5..]);
    assert SumRegions(b, rs[3..]) == b.lowerLimbLeft + SumRegions(b, rs[4..]);
    assert SumRegions(b, rs[2..]) == b.upperLimbRight + SumRegions(b, rs[3..]);
    assert SumRegions(b, rs[1..]) == b.upperLimbLeft + SumRegions(b, rs[2..]);
    SumRegions(b, rs)
  }

  /** `calculateIScore`: sum of the six intensity grades. */
  function SumItems(s: IntensityScores, items: seq<Item>): int {
    if items == [] then 0 else s.Value(items[0]) + SumItems(s, items[1..])
  }

  /** The fold over the items is the sum of the six grades. */
  function IScore(s: IntensityScores): (i: int)
    ensures i == s.redness + s.swelling + s.oozingCrusting + s.scratchMarks
                 + s.lichenification + s.dryness
  {
    var its := ItemOrder;
    assert SumItems(s, its[5..]) == s.dryness;
    assert SumItems(s, its[4..]) == s.lichenification + SumItems(s, its[5..]);
    assert SumItems(s, its[3..]) == s.scratchMarks + SumItems(s, its[4..]);
    assert SumItems(s, its[2..]) == s.oozingCrusting + SumItems(s, its[3..]);
    assert SumItems(s, its[1..]) == s.swelling + SumItems(s, its[2..]);
    SumItems(s, its)
  }

  /** `calculateSScore`: itch + sleeplessness. */
  function SScore(s: SubjectiveScores): (r: real)
    ensures OnSubjectiveScale(s.itch) && OnSubjectiveScale(s.sleeplessness) ==> 0.0 <= r <= 20.0
  {
    s.itch + s.sleeplessness
  }

  /** `validateTotalBsa`: never blocks, reports the plain area sum, and warns
      exactly when that sum exceeds 100. */
  function ValidateTotalBsa(b: BodyRegions): (c: BsaCheck)
    ensures c.valid
    ensures c.totalBsa == b.headNeck + b.upperLimbLeft + b.upperLimbRight + b.lowerLimbLeft
                          + b.lowerLimbRight + b.anteriorTrunk + b.back + b.genitals
    ensures c.warning.Some? <==> c.totalBsa > 100.0
    ensures c.warning.Some? ==> c.warning.value == TotalBsaExceeds100(c.totalBsa)
  {
    var total := AreaSum(b);
    BsaCheck(true, total, if total > 100.0 then Some(TotalBsaExceeds100(total)) else None)
  }

  /** SCORAD = A/5 + 7I/2 + S on exact reals. Each component weighs
      positively, so components within their ranges (A up to 100, I up to
      18, S up to 20) give a total within the documented 0..103. */
  function TotalScore(a: real, i: int, s: real): (t: real)
    ensures 0.0 <= a && 0 <= i && 0.0 <= s ==> 0.0 <= t
    ensures a <= 100.0 && i <= 18 && s <= 20.0 ==> t <= 103.0
  {
    a / 5.0 + 7.0 * i as real / 2.0 + s
  }

  /** `interpretScore` for SCORAD: below 25 mild, from 25 below 50 moderate,
      from 50 on severe. */
  function Interpret(t: real): (r: Interpretation)
    ensures r == Mild <==> t < 25.0
    ensures r == Moderate <==> 25.0 <= t < 50.0
    ensures r == Severe <==> 50.0 <= t
  {
    if t < 25.0 then Mild
    else if t < 50.0 then Moderate
    else Severe
  }

  /** How severe a label is, for comparing labels. */
  function Rank(i: Interpretation): nat {
    match i
    case Mild => 0
    case Moderate => 1
    case Severe => 2
  }

  // ---------------------------------------------------------------------
  // The calculation
  // ---------------------------------------------------------------------

  predicate ValidInput(input: ScoradInput) {
    && ValidateBodyRegions(input.bodyRegions).Valid()
    && ValidateIntensity(input.intensity).Valid()
    && ValidateSubjective(input.subjective).Valid()
  }

  /** The unrounded SCORAD total of an input; on valid input it lies in
      [0, 103]. */
  function RawTotal(input: ScoradInput): (t: real)
    ensures ValidInput(input) ==> 0.0 <= t <= 103.0
  {
    var t := TotalScore(AreaSum(input.bodyRegions), IScore(input.intensity), SScore(input.subjective));
    if ValidInput(input) then
      AScoreBounds(input.bodyRegions);
      IScoreBounds(input.intensity);
      t
    else t
  }

  /** `calculateScorad`: refuses with the first failing group (regions, then
      intensity, then subjective) and that group's errors; otherwise reports
      the components, the total, and the label of the unrounded total. */
  function CalculateScorad(input: ScoradInput): (r: Result<ScoradResult, ScoradFailure>)
    ensures r.Failure? <==> !ValidInput(input)
    ensures !ValidateBodyRegions(input.bodyRegions).Valid() ==>
      r == Failure(InvalidBodyRegions(ValidateBodyRegions(input.bodyRegions).errors))
    ensures ValidateBodyRegions(input.bodyRegions).Valid() && !ValidateIntensity(input.intensity).Valid() ==>
      r == Failure(InvalidIntensityScores(ValidateIntensity(input.intensity).errors))
    ensures ValidateBodyRegions(input.bodyRegions).Valid() && ValidateIntensity(input.intensity).Valid()
            && !ValidateSubjective(input.subjective).Valid() ==>
      r == Failure(InvalidSubjectiveScores(ValidateSubjective(input.subjective).errors))
    ensures r.Success? ==>
      && 0.0 <= r.value.aScore <= 100.0
      && 0 <= r.value.iScore <= 18
      && 0.0 <= r.value.sScore <= 20.0
      && 0.0 <= r.value.totalScore <= 103.0
      && r.value.aScore == Round1(AreaSum(input.bodyRegions))
      && r.value.iScore == IScore(input.intensity)
      && r.value.sScore == SScore(input.subjective)
      && r.value.totalScore == Round1(RawTotal(input))
      && r.value.interpretation == Interpret(RawTotal(input))
  {
    var bodyValidation := ValidateBodyRegions(input.bodyRegions);
    if !bodyValidation.Valid() then Failure(InvalidBodyRegions(bodyValidation.errors))
    else
      var intensityValidation := ValidateIntensity(input.intensity);
      if !intensityValidation.Valid() then Failure(InvalidIntensityScores(intensityValidation.errors))
      else
        var subjectiveValidation := ValidateSubjective(input.subjective);
        if !subjectiveValidation.Valid() then Failure(InvalidSubjectiveScores(subjectiveValidation.errors))
        else
          var a := AreaSum(input.bodyRegions);
          var i := IScore(input.intensity);
          var s := SScore(input.subjective);
          var total := TotalScore(a, i, s);
          AScoreBounds(input.bodyRegions);
          IScoreBounds(input.intensity);
          Round1Between(a, 0, 1000);
          Round1Between(total, 0, 1030);
          Success(ScoradResult(Round1(a), i, s, Round1(total), Interpret(total)))
  }

  /** `createEmptyInput`: every region, grade and subjective score is zero. */
  function EmptyInput(): (e: ScoradInput)
    ensures forall r: Region :: e.bodyRegions.Value(r) == 0.0
    ensures forall it: Item :: e.intensity.Value(it) == 0
    ensures e.subjective.itch == 0.0 && e.subjective.sleeplessness == 0.0
  {
    ScoradInput(
      BodyRegions(0.0, 0.0, 0.0, 0.0, 0.0, 0.0, 0.0, 0.0),
      IntensityScores(0, 0, 0, 0, 0, 0),
      SubjectiveScores(0.0, 0.0))
  }

  // ---------------------------------------------------------------------
  // Properties
  // ---------------------------------------------------------------------

  /** Region validity spelled out field by field, against `REGION_MAX_BSA`. */
  lemma BodyRegionsValidFieldwise(b: BodyRegions)
    ensures ValidateBodyRegions(b).Valid() <==>
      && 0.0 <= b.headNeck <= 9.0 && 0.0 <= b.upperLimbLeft <= 9.0 && 0.0 <= b.upperLimbRight <= 9.0
      && 0.0 <= b.lowerLimbLeft <= 18.0 && 0.0 <= b.lowerLimbRight <= 18.0
      && 0.0 <= b.anteriorTrunk <= 18.0 && 0.0 <= b.back <= 18.0 && 0.0 <= b.genitals <= 1.0
  {
    assert RegionInRange(b, HeadNeck) && RegionInRange(b, UpperLimbLeft) && RegionInRange(b, UpperLimbRight)
        && RegionInRange(b, LowerLimbLeft) && RegionInRange(b, LowerLimbRight)
        && RegionInRange(b, AnteriorTrunk) && RegionInRange(b, Back) && RegionInRange(b, Genitals)
        <==> forall r: Region :: RegionInRange(b, r);
  }

  /** Intensity validity spelled out field by field. */
  lemma IntensityValidFieldwise(s: IntensityScores)
    ensures ValidateIntensity(s).Valid() <==>
      && IsIntensity(s.redness) && IsIntensity(s.swelling) && IsIntensity(s.oozingCrusting)
      && IsIntensity(s.scratchMarks) && IsIntensity(s.lichenification) && IsIntensity(s.dryness)
  {
    assert IsIntensity(s.Value(Redness)) && IsIntensity(s.Value(Swelling))
        && IsIntensity(s.Value(OozingCrusting)) && IsIntensity(s.Value(ScratchMarks))
        && IsIntensity(s.Value(Lichenification)) && IsIntensity(s.Value(Dryness))
        <==> forall it: Item :: IsIntensity(s.Value(it));
  }

  /** Region values inside their ranges sum to at most the sum of the maxima. */
  lemma {:induction false} SumRegionsBounded(b: BodyRegions, rs: seq<Region>)
    requires forall r | r in rs :: RegionInRange(b, r)
    ensures 0.0 <= SumRegions(b, rs) <= SumMaxBsa(rs)
  {
    if rs != [] {
      assert rs[0] in rs;
      assert forall r | r in rs[1..] :: r in rs;
      SumRegionsBounded(b, rs[1..]);
    }
  }

  /** The region maxima add up to 100. */
  lemma MaxBsaTotal()
    ensures SumMaxBsa(RegionOrder) == 100.0
  {
    var rs := RegionOrder;
    assert SumMaxBsa(rs[7..]) == 1.0;
    assert SumMaxBsa(rs[6..]) == 19.0;
    assert SumMaxBsa(rs[5..]) == 37.0;
    assert SumMaxBsa(rs[4..]) == 55.0;
    assert SumMaxBsa(rs[3..]) == 73.0;
    assert SumMaxBsa(rs[2..]) == 82.0;
    assert SumMaxBsa(rs[1..]) == 91.0;
  }

  /** On regions that pass validation, A lies in [0, 100]. */
  lemma AScoreBounds(b: BodyRegions)
    requires ValidateBodyRegions(b).Valid()
    ensures 0.0 <= AreaSum(b) <= 100.0
  {
    AllRegionsListed();
    SumRegionsBounded(b, RegionOrder);
    MaxBsaTotal();
  }

  /** Grades in 0..3 over n items sum to a value in [0, 3n]. */
  lemma {:induction false} SumItemsBounded(s: IntensityScores, items: seq<Item>)
    requires forall it | it in items :: IsIntensity(s.Value(it))
    ensures 0 <= SumItems(s, items) <= 3 * |items|
  {
    if items != [] {
      assert items[0] in items;
      assert forall it | it in items[1..] :: it in items;
      SumItemsBounded(s, items[1..]);
    }
  }

  /** On intensity grades that pass validation, I lies in [0, 18]. */
  lemma IScoreBounds(s: IntensityScores)
    requires ValidateIntensity(s).Valid()
    ensures 0 <= IScore(s) <= 18
  {
    AllItemsListed();
    SumItemsBounded(s, ItemOrder);
  }

  /** Regions that pass `validateBodyRegions` never trigger the total-area warning. */
  lemma NoBsaWarningWhenRegionsValid(b: BodyRegions)
    requires ValidateBodyRegions(b).Valid()
    ensures ValidateTotalBsa(b).warning == None
    ensures ValidateTotalBsa(b).totalBsa == AreaSum(b)
  {
    AScoreBounds(b);
  }

  /** A higher total never gets a milder label. */
  lemma InterpretMonotone(t1: real, t2: real)
    requires t1 <= t2
    ensures Rank(Interpret(t1)) <= Rank(Interpret(t2))
  {
  }

  /** The label boundaries: 24.9 mild, 25 moderate, 49.9 moderate, exactly 50 severe. */
  lemma InterpretBoundaries()
    ensures Interpret(24.9) == Mild
    ensures Interpret(25.0) == Moderate
    ensures Interpret(49.9) == Moderate
    ensures Interpret(50.0) == Severe
  {
  }

  /** Validity of a whole input spelled out field by field. */
  lemma ValidInputFieldwise(input: ScoradInput)
    ensures ValidInput(input) <==>
      var b, s, j := input.bodyRegions, input.intensity, input.subjective;
      && 0.0 <= b.headNeck <= 9.0 && 0.0 <= b.upperLimbLeft <= 9.0 && 0.0 <= b.upperLimbRight <= 9.0
      && 0.0 <= b.lowerLimbLeft <= 18.0 && 0.0 <= b.lowerLimbRight <= 18.0
      && 0.0 <= b.anteriorTrunk <= 18.0 && 0.0 <= b.back <= 18.0 && 0.0 <= b.genitals <= 1.0
      && IsIntensity(s.redness) && IsIntensity(s.swelling) && IsIntensity(s.oozingCrusting)
      && IsIntensity(s.scratchMarks) && IsIntensity(s.lichenification) && IsIntensity(s.dryness)
      && OnSubjectiveScale(j.itch) && OnSubjectiveScale(j.sleeplessness)
  {
    BodyRegionsValidFieldwise(input.bodyRegions);
    IntensityValidFieldwise(input.intensity);
  }

  /** On valid input the result is assembled from the components: A and the
      total rounded, I and S as computed, the label from the unrounded total. */
  lemma CalculatedFromComponents(input: ScoradInput)
    requires ValidInput(input)
    ensures CalculateScorad(input) == Success(ScoradResult(
      Round1(AreaSum(input.bodyRegions)), IScore(input.intensity), SScore(input.subjective),
      Round1(RawTotal(input)), Interpret(RawTotal(input))))
  {
  }
}
