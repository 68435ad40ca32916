/**
 * The eight customer attributes the dashboard collects: their canonical order,
 * the reference baselines, the widget domains and the first-view defaults.
 */
module Features {
  import opened Wrappers

  datatype Feature =
    | Age | Gender | SupportCalls | PaymentDelay | SubscriptionType
    | ContractLength | TotalSpend | LastInteraction

  /** A value held in the session store: Python's `None`, a string or a number. */
  datatype Value = Null | Str(s: string) | Num(x: real)

  /** The canonical feature order; it is also the predictor's column order. */
  const FeatureVectors: seq<Feature> :=
    [Age, Gender, SupportCalls, PaymentDelay, SubscriptionType, ContractLength, TotalSpend, LastInteraction]

  /** Where a feature stands in the canonical order. */
  function Position(f: Feature): (i: nat)
    ensures i < |FeatureVectors| && FeatureVectors[i] == f
  {
    match f
    case Age => 0
    case Gender => 1
    case SupportCalls => 2
    case PaymentDelay => 3
    case SubscriptionType => 4
    case ContractLength => 5
    case TotalSpend => 6
    case LastInteraction => 7
  }

  /** Position inverts indexing into the canonical order. */
  lemma PositionOfIndex(i: nat)
    requires i < |FeatureVectors|
    ensures Position(FeatureVectors[i]) == i
  {
  }

  /** The feature's display name, as used for encoder columns and export columns. */
  function Name(f: Feature): string {
    match f
    case Age => "Age"
    case Gender => "Gender"
    case SupportCalls => "Support Calls"
    case PaymentDelay => "Payment Delay"
    case SubscriptionType => "Subscription Type"
    case ContractLength => "Contract Length"
    case TotalSpend => "Total Spend"
    case LastInteraction => "Last Interaction"
  }

  predicate IsCategorical(f: Feature) {
    f == Gender || f == SubscriptionType
  }

  /** Reference value of each numeric feature (the "average user"). */
  const GlobalBaselines: map<Feature, real> :=
    map[Age := 35.0, SupportCalls := 2.0, PaymentDelay := 5.0,
        ContractLength := 12.0, TotalSpend := 1500.0, LastInteraction := 14.0]

  /** Options of the two selectboxes, in display order. */
  function Options(f: Feature): seq<string>
    requires IsCategorical(f)
  {
    if f == Gender then ["Female", "Male", "Other"] else ["Basic", "Standard", "Premium"]
  }

  /** The closed interval a numeric slider accepts. */
  datatype Range = Range(lo: real, hi: real)

  function SliderRange(f: Feature): Range
    requires !IsCategorical(f)
  {
    match f
    case Age => Range(18.0, 90.0)
    case ContractLength => Range(1.0, 36.0)
    case SupportCalls => Range(0.0, 30.0)
    case PaymentDelay => Range(0.0, 60.0)
    case TotalSpend => Range(0.0, 20000.0)
    case LastInteraction => Range(0.0, 180.0)
  }

  /** The values the input widget for `f` can hold. */
  predicate InDomain(f: Feature, v: Value) {
    if IsCategorical(f) then v.Str? && v.s in Options(f)
    else v.Num? && SliderRange(f).lo <= v.x <= SliderRange(f).hi
  }

  /** First-view default of an input: fixed labels for the selectboxes, the baseline (or 0) otherwise. */
  function FeatureDefault(f: Feature): (v: Value)
    ensures IsCategorical(f) ==> v.Str? && v.s in Options(f)
    ensures !IsCategorical(f) ==> f in GlobalBaselines && v == Num(GlobalBaselines[f])
  {
    if f == Gender then Str("Female")
    else if f == SubscriptionType then Str("Standard")
    else Num(if f in GlobalBaselines then GlobalBaselines[f] else 0.0)
  }

  /** One customer's inputs, as read from a well-formed session store. */
  datatype Customer = Customer(
    age: real, gender: string, supportCalls: real, paymentDelay: real,
    subscription: string, contractLength: real, totalSpend: real, lastInteraction: real)

  /** The canonical order lists every feature exactly once. */
  lemma FeatureVectorsComplete()
    ensures |FeatureVectors| == 8
    ensures forall f: Feature :: f in FeatureVectors
    ensures forall i, j :: 0 <= i < j < |FeatureVectors| ==> FeatureVectors[i] != FeatureVectors[j]
  {
    forall f: Feature ensures f in FeatureVectors {
      match f
      case Age => assert FeatureVectors[0] == f;
      case Gender => assert FeatureVectors[1] == f;
      case SupportCalls => assert FeatureVectors[2] == f;
      case PaymentDelay => assert FeatureVectors[3] == f;
      case SubscriptionType => assert FeatureVectors[4] == f;
      case ContractLength => assert FeatureVectors[5] == f;
      case TotalSpend => assert FeatureVectors[6] == f;
      case LastInteraction => assert FeatureVectors[7] == f;
    }
  }

  /** The baseline table covers exactly the numeric features, and every baseline is a positive value its slider accepts. */
  lemma BaselinesWellFormed()
    ensures forall f: Feature :: f in GlobalBaselines <==> !IsCategorical(f)
    ensures forall f: Feature :: f in GlobalBaselines ==>
      0.0 < GlobalBaselines[f] && SliderRange(f).lo <= GlobalBaselines[f] <= SliderRange(f).hi
  {
  }

  /** Every first-view default is a value its widget accepts. */
  lemma DefaultsInDomain(f: Feature)
    ensures InDomain(f, FeatureDefault(f))
  {
  }
}
