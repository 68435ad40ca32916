/**
 * Turning the two categorical labels into integer codes and assembling the
 * feature vector handed to the predictor.
 */
module Encoding {
  import opened Wrappers
  import opened Features

  /**
   * The loaded label encoder, seen as a partial map from column name to a
   * partial map from label to code. A lookup outside either map is a failed
   * `transform`; an encoder object that is not a mapping of columns behaves
   * like one with no columns.
   */
  datatype Encoder = Encoder(columns: map<string, map<string, int>>)

  /** `encoder[column].transform([text])[0]`: fails exactly when the column or the label is unknown. */
  function Transform(enc: Encoder, column: string, text: string): (r: Option<int>)
    ensures r.Some? <==> column in enc.columns && text in enc.columns[column]
    ensures r.Some? ==> r.value in enc.columns[column].Values
  {
    if column in enc.columns && text in enc.columns[column] then Some(enc.columns[column][text])
    else None
  }

  /** Fixed fallback tables, in the alphabetical order a label encoder would assign. */
  const ManualGender: map<string, int> := map["Female" := 0, "Male" := 1, "Other" := 2]
  const ManualSubscription: map<string, int> := map["Basic" := 0, "Premium" := 1, "Standard" := 2]

  /** A fallback lookup: the table's code, or 0 for an unknown text. */
  function ManualCode(table: map<string, int>, text: string): (c: int)
    ensures text in table ==> c == table[text]
    ensures c == 0 || c in table.Values
  {
    if text in table then table[text] else 0
  }

  datatype Codes = Codes(gender: int, subscription: int)

  /** True when the encoder is present and both lookups through it succeed. */
  predicate EncoderApplies(enc: Option<Encoder>, gender: string, subscription: string) {
    enc.Some? && Transform(enc.value, Name(Gender), gender).Some?
    && Transform(enc.value, Name(SubscriptionType), subscription).Some?
  }

  /**
   * The codes of the two labels: through the encoder when it applies to both,
   * otherwise both through the fallback tables.
   */
  function EncodeCategoricals(enc: Option<Encoder>, gender: string, subscription: string): (c: Codes)
    ensures EncoderApplies(enc, gender, subscription) ==>
      Transform(enc.value, Name(Gender), gender) == Some(c.gender)
      && Transform(enc.value, Name(SubscriptionType), subscription) == Some(c.subscription)
    ensures !EncoderApplies(enc, gender, subscription) ==>
      0 <= c.gender <= 2 && 0 <= c.subscription <= 2
  {
    if EncoderApplies(enc, gender, subscription) then
      Codes(Transform(enc.value, Name(Gender), gender).value,
            Transform(enc.value, Name(SubscriptionType), subscription).value)
    else
      Codes(ManualCode(ManualGender, gender), ManualCode(ManualSubscription, subscription))
  }

  /**
   * The encoding step of a prediction run, as the dashboard performs it:
   * both codes start at 0, the encoder is tried on both labels, and on any
   * failure both codes are taken from the fallback tables.
   */
  method EncodeLabels(enc: Option<Encoder>, inputGender: string, inputSub: string)
    returns (genderVal: int, subVal: int)
    ensures Codes(genderVal, subVal) == EncodeCategoricals(enc, inputGender, inputSub)
  {
    genderVal := 0;
    subVal := 0;
    var failed := enc.None?;
    if !failed {
      var g := Transform(enc.value, Name(Gender), inputGender);
      if g.Some? {
        genderVal := g.value;
        var s := Transform(enc.value, Name(SubscriptionType), inputSub);
        if s.Some? {
          subVal := s.value;
        } else {
          failed := true;
        }
      } else {
        failed := true;
      }
    }
    if failed {
      genderVal := ManualCode(ManualGender, inputGender);
      subVal := ManualCode(ManualSubscription, inputSub);
    }
  }

  /** The fallback table of a categorical feature. */
  function ManualTable(f: Feature): map<string, int>
    requires IsCategorical(f)
  {
    if f == Gender then ManualGender else ManualSubscription
  }

  /** Encoder path: whatever the encoder answers for both labels is used as is. */
  lemma EncoderPathUsed(enc: Encoder, gender: string, subscription: string, g: int, s: int)
    requires Transform(enc, "Gender", gender) == Some(g)
    requires Transform(enc, "Subscription Type", subscription) == Some(s)
    ensures EncodeCategoricals(Some(enc), gender, subscription) == Codes(g, s)
  {
  }

  /**
   * Fallback path: with no encoder, or when either lookup fails, both codes
   * come from the fixed tables, even a gender code the encoder did know.
   */
  lemma FallbackPath(enc: Option<Encoder>, gender: string, subscription: string)
    requires enc.None? || Transform(enc.value, "Gender", gender).None?
          || Transform(enc.value, "Subscription Type", subscription).None?
    ensures EncodeCategoricals(enc, gender, subscription).gender == ManualCode(ManualGender, gender)
    ensures EncodeCategoricals(enc, gender, subscription).subscription == ManualCode(ManualSubscription, subscription)
  {
  }

  /** The fallback tables' codes for every selectbox option, and 0 for anything else. */
  lemma FallbackTables(text: string)
    ensures ManualCode(ManualGender, "Female") == 0 && ManualCode(ManualGender, "Male") == 1
         && ManualCode(ManualGender, "Other") == 2
    ensures ManualCode(ManualSubscription, "Basic") == 0 && ManualCode(ManualSubscription, "Premium") == 1
         && ManualCode(ManualSubscription, "Standard") == 2
    ensures text !in Options(Gender) ==> ManualCode(ManualGender, text) == 0
    ensures text !in Options(SubscriptionType) ==> ManualCode(ManualSubscription, text) == 0
  {
  }

  /**
   * On a selectbox's options the fallback table is a bijection onto
   * 0 .. |options|-1: a fallback code identifies its text.
   */
  lemma FallbackDistinguishesOptions(f: Feature, a: string, b: string)
    requires IsCategorical(f) && a in Options(f) && b in Options(f)
    ensures 0 <= ManualCode(ManualTable(f), a) < |Options(f)|
    ensures ManualCode(ManualTable(f), a) == ManualCode(ManualTable(f), b) <==> a == b
  {
  }

  /** The number fed to the predictor for feature `f`. */
  function FeatureNumber(c: Customer, codes: Codes, f: Feature): real {
    match f
    case Age => c.age
    case Gender => codes.gender as real
    case SupportCalls => c.supportCalls
    case PaymentDelay => c.paymentDelay
    case SubscriptionType => codes.subscription as real
    case ContractLength => c.contractLength
    case TotalSpend => c.totalSpend
    case LastInteraction => c.lastInteraction
  }

  /** The single-row payload handed to the predictor. */
  function Payload(c: Customer, codes: Codes): (p: seq<real>)
    ensures |p| == |FeatureVectors|
  {
    [c.age, codes.gender as real, c.supportCalls, c.paymentDelay,
     codes.subscription as real, c.contractLength, c.totalSpend, c.lastInteraction]
  }

  /**
   * The payload follows the canonical feature order whichever way the codes
   * were obtained: its i-th entry is the number for the i-th feature.
   */
  lemma PayloadOrder(c: Customer, codes: Codes)
    ensures |Payload(c, codes)| == 8
    ensures forall i :: 0 <= i < 8 ==> Payload(c, codes)[i] == FeatureNumber(c, codes, FeatureVectors[i])
  {
  }
}
