/**
 * The per-browser-session key/value store and the operations that change it:
 * first-view initialisation, widget write-back and the prediction run.
 */
module Session {
  import opened Wrappers
  import opened Features
  import opened Widgets
  import opened Encoding
  import opened Scoring
  import opened Reports

  /** The store's keys; `Input(f)` is the key "input_<name of f>". */
  datatype Key = SessionId | Input(feature: Feature) | ChurnRiskScore | Timestamp | ComputeLatency

  type Store = map<Key, Value>

  /** Every key the dashboard initialises. */
  const AllKeys: set<Key> :=
    {SessionId, Input(Age), Input(Gender), Input(SupportCalls), Input(PaymentDelay),
     Input(SubscriptionType), Input(ContractLength), Input(TotalSpend), Input(LastInteraction),
     ChurnRiskScore, Timestamp, ComputeLatency}

  lemma AllKeysComplete(k: Key)
    ensures k in AllKeys
  {
    if k.Input? {
      match k.feature
      case Age => case Gender => case SupportCalls => case PaymentDelay =>
      case SubscriptionType => case ContractLength => case TotalSpend => case LastInteraction =>
    }
  }

  /** The value first-view initialisation gives a key that is absent. */
  function DefaultValue(k: Key, sessionId: string): Value {
    match k
    case SessionId => Str(sessionId)
    case Input(f) => FeatureDefault(f)
    case ChurnRiskScore => Null
    case Timestamp => Null
    case ComputeLatency => Num(0.0)
  }

  /** The store after first-view initialisation: present keys keep their value, absent ones get their default. */
  function Initialized(s: Store, sessionId: string): (r: Store)
    ensures r.Keys == s.Keys + AllKeys
  {
    map k | k in s.Keys + AllKeys :: FilledValue(s, k, sessionId)
  }

  /** The value a key holds after initialisation. */
  function FilledValue(s: Store, k: Key, sessionId: string): Value {
    if k in s then s[k] else DefaultValue(k, sessionId)
  }

  /** Every key of the initialised store holds its filled value. */
  lemma InitializedAt(s: Store, sessionId: string, k: Key)
    ensures k in Initialized(s, sessionId) && Initialized(s, sessionId)[k] == FilledValue(s, k, sessionId)
  {
    AllKeysComplete(k);
  }

  /** A store holding every key, each with its filled value, is the initialised store. */
  lemma InitializedCharacterized(s: Store, sessionId: string, r: Store)
    requires forall k: Key :: k in r && r[k] == FilledValue(s, k, sessionId)
    ensures r == Initialized(s, sessionId)
  {
    var target := Initialized(s, sessionId);
    forall k: Key ensures k in target {
      AllKeysComplete(k);
    }
  }

  /** A store holding exactly the defaults is well-formed. */
  lemma DefaultsValid(r: Store, sessionId: string)
    requires forall k: Key :: k in r && r[k] == DefaultValue(k, sessionId)
    ensures ValidStore(r)
  {
    forall f: Feature ensures Input(f) in r && InDomain(f, r[Input(f)]) {
      DefaultsInDomain(f);
    }
  }

  /** A well-formed store: every key present, every input within its widget's domain, a score in [0, 100] exactly when a timestamp is set. */
  predicate ValidStore(s: Store) {
    && SessionId in s && s[SessionId].Str?
    && (forall f: Feature :: Input(f) in s && InDomain(f, s[Input(f)]))
    && ChurnRiskScore in s && Timestamp in s && ComputeLatency in s
    && (s[ChurnRiskScore].Null? || (s[ChurnRiskScore].Num? && 0.0 <= s[ChurnRiskScore].x <= 100.0))
    && (s[Timestamp].Null? || s[Timestamp].Str?)
    && (s[ChurnRiskScore].Null? <==> s[Timestamp].Null?)
    && s[ComputeLatency].Num?
  }

  /** Initialisation only fills absent keys, so running it again changes nothing, whatever session id it is given. */
  lemma InitializedIdempotent(s: Store, id1: string, id2: string)
    ensures Initialized(Initialized(s, id1), id2) == Initialized(s, id1)
  {
    var once := Initialized(s, id1);
    var twice := Initialized(once, id2);
    forall k: Key ensures k in once && k in twice && twice[k] == once[k] {
      AllKeysComplete(k);
    }
  }

  /** A fresh session is well-formed after initialisation and holds the documented defaults. */
  lemma FreshSessionInitialized(sessionId: string)
    ensures ValidStore(Initialized(map[], sessionId))
    ensures var s := Initialized(map[], sessionId);
      && s[Input(Gender)] == Str("Female") && s[Input(SubscriptionType)] == Str("Standard")
      && (forall f :: f in GlobalBaselines ==> s[Input(f)] == Num(GlobalBaselines[f]))
      && s[ChurnRiskScore] == Null && s[Timestamp] == Null && s[ComputeLatency] == Num(0.0)
  {
    var s := Initialized(map[], sessionId);
    forall k: Key ensures k in s && s[k] == DefaultValue(k, sessionId) {
      InitializedAt(map[], sessionId, k);
    }
    DefaultsValid(s, sessionId);
  }

  /** On a well-formed store, as on every re-render after the first, initialisation is the identity. */
  lemma ValidStoreIsFixedPoint(s: Store, sessionId: string)
    requires ValidStore(s)
    ensures Initialized(s, sessionId) == s
  {
    forall k | k in AllKeys ensures k in s {
      if k.Input? {
        assert Input(k.feature) in s;
      }
    }
  }

  /** Writing a value its widget accepts into an input keeps the store well-formed. */
  lemma InputWriteKeepsValid(s: Store, f: Feature, v: Value)
    requires ValidStore(s) && InDomain(f, v)
    ensures ValidStore(s[Input(f) := v])
  {
    var t := s[Input(f) := v];
    forall g: Feature ensures Input(g) in t && InDomain(g, t[Input(g)]) {
      if g != f {
        assert t[Input(g)] == s[Input(g)];
      }
    }
  }

  /** Storing a score in [0, 100] with a timestamp and a latency keeps the store well-formed. */
  lemma ScoreWriteKeepsValid(s: Store, risk: real, now: string, latency: real)
    requires ValidStore(s) && 0.0 <= risk <= 100.0
    ensures ValidStore(s[ChurnRiskScore := Num(risk)][Timestamp := Str(now)][ComputeLatency := Num(latency)])
  {
    var t := s[ChurnRiskScore := Num(risk)][Timestamp := Str(now)][ComputeLatency := Num(latency)];
    forall g: Feature ensures Input(g) in t && InDomain(g, t[Input(g)]) {
      assert t[Input(g)] == s[Input(g)];
    }
  }

  /** The customer inputs of a well-formed store. */
  function CustomerOf(s: Store): Customer
    requires ValidStore(s)
  {
    assert InDomain(Age, s[Input(Age)]) && InDomain(Gender, s[Input(Gender)])
        && InDomain(SupportCalls, s[Input(SupportCalls)]) && InDomain(PaymentDelay, s[Input(PaymentDelay)])
        && InDomain(SubscriptionType, s[Input(SubscriptionType)])
        && InDomain(ContractLength, s[Input(ContractLength)])
        && InDomain(TotalSpend, s[Input(TotalSpend)]) && InDomain(LastInteraction, s[Input(LastInteraction)]);
    Customer(s[Input(Age)].x, s[Input(Gender)].s, s[Input(SupportCalls)].x, s[Input(PaymentDelay)].x,
             s[Input(SubscriptionType)].s, s[Input(ContractLength)].x, s[Input(TotalSpend)].x,
             s[Input(LastInteraction)].x)
  }

  /** The customer of a well-formed store is within the widgets' domains. */
  lemma CustomerInDomain(s: Store)
    requires ValidStore(s)
    ensures var c := CustomerOf(s);
      && c.gender in Options(Gender) && c.subscription in Options(SubscriptionType)
      && SliderRange(Age).lo <= c.age <= SliderRange(Age).hi
      && SliderRange(SupportCalls).lo <= c.supportCalls <= SliderRange(SupportCalls).hi
      && SliderRange(PaymentDelay).lo <= c.paymentDelay <= SliderRange(PaymentDelay).hi
      && SliderRange(ContractLength).lo <= c.contractLength <= SliderRange(ContractLength).hi
      && SliderRange(TotalSpend).lo <= c.totalSpend <= SliderRange(TotalSpend).hi
      && SliderRange(LastInteraction).lo <= c.lastInteraction <= SliderRange(LastInteraction).hi
  {
    assert InDomain(Age, s[Input(Age)]) && InDomain(Gender, s[Input(Gender)])
        && InDomain(SupportCalls, s[Input(SupportCalls)]) && InDomain(PaymentDelay, s[Input(PaymentDelay)])
        && InDomain(SubscriptionType, s[Input(SubscriptionType)])
        && InDomain(ContractLength, s[Input(ContractLength)])
        && InDomain(TotalSpend, s[Input(TotalSpend)]) && InDomain(LastInteraction, s[Input(LastInteraction)]);
  }

  /**
   * The views of a scored, well-formed store are within their bounds: every
   * radar vertex in [0, 1], and the revenue shares non-negative and summing
   * to the annual figure.
   */
  lemma ScoredViewsBounded(s: Store)
    requires ValidStore(s) && s[ChurnRiskScore].Num?
    ensures var c := CustomerOf(s);
      forall i :: 0 <= i < 7 ==> 0.0 <= ClosedPolygon(RadarValues(c))[i] <= 1.0
    ensures var c := CustomerOf(s);
      var r := RevenueSplit(c.totalSpend, c.contractLength, s[ChurnRiskScore].x);
      0.0 <= r.atRisk && 0.0 <= r.secured && r.atRisk + r.secured == r.annual
  {
    var c := CustomerOf(s);
    CustomerInDomain(s);
    RadarWithinUnit(c);
    RevenueSharesBounded(c.totalSpend, c.contractLength, s[ChurnRiskScore].x);
  }

  /** The risk score a successful run stores for the current inputs. */
  function PredictedRisk(s: Store, predict: seq<real> -> real, encoder: Option<Encoder>): (risk: real)
    requires ValidStore(s)
    ensures 0.0 <= risk <= 100.0
  {
    var c := CustomerOf(s);
    NormalizeRisk(predict(Payload(c, EncodeCategoricals(encoder, c.gender, c.subscription))))
  }

  /** The error a run without a predictor reports. */
  const ModelMissing := "SYSTEM HALT: `model.pkl` absent from directory. Cannot initialize Decision Tree kernel."

  datatype RunOutcome = Refused(message: string) | Scored(risk: real)

  class Session {
    var store: Store

    ghost predicate Valid()
      reads this
    {
      ValidStore(store)
    }

    /** A new browser session starts with an empty store. */
    constructor()
      ensures store == map[]
    {
      store := map[];
    }

    /** First-view initialisation; it runs on every re-render and only fills absent keys. */
    method Init(sessionId: string)
      modifies this
      ensures forall k: Key :: k in store && store[k] == FilledValue(old(store), k, sessionId)
      ensures old(store) == map[] ==> Valid()
    {
      if SessionId !in store {
        store := store[SessionId := Str(sessionId)];
      }
      for i := 0 to |FeatureVectors|
        invariant SessionId in store
        invariant forall k :: (k in old(store) || (k.Input? && Position(k.feature) < i)) ==> k in store
        invariant forall k :: k in store ==> store[k] == FilledValue(old(store), k, sessionId)
      {
        PositionOfIndex(i);
        var key := Input(FeatureVectors[i]);
        if key !in store {
          store := store[key := FeatureDefault(FeatureVectors[i])];
        }
      }
      InitOperationalState();
      forall k: Key ensures k in store && store[k] == FilledValue(old(store), k, sessionId) {
        if k.Input? {
          assert Position(k.feature) < |FeatureVectors|;
        }
      }
      if old(store) == map[] {
        DefaultsValid(store, sessionId);
      }
    }

    /** The operational keys of first-view initialisation: no score, no timestamp, zero latency. */
    method InitOperationalState()
      modifies this
      ensures forall k :: k in old(store) ==> k in store && store[k] == old(store)[k]
      ensures forall k :: k in store ==>
        k in old(store) || k == ChurnRiskScore || k == Timestamp || k == ComputeLatency
      ensures ChurnRiskScore in store && Timestamp in store && ComputeLatency in store
      ensures ChurnRiskScore !in old(store) ==> store[ChurnRiskScore] == Null
      ensures Timestamp !in old(store) ==> store[Timestamp] == Null
      ensures ComputeLatency !in old(store) ==> store[ComputeLatency] == Num(0.0)
    {
      if ChurnRiskScore !in store {
        store := store[ChurnRiskScore := Null];
      }
      if Timestamp !in store {
        store := store[Timestamp := Null];
      }
      if ComputeLatency !in store {
        store := store[ComputeLatency := Num(0.0)];
      }
    }

    /**
     * A numeric slider block: returns the delta of the current value from the
     * baseline and writes the slider's value back into the store.
     */
    method WriteNumeric(f: Feature, picked: Option<real>) returns (delta: Option<real>)
      requires !IsCategorical(f) && Input(f) in store && InDomain(f, store[Input(f)])
      requires picked.Some? ==> SliderRange(f).lo <= picked.value <= SliderRange(f).hi
      modifies this
      ensures delta == DeltaPct(old(store)[Input(f)].x, GlobalBaselines[f])
      ensures store == old(store)[Input(f) := Num(SliderResult(old(store)[Input(f)].x, picked))]
      ensures old(Valid()) ==> Valid()
    {
      BaselinesWellFormed();
      var current := store[Input(f)].x;
      delta := DeltaPct(current, GlobalBaselines[f]);
      if Valid() {
        InputWriteKeepsValid(store, f, Num(SliderResult(current, picked)));
      }
      store := store[Input(f) := Num(SliderResult(current, picked))];
    }

    /** A selectbox block: writes the selectbox's choice back into the store. */
    method WriteCategorical(f: Feature, picked: Option<string>)
      requires IsCategorical(f) && Input(f) in store
      requires picked.Some? ==> picked.value in Options(f)
      modifies this
      ensures store == old(store)[Input(f) := Str(SelectboxResult(Options(f), old(store)[Input(f)], picked))]
      ensures Input(f) in old(store) && InDomain(f, store[Input(f)])
      ensures old(Valid()) ==> Valid()
    {
      var current := store[Input(f)];
      if Valid() {
        InputWriteKeepsValid(store, f, Str(SelectboxResult(Options(f), current, picked)));
      }
      store := store[Input(f) := Str(SelectboxResult(Options(f), current, picked))];
    }

    /**
     * The prediction run. Without a predictor it is refused and nothing is
     * stored; otherwise the labels are encoded, the payload assembled, the
     * predictor called once and its normalised output stored together with
     * the timestamp and latency, which are supplied by the caller.
     */
    method RunPrediction(model: Option<seq<real> -> real>, encoder: Option<Encoder>, now: string, latency: real)
      returns (outcome: RunOutcome)
      requires Valid()
      modifies this
      ensures Valid()
      ensures model.None? ==> outcome.Refused? && store == old(store)
      ensures model.Some? ==>
        var risk := PredictedRisk(old(store), model.value, encoder);
        && outcome == Scored(risk)
        && store == old(store)[ChurnRiskScore := Num(risk)][Timestamp := Str(now)][ComputeLatency := Num(latency)]
    {
      if model.None? {
        outcome := Refused(ModelMissing);
      } else {
        var c := CustomerOf(store);
        var genderVal, subVal := EncodeLabels(encoder, c.gender, c.subscription);
        var payload := Payload(c, Codes(genderVal, subVal));
        var raw := model.value(payload);
        var normalizedRisk := NormalizeRisk(raw);
        ScoreWriteKeepsValid(store, normalizedRisk, now, latency);
        store := store[ChurnRiskScore := Num(normalizedRisk)];
        store := store[Timestamp := Str(now)];
        store := store[ComputeLatency := Num(latency)];
        outcome := Scored(normalizedRisk);
      }
    }
  }
}
