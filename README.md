# Customer churn dashboard: a Dafny model of its prediction pipeline

The dashboard is a single Streamlit page (`app.py`). It collects eight
customer attributes, runs a pre-trained regressor on them and shows the
resulting churn-risk percentage in several views. This project models the
part of the page that has exact rules:

- the per-session key/value store, its first-view initialisation and the
  widgets that write into it;
- the prediction run: refusal without a model, label encoding with its
  fallback tables, the fixed-order eight-entry payload, the call to the
  predictor and the two-branch normalisation of its output;
- the pure views of the stored result: the 60/30 risk bands, the 50-point
  status flags, the gauge colours, the radar values and the revenue split,
  and the baseline delta next to each slider.

Numbers are Dafny `real`s, so clamps, thresholds and the revenue identity
are exact. The predictor is a parameter of type `seq<real> -> real`. The
encoder is an optional partial map from column to label to code.

Modules: `Wrappers` (Option), `Arith` (min/max), `Features` (the eight
features, baselines, widget domains, defaults), `Widgets` (slider delta,
selectbox index), `Encoding` (label codes and payload), `Scoring`
(normalisation, bands, flags), `Reports` (radar, revenue) and `Session`
(the store and the `Session` class with `Init`, `WriteNumeric`,
`WriteCategorical` and `RunPrediction`).

The store's keys are a datatype. `Input(f)` stands for the string key
`"input_" + name of f`, and `SessionId`, `ChurnRiskScore`, `Timestamp` and
`ComputeLatency` stand for the other four keys. A stored value is Python's
`None` (`Null`), a string or a number.

Two details of the code shape the model:

- when either encoder lookup fails, both labels take their codes from the
  fixed tables, even a gender code the encoder did return
  (app.py:810-821, `Encoding.FallbackPath`);
- the radar polygon is closed by repeating its first value, so it has
  seven vertices (app.py:915, `Reports.ClosedPolygon`).

Two quirks of the code are proved rather than hidden. The normalisation is
not monotone: a raw 2.0 scores 100 and a raw 2.5 scores 2.5
(`Scoring.NormalizeNotMonotone`). The sidebar flag (`> 50`) and the dossier
status (`>= 50`) disagree at exactly 50 and nowhere else
(`Scoring.StatusFlagsDisagreeOnlyAtFifty`).

Two orderings of the page matter too. The delta shown beside a slider is
computed from the value before the slider's write (app.py:699-707) but
displayed next to the new value (app.py:729-733); `Session.Session.WriteNumeric`
returns the delta of the old value. The sidebar status (app.py:645-659) is
rendered before the prediction run (app.py:789-851), so on the rerun a
click causes it still shows the previous score; the model has no rendering
step, so this is not represented beyond the order of the operations.

## Model

| member | source | states |
|---|---|---|
| Features.FeatureVectorsComplete | app.py:60-69 | the canonical order has 8 entries, lists every feature and lists none twice |
| Features.Position | app.py:60-69 | each feature has an index in the canonical order, and that index holds the feature |
| Features.PositionOfIndex | app.py:60-69 | indexing into the canonical order and then taking the position gives back the index |
| Features.BaselinesWellFormed | app.py:72-79 | the baseline table covers exactly the six numeric features, and each baseline is positive and inside its slider's range (app.py:759-778) |
| Features.FeatureDefault | app.py:589-594 | a selectbox input defaults to one of its options, and a numeric input to its baseline, so the `.get(…, 0)` fallback never applies |
| Features.DefaultsInDomain | app.py:585-594 | every first-view default ("Female", "Standard", or the baseline) is a value its widget accepts |
| Widgets.DeltaPct | app.py:703-707 | a percentage delta exists exactly when the baseline is positive |
| Widgets.DeltaRoundTrip | app.py:703-704 | the delta is a relative change: baseline × (1 + delta/100) gives back the current value |
| Widgets.DeltaSign | app.py:703-704 | the delta is positive exactly when the value is above the baseline, and zero exactly at the baseline |
| Widgets.IndexOf | app.py:751 | `list.index` returns a position holding the value with no earlier occurrence |
| Widgets.SelectIndex | app.py:751 | the initial index is a valid option index: the stored value's position if it is an option, else 0 |
| Widgets.SelectboxResult | app.py:748-752 | what the selectbox writes back is always one of its options, and is the user's pick when there is one |
| Widgets.SliderResult | app.py:718-726 | the slider writes back the user's value when there is one, and otherwise the value it was given |
| Widgets.SelectboxFallback | app.py:748-752 | left alone, the selectbox keeps a stored option and replaces anything else by the first option |
| Encoding.Transform | app.py:814-815 | an encoder lookup succeeds exactly when both the column and the label are known, and then yields one of that column's codes |
| Encoding.ManualCode | app.py:820-821 | a fallback lookup yields the table's code for a known label, and always either 0 or one of the table's codes |
| Encoding.EncodeCategoricals | app.py:810-821 | when the encoder answers for both labels its answers are the codes; otherwise both codes lie in 0..2 |
| Encoding.EncodeLabels | app.py:800-821 | the step-by-step encoding (start at 0, try the encoder, fall back on any failure) computes the specified codes |
| Encoding.EncoderPathUsed | app.py:810-815 | when the encoder answers for both labels, its codes are used as they are |
| Encoding.FallbackPath | app.py:816-821 | with no encoder, or when either lookup fails, both codes come from the fixed tables |
| Encoding.FallbackTables | app.py:807-808 | Female/Male/Other map to 0/1/2 and Basic/Premium/Standard to 0/1/2; any unknown label maps to 0 |
| Encoding.FallbackDistinguishesOptions | app.py:807-808 | on each selectbox's options the fallback table is a bijection onto 0..2, so a code identifies its label |
| Encoding.Payload | app.py:824-833 | the payload has as many entries as the canonical feature list |
| Encoding.PayloadOrder | app.py:824-833 | the payload has 8 entries and entry i is the number for feature i of the canonical order, whichever encoding path produced the codes |
| Scoring.NormalizeRisk | app.py:840-844 | the stored risk always lies in [0, 100] |
| Scoring.NormalizeProbability | app.py:840 | a raw output in [0, 1] becomes raw × 100 |
| Scoring.NormalizePercentage | app.py:843-844 | a raw output above 2.0 is kept when at most 100 and capped at 100 otherwise |
| Scoring.NormalizeSaturates | app.py:840 | raw outputs in (1, 2] give 100 and non-positive outputs give 0 |
| Scoring.NormalizeExamples | app.py:840-844 | 0.42 gives 42, 75 gives 75, 1.5 gives 100 and 2.0 gives 100 |
| Scoring.NormalizeNotMonotone | app.py:840-844 | some larger raw output scores lower than a smaller one |
| Scoring.RiskBand | app.py:857-871 | high exactly above 60, moderate exactly in (30, 60], secure exactly at or below 30 |
| Scoring.BandBoundaries | app.py:857-871 | each boundary belongs to the lower band: 60 is moderate, 60.1 high, 30 secure and 30.1 moderate |
| Scoring.BandMonotone | app.py:857-871 | a higher risk never falls in a less severe band |
| Scoring.SidebarCritical | app.py:652 | a critical sidebar status implies a high-risk dossier |
| Scoring.DossierHighRisk | app.py:1143 | a high-risk dossier (app.py:1143 and app.py:1172) is never in the secure band |
| Scoring.StatusFlagsDisagreeOnlyAtFifty | app.py:652 | the sidebar flag (> 50) and the dossier status (>= 50, app.py:1143 and app.py:1172) differ exactly at 50 |
| Scoring.BandsAgreeWithFlags | app.py:1143 | a high band is flagged by the sidebar and the dossier, a secure band by neither |
| Scoring.GaugeTone | app.py:954 | red exactly from 50, amber exactly in [25, 50), green exactly below 25 |
| Scoring.GaugeMatchesDossier | app.py:954 | the gauge is red exactly when the dossier says high risk, and a green gauge is always in the secure band |
| Reports.Saturated | app.py:906-911 | a non-negative axis value lies in [0, 1]; it is 1 at or beyond the bound and the exact fraction x / bound below it |
| Reports.RadarValues | app.py:905-912 | the radar has six axis values |
| Reports.ClosedPolygon | app.py:915 | the closed polygon has one more vertex than the radar, starts with the radar's values and ends with its first vertex |
| Reports.RadarWithinUnit | app.py:898-915 | with non-negative inputs all seven vertices of the closed polygon lie in [0, 1] |
| Reports.RadarSaturation | app.py:905-912 | at or beyond its bound each of the four direct axes (age, support calls, payment delay, inactivity) is 1 and each of the two inverted axes (contract, spend) is 0 |
| Reports.RadarFractions | app.py:898-912 | below its bound each axis is the exact fraction of its bound (80, 15, 30, 90 direct; 1 minus the fraction of 24 and 10000 inverted) |
| Reports.RadarOrientation | app.py:908-909 | a longer contract or a larger spend never raises its inverted axis; more support calls never lower theirs |
| Reports.RevenueSplit | app.py:1038-1046 | mrr × (contract + 1) is the spend, the annual figure is 12 × mrr, the revenue at risk is the risk's share of the annual figure, and the two shares sum to the annual figure |
| Reports.RevenueSharesBounded | app.py:1038-1046 | for a non-negative spend and a risk in [0, 100] both shares are non-negative and at most the annual figure |
| Reports.AnnualNonNegative | app.py:1042-1043 | a non-negative spend over a non-negative contract gives a non-negative annual figure |
| Reports.RevenueMonotoneInRisk | app.py:1038-1046 | a higher risk never lowers the revenue at risk and never raises the secured revenue |
| Reports.RevenueExample | app.py:1038-1046 | spend 1200, contract 11, risk 25 give mrr 100, annual 1200, 300 at risk and 900 secured |
| Session.AllKeysComplete | app.py:581-602 | the initialised keys are every key of the store |
| Session.Initialized | app.py:581-602 | after initialisation the store holds exactly its old keys plus all initialised keys |
| Session.InitializedAt | app.py:581-602 | after initialisation a key keeps its value if it was present, and holds its default otherwise |
| Session.InitializedCharacterized | app.py:581-602 | a store holding every key with its filled value is the initialised store |
| Session.InitializedIdempotent | app.py:581-602 | initialising twice equals initialising once, whatever session id the second run is given |
| Session.FreshSessionInitialized | app.py:585-602 | an initialised fresh session is well-formed, with Gender "Female", Subscription Type "Standard", baselines for the numeric inputs, no score, no timestamp and latency 0.0 |
| Session.DefaultsValid | app.py:585-602 | a store holding exactly the defaults is well-formed |
| Session.ValidStoreIsFixedPoint | app.py:581-602 | on a well-formed store initialisation changes nothing, as on every re-render after the first |
| Session.InputWriteKeepsValid | app.py:718-748 | writing a value its widget accepts into an input keeps the store well-formed |
| Session.ScoreWriteKeepsValid | app.py:849-851 | storing a score in [0, 100] with a timestamp and latency keeps the store well-formed |
| Session.CustomerInDomain | app.py:759-778 | the inputs read from a well-formed store are within their widgets' domains: both labels are options and all six numbers lie in their sliders' ranges |
| Session.ScoredViewsBounded | app.py:898-916 | for a scored, well-formed store all radar vertices lie in [0, 1] and the revenue shares are non-negative and sum to the annual figure (app.py:1038-1046) |
| Session.PredictedRisk | app.py:837-844 | the risk a run stores for the current inputs lies in [0, 100] |
| Session.Session.Init | app.py:581-602 | every key is present afterwards with its filled value (kept if present, default if absent); a fresh session becomes well-formed |
| Session.Session.InitOperationalState | app.py:597-602 | the three operational keys are filled only where absent (None, None, 0.0), and every other key is kept |
| Session.Session.WriteNumeric | app.py:698-733 | returns the baseline delta of the value before the write, stores the slider's value and changes no other key |
| Session.Session.WriteCategorical | app.py:737-752 | stores the selectbox's result, which is one of its options, and changes no other key |
| Session.Session.RunPrediction | app.py:789-851 | without a model the run is refused and the store is unchanged; with one, exactly the score, timestamp and latency keys are overwritten, and the score is the normalised prediction for the encoded payload |

## Left out

- Loading `model.pkl` and `encoder.pkl` (app.py:34-57): file I/O and a foreign deserialiser. Its result is modelled as the optional predictor and optional encoder passed to `RunPrediction`.
- `model.predict` and `LabelEncoder.transform`: opaque library objects. The predictor is a function parameter and the encoder a partial map. An encoder that is not a mapping of columns behaves like one with no columns.
- The session id (app.py:582), `time.sleep`, `time.time` and `datetime.now` (app.py:794-795, 846-851): nondeterministic. The id, timestamp and latency are opaque parameters, and the rounding of the latency to three digits is not modelled.
- Session.Session.WriteNumeric: requires the stored value to be a number within the slider's range, so the exception Streamlit raises for a value outside it (or not a number) is not modelled; every well-formed store meets the requirement. It also does not model the slider's step (1 or 100), only its range. Streamlit's keyed widget state is simplified: the widget returns the user's new value, or the value it was given when the user leaves it alone.
- All Streamlit, HTML/CSS and Plotly rendering (app.py:84-575 and the chart code of each tab), including the fixed "ideal retention profile" of the radar (app.py:932) and the text of the bands.
- The Monte Carlo cohort (app.py:1092-1099): NumPy's seeded Gaussian sampling in floating point.
- JSON, CSV and base64 export (app.py:1163-1181): formatting through library serialisers. Only its status rule (`>= 50`) is modelled.
- Floating point: NaN and infinite predictor outputs, rounding, and number formatting are not modelled; all arithmetic is exact over the reals.
