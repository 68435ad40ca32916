/**
 * The input widgets of the telemetry tab: the delta shown beside a numeric
 * slider and the selectbox's choice of its initial index.
 */
module Widgets {
  import opened Wrappers
  import opened Features

  /**
   * Percentage difference of the current value from the baseline. With a
   * non-positive baseline no percentage is computed and the widget shows a
   * fixed "0%" text instead (`None` here).
   */
  function DeltaPct(current: real, baseline: real): (d: Option<real>)
    ensures d.Some? <==> baseline > 0.0
  {
    if baseline > 0.0 then Some((current - baseline) / baseline * 100.0) else None
  }

  /** The delta is an exact relative change: applying it to the baseline gives back the current value. */
  lemma DeltaRoundTrip(current: real, baseline: real)
    requires baseline > 0.0
    ensures baseline + baseline * DeltaPct(current, baseline).value / 100.0 == current
  {
  }

  /** The delta's sign says whether the customer is above, at or below the baseline. */
  lemma DeltaSign(current: real, baseline: real)
    requires baseline > 0.0
    ensures DeltaPct(current, baseline).value > 0.0 <==> current > baseline
    ensures DeltaPct(current, baseline).value == 0.0 <==> current == baseline
  {
  }

  /** Position of the first occurrence of `v` in `options` (Python's `list.index`). */
  function IndexOf(options: seq<string>, v: string): (i: nat)
    requires v in options
    ensures i < |options| && options[i] == v
    ensures forall j :: 0 <= j < i ==> options[j] != v
  {
    if options[0] == v then 0
    else
      assert v in options[1..] by {
        var k :| 0 <= k < |options| && options[k] == v;
        assert options[1..][k - 1] == v;
      }
      1 + IndexOf(options[1..], v)
  }

  /**
   * Initial index of a selectbox: the stored value's position among the
   * options, or 0 when the stored value is not one of them.
   */
  function SelectIndex(options: seq<string>, current: Value): (i: nat)
    requires |options| > 0
    ensures i < |options|
    ensures current.Str? && current.s in options ==> options[i] == current.s
    ensures !(current.Str? && current.s in options) ==> i == 0
  {
    if current.Str? && current.s in options then IndexOf(options, current.s) else 0
  }

  /**
   * What a selectbox returns: the option the user picked, or, left alone,
   * the option at its initial index.
   */
  function SelectboxResult(options: seq<string>, current: Value, picked: Option<string>): (r: string)
    requires |options| > 0
    requires picked.Some? ==> picked.value in options
    ensures r in options
    ensures picked.Some? ==> r == picked.value
  {
    if picked.Some? then picked.value else options[SelectIndex(options, current)]
  }

  /** Left alone, a selectbox keeps a stored option and replaces anything else by the first option. */
  lemma SelectboxFallback(options: seq<string>, current: Value)
    requires |options| > 0
    ensures current.Str? && current.s in options ==> SelectboxResult(options, current, None) == current.s
    ensures !(current.Str? && current.s in options) ==> SelectboxResult(options, current, None) == options[0]
  {
  }

  /** What a slider returns: the value the user set, or, left alone, the value it was given. */
  function SliderResult(current: real, picked: Option<real>): (r: real)
    ensures picked.Some? ==> r == picked.value
    ensures picked.None? ==> r == current
  {
    picked.GetOr(current)
  }
}
