/**
 * The parameter sliders: a configuration table with one entry per parameter, and the
 * single-key partial update each slider issues. The ranges bound the controls only;
 * the state holder stores whatever value it is given.
 */
module ParametersPanel {
  import opened Basics
  import opened AIContext

  datatype ParamKey = Temperature | MaxTokens | TopP | FrequencyPenalty

  datatype SliderConfig = SliderConfig(
    key: ParamKey,
    caption: string,
    min: real,
    max: real,
    step: real,
    description: string)

  const ParameterConfig: seq<SliderConfig> := [
    SliderConfig(Temperature, "Temperature", 0.0, 2.0, 0.1, "Controls randomness in responses"),
    SliderConfig(MaxTokens, "Max Tokens", 100.0, 4096.0, 100.0, "Maximum response length"),
    SliderConfig(TopP, "Top P", 0.0, 1.0, 0.05, "Controls diversity of responses"),
    SliderConfig(FrequencyPenalty, "Frequency Penalty", 0.0, 2.0, 0.1, "Reduces repetitive content")
  ]

  /** `parameters[config.key]`. */
  function Read(p: AIParameters, k: ParamKey): real {
    match k
    case Temperature => p.temperature
    case MaxTokens => p.maxTokens
    case TopP => p.topP
    case FrequencyPenalty => p.frequencyPenalty
  }

  /** `{ [config.key]: value }`: a partial with exactly one key present. */
  function SingleKeyPartial(k: ParamKey, v: real): (partial: PartialParameters)
    ensures partial.temperature.Some? <==> k == Temperature
    ensures partial.maxTokens.Some? <==> k == MaxTokens
    ensures partial.topP.Some? <==> k == TopP
    ensures partial.frequencyPenalty.Some? <==> k == FrequencyPenalty
    ensures partial.temperature.Some? ==> partial.temperature.value == v
    ensures partial.maxTokens.Some? ==> partial.maxTokens.value == v
    ensures partial.topP.Some? ==> partial.topP.value == v
    ensures partial.frequencyPenalty.Some? ==> partial.frequencyPenalty.value == v
  {
    match k
    case Temperature => PartialParameters(Some(v), None, None, None)
    case MaxTokens => PartialParameters(None, Some(v), None, None)
    case TopP => PartialParameters(None, None, Some(v), None)
    case FrequencyPenalty => PartialParameters(None, None, None, Some(v))
  }

  /** Moving slider `k` to `v`: parameter `k` becomes `v` unclamped, every other parameter and every other field is kept. */
  function OnValueChange(s: Session, k: ParamKey, v: real): (r: Session)
    ensures Read(r.parameters, k) == v
    ensures forall other: ParamKey :: other != k ==> Read(r.parameters, other) == Read(s.parameters, other)
    ensures UnchangedExcept(s, r, {ParametersField})
  {
    SetParameters(s, SingleKeyPartial(k, v))
  }

  /** The slider table has four entries, one for each parameter key, no key twice. */
  lemma ConfigCoversEachKeyOnce()
    ensures |ParameterConfig| == 4
    ensures (set i | 0 <= i < |ParameterConfig| :: ParameterConfig[i].key)
         == {Temperature, MaxTokens, TopP, FrequencyPenalty}
    ensures forall i, j :: 0 <= i < j < |ParameterConfig| ==> ParameterConfig[i].key != ParameterConfig[j].key
  {
    var keys := set i | 0 <= i < |ParameterConfig| :: ParameterConfig[i].key;
    assert ParameterConfig[0].key in keys && ParameterConfig[1].key in keys;
    assert ParameterConfig[2].key in keys && ParameterConfig[3].key in keys;
  }

  /** The configuration entry for a key. */
  function ConfigFor(k: ParamKey): (c: SliderConfig)
    ensures c in ParameterConfig && c.key == k
  {
    match k
    case Temperature => ParameterConfig[0]
    case MaxTokens => ParameterConfig[1]
    case TopP => ParameterConfig[2]
    case FrequencyPenalty => ParameterConfig[3]
  }

  /** Every configured range is well formed: its minimum is below its maximum and its step is positive. */
  lemma RangesWellFormed()
    ensures forall i :: 0 <= i < |ParameterConfig| ==>
      ParameterConfig[i].min < ParameterConfig[i].max && ParameterConfig[i].step > 0.0
  {
  }

  /** `v` lies within the slider range configured for `k`. */
  predicate InSliderRange(k: ParamKey, v: real) {
    ConfigFor(k).min <= v <= ConfigFor(k).max
  }

  /** Every parameter lies within its slider's range. */
  predicate WithinSliderRanges(p: AIParameters) {
    forall k: ParamKey :: InSliderRange(k, Read(p, k))
  }

  /** The provider's default values lie within the slider ranges. */
  lemma DefaultsWithinRanges()
    ensures WithinSliderRanges(DefaultParameters)
  {
    forall k: ParamKey
      ensures InSliderRange(k, Read(DefaultParameters, k))
    {
    }
  }

  /** A slider move within its range keeps all parameters within range; out-of-range values are stored as given. */
  lemma SliderKeepsRanges(s: Session, k: ParamKey, v: real)
    requires WithinSliderRanges(s.parameters)
    ensures InSliderRange(k, v) ==> WithinSliderRanges(OnValueChange(s, k, v).parameters)
    ensures !InSliderRange(k, v) ==> !WithinSliderRanges(OnValueChange(s, k, v).parameters)
  {
    var r := OnValueChange(s, k, v);
    if InSliderRange(k, v) {
      forall other: ParamKey
        ensures InSliderRange(other, Read(r.parameters, other))
      {
        if other != k {
          assert InSliderRange(other, Read(s.parameters, other));
        }
      }
    }
  }
}
