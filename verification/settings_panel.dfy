/**
 * The `SettingsPanel` component. It never changes settings in place: every
 * control hands a new record to `onSettingsChange`, so each operation here is
 * the record it emits.
 */
module SettingsPanel {
  import opened Wrappers
  import opened JsText

  /** `seed` is `None` for `null`; `parseInt` can also leave NaN there. */
  datatype PanelSettings = PanelSettings(
    model: string,
    resolution: string,
    aspectRatio: string,
    stylePreset: string,
    guidanceScale: real,
    steps: int,
    seed: Option<ParsedInt>,
    batchSize: int,
    systemPrompt: string,
    enableUpscaling: bool,
    enableVariations: bool)

  /** One field of the settings with its new value: the `key` and `value` of `updateSetting`. */
  datatype SettingChange =
    | Model(model: string)
    | Resolution(resolution: string)
    | AspectRatio(aspectRatio: string)
    | StylePreset(stylePreset: string)
    | GuidanceScale(guidanceScale: real)
    | Steps(steps: int)
    | Seed(seed: Option<ParsedInt>)
    | BatchSize(batchSize: int)
    | SystemPrompt(systemPrompt: string)
    | EnableUpscaling(enableUpscaling: bool)
    | EnableVariations(enableVariations: bool)

  /** A slider's declared `min`, `max` and `step`. */
  datatype SliderRange = SliderRange(min: real, max: real, step: real)

  const GuidanceSlider: SliderRange := SliderRange(1.0, 20.0, 0.5)
  const BatchSlider: SliderRange := SliderRange(1.0, 4.0, 1.0)
  const StepsSlider: SliderRange := SliderRange(10.0, 50.0, 1.0)

  const Models: seq<string> := [
    "replicate/black-forest-labs/flux-1.1-pro", "replicate/black-forest-labs/flux-dev", "replicate/stability-ai/sdxl"
  ]
  const Resolutions: seq<string> := [
    "512x512", "768x768", "1024x1024", "512x768", "768x512", "1024x768", "768x1024", "1920x1080"
  ]
  const AspectRatios: seq<string> := ["1:1", "4:3", "16:9", "3:4", "9:16", "21:9"]
  const StylePresets: seq<string> := [
    "none", "photorealistic", "artistic", "digital-art", "anime", "oil-painting",
    "watercolor", "sketch", "3d-render", "vintage", "cyberpunk", "minimalist"
  ]

  const DefaultSystemPrompt: string :=
    "You are an AI image generator. Create high-quality, detailed images based on the user's prompt. Focus on:\n"
    + "- Visual clarity and composition\n"
    + "- Appropriate lighting and colors\n"
    + "- Realistic proportions and details\n"
    + "- Artistic quality and aesthetic appeal\n"
    + "\n"
    + "Generate images that are safe, appropriate, and match the user's creative vision."

  const Defaults: PanelSettings := PanelSettings(
    "replicate/black-forest-labs/flux-1.1-pro", "1024x1024", "1:1", "none",
    7.5, 20, None, 1, DefaultSystemPrompt, false, false)

  /** `v` is a value the slider can take: within its range and a whole number of steps above its minimum. */
  predicate OnSlider(v: real, r: SliderRange)
    requires r.step > 0.0
  {
    r.min <= v <= r.max && ((v - r.min) / r.step).Floor as real == (v - r.min) / r.step
  }

  /** `updateSetting(key, value)`: the record emitted has that one field replaced and every other field as it was. */
  function UpdateSetting(s: PanelSettings, c: SettingChange): (r: PanelSettings)
    ensures r.model == (if c.Model? then c.model else s.model)
    ensures r.resolution == (if c.Resolution? then c.resolution else s.resolution)
    ensures r.aspectRatio == (if c.AspectRatio? then c.aspectRatio else s.aspectRatio)
    ensures r.stylePreset == (if c.StylePreset? then c.stylePreset else s.stylePreset)
    ensures r.guidanceScale == (if c.GuidanceScale? then c.guidanceScale else s.guidanceScale)
    ensures r.steps == (if c.Steps? then c.steps else s.steps)
    ensures r.seed == (if c.Seed? then c.seed else s.seed)
    ensures r.batchSize == (if c.BatchSize? then c.batchSize else s.batchSize)
    ensures r.systemPrompt == (if c.SystemPrompt? then c.systemPrompt else s.systemPrompt)
    ensures r.enableUpscaling == (if c.EnableUpscaling? then c.enableUpscaling else s.enableUpscaling)
    ensures r.enableVariations == (if c.EnableVariations? then c.enableVariations else s.enableVariations)
  {
    match c
    case Model(v) => s.(model := v)
    case Resolution(v) => s.(resolution := v)
    case AspectRatio(v) => s.(aspectRatio := v)
    case StylePreset(v) => s.(stylePreset := v)
    case GuidanceScale(v) => s.(guidanceScale := v)
    case Steps(v) => s.(steps := v)
    case Seed(v) => s.(seed := v)
    case BatchSize(v) => s.(batchSize := v)
    case SystemPrompt(v) => s.(systemPrompt := v)
    case EnableUpscaling(v) => s.(enableUpscaling := v)
    case EnableVariations(v) => s.(enableVariations := v)
  }

  /** Writing a field the value it already has emits the same record. */
  lemma UpdateSettingUnchanged(s: PanelSettings, c: SettingChange)
    requires c == Steps(s.steps) || c == GuidanceScale(s.guidanceScale) || c == BatchSize(s.batchSize) || c == Seed(s.seed)
    ensures UpdateSetting(s, c) == s
  {
  }

  /** `resetToDefaults`: the same fixed record whatever the current settings. */
  function ResetToDefaults(s: PanelSettings): (r: PanelSettings)
    ensures r.guidanceScale == 7.5 && r.steps == 20 && r.seed.None? && r.batchSize == 1
    ensures r.stylePreset == "none" && r.resolution == "1024x1024" && r.aspectRatio == "1:1"
    ensures !r.enableUpscaling && !r.enableVariations
    ensures r.model == Models[0] && r.systemPrompt == DefaultSystemPrompt
  {
    Defaults
  }

  /** Resetting twice is resetting once, and the result does not depend on what was there. */
  lemma ResetIdempotent(s: PanelSettings, t: PanelSettings)
    ensures ResetToDefaults(ResetToDefaults(s)) == ResetToDefaults(s)
    ensures ResetToDefaults(s) == ResetToDefaults(t)
  {
  }

  /**
   * The reset values are ones the controls can show: each slider value is in
   * its range and on its step grid, and each choice is one of its list's options.
   */
  lemma DefaultsWithinControls()
    ensures OnSlider(Defaults.guidanceScale, GuidanceSlider)
    ensures OnSlider(Defaults.batchSize as real, BatchSlider)
    ensures OnSlider(Defaults.steps as real, StepsSlider)
    ensures Defaults.model in Models && Defaults.resolution in Resolutions
    ensures Defaults.aspectRatio in AspectRatios && Defaults.stylePreset in StylePresets
  {
    assert (Defaults.guidanceScale - 1.0) / 0.5 == 13.0;
    assert (Defaults.steps as real - 10.0) / 1.0 == 10.0;
    assert (Defaults.batchSize as real - 1.0) / 1.0 == 0.0;
    assert Models[0] == Defaults.model;
    assert Resolutions[2] == Defaults.resolution;
    assert AspectRatios[0] == Defaults.aspectRatio;
    assert StylePresets[0] == Defaults.stylePreset;
  }

  /** The seed field's `onChange`: empty text sets `null`, other text is read with `parseInt`. */
  function SeedInputChange(s: PanelSettings, text: string): (r: PanelSettings)
    ensures r == UpdateSetting(s, Seed(ParseNonEmpty(text)))
    ensures text == "" ==> r.seed.None?
    ensures forall n: nat | text == NatToString(n) :: r.seed == Some(Int(n))
  {
    forall n: nat | text == NatToString(n) ensures ParseNonEmpty(text) == Some(Int(n)) {
      ParseNonEmptyOfNumber(n);
    }
    UpdateSetting(s, Seed(ParseNonEmpty(text)))
  }
}
