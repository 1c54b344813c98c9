/**
 * The `ImageGenerator` component: a batch is sent as `batchCount` concurrent
 * requests, each with its own seed derived from the settings' seed; the batch
 * succeeds only if every request does, and then its images are put in front of
 * the gallery and of the stored history, which has no cap.
 */
module ImageGenerator {
  import opened Wrappers
  import opened JsText
  import opened JsArray
  import opened BrowserStorage
  import ProviderApi

  /** `seed` is `None` while undefined; `parseInt` can also leave NaN there. */
  datatype Settings = Settings(width: int, height: int, style: string, guidance: real, steps: int, seed: Option<ParsedInt>)

  const DefaultSettings: Settings := Settings(1024, 1024, "photorealistic", 7.5, 50, None)

  datatype ResolutionPreset = ResolutionPreset(value: string, labelText: string, width: int, height: int)

  const ResolutionPresets: seq<ResolutionPreset> := [
    ResolutionPreset("512x512", "512×512 (Square)", 512, 512),
    ResolutionPreset("768x768", "768×768 (Square)", 768, 768),
    ResolutionPreset("1024x1024", "1024×1024 (Square)", 1024, 1024),
    ResolutionPreset("1024x768", "1024×768 (Landscape)", 1024, 768),
    ResolutionPreset("768x1024", "768×1024 (Portrait)", 768, 1024),
    ResolutionPreset("1920x1080", "1920×1080 (HD)", 1920, 1080)
  ]

  /** A generated image; `url` is the reply's `imageUrl` as it came, `Missing` when the reply has none. */
  datatype Image = Image(id: string, url: JsValue, prompt: string, timestamp: nat, settings: Settings)

  /** The body of one request to `/api/generate`. */
  datatype Request = Request(prompt: string, systemPrompt: string, settings: Settings)

  /**
   * How one request settles: `Rejected` when `fetch` rejects, the status is
   * not ok or a body is not JSON; otherwise `Resolved` with the reply's `imageUrl`.
   */
  datatype Outcome = Rejected | Resolved(imageUrl: JsValue)

  /** One field of the settings with its new value: the `key` and `value` of `updateSettings`. */
  datatype SettingUpdate =
    | Width(width: int)
    | Height(height: int)
    | Style(style: string)
    | Guidance(guidance: real)
    | Steps(steps: int)
    | Seed(seed: Option<ParsedInt>)

  const HistoryKey: string := "imageHistory"

  /** A seed is truthy when it is a number other than 0 (NaN is falsy). */
  predicate IsTruthySeed(seed: Option<ParsedInt>) {
    seed.Some? && seed.value.IsTruthy()
  }

  /** The seed of request `index`: `seed + index` when the seed is truthy, otherwise none. */
  function DerivedSeed(seed: Option<ParsedInt>, index: nat): (r: Option<ParsedInt>)
    ensures r.Some? <==> IsTruthySeed(seed)
    ensures r.Some? ==> r.value.Int? && r.value.value == seed.value.value + index
  {
    if IsTruthySeed(seed) then Some(Int(seed.value.value + index)) else None
  }

  /** The requests of a batch, request `index` carrying its derived seed and otherwise the settings as they are. */
  function BatchRequests(prompt: string, systemPrompt: string, settings: Settings, batchCount: nat): (rs: seq<Request>)
    ensures |rs| == batchCount
    ensures forall i | 0 <= i < batchCount ::
      rs[i] == Request(prompt, systemPrompt, settings.(seed := DerivedSeed(settings.seed, i)))
  {
    seq(batchCount, i requires 0 <= i < batchCount => Request(prompt, systemPrompt, settings.(seed := DerivedSeed(settings.seed, i))))
  }

  /**
   * With a truthy seed every request of a batch has its own seed; with none
   * (or 0, or NaN) all requests of a batch are the same.
   */
  lemma BatchSeeds(prompt: string, systemPrompt: string, settings: Settings, batchCount: nat, i: nat, j: nat)
    requires i < batchCount && j < batchCount && i != j
    ensures IsTruthySeed(settings.seed) ==>
      BatchRequests(prompt, systemPrompt, settings, batchCount)[i].settings.seed != BatchRequests(prompt, systemPrompt, settings, batchCount)[j].settings.seed
    ensures !IsTruthySeed(settings.seed) ==>
      BatchRequests(prompt, systemPrompt, settings, batchCount)[i] == BatchRequests(prompt, systemPrompt, settings, batchCount)[j]
  {
  }

  /** The batch joined like `Promise.all`: every request must resolve. */
  predicate AllResolved(outcomes: seq<Outcome>) {
    forall i | 0 <= i < |outcomes| :: outcomes[i].Resolved?
  }

  /** The images of a resolved batch, in index order, each with the un-derived settings. */
  function NewImages(prompt: string, settings: Settings, outcomes: seq<Outcome>, clock: seq<nat>): (images: seq<Image>)
    requires |clock| == |outcomes|
    ensures |images| == |outcomes|
    ensures forall i | 0 <= i < |outcomes| ::
      && images[i].id == NatToString(clock[i]) + "-" + NatToString(i)
      && images[i].url == (if outcomes[i].Resolved? then outcomes[i].imageUrl else Missing)
      && images[i].prompt == prompt && images[i].timestamp == clock[i] && images[i].settings == settings
  {
    seq(|outcomes|, i requires 0 <= i < |outcomes| =>
      Image(NatToString(clock[i]) + "-" + NatToString(i),
            if outcomes[i].Resolved? then outcomes[i].imageUrl else Missing,
            prompt, clock[i], settings))
  }

  /** `updateSettings(key, value)`: the record with that one field replaced. */
  function Updated(s: Settings, u: SettingUpdate): (r: Settings)
    ensures r.width == (if u.Width? then u.width else s.width)
    ensures r.height == (if u.Height? then u.height else s.height)
    ensures r.style == (if u.Style? then u.style else s.style)
    ensures r.guidance == (if u.Guidance? then u.guidance else s.guidance)
    ensures r.steps == (if u.Steps? then u.steps else s.steps)
    ensures r.seed == (if u.Seed? then u.seed else s.seed)
  {
    match u
    case Width(v) => s.(width := v)
    case Height(v) => s.(height := v)
    case Style(v) => s.(style := v)
    case Guidance(v) => s.(guidance := v)
    case Steps(v) => s.(steps := v)
    case Seed(v) => s.(seed := v)
  }

  /** The field an update writes. */
  function KeyOf(u: SettingUpdate): nat {
    match u
    case Width(_) => 0
    case Height(_) => 1
    case Style(_) => 2
    case Guidance(_) => 3
    case Steps(_) => 4
    case Seed(_) => 5
  }

  /** Updates of different fields commute; of the same field, the later one wins. */
  lemma UpdatesCompose(s: Settings, u1: SettingUpdate, u2: SettingUpdate)
    ensures KeyOf(u1) != KeyOf(u2) ==> Updated(Updated(s, u1), u2) == Updated(Updated(s, u2), u1)
    ensures KeyOf(u1) == KeyOf(u2) ==> Updated(Updated(s, u1), u2) == Updated(s, u2)
  {
  }

  /** `handleResolutionChange`: a known preset sets width then height; an unknown value changes nothing. */
  function WithResolution(s: Settings, value: string): (r: Settings)
    ensures r.style == s.style && r.guidance == s.guidance && r.steps == s.steps && r.seed == s.seed
    ensures (forall k | 0 <= k < |ResolutionPresets| :: ResolutionPresets[k].value != value) ==> r == s
    ensures forall k | 0 <= k < |ResolutionPresets| && ResolutionPresets[k].value == value ::
      r.width == ResolutionPresets[k].width && r.height == ResolutionPresets[k].height
  {
    var preset := Find(ResolutionPresets, (p: ResolutionPreset) => p.value == value);
    ResolutionValuesDistinct();
    if preset.Some? then Updated(Updated(s, Width(preset.value.width)), Height(preset.value.height)) else s
  }

  lemma ResolutionValuesDistinct()
    ensures forall i, j | 0 <= i < j < |ResolutionPresets| :: ResolutionPresets[i].value != ResolutionPresets[j].value
  {
  }

  class Generator {
    var prompt: string
    var systemPrompt: string
    var settings: Settings
    var batchCount: nat
    var generatedImages: seq<Image>
    const storage: LocalStorage<Image>

    constructor (storage: LocalStorage<Image>)
      ensures prompt == "" && systemPrompt == ProviderApi.DefaultSystemPrompt
      ensures settings == DefaultSettings && batchCount == 1 && generatedImages == []
      ensures this.storage == storage
    {
      prompt := "";
      systemPrompt := ProviderApi.DefaultSystemPrompt;
      settings := DefaultSettings;
      batchCount := 1;
      generatedImages := [];
      this.storage := storage;
    }

    method UpdateSettings(u: SettingUpdate)
      modifies this
      ensures settings == Updated(old(settings), u)
      ensures prompt == old(prompt) && systemPrompt == old(systemPrompt)
      ensures batchCount == old(batchCount) && generatedImages == old(generatedImages)
    {
      settings := Updated(settings, u);
    }

    /** The seed field's `onChange`: empty text clears the seed, other text is read with `parseInt`. */
    method SeedInputChange(text: string)
      modifies this
      ensures settings == Updated(old(settings), Seed(ParseNonEmpty(text)))
      ensures text == "" ==> settings.seed.None?
      ensures prompt == old(prompt) && systemPrompt == old(systemPrompt)
      ensures batchCount == old(batchCount) && generatedImages == old(generatedImages)
    {
      UpdateSettings(Seed(ParseNonEmpty(text)));
    }

    method HandleResolutionChange(value: string)
      modifies this
      ensures settings == WithResolution(old(settings), value)
      ensures prompt == old(prompt) && systemPrompt == old(systemPrompt)
      ensures batchCount == old(batchCount) && generatedImages == old(generatedImages)
    {
      settings := WithResolution(settings, value);
    }

    /**
     * `generateImages`: `outcomes[i]` is how request `i` settles and
     * `clock[i]` the time its image is stamped with. A blank prompt sends
     * nothing; otherwise all requests are sent, and only when every one
     * resolves are the new images put in front of the gallery and then in
     * front of the stored history. A stored history that is not JSON makes
     * that last step throw after the gallery was already updated.
     */
    method GenerateImages(outcomes: seq<Outcome>, clock: seq<nat>) returns (requests: seq<Request>)
      requires |outcomes| == batchCount && |clock| == batchCount
      modifies this, storage
      ensures Blank(old(prompt)) ==> requests == []
      ensures !Blank(old(prompt)) ==> requests == BatchRequests(old(prompt), old(systemPrompt), old(settings), old(batchCount))
      ensures Blank(old(prompt)) || !AllResolved(outcomes) ==>
        generatedImages == old(generatedImages) && storage.slots == old(storage.slots)
      ensures !Blank(old(prompt)) && AllResolved(outcomes) ==>
        var images := NewImages(old(prompt), old(settings), outcomes, clock);
        && generatedImages == images + old(generatedImages)
        && (HistoryKey !in old(storage.slots) ==> storage.slots == old(storage.slots)[HistoryKey := Entries(images)])
        && (HistoryKey in old(storage.slots) && old(storage.slots)[HistoryKey].Entries? ==>
              storage.slots == old(storage.slots)[HistoryKey := Entries(images + old(storage.slots)[HistoryKey].items)])
        && (HistoryKey in old(storage.slots) && old(storage.slots)[HistoryKey].Malformed? ==>
              storage.slots == old(storage.slots))
      ensures prompt == old(prompt) && systemPrompt == old(systemPrompt) && settings == old(settings)
      ensures batchCount == old(batchCount)
    {
      if Trim(prompt) == [] {
        return [];
      }
      requests := BatchRequests(prompt, systemPrompt, settings, batchCount);
      if !AllResolved(outcomes) {
        return;
      }
      var newImages := NewImages(prompt, settings, outcomes, clock);
      generatedImages := newImages + generatedImages;
      if HistoryKey !in storage.slots {
        storage.SetItem(HistoryKey, newImages);
      } else if storage.slots[HistoryKey].Entries? {
        storage.SetItem(HistoryKey, newImages + storage.slots[HistoryKey].items);
      }
    }
  }
}
