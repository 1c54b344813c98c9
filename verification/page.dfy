/**
 * The home page (`HomePage`): it keeps the prompt, the settings, the images of
 * the last batch and a history of at most 50 images mirrored into
 * `localStorage`. A batch sends one request per image, one after the other,
 * and stops at the first failure.
 */
module HomePage {
  import opened Wrappers
  import opened JsText
  import opened JsArray
  import opened BrowserStorage
  import ProviderApi

  datatype Settings = Settings(width: int, height: int, style: string, guidance: real, steps: int)

  const DefaultSettings: Settings := Settings(1024, 1024, "photorealistic", 7.5, 50)

  datatype ResolutionPreset = ResolutionPreset(value: string, labelText: string, width: int, height: int)

  const ResolutionPresets: seq<ResolutionPreset> := [
    ResolutionPreset("512x512", "Square (512x512)", 512, 512),
    ResolutionPreset("768x768", "Square HD (768x768)", 768, 768),
    ResolutionPreset("1024x1024", "Square FHD (1024x1024)", 1024, 1024),
    ResolutionPreset("1024x768", "Landscape (1024x768)", 1024, 768),
    ResolutionPreset("768x1024", "Portrait (768x1024)", 768, 1024),
    ResolutionPreset("1920x1080", "Full HD (1920x1080)", 1920, 1080)
  ]

  /** An image of a batch; `url` is the reply's `imageUrl` as it came, `Missing` when the reply has none. */
  datatype Image = Image(id: string, url: JsValue, prompt: string, timestamp: nat, settings: Settings)

  /** The body of one request to `/api/generate`. */
  datatype Request = Request(prompt: string, systemPrompt: string, settings: Settings, batchIndex: nat)

  /**
   * How one request of a batch settles: `Aborted` when `fetch` rejects, the
   * status is not ok or the reply is not JSON (each throws out of the loop),
   * `Answered` with the reply's `imageUrl` otherwise.
   */
  datatype BatchReply = Aborted | Answered(imageUrl: JsValue)

  const HistoryKey: string := "ai-image-history"
  const HistoryCap: nat := 50

  function HasValue(resolution: string): ResolutionPreset -> bool {
    (p: ResolutionPreset) => p.value == resolution
  }

  lemma ResolutionValuesDistinct()
    ensures forall i, j | 0 <= i < j < |ResolutionPresets| :: ResolutionPresets[i].value != ResolutionPresets[j].value
  {
  }

  /**
   * `updateResolution`: a known preset value sets the width and height to the
   * preset's and leaves everything else; an unknown value changes nothing.
   */
  function WithResolution(s: Settings, resolution: string): (r: Settings)
    ensures r.style == s.style && r.guidance == s.guidance && r.steps == s.steps
    ensures (forall k | 0 <= k < |ResolutionPresets| :: ResolutionPresets[k].value != resolution) ==> r == s
    ensures forall k | 0 <= k < |ResolutionPresets| && ResolutionPresets[k].value == resolution ::
      r.width == ResolutionPresets[k].width && r.height == ResolutionPresets[k].height
  {
    var preset := Find(ResolutionPresets, HasValue(resolution));
    ResolutionValuesDistinct();
    if preset.Some? then s.(width := preset.value.width, height := preset.value.height) else s
  }

  /** The id of the `i`-th image of a batch: `img_<now>_<i>`. */
  function ImageId(now: nat, i: nat): (id: string)
    ensures |id| > 6 && id[..4] == "img_"
  {
    "img_" + NatToString(now) + "_" + NatToString(i)
  }

  /** Images of one batch stamped with the same clock value have distinct ids. */
  lemma ImageIdsDistinct(now: nat, i: nat, j: nat)
    requires i != j
    ensures ImageId(now, i) != ImageId(now, j)
  {
    var p := "img_" + NatToString(now) + "_";
    assert ImageId(now, i) == p + NatToString(i) && ImageId(now, j) == p + NatToString(j);
    assert ImageId(now, i)[|p|..] == NatToString(i);
    assert ImageId(now, j)[|p|..] == NatToString(j);
    NatToStringInjective(i, j);
  }

  /** The number of replies at the start of `replies` that answered. */
  function AnsweredPrefix(replies: seq<BatchReply>): (k: nat)
    ensures k <= |replies|
    ensures forall j | 0 <= j < k :: replies[j].Answered?
    ensures k < |replies| ==> replies[k].Aborted?
  {
    if replies == [] || replies[0].Aborted? then 0 else 1 + AnsweredPrefix(replies[1..])
  }

  function UrlOf(reply: BatchReply): JsValue {
    if reply.Answered? then reply.imageUrl else Missing
  }

  /** The first `n` images of a batch, the `j`-th stamped `clock[j]`, each carrying a copy of `settings`. */
  function BatchImages(prompt: string, settings: Settings, replies: seq<BatchReply>, clock: seq<nat>, n: nat): (images: seq<Image>)
    requires n <= |replies| && n <= |clock|
    ensures |images| == n
    ensures forall j | 0 <= j < n :: images[j] == Image(ImageId(clock[j], j), UrlOf(replies[j]), prompt, clock[j], settings)
  {
    seq(n, j requires 0 <= j < n => Image(ImageId(clock[j], j), UrlOf(replies[j]), prompt, clock[j], settings))
  }

  lemma BatchImagesNext(prompt: string, settings: Settings, replies: seq<BatchReply>, clock: seq<nat>, n: nat)
    requires n < |replies| && n < |clock|
    ensures BatchImages(prompt, settings, replies, clock, n + 1) ==
      BatchImages(prompt, settings, replies, clock, n) + [Image(ImageId(clock[n], n), UrlOf(replies[n]), prompt, clock[n], settings)]
  {
  }

  /** The history after `saveToHistory` was applied to each image of `images` in turn, each call seeing the previous one's result. */
  function ThreadedHistory(h: seq<Image>, images: seq<Image>): seq<Image> {
    if images == [] then h
    else PrependCapped(images[|images| - 1], ThreadedHistory(h, images[..|images| - 1]), HistoryCap)
  }

  /** Saving one more image puts it in front of the history built so far. */
  lemma ThreadedHistorySnoc(h: seq<Image>, images: seq<Image>, x: Image)
    ensures ThreadedHistory(h, images + [x]) == PrependCapped(x, ThreadedHistory(h, images), HistoryCap)
  {
    assert (images + [x])[..|images|] == images;
  }

  /**
   * After a non-empty batch the history holds the batch's images newest first,
   * then the earlier history, cut to 50 entries.
   */
  lemma {:induction false} ThreadedHistoryShape(h: seq<Image>, images: seq<Image>)
    requires images != []
    ensures ThreadedHistory(h, images) == (Reverse(images) + h)[..Min(|images| + |h|, HistoryCap)]
  {
    var init := images[..|images| - 1];
    var x := images[|images| - 1];
    assert images == init + [x];
    ReverseSnoc(init, x);
    var rest := Reverse(init) + h;
    if init == [] {
      assert rest == h;
    } else {
      ThreadedHistoryShape(h, init);
    }
    PrependOntoPrefix(x, ThreadedHistory(h, init), rest, HistoryCap);
  }

  /** Capped prepending onto a capped prefix of `rest` is capped prepending onto `rest`. */
  lemma PrependOntoPrefix<T>(x: T, t: seq<T>, rest: seq<T>, cap: nat)
    requires t == rest || t == rest[..Min(|rest|, cap)]
    ensures PrependCapped(x, t, cap) == ([x] + rest)[..Min(|rest| + 1, cap)]
  {
    var r := PrependCapped(x, t, cap);
    forall j | 0 <= j < |r| ensures r[j] == ([x] + rest)[j] {
      if j > 0 {
        assert r[j] == r[1..][j - 1] == t[j - 1];
      }
    }
  }

  lemma ReverseSnoc<T>(s: seq<T>, x: T)
    ensures Reverse(s + [x]) == [x] + Reverse(s)
  {
    var r := Reverse(s + [x]);
    assert forall k | 1 <= k < |r| :: r[k] == (s + [x])[|s| - k] == s[|s| - k];
  }

  /**
   * The history as the page computes it: every `saveToHistory` call of a batch
   * reads the `history` of the render that started the batch, so only the last
   * call's result survives.
   */
  function StaleBatchHistory(h: seq<Image>, images: seq<Image>): seq<Image> {
    if images == [] then h else PrependCapped(images[|images| - 1], h, HistoryCap)
  }

  /** With two images in a batch the stale closure loses the first one; threading the history keeps it. */
  lemma StaleClosureDropsEarlierImages(a: Image, b: Image, h: seq<Image>)
    requires a != b && a !in h
    ensures a !in StaleBatchHistory(h, [a, b])
    ensures |ThreadedHistory(h, [a, b])| >= 2 && ThreadedHistory(h, [a, b])[..2] == [b, a]
  {
    var stale := StaleBatchHistory(h, [a, b]);
    assert stale == PrependCapped(b, h, HistoryCap);
    assert stale[1..] == h[..|stale| - 1];
    forall k | 0 <= k < |stale| ensures stale[k] != a {
      if k > 0 {
        assert stale[k] == stale[1..][k - 1] == h[k - 1];
      }
    }
    var one := ThreadedHistory(h, [a]);
    ThreadedHistorySnoc(h, [], a);
    assert [] + [a] == [a];
    assert one == PrependCapped(a, h, HistoryCap);
    var two := ThreadedHistory(h, [a, b]);
    ThreadedHistorySnoc(h, [a], b);
    assert [a] + [b] == [a, b];
    assert two == PrependCapped(b, one, HistoryCap);
    assert two[1] == two[1..][0] == one[0] == a;
  }

  /** Writing a key again replaces what the previous write put there. */
  lemma Overwrite<K, V>(m: map<K, V>, k: K, m1: map<K, V>, v: V)
    requires m1 == m || (k in m1 && m1 == m[k := m1[k]])
    ensures m1[k := v] == m[k := v]
  {
  }

  class Page {
    var prompt: string
    var systemPrompt: string
    var settings: Settings
    var batchCount: nat
    var generatedImages: seq<Image>
    var history: seq<Image>
    const storage: LocalStorage<Image>

    constructor (storage: LocalStorage<Image>)
      ensures prompt == "" && systemPrompt == ProviderApi.DefaultSystemPrompt
      ensures settings == DefaultSettings && batchCount == 1
      ensures generatedImages == [] && history == []
      ensures this.storage == storage
    {
      prompt := "";
      systemPrompt := ProviderApi.DefaultSystemPrompt;
      settings := DefaultSettings;
      batchCount := 1;
      generatedImages := [];
      history := [];
      this.storage := storage;
    }

    /** The load effect: a stored history that decodes replaces the displayed one; otherwise nothing changes. */
    method LoadHistory()
      modifies this
      ensures HistoryKey in storage.slots && storage.slots[HistoryKey].Entries? ==> history == storage.slots[HistoryKey].items
      ensures !(HistoryKey in storage.slots && storage.slots[HistoryKey].Entries?) ==> history == old(history)
      ensures prompt == old(prompt) && systemPrompt == old(systemPrompt) && settings == old(settings)
      ensures batchCount == old(batchCount) && generatedImages == old(generatedImages)
    {
      if HistoryKey in storage.slots && storage.slots[HistoryKey].Entries? {
        history := storage.slots[HistoryKey].items;
      }
    }

    /** `saveToHistory`: the image goes first, the history is cut to 50, and the result is stored. */
    method SaveToHistory(image: Image)
      modifies this, storage
      ensures history == PrependCapped(image, old(history), HistoryCap)
      ensures storage.slots == old(storage.slots)[HistoryKey := Entries(history)]
      ensures prompt == old(prompt) && systemPrompt == old(systemPrompt) && settings == old(settings)
      ensures batchCount == old(batchCount) && generatedImages == old(generatedImages)
    {
      history := PrependCapped(image, history, HistoryCap);
      storage.SetItem(HistoryKey, history);
    }

    /** `updateResolution` */
    method UpdateResolution(resolution: string)
      modifies this
      ensures settings == WithResolution(old(settings), resolution)
      ensures prompt == old(prompt) && systemPrompt == old(systemPrompt) && batchCount == old(batchCount)
      ensures generatedImages == old(generatedImages) && history == old(history)
    {
      settings := WithResolution(settings, resolution);
    }

    /**
     * `generateImage`: `replies[i]` is how the `i`-th request settles and
     * `clock[i]` the time its image is stamped with. A blank prompt sends
     * nothing. Otherwise requests go out one at a time until one fails; each
     * image is saved to the history as it arrives, and the batch is shown only
     * when every request succeeded. The requests sent are returned.
     */
    method GenerateImage(replies: seq<BatchReply>, clock: seq<nat>) returns (requests: seq<Request>)
      requires |replies| == batchCount && |clock| == batchCount
      modifies this, storage
      ensures Blank(old(prompt)) ==>
        && requests == [] && history == old(history) && generatedImages == old(generatedImages)
        && storage.slots == old(storage.slots)
      ensures !Blank(old(prompt)) ==>
        var k := AnsweredPrefix(replies);
        var images := BatchImages(old(prompt), old(settings), replies, clock, k);
        && |requests| == (if k < batchCount then k + 1 else k)
        && (forall j | 0 <= j < |requests| :: requests[j] == Request(old(prompt), old(systemPrompt), old(settings), j))
        && generatedImages == (if k == batchCount then images else [])
        && history == ThreadedHistory(old(history), images)
        && storage.slots == (if k == 0 then old(storage.slots) else old(storage.slots)[HistoryKey := Entries(history)])
      ensures prompt == old(prompt) && systemPrompt == old(systemPrompt) && settings == old(settings)
      ensures batchCount == old(batchCount)
    {
      if Trim(prompt) == [] {
        return [];
      }
      generatedImages := [];
      var images, aborted;
      images, requests, aborted := SendBatch(replies, clock);
      if !aborted {
        generatedImages := images;
      }
    }

    /** The loop of `generateImage`: one request per index, stopping at the first failure. */
    method SendBatch(replies: seq<BatchReply>, clock: seq<nat>) returns (images: seq<Image>, requests: seq<Request>, aborted: bool)
      requires |replies| == batchCount && |clock| == batchCount
      modifies this, storage
      ensures aborted <==> AnsweredPrefix(replies) < batchCount
      ensures images == BatchImages(prompt, settings, replies, clock, AnsweredPrefix(replies))
      ensures |requests| == |images| + (if aborted then 1 else 0)
      ensures forall j | 0 <= j < |requests| :: requests[j] == Request(prompt, systemPrompt, settings, j)
      ensures history == ThreadedHistory(old(history), images)
      ensures storage.slots == (if images == [] then old(storage.slots) else old(storage.slots)[HistoryKey := Entries(history)])
      ensures prompt == old(prompt) && systemPrompt == old(systemPrompt) && settings == old(settings)
      ensures batchCount == old(batchCount) && generatedImages == old(generatedImages)
    {
      images := [];
      requests := [];
      var i := 0;
      aborted := false;
      while i < batchCount && !aborted
        invariant 0 <= i <= batchCount && i <= AnsweredPrefix(replies)
        invariant aborted ==> i == AnsweredPrefix(replies) && i < batchCount
        invariant |requests| == i + (if aborted then 1 else 0)
        invariant forall j | 0 <= j < |requests| :: requests[j] == Request(prompt, systemPrompt, settings, j)
        invariant images == BatchImages(prompt, settings, replies, clock, i)
        invariant history == ThreadedHistory(old(history), images)
        invariant storage.slots == (if i == 0 then old(storage.slots) else old(storage.slots)[HistoryKey := Entries(history)])
        invariant prompt == old(prompt) && systemPrompt == old(systemPrompt) && settings == old(settings)
        invariant batchCount == old(batchCount) && generatedImages == old(generatedImages)
        decreases batchCount - i, if aborted then 0 else 1
      {
        requests := requests + [Request(prompt, systemPrompt, settings, i)];
        match replies[i]
        case Aborted =>
          aborted := true;
        case Answered(url) =>
          var image := Image(ImageId(clock[i], i), url, prompt, clock[i], settings);
          BatchImagesNext(prompt, settings, replies, clock, i);
          ThreadedHistorySnoc(old(history), images, image);
          images := images + [image];
          ghost var before := storage.slots;
          SaveToHistory(image);
          assert storage.slots == before[HistoryKey := Entries(history)];
          Overwrite(old(storage.slots), HistoryKey, before, Entries(history));
          i := i + 1;
      }
    }
  }
}
