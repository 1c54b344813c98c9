/**
 * The server's in-memory history (`/api/history`): a module-level array of
 * generated images that `POST` appends to and caps at the newest 100,
 * `DELETE` filters by id, and `GET` sorts newest first in place.
 */
module HistoryRoute {
  import opened Wrappers
  import opened JsText
  import opened JsArray

  /** The optional `settings` object stored with an image; `{}` has every field missing. */
  datatype ImageSettings = ImageSettings(width: Option<real>, height: Option<real>, style: Option<string>, guidanceScale: Option<real>)

  const EmptySettings: ImageSettings := ImageSettings(None, None, None, None)

  /** A stored image; `prompt` and `imageUrl` are the values the `POST` body held, whatever their type. */
  datatype GeneratedImage = GeneratedImage(id: string, prompt: JsValue, imageUrl: JsValue, timestamp: int, settings: ImageSettings)

  /** The decoded `POST` body; `settings` is `None` when it is falsy. */
  datatype PostBody = PostBody(prompt: JsValue, imageUrl: JsValue, settings: Option<ImageSettings>)

  /** The route's JSON replies: `success: true` with a payload, or `success: false` with an error and a status. */
  datatype HistoryResponse =
    | Listed(data: seq<GeneratedImage>, count: nat)
    | Saved(image: GeneratedImage)
    | Deleted
    | Failed(status: nat, error: string)

  const MaxEntries: nat := 100

  function Timestamp(img: GeneratedImage): int {
    img.timestamp
  }

  /** The entries `DELETE` drops: those whose id is `id`. */
  function HasId(id: string): GeneratedImage -> bool {
    (img: GeneratedImage) => img.id == id
  }

  /** The id the route gives a new image: `img_<now>_<suffix>`, the suffix standing for the random part. */
  function NewImageId(now: nat, suffix: string): (id: string)
    ensures |id| > 5 && id[..4] == "img_"
  {
    "img_" + NatToString(now) + "_" + suffix
  }

  /** Ids made at different times, or with different random parts, differ. */
  lemma NewImageIdInjective(now1: nat, suffix1: string, now2: nat, suffix2: string)
    ensures NewImageId(now1, suffix1) == NewImageId(now2, suffix2) ==> now1 == now2 && suffix1 == suffix2
  {
    var a, b := NatToString(now1), NatToString(now2);
    if NewImageId(now1, suffix1) == NewImageId(now2, suffix2) {
      var x, y := NewImageId(now1, suffix1), NewImageId(now2, suffix2);
      assert x == "img_" + (a + ("_" + suffix1));
      assert y == "img_" + (b + ("_" + suffix2));
      var t1, t2 := a + ("_" + suffix1), b + ("_" + suffix2);
      assert t1 == x[4..] == y[4..] == t2;
      DigitsThenSeparator(a, suffix1, b, suffix2);
      NatToStringInjective(now1, now2);
    }
  }

  /** A digit string followed by `_` ends where the first `_` is, so the split is unique. */
  lemma DigitsThenSeparator(a: string, s1: string, b: string, s2: string)
    requires forall k | 0 <= k < |a| :: '0' <= a[k] <= '9'
    requires forall k | 0 <= k < |b| :: '0' <= b[k] <= '9'
    requires a + ("_" + s1) == b + ("_" + s2)
    ensures a == b && s1 == s2
  {
    var t := a + ("_" + s1);
    assert ("_" + s1)[0] == '_' && ("_" + s2)[0] == '_';
    DigitsThenRun(a, "_" + s1);
    DigitsThenRun(b, "_" + s2);
    assert |a| == |b|;
    assert a == t[..|a|] == b;
    assert s1 == t[|a| + 1..] == s2;
  }

  class HistoryStore {
    var imageHistory: seq<GeneratedImage>

    constructor ()
      ensures imageHistory == []
    {
      imageHistory := [];
    }

    /** `GET`: the array is sorted newest first in place and returned with its length. */
    method Get() returns (r: HistoryResponse)
      modifies this
      ensures imageHistory == SortDesc(old(imageHistory), Timestamp)
      ensures r == Listed(imageHistory, |imageHistory|)
      ensures multiset(imageHistory) == multiset(old(imageHistory))
      ensures SortedDesc(imageHistory, Timestamp)
    {
      imageHistory := SortDesc(imageHistory, Timestamp);
      r := Listed(imageHistory, |imageHistory|);
    }

    /**
     * `POST`: with a truthy prompt and image URL (of any type), a new image is
     * pushed and the array cut back to its newest 100; `body` is `None` when the
     * request is not JSON, which the handler's `catch` turns into a 500.
     * `idNow` and `now` are the two `Date.now()` readings, for the id and the
     * timestamp, and `suffix` the random part of the id.
     */
    method Post(body: Option<PostBody>, idNow: nat, now: nat, suffix: string) returns (r: HistoryResponse)
      modifies this
      ensures body.None? ==> r == Failed(500, "Failed to save to history") && imageHistory == old(imageHistory)
      ensures body.Some? && !(body.value.prompt.IsTruthy() && body.value.imageUrl.IsTruthy()) ==>
        r == Failed(400, "Prompt and imageUrl are required") && imageHistory == old(imageHistory)
      ensures body.Some? && body.value.prompt.IsTruthy() && body.value.imageUrl.IsTruthy() ==>
        && r == Saved(GeneratedImage(NewImageId(idNow, suffix), body.value.prompt, body.value.imageUrl, now,
                                     body.value.settings.GetOr(EmptySettings)))
        && imageHistory == AppendKeepLast(old(imageHistory), r.image, MaxEntries)
      ensures r.Saved? ==> |imageHistory| <= MaxEntries && imageHistory[|imageHistory| - 1] == r.image
    {
      if body.None? {
        return Failed(500, "Failed to save to history");
      }
      var b := body.value;
      if !b.prompt.IsTruthy() || !b.imageUrl.IsTruthy() {
        return Failed(400, "Prompt and imageUrl are required");
      }
      var newImage := GeneratedImage(NewImageId(idNow, suffix), b.prompt, b.imageUrl, now, b.settings.GetOr(EmptySettings));
      imageHistory := imageHistory + [newImage];
      if |imageHistory| > MaxEntries {
        imageHistory := imageHistory[|imageHistory| - MaxEntries..];
      }
      r := Saved(newImage);
    }

    /**
     * `DELETE ?id=`: every image with that id is filtered out; 404 when none
     * had it. `id` is `None` when the query parameter is absent.
     */
    method Delete(id: Option<string>) returns (r: HistoryResponse)
      modifies this
      ensures !IsTruthyField(id) ==> r == Failed(400, "Image ID is required") && imageHistory == old(imageHistory)
      ensures IsTruthyField(id) ==> imageHistory == Without(old(imageHistory), HasId(id.value))
      ensures IsTruthyField(id) ==>
        (r == Failed(404, "Image not found") <==> forall k | 0 <= k < |old(imageHistory)| :: old(imageHistory)[k].id != id.value)
      ensures IsTruthyField(id) && r != Failed(404, "Image not found") ==> r == Deleted
      ensures r == Failed(404, "Image not found") ==> imageHistory == old(imageHistory)
    {
      if !IsTruthyField(id) {
        return Failed(400, "Image ID is required");
      }
      var initialLength := |imageHistory|;
      imageHistory := Without(imageHistory, HasId(id.value));
      if |imageHistory| == initialLength {
        return Failed(404, "Image not found");
      }
      r := Deleted;
    }
  }
}
