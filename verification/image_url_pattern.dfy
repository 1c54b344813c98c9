/**
 * The regular expression the generation endpoint runs over the provider's
 * message text, /https?:\/\/[^\s]+\.(jpg|jpeg|png|webp)/i, and the result of
 * `String.prototype.match` with it.
 *
 * `IsImageUrl` states the pattern's language declaratively. The functions
 * `SchemeLength`, `ExtensionAt`, `RunEnd`, `LastExtensionDot` and `MatchEndAt`
 * follow the backtracking matcher: at a start position it reads the scheme
 * (optional `s` tried first), lets `[^\s]+` take the whole non-space run and
 * gives characters back until a dot followed by an extension is found. `Search`
 * tries start positions from left to right. The lemmas prove that this finds
 * the leftmost match and, at that position, the longest one.
 */
module ImageUrlPattern {
  import opened Wrappers
  import opened JsText

  /** `c` matches the pattern character `p` under the /i flag: a lower-case ASCII letter also matches its capital. */
  predicate CharMatchesCi(c: char, p: char) {
    c == p || ('a' <= p <= 'z' && c as int == p as int - 32)
  }

  /** `t` matches the lower-case literal `pat` character by character, ignoring ASCII case. */
  predicate MatchesCi(t: string, pat: string) {
    |t| == |pat| && forall k | 0 <= k < |t| :: CharMatchesCi(t[k], pat[k])
  }

  predicate NoWhitespace(u: string) {
    forall k | 0 <= k < |u| :: !IsWhitespace(u[k])
  }

  /** `u` reads `scheme`, at least one character, a dot and `ext`, ignoring ASCII case. */
  predicate Shaped(u: string, scheme: string, ext: string) {
    && |u| >= |scheme| + 2 + |ext|
    && MatchesCi(u[..|scheme|], scheme)
    && u[|u| - |ext| - 1] == '.'
    && MatchesCi(u[|u| - |ext|..], ext)
  }

  predicate ShapedWithScheme(u: string, scheme: string) {
    || Shaped(u, scheme, "jpg") || Shaped(u, scheme, "jpeg")
    || Shaped(u, scheme, "png") || Shaped(u, scheme, "webp")
  }

  /** `u` is a word of the language of /https?:\/\/[^\s]+\.(jpg|jpeg|png|webp)/i. */
  predicate IsImageUrl(u: string) {
    NoWhitespace(u) && (ShapedWithScheme(u, "http://") || ShapedWithScheme(u, "https://"))
  }

  predicate IsScheme(scheme: string) {
    scheme == "http://" || scheme == "https://"
  }

  predicate IsExtension(ext: string) {
    ext == "jpg" || ext == "jpeg" || ext == "png" || ext == "webp"
  }

  /** How many characters `https?:\/\/` reads at `p`: 8, 7, or 0 when it fails there. */
  function SchemeLength(s: string, p: nat): (n: nat)
    requires p <= |s|
    ensures n == 0 || n == 7 || n == 8
    ensures n > 0 ==> p + n <= |s|
  {
    if p + 8 <= |s| && MatchesCi(s[p..p + 8], "https://") then 8
    else if p + 7 <= |s| && MatchesCi(s[p..p + 7], "http://") then 7
    else 0
  }

  /** The extension that `\.(jpg|jpeg|png|webp)` reads at `d`, alternatives tried in order. */
  function ExtensionAt(s: string, d: nat): (r: Option<string>)
    ensures r.Some? ==> IsExtension(r.value)
    ensures r.Some? ==> d + 1 + |r.value| <= |s| && s[d] == '.'
    ensures r.Some? ==> MatchesCi(s[d + 1..d + 1 + |r.value|], r.value)
  {
    if d < |s| && s[d] == '.' then
      if d + 4 <= |s| && MatchesCi(s[d + 1..d + 4], "jpg") then Some("jpg")
      else if d + 5 <= |s| && MatchesCi(s[d + 1..d + 5], "jpeg") then Some("jpeg")
      else if d + 4 <= |s| && MatchesCi(s[d + 1..d + 4], "png") then Some("png")
      else if d + 5 <= |s| && MatchesCi(s[d + 1..d + 5], "webp") then Some("webp")
      else None
    else None
  }

  /** The end of the run of non-space characters that starts at `i`. */
  function RunEnd(s: string, i: nat): (e: nat)
    requires i <= |s|
    ensures i <= e <= |s|
    ensures forall k | i <= k < e :: !IsWhitespace(s[k])
    ensures e < |s| ==> IsWhitespace(s[e])
    decreases |s| - i
  {
    if i < |s| && !IsWhitespace(s[i]) then RunEnd(s, i + 1) else i
  }

  /** A run of non-space characters from `i` to `j` lies inside the run `RunEnd` measures from `i`. */
  lemma {:induction false} RunEndCovers(s: string, i: nat, j: nat)
    requires i <= j <= |s|
    requires forall k | i <= k < j :: !IsWhitespace(s[k])
    ensures j <= RunEnd(s, i)
    decreases j - i
  {
    if i < j {
      RunEndCovers(s, i + 1, j);
    }
  }

  /** The last position in [lo, hi) where a dot and an extension follow: where backtracking stops first. */
  function LastExtensionDot(s: string, lo: nat, hi: nat): (r: Option<nat>)
    ensures r.Some? ==> lo <= r.value < hi && ExtensionAt(s, r.value).Some?
    ensures r.Some? ==> forall d | r.value < d < hi :: ExtensionAt(s, d).None?
    ensures r.None? ==> forall d | lo <= d < hi :: ExtensionAt(s, d).None?
    decreases hi
  {
    if hi <= lo then None
    else if ExtensionAt(s, hi - 1).Some? then Some(hi - 1)
    else LastExtensionDot(s, lo, hi - 1)
  }

  /** The end of the match found when the pattern is tried at `p` alone. */
  function MatchEndAt(s: string, p: nat): Option<nat>
    requires p <= |s|
  {
    var n := SchemeLength(s, p);
    if n == 0 then None
    else
      match LastExtensionDot(s, p + n + 1, RunEnd(s, p + n))
      case None => None
      case Some(d) => Some(d + 1 + |ExtensionAt(s, d).value|)
  }

  lemma CharMatchesCiKeepsSpace(c: char, p: char)
    requires CharMatchesCi(c, p) && !IsWhitespace(p) && p != '.'
    ensures !IsWhitespace(c) && c != '.'
  {
  }

  lemma MatchesCiNoWhitespace(t: string, pat: string)
    requires MatchesCi(t, pat) && NoWhitespace(pat) && '.' !in pat
    ensures NoWhitespace(t) && '.' !in t
  {
    forall k | 0 <= k < |t| ensures !IsWhitespace(t[k]) && t[k] != '.' {
      CharMatchesCiKeepsSpace(t[k], pat[k]);
    }
  }

  lemma ShapedIsImageUrl(u: string, scheme: string, ext: string)
    requires IsScheme(scheme) && IsExtension(ext) && NoWhitespace(u) && Shaped(u, scheme, ext)
    ensures IsImageUrl(u)
  {
  }

  /** A scheme, a non-space run, a dot and an extension laid end to end in `s` form a word of the language. */
  lemma PiecesFormImageUrl(s: string, p: nat, b: nat, d: nat, q: nat, scheme: string, ext: string)
    requires IsScheme(scheme) && IsExtension(ext)
    requires p + |scheme| == b < d && d + 1 + |ext| == q <= |s|
    requires MatchesCi(s[p..b], scheme) && s[d] == '.' && MatchesCi(s[d + 1..q], ext)
    requires forall k | b <= k < d :: !IsWhitespace(s[k])
    ensures IsImageUrl(s[p..q])
  {
    var u := s[p..q];
    PiecesNoWhitespace(s, p, b, d, q, scheme, ext);
    assert u[..|scheme|] == s[p..b];
    assert u[|u| - |ext| - 1] == s[d];
    assert u[|u| - |ext|..] == s[d + 1..q];
    ShapedIsImageUrl(u, scheme, ext);
  }

  lemma PiecesNoWhitespace(s: string, p: nat, b: nat, d: nat, q: nat, scheme: string, ext: string)
    requires IsScheme(scheme) && IsExtension(ext)
    requires p <= b < d && d + 1 <= q <= |s|
    requires MatchesCi(s[p..b], scheme) && s[d] == '.' && MatchesCi(s[d + 1..q], ext)
    requires forall k | b <= k < d :: !IsWhitespace(s[k])
    ensures NoWhitespace(s[p..q])
  {
    var u := s[p..q];
    MatchesCiNoWhitespace(s[p..b], scheme);
    MatchesCiNoWhitespace(s[d + 1..q], ext);
    forall k | 0 <= k < |u| ensures !IsWhitespace(u[k]) {
      if p + k < b {
        assert u[k] == s[p..b][k];
      } else if p + k < d {
        assert u[k] == s[p + k];
      } else if p + k > d {
        assert u[k] == s[d + 1..q][p + k - d - 1];
      }
    }
  }

  /** Whatever `MatchEndAt` returns is a word of the pattern's language. */
  lemma MatchEndAtSound(s: string, p: nat)
    requires p <= |s| && MatchEndAt(s, p).Some?
    ensures p < MatchEndAt(s, p).value <= |s|
    ensures IsImageUrl(s[p..MatchEndAt(s, p).value])
  {
    var n := SchemeLength(s, p);
    var scheme := if n == 8 then "https://" else "http://";
    var b := p + n;
    var e := RunEnd(s, b);
    var d := LastExtensionDot(s, b + 1, e).value;
    var ext := ExtensionAt(s, d).value;
    var q := d + 1 + |ext|;
    assert MatchEndAt(s, p) == Some(q);
    PiecesFormImageUrl(s, p, b, d, q, scheme, ext);
  }

  /** When a dot and `ext` stand at `d`, `ExtensionAt` reads exactly `ext` there. */
  lemma ExtensionAtComplete(s: string, d: nat, ext: string)
    requires IsExtension(ext) && d + 1 + |ext| <= |s| && s[d] == '.'
    requires MatchesCi(s[d + 1..d + 1 + |ext|], ext)
    ensures ExtensionAt(s, d) == Some(ext)
  {
    assert CharMatchesCi(s[d + 1], ext[0]) by {
      assert s[d + 1] == s[d + 1..d + 1 + |ext|][0];
    }
    if ext == "jpeg" {
      assert CharMatchesCi(s[d + 3], 'e') by {
        assert s[d + 3] == s[d + 1..d + 1 + |ext|][2];
      }
      assert !MatchesCi(s[d + 1..d + 4], "jpg") by {
        assert s[d + 1..d + 4][2] == s[d + 3];
      }
    } else if ext == "png" || ext == "webp" {
      assert !MatchesCi(s[d + 1..d + 4], "jpg") by {
        assert s[d + 1..d + 4][0] == s[d + 1];
      }
      if d + 5 <= |s| {
        assert !MatchesCi(s[d + 1..d + 5], "jpeg") by {
          assert s[d + 1..d + 5][0] == s[d + 1];
        }
      }
      if ext == "webp" {
        assert !MatchesCi(s[d + 1..d + 4], "png") by {
          assert s[d + 1..d + 4][0] == s[d + 1];
        }
      }
    }
  }

  /** When `scheme` stands at `p`, `SchemeLength` reads exactly it. */
  lemma SchemeLengthComplete(s: string, p: nat, scheme: string)
    requires IsScheme(scheme) && p + |scheme| <= |s| && MatchesCi(s[p..p + |scheme|], scheme)
    ensures SchemeLength(s, p) == |scheme|
  {
    if scheme == "http://" && p + 8 <= |s| {
      assert s[p + 4] == s[p..p + 7][4];
      assert s[p + 4] == ':';
      assert !MatchesCi(s[p..p + 8], "https://") by {
        assert s[p..p + 8][4] == s[p + 4];
      }
    }
  }

  /** The last dot with an extension in a range ends its match no earlier than any other such dot. */
  lemma LastExtensionDotEndsLast(s: string, lo: nat, hi: nat, d: nat)
    requires lo <= d < hi && ExtensionAt(s, d).Some?
    ensures LastExtensionDot(s, lo, hi).Some?
    ensures d + 1 + |ExtensionAt(s, d).value|
         <= LastExtensionDot(s, lo, hi).value + 1 + |ExtensionAt(s, LastExtensionDot(s, lo, hi).value).value|
  {
    var ext := ExtensionAt(s, d).value;
    assert CharMatchesCi(s[d + 1], ext[0]) by {
      assert s[d + 1] == s[d + 1..d + 1 + |ext|][0];
    }
  }

  /** A dot with an extension inside the non-space run after the scheme read at `p` ends no later than the match found there. */
  lemma MatchEndAtLongest(s: string, p: nat, d: nat)
    requires p <= |s| && SchemeLength(s, p) > 0
    requires p + SchemeLength(s, p) < d && ExtensionAt(s, d).Some?
    requires forall k | p + SchemeLength(s, p) <= k <= d :: !IsWhitespace(s[k])
    ensures MatchEndAt(s, p).Some? && d + 1 + |ExtensionAt(s, d).value| <= MatchEndAt(s, p).value
  {
    var b := p + SchemeLength(s, p);
    RunEndCovers(s, b, d + 1);
    LastExtensionDotEndsLast(s, b + 1, RunEnd(s, b), d);
  }

  /** The matcher's view of a word of the language at `p`: its scheme, the run after it, and its final extension. */
  lemma WordPieces(s: string, p: nat, q: nat, scheme: string, ext: string)
    requires p <= q <= |s| && IsScheme(scheme) && IsExtension(ext)
    requires NoWhitespace(s[p..q]) && Shaped(s[p..q], scheme, ext)
    ensures SchemeLength(s, p) == |scheme|
    ensures p + |scheme| + 1 <= q - |ext| - 1 && ExtensionAt(s, q - |ext| - 1) == Some(ext)
    ensures forall k | p + |scheme| <= k < q :: !IsWhitespace(s[k])
  {
    var u := s[p..q];
    WordScheme(s, p, q, scheme);
    WordExtension(s, p, q, ext);
    forall k | p + |scheme| <= k < q ensures !IsWhitespace(s[k]) {
      assert s[k] == u[k - p];
    }
  }

  lemma WordScheme(s: string, p: nat, q: nat, scheme: string)
    requires p <= q <= |s| && IsScheme(scheme)
    requires |scheme| <= q - p && MatchesCi(s[p..q][..|scheme|], scheme)
    ensures SchemeLength(s, p) == |scheme|
  {
    assert s[p..q][..|scheme|] == s[p..p + |scheme|];
    SchemeLengthComplete(s, p, scheme);
  }

  lemma WordExtension(s: string, p: nat, q: nat, ext: string)
    requires p <= q <= |s| && IsExtension(ext) && |ext| + 1 <= q - p
    requires s[p..q][q - p - |ext| - 1] == '.' && MatchesCi(s[p..q][q - p - |ext|..], ext)
    ensures ExtensionAt(s, q - |ext| - 1) == Some(ext)
  {
    var d := q - |ext| - 1;
    assert s[d] == '.' by {
      assert s[d] == s[p..q][q - p - |ext| - 1];
    }
    assert s[d + 1..d + 1 + |ext|] == s[p..q][q - p - |ext|..];
    ExtensionAtComplete(s, d, ext);
  }

  /** Every word of the language that starts at `p` ends no later than the match `MatchEndAt` finds. */
  lemma MatchEndAtComplete(s: string, p: nat, q: nat)
    requires p <= q <= |s| && IsImageUrl(s[p..q])
    ensures MatchEndAt(s, p).Some? && q <= MatchEndAt(s, p).value
  {
    var u := s[p..q];
    var scheme := if ShapedWithScheme(u, "http://") then "http://" else "https://";
    var ext :=
      if Shaped(u, scheme, "jpg") then "jpg"
      else if Shaped(u, scheme, "jpeg") then "jpeg"
      else if Shaped(u, scheme, "png") then "png"
      else "webp";
    WordPieces(s, p, q, scheme, ext);
    MatchEndAtLongest(s, p, q - |ext| - 1);
  }

  lemma NoLongerMatchAt(s: string, p: nat)
    requires p <= |s|
    ensures MatchEndAt(s, p).None? ==> forall b | p <= b <= |s| :: !IsImageUrl(s[p..b])
    ensures MatchEndAt(s, p).Some? ==> forall b | MatchEndAt(s, p).value < b <= |s| :: !IsImageUrl(s[p..b])
  {
    forall b | p <= b <= |s| && IsImageUrl(s[p..b])
      ensures MatchEndAt(s, p).Some? && b <= MatchEndAt(s, p).value
    {
      MatchEndAtComplete(s, p, b);
    }
  }

  /**
   * The match the regular expression finds in `s` from position `p` on, as a
   * start and an end: the leftmost start at which some word of the language
   * begins, and the longest such word there.
   */
  function Search(s: string, p: nat): (r: Option<(nat, nat)>)
    requires p <= |s|
    ensures r.Some? ==> p <= r.value.0 < r.value.1 <= |s| && IsImageUrl(s[r.value.0..r.value.1])
    ensures r.Some? ==> forall a, b | p <= a < r.value.0 && a <= b <= |s| :: !IsImageUrl(s[a..b])
    ensures r.Some? ==> forall b | r.value.1 < b <= |s| :: !IsImageUrl(s[r.value.0..b])
    ensures r.None? ==> forall a, b | p <= a <= b <= |s| :: !IsImageUrl(s[a..b])
    decreases |s| - p
  {
    NoLongerMatchAt(s, p);
    match MatchEndAt(s, p)
    case Some(q) =>
      MatchEndAtSound(s, p);
      Some((p, q))
    case None =>
      if p == |s| then None else Search(s, p + 1)
  }

  /** `u` stands in `text` at position `a`. */
  predicate OccursAt(text: string, a: nat, u: string) {
    a + |u| <= |text| && text[a..a + |u|] == u
  }

  /**
   * `content[a..b]` is the leftmost-longest image URL: no image URL starts
   * before `a`, and none starting at `a` ends after `b`.
   */
  predicate LeftmostLongest(content: string, a: nat, b: nat) {
    && a < b <= |content| && IsImageUrl(content[a..b])
    && (forall a', b' | 0 <= a' < a && a' <= b' <= |content| :: !IsImageUrl(content[a'..b']))
    && (forall b' | b < b' <= |content| :: !IsImageUrl(content[a..b']))
  }

  /** `content.match(pattern)` reduced to the matched text (`urlMatch[0]`), or nothing. */
  function FirstImageUrl(content: string): (r: Option<string>)
    ensures r.Some? ==> IsImageUrl(r.value)
    ensures r.Some? ==> exists a :: OccursAt(content, a, r.value)
    ensures r.Some? ==> exists a: nat, b: nat :: LeftmostLongest(content, a, b) && r.value == content[a..b]
    ensures r.None? <==> forall a, b | 0 <= a <= b <= |content| :: !IsImageUrl(content[a..b])
  {
    match Search(content, 0)
    case Some((a, b)) =>
      assert OccursAt(content, a, content[a..b]);
      Some(content[a..b])
    case None => None
  }

  /** A URL given on its own with nothing around it is found whole. */
  lemma FirstImageUrlOfUrl(u: string)
    requires IsImageUrl(u)
    ensures FirstImageUrl(u) == Some(u)
  {
    var r := Search(u, 0);
    assert u[0..|u|] == u;
    assert r.Some?;
    var (a, b) := r.value;
    assert a == 0;
    assert b == |u|;
  }

  /**
   * A URL of the language that stands on its own in a message, with white
   * space (or nothing) on both sides and no match before it, is exactly what
   * the match returns.
   */
  lemma FirstImageUrlIsolated(pre: string, u: string, post: string)
    requires IsImageUrl(u)
    requires pre == [] || IsWhitespace(pre[|pre| - 1])
    requires post == [] || IsWhitespace(post[0])
    requires forall a, b | 0 <= a <= b <= |pre| :: !IsImageUrl(pre[a..b])
    ensures FirstImageUrl(pre + (u + post)) == Some(u)
  {
    var s := pre + (u + post);
    var P, Q := |pre|, |pre| + |u|;
    assert s[P..Q] == u;
    var r := Search(s, 0);
    assert r.Some?;
    var (a, b) := r.value;
    if a < P {
      if b <= P {
        SliceOfPrefix(pre, u + post, a, b);
      } else {
        assert s[P - 1] == pre[P - 1];
        WhitespaceBreaksUrl(s, a, b, P - 1);
      }
    }
    if b > Q {
      assert s[Q] == post[0];
      WhitespaceBreaksUrl(s, a, b, Q);
    }
    assert a == P && b == Q;
    assert FirstImageUrl(s) == Some(s[P..Q]);
  }

  lemma SliceOfPrefix(pre: string, rest: string, a: nat, b: nat)
    requires a <= b <= |pre|
    ensures (pre + rest)[a..b] == pre[a..b]
  {
  }

  /** No word of the language spans a white-space character. */
  lemma WhitespaceBreaksUrl(s: string, a: nat, b: nat, k: nat)
    requires a <= k < b <= |s| && IsWhitespace(s[k])
    ensures !IsImageUrl(s[a..b])
  {
    assert s[a..b][k - a] == s[k];
  }
}
