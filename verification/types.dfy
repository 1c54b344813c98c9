/**
 * The shared record types of the image generator and its constant tables:
 * the five default dimensions, the five style presets and the default
 * generation settings.
 */
module GenerationTypes {
  import opened Wrappers
  import opened JsText

  /** A generation is pending, completed or failed, and nothing else. */
  datatype GenerationStatus = Pending | Completed | Failed

  /** The JSON text of a status. */
  function StatusText(status: GenerationStatus): (t: string)
    ensures t == "pending" || t == "completed" || t == "failed"
  {
    match status
    case Pending => "pending"
    case Completed => "completed"
    case Failed => "failed"
  }

  /** Reading a status back from JSON text: one of the three literals, or nothing. */
  function ParseStatus(t: string): (r: Option<GenerationStatus>)
    ensures r.Some? <==> t == "pending" || t == "completed" || t == "failed"
  {
    if t == "pending" then Some(Pending)
    else if t == "completed" then Some(Completed)
    else if t == "failed" then Some(Failed)
    else None
  }

  /** The three statuses have three different texts, and each reads back as itself. */
  lemma StatusTextRoundTrip(status: GenerationStatus, other: GenerationStatus)
    ensures ParseStatus(StatusText(status)) == Some(status)
    ensures status != other ==> StatusText(status) != StatusText(other)
  {
  }

  datatype ImageDimensions = ImageDimensions(labelText: string, width: nat, height: nat, aspectRatio: string)

  datatype StylePreset = StylePreset(id: string, name: string, description: string, systemPrompt: string)

  datatype GenerationSettings = GenerationSettings(
    dimensions: ImageDimensions,
    style: StylePreset,
    guidanceScale: real,
    numInferenceSteps: int,
    seed: Option<int>,
    batchSize: int)

  const DefaultDimensions: seq<ImageDimensions> := [
    ImageDimensions("Square", 1024, 1024, "1:1"),
    ImageDimensions("Portrait", 768, 1024, "3:4"),
    ImageDimensions("Landscape", 1024, 768, "4:3"),
    ImageDimensions("Wide", 1536, 640, "12:5"),
    ImageDimensions("Tall", 640, 1536, "5:12")
  ]

  const DefaultStylePresets: seq<StylePreset> := [
    StylePreset("photorealistic", "Photorealistic", "High-quality, realistic photography style",
      "Create a photorealistic, high-quality image with professional lighting and composition. Focus on realistic textures, accurate proportions, and natural colors."),
    StylePreset("artistic", "Artistic", "Creative and expressive artistic style",
      "Create an artistic interpretation with creative composition, expressive brushwork, and enhanced colors. Focus on artistic expression over photorealism."),
    StylePreset("digital_art", "Digital Art", "Modern digital illustration style",
      "Create a digital artwork with clean lines, vibrant colors, and modern illustration techniques. Focus on stylized forms and contemporary digital art aesthetics."),
    StylePreset("cinematic", "Cinematic", "Movie-like dramatic lighting and composition",
      "Create a cinematic image with dramatic lighting, film-like composition, and movie-quality production values. Focus on storytelling through visual elements."),
    StylePreset("abstract", "Abstract", "Non-representational abstract art",
      "Create an abstract composition focusing on colors, shapes, and forms rather than realistic representation. Emphasize artistic expression and visual impact.")
  ]

  const DefaultGenerationSettings: GenerationSettings :=
    GenerationSettings(DefaultDimensions[0], DefaultStylePresets[0], 7.5, 50, None, 1)

  /** `d` is a positive divisor of `n`. */
  predicate Divides(d: nat, n: nat) {
    d > 0 && n % d == 0
  }

  /** Euclid's algorithm: a common divisor of `a` and `b` that every common divisor divides. */
  function Gcd(a: nat, b: nat): (g: nat)
    requires a > 0 || b > 0
    ensures Divides(g, a) && Divides(g, b)
    ensures forall d: nat | Divides(d, a) && Divides(d, b) :: Divides(d, g)
    decreases b
  {
    if b == 0 then a
    else
      var g := Gcd(b, a % b);
      DividesRemainder(g, a, b);
      forall d: nat | Divides(d, a) && Divides(d, b) ensures Divides(d, a % b) {
        DividesRemainder(d, a, b);
      }
      g
  }

  /** A divisor of `b` divides `a` exactly when it divides `a % b`. */
  lemma DividesRemainder(d: nat, a: nat, b: nat)
    requires b > 0 && Divides(d, b)
    ensures Divides(d, a) <==> Divides(d, a % b)
  {
    var m := b / d;
    var k := (a / b) * m;
    assert b == m * d;
    assert k * d == (a / b) * b by {
      assert (a / b) * m * d == (a / b) * (m * d);
    }
    assert a % b == a - k * d;
    SubtractMultiple(a, k, d);
  }

  /** Subtracting a multiple of `d` leaves the remainder modulo `d` unchanged. */
  lemma SubtractMultiple(a: nat, k: nat, d: nat)
    requires d > 0 && a >= k * d
    ensures (a - k * d) % d == a % d
  {
    var q, r := (a - k * d) / d, (a - k * d) % d;
    assert a == (q + k) * d + r;
    RemainderUnique(a, d, q + k, r);
  }

  /** The remainder is the only `r` in [0, d) with `x == q * d + r`. */
  lemma RemainderUnique(x: int, d: int, q: int, r: int)
    requires d > 0 && 0 <= r < d && x == q * d + r
    ensures x % d == r
  {
    var q', r' := x / d, x % d;
    if q > q' {
      assert (q - q') * d == r' - r;
      MulAtLeast(q - q', d);
    } else if q < q' {
      assert (q' - q) * d == r - r';
      MulAtLeast(q' - q, d);
    }
  }

  lemma {:induction false} MulAtLeast(a: nat, d: nat)
    requires a >= 1
    ensures a * d >= d
  {
    if a > 1 {
      assert a * d == (a - 1) * d + d;
      MulAtLeast(a - 1, d);
    }
  }

  /** The label `w/g:h/g` of a width and height reduced by their greatest common divisor. */
  function AspectRatioLabel(width: nat, height: nat): (ratio: string)
    requires width > 0 || height > 0
    ensures Gcd(width, height) > 0
    ensures var w := NatToString(width / Gcd(width, height)); |ratio| > |w| && ratio[..|w|] == w && ratio[|w|] == ':'
  {
    var g := Gcd(width, height);
    NatToString(width / g) + ":" + NatToString(height / g)
  }

  /** `parseInt` of a label reads back the reduced width: the digits before the colon. */
  lemma AspectRatioLabelWidth(width: nat, height: nat)
    requires width > 0 || height > 0
    ensures ParseInt(AspectRatioLabel(width, height)) == Int(width / Gcd(width, height))
  {
    var g := Gcd(width, height);
    RatioReadsBack(width / g, height / g);
  }

  lemma RatioReadsBack(w: nat, h: nat)
    ensures ParseInt(NatToString(w) + ":" + NatToString(h)) == Int(w)
  {
    var rest := ":" + NatToString(h);
    assert DigitValue(rest[0], 10).None?;
    ParseIntOfNatToString(w, rest);
    assert NatToString(w) + ":" + NatToString(h) == NatToString(w) + rest;
  }

  /** The dimension is labelled with its width and height reduced to lowest terms. */
  predicate LabelledInLowestTerms(d: ImageDimensions) {
    d.width > 0 && d.height > 0 && d.aspectRatio == AspectRatioLabel(d.width, d.height)
  }

  /** Every default dimension is labelled with its width and height reduced to lowest terms. */
  lemma DefaultAspectRatiosReduced()
    ensures forall i | 0 <= i < |DefaultDimensions| :: LabelledInLowestTerms(DefaultDimensions[i])
  {
    DefaultLabels();
  }

  lemma DefaultLabels()
    ensures AspectRatioLabel(1024, 1024) == "1:1"
    ensures AspectRatioLabel(768, 1024) == "3:4"
    ensures AspectRatioLabel(1024, 768) == "4:3"
    ensures AspectRatioLabel(1536, 640) == "12:5"
    ensures AspectRatioLabel(640, 1536) == "5:12"
  {
    GcdOfDefaults();
    assert NatToString(1) == "1" && NatToString(3) == "3" && NatToString(4) == "4";
    assert NatToString(5) == "5" && NatToString(12) == "12";
  }

  lemma GcdOfDefaults()
    ensures Gcd(1024, 1024) == 1024
    ensures Gcd(768, 1024) == 256 && Gcd(1024, 768) == 256
    ensures Gcd(1536, 640) == 128 && Gcd(640, 1536) == 128
  {
  }

  /** No two style presets share an id. */
  lemma StylePresetIdsDistinct()
    ensures forall i, j | 0 <= i < j < |DefaultStylePresets| :: DefaultStylePresets[i].id != DefaultStylePresets[j].id
  {
  }

  /** The default settings: 1024x1024 square, photorealistic, guidance 7.5, 50 steps, no seed, one image. */
  lemma DefaultGenerationSettingsValues()
    ensures DefaultGenerationSettings.dimensions == ImageDimensions("Square", 1024, 1024, "1:1")
    ensures DefaultGenerationSettings.style.id == "photorealistic"
    ensures DefaultGenerationSettings.guidanceScale == 7.5
    ensures DefaultGenerationSettings.numInferenceSteps == 50
    ensures DefaultGenerationSettings.seed.None?
    ensures DefaultGenerationSettings.batchSize == 1
  {
  }
}
