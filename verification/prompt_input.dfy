/**
 * The `PromptInput` component: the prompt being edited, the style presets and
 * suggestions that rewrite it, and the trim gate in front of `onGenerate`.
 */
module PromptInput {
  import opened Wrappers
  import opened JsText

  datatype StylePreset = StylePreset(name: string, prompt: string)

  const StylePresets: seq<StylePreset> := [
    StylePreset("Photorealistic", "photorealistic, high quality, detailed, professional photography"),
    StylePreset("Digital Art", "digital art, concept art, trending on artstation, highly detailed"),
    StylePreset("Oil Painting", "oil painting, classical art style, brush strokes, artistic"),
    StylePreset("Anime", "anime style, manga, japanese animation, vibrant colors"),
    StylePreset("Cyberpunk", "cyberpunk, neon lights, futuristic, sci-fi, dark atmosphere"),
    StylePreset("Fantasy", "fantasy art, magical, mystical, ethereal, enchanted"),
    StylePreset("Minimalist", "minimalist, clean, simple, modern design, geometric"),
    StylePreset("Vintage", "vintage, retro, nostalgic, aged, classic style")
  ]

  const PromptSuggestions: seq<string> := [
    "A majestic mountain landscape at sunset",
    "A futuristic city with flying cars",
    "A cozy coffee shop in autumn",
    "An underwater coral reef scene",
    "A space station orbiting Earth",
    "A medieval castle on a hilltop",
    "A robot gardener tending flowers",
    "A magical forest with glowing trees"
  ]

  const InitialSystemPrompt: string :=
    "Create a high-quality, detailed image based on the user's description. Focus on artistic composition, proper lighting, and visual appeal."

  /** Neither starts nor ends with white space, so `trim` leaves it as it is. */
  predicate Untrimmed(s: string) {
    s != [] && !IsWhitespace(s[0]) && !IsWhitespace(s[|s| - 1])
  }

  /** `applyStylePreset`: the preset alone for a blank prompt, else the trimmed prompt, a comma, and the preset. */
  function StyledPrompt(prompt: string, preset: string): (r: string)
    ensures Blank(prompt) ==> r == preset
    ensures !Blank(prompt) ==> r == Trim(prompt) + ", " + preset
  {
    var current := Trim(prompt);
    if current != [] then current + ", " + preset else preset
  }

  /** A string that `trim` has nothing to remove from is its own trim. */
  lemma TrimOfUntrimmed(s: string)
    requires Untrimmed(s)
    ensures Trim(s) == s
  {
    assert LeadingBlank(s) == 0;
    assert TrimStart(s) == s;
    assert TrailingBlank(s) == 0;
    assert TrimEnd(s) == s[..|s|];
  }

  /** Applying presets one after another lists them in order after the prompt, each after a comma. */
  lemma StyledPromptStacks(prompt: string, a: string, b: string)
    requires !Blank(prompt) && Untrimmed(a)
    ensures StyledPrompt(StyledPrompt(prompt, a), b) == Trim(prompt) + ", " + a + ", " + b
  {
    var t := Trim(prompt);
    var once := t + ", " + a;
    assert t != [] && !IsWhitespace(t[0]);
    assert once[0] == t[0] && once[|once| - 1] == a[|a| - 1];
    TrimOfUntrimmed(once);
    assert !Blank(once) by {
      assert !IsWhitespace(once[0]);
    }
  }

  /** The generate button is disabled while generating or while the trimmed prompt is empty. */
  predicate GenerateDisabled(isGenerating: bool, prompt: string): (disabled: bool)
    ensures isGenerating ==> disabled
    ensures !isGenerating ==> (disabled <==> Blank(prompt))
  {
    isGenerating || Trim(prompt) == []
  }

  class PromptInputState {
    var prompt: string
    var systemPrompt: string

    constructor ()
      ensures prompt == "" && systemPrompt == InitialSystemPrompt
    {
      prompt := "";
      systemPrompt := InitialSystemPrompt;
    }

    /**
     * `handleGenerate`: `onGenerate` is called, with both texts trimmed, exactly
     * when the prompt is not blank, which is exactly when the button is enabled
     * outside a generation. The call it makes is returned.
     */
    method HandleGenerate() returns (call: Option<(string, string)>)
      ensures call.Some? <==> !Blank(prompt)
      ensures call.Some? <==> !GenerateDisabled(false, prompt)
      ensures call.Some? ==> call.value == (Trim(prompt), Trim(systemPrompt)) && Untrimmed(call.value.0)
    {
      var trimmed := Trim(prompt);
      if trimmed != [] {
        call := Some((trimmed, Trim(systemPrompt)));
      } else {
        call := None;
      }
    }

    method ApplyStylePreset(preset: string)
      modifies this
      ensures prompt == StyledPrompt(old(prompt), preset) && systemPrompt == old(systemPrompt)
    {
      prompt := StyledPrompt(prompt, preset);
    }

    method ApplySuggestion(suggestion: string)
      modifies this
      ensures prompt == suggestion && systemPrompt == old(systemPrompt)
    {
      prompt := suggestion;
    }

    /** `clearPrompt`: the prompt is emptied, which disables generating. */
    method ClearPrompt()
      modifies this
      ensures prompt == "" && systemPrompt == old(systemPrompt)
      ensures GenerateDisabled(false, prompt)
    {
      prompt := "";
    }
  }
}
