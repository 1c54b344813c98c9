# AI image generator — a Dafny model of its core

This project models the core of a Next.js image-generation application:

- Two server routes:
  - `/api/generate` validates a prompt, builds a chat-completions request for the FLUX model, and digs an image URL out of the provider's reply.
  - `/api/history` keeps an in-memory list of generated images, capped at the newest 100.
- The browser-side `ApiClient`.
- The two generator screens (`HomePage` and `ImageGenerator`).
- The history sidebar, the prompt input and the settings panel.
- The shared type definitions and their default values.

Each source file has one Dafny module:

| module | file | source |
|---|---|---|
| `GenerateRoute` | generate_route.dfy | src/app/api/generate/route.ts |
| `HistoryRoute` | history_route.dfy | src/app/api/history/route.ts |
| `ApiClient` | api_client.dfy | src/lib/api-client.ts |
| `HomePage` | page.dfy | src/app/page.tsx |
| `ImageGenerator` | image_generator.dfy | src/components/image-generator.tsx |
| `HistorySidebar` | history_sidebar.dfy | src/components/history-sidebar.tsx |
| `PromptInput` | prompt_input.dfy | src/components/prompt-input.tsx |
| `SettingsPanel` | settings_panel.dfy | src/components/settings-panel.tsx |
| `GenerationTypes` | types.dfy | src/types/image-generation.ts |

The shared building blocks have their own modules:

- `Wrappers`: `Option` and `Result`.
- `JsText`: JavaScript whitespace, `trim`, truthiness and `||` on JSON field values (missing, a string, or any other value with its truthiness), template interpolation and `parseInt`.
- `JsArray`: `slice` after a prepend or a push, `filter`, `reverse`, `find`, and the stable `sort`.
- `ImageUrlPattern`: the regular expression `/https?:\/\/[^\s]+\.(jpg|jpeg|png|webp)/i`. It is written as a backtracking matcher and also as a declarative language. The matcher is proved to find the leftmost, longest match.
- `BrowserStorage`: `localStorage` as a class over a map from key to stored value.
- `ProviderApi`: the model name, the default system prompt and the shape of a provider reply.

Where the source mutates state, the model does too. The history route's module-level array, `localStorage`, and each component's React state are classes whose methods update fields. Each such method has a `modifies` clause and states its whole new state.

The loop in `HomePage.generateImage` is a `while` loop carrying invariants. Pure computations are functions: payload building, URL probing, timestamp formatting, prompt styling and settings updates.

Some inputs are parameters:

- The clock (`Date.now()`).
- The random id suffix.
- The outcome of every `fetch`: a network failure, or a reply with status, `ok`, and a JSON body or none.

## Model

| member | source | states |
|---|---|---|
| `JsText.Or` | src/app/api/generate/route.ts:27 | `a \|\| b` is `a` when `a` is truthy and `b` otherwise, so it is truthy exactly when one of them is |
| `JsText.FromOption` | src/lib/api-client.ts:52 | an optional string field is missing exactly when absent, and truthy exactly when it is a non-empty string |
| `JsText.Interpolated` | src/lib/api-client.ts:76 | a string value is interpolated as itself; any other present value as its text |
| `ProviderApi.SystemMessage` | src/app/api/generate/route.ts:27 | the system message is the caller's `systemPrompt` value itself, of whatever type, when it is truthy, otherwise the fixed default string; it is always truthy |
| `GenerateRoute.OrDefault` | src/app/api/generate/route.ts:6 | a destructuring default replaces only `undefined`: a supplied field (even `null` or `0`) is kept |
| `GenerateRoute.Parameters` | src/app/api/generate/route.ts:6 | after destructuring, none of width, height, guidance scale or steps is `undefined` |
| `GenerateRoute.ParametersKeepSuppliedValues` | src/app/api/generate/route.ts:6 | each missing field gets 1024, 1024, 7.5 or 50; each supplied field passes through unchanged |
| `GenerateRoute.Payload` | src/app/api/generate/route.ts:22-43 | the upstream request names the FLUX model, is not streamed, holds exactly the system message and then the user prompt, carries the defaulted `image_generation` block, and sets `max_tokens` to 1000 and `temperature` to 0.7 |
| `GenerateRoute.ContentProbe` | src/app/api/generate/route.ts:59-66 | a URL found in the first choice's content matches the image-URL pattern and occurs in that content; the probe throws exactly when the first choice has a truthy message whose `content` is not a string (missing, `null`, a number or an object) |
| `GenerateRoute.TopLevelProbe` | src/app/api/generate/route.ts:69-71 | never throws; finds a URL exactly when the reply's top-level `image_url` is truthy, and that value (of any type) is the URL |
| `GenerateRoute.ChoiceProbe` | src/app/api/generate/route.ts:74-76 | never throws; finds a URL exactly when the first choice's `image_url` is truthy, and that value is the URL |
| `GenerateRoute.FirstDecisive` | src/app/api/generate/route.ts:58-76 | the probes are tried in order: the result is the first one that found a URL or threw, and is "not found" only when every probe found nothing |
| `GenerateRoute.ProbeImageUrl` | src/app/api/generate/route.ts:58-76 | a URL found by the probes is truthy: a non-empty string, or a truthy non-string value taken as it is |
| `GenerateRoute.ProbeOrder` | src/app/api/generate/route.ts:58-76 | the content match wins; the top-level `image_url` is consulted only when the content gave nothing; the first choice's `image_url` is consulted last |
| `GenerateRoute.ExtractImageUrl` | src/app/api/generate/route.ts:58-76 | the imperative probing with its reassigned `imageUrl` computes the same result as the ordered probes |
| `GenerateRoute.EmbeddedUrlExtracted` | src/app/api/generate/route.ts:62-64 | an image URL set off by white space in the content, with no image URL in the text before it, is the URL the route extracts |
| `GenerateRoute.Post` | src/app/api/generate/route.ts:3-105 | an unreadable body gives 500 "Internal server error"; a falsy prompt gives 400 "Prompt is required" and nothing is sent; otherwise exactly the payload is sent; a non-ok reply is relayed with its status and "Failed to generate image"; no URL gives 500 "No image URL found in response"; success returns the URL (truthy, of whatever type the reply gave), the prompt and the defaulted parameters |
| `ImageUrlPattern.SchemeLength` | src/app/api/generate/route.ts:62 | the scheme part matches 7 (`http://`) or 8 (`https://`) characters, or none |
| `ImageUrlPattern.ExtensionAt` | src/app/api/generate/route.ts:62 | a dot followed by jpg, jpeg, png or webp (any case) |
| `ImageUrlPattern.SchemeLengthComplete` | src/app/api/generate/route.ts:62 | every case-insensitive `http://` or `https://` at a position is recognised, with its length |
| `ImageUrlPattern.ExtensionAtComplete` | src/app/api/generate/route.ts:62 | every dot followed by one of the four extensions is recognised |
| `ImageUrlPattern.RunEnd` | src/app/api/generate/route.ts:62 | `[^\s]+` runs to the first white space or the end |
| `ImageUrlPattern.LastExtensionDot` | src/app/api/generate/route.ts:62 | the greedy `[^\s]+` backtracks to the last dot that starts an extension; no later dot does |
| `ImageUrlPattern.MatchEndAtSound` | src/app/api/generate/route.ts:62 | a match found at a position is an image URL |
| `ImageUrlPattern.MatchEndAtComplete` | src/app/api/generate/route.ts:62 | every image URL starting at a position is found there, and the match is at least as long |
| `ImageUrlPattern.NoLongerMatchAt` | src/app/api/generate/route.ts:62 | no image URL at that position is longer than the match; with no match, none exists |
| `ImageUrlPattern.Search` | src/app/api/generate/route.ts:62 | the match returned is an image URL, no image URL starts earlier, and none starting at the same place is longer; no result means no image URL occurs at all |
| `ImageUrlPattern.FirstImageUrl` | src/app/api/generate/route.ts:62-64 | `content.match(...)[0]` is an image URL occurring in the content: the leftmost one, and the longest starting there; it is missing exactly when no image URL occurs |
| `ImageUrlPattern.FirstImageUrlOfUrl` | src/app/api/generate/route.ts:62 | applied to an image URL, the match is that whole URL |
| `ImageUrlPattern.FirstImageUrlIsolated` | src/app/api/generate/route.ts:62 | a URL delimited by white space, with no earlier image URL, is the match |
| `HistoryRoute.NewImageId` | src/app/api/history/route.ts:52 | an id starts with `img_` and carries more after the prefix |
| `HistoryRoute.NewImageIdInjective` | src/app/api/history/route.ts:52 | two ids are equal only when both the clock readings and the random suffixes are |
| `HistoryRoute.HistoryStore.constructor` | src/app/api/history/route.ts:18 | the store starts empty |
| `HistoryRoute.HistoryStore.Get` | src/app/api/history/route.ts:20-37 | the store is sorted in place, newest timestamp first: a permutation of the old store, non-increasing by timestamp; the reply lists it with its count |
| `HistoryRoute.HistoryStore.Post` | src/app/api/history/route.ts:39-77 | an unreadable body gives 500 "Failed to save to history"; a falsy prompt or URL gives 400 "Prompt and imageUrl are required"; both leave the store as it was; otherwise the new image (the given prompt and URL values, whatever their type, an id from one clock reading and a timestamp from another) is pushed, only the newest 100 are kept, and the new image is the last entry |
| `HistoryRoute.HistoryStore.Delete` | src/app/api/history/route.ts:79-104 | a falsy id gives 400 "Image ID is required"; otherwise the entries with that id are filtered out; the reply is 404 "Image not found" exactly when no entry has the id, and then the store is unchanged |
| `JsArray.PrependCapped` | src/app/page.tsx:86 | `[x, ...h].slice(0, cap)` has `x` first, then the first entries of `h` that fit |
| `JsArray.AppendKeepLast` | src/app/api/history/route.ts:59-64 | after the push and `slice(-cap)`, `x` is last, preceded by the newest entries of `h`, and at most `cap` remain |
| `JsArray.Without` | src/app/api/history/route.ts:92 | `filter` keeps exactly the entries the predicate does not drop, in order; the length is unchanged only when nothing is dropped |
| `JsArray.WithoutConcat` | src/app/api/history/route.ts:92 | filtering a concatenation filters each piece |
| `JsArray.WithoutIdempotent` | src/lib/api-client.ts:109 | deleting the same id twice is the same as deleting it once |
| `JsArray.Reverse` | src/components/history-sidebar.tsx:52 | `reverse` puts the element `k` places from the end at position `k` |
| `JsArray.ReverseReverse` | src/components/history-sidebar.tsx:52 | reversing twice restores the order |
| `JsArray.WithoutReverse` | src/components/history-sidebar.tsx:52-67 | filtering a reversed array is reversing the filtered array |
| `JsArray.Find` | src/app/page.tsx:172 | `find` returns the first element satisfying the predicate (none before it does), and returns nothing only when no element does |
| `JsArray.InsertDesc` | src/app/api/history/route.ts:23 | insertion keeps the elements as a multiset and keeps a descending sequence descending |
| `JsArray.SortDesc` | src/app/api/history/route.ts:23 | the sort with comparator `b - a` on the key is a permutation and non-increasing by key |
| `JsArray.StableSortDesc` | src/app/api/history/route.ts:23 | the sort is stable: entries with equal keys keep their relative order |
| `ApiClient.RequestParameters` | src/lib/api-client.ts:59-65 | each numeric field falls back to 1024, 1024, 7.5 or 50 when it is falsy (zero or missing), so no field is zero; `seed` is present exactly when it is truthy |
| `ApiClient.BuildPayload` | src/lib/api-client.ts:47-66 | the payload names the FLUX model and holds the system message (the prompt when truthy, else the default) and then the user prompt, with exactly the defaulted parameters of `RequestParameters` |
| `ApiClient.ResponseImageUrl` | src/lib/api-client.ts:84 | the first choice's content when truthy (of any type), else the top-level `image_url` when truthy, else `""`; falsy, and then `""`, exactly when neither is truthy |
| `ApiClient.FailureMessage` | src/lib/api-client.ts:76 | the message starts with "Image generation failed: " and ends with ". " followed by the error body's `message` when that is truthy, or with ". " alone when it is not |
| `ApiClient.FailureMessageCarriesStatus` | src/lib/api-client.ts:74-77 | the thrown message starts with "Image generation failed: " and `parseInt` of the rest gives back the HTTP status |
| `ApiClient.GenerateImage` | src/lib/api-client.ts:46-94 | a rejected fetch, a non-ok status (with the formatted message) and an unreadable reply are the three failures; otherwise the record carries the prompt, the extracted URL, the same parameters that were sent, and the provider id when truthy (of any type) or else the clock's decimal string |
| `ApiClient.GetHistory` | src/lib/api-client.ts:96-99 | no stored history reads as empty; unparsable stored text is an error; otherwise the stored list |
| `ApiClient.SaveToHistory` | src/lib/api-client.ts:101-105 | the stored history becomes the new record followed by the older ones, capped at 50; an unreadable history rejects and stores nothing |
| `ApiClient.DeleteFromHistory` | src/lib/api-client.ts:107-111 | the stored history loses exactly the records with that id; deleting an absent id leaves the history as it was |
| `ApiClient.ClearHistory` | src/lib/api-client.ts:113-115 | the key is removed and the history reads as empty |
| `BrowserStorage.LocalStorage.SetItem` | src/lib/api-client.ts:104 | only the given key changes |
| `BrowserStorage.LocalStorage.RemoveItem` | src/lib/api-client.ts:114 | only the given key disappears |
| `HomePage.ResolutionValuesDistinct` | src/app/page.tsx:44-51 | the six resolution presets have distinct values, so `find` selects exactly one |
| `HomePage.WithResolution` | src/app/page.tsx:171-180 | a known preset sets width and height to its size and nothing else; an unknown value changes nothing |
| `HomePage.ImageId` | src/app/page.tsx:129 | an image id starts with `img_` and carries the clock reading and the index after it |
| `HomePage.ImageIdsDistinct` | src/app/page.tsx:129 | two images of one batch taken at the same millisecond still get different ids |
| `HomePage.AnsweredPrefix` | src/app/page.tsx:108-138 | the loop runs through the answered replies and stops at the first failed one |
| `HomePage.BatchImages` | src/app/page.tsx:128-134 | image `j` carries the id, the reply's URL, the prompt, the clock reading and a copy of the settings |
| `HomePage.ThreadedHistorySnoc` | src/app/page.tsx:85-89 | saving one more image prepends it to the history and caps it at 50 |
| `HomePage.ThreadedHistoryShape` | src/app/page.tsx:85-89 | after saving a batch one image at a time, the history is the batch newest first, followed by the old history, capped at 50 |
| `HomePage.StaleClosureDropsEarlierImages` | src/app/page.tsx:86 | as written, of a two-image batch only the last image reaches the history; the threaded history holds both, newest first |
| `HomePage.Page.constructor` | src/app/page.tsx:54-68 | the initial prompt, system prompt, settings (1024×1024, photorealistic, 7.5, 50), batch count 1 and empty lists |
| `HomePage.Page.LoadHistory` | src/app/page.tsx:70-83 | a readable stored history replaces the state; a missing or unparsable one leaves it as it was |
| `HomePage.Page.SaveToHistory` | src/app/page.tsx:85-89 | the history becomes the image followed by the old history, capped at 50, and the same list is stored |
| `HomePage.Page.UpdateResolution` | src/app/page.tsx:171-180 | the settings become `WithResolution` of the old ones; nothing else changes |
| `HomePage.Page.SendBatch` | src/app/page.tsx:105-138 | one request per iteration with the batch index; the loop stops at the first failed reply; the images are those of the answered prefix; each image is saved in turn; storage is written only when an image was saved |
| `HomePage.Page.GenerateImage` | src/app/page.tsx:91-151 | a blank prompt sends nothing and changes nothing; otherwise the gallery is cleared, filled with the whole batch only when every reply succeeded, and the history holds every saved image |
| `ImageGenerator.DerivedSeed` | src/components/image-generator.tsx:108 | a request carries a seed exactly when the settings' seed is truthy, and that seed is offset by the batch index |
| `ImageGenerator.BatchRequests` | src/components/image-generator.tsx:97-119 | one request per batch index, each with the prompt, the system prompt and the settings with the derived seed |
| `ImageGenerator.BatchSeeds` | src/components/image-generator.tsx:108 | with a truthy seed the requests of one batch carry different seeds; without one they are identical |
| `ImageGenerator.NewImages` | src/components/image-generator.tsx:125-131 | image `i` has id `<millis>-<i>`, the reply's URL, the prompt and the settings without the derived seed |
| `ImageGenerator.Updated` | src/components/image-generator.tsx:71-73 | `{ ...prev, [key]: value }` changes the named field only |
| `ImageGenerator.UpdatesCompose` | src/components/image-generator.tsx:71-73 | updates of different keys commute; a later update of the same key wins |
| `ImageGenerator.WithResolution` | src/components/image-generator.tsx:75-81 | a known preset sets width and height; an unknown value changes nothing |
| `ImageGenerator.ResolutionValuesDistinct` | src/components/image-generator.tsx:44-51 | the preset values are distinct |
| `ImageGenerator.Generator.constructor` | src/components/image-generator.tsx:54-69 | the initial state, with no seed |
| `ImageGenerator.Generator.UpdateSettings` | src/components/image-generator.tsx:71-73 | the settings are updated and nothing else changes |
| `ImageGenerator.Generator.SeedInputChange` | src/components/image-generator.tsx:307 | an empty input clears the seed; otherwise the seed is `parseInt` of the text |
| `ImageGenerator.Generator.HandleResolutionChange` | src/components/image-generator.tsx:75-81 | width and height follow a known preset; nothing else changes |
| `ImageGenerator.Generator.GenerateImages` | src/components/image-generator.tsx:83-147 | a blank prompt sends nothing; otherwise the whole batch is sent; if any request fails, gallery and storage are unchanged; otherwise the new images go in front of the gallery and of the stored history, and an unparsable stored history leaves storage unchanged |
| `HistorySidebar.FormatTimestamp` | src/components/history-sidebar.tsx:72-83 | the label is "Just now" or a count followed by `m ago`, `h ago` or `d ago` |
| `HistorySidebar.FormatJustNow` | src/components/history-sidebar.tsx:72-79 | "Just now" exactly when less than a minute has passed |
| `HistorySidebar.FormatMinutes` | src/components/history-sidebar.tsx:72-80 | under an hour: the whole minutes `n`, 1 ≤ n < 60, with the elapsed time in `[n, n+1)` minutes, written `<n>m ago` |
| `HistorySidebar.FormatHours` | src/components/history-sidebar.tsx:72-81 | under a day: the whole hours `n`, 1 ≤ n < 24, written `<n>h ago` |
| `HistorySidebar.FormatDays` | src/components/history-sidebar.tsx:72-82 | otherwise the whole days `n` ≥ 1, written `<n>d ago` |
| `HistorySidebar.TruncatePrompt` | src/components/history-sidebar.tsx:85-87 | a prompt within the limit (60 by default) is unchanged; a longer one keeps its first `maxLength` characters followed by "..." |
| `HistorySidebar.ReloadAfterDelete` | src/components/history-sidebar.tsx:52-69 | deleting from the displayed (reversed) list and reversing back gives the stored list with the id removed |
| `HistorySidebar.Sidebar.LoadHistory` | src/components/history-sidebar.tsx:42-59 | a readable stored history is shown newest first (reversed); otherwise the list is kept |
| `HistorySidebar.Sidebar.ClearHistory` | src/components/history-sidebar.tsx:61-64 | the list is emptied and the key removed |
| `HistorySidebar.Sidebar.DeleteItem` | src/components/history-sidebar.tsx:66-70 | the list loses exactly the items with that id and is stored as shown |
| `PromptInput.StyledPrompt` | src/components/prompt-input.tsx:49-56 | a blank prompt becomes the preset; otherwise the trimmed prompt, ", " and the preset |
| `PromptInput.StyledPromptStacks` | src/components/prompt-input.tsx:49-56 | applying two presets appends both, in order, after the trimmed prompt |
| `PromptInput.PromptInputState.constructor` | src/components/prompt-input.tsx:39-40 | empty prompt, default system prompt |
| `PromptInput.PromptInputState.HandleGenerate` | src/components/prompt-input.tsx:43-47 | a call is made exactly when the prompt is not blank, exactly when the button is enabled, with both prompts trimmed |
| `PromptInput.PromptInputState.ApplyStylePreset` | src/components/prompt-input.tsx:49-56 | the prompt becomes the styled prompt; the system prompt is kept |
| `PromptInput.PromptInputState.ApplySuggestion` | src/components/prompt-input.tsx:58-60 | the prompt becomes the suggestion |
| `PromptInput.PromptInputState.ClearPrompt` | src/components/prompt-input.tsx:62-64 | the prompt is emptied and the button is then disabled |
| `PromptInput.GenerateDisabled` | src/components/prompt-input.tsx:168 | the button is disabled while generating, and otherwise exactly when the prompt is blank |
| `PromptInput.TrimOfUntrimmed` | src/components/prompt-input.tsx:50 | trimming text without outer white space changes nothing |
| `SettingsPanel.UpdateSetting` | src/components/settings-panel.tsx:88-96 | exactly the named one of the eleven fields takes the new value |
| `SettingsPanel.UpdateSettingUnchanged` | src/components/settings-panel.tsx:88-96 | moving a slider to the current value leaves the settings as they were |
| `SettingsPanel.ResetToDefaults` | src/components/settings-panel.tsx:98-112 | every field takes its default: FLUX 1.1 Pro, 1024x1024, 1:1, no style, 7.5, 20 steps, no seed, batch 1, the default system prompt, no upscaling or variations |
| `SettingsPanel.ResetIdempotent` | src/components/settings-panel.tsx:98-112 | resetting ignores the previous settings, so resetting twice is resetting once |
| `SettingsPanel.DefaultsWithinControls` | src/components/settings-panel.tsx:35-112 | each default lies on its slider's range and step grid and is one of the listed options |
| `SettingsPanel.SeedInputChange` | src/components/settings-panel.tsx:279 | an empty input clears the seed; the decimal text of a number sets that number |
| `JsText.Trim` | src/components/prompt-input.tsx:44 | the trimmed text sits inside the original with only white space around it, has no white space at either end, and is empty exactly when the text is blank |
| `JsText.NatToString` | src/app/page.tsx:129 | decimal digits without a leading zero |
| `JsText.ParseIntOfNatToString` | src/components/settings-panel.tsx:279 | `parseInt` reads a number's decimal text back, whatever non-digit text follows |
| `JsText.NatToStringInjective` | src/app/page.tsx:129 | different numbers have different decimal texts |
| `JsText.ParseNonEmpty` | src/components/image-generator.tsx:307 | empty text gives no value; other text gives `parseInt` of it |
| `JsText.ParseIntOfBlank` | src/components/settings-panel.tsx:279 | `parseInt` of blank text is NaN |
| `GenerationTypes.StatusText` | src/types/image-generation.ts:19 | a status is written as one of "pending", "completed", "failed" |
| `GenerationTypes.ParseStatus` | src/types/image-generation.ts:19 | only those three texts are statuses |
| `GenerationTypes.StatusTextRoundTrip` | src/types/image-generation.ts:19 | each status reads back as itself, and the three texts differ |
| `GenerationTypes.Gcd` | src/types/image-generation.ts:87-93 | a common divisor that every common divisor divides |
| `GenerationTypes.AspectRatioLabel` | src/types/image-generation.ts:87-93 | the label starts with the width divided by the greatest common divisor of width and height, followed by a colon |
| `GenerationTypes.AspectRatioLabelWidth` | src/types/image-generation.ts:87-93 | `parseInt` of a label reads back the reduced width |
| `GenerationTypes.DefaultAspectRatiosReduced` | src/types/image-generation.ts:87-93 | every default dimension's aspect ratio label is its width and height divided by their greatest common divisor |
| `GenerationTypes.DefaultLabels` | src/types/image-generation.ts:87-93 | the labels 1:1, 3:4, 4:3, 12:5 and 5:12 are the reduced ratios of their sizes |
| `GenerationTypes.StylePresetIdsDistinct` | src/types/image-generation.ts:95-126 | the five style presets have distinct ids |
| `GenerationTypes.DefaultGenerationSettingsValues` | src/types/image-generation.ts:128-134 | the default settings use the square 1024×1024 dimensions, the photorealistic style, 7.5, 50 steps, no seed and batch size 1 |

## Findings

| source | as written | input that shows it | evidently intended | confidence | as-written member | corrected member |
|---|---|---|---|---|---|---|
| src/app/page.tsx:86 | `saveToHistory` is called once per image inside the batch loop. Each call builds `[image, ...history]` from the `history` captured when `generateImage` was created, so each call overwrites the previous one. | a batch of two images `a`, `b` with `a` not already in the history: afterwards the history (and `localStorage`) is `[b, ...history]`, and `a` is lost | every image of the batch is saved, newest first: `[b, a, ...history]`, capped at 50 | not executed | `HomePage.StaleBatchHistory`, `HomePage.StaleClosureDropsEarlierImages` | `HomePage.ThreadedHistory`, `HomePage.ThreadedHistoryShape`, used by `HomePage.Page.SendBatch` |

## Left out

- Network, headers and credentials: `fetch` to the provider and to `/api/generate`, request headers, and the customer id and bearer token. Each call's outcome is a parameter: rejected, or a reply with status, `ok` and a parsed body.
- JSON: parsing and serialisation are not modelled. A stored value is either a list or unparsable text (`Slot.Malformed`). A field of a request body, a provider reply or an `/api/generate` reply (the `imageUrl` that `HomePage` and `ImageGenerator` store) that the source only tests for truthiness or passes on is a `JsValue`: missing, a string, or another value with its truthiness and its interpolated text. Fields the source uses as numbers, lists or objects keep those types.
- `HistoryRoute.HistoryStore.Post`: the `settings` field is either missing (and `settings || {}` gives the empty object) or an object; a value of another type, which `||` would keep or replace depending on its truthiness, is not modelled.
- `Date` objects: the model does not revive timestamps through `new Date(...)`. `toISOString` is a parameter (`createdAt`, `now`).
- Clock readings: `HomePage` and `ImageGenerator` read the clock separately for the id (`Date.now()`) and the timestamp (`new Date()`) (page.tsx:129 and 132, image-generator.tsx:126 and 129). The model uses one reading for both, so it does not capture an id and a timestamp that straddle a millisecond. The history route's two readings are separate parameters.
- `HistorySidebar.TruncatePrompt`: lengths are counted in characters (code points), while JavaScript's `length` and `substring` count UTF-16 code units. A prompt with characters outside the Basic Multilingual Plane (emoji, for example) is therefore truncated later than in the source, and the source can split a surrogate pair, which a Dafny `char` cannot hold.
- Progress, toasts and `isGenerating`: the progress timer, toasts, the `isGenerating` flag and `finally` blocks only drive the display. The `disabled` state of the generate button is modelled (`PromptInput.GenerateDisabled`).
- Random values: the random suffix of history ids is a parameter. The settings panel's random-seed button is not modelled.
- `GenerateRoute.Post`: the body of the 500 reply for a thrown error does not carry the exception message. `details` is a fixed value (`InternalError`).
- The `GET` handler of `/api/generate` (route.ts:108-126) returns a fixed description of the API and is not modelled.
- The `catch` of the history route's `GET` and `DELETE`: they cannot be reached in the model, because the in-memory list is always readable.
- `ImageGenerator.Generator.GenerateImages`:
  - the requests are sent concurrently and `Promise.all` rejects with whichever failure settles first, so which error message is shown is not modelled;
  - only "some request failed" versus "all succeeded" is.
- Numbers:
  - NaN as a request field is not modelled, so `||` treats only zero and a missing field as falsy;
  - guidance values are `real`;
  - sizes, steps and seeds are unbounded integers, so the precision limit of JavaScript numbers is not modelled.
- Empty stored text: `localStorage` holding the empty string (which the source reads as "no history") is not distinguished from a missing key.
- The batch-count `<select>` and its `parseInt`: the model keeps `batchCount` as a natural number. The JSX layout, the image gallery (src/components/image-gallery.tsx) and `downloadImage` are display code and are not modelled.
- Item types under one key: the api client and the history sidebar share the `image-generation-history` key with different item types. Each module keeps its own item type.
- `ApiClient.STYLE_PRESETS` and `ApiClient.RESOLUTION_PRESETS` (api-client.ts:120-153) are exported constants that no modelled operation reads, so they are not modelled.
- `ApiClient.GetHistory`, `ApiClient.SaveToHistory`, `ApiClient.DeleteFromHistory`, `ApiClient.ClearHistory`: these are `async` in the source. They are modelled as synchronous, since nothing else runs between their steps.
