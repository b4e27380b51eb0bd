# AI wallpaper generator — a verified model

The application takes a text prompt, asks an image-generation SDK for four
9:16 phone wallpapers, shows them in a grid, and opens one in a full-screen
viewer from which it can be downloaded or "remixed" (its prompt copied back
into the input). This project models the parts of it that are logic rather
than rendering:

- `gemini_service.dfy` (module `GeminiService`): the service layer —
  choosing the API key (manual key, else the environment key, else an
  error), the key probe, the prompt augmented with a fixed style suffix, and
  the mapping of the SDK response to `data:image/jpeg;base64,…` URLs. The
  SDK calls are function parameters from a client and a request to a
  response or the error thrown; the environment key is a parameter.
- `app.dfy` (module `App`): the component's five state fields (`prompt`,
  `images`, `isLoading`, `error`, `selectedImage`) as the class
  `AppState`, with one method per handler. Generation is a guarded start
  step and two completion steps (URLs or error), and `HandleGenerate`
  composes them with `GenerateWallpapers`. The object invariant `Valid()`
  (a request in flight has no images and no error; a shown error is
  non-empty and comes with no images; image ids are pairwise distinct) is
  kept by every handler. `Date.now()` is a parameter `now: nat -> nat`
  giving the reading taken in the `map` callback for each index, because
  the source reads the clock once per image.
- `full_screen_modal.dfy` (module `FullScreenModal`): the download file
  name `ai_wallpaper_<name>.jpg`, where `<name>` is the prompt with every
  code unit outside `[A-Za-z0-9]` replaced by `_`, lower-cased and cut to
  30 code units; and the prompt the remix button passes on.
- `utf16_text.dfy` (module `Utf16Text`): JavaScript strings as sequences
  of UTF-16 code units (a JavaScript string may hold lone surrogates, which
  Dafny's `char` cannot), and the decimal rendering of numbers used in
  image ids, with its inverse.
- `types.dfy`, `wrappers.dfy`: the `ImageResult` record, and
  `Option`/`Result` for `null`/`undefined` and thrown errors.

The regular expression `/[^a-z0-9]/gi` has no `u` flag, so it works per
code unit, and its case-insensitive matching never folds a non-ASCII code
unit onto an ASCII letter: the class it negates is exactly `[A-Za-z0-9]`.
After the replacement only ASCII remains, so `toLowerCase` is modelled on
ASCII alone and the name keeps its length.

Image ids are `${Date.now()}-${index}`. They are distinct within a batch
whatever the clock returns: digits contain no hyphen, so an id splits
uniquely at its hyphen and the index part tells two ids apart
(`App.ImageIdInjective`, `App.NewImages`).

## Model

| member | source | states |
|---|---|---|
| `GeminiService.GetClient` | services/geminiService.ts:12-18 | A non-empty manual key is used whatever the environment key is; a missing or empty manual key falls back to a non-empty environment key; creation fails exactly when neither is non-empty, with the "API key not found" error; a created client never has an empty key |
| `GeminiService.TestApiKey` | services/geminiService.ts:25-39 | Returns only `true`; succeeds exactly when a client can be made and the probe call succeeds; otherwise the key error or the probe's own error is passed on unchanged |
| `GeminiService.WallpaperPrompt` | services/geminiService.ts:53 | The sent prompt is the user's prompt followed by `, phone wallpaper, vertical, high detail, cinematic lighting`, with lengths adding up |
| `GeminiService.UserPrompt` | services/geminiService.ts:53 | A sent text yields a user prompt exactly when it ends with the style suffix, and that prompt augments back to the sent text |
| `GeminiService.WallpaperPromptRoundTrip` | services/geminiService.ts:53 | The user's prompt is recovered from the sent prompt, so distinct prompts are sent distinctly |
| `GeminiService.WallpaperRequest` | services/geminiService.ts:51-59 | The request names the `imagen-4.0-generate-001` model, asks for 4 images as `image/jpeg` at `9:16`, and carries the augmented prompt, from which the user's prompt is recovered |
| `GeminiService.DataUrl` | services/geminiService.ts:62 | A data URL is the JPEG data-URL prefix followed by exactly the image bytes |
| `GeminiService.ImageBytes` | services/geminiService.ts:62 | A payload is read out exactly when the text starts with the JPEG data-URL prefix, and it rebuilds that URL |
| `GeminiService.DataUrls` | services/geminiService.ts:62 | One URL per generated image, and URL i is the JPEG data-URL prefix followed by image i's bytes |
| `GeminiService.ResponseUrls` | services/geminiService.ts:61-65 | The URL list has as many entries as `generatedImages` (none when it is absent or empty, without an error), each carrying the matching image's bytes |
| `GeminiService.GenerateWallpapers` | services/geminiService.ts:47-71 | With no usable key the key error is raised; otherwise an SDK error propagates unchanged and a response becomes one data URL per generated image, in order |
| `Utf16Text.Decimal` | App.tsx:30 | A number renders as a non-empty string of decimal digits with no leading zero |
| `Utf16Text.DecimalRoundTrip` | App.tsx:30 | Reading the digits of a rendered number gives the number back |
| `Utf16Text.DecimalInjective` | App.tsx:30 | Two numbers render alike exactly when they are equal |
| `App.ImageId` | App.tsx:30 | An id is the clock reading's digits, one hyphen, then the index's digits; the hyphen is the only one and sits right after the reading |
| `App.ImageIdInjective` | App.tsx:30 | Two ids `stamp-index` are equal exactly when both their clock readings and their indexes are equal |
| `App.NewImages` | App.tsx:29-33 | One image per URL, image i has id `now(i)-i`, URL i and the prompt of the call, and the ids of the batch are pairwise distinct |
| `App.ErrorMessage` | App.tsx:36 | The shown message is never empty: the error's message when it has one, the fixed default message otherwise |
| `App.AppState.constructor` | App.tsx:11-15 | Initial state: the default prompt, no images, not loading, no error, no selected image |
| `App.AppState.HandlePromptChange` | App.tsx:70 | The prompt becomes the edited text; nothing else changes |
| `App.AppState.Begin` | App.tsx:21-25 | The request starts exactly when the prompt is non-empty and none is in flight; if not, nothing changes; if so, loading is set, the error cleared, the images emptied, and prompt and selection are kept |
| `App.AppState.CompleteWithUrls` | App.tsx:27-39 | Loading ends with no error; the images are the batch built from the URLs (as many images as URLs, image i with id `now(i)-i`, URL i and the prompt of the call); prompt and selection are kept |
| `App.AppState.CompleteWithError` | App.tsx:35-39 | Loading ends, the images stay empty, and the error shown is the error's message or the default one; prompt and selection are kept |
| `App.AppState.HandleGenerate` | App.tsx:20-40 | The guard leaves every field unchanged; otherwise, after the call, loading is off, prompt and selection are kept, and either the images are the batch built from the service's URLs with the prompt of the call, or they are empty and the error's message is shown |
| `App.AppState.HandleImageClick` | App.tsx:42-44 | The selected image becomes the clicked one; no other field changes |
| `App.AppState.HandleCloseModal` | App.tsx:46-48 | No image is selected; no other field changes |
| `App.AppState.HandleRemix` | App.tsx:50-54 | The prompt becomes the remix prompt and the selection is cleared; images, error and loading are unchanged |
| `App.AppState.RemixFromModal` | App.tsx:100-104 | The remix button of the modal sets the prompt to the shown image's stored prompt and closes the modal; with no image shown nothing changes |
| `FullScreenModal.RemixPrompt` | components/FullScreenModal.tsx:47 | The remix argument is present exactly when an image is shown, and is that image's stored prompt, unchanged |
| `FullScreenModal.ReplaceNonAlnum` | components/FullScreenModal.tsx:21 | Same length; ASCII letters and digits are kept, every other code unit becomes `_` |
| `FullScreenModal.ToLowerAscii` | components/FullScreenModal.tsx:21 | Same length; capitals become their small letters, every other code unit is kept |
| `FullScreenModal.Substring` | components/FullScreenModal.tsx:21 | The result is the first `min(n, length)` code units |
| `FullScreenModal.SanitizedName` | components/FullScreenModal.tsx:21 | Length `min(30, prompt length)`; every code unit is in `[a-z0-9_]`; position by position, a capital maps to its small letter, a small letter or digit to itself, anything else (spaces, Hangul, surrogate halves) to `_` |
| `FullScreenModal.SanitizedNameIdempotent` | components/FullScreenModal.tsx:21 | Sanitising an already sanitised name returns it unchanged |
| `FullScreenModal.DownloadFileName` | components/FullScreenModal.tsx:22 | The file name starts with `ai_wallpaper_`, ends with `.jpg`, has length `13 + min(30, prompt length) + 4`, and everything between is exactly the sanitised name |

## Left out

- The SDK (`generateImages`, `generateContent`) and the network: each call is a parameter returning a response or the error it throws; the request sent (`WallpaperRequest`) is modelled, the service's behaviour is not.
- `process.env.API_KEY` and `Date.now()`: parameters (`envKey`, `now`) instead of the environment and the clock; `now` is a natural number, so negative clock values and JavaScript's exponent notation for numbers of 1e21 and above are not modelled.
- `GeminiService.GeneratedImage`: keeps only `image.imageBytes` as text; an element whose `image` or `imageBytes` is missing (a `TypeError`, or the text `undefined` in the URL) is not modelled.
- `FullScreenModal.ToLowerAscii`: lower-cases ASCII only; `toLowerCase` on other code units is not modelled, because its only input here has passed the replacement and is ASCII.
- `App.ErrorMessage`: a thrown value is taken to be an error with a text message; a thrown non-error whose `message` is `undefined` is the empty-message case.
- The asynchronous interleaving of `await` and React re-renders: each handler is one atomic step, and the two completion steps require a request in flight because they only run after the start step. The prompt captured at call time is an argument of `CompleteWithUrls`.
- `console.error` logging, the DOM work of the download (creating, clicking and removing the anchor), `scrollIntoView`, click propagation, JSX markup and styling.
- components/Loader.tsx (a timer rotating display strings) and components/ImageGrid.tsx (rendering of the list, nothing when it is empty) are not part of this model; types.ts is not part of this model beyond the `ImageResult` fields the core uses.
