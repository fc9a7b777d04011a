# PollGen in Dafny

PollGen is a browser front end for the Pollinations image service. The user enters an
API key, a prompt and generation options. The page then requests an image and offers it
for download. Most of js/app.js is DOM and network glue. This project models the
deterministic rules inside it, and the translation table of js/i18n.js, and proves what
those rules promise.

What is modelled:

- **API key state** (`App.AppState`). The key in use and the session storage are fields.
  `saveApiKey`, `loadApiKey` and `validateApiKey` are methods that trim keys, refuse
  blank ones and update storage. The class keeps an invariant: a key in use is never
  blank and never has surrounding whitespace.
- **Model list** (`ModelCatalog`). This is the image-model filter of `fetchModelsFromAPI`
  and the 24-hour freshness rule of `getCachedModels`. The clock is a parameter.
- **Query construction** (`Query`). `generateImage` appends query parameters to a list in
  a fixed order. The method `BuildParams` keeps those appends and is proved equal to the
  specification function `QueryParams`. The order, truthiness and flag value of every
  parameter are proved about that function.
- **Form reading** (`FormInput`). This covers `collectPayload` with its width, height,
  seed, text and checkbox rules, and the preset table of
  `updateDimensionsFromAspectRatio`.
- **Submission** (`App`). The submit handler checks, in order: the key, the prompt, the
  model, the dimensions. The first failing check decides the status message. When all
  checks pass, the request is built.
- **Download name** (`App.DownloadExtension`). This is the file extension taken from the
  response's content type.
- **Translations** (`Localization`). This covers the English table, `I18n.t` with its
  fallback to the key, and the fixed current language.

JavaScript's `String.prototype.trim` and `split` are modelled in `JsStrings`. Trim
removes the ECMAScript white-space and line-terminator characters.

Modelling choices:

- Numbers are unbounded integers. An optional number field holds what `Number(...)`
  produced, and None stands for NaN.
- The timestamp `getCachedModels` reads is `Missing`, `NotANumber` or a number of
  milliseconds.
- Query values stay abstract: a number or a text.
- The i18n object is a value, because nothing in js/i18n.js writes to it after
  construction. So `t` and `getCurrentLanguage` cannot change it.

The content-type rule follows the code. The code takes `split('/')[1]`, the piece between
the first `/` and the second. So for `a/b/c` the extension is `b`, not `b/c`.
`App.ExtensionOfMediaType` states this case alongside the `;`-parameter case.

## Model

| member | source | states |
|---|---|---|
| Localization.CreateI18n | js/i18n.js:50-54 | a new I18n has current language "en" (what `getCurrentLanguage` returns) and the translations table |
| Localization.TranslationTable | js/i18n.js:6-48 | the `translations` table holds one language, "en", whose table is the English one, and no English entry is empty |
| Localization.I18n.GetCurrentLanguage | js/i18n.js:78-80 | the returned language is the one whose table `t` reads: every result of `t` is the key or that table's entry for it; for the page's object it is "en" (`CreateI18n`) |
| Localization.I18n.T | js/i18n.js:56-63 | the result is the key itself or a non-empty entry of the current language's table; a non-empty key never yields "" |
| Localization.TranslationFound | js/i18n.js:56-62 | with a non-empty entry for the key in the current language, `t` returns that entry |
| Localization.TranslationFallsBack | js/i18n.js:57-61 | a missing or empty entry makes `t` return the key |
| Localization.UnknownLanguageFallsBack | js/i18n.js:57 | a language without a table makes `t` return the key |
| Localization.DefaultFallsBackIffMissing | js/i18n.js:6-48 | for the default object, `t` returns the English entry when the key is in the table and the key itself otherwise (the table has no empty entry) |
| Localization.ApiKeyMissingMessage | js/i18n.js:17 | `t('apiKeyMissing')` is "Please enter your API key" |
| Localization.PromptMissingMessage | js/i18n.js:34 | `t('statusPromptMissing')` is "Please enter a prompt" |
| Localization.ModelMissingMessage | js/i18n.js:35 | `t('statusModelMissing')` is "Please select a model" |
| Localization.DimensionsMissingMessage | js/app.js:677 | `statusDimensionsMissing` has no entry, so its message is the key string itself |
| ModelCatalog.IsImageModel | js/app.js:165-166 | a model passes the filter's test only when its `output_modalities` is present, includes "image" and does not include "video" |
| ModelCatalog.ImageModels | js/app.js:164-167 | the filter's result is no longer than its input and holds only input models that output images and not video |
| ModelCatalog.ImageModelsKeepsEveryImageModel | js/app.js:164-167 | every image model of the input is kept |
| ModelCatalog.ImageModelsIsSubsequence | js/app.js:164-167 | the result is a subsequence of the input, so relative order is kept |
| ModelCatalog.ImageModelsCounts | js/app.js:164-167 | each copy of an image model is kept and each copy of any other model is dropped (multiset counts) |
| ModelCatalog.MissingModalitiesExcluded | js/app.js:165 | a model with missing or empty `output_modalities` is not an image model |
| ModelCatalog.ImageModelsIdempotent | js/app.js:164-167 | filtering twice equals filtering once |
| ModelCatalog.CachedModels | js/app.js:180-200 | the cached text is returned exactly when both entries are present and non-empty and the age is not above the duration; a NaN age never expires |
| ModelCatalog.CacheBoundary | js/app.js:153-193 | an age of exactly 86 400 000 ms (24 hours) is still fresh; at 86 400 001 ms the cache has expired |
| ModelCatalog.CacheExpiryIsMonotone | js/app.js:189-193 | a cache fresh at some time was fresh, with the same result, at every earlier time |
| Query.BuildParams | js/app.js:317-330 | the appended parameter list equals `QueryParams(p)` |
| Query.AppendLeading | js/app.js:318-321 | appends the model, width, height and seed pairs, each present only when truthy, in that order |
| Query.AppendTexts | js/app.js:322-324 | appends the guidance_scale, negative_prompt and quality pairs, each present only when truthy, in that order |
| Query.AppendFlags | js/app.js:325-330 | appends the six flag pairs, each present only when the flag is set, in that order |
| Query.QueryParamsUnrolled | js/app.js:317-330 | the query is the concatenation of the thirteen fields' contributions in source order |
| Query.QueryParamsCharacterised | js/app.js:317-330 | every pair comes from a truthy field with that field's value; names appear in strictly increasing source order; every truthy field appears |
| Query.TruthyFieldSent | js/app.js:317-330 | a field whose value is truthy is sent under its name with that value |
| Query.FlagsSendTrue | js/app.js:325-330 | a flag's pair is in the query exactly when the flag is set, and its value is always "true" |
| Query.SeedZeroOmitted | js/app.js:321 | a seed of 0 sends no seed pair; a non-zero seed sends its value |
| FormInput.PositiveOnly | js/app.js:367-375 | a width or height is kept exactly when it is a number greater than 0, and then unchanged |
| FormInput.NonEmptyOnly | js/app.js:387-395 | a text option is kept exactly when it is not empty |
| FormInput.CheckedMembers | js/app.js:398-403 | after visiting a list of flags, a flag is set exactly when it was visited and its checkbox exists and is checked |
| FormInput.CollectPayload | js/app.js:356-406 | the payload built step by step equals `PayloadOf(form)`, and a missing form gives the empty payload |
| FormInput.CollectFlags | js/app.js:398-403 | the loop over the six flags sets exactly the checked ones |
| FormInput.PayloadFlags | js/app.js:398-403 | a flag is in the payload exactly when its checkbox exists and is checked |
| FormInput.PayloadNumbers | js/app.js:367-385 | width and height are present exactly when greater than 0; seed and guidance scale are kept whenever they are numbers, 0 included |
| FormInput.PayloadTexts | js/app.js:362-390 | the prompt and negative prompt are trimmed; the negative prompt is dropped exactly when it is blank |
| FormInput.FindPreset | js/app.js:524 | a found preset is in the table and has the requested label; no preset means no entry has that label |
| FormInput.ApplyAspectRatio | js/app.js:497-528 | choosing an aspect ratio changes at most the width and height inputs |
| FormInput.PresetsMatchTheirLabels | js/app.js:508-517 | every preset's width:height equals the ratio written beside its label, and both are positive |
| FormInput.PresetLabelsDistinct | js/app.js:507-518 | the `ratios` table, modelled as `Presets`, has ten entries; their labels are distinct and none is "custom" |
| FormInput.FindPresetUnique | js/app.js:524 | with distinct labels the lookup returns the entry with the given label |
| FormInput.ApplyAspectRatioPreset | js/app.js:524-527 | a known label sets the width and height to its entry's size |
| FormInput.ApplyAspectRatioOther | js/app.js:520-527 | "custom" and any label not in the table leave the form unchanged |
| FormInput.PresetReachesPayload | js/app.js:367-375 | after a preset is chosen, the payload's width and height are the preset's |
| JsStrings.Trim | js/app.js:362 | the result has no surrounding white space, is no longer than the input, and is empty exactly when the input is all white space |
| JsStrings.TrimOfPadded | js/app.js:362 | trimming a trimmed text padded with white space gives the text back |
| JsStrings.TrimOfTrimmed | js/app.js:128 | a string with no surrounding white space is its own trim |
| JsStrings.TrimIdempotent | js/app.js:128 | trimming twice equals trimming once |
| JsStrings.Split | js/app.js:486 | there is at least one piece and no piece holds the separator |
| JsStrings.JoinSplit | js/app.js:486 | joining the pieces with the separator gives back the string |
| JsStrings.SplitJoin | js/app.js:486 | splitting a join of separator-free pieces gives back the pieces |
| App.SaveThenLoad | js/app.js:115-132 | a key written by `saveApiKey` is the key a later `loadApiKey` restores |
| App.LoadedKeyIsTrimmed | js/app.js:115-122 | a restored key is trimmed and non-empty; nothing is restored exactly when the saved value is missing or blank |
| App.FirstFailure | js/app.js:657-679 | the result is a failing check with every earlier check passing; None exactly when all checks pass |
| App.SubmitWithoutKey | js/app.js:657-662 | with no key in use and a blank or missing key input, submission stops at the key check with "Please enter your API key" |
| App.SubmitBlankPrompt | js/app.js:668-671 | with a key and a blank prompt, submission stops at the prompt check with "Please enter a prompt" |
| App.DecideSent | js/app.js:665-685 | a sent request has the key in its header, a non-empty prompt, and model, width and height pairs in its query |
| App.SubmittedRequest | js/app.js:665-685 | a request is sent only for a non-blank prompt, a model, and width and height greater than 0, all of which reach the query |
| App.DownloadExtension | js/app.js:486 | the extension is non-empty and holds neither `/` nor `;` |
| App.DownloadName | js/app.js:485-488 | a download name is set exactly when the content type is a non-empty string, and it is "pollinations-image." plus the extension |
| App.ExtensionOfMediaType | js/app.js:486 | for `type/subtype` followed by nothing, by `;…` or by `/…`, the extension is the subtype |
| App.ExtensionOfEmptySubtype | js/app.js:486 | an empty subtype gives "png" |
| App.ExtensionWithoutSlash | js/app.js:486 | a content type without `/` gives "png" |
| App.DownloadNameOfMediaType | js/app.js:486-487 | the download name of `type/subtype…` is "pollinations-image." plus the subtype |
| App.AppState.constructor | js/app.js:10-15 | the page starts with no key in use and the session storage it finds |
| App.AppState.LoadApiKey | js/app.js:115-122 | returns true exactly when the saved value is not blank, then uses its trimmed form; otherwise the key is unchanged; storage is never written |
| App.AppState.SaveApiKey | js/app.js:124-132 | a blank key returns false and changes nothing; any other key is trimmed, stored in the session and put in use, and true is returned |
| App.AppState.ValidateApiKey | js/app.js:134-145 | a non-blank input value is saved trimmed and true is returned; a missing or blank input changes nothing and returns false |
| App.AppState.GenerateRequest | js/app.js:310-337 | without a key it fails with the `apiKeyMissing` message; otherwise the request carries the prompt, `QueryParams(p)` and "Bearer " plus the key |
| App.AppState.EnsureApiKey | js/app.js:657-663 | reads the key input only when no key is in use; ends with the key and storage `KeyAfterValidation` and `SessionAfterValidation` give, reporting whether a key is in use |
| App.AppState.SubmitPayload | js/app.js:665-685 | with a key in use, the outcome is the first failing payload check, or the request when all pass |
| App.AppState.Submit | js/app.js:653-693 | the outcome is `SubmitOutcome` of the key before submission, the key input and the form; the status line is the rejection's message, or empty when the request is sent |

## Left out

- DOM work is not modelled: `setStatus` beyond the final status line, `toggleLoading`, the image modal, `updatePageLanguage` and the event-listener wiring. This is UI code with no rule to state. The form's inputs are a `Form` value, and a missing form is None.
- Network calls and foreign code are not modelled: `fetch`, reading the response, `URL.createObjectURL`, `updateBalance`, `loadModels` and `renderModelOptions`. These are I/O. `Submit` ends at the built request, and an error thrown by the request itself is not modelled.
- Floating-point code is not modelled: `formatBalanceDisplay`, `formatModelPrice` and the price sort.
- Number conversion is not modelled. `Number(...)` and `parseInt` are parameters of the model: a `Form` number is what `Number` returned, and a `Timestamp` is what `parseInt` returned. Fractional widths, seeds and guidance scales are outside the integer model.
- `encodeURIComponent`, `URLSearchParams.toString` and `JSON.parse`/`JSON.stringify` are not modelled. The prompt path and the query stay an unencoded string and a list of pairs. `CachedModels` returns the cached text rather than its parse, and a parse error is not modelled.
- Logging is not modelled: the `console.warn` for a missing translation in `t` (js/i18n.js:59) and the `console.error` calls in `fetchModelsFromAPI` (js/app.js:175) and `getCachedModels` (js/app.js:197). They have no effect on any result.
- `Date.now()` is not modelled. "Now" is a parameter, and so is the time written with the cache.
- Language switching is not modelled. `i18n.setLanguage` is called at js/app.js:589, but neither js/i18n.js nor js/app.js defines it, so in the model the current language stays "en".
- Localization.I18n.T: only the table's own keys are modelled. A key naming an `Object.prototype` member (`toString`, `constructor`, `__proto__`, …) reads an inherited, truthy value in JavaScript, which `t` returns; the model returns the key.
- Localization.TranslationFallsBack: states the fallback for every key without an own entry; for `Object.prototype` member names the source returns the inherited member instead, which the model does not capture.
- Localization.DefaultFallsBackIffMissing: likewise covers only the table's own keys; `Object.prototype` member names are not modelled. No call site in js/app.js passes such a key.
- The `ratios` object is modelled as a list of its ten entries. Keys inherited from `Object.prototype` are not modelled.
- The key input's `input` handler (js/app.js:623-646) is not modelled; it lies outside the modelled operations. It saves the typed key, or clears the key in use when the input is blank.
- The status "API key saved" set by `validateApiKey` is not modelled. Any submission overwrites it before it returns.
- Query.BuildParams: the thirteen appends of `generateImage` are split across three helper methods, each keeping its lines of the source in order. This is only to keep each proof small.
