# Re-Image-Face, modelled in Dafny

Re-Image-Face is a browser application. The user uploads a portrait and picks
one of 18 headshot styles, or a saved mix of styles (a *custom preset*), plus
a background. The application asks an image model for a professional
headshot and keeps every result in a history stored in the browser's
IndexedDB database.

This project models the application's core as verified Dafny:

- `types.dfy` — the records and enumerations: styles, backgrounds, the
  generation record, projects, presets and the user profile. It also holds
  JavaScript truthiness for optional values.
- `constants.dfy` — the style table and the background table, and the
  `find` lookup over the background list.
- `text.dfy` — `String.prototype.trim` (ECMAScript white space and line
  terminators) and `Array.prototype.join`.
- `styleset.dfy` — the insertion-ordered JavaScript `Set` of styles that both
  selection dialogs keep, with its delete, add and toggle operations.
- `geminiservice.dfy` — the parts of the image-model client that are not
  network I/O:
  - the resize rule;
  - the data-URL split (the regular expression and its fallback prefix strip);
  - the API-key guard of the three entry points;
  - the unwrapping of a response into an image data URL or an error.
- `db.dfy` — the three object stores as a `Database` class. Projects live
  under auto-increment keys and are listed newest first. Presets live under
  their string ids and are listed by descending id. The user profile is
  created on first read.
- `creditcontext.dfy` — the credit provider. It holds the profile in memory
  and writes every change through to the store.
- `app.dfy` — the page component:
  - the prompt it builds from the selected style or preset and the background;
  - the transitions of its generation record;
  - the five-click admin toggle;
  - every handler, as methods of a `Page` class.
- `downloadoptions.dfy` — the export panel:
  - the quality slider;
  - the choice between handing over the original bytes and re-encoding through a canvas;
  - the canvas size and the file names;
  - the busy flag that disables the buttons.
- `comparisonslider.dfy` — the before/after slider, with its zoom and pan state.
- `presetbuilder.dfy` and `stylecomparisonmodal.dfy` — the two dialogs that
  select several styles.

A component whose state the source updates in place is a class whose methods
change exactly the fields they name:

- the page;
- the database;
- the credit provider;
- the dialogs;
- the slider;
- the download panel.

Pure computations are functions, and the properties that relate several of
them are lemmas. Asynchronous calls are modelled as completing in order.
Remote answers are parameters:
- the API key and the parts of the model's response;
- a rejection on the way to the response (the photo failing to load or to
  get a canvas while it is resized, or the request failing), with its message;
- the loaded image size;
- the clock;
- the generated UUID.

Behaviour worth noting:

- Presets come back by descending id, not newest first. `getPresets`
  reverses `getAll`, which lists by ascending key, and the keys are random
  UUIDs. So the preset that `loadPresets` selects after a save is the one
  with the greatest id. It is not necessarily the one just saved.
- `GRADIENT_LUX` is a background id without an entry in the background list.
  Choosing it adds no background clause to the prompt.
- The preset dialog's save button needs two styles, but its handler accepts
  one.

## Model

| member | source | states |
|---|---|---|
| Types.Ordinal | types.ts:2-21 | each style has a position in the declaration-ordered list of all 18 styles, and the list holds it there |
| Types.AllStylesComplete | types.ts:2-21 | every style is in the list of all styles |
| Types.OrdinalOfListed | types.ts:2-21 | the style at position i has ordinal i, so the list repeats no style |
| Constants.Style | constants.ts:6-132 | `STYLES[s]` is filed under its own id `s` and has a non-empty title and a non-empty prompt modifier |
| Constants.FirstBackgroundIndex | App.tsx:169 | the index of the first entry with the id; no earlier entry has it; None only when no entry has it |
| Constants.FindBackground | App.tsx:169 | `BACKGROUNDS.find` returns a listed entry with that id, or None only when no entry carries it |
| Constants.BackgroundIdsDistinct | constants.ts:135-220 | no two background entries share an id |
| Constants.OriginalBackgroundIsEmpty | constants.ts:136-141 | ORIGINAL is the first entry, and its prompt modifier is empty |
| Constants.GradientLuxIsMissing | types.ts:34 | GRADIENT_LUX is declared but has no entry, so `find` returns nothing |
| Constants.OtherBackgroundsAreListed | constants.ts:135-220 | every background id other than GRADIENT_LUX has an entry |
| Constants.ListedBackgroundsHaveModifiers | constants.ts:142-219 | every listed entry other than ORIGINAL has a non-empty prompt modifier |
| Text.TrimStart | components/PresetBuilder.tsx:31 | the result is a suffix of the input; everything removed is trimmable white space; the result does not start with trimmable white space |
| Text.TrimEnd | components/PresetBuilder.tsx:31 | the result is a prefix of the input; everything removed is trimmable white space; the result does not end with trimmable white space |
| Text.TrimEmptyIffBlank | components/PresetBuilder.tsx:31 | `name.trim()` is falsy exactly when every character of the name is white space |
| Text.Trim | components/PresetBuilder.tsx:31 | `trim` as TrimEnd after TrimStart; TrimEmptyIffBlank states when it is empty |
| Text.Join | App.tsx:158-159 | `Array.prototype.join`; JoinTwo states it for two parts |
| Text.JoinTwo | App.tsx:158-159 | joining two parts puts exactly one separator between them |
| StyleSet.Delete | components/PresetBuilder.tsx:23 | `set.delete(x)` keeps exactly the other elements, introduces no duplicate, and changes nothing when x is absent |
| StyleSet.Add | components/PresetBuilder.tsx:25 | `set.add(x)` holds exactly the old elements and x, without duplicates |
| StyleSet.Toggle | components/PresetBuilder.tsx:20-28 | x is present afterwards exactly when it was absent before; every other style keeps its membership; no duplicates appear |
| StyleSet.DeleteAppended | components/PresetBuilder.tsx:20-28 | deleting an element that was just added gives back the set it was added to |
| StyleSet.ToggleTwice | components/StyleComparisonModal.tsx:31-39 | toggling twice restores membership; when x was absent the sequence comes back; when x was present it moves to the end of the insertion order |
| StyleSet.DeleteSize | components/StyleComparisonModal.tsx:34 | deleting a present element of a duplicate-free set shrinks it by one |
| GeminiService.ResizeDimensions | services/geminiService.ts:20-29 | an image wider than the maximum is scaled to exactly that width with its aspect ratio kept; any other image keeps its size; neither side grows |
| GeminiService.MimeRun | services/geminiService.ts:72 | the length of the longest `[a-zA-Z+]` prefix |
| GeminiService.MatchDataUrl | services/geminiService.ts:72 | a match gives a MIME type `image/` followed by `[a-zA-Z+]+` and a non-empty payload without line breaks, which reassemble into the input |
| GeminiService.Reassemble | services/geminiService.ts:72-75 | cutting a matched URL at the end of its MIME type and rejoining the groups gives the URL back |
| GeminiService.MimeRunOfSubtype | services/geminiService.ts:72 | the `[a-zA-Z+]` run of a subtype followed by `;` ends exactly at the `;` |
| GeminiService.MatchDataUrlComplete | services/geminiService.ts:72 | every URL of the expression's outline matches exactly when its payload is non-empty and has no line break, and the groups are its parts |
| GeminiService.StripKnownPrefix | services/geminiService.ts:77 | one of the png/jpeg/jpg/webp base64 prefixes is removed when present; otherwise the input comes back unchanged |
| GeminiService.SplitDataUrl | services/geminiService.ts:67-78 | with a match, the MIME type and payload rebuild the URL; without one, the MIME type is `image/jpeg` and the data is the prefix-stripped input |
| GeminiService.SplitJpegDataUrl | services/geminiService.ts:67-78 | every non-empty payload behind the JPEG prefix splits back into `image/jpeg` and that payload, through either branch |
| GeminiService.JpegUrlOutline | services/geminiService.ts:72 | a JPEG data URL matches exactly when its payload has no line break |
| GeminiService.JpegPrefixStripped | services/geminiService.ts:77 | the fallback strip removes exactly the JPEG prefix |
| GeminiService.HeadshotImagePart | services/geminiService.ts:57-77 | `generateHeadshot` fails with the Vercel-settings message exactly when the key is missing, and otherwise sends the split image |
| GeminiService.VeoPromptImagePart | services/geminiService.ts:135-147 | `generateVeoPrompt` fails with the missing-key message exactly when the key is missing, and otherwise sends the split image |
| GeminiService.VideoImagePart | services/geminiService.ts:178-190 | `generateHeadshotVideo` repeats the guard of VeoPromptImagePart: it fails with the missing-key message exactly when the key is missing, and otherwise sends the split image |
| GeminiService.FirstImagePart | services/geminiService.ts:109-113 | the index of the first part carrying image data; no part before it carries any |
| GeminiService.FirstTextPart | services/geminiService.ts:116-121 | the index of the first part carrying text; no part before it carries any |
| GeminiService.Unwrapped | services/geminiService.ts:106-124 | the outcome of the two loops; UnwrapResponse is proved equal to it, and ImagePartWins, TextPartBecomesError and UnwrapThenSplit state it |
| GeminiService.UnwrapResponse | services/geminiService.ts:106-124 | the two loops return the first image part behind the JPEG prefix, otherwise fail with the first text, otherwise fail with the fixed no-image error |
| GeminiService.ImagePartWins | services/geminiService.ts:109-113 | the first image part is returned, as a JPEG data URL, whatever text parts come before it |
| GeminiService.TextPartBecomesError | services/geminiService.ts:116-124 | without an image part, the first text part is the error; with neither, the fixed message is |
| GeminiService.UnwrapThenSplit | services/geminiService.ts:110-111 | an unwrapped image splits back into `image/jpeg` and the part's own data (round trip) |
| GeminiService.HeadshotOutcome | services/geminiService.ts:52-128 | a missing key fails before anything else; a rejection while resizing or requesting fails with its message; otherwise the response is unwrapped; a success is always a JPEG data URL with a non-empty payload |
| Db.KeyLessIrreflexive | services/db.ts:59 | no key sorts before itself |
| Db.KeyLessTransitive | services/db.ts:59 | the key order is transitive |
| Db.KeyLessTotal | services/db.ts:59 | of two different keys, one sorts before the other |
| Db.KeyLess | services/db.ts:111 | IndexedDB's order on string keys; a strict total order by KeyLessIrreflexive, KeyLessTransitive and KeyLessTotal |
| Db.ByAscendingKey | services/db.ts:59 | what `getAll` lists; ByAscendingKeyOrdered states it |
| Db.GreatestKeyExists | services/db.ts:111 | every non-empty set of keys has a greatest key |
| Db.Reverse | services/db.ts:63 | `reverse` puts element i at position n-1-i |
| Db.ByAscendingKeyOrdered | services/db.ts:59 | `getAll` lists exactly the stored records, with their own keys, in strictly ascending key order |
| Db.NewestFirstListing | services/db.ts:59-63 | the reversed listing holds exactly the stored projects, and their ids strictly decrease |
| Db.ByAscendingKeyAppend | services/db.ts:42 | adding a record under a key above all stored keys appends it to `getAll` |
| Db.ByAscendingKeyUnaffected | services/db.ts:59 | records at or above the bound do not change `getAll` below it |
| Db.ByAscendingKeyRemove | services/db.ts:77 | deleting a stored key shortens `getAll` by exactly one record, and deleting a key that is absent or not below the bound leaves the listing itself unchanged |
| Db.DeletedProjectNotListed | services/db.ts:72-87 | after `deleteProject`, `getProjects` no longer lists the deleted project |
| Db.NewestProjectFirst | services/db.ts:37-63 | after `saveProject`, `getProjects` is the new project followed by the earlier listing |
| Db.Database.constructor | services/db.ts:22-33 | the stores start empty, and the key generator starts at 1 |
| Db.Database.SaveProject | services/db.ts:37-52 | `add` stores the project under a fresh key, with that key as its id, returns the key, and advances the generator |
| Db.Database.GetProjects | services/db.ts:54-70 | exactly the stored projects, newest first (ids strictly decreasing) |
| Db.Database.DeleteProject | services/db.ts:72-87 | the record under the id, if any, is gone; nothing else changes |
| Db.Database.SavePreset | services/db.ts:89-104 | `put` stores or replaces the preset under its id and returns that id |
| Db.Database.GetPresets | services/db.ts:106-121 | every stored preset exactly once, by strictly descending id |
| Db.Database.GetUserProfile | services/db.ts:124-152 | the stored profile; on a miss, the default profile with 2 credits and no admin flag, which is also stored |
| Db.Database.UpdateUserProfile | services/db.ts:154-167 | `put` stores the profile under its id |
| CreditContext.Charge | components/CreditContext.tsx:45-58 | refused exactly for a non-admin non-subscriber without credits; admins and subscribers pay nothing; anyone else pays one credit and keeps a non-negative balance |
| CreditContext.ToggledAdmin | components/CreditContext.tsx:69 | the admin flag's truthiness flips; nothing else changes |
| CreditContext.ToggleAdminTwice | components/CreditContext.tsx:67-72 | toggling twice restores an explicit flag; an absent flag becomes false |
| CreditContext.ChargesKeepBalance | components/CreditContext.tsx:51-56 | however many generations are charged, a non-negative balance stays non-negative and drops by at most one per charge |
| CreditContext.CreditProvider.constructor | components/CreditContext.tsx:20-21 | no profile, loading |
| CreditContext.CreditProvider.Credits | components/CreditContext.tsx:76 | the profile's credits, or 0 without a profile |
| CreditContext.CreditProvider.IsSubscribed | components/CreditContext.tsx:77 | true exactly when a loaded profile is subscribed |
| CreditContext.CreditProvider.IsAdmin | components/CreditContext.tsx:78 | true exactly when a loaded profile's admin flag is true |
| CreditContext.CreditProvider.LoadProfile | components/CreditContext.tsx:27-36 | adopts the stored profile and leaves the store as it was, or on a first visit adopts the default profile and writes it to the store; stops loading |
| CreditContext.CreditProvider.AddCredits | components/CreditContext.tsx:38-43 | the balance grows by the amount and the new profile is written under its id, no other stored profile changing; nothing happens without a profile; the loading flag is kept |
| CreditContext.CreditProvider.DeductCredit | components/CreditContext.tsx:45-58 | answers exactly as Charge; only a paid generation changes the profile, by one credit, written under its id with no other stored profile changing; the loading flag is kept |
| CreditContext.CreditProvider.Subscribe | components/CreditContext.tsx:60-65 | the profile is subscribed and written under its id, no other stored profile changing; subscribing again changes nothing; the loading flag is kept |
| CreditContext.CreditProvider.ToggleAdmin | components/CreditContext.tsx:67-72 | the exposed admin flag flips, and the new profile is written under its id, no other stored profile changing; the loading flag is kept |
| App.FindPreset | App.tsx:156 | `presets.find` returns a listed preset carrying the id, or None exactly when no preset carries it |
| App.BackgroundClause | App.tsx:167-173 | either nothing, or a space, the listed background's modifier and the instruction to ignore the old background |
| App.HistoryStyle | App.tsx:188 | CORPORATE is recorded for any preset mix; otherwise the selected style is |
| App.ErrorText | App.tsx:198 | the error's message when it is non-empty, otherwise the default message; never empty |
| App.FailureMessageShown | App.tsx:194-199 | a failed generation shows the rejection's message, or the default message for a rejection without one (the photo failing to load) |
| App.PromptWithoutPreset | App.tsx:162-173 | without a selected preset, the prompt is the style's modifier followed by the background clause |
| App.BasePrompt | App.tsx:152-165 | the preset mix or the style's modifier; its contract is carried by PromptWithoutPreset, PromptFromPreset, PromptWithMissingPreset and BasePromptEmptyIffMissing |
| App.GenerationPrompt | App.tsx:152-173 | the base prompt followed by the background clause; stated by the same lemmas and BackgroundClauseIff |
| App.HybridPrompt | App.tsx:158-160 | the hybrid template over a preset's titles and modifiers; TwoStyleMix spells it out for two styles |
| App.PreviewPrompt | App.tsx:129 | the style's modifier and the close-up request; stated by PreviewPromptShape |
| App.PromptFromPreset | App.tsx:155-161 | with a selected preset, the first preset carrying its id supplies the hybrid prompt, whatever the selected style |
| App.FirstPresetFound | App.tsx:156 | `find` returns the first preset carrying the id |
| App.PromptWithMissingPreset | App.tsx:155-161 | a selected preset id that no preset carries sends only the background clause |
| App.BasePromptEmptyIffMissing | App.tsx:152-165 | the base prompt is empty exactly when a selected preset id has no preset |
| App.BackgroundClauseIff | App.tsx:167-173 | a clause is appended exactly for backgrounds other than ORIGINAL and GRADIENT_LUX, and it carries that background's modifier |
| App.PreviewPromptShape | App.tsx:129 | the preview prompt is the style's non-empty modifier followed by the close-up request |
| App.TwoStyleMix | App.tsx:158-160 | a two-style mix names both titles joined by " + ", then both modifiers |
| App.SavedProject | App.tsx:186-191 | the saved record has no id yet (the store assigns one) and no video |
| App.ImageSelected | App.tsx:107-113 | the new original image with no result, video or error; stated through HandleImageSelect |
| App.Generating | App.tsx:149 | generating, with no error and no video; stated through GenerationEndsIdle and HandleGenerate |
| App.Succeeded | App.tsx:179-183 | the new image, idle; stated through GenerationEndsIdle and HistoryRestoresGeneration |
| App.Failed | App.tsx:195-199 | idle with the error text; stated through GenerationEndsIdle and FailureMessageShown |
| App.Restored | App.tsx:216-222 | the project's images, idle, no video or error; stated through HistoryRestoresGeneration |
| App.GenerationEndsIdle | App.tsx:179-199 | a generation ends idle either way: with the new image and no error, or with a non-empty error and the previous image |
| App.HistoryRestoresGeneration | App.tsx:215-225 | loading a saved project restores the generation record exactly as the successful generation left it |
| App.ClickCount | App.tsx:92-101 | the counter goes up by one, modulo 5 |
| App.ClicksFromZero | App.tsx:90-104 | n clicks from a fresh page toggle admin n / 5 times and leave the counter at n % 5 |
| App.Page.constructor | App.tsx:27-60 | the initial state: the CORPORATE style, the ORIGINAL background, an empty record, no previews, no history, no presets |
| App.Page.LoadProjects | App.tsx:68-75 | the history is exactly the stored projects, newest first |
| App.Page.LoadPresets | App.tsx:77-88 | every stored preset once, by descending id; the first is selected when there is one |
| App.Page.HandleTitleClick | App.tsx:90-104 | the click is counted; the fifth toggles admin, writes only that profile back and restarts the count; the credit loading flag is kept; the page is reset |
| App.Page.HandleImageSelect | App.tsx:106-117 | the new original image, with no result, video, error or previews |
| App.Page.HandlePreview | App.tsx:119-137 | nothing without an original image; otherwise the preview prompt is sent, the style's preview is stored on success (a rejection stores nothing), and its loading mark ends cleared |
| App.Page.RunPreview | App.tsx:122-136 | the loading mark ends false either way; a preview is stored only on success |
| App.Page.HandleGenerate | App.tsx:144-201 | nothing without an original image; otherwise the generation prompt is sent, and the record ends idle with either the image (saved under the next key, which then advances by one, and listed first) or the error of the key check, the rejection or the response |
| App.Page.RunGeneration | App.tsx:149-199 | on success the project is stored under the next key, the key generator advances by one, and the project heads the reloaded history; on failure nothing is stored and the error is recorded |
| App.Page.Reset | App.tsx:203-213 | the empty record and no previews |
| App.Page.LoadFromHistory | App.tsx:215-225 | the project's images, with no video or error; its style selected; the history closed |
| App.Page.HandleDeleteProject | App.tsx:227-230 | the project is removed from the store, and the reloaded history no longer lists it; the key generator, the other stores and every other page field are unchanged |
| App.Page.HandleSavePreset | App.tsx:232-241 | the preset is stored; the reloaded list holds every stored preset once, by descending id, the new one included; the selected preset is the one with the greatest id; every other field is unchanged |
| DownloadOptions.SliderQuality | components/DownloadOptions.tsx:158-164 | every slider position gives a quality between 0.1 and 1.0, and only 100% exceeds 0.95 |
| DownloadOptions.Quality | components/DownloadOptions.tsx:164 | the slider value divided by 100; bounded by SliderQuality |
| DownloadOptions.ResizeRequested | components/DownloadOptions.tsx:53 | `maxWidth` as a condition: absent and 0 both mean no resize; used by CanvasSize and CanvasSizeByCases |
| DownloadOptions.IsDirectDownload | components/DownloadOptions.tsx:28 | the direct-download condition; DirectOnlyAtFullQuality states when it holds |
| DownloadOptions.ExportQuality | components/DownloadOptions.tsx:73 | png is always encoded at 1.0, jpeg at the chosen quality |
| DownloadOptions.ExportQualityBounds | components/DownloadOptions.tsx:73 | the encoder quality is between 0.1 and 1.0 |
| DownloadOptions.DirectOnlyAtFullQuality | components/DownloadOptions.tsx:28 | the original bytes are handed over exactly for a full-size jpeg of a jpeg data URL at 100% quality |
| DownloadOptions.CanvasSize | components/DownloadOptions.tsx:53-57 | the canvas never exceeds the image; it fits a requested width; it is the image's own size when no resize applies |
| DownloadOptions.CanvasSizeByCases | components/DownloadOptions.tsx:53-57 | a wider image is scaled to the requested width with its height in proportion; otherwise the size is kept |
| DownloadOptions.CanvasKeepsAspect | components/DownloadOptions.tsx:53-57 | the canvas keeps the image's aspect ratio |
| DownloadOptions.Extension | components/DownloadOptions.tsx:77 | a three-letter extension |
| DownloadOptions.DirectFileName | components/DownloadOptions.tsx:30 | the stem, a dash, the id and `.jpg` |
| DownloadOptions.CanvasFileName | components/DownloadOptions.tsx:77-79 | the stem, the id unless it is "full-res", and the format's extension |
| DownloadOptions.CanvasFileNameInjective | components/DownloadOptions.tsx:77-79 | different formats or ids never give the same canvas file name |
| DownloadOptions.DirectAndCanvasNames | components/DownloadOptions.tsx:30 | both paths name a jpeg alike, except "full-res", which only the direct path spells out |
| DownloadOptions.PlatformExports | components/DownloadOptions.tsx:14-22 | a platform export always goes through the canvas, is no wider than the platform's size, and is named after the platform |
| DownloadOptions.DownloadPanel.constructor | components/DownloadOptions.tsx:11-12 | nothing is under way; the quality is 90% |
| DownloadOptions.DownloadPanel.ButtonsDisabled | components/DownloadOptions.tsx:177 | every action button is disabled exactly while an action is under way |
| DownloadOptions.DownloadPanel.SetQuality | components/DownloadOptions.tsx:164 | the slider sets the quality |
| DownloadOptions.DownloadPanel.StartDownload | components/DownloadOptions.tsx:24-37 | the direct path hands over the original at once and clears the busy flag; otherwise the panel stays busy with the id |
| DownloadOptions.DownloadPanel.FinishDownload | components/DownloadOptions.tsx:39-89 | a loaded image is exported at the canvas size, with the canvas name, MIME type and quality; a failed load exports nothing; the busy flag is cleared either way |
| ComparisonSlider.SliderPercent | components/ComparisonSlider.tsx:22-24 | the pointer's clamped offset as a percentage of the width: 0 left of the box, 100 right of it, proportional inside |
| ComparisonSlider.SliderPercentMonotone | components/ComparisonSlider.tsx:23-24 | moving the pointer right never moves the slider left |
| ComparisonSlider.Slider.constructor | components/ComparisonSlider.tsx:10-15 | the slider is in the middle, at scale 1, centred, with nothing held |
| ComparisonSlider.Slider.Scale | components/ComparisonSlider.tsx:12 | the zoom is between 1 and 4 |
| ComparisonSlider.Slider.ClipRight | components/ComparisonSlider.tsx:138 | the before image is clipped by 100 minus the slider position, in percent |
| ComparisonSlider.Slider.LabelsVisible | components/ComparisonSlider.tsx:166 | the labels show exactly at scale 1 |
| ComparisonSlider.Slider.HandleSliderMove | components/ComparisonSlider.tsx:20-27 | the slider follows the pointer when the container is mounted; nothing else changes |
| ComparisonSlider.Slider.SetDragging | components/ComparisonSlider.tsx:29-42 | pressing the handle starts a drag, and releasing ends it |
| ComparisonSlider.Slider.PointerMove | components/ComparisonSlider.tsx:43-48 | a pointer move moves the slider only while dragging; nothing else changes |
| ComparisonSlider.Slider.ZoomIn | components/ComparisonSlider.tsx:66 | the zoom grows by half a step, up to 4; nothing else changes |
| ComparisonSlider.Slider.ZoomOut | components/ComparisonSlider.tsx:67-73 | the zoom shrinks by half a step, down to 1; back at 1 the view is re-centred; nothing else changes |
| ComparisonSlider.Slider.Reset | components/ComparisonSlider.tsx:74-77 | scale 1, centred; nothing else changes |
| ComparisonSlider.Slider.PanStart | components/ComparisonSlider.tsx:79-84 | when zoomed in, panning starts, anchored at the pointer relative to the offset; at scale 1 nothing changes; the view, the zoom, the slider and the drag stay |
| ComparisonSlider.Slider.PanMove | components/ComparisonSlider.tsx:86-93 | the view follows the pointer only while panning and zoomed in; nothing else changes |
| ComparisonSlider.Slider.PanEnd | components/ComparisonSlider.tsx:95 | panning stops; nothing else changes |
| ComparisonSlider.Slider.PanGesture | components/ComparisonSlider.tsx:79-93 | a press and a move shift the view by the pointer's displacement and leave panning on, anchored at the press, when zoomed in; at scale 1 nothing changes; the zoom, the slider and the drag stay |
| PresetBuilder.ButtonStricterThanHandler | components/PresetBuilder.tsx:31 | whatever the button allows, the handler accepts, but a one-style mix passes the handler and not the button |
| PresetBuilder.BlankNameRefused | components/PresetBuilder.tsx:31 | a blank name is refused by both the handler and the button |
| PresetBuilder.SaveAccepted | components/PresetBuilder.tsx:31 | the handler's condition; related to the button by ButtonStricterThanHandler |
| PresetBuilder.SaveButtonEnabled | components/PresetBuilder.tsx:90 | the button's condition; related to the handler by ButtonStricterThanHandler |
| PresetBuilder.Builder.constructor | components/PresetBuilder.tsx:15-16 | an empty name and no styles |
| PresetBuilder.Builder.SetName | components/PresetBuilder.tsx:15 | the name is what was typed |
| PresetBuilder.Builder.ToggleStyle | components/PresetBuilder.tsx:20-28 | the style joins or leaves the mix; no other style changes; no duplicates |
| PresetBuilder.Builder.HandleSave | components/PresetBuilder.tsx:30-36 | a non-blank name and at least one style are handed over as typed, in selection order, and the dialog clears; otherwise nothing changes |
| PresetBuilder.Builder.ClickSave | components/PresetBuilder.tsx:90 | a save happens exactly when the button is enabled; it hands over the name as typed and the selection, which have at least two distinct styles and a non-blank name, and clears the dialog; otherwise nothing changes |
| StyleComparisonModal.ToGenerate | components/StyleComparisonModal.tsx:43 | exactly the selected styles without a preview, without duplicates, in selection order |
| StyleComparisonModal.HasPreview | components/StyleComparisonModal.tsx:43 | `!!previews[id]`: a non-empty preview is stored; used by ToGenerate's contract |
| StyleComparisonModal.CountWithoutPreview | components/StyleComparisonModal.tsx:90 | the selected styles without a preview, counted one by one; never more than the selection |
| StyleComparisonModal.CountMatchesRequest | components/StyleComparisonModal.tsx:43-90 | the button's count equals the length of the list the click requests |
| StyleComparisonModal.NothingToGenerate | components/StyleComparisonModal.tsx:43-46 | nothing is requested exactly when every selected style already has a preview |
| StyleComparisonModal.AllStylesDistinct | components/StyleComparisonModal.tsx:50 | the list of all styles holds 18 distinct styles |
| StyleComparisonModal.Modal.constructor | components/StyleComparisonModal.tsx:27 | nothing is selected |
| StyleComparisonModal.Modal.ToggleStyle | components/StyleComparisonModal.tsx:31-39 | the style joins or leaves the selection; no other style changes; no duplicates |
| StyleComparisonModal.Modal.SelectAll | components/StyleComparisonModal.tsx:49-51 | all 18 styles are selected, each once, in declaration order |
| StyleComparisonModal.Modal.ClearSelection | components/StyleComparisonModal.tsx:53-55 | nothing is selected |
| StyleComparisonModal.Modal.HandleGenerateClick | components/StyleComparisonModal.tsx:41-47 | the previews to request, nonempty and without duplicates, as many as the button's count; nothing exactly when every selected style has a preview, i.e. when the count is 0 |
| StyleComparisonModal.Modal.GenerateDisabled | components/StyleComparisonModal.tsx:87 | the button's guard, an empty selection or no photo; stated through EnabledButNothingNew |
| StyleComparisonModal.Modal.EnabledButNothingNew | components/StyleComparisonModal.tsx:87-90 | the button only guards against an empty selection or a missing photo: with every selected style already previewed it is enabled, shows 0, and a click requests nothing |
| StyleComparisonModal.Modal.NewCount | components/StyleComparisonModal.tsx:90 | the count on the button, counted independently of the click's filter, equals the number of previews a click requests, and is 0 exactly when every selected style has a preview |

## Left out

- Network calls are not modelled. The image model's response, the API key
  and a rejection raised while resizing or requesting are parameters. The
  resized image itself is not computed: the split is stated for any image
  handed to it. The Veo prompt and video requests and their polling are
  left out.
- The wrapping of the prompt in further instructions inside
  `generateHeadshot` (services/geminiService.ts:90) is not modelled. The
  model returns the prompt the page hands to the client.
- Image decoding, canvas drawing, `toDataURL`, `FileReader`, the
  clipboard, `mailto` and the e-mail and link buttons of the export panel
  are browser I/O. The loaded image size is a parameter, and the busy flag
  is modelled for the download path only.
- Opening the database, its version upgrade and the error callbacks of
  every request are not modelled. Every request succeeds. The `catch`
  branches that only log (loading the history, the presets and the
  profile) are therefore unreachable in the model.
- Concurrency is not modelled:
  - overlapping handler runs and `handleBatchPreviews` (App.tsx:139-142),
    which starts one preview per style without awaiting;
  - stale closures over React state.
  Each handler runs to completion before the next begins.
- App.Page.HandleGenerate: the intermediate state with `isGenerating` true
  is not observable after the method returns. The final state is stated as
  the composition of the entry update with the success or failure update.
- App.Page.HandleTitleClick: the one-second timer that resets the click
  counter is not modelled. The model treats every click as arriving before
  the previous click's timer fires.
- App.Page.HandleSavePreset: closing the preset dialog
  (`setShowPresetBuilder(false)`) is not modelled. Neither are the other
  purely visual flags of the page: modals, language and tabs.
- CreditContext.ToggleAdminTwice: toggling twice does not restore an absent
  admin flag. It becomes an explicit false, as `!profile.isAdmin` writes.
- Db.KeyLess compares keys character by character. This matches IndexedDB's
  code-unit order for characters of the basic multilingual plane, and the
  model does not separate surrogate pairs.
- Credit amounts and balances are integers. The source's `number` also
  admits fractional and NaN amounts in `addCredits`, which the model does
  not represent.
- Floating-point arithmetic is modelled as exact reals. This covers the
  slider percentage, the zoom, the canvas size and the quality. Rounding of
  `0.95`, of `value / 100` and of the image scale is not captured.
- DownloadOptions.DownloadPanel.FinishDownload: a canvas without a 2D
  context (`ctx` null, components/DownloadOptions.tsx:63) is not modelled.
  The model always exports.
- ComparisonSlider.SliderPercent: a container of width 0 is excluded. The
  source would divide by zero there.
- The JSX rendering, translations, pricing, the Stripe stub, the video and
  Veo-prompt components, the history gallery, the background selector and
  the upload section's file-type filter are outside the modelled core.
