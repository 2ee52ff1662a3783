# CaptionGenie core, modelled in Dafny

CaptionGenie is a React single-page app. The user types a post idea and/or
uploads an image, then asks a remote model for a caption with hashtags, an
optional title and posting times, or for an SEO analysis of the idea. Apart from
the remote calls, the app is a set of small deterministic rules. This project
models those rules and proves what they promise:

- **Quick Analysis** (`InputSeoAnalyzer`): `countWords` is proved equal to an
  independent count of the maximal runs of non-blank characters. The
  three-tier length rating and `text.length` are modelled too.
- **Input form** (`InputForm`):
  - the data-URL splitter inside `fileToBase64`;
  - the 4 MiB size gate and `handleImageChange`'s outcome;
  - the range of the hashtag slider;
  - when the "Generate SEO" and "Generate Caption" buttons are disabled.
- **Application state** (`App`): a class `App.App` whose fields are the
  React state and the two browser-storage entries. Its methods are:
  - the theme toggle and the theme effect;
  - the history-load effect and `addToHistory`;
  - the three request handlers, each as a sequence of state updates with its
    guard, its success path and its failure path.

  The remote model is a `Gateway` of total functions whose results are
  `Success(value)` or `Failure(message)`.
- **Output card** (`OutputDisplay`):
  - the hashtag lines;
  - the "Copy Everything" text (filter, join by newlines, trim);
  - the precedence of loading, error, placeholder and content on both tabs.
- **Score colours** (`Bands`, `InputSeoAnalysisDisplay`,
  `SeoInsightsDisplay`): both components colour a score by the same
  red/yellow/green band. One writes it as `<60/<80`, the other as `>=80/>=60`.
  Every colour function is stated in terms of the single `Bands.BandOf`, which
  makes the agreement between the two files a theorem.
- `JsString` holds the JavaScript string built-ins the code relies on:
  - `trim` over JavaScript's white-space set;
  - `split` on a character;
  - `join`;
  - `filter(Boolean)`;
  - UTF-16 `length`.

  `Types` mirrors `types.ts`.

An optional property is an `Option`. A class attribute with several classes is
written as the list of its classes joined by single spaces.

No emotional-power scorer exists in the code: `emotionalPower` arrives from
the remote model (services/geminiService.ts:93) and is only coloured here.

## Model

| member | source | states |
|---|---|---|
| InputSeoAnalyzer.SplitOnWhitespace | components/InputSeoAnalyzer.tsx:9 | `split(/\s+/)` yields at least one piece and no piece contains white space |
| InputSeoAnalyzer.SplitOnWhitespaceCountsRuns | components/InputSeoAnalyzer.tsx:9 | the non-empty pieces of `split(/\s+/)` are exactly as many as the maximal runs of non-blank characters |
| InputSeoAnalyzer.RunCountTrim | components/InputSeoAnalyzer.tsx:9 | `trim` removes no run of text |
| InputSeoAnalyzer.CountWords | components/InputSeoAnalyzer.tsx:8-10 | `countWords` equals the number of maximal runs of non-white-space characters (an independent definition by run starts) |
| InputSeoAnalyzer.CountWordsBlank | components/InputSeoAnalyzer.tsx:8-10 | the empty and the all-blank text have no words |
| InputSeoAnalyzer.CountWordsPadding | components/InputSeoAnalyzer.tsx:8-10 | leading and trailing white space do not change the count |
| InputSeoAnalyzer.CountWordsWidening | components/InputSeoAnalyzer.tsx:8-10 | widening or narrowing an inner white-space run does not change the count |
| InputSeoAnalyzer.CountWordsExample | components/InputSeoAnalyzer.tsx:8-10 | `""` has 0 words and `"  a  b "` has 2 |
| InputSeoAnalyzer.RunCountConcat | components/InputSeoAnalyzer.tsx:9 | runs add up under concatenation, less one when a run straddles the seam |
| InputSeoAnalyzer.GetSentimentScore | components/InputSeoAnalyzer.tsx:12-16 | the score is always a percentage in 0..100 (it is used as a bar width) |
| InputSeoAnalyzer.SentimentTiers | components/InputSeoAnalyzer.tsx:12-16 | (25, "Too short", red) exactly below 10 words, (60, "Good", yellow) exactly for 10..29, (90, "Great!", green) exactly from 30 |
| InputSeoAnalyzer.SentimentMonotone | components/InputSeoAnalyzer.tsx:12-16 | more words never lower the score |
| InputSeoAnalyzer.Analyze | components/InputSeoAnalyzer.tsx:18-21 | the box's word count is the run count, its sentiment is the length rating of that count, its character count is exactly the UTF-16 length (between `|text|` and twice that), and words never outnumber characters |
| JsString.Utf16LengthBmp | components/InputSeoAnalyzer.tsx:21 | for text within the Basic Multilingual Plane, `text.length` is the number of characters |
| JsString.Trim | components/InputForm.tsx:158 | `trim` leaves no white space at either end, and gives `""` exactly for all-blank text |
| JsString.TrimKeepsPrefix | components/OutputDisplay.tsx:73 | on text that starts with a non-blank character, `trim` keeps everything up to any non-blank character |
| JsString.Split | components/InputForm.tsx:36 | `split(c)` yields at least one piece and no piece contains `c` |
| JsString.SplitAtFirst | components/InputForm.tsx:36 | `split` cuts at the first separator, and the rest is split the same way |
| JsString.SplitJoin | components/SeoInsightsDisplay.tsx:56 | splitting a space-joined list of space-free items gives the list back |
| JsString.FilterNonEmpty | components/OutputDisplay.tsx:73 | `filter(Boolean)` keeps exactly the non-empty strings |
| JsString.FilterNonEmptyAppend | components/OutputDisplay.tsx:73 | `filter(Boolean)` distributes over concatenation |
| JsString.Prefixed | components/OutputDisplay.tsx:39 | `map(tag => '#' + tag)` prefixes every tag, in order |
| InputForm.ParseParts | components/InputForm.tsx:37-39 | rejects with "Invalid file format" exactly when the header or the payload is empty; a resolved MIME type holds no ':' or ';' |
| InputForm.ParseDataUrl | components/InputForm.tsx:34-40 | a resolved payload is non-empty and holds no ',' |
| InputForm.FileToBase64 | components/InputForm.tsx:30-43 | a failed read rejects with the reader's error; a successful read is parsed |
| InputForm.ParseDataUrlRoundTrip | components/InputForm.tsx:36-39 | `data:<m>;base64,<d>` reads back as `(m, d)` for `m` without ':', ';', ',' and a non-empty `d` without ',' |
| InputForm.ParseDataUrlFields | components/InputForm.tsx:36 | the header is the text before the first comma, and the payload is the text up to the next comma |
| InputForm.ParseDataUrlRejects | components/InputForm.tsx:36-37 | rejected exactly when the header is empty, there is no comma, or nothing follows the first comma before the next comma or the end |
| InputForm.ParseDataUrlDropsExtra | components/InputForm.tsx:36 | text after a second comma is discarded |
| InputForm.ParseDataUrlMime | components/InputForm.tsx:38 | a header without ':' leaves the promise unsettled; otherwise the MIME type is the text after the first ':' up to the next ':' or ';' or the end |
| InputForm.HandleImageChange | components/InputForm.tsx:59-69 | no file: nothing; over 4 MiB: the size alert; otherwise the image is set exactly when the read resolves, the processing alert is raised exactly when it rejects, and nothing happens while it is unsettled |
| InputForm.SizeGateBoundary | components/InputForm.tsx:62 | exactly 4 MiB passes and one byte more is refused |
| InputForm.SliderValue | components/InputForm.tsx:138 | the hashtag count is always within 0..30 and equals the request when that is in range |
| InputForm.GenerateSeoDisabled | components/InputForm.tsx:158 | "Generate SEO" is disabled iff either request is loading or the idea trims to nothing (is all blank) |
| InputForm.GenerateCaptionDisabled | components/InputForm.tsx:161 | "Generate Caption" is disabled iff either request is loading or the idea is all blank and there is no image |
| InputForm.ImageOnlyEnablesCaption | components/InputForm.tsx:158-161 | with a blank idea, an image enables "Generate Caption" but not "Generate SEO" |
| App.Toggled | App.tsx:81-83 | the toggle always changes the theme |
| App.ToggleInvolution | App.tsx:81-83 | toggling twice gives the theme back |
| App.InitialTheme | App.tsx:52-59 | dark iff a window exists and the stored theme is "dark", or none is stored and the environment prefers dark |
| App.StoredThemeRestores | App.tsx:52-59 | a stored theme decides the next initial theme whatever the environment prefers |
| App.NewHistory | App.tsx:104 | the new item is first, the length is min(old + 1, 5), and the rest is the old list's first min(old, 4) entries in order |
| App.HistoryTitle | App.tsx:103 | the entry's title is the idea if non-empty, else "Image-based post" exactly when there is a preview, else "Untitled post" |
| App.AddAllKeepsNewest | App.tsx:101-108 | after any run of additions the history is the newest entries first, cut to five |
| App.LoadedHistory | App.tsx:91-99 | a parsed list replaces the history; absent, empty or unparseable storage leaves it as it is |
| App.StorageAfterLoad | App.tsx:91-99 | non-empty stored text that does not parse is removed; nothing, an empty value or a parsed list is kept |
| App.AwaitBoth | App.tsx:119-122 | `Promise.all` succeeds iff both calls do, carrying both results; otherwise it fails with one failed call's message |
| App.CaptionGuardFails | App.tsx:111 | `!postIdea.trim() && !image` holds exactly for an all-blank idea without an image |
| App.IdeaGuardFails | App.tsx:139 | `!postIdea.trim()`, the guard of `handleGenerateSeo` and (line 156) `handleFixSeo`, holds exactly for an all-blank idea |
| App.ButtonsMatchGuards | components/InputForm.tsx:161 | a button is disabled exactly when loading or when its handler's guard would refuse, so an enabled click passes the guard |
| App.App.constructor | App.tsx:52-79 | the initial state: theme from the initialiser, empty idea, Auto tone, Instagram, 10 hashtags, nothing loading, content tab, empty history |
| App.App.ToggleTheme | App.tsx:81-83 | the theme becomes the other one |
| App.App.ApplyTheme | App.tsx:85-89 | the root's dark class mirrors the theme, and the stored theme makes every next load start with the same theme |
| App.App.LoadHistory | App.tsx:91-99 | the mount effect's history and storage, as `LoadedHistory` and `StorageAfterLoad` |
| App.App.AddToHistory | App.tsx:101-108 | the history becomes `NewHistory` of the old one, and storage holds exactly the new list |
| App.App.HandleGenerateCaption | App.tsx:110-136 | guard: only the error changes. Success: content and analysis shown, one history entry added and stored, content tab, no error. Failure: "Failed to generate content. " plus the message, no content, history, storage and tab unchanged. Both loading flags end false |
| App.App.RunCaption | App.tsx:112-135 | the unguarded part of the caption flow, with the same success and failure states |
| App.App.BeginCaption | App.tsx:112-116 | the loading flags go up (the SEO flag only when auto-optimising), and error, content and analysis are cleared |
| App.App.SettleCaption | App.tsx:124-134 | the state after the settled calls, from the cleared state |
| App.App.HandleGenerateSeo | App.tsx:138-153 | guard: only the error changes. Success: analysis shown on the SEO tab. Failure: "Failed to analyze SEO. " plus the message and no analysis. The SEO flag ends false |
| App.App.HandleFixSeo | App.tsx:155-171 | guard: only the error changes. A failed rewrite keeps idea, analysis and tab. A rewrite replaces the idea; its analysis is then shown on the SEO tab, or on failure the old analysis stays. The error carries "Failed to fix SEO. ". The SEO flag ends false |
| App.CaptionRequestShown | App.tsx:201-210 | after a settled caption request the card shows the new content, or the failure message whichever tab is active |
| App.GuardMessageShown | App.tsx:201-210 | a refused request's message is shown on the card when nothing is loading |
| OutputDisplay.HashtagGroup | components/OutputDisplay.tsx:37-46 | nothing exactly for an empty list, otherwise the `#`-prefixed space-joined line |
| OutputDisplay.HashtagLineLists | components/OutputDisplay.tsx:38-39 | splitting the line at spaces gives every tag, `#`-prefixed, in order |
| OutputDisplay.CopyAllText | components/OutputDisplay.tsx:69-78 | no text exactly when there is no content; the text has no white space at either end |
| OutputDisplay.BulletsJoin | components/OutputDisplay.tsx:73 | `'\n- ' + times.join('\n- ')` is one "- " line per posting time |
| OutputDisplay.JoinPresent | components/OutputDisplay.tsx:73 | `filter(Boolean).join('\n')` puts one newline between the present sections |
| OutputDisplay.CopyAllIsLayout | components/OutputDisplay.tsx:73 | the copied text is the trimmed direct layout: title block, caption block, hashtags, times |
| OutputDisplay.CopyAllKeepsCaption | components/OutputDisplay.tsx:73 | the title block and the caption block are always copied whole, followed by "Hashtags:" |
| OutputDisplay.CopyAllTitle | components/OutputDisplay.tsx:73 | the text starts with "Title: " iff the title is non-empty, and otherwise with "Caption:\n" and the caption |
| OutputDisplay.CopyAllKeepsHashtags | components/OutputDisplay.tsx:72-73 | every hashtag of every category is copied, `#`-prefixed and space-separated, after the header |
| OutputDisplay.CopyAllTimes | components/OutputDisplay.tsx:73 | the posting-times block is appended exactly when there are times, one "- " line each |
| OutputDisplay.ContentBlocks | components/OutputDisplay.tsx:84-92 | title, caption, hashtag and posting-times blocks each appear exactly when their data is present (hashtags: the flattened list is non-empty), and each shows that data: the title, the caption, the copy line and the three category lines, the times |
| OutputDisplay.RenderContentTab | components/OutputDisplay.tsx:80-95 | loading first, then the error only on the content tab, then the placeholder without content, then the content |
| OutputDisplay.RenderSeoTab | components/OutputDisplay.tsx:97-103 | the same precedence over the analysis on the SEO tab |
| OutputDisplay.ErrorShownUnlessLoading | components/OutputDisplay.tsx:114 | the card shows an error exactly when there is one and the active tab is not loading |
| OutputDisplay.Render | components/OutputDisplay.tsx:114 | the content render is shown exactly on the content tab and the SEO render otherwise |
| OutputDisplay.FixButtonEnabledWhenShown | components/OutputDisplay.tsx:102 | the analysis panel is only shown when not loading, so its fix button is never shown disabled |
| Bands.BandOf | components/InputSeoAnalysisDisplay.tsx:6-10 | red exactly below 60, yellow exactly for 60..79, green exactly from 80 |
| Bands.BandMonotone | components/SeoInsightsDisplay.tsx:5-9 | a higher score never falls into a lower band |
| InputSeoAnalysisDisplay.GetScoreColor | components/InputSeoAnalysisDisplay.tsx:6-10 | the ring colour is the band's hue at 500 |
| InputSeoAnalysisDisplay.GetScoreBackgroundColor | components/InputSeoAnalysisDisplay.tsx:11-15 | the track classes are those of the same band as the ring colour |
| InputSeoAnalysisDisplay.TrackLightHue | components/InputSeoAnalysisDisplay.tsx:11-15 | the light-theme track is the band's hue at 200 |
| InputSeoAnalysisDisplay.TrackDarkHue | components/InputSeoAnalysisDisplay.tsx:11-15 | the dark-theme track is the band's hue at 500, faded |
| InputSeoAnalysisDisplay.GetEmotionalPowerColor | components/InputSeoAnalysisDisplay.tsx:52-59 | High is coloured like a green score, Medium like a yellow one, and Low and absent are grey |
| InputSeoAnalysisDisplay.ScoreLowIffNotGreen | components/InputSeoAnalysisDisplay.tsx:62 | `isScoreLow` holds exactly when the band is not green |
| InputSeoAnalysisDisplay.Render | components/InputSeoAnalysisDisplay.tsx:61-123 | the emotional panel iff the rating is present, naming that rating; "No strong keywords" iff there are none; the banner iff the band is not green; the fix button disabled iff loading |
| SeoInsightsDisplay.GetScoreColor | components/SeoInsightsDisplay.tsx:5-9 | the badge classes are those of the score's band, with the same bands as the analysis panel |
| SeoInsightsDisplay.BadgeTextHue | components/SeoInsightsDisplay.tsx:6-8 | the badge's first class is the band's text hue at 500 |
| SeoInsightsDisplay.BadgeBackgroundHue | components/SeoInsightsDisplay.tsx:6-8 | the badge's second class is the band's faded background |
| SeoInsightsDisplay.BadgeBorderHue | components/SeoInsightsDisplay.tsx:6-8 | the badge's third class is the band's faded border |
| SeoInsightsDisplay.BadgeSingleClasses | components/SeoInsightsDisplay.tsx:6-8 | every badge class is a single space-free class name |
| SeoInsightsDisplay.GetScoreRingColor | components/SeoInsightsDisplay.tsx:11-15 | the ring stroke is the band's hue at 500, the same band as the badge |
| SeoInsightsDisplay.ScoreTextColor | components/SeoInsightsDisplay.tsx:56 | the first token of the badge classes equals the analysis panel's colour for the same score, so the two files agree on every integer score |
| SeoInsightsDisplay.HintWithinBands | components/SeoInsightsDisplay.tsx:61 | every red score gets the hint and no green score does |
| SeoInsightsDisplay.OptionalSection | components/SeoInsightsDisplay.tsx:81 | an optional list is shown exactly when present and non-empty |
| SeoInsightsDisplay.Render | components/SeoInsightsDisplay.tsx:17-101 | the hint iff the score is below 70; optimised titles and descriptions each iff present and non-empty; the score text in the analysis panel's colour |

## Left out

- The generation service (services/geminiService.ts) is not part of this model. Its prompts, its JSON parsing and the network are outside the model. Each call is a total function of its arguments into `Success(value)` or `Failure(message)`.
- App.AwaitBoth: `Promise.all`'s concurrency is reduced to its settled result. When both calls fail, the `captionFailsFirst` parameter says which rejection comes first. Handler interleaving (a second click while a request is in flight) is not modelled: each handler runs to completion.
- A rejection with a non-`Error` value ("An unknown error occurred.") is not modelled. A failure always carries a message.
- Browser I/O is plain state or parameters:
  - `localStorage` is the `storedTheme` and `storedHistory` fields;
  - `matchMedia` is the `prefersDark` parameter;
  - `FileReader`'s outcome is the `read` parameter;
  - `URL.createObjectURL` is the `preview` parameter;
  - the `dark` class is the `darkClass` field.

  `alert` is the `Alert` outcome. `console`, the clipboard write, `setTimeout` and the `copied`/`copyAll` flags are left out.
- App.LoadedHistory: `JSON.parse` is taken to round-trip the stored list (`Serialized(items)`). Stored JSON that parses to something other than a list is not distinguished from a list.
- The history entry's `id` (time plus `Math.random`) and `timestamp` (`toLocaleString`) are parameters.
- `handleRemoveImage`: it revokes an object URL and resets the file input (browser I/O) and sets the image to null. It is not modelled.
- InputForm.HandleImageChange: modelled as a function from the file's size and read outcome to what happens (nothing, an alert, or the new image) rather than as a state update.
- InputForm.SliderValue: the clamp is the browser's range input (`min`/`max`), not code of the component.
- `highlightKeywords` builds a regular expression from unescaped keywords. Its behaviour depends on the regular-expression engine.
- The SVG ring geometry uses `Math.PI` and floating point. Scores are integers throughout.
- Markup, CSS outside the band colours, `Header`, `ThemeToggle`, the icons and the history panel's display are presentation only. So are the "Analyzing..."/"Optimizing..." labels and `isHistoryOpen` (kept only as a field).
- OutputDisplay.AllHashtags: `Object.values(hashtags).flat()` is taken in the declared key order broad, niche, trending.
- OutputDisplay.CopyAllKeepsHashtags: stated for tags without white space. A tag ending in white space with nothing after it would be shortened by `trim`.
- Props that are declared but never supplied are not modelled. These are `isFixingSeo` and `onFixGeneratedSeo` on the output card, and `onFixSeo`/`isLoading` given to `SeoInsightsDisplay`, whose props take only `insights`.
- App.App.HandleGenerateSeo, App.App.HandleFixSeo: they set only `isSeoLoading` back to false, as the code does. `isCaptionLoading` is outside their frame and so unchanged.
- JsString.Trim: strings are sequences of characters. The UTF-16 surrogate structure is only visible through `Utf16Length`.
