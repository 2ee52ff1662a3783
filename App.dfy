/** The application shell: theme, recent-history list, and the three request
    handlers that drive the form and the output card. The remote model is a
    `Gateway` of total functions whose results are `Outcome`s; browser
    storage is the pair of fields `storedTheme` and `storedHistory`. */
module App {
  import opened Types
  import opened JsString
  import InputForm
  import OutputDisplay

  // ------------------------------------------------------------------ theme

  datatype Theme = Light | Dark

  /** `toggleTheme`'s updater. */
  function Toggled(t: Theme): (r: Theme)
    ensures r != t
  {
    if t == Light then Dark else Light
  }

  /** Toggling twice gives the theme back. */
  lemma ToggleInvolution(t: Theme)
    ensures Toggled(Toggled(t)) == t
  {
  }

  /** The value the theme effect stores under `theme`. */
  function ThemeName(t: Theme): string {
    if t == Dark then "dark" else "light"
  }

  /** The theme state's initialiser: dark when a window exists and either the
      stored theme is "dark", or no theme is stored and the environment
      prefers dark. */
  function InitialTheme(hasWindow: bool, storedTheme: Option<string>, prefersDark: bool): (r: Theme)
    ensures r == Dark <==> hasWindow && (storedTheme == Some("dark") || (storedTheme.None? && prefersDark))
  {
    if hasWindow && (storedTheme == Some("dark") || (storedTheme.None? && prefersDark)) then Dark else Light
  }

  /** A stored theme wins over the environment's preference on the next load. */
  lemma StoredThemeRestores(t: Theme, prefersDark: bool)
    ensures InitialTheme(true, Some(ThemeName(t)), prefersDark) == t
  {
  }

  // ---------------------------------------------------------------- history

  const HistoryCap := 5

  function Min(a: int, b: int): int {
    if a <= b then a else b
  }

  /** `[item, ...prev].slice(0, 5)`. */
  function NewHistory(prev: seq<HistoryItem>, item: HistoryItem): (r: seq<HistoryItem>)
    ensures |r| == Min(|prev| + 1, HistoryCap)
    ensures r[0] == item
    ensures r[1..] == prev[..Min(|prev|, HistoryCap - 1)]
  {
    ([item] + prev)[..Min(|prev| + 1, HistoryCap)]
  }

  /** The entry's `postIdea`: the idea itself if not empty, else a fallback
      that says whether an image was used. */
  function HistoryTitle(postIdea: string, imagePreview: Option<string>): (r: string)
    ensures r != ""
    ensures postIdea != "" ==> r == postIdea
    ensures postIdea == "" ==> (r == "Image-based post" <==> Truthy(imagePreview))
    ensures postIdea == "" && !Truthy(imagePreview) ==> r == "Untitled post"
  {
    if postIdea != "" then postIdea
    else if Truthy(imagePreview) then "Image-based post"
    else "Untitled post"
  }

  /** The new history entry; `id` and `timestamp` come from the clock and
      the random source. */
  function MakeItem(content: GeneratedContent, postIdea: string, imagePreview: Option<string>, id: string, timestamp: string): HistoryItem {
    HistoryItem(content, id, HistoryTitle(postIdea, imagePreview), timestamp, imagePreview)
  }

  /** Adding entries one after the other. */
  function AddAll(h: seq<HistoryItem>, items: seq<HistoryItem>): seq<HistoryItem>
    decreases |items|
  {
    if items == [] then h else AddAll(NewHistory(h, items[0]), items[1..])
  }

  function Reversed(items: seq<HistoryItem>): (r: seq<HistoryItem>)
    ensures |r| == |items|
    ensures forall k :: 0 <= k < |items| ==> r[k] == items[|items| - 1 - k]
  {
    if items == [] then [] else Reversed(items[1..]) + [items[0]]
  }

  lemma TakeTake(a: seq<HistoryItem>, b: seq<HistoryItem>)
    ensures (a + (b[..Min(|b|, HistoryCap)]))[..Min(|a| + Min(|b|, HistoryCap), HistoryCap)]
            == (a + b)[..Min(|a| + |b|, HistoryCap)]
  {
    var n := Min(|a| + |b|, HistoryCap);
    var b' := b[..Min(|b|, HistoryCap)];
    assert Min(|a| + |b'|, HistoryCap) == n;
    forall k | 0 <= k < n
      ensures (a + b')[k] == (a + b)[k]
    {
      if k >= |a| {
        assert (a + b')[k] == b'[k - |a|] == b[k - |a|];
      }
    }
  }

  /** After any non-empty run of additions the history holds the newest
      entries first, at most five, followed by as many older entries as fit. */
  lemma {:induction false} AddAllKeepsNewest(h: seq<HistoryItem>, items: seq<HistoryItem>)
    requires items != []
    ensures AddAll(h, items) == (Reversed(items) + h)[..Min(|items| + |h|, HistoryCap)]
    decreases |items|
  {
    var h' := NewHistory(h, items[0]);
    assert h' == ([items[0]] + h)[..Min(|h| + 1, HistoryCap)];
    if |items| == 1 {
      assert Reversed(items) == [items[0]];
    } else {
      var rest := items[1..];
      AddAllKeepsNewest(h', rest);
      assert Reversed(items) == Reversed(rest) + [items[0]];
      TakeTake(Reversed(rest), [items[0]] + h);
      assert Reversed(rest) + ([items[0]] + h) == Reversed(items) + h;
    }
  }

  /** What local storage holds under 'captionGenieHistory': a serialised
      list, the empty string, or text that does not parse. An empty
      `Unparseable("")` is the empty string again and is treated as `EmptyText`. */
  datatype StoredHistory = Serialized(items: seq<HistoryItem>) | EmptyText | Unparseable(text: string)

  /** The history after the load effect: a parsed list replaces it; nothing
      or an empty value leaves it alone, and so does text that does not parse. */
  function LoadedHistory(stored: Option<StoredHistory>, current: seq<HistoryItem>): (r: seq<HistoryItem>)
    ensures (stored.Some? && stored.value.Serialized?) ==> r == stored.value.items
    ensures !(stored.Some? && stored.value.Serialized?) ==> r == current
  {
    match stored
    case Some(Serialized(items)) => items
    case _ => current
  }

  /** The storage after the load effect: non-empty text that does not parse
      is removed; an empty value is never parsed, so it stays. */
  function StorageAfterLoad(stored: Option<StoredHistory>): (r: Option<StoredHistory>)
    ensures r.None? <==> stored.None? || (stored.value.Unparseable? && stored.value.text != "")
    ensures r.Some? ==> r == stored
  {
    match stored
    case Some(Unparseable(text)) => if text != "" then None else stored
    case _ => stored
  }

  // ------------------------------------------------------ the remote model

  datatype ImageData = ImageData(mimeType: string, data: string)

  /** The options `generateCaption` receives. */
  datatype CaptionRequest = CaptionRequest(
    postIdea: string,
    tone: Tone,
    platform: Platform,
    includeTitle: bool,
    hashtagCount: int,
    enhanceStyle: bool,
    image: Option<ImageData>)

  /** The three calls of the generation service, as total functions. */
  datatype Gateway = Gateway(
    generateCaption: CaptionRequest -> Outcome<GeneratedContent>,
    analyzeInputForSeo: string -> Outcome<InputSeoAnalysis>,
    rewriteTextForSeo: string -> Outcome<string>)

  datatype CaptionResults = CaptionResults(content: GeneratedContent, analysis: Option<InputSeoAnalysis>)

  /** `Promise.all` over the caption call and the optional analysis call: it
      resolves when both do, and otherwise rejects with the failure that
      happens first, `captionFailsFirst` telling which when both fail. */
  function AwaitBoth(caption: Outcome<GeneratedContent>, seo: Option<Outcome<InputSeoAnalysis>>, captionFailsFirst: bool): (r: Outcome<CaptionResults>)
    ensures r.Success? <==> caption.Success? && (seo.None? || seo.value.Success?)
    ensures r.Success? ==> r.value.content == caption.value
    ensures r.Success? ==> (r.value.analysis.Some? <==> seo.Some?)
    ensures r.Success? && seo.Some? ==> r.value.analysis.value == seo.value.value
    ensures r.Failure? ==> (caption.Failure? && r.message == caption.message)
                           || (seo.Some? && seo.value.Failure? && r.message == seo.value.message)
  {
    match (caption, seo)
    case (Success(c), None) => Success(CaptionResults(c, None))
    case (Success(c), Some(Success(a))) => Success(CaptionResults(c, Some(a)))
    case (Success(_), Some(Failure(m))) => Failure(m)
    case (Failure(m), None) => Failure(m)
    case (Failure(m), Some(Success(_))) => Failure(m)
    case (Failure(m1), Some(Failure(m2))) => if captionFailsFirst then Failure(m1) else Failure(m2)
  }

  // --------------------------------------------------------------- guards

  const CaptionGuardMessage := "Please enter a post idea or upload an image."
  const AnalyzeGuardMessage := "Please enter a post idea to analyze."
  const FixGuardMessage := "Please enter a post idea to fix."
  const CaptionFailurePrefix := "Failed to generate content. "
  const AnalyzeFailurePrefix := "Failed to analyze SEO. "
  const FixFailurePrefix := "Failed to fix SEO. "

  /** `handleGenerateCaption`'s guard `!postIdea.trim() && !image`: it
      refuses exactly an all-blank idea without an image. The handlers below
      state their guard case in this blank form. */
  predicate CaptionGuardFails(postIdea: string, image: Option<Image>): (r: bool)
    ensures r <==> IsBlank(postIdea) && image.None?
  {
    Trim(postIdea) == "" && image.None?
  }

  /** The guard `!postIdea.trim()` of `handleGenerateSeo` and `handleFixSeo`:
      it refuses exactly an all-blank idea. */
  predicate IdeaGuardFails(postIdea: string): (r: bool)
    ensures r <==> IsBlank(postIdea)
  {
    Trim(postIdea) == ""
  }

  /** The form's buttons are disabled exactly when loading or when the
      handler behind them would refuse, so an enabled click always passes
      the handler's guard. */
  lemma ButtonsMatchGuards(isCaptionLoading: bool, isSeoLoading: bool, postIdea: string, image: Option<Image>)
    ensures InputForm.GenerateCaptionDisabled(isCaptionLoading, isSeoLoading, postIdea, image)
            <==> isCaptionLoading || isSeoLoading || CaptionGuardFails(postIdea, image)
    ensures InputForm.GenerateSeoDisabled(isCaptionLoading, isSeoLoading, postIdea)
            <==> isCaptionLoading || isSeoLoading || IdeaGuardFails(postIdea)
  {
  }

  // ------------------------------------------------------------ the state

  class App {
    var theme: Theme
    /** `localStorage.theme`. */
    var storedTheme: Option<string>
    /** Whether the document root carries the `dark` class. */
    var darkClass: bool

    var postIdea: string
    var tone: Tone
    var platform: Platform
    var includeTitle: bool
    var hashtagCount: int
    var enhanceStyle: bool
    var image: Option<Image>
    var autoOptimizeSeo: bool

    var generatedContent: Option<GeneratedContent>
    var inputSeoAnalysis: Option<InputSeoAnalysis>
    var isCaptionLoading: bool
    var isSeoLoading: bool
    var error: Option<string>
    var activeTab: Tab

    var history: seq<HistoryItem>
    /** `localStorage['captionGenieHistory']`. */
    var storedHistory: Option<StoredHistory>
    var isHistoryOpen: bool

    /** No request is in flight. */
    predicate Idle()
      reads this`isCaptionLoading, this`isSeoLoading
    {
      !isCaptionLoading && !isSeoLoading
    }

    /** The options the caption call is made with. */
    function Request(): CaptionRequest
      reads this`postIdea, this`tone, this`platform, this`includeTitle, this`hashtagCount, this`enhanceStyle, this`image
    {
      CaptionRequest(postIdea, tone, platform, includeTitle, hashtagCount, enhanceStyle,
        if image.Some? then Some(ImageData(image.value.mimeType, image.value.data)) else None)
    }

    function Preview(): Option<string>
      reads this`image
    {
      if image.Some? then Some(image.value.preview) else None
    }

    /** The settled `Promise.all` of a caption request made now. */
    function CaptionOutcome(gateway: Gateway, captionFailsFirst: bool): Outcome<CaptionResults>
      reads this`postIdea, this`tone, this`platform, this`includeTitle, this`hashtagCount, this`enhanceStyle, this`image,
            this`autoOptimizeSeo
    {
      AwaitBoth(gateway.generateCaption(Request()),
                if autoOptimizeSeo then Some(gateway.analyzeInputForSeo(postIdea)) else None,
                captionFailsFirst)
    }

    /** The first render, before any effect has run. */
    constructor(hasWindow: bool, storedTheme: Option<string>, prefersDark: bool, storedHistory: Option<StoredHistory>)
      ensures theme == InitialTheme(hasWindow, storedTheme, prefersDark)
      ensures this.storedTheme == storedTheme && this.storedHistory == storedHistory && !darkClass
      ensures postIdea == "" && tone == Auto && platform == Instagram && !includeTitle
      ensures hashtagCount == 10 && !enhanceStyle && image.None? && !autoOptimizeSeo
      ensures generatedContent.None? && inputSeoAnalysis.None? && Idle() && error.None? && activeTab == ContentTab
      ensures history == [] && !isHistoryOpen
    {
      theme := InitialTheme(hasWindow, storedTheme, prefersDark);
      this.storedTheme := storedTheme;
      darkClass := false;
      postIdea := "";
      tone := Auto;
      platform := Instagram;
      includeTitle := false;
      hashtagCount := 10;
      enhanceStyle := false;
      image := None;
      autoOptimizeSeo := false;
      generatedContent := None;
      inputSeoAnalysis := None;
      isCaptionLoading := false;
      isSeoLoading := false;
      error := None;
      activeTab := ContentTab;
      history := [];
      this.storedHistory := storedHistory;
      isHistoryOpen := false;
    }

    method ToggleTheme()
      modifies this`theme
      ensures theme == Toggled(old(theme))
    {
      theme := if theme == Light then Dark else Light;
    }

    /** The theme effect: mirror the theme on the document root and store it,
        so that the next load starts with the same theme whatever the
        environment prefers. */
    method ApplyTheme()
      modifies this`storedTheme, this`darkClass
      ensures darkClass <==> theme == Dark
      ensures storedTheme == Some(ThemeName(theme))
      ensures forall prefersDark: bool :: InitialTheme(true, storedTheme, prefersDark) == theme
    {
      if theme == Dark {
        darkClass := true;
        storedTheme := Some("dark");
      } else {
        darkClass := false;
        storedTheme := Some("light");
      }
    }

    /** The history effect on mount. */
    method LoadHistory()
      modifies this`history, this`storedHistory
      ensures history == LoadedHistory(old(storedHistory), old(history))
      ensures storedHistory == StorageAfterLoad(old(storedHistory))
    {
      match storedHistory {
        case None =>
        case Some(EmptyText) =>
        case Some(Serialized(items)) =>
          history := items;
        case Some(Unparseable(text)) =>
          if text != "" {
            storedHistory := None;
          }
      }
    }

    /** `addToHistory`: prepend the new entry, keep five, and store the list. */
    method AddToHistory(content: GeneratedContent, postIdea: string, imagePreview: Option<string>, id: string, timestamp: string)
      modifies this`history, this`storedHistory
      ensures history == NewHistory(old(history), MakeItem(content, postIdea, imagePreview, id, timestamp))
      ensures storedHistory == Some(Serialized(history))
    {
      var item := MakeItem(content, postIdea, imagePreview, id, timestamp);
      var updated := ([item] + history)[..Min(|history| + 1, HistoryCap)];
      storedHistory := Some(Serialized(updated));
      history := updated;
    }

    /** `handleGenerateCaption`: after the guard, clear the outputs, run the
        caption call (and the analysis call when auto-optimising) together,
        and on success show the content and record it; on failure report it.
        Both loading flags end false either way. */
    method HandleGenerateCaption(gateway: Gateway, captionFailsFirst: bool, id: string, timestamp: string)
      modifies this`error, this`isCaptionLoading, this`isSeoLoading, this`generatedContent,
               this`inputSeoAnalysis, this`history, this`storedHistory, this`activeTab
      ensures (IsBlank(old(postIdea)) && old(image).None?) ==>
                error == Some(CaptionGuardMessage)
                && isCaptionLoading == old(isCaptionLoading) && isSeoLoading == old(isSeoLoading)
                && generatedContent == old(generatedContent) && inputSeoAnalysis == old(inputSeoAnalysis)
                && history == old(history) && storedHistory == old(storedHistory) && activeTab == old(activeTab)
      ensures !(IsBlank(old(postIdea)) && old(image).None?) ==>
                var outcome := old(CaptionOutcome(gateway, captionFailsFirst));
                Idle()
                && (outcome.Success? ==>
                      generatedContent == Some(outcome.value.content)
                      && inputSeoAnalysis == outcome.value.analysis
                      && history == NewHistory(old(history), MakeItem(outcome.value.content, old(postIdea), old(Preview()), id, timestamp))
                      && storedHistory == Some(Serialized(history))
                      && activeTab == ContentTab && error.None?)
                && (outcome.Failure? ==>
                      error == Some(CaptionFailurePrefix + outcome.message)
                      && generatedContent.None? && inputSeoAnalysis.None?
                      && history == old(history) && storedHistory == old(storedHistory) && activeTab == old(activeTab))
    {
      if IsBlank(postIdea) && image.None? {
        error := Some(CaptionGuardMessage);
        return;
      }
      RunCaption(gateway, captionFailsFirst, id, timestamp);
    }

    /** `handleGenerateCaption` past its guard: raise the loading flags,
        clear the previous results, await both requests and settle. */
    method RunCaption(gateway: Gateway, captionFailsFirst: bool, id: string, timestamp: string)
      modifies this`error, this`isCaptionLoading, this`isSeoLoading, this`generatedContent,
               this`inputSeoAnalysis, this`history, this`storedHistory, this`activeTab
      ensures Idle()
      ensures var outcome := old(CaptionOutcome(gateway, captionFailsFirst));
              outcome.Success? ==>
                generatedContent == Some(outcome.value.content)
                && inputSeoAnalysis == outcome.value.analysis
                && history == NewHistory(old(history), MakeItem(outcome.value.content, old(postIdea), old(Preview()), id, timestamp))
                && storedHistory == Some(Serialized(history))
                && activeTab == ContentTab && error.None?
      ensures var outcome := old(CaptionOutcome(gateway, captionFailsFirst));
              outcome.Failure? ==>
                error == Some(CaptionFailurePrefix + outcome.message)
                && generatedContent.None? && inputSeoAnalysis.None?
                && history == old(history) && storedHistory == old(storedHistory) && activeTab == old(activeTab)
    {
      BeginCaption();
      var outcome := CaptionOutcome(gateway, captionFailsFirst);
      SettleCaption(outcome, postIdea, Preview(), id, timestamp);
    }

    /** Raise the loading flags and clear the previous results and error. */
    method BeginCaption()
      modifies this`error, this`isCaptionLoading, this`isSeoLoading, this`generatedContent, this`inputSeoAnalysis
      ensures isCaptionLoading && isSeoLoading == (old(isSeoLoading) || autoOptimizeSeo)
      ensures error.None? && generatedContent.None? && inputSeoAnalysis.None?
    {
      isCaptionLoading := true;
      if autoOptimizeSeo {
        isSeoLoading := true;
      }
      error := None;
      generatedContent := None;
      inputSeoAnalysis := None;
    }

    /** The settling half of `handleGenerateCaption`, once the cleared state
        is in place: show the results and record them, or show the error. */
    method SettleCaption(outcome: Outcome<CaptionResults>, idea: string, preview: Option<string>, id: string, timestamp: string)
      requires error.None? && generatedContent.None? && inputSeoAnalysis.None?
      modifies this`error, this`generatedContent, this`inputSeoAnalysis, this`history, this`storedHistory, this`activeTab,
               this`isCaptionLoading, this`isSeoLoading
      ensures Idle()
      ensures outcome.Success? ==>
                generatedContent == Some(outcome.value.content)
                && inputSeoAnalysis == outcome.value.analysis
                && history == NewHistory(old(history), MakeItem(outcome.value.content, idea, preview, id, timestamp))
                && storedHistory == Some(Serialized(history))
                && activeTab == ContentTab && error.None?
      ensures outcome.Failure? ==>
                error == Some(CaptionFailurePrefix + outcome.message)
                && generatedContent.None? && inputSeoAnalysis.None?
                && history == old(history) && storedHistory == old(storedHistory) && activeTab == old(activeTab)
    {
      match outcome {
        case Success(results) =>
          generatedContent := Some(results.content);
          AddToHistory(results.content, idea, preview, id, timestamp);
          if results.analysis.Some? {
            inputSeoAnalysis := results.analysis;
          }
          activeTab := ContentTab;
        case Failure(message) =>
          error := Some(CaptionFailurePrefix + message);
      }
      isCaptionLoading := false;
      isSeoLoading := false;
    }

    /** `handleGenerateSeo`: after the guard, clear the analysis and ask for
        a new one; on success show it on the SEO tab. */
    method HandleGenerateSeo(gateway: Gateway)
      modifies this`error, this`isSeoLoading, this`inputSeoAnalysis, this`activeTab
      ensures IsBlank(old(postIdea)) ==>
                error == Some(AnalyzeGuardMessage) && isSeoLoading == old(isSeoLoading)
                && inputSeoAnalysis == old(inputSeoAnalysis) && activeTab == old(activeTab)
      ensures !IsBlank(old(postIdea)) ==>
                var outcome := gateway.analyzeInputForSeo(old(postIdea));
                !isSeoLoading
                && (outcome.Success? ==>
                      inputSeoAnalysis == Some(outcome.value) && activeTab == SeoTab && error.None?)
                && (outcome.Failure? ==>
                      error == Some(AnalyzeFailurePrefix + outcome.message)
                      && inputSeoAnalysis.None? && activeTab == old(activeTab))
    {
      if IsBlank(postIdea) {
        error := Some(AnalyzeGuardMessage);
        return;
      }
      isSeoLoading := true;
      error := None;
      inputSeoAnalysis := None;
      var outcome := gateway.analyzeInputForSeo(postIdea);
      match outcome {
        case Success(result) =>
          inputSeoAnalysis := Some(result);
          activeTab := SeoTab;
        case Failure(message) =>
          error := Some(AnalyzeFailurePrefix + message);
      }
      isSeoLoading := false;
    }

    /** `handleFixSeo`: after the guard, rewrite the idea, put the rewrite in
        the form, and analyse the rewrite. The old analysis stays until a new
        one arrives; a failed analysis keeps the rewritten idea. */
    method HandleFixSeo(gateway: Gateway)
      modifies this`error, this`isSeoLoading, this`inputSeoAnalysis, this`activeTab, this`postIdea
      ensures IsBlank(old(postIdea)) ==>
                error == Some(FixGuardMessage) && isSeoLoading == old(isSeoLoading) && postIdea == old(postIdea)
                && inputSeoAnalysis == old(inputSeoAnalysis) && activeTab == old(activeTab)
      ensures !IsBlank(old(postIdea)) ==>
                var rewrite := gateway.rewriteTextForSeo(old(postIdea));
                !isSeoLoading
                && (rewrite.Failure? ==>
                      error == Some(FixFailurePrefix + rewrite.message) && postIdea == old(postIdea)
                      && inputSeoAnalysis == old(inputSeoAnalysis) && activeTab == old(activeTab))
                && (rewrite.Success? ==>
                      var analysis := gateway.analyzeInputForSeo(rewrite.value);
                      postIdea == rewrite.value
                      && (analysis.Success? ==>
                            inputSeoAnalysis == Some(analysis.value) && activeTab == SeoTab && error.None?)
                      && (analysis.Failure? ==>
                            error == Some(FixFailurePrefix + analysis.message)
                            && inputSeoAnalysis == old(inputSeoAnalysis) && activeTab == old(activeTab)))
    {
      if IsBlank(postIdea) {
        error := Some(FixGuardMessage);
        return;
      }
      isSeoLoading := true;
      error := None;
      var rewrite := gateway.rewriteTextForSeo(postIdea);
      match rewrite {
        case Failure(message) =>
          error := Some(FixFailurePrefix + message);
        case Success(rewrittenText) =>
          postIdea := rewrittenText;
          var analysis := gateway.analyzeInputForSeo(rewrittenText);
          match analysis {
            case Success(result) =>
              inputSeoAnalysis := Some(result);
              activeTab := SeoTab;
            case Failure(message) =>
              error := Some(FixFailurePrefix + message);
          }
      }
      isSeoLoading := false;
    }
  }

  // ------------------------------------------- what the card shows after

  /** After a completed caption request the card shows the new content on
      success and the error on failure, whichever tab was active. */
  lemma CaptionRequestShown(p: OutputDisplay.Props, outcome: Outcome<CaptionResults>)
    requires !p.isCaptionLoading && !p.isSeoLoading
    requires outcome.Success? ==> p.content == Some(outcome.value.content) && p.activeTab == ContentTab && p.error.None?
    requires outcome.Failure? ==> p.error == Some(CaptionFailurePrefix + outcome.message)
    ensures outcome.Success? ==> OutputDisplay.Render(p) == OutputDisplay.ContentScreen(
                                   OutputDisplay.ContentShown(OutputDisplay.ContentBlocks(outcome.value.content)))
    ensures outcome.Failure? ==> OutputDisplay.ShowsError(OutputDisplay.Render(p))
                                 && OutputDisplay.ErrorMessage(OutputDisplay.Render(p)) == CaptionFailurePrefix + outcome.message
  {
    if outcome.Failure? {
      assert |CaptionFailurePrefix + outcome.message| >= |CaptionFailurePrefix|;
      OutputDisplay.ErrorShownUnlessLoading(p);
    }
  }

  /** A refused request shows its message on the card when nothing is loading. */
  lemma GuardMessageShown(p: OutputDisplay.Props, message: string)
    requires !p.isCaptionLoading && !p.isSeoLoading && p.error == Some(message) && message != ""
    ensures OutputDisplay.ShowsError(OutputDisplay.Render(p))
    ensures OutputDisplay.ErrorMessage(OutputDisplay.Render(p)) == message
  {
    OutputDisplay.ErrorShownUnlessLoading(p);
  }
}
