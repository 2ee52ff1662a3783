/** The output card: a "Content" tab with the generated caption, hashtags,
    posting times and SEO insights, and an "SEO Analysis" tab with the
    analysis of the user's own text. */
module OutputDisplay {
  import opened Types
  import opened JsString
  import InputSeoAnalysisDisplay
  import SeoInsightsDisplay

  // ------------------------------------------------------------ hashtags

  /** `tags.map(tag => `#${tag}`).join(' ')`. */
  function HashtagLine(tags: seq<string>): string {
    Join(Prefixed(tags), " ")
  }

  /** `HashtagGroup`: nothing for an empty list, otherwise the hashtag line. */
  function HashtagGroup(tags: seq<string>): (r: Option<string>)
    ensures r.None? <==> tags == []
    ensures r.Some? ==> r.value == HashtagLine(tags)
  {
    if |tags| == 0 then None else Some(HashtagLine(tags))
  }

  /** The hashtag line lists every tag, prefixed with `#`, in order and
      separated by single spaces: splitting it at spaces gives them back. */
  lemma HashtagLineLists(tags: seq<string>)
    requires tags != []
    requires forall k :: 0 <= k < |tags| ==> ' ' !in tags[k]
    ensures Split(HashtagLine(tags), ' ') == Prefixed(tags)
  {
    var p := Prefixed(tags);
    forall k | 0 <= k < |p| ensures ' ' !in p[k] {
      assert p[k] == ['#'] + tags[k];
    }
    SplitJoin(p, ' ');
  }

  /** `Object.values(hashtags).flat()`, in the order the record's keys are declared. */
  function AllHashtags(h: Hashtags): seq<string> {
    h.broad + h.niche + h.trending
  }

  // -------------------------------------------------- "Copy Everything"

  const CaptionHeader := "Caption:\n"
  const HashtagsHeader := "Hashtags:\n"
  const TimesHeader := "\n\nSuggested Post Times:"
  const Bullet := "\n- "

  function TitleSection(c: GeneratedContent): string {
    if Truthy(c.title) then "Title: " + c.title.value + "\n" else ""
  }

  function CaptionSection(c: GeneratedContent): string {
    CaptionHeader + c.caption + "\n"
  }

  function HashtagsSection(c: GeneratedContent): string {
    HashtagsHeader + HashtagLine(AllHashtags(c.hashtags))
  }

  function TimesSection(c: GeneratedContent): string {
    if NonEmptyList(c.postingTimes) then TimesHeader + Bullet + Join(c.postingTimes.value, Bullet) else ""
  }

  /** The sections of the copied text, in order; an absent one is empty. */
  function Sections(c: GeneratedContent): seq<string> {
    [TitleSection(c), CaptionSection(c), HashtagsSection(c), TimesSection(c)]
  }

  /** `handleCopyAll`'s text: the four sections, the absent ones dropped by
      `filter(Boolean)`, joined by newlines and trimmed; nothing when there
      is no content. */
  function CopyAllText(content: Option<GeneratedContent>): (r: Option<string>)
    ensures r.None? <==> content.None?
    ensures r.Some? ==> r.value == [] || (!IsWhitespace(r.value[0]) && !IsWhitespace(r.value[|r.value| - 1]))
  {
    match content
    case None => None
    case Some(c) => Some(Trim(Join(FilterNonEmpty(Sections(c)), "\n")))
  }

  /** One line per posting time, each opened by a newline and `- `. */
  function Bullets(times: seq<string>): string {
    if times == [] then "" else Bullet + times[0] + Bullets(times[1..])
  }

  lemma {:induction false} BulletsJoin(times: seq<string>)
    requires times != []
    ensures Bullet + Join(times, Bullet) == Bullets(times)
  {
    if |times| > 1 {
      BulletsJoin(times[1..]);
    }
  }

  /** The title block of the layout: the title line and a blank line. */
  function TitleBlock(c: GeneratedContent): string {
    if Truthy(c.title) then TitleSection(c) + "\n" else ""
  }

  /** The copied text up to the hashtag section: title block and caption block. */
  function Head(c: GeneratedContent): string {
    TitleBlock(c) + CaptionSection(c) + "\n"
  }

  /** The posting-times block of the layout: a blank line, the header and the bullets. */
  function TimesBlock(c: GeneratedContent): string {
    if NonEmptyList(c.postingTimes) then "\n" + (TimesHeader + Bullets(c.postingTimes.value)) else ""
  }

  /** The copied text laid out directly: title block, caption block,
      hashtag block, then the posting times as a bulleted list. */
  function Layout(c: GeneratedContent): string {
    Head(c) + HashtagsSection(c) + TimesBlock(c)
  }

  /** `filter(Boolean)` on the four sections when the middle two are present. */
  lemma Filter4(t: string, cap: string, h: string, p: string)
    requires cap != [] && h != []
    ensures FilterNonEmpty([t, cap, h, p]) == (if t != [] then [t] else []) + [cap, h] + (if p != [] then [p] else [])
  {
    FilterNonEmptyAppend([t], [cap, h, p]);
    FilterNonEmptyAppend([cap], [h, p]);
    FilterNonEmptyAppend([h], [p]);
    assert [t] + [cap, h, p] == [t, cap, h, p];
    assert [cap] + [h, p] == [cap, h, p];
    assert [h] + [p] == [h, p];
  }
  /** Joining the present sections with newlines: the optional first and
      last sections bring their separator with them. */
  lemma JoinPresent(t: string, cap: string, h: string, p: string)
    requires cap != [] && h != []
    ensures Join(FilterNonEmpty([t, cap, h, p]), "\n")
            == (if t != [] then t + "\n" else "") + cap + "\n" + h + (if p != [] then "\n" + p else "")
  {
    Filter4(t, cap, h, p);
    var rest := if p != [] then [p] else [];
    var front := if t != [] then t + "\n" else "";
    var back := if p != [] then "\n" + p else "";
    var lead := if t != [] then [t] else [];
    assert lead + [cap, h] + rest == lead + ([cap, h] + rest);
    JoinTail(cap, h, p, "\n");
    JoinFront(t, [cap, h] + rest, "\n");
    assert front + (cap + "\n" + h + back) == front + cap + "\n" + h + back;
  }

  /** The last section, when present, is joined after its separator. */
  lemma JoinTail(cap: string, h: string, p: string, sep: string)
    ensures Join([cap, h] + (if p != [] then [p] else []), sep)
            == cap + sep + h + (if p != [] then sep + p else "")
  {
    if p != [] {
      assert [cap, h] + [p] == [cap, h, p];
      assert [cap, h, p][1..] == [h, p];
      assert [h, p][1..] == [p];
      assert Join([h, p], sep) == h + sep + p;
      assert cap + sep + (h + sep + p) == cap + sep + h + (sep + p);
    } else {
      assert [cap, h] + [] == [cap, h];
      assert [cap, h][1..] == [h];
      assert Join([h], sep) == h;
      assert cap + sep + h + "" == cap + sep + h;
    }
  }

  /** The first section, when present, is joined before its separator. */
  lemma JoinFront(t: string, xs: seq<string>, sep: string)
    requires xs != []
    ensures Join((if t != [] then [t] else []) + xs, sep) == (if t != [] then t + sep else "") + Join(xs, sep)
  {
    if t != [] {
      assert ([t] + xs)[1..] == xs;
    } else {
      assert [] + xs == xs;
    }
  }

  /** `filter(Boolean).join('\n')` separates exactly the present sections by
      one newline, which gives the direct layout. */
  lemma CopyAllIsLayout(c: GeneratedContent)
    ensures CopyAllText(Some(c)) == Some(Trim(Layout(c)))
  {
    var t, cap, h, p := TitleSection(c), CaptionSection(c), HashtagsSection(c), TimesSection(c);
    assert |cap| >= |CaptionHeader| && |h| >= |HashtagsHeader|;
    JoinPresent(t, cap, h, p);
    assert (if t != [] then t + "\n" else "") == TitleBlock(c);
    if NonEmptyList(c.postingTimes) {
      BulletsJoin(c.postingTimes.value);
      assert p == TimesHeader + (Bullet + Join(c.postingTimes.value, Bullet));
    } else {
      assert p == [];
    }
    assert (if p != [] then "\n" + p else "") == TimesBlock(c);
  }

  /** A text that starts with a non-blank character keeps, under `trim`,
      everything up to a non-blank character `mid[k]` of its middle part. */
  lemma TrimKeepsThrough(pre: string, mid: string, post: string, k: nat)
    requires pre != [] && !IsWhitespace(pre[0])
    requires k < |mid| && !IsWhitespace(mid[k])
    ensures StartsWith(Trim(pre + mid + post), pre + mid[..k + 1])
  {
    var l := pre + mid + post;
    assert l[|pre| + k] == mid[k];
    TrimKeepsPrefix(l, |pre| + k);
    assert l[..|pre| + k + 1] == pre + mid[..k + 1];
  }

  lemma HeadStart(c: GeneratedContent)
    ensures Head(c) != [] && Head(c)[0] == (if Truthy(c.title) then 'T' else 'C')
    ensures !IsWhitespace(Head(c)[0])
  {
    if Truthy(c.title) {
      assert Head(c)[0] == TitleSection(c)[0];
    } else {
      assert Head(c)[0] == CaptionSection(c)[0] == CaptionHeader[0];
    }
  }

  lemma HashtagsSectionStart(c: GeneratedContent)
    ensures |HashtagsSection(c)| >= 10 && HashtagsSection(c)[8] == ':'
    ensures HashtagsSection(c)[..9] == "Hashtags:"
  {
    var h := HashtagsSection(c);
    assert h[..10] == HashtagsHeader;
  }

  lemma LayoutKeepsCaption(c: GeneratedContent)
    ensures StartsWith(Trim(Layout(c)), Head(c) + HashtagsSection(c)[..9])
  {
    HeadStart(c);
    HashtagsSectionStart(c);
    TrimKeepsHeader(Head(c), HashtagsSection(c), TimesBlock(c));
  }

  lemma TrimKeepsHeader(pre: string, mid: string, post: string)
    requires pre != [] && !IsWhitespace(pre[0])
    requires |mid| >= 10 && mid[8] == ':'
    ensures StartsWith(Trim(pre + mid + post), pre + mid[..9])
  {
    TrimKeepsThrough(pre, mid, post, 8);
  }

  /** The caption block is always copied whole, after the title block when
      there is a title, and is followed by the hashtag header. */
  lemma CopyAllKeepsCaption(c: GeneratedContent)
    ensures StartsWith(CopyAllText(Some(c)).value, Head(c) + "Hashtags:")
  {
    CopyAllIsLayout(c);
    LayoutKeepsCaption(c);
    HashtagsSectionStart(c);
  }

  /** A prefix of a prefix is a prefix; and below the length of a known
      prefix, being a prefix is decided by that known prefix. */
  lemma PrefixOfPrefix(s: string, p: string, q: string)
    requires StartsWith(s, p) && |q| <= |p|
    ensures StartsWith(s, q) <==> StartsWith(p, q)
  {
    assert s[..|q|] == p[..|q|];
  }

  lemma HeadOpening(c: GeneratedContent)
    ensures StartsWith(Head(c) + "Hashtags:", "Title: ") <==> Truthy(c.title)
    ensures !Truthy(c.title) ==> StartsWith(Head(c) + "Hashtags:", CaptionHeader + c.caption)
  {
    var head := Head(c) + "Hashtags:";
    if Truthy(c.title) {
      assert head[..7] == TitleSection(c)[..7] == "Title: ";
    } else {
      assert head == CaptionHeader + c.caption + "\n" + "\n" + "Hashtags:";
      assert head[..|CaptionHeader + c.caption|] == CaptionHeader + c.caption;
      assert head[0] == 'C';
    }
  }

  /** The copied text starts with "Title: " exactly when there is a title,
      and otherwise with the caption header and the caption. */
  lemma CopyAllTitle(c: GeneratedContent)
    ensures StartsWith(CopyAllText(Some(c)).value, "Title: ") <==> Truthy(c.title)
    ensures !Truthy(c.title) ==> StartsWith(CopyAllText(Some(c)).value, CaptionHeader + c.caption)
  {
    var s, head := CopyAllText(Some(c)).value, Head(c) + "Hashtags:";
    CopyAllKeepsCaption(c);
    HeadOpening(c);
    PrefixOfPrefix(s, head, "Title: ");
    if !Truthy(c.title) {
      PrefixOfPrefix(s, head, CaptionHeader + c.caption);
    }
  }

  /** The last character of the hashtag section is not blank when the tags are free of white space. */
  lemma HashtagsSectionEnd(c: GeneratedContent)
    requires AllHashtags(c.hashtags) != []
    requires forall k :: 0 <= k < |AllHashtags(c.hashtags)| ==> HasNoWhitespace(AllHashtags(c.hashtags)[k])
    ensures !IsWhitespace(HashtagsSection(c)[|HashtagsSection(c)| - 1])
  {
    var tags := AllHashtags(c.hashtags);
    var p := Prefixed(tags);
    var last := p[|p| - 1];
    assert last == "#" + tags[|tags| - 1];
    assert !IsWhitespace(last[|last| - 1]);
    JoinLast(p, " ");
    var h := HashtagsSection(c);
    var line := HashtagLine(tags);
    assert h[|h| - 1] == line[|line| - 1];
  }

  lemma LayoutKeepsHashtags(c: GeneratedContent)
    requires AllHashtags(c.hashtags) != []
    requires forall k :: 0 <= k < |AllHashtags(c.hashtags)| ==> HasNoWhitespace(AllHashtags(c.hashtags)[k])
    ensures StartsWith(Trim(Layout(c)), Head(c) + HashtagsSection(c))
  {
    HeadStart(c);
    HashtagsSectionEnd(c);
    TrimKeepsMiddle(Head(c), HashtagsSection(c), TimesBlock(c));
  }

  lemma TrimKeepsMiddle(pre: string, mid: string, post: string)
    requires pre != [] && !IsWhitespace(pre[0])
    requires mid != [] && !IsWhitespace(mid[|mid| - 1])
    ensures StartsWith(Trim(pre + mid + post), pre + mid)
  {
    TrimKeepsThrough(pre, mid, post, |mid| - 1);
    assert mid[..|mid|] == mid;
  }

  /** With at least one hashtag and none containing white space, the whole
      hashtag line is copied after the "Hashtags:" header. */
  lemma CopyAllKeepsHashtags(c: GeneratedContent)
    requires AllHashtags(c.hashtags) != []
    requires forall k :: 0 <= k < |AllHashtags(c.hashtags)| ==> HasNoWhitespace(AllHashtags(c.hashtags)[k])
    ensures StartsWith(CopyAllText(Some(c)).value, Head(c) + HashtagsSection(c))
  {
    CopyAllIsLayout(c);
    LayoutKeepsHashtags(c);
  }

  /** The posting-times block is appended exactly when there are posting
      times, as one "- " line per time after its header. */
  lemma CopyAllTimes(c: GeneratedContent)
    ensures NonEmptyList(c.postingTimes) ==>
              CopyAllText(Some(c)).value == Trim(Head(c) + HashtagsSection(c) + ("\n" + (TimesHeader + Bullets(c.postingTimes.value))))
    ensures !NonEmptyList(c.postingTimes) ==>
              CopyAllText(Some(c)).value == Trim(Head(c) + HashtagsSection(c))
  {
    CopyAllIsLayout(c);
    if !NonEmptyList(c.postingTimes) {
      var hh := Head(c) + HashtagsSection(c);
      assert Layout(c) == hh + "";
      assert hh + "" == hh;
    }
  }

  // ------------------------------------------------------------- the tabs

  datatype HashtagPanel = HashtagPanel(copyText: string, broad: Option<string>, niche: Option<string>, trending: Option<string>)

  /** The blocks of the content tab; an absent block is `None`. */
  datatype ContentPanel = ContentPanel(
    title: Option<string>,
    caption: Option<string>,
    hashtags: Option<HashtagPanel>,
    postingTimes: Option<seq<string>>,
    insights: SeoInsightsDisplay.View)

  datatype ContentView = ContentLoading | ContentError(message: string) | ContentPlaceholder | ContentShown(panel: ContentPanel)

  datatype SeoView = SeoLoading | SeoError(message: string) | SeoPlaceholder | SeoShown(panel: InputSeoAnalysisDisplay.View)

  datatype Screen = ContentScreen(content: ContentView) | SeoScreen(seo: SeoView)

  /** The props App passes to the card. */
  datatype Props = Props(
    content: Option<GeneratedContent>,
    inputSeoAnalysis: Option<InputSeoAnalysis>,
    isCaptionLoading: bool,
    isSeoLoading: bool,
    error: Option<string>,
    activeTab: Tab)

  /** The content tab's blocks for generated content `c`. */
  function ContentBlocks(c: GeneratedContent): (p: ContentPanel)
    ensures p.title.Some? <==> Truthy(c.title)
    ensures p.title.Some? ==> p.title == c.title
    ensures p.caption.Some? <==> c.caption != ""
    ensures p.caption.Some? ==> p.caption.value == c.caption
    ensures p.hashtags.Some? <==> AllHashtags(c.hashtags) != []
    ensures p.hashtags.Some? ==> p.hashtags.value.copyText == HashtagLine(AllHashtags(c.hashtags))
    ensures p.hashtags.Some? ==> p.hashtags.value.broad == HashtagGroup(c.hashtags.broad)
    ensures p.hashtags.Some? ==> p.hashtags.value.niche == HashtagGroup(c.hashtags.niche)
    ensures p.hashtags.Some? ==> p.hashtags.value.trending == HashtagGroup(c.hashtags.trending)
    ensures p.postingTimes.Some? <==> NonEmptyList(c.postingTimes)
    ensures p.postingTimes.Some? ==> p.postingTimes == c.postingTimes
  {
    var all := AllHashtags(c.hashtags);
    ContentPanel(
      if Truthy(c.title) then c.title else None,
      if c.caption != "" then Some(c.caption) else None,
      if |all| > 0 then
        Some(HashtagPanel(HashtagLine(all), HashtagGroup(c.hashtags.broad), HashtagGroup(c.hashtags.niche), HashtagGroup(c.hashtags.trending)))
      else None,
      if NonEmptyList(c.postingTimes) then c.postingTimes else None,
      SeoInsightsDisplay.Render(c.seoInsights))
  }

  /** `renderContentTab`: loading first, then an error (only on the content
      tab), then the placeholder, then the content. */
  function RenderContentTab(isCaptionLoading: bool, error: Option<string>, activeTab: Tab, content: Option<GeneratedContent>): (v: ContentView)
    ensures v.ContentLoading? <==> isCaptionLoading
    ensures v.ContentError? <==> !isCaptionLoading && Truthy(error) && activeTab == ContentTab
    ensures v.ContentError? ==> v.message == error.value
    ensures v.ContentPlaceholder? <==> !isCaptionLoading && !(Truthy(error) && activeTab == ContentTab) && content.None?
    ensures v.ContentShown? ==> content.Some? && v.panel == ContentBlocks(content.value)
  {
    if isCaptionLoading then ContentLoading
    else if Truthy(error) && activeTab == ContentTab then ContentError(error.value)
    else if content.None? then ContentPlaceholder
    else ContentShown(ContentBlocks(content.value))
  }

  /** `renderSeoTab`: the same precedence over the analysis; the analysis
      panel receives `isSeoLoading` as its `isLoading`. */
  function RenderSeoTab(isSeoLoading: bool, error: Option<string>, activeTab: Tab, analysis: Option<InputSeoAnalysis>): (v: SeoView)
    ensures v.SeoLoading? <==> isSeoLoading
    ensures v.SeoError? <==> !isSeoLoading && Truthy(error) && activeTab == SeoTab
    ensures v.SeoError? ==> v.message == error.value
    ensures v.SeoPlaceholder? <==> !isSeoLoading && !(Truthy(error) && activeTab == SeoTab) && analysis.None?
    ensures v.SeoShown? ==> analysis.Some? && v.panel == InputSeoAnalysisDisplay.Render(analysis.value, isSeoLoading)
  {
    if isSeoLoading then SeoLoading
    else if Truthy(error) && activeTab == SeoTab then SeoError(error.value)
    else if analysis.None? then SeoPlaceholder
    else SeoShown(InputSeoAnalysisDisplay.Render(analysis.value, isSeoLoading))
  }

  /** The card: the active tab decides which of the two renders is shown. */
  function Render(p: Props): (s: Screen)
    ensures s.ContentScreen? <==> p.activeTab == ContentTab
    ensures s.ContentScreen? ==> s.content == RenderContentTab(p.isCaptionLoading, p.error, ContentTab, p.content)
    ensures s.SeoScreen? ==> s.seo == RenderSeoTab(p.isSeoLoading, p.error, SeoTab, p.inputSeoAnalysis)
  {
    if p.activeTab == ContentTab then ContentScreen(RenderContentTab(p.isCaptionLoading, p.error, p.activeTab, p.content))
    else SeoScreen(RenderSeoTab(p.isSeoLoading, p.error, p.activeTab, p.inputSeoAnalysis))
  }

  predicate ShowsError(s: Screen) {
    (s.ContentScreen? && s.content.ContentError?) || (s.SeoScreen? && s.seo.SeoError?)
  }

  function ErrorMessage(s: Screen): string
    requires ShowsError(s)
  {
    if s.ContentScreen? then s.content.message else s.seo.message
  }

  /** On the card, an error is shown exactly when there is one and the active
      tab is not loading: the tab test inside each render always passes. */
  lemma ErrorShownUnlessLoading(p: Props)
    ensures ShowsError(Render(p)) <==> Truthy(p.error) && !(if p.activeTab == ContentTab then p.isCaptionLoading else p.isSeoLoading)
    ensures ShowsError(Render(p)) ==> ErrorMessage(Render(p)) == p.error.value
  {
  }

  /** The analysis panel is only ever shown when the SEO tab is not loading,
      so its "Automatically Fix SEO" button is never rendered disabled. */
  lemma FixButtonEnabledWhenShown(p: Props)
    requires Render(p).SeoScreen? && Render(p).seo.SeoShown?
    ensures !Render(p).seo.panel.fixDisabled
  {
  }
}
