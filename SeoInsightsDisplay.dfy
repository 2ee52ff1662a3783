/** The "SEO Insights" block under generated content: the score ring, a hint
    for weak scores, keywords, suggestions and the optional optimised titles
    and descriptions. */
module SeoInsightsDisplay {
  import opened Types
  import opened Bands
  import opened JsString
  import InputSeoAnalysisDisplay

  /** `getScoreColor`: text, background and border classes of one band,
      chosen by lower bounds where the analysis panel uses upper bounds. A
      class attribute with several classes is written as the list of its
      classes joined by spaces. */
  function GetScoreColor(score: int): (r: string)
    ensures r == Join(BadgeClasses(BandOf(score)), " ")
  {
    if score >= 80 then Join(["text-green-500", "bg-green-500/10", "border-green-500/30"], " ")
    else if score >= 60 then Join(["text-yellow-500", "bg-yellow-500/10", "border-yellow-500/30"], " ")
    else Join(["text-red-500", "bg-red-500/10", "border-red-500/30"], " ")
  }

  /** The classes of a band's score badge, text colour first. */
  function BadgeClasses(b: Band): (r: seq<string>)
    ensures |r| == 3
  {
    match b
    case Red => ["text-red-500", "bg-red-500/10", "border-red-500/30"]
    case Yellow => ["text-yellow-500", "bg-yellow-500/10", "border-yellow-500/30"]
    case Green => ["text-green-500", "bg-green-500/10", "border-green-500/30"]
  }

  /** The badge's text colour is the band's hue. */
  lemma BadgeTextHue(b: Band)
    ensures BadgeClasses(b)[0] == "text-" + Hue(b) + "-500"
  {
  }

  /** The badge's background is the band's hue, faded. */
  lemma BadgeBackgroundHue(b: Band)
    ensures BadgeClasses(b)[1] == "bg-" + Hue(b) + "-500/10"
  {
  }

  /** The badge's border is the band's hue, faded. */
  lemma BadgeBorderHue(b: Band)
    ensures BadgeClasses(b)[2] == "border-" + Hue(b) + "-500/30"
  {
  }

  /** Each badge class is a single class name. */
  lemma BadgeSingleClasses(b: Band)
    ensures forall k :: 0 <= k < |BadgeClasses(b)| ==> ' ' !in BadgeClasses(b)[k]
  {
    var hue := Hue(b);
    assert ' ' !in hue;
    BadgeTextHue(b);
    BadgeBackgroundHue(b);
    BadgeBorderHue(b);
    NoSpaceIn3("text-", hue, "-500");
    NoSpaceIn3("bg-", hue, "-500/10");
    NoSpaceIn3("border-", hue, "-500/30");
  }

  lemma NoSpaceIn3(a: string, b: string, c: string)
    requires ' ' !in a && ' ' !in b && ' ' !in c
    ensures ' ' !in a + b + c
  {
  }

  /** `getScoreRingColor`. */
  function GetScoreRingColor(score: int): (r: string)
    ensures r == "stroke-" + Hue(BandOf(score)) + "-500"
  {
    if score >= 80 then "stroke-green-500"
    else if score >= 60 then "stroke-yellow-500"
    else "stroke-red-500"
  }

  /** `scoreColor.split(' ')[0]`, the class of the score number: the same
      class the analysis panel gives the same score. */
  function ScoreTextColor(score: int): (r: string)
    ensures r == InputSeoAnalysisDisplay.GetScoreColor(score)
  {
    BadgeSingleClasses(BandOf(score));
    BadgeTextHue(BandOf(score));
    SplitJoin(BadgeClasses(BandOf(score)), ' ');
    Split(GetScoreColor(score), ' ')[0]
  }

  /** The keyword hint is shown below 70. */
  predicate ShowHint(score: int) {
    score < 70
  }

  /** Every red score gets the hint and no green score does. */
  lemma HintWithinBands(score: int)
    ensures BandOf(score) == Red ==> ShowHint(score)
    ensures ShowHint(score) ==> BandOf(score) != Green
  {
  }

  /** What the block shows; an absent optional section is `None`. */
  datatype View = View(
    score: int,
    ringColor: string,
    scoreTextColor: string,
    showHint: bool,
    keywords: seq<string>,
    suggestions: seq<string>,
    optimizedTitles: Option<seq<string>>,
    optimizedDescriptions: Option<seq<string>>)

  function OptionalSection(xs: Option<seq<string>>): (r: Option<seq<string>>)
    ensures r.Some? <==> NonEmptyList(xs)
    ensures r.Some? ==> r.value == xs.value
  {
    if xs.Some? && |xs.value| > 0 then xs else None
  }

  /** The `SeoInsightsDisplay` component for `insights`. */
  function Render(insights: SeoInsights): (v: View)
    ensures v.score == insights.score
    ensures v.ringColor == "stroke-" + Hue(BandOf(insights.score)) + "-500"
    ensures v.scoreTextColor == InputSeoAnalysisDisplay.GetScoreColor(insights.score)
    ensures v.showHint <==> insights.score < 70
    ensures v.keywords == insights.keywords && v.suggestions == insights.suggestions
    ensures v.optimizedTitles.Some? <==> NonEmptyList(insights.optimizedTitles)
    ensures v.optimizedDescriptions.Some? <==> NonEmptyList(insights.optimizedDescriptions)
  {
    View(
      insights.score,
      GetScoreRingColor(insights.score),
      ScoreTextColor(insights.score),
      ShowHint(insights.score),
      insights.keywords,
      insights.suggestions,
      OptionalSection(insights.optimizedTitles),
      OptionalSection(insights.optimizedDescriptions))
  }
}
