/** The SEO-tab panel that shows the remote analysis of the user's own text:
    a score ring, the emotional-power rating, keywords, suggestions, a
    "could be improved" banner and the "Automatically Fix SEO" button. */
module InputSeoAnalysisDisplay {
  import opened Types
  import opened Bands
  import opened JsString

  /** `getScoreColor` of the score ring. */
  function GetScoreColor(s: int): (r: string)
    ensures r == "text-" + Hue(BandOf(s)) + "-500"
  {
    if s < 60 then "text-red-500"
    else if s < 80 then "text-yellow-500"
    else "text-green-500"
  }

  /** `getScoreBackgroundColor`: the ring's track, in a paler shade of the
      same band. A class attribute with several classes is written as the
      list of its classes joined by spaces. */
  function GetScoreBackgroundColor(s: int): (r: string)
    ensures r == Join(TrackClasses(BandOf(s)), " ")
  {
    if s < 60 then Join(["text-red-200", "dark:text-red-500/20"], " ")
    else if s < 80 then Join(["text-yellow-200", "dark:text-yellow-500/20"], " ")
    else Join(["text-green-200", "dark:text-green-500/20"], " ")
  }

  /** The track classes of a band: its hue in the light and the dark theme. */
  function TrackClasses(b: Band): (r: seq<string>)
    ensures |r| == 2
  {
    match b
    case Red => ["text-red-200", "dark:text-red-500/20"]
    case Yellow => ["text-yellow-200", "dark:text-yellow-500/20"]
    case Green => ["text-green-200", "dark:text-green-500/20"]
  }

  /** In the light theme the track is a pale shade of the band's hue. */
  lemma TrackLightHue(b: Band)
    ensures TrackClasses(b)[0] == "text-" + Hue(b) + "-200"
  {
  }

  /** In the dark theme the track is the band's hue, faded. */
  lemma TrackDarkHue(b: Band)
    ensures TrackClasses(b)[1] == "dark:text-" + Hue(b) + "-500/20"
  {
  }

  const NeutralColor := Join(["text-gray-500", "dark:text-gray-400"], " ")

  /** `getEmotionalPowerColor`: High is coloured like a green score, Medium
      like a yellow one, and Low or an absent rating is neutral grey. */
  function GetEmotionalPowerColor(level: Option<EmotionalPower>): (r: string)
    ensures level == Some(High) ==> r == GetScoreColor(80)
    ensures level == Some(Medium) ==> r == GetScoreColor(60)
    ensures level == Some(Low) || level == None ==> r == NeutralColor
    ensures r == NeutralColor <==> level != Some(High) && level != Some(Medium)
  {
    match level
    case Some(High) => "text-green-500"
    case Some(Medium) => "text-yellow-500"
    case Some(Low) => Join(["text-gray-500", "dark:text-gray-400"], " ")
    case None => Join(["text-gray-500", "dark:text-gray-400"], " ")
  }

  function EmotionalPowerName(e: EmotionalPower): string {
    match e
    case Low => "Low"
    case Medium => "Medium"
    case High => "High"
  }

  /** `isScoreLow`. */
  predicate IsScoreLow(a: InputSeoAnalysis) {
    a.score < 80
  }

  /** A score is "low" exactly when its ring is not green. */
  lemma ScoreLowIffNotGreen(a: InputSeoAnalysis)
    ensures IsScoreLow(a) <==> BandOf(a.score) != Green
  {
  }

  datatype EmotionalPanel = EmotionalPanel(levelText: string, color: string)

  /** What the panel shows. */
  datatype View = View(
    score: int,
    ringColor: string,
    ringTrackColor: string,
    emotionalPanel: Option<EmotionalPanel>,
    keywords: seq<string>,
    showNoKeywords: bool,
    suggestions: seq<string>,
    showBanner: bool,
    fixDisabled: bool)

  /** The `InputSeoAnalysisDisplay` component for `analysis` and `isLoading`. */
  function Render(analysis: InputSeoAnalysis, isLoading: bool): (v: View)
    ensures v.score == analysis.score
    ensures v.ringColor == "text-" + Hue(BandOf(analysis.score)) + "-500"
    ensures v.ringTrackColor == GetScoreBackgroundColor(analysis.score)
    ensures v.emotionalPanel.Some? <==> analysis.emotionalPower.Some?
    ensures v.emotionalPanel.Some? ==>
              v.emotionalPanel.value.levelText == EmotionalPowerName(analysis.emotionalPower.value)
    ensures v.emotionalPanel.Some? ==>
              v.emotionalPanel.value.color == GetEmotionalPowerColor(analysis.emotionalPower)
    ensures v.keywords == analysis.keywords && v.suggestions == analysis.suggestions
    ensures v.showNoKeywords <==> analysis.keywords == []
    ensures v.showBanner <==> BandOf(analysis.score) != Green
    ensures v.fixDisabled <==> isLoading
  {
    var panel :=
      match analysis.emotionalPower
      case None => None
      case Some(e) => Some(EmotionalPanel(EmotionalPowerName(e), GetEmotionalPowerColor(analysis.emotionalPower)));
    View(
      analysis.score,
      GetScoreColor(analysis.score),
      GetScoreBackgroundColor(analysis.score),
      panel,
      analysis.keywords,
      |analysis.keywords| == 0,
      analysis.suggestions,
      IsScoreLow(analysis),
      isLoading)
  }
}
