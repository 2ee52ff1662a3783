/** The records and enumerations of `types.ts`, plus the few shapes the
    components pass between each other. An optional property (`title?`) is an
    `Option`; a failed remote call is an `Outcome.Failure` carrying the error's
    message. */
module Types {

  datatype Option<+T> = None | Some(value: T)

  /** What a remote call settles to: its value, or the message of the `Error` it threw. */
  datatype Outcome<+T> = Success(value: T) | Failure(message: string)

  datatype Tone = Auto | Witty | Professional | Casual | Inspirational | Humorous

  datatype Platform = Instagram | Twitter | LinkedIn | Facebook | TikTok | Blog

  datatype EmotionalPower = Low | Medium | High

  datatype SeoInsights = SeoInsights(
    score: int,
    keywords: seq<string>,
    suggestions: seq<string>,
    optimizedTitles: Option<seq<string>>,
    optimizedDescriptions: Option<seq<string>>)

  datatype InputSeoAnalysis = InputSeoAnalysis(
    score: int,
    keywords: seq<string>,
    suggestions: seq<string>,
    emotionalPower: Option<EmotionalPower>)

  datatype Hashtags = Hashtags(broad: seq<string>, niche: seq<string>, trending: seq<string>)

  datatype GeneratedContent = GeneratedContent(
    caption: string,
    hashtags: Hashtags,
    title: Option<string>,
    postingTimes: Option<seq<string>>,
    seoInsights: SeoInsights)

  /** A history entry: the generated content spread together with its own fields. */
  datatype HistoryItem = HistoryItem(
    content: GeneratedContent,
    id: string,
    postIdea: string,
    timestamp: string,
    imagePreview: Option<string>)

  /** The uploaded image the form holds: its MIME type, base64 payload and object URL. */
  datatype Image = Image(mimeType: string, data: string, preview: string)

  datatype Tab = ContentTab | SeoTab

  /** JavaScript truthiness of an optional string: present and not empty. */
  predicate Truthy(s: Option<string>) {
    s.Some? && s.value != ""
  }

  /** JavaScript `xs && xs.length > 0` on an optional list. */
  predicate NonEmptyList(xs: Option<seq<string>>) {
    xs.Some? && |xs.value| > 0
  }
}
