/**
  Request validation and source routing shared by the `/summarize` and
  `/summarize/advanced` endpoints: the URL check, the language table, and the
  choice between the YouTube path and the generic web-page path.
 */
module Routing {
  import opened Wrappers
  import opened Text
  import opened VideoId

  /** The `language_codes` table: request language name to two-letter code. */
  const LanguageCodes: map<string, string> := map[
    "English" := "en", "Arabic" := "ar", "Spanish" := "es", "French" := "fr", "German" := "de",
    "Italian" := "it", "Portuguese" := "pt", "Chinese" := "zh", "Japanese" := "ja", "Korean" := "ko"
  ]

  /** The ten language names a request may carry. */
  const SupportedLanguages: set<string> := {
    "English", "Arabic", "Spanish", "French", "German",
    "Italian", "Portuguese", "Chinese", "Japanese", "Korean"
  }

  /** A two-letter lower-case code, the shape of the table's values. */
  predicate IsTwoLetterCode(code: string)
  {
    |code| == 2 && 'a' <= code[0] <= 'z' && 'a' <= code[1] <= 'z'
  }

  /** Lookup of a request language in the table. */
  function LanguageCode(language: string): (r: Option<string>)
    ensures r.Some? <==> language in SupportedLanguages
    ensures r.Some? ==> IsTwoLetterCode(r.value)
  {
    if language in LanguageCodes then Some(LanguageCodes[language]) else None
  }

  /** `language_codes.get(language, 'en')`: the table's code, or English for a name it lacks. */
  function CodeOrEnglish(language: string): (code: string)
    ensures IsTwoLetterCode(code)
    ensures language in SupportedLanguages ==> LanguageCode(language) == Some(code)
    ensures language !in SupportedLanguages ==> code == "en"
  {
    match LanguageCode(language)
    case Some(c) => c
    case None => "en"
  }

  /** The table read backwards, written out independently of it. */
  function LanguageForCode(code: string): Option<string>
  {
    match code
    case "en" => Some("English")
    case "ar" => Some("Arabic")
    case "es" => Some("Spanish")
    case "fr" => Some("French")
    case "de" => Some("German")
    case "it" => Some("Italian")
    case "pt" => Some("Portuguese")
    case "zh" => Some("Chinese")
    case "ja" => Some("Japanese")
    case "ko" => Some("Korean")
    case _ => None
  }

  /** Every supported language's code leads back to that language. */
  lemma CodeLeadsBack(language: string)
    requires language in SupportedLanguages
    ensures LanguageCode(language).Some?
    ensures LanguageForCode(LanguageCode(language).value) == Some(language)
  {
  }

  /** Every code the backward table knows is the code of the language it names. */
  lemma LanguageLeadsBack(code: string)
    requires LanguageForCode(code).Some?
    ensures LanguageCode(LanguageForCode(code).value) == Some(code)
  {
  }

  /** Distinct languages get distinct codes. */
  lemma CodesDistinct(a: string, b: string)
    requires a in SupportedLanguages && b in SupportedLanguages && a != b
    ensures LanguageCode(a) != LanguageCode(b)
  {
    CodeLeadsBack(a);
    CodeLeadsBack(b);
  }

  /** The substring that sends a URL down the YouTube path. */
  const YouTubeDomain: string := "youtube.com"

  /** `url` holds `youtube.com` somewhere, as a plain substring and not as a parsed host. */
  ghost predicate MentionsYouTube(url: string)
  {
    exists j: nat :: j <= |url| && OccursAt(url, YouTubeDomain, j)
  }

  datatype RequestError = InvalidUrl | InvalidLanguage

  /** The input checks both endpoints run before any fetch. The URL is checked first. */
  function Validate(url: string, language: string, urlValid: bool): (r: Result<string, RequestError>)
    ensures r.Failure? <==> !urlValid || language !in SupportedLanguages
    ensures r.Failure? ==> (r.error == InvalidUrl <==> !urlValid)
    ensures r.Success? ==> IsTwoLetterCode(r.value) && LanguageForCode(r.value) == Some(language)
  {
    if !urlValid then Failure(InvalidUrl)
    else match LanguageCode(language)
      case None => Failure(InvalidLanguage)
      case Some(code) =>
        CodeLeadsBack(language);
        Success(code)
  }

  /** What an endpoint fetches once the request has passed validation. */
  datatype Plan =
    | TranscriptFetch(videoId: string, languageCode: string)  // `/summarize`: YouTube URL with an id
    | NoTranscript                                            // `/summarize`: YouTube URL without an id
    | YoutubeLoad(url: string, languageCode: string)          // `/summarize/advanced`: YouTube URL
    | PageLoad(url: string)                                   // both: any other URL

  /**
    The routing part of `/summarize`: a YouTube URL has its id extracted and
    its transcript requested in the language's code (the `'en'` fallback of
    the lookup never applies after validation); any other URL is loaded as a
    web page.
   */
  function SummarizePlan(url: string, language: string, urlValid: bool): (r: Result<Plan, RequestError>)
    ensures r.Failure? <==> Validate(url, language, urlValid).Failure?
    ensures r.Failure? ==> r.error == Validate(url, language, urlValid).error
    ensures r.Success? ==> (r.value.PageLoad? <==> !MentionsYouTube(url))
    ensures r.Success? && r.value.PageLoad? ==> r.value.url == url
    ensures r.Success? && r.value.TranscriptFetch? ==>
      && ExtractVideoId(url) == Some(r.value.videoId)
      && LanguageForCode(r.value.languageCode) == Some(language)
    ensures r.Success? && MentionsYouTube(url) ==> (r.value.NoTranscript? <==> ExtractVideoId(url).None?)
    ensures r.Success? ==> !r.value.YoutubeLoad?
  {
    match Validate(url, language, urlValid)
    case Failure(e) => Failure(e)
    case Success(_) =>
      if Contains(url, YouTubeDomain) then
        match ExtractVideoId(url)
        case Some(id) =>
          CodeLeadsBack(language);
          Success(TranscriptFetch(id, CodeOrEnglish(language)))
        case None => Success(NoTranscript)
      else Success(PageLoad(url))
  }

  /**
    The routing part of `/summarize/advanced`: a YouTube URL goes to the
    video loader with the language's code, any other URL is loaded as a web
    page.
   */
  function SummarizeAdvancedPlan(url: string, language: string, urlValid: bool): (r: Result<Plan, RequestError>)
    ensures r.Failure? <==> Validate(url, language, urlValid).Failure?
    ensures r.Failure? ==> r.error == Validate(url, language, urlValid).error
    ensures r.Success? ==> (r.value.YoutubeLoad? <==> MentionsYouTube(url))
    ensures r.Success? ==> r.value.YoutubeLoad? || r.value.PageLoad?
    ensures r.Success? ==> r.value.url == url
    ensures r.Success? && r.value.YoutubeLoad? ==> LanguageForCode(r.value.languageCode) == Some(language)
  {
    match Validate(url, language, urlValid)
    case Failure(e) => Failure(e)
    case Success(code) =>
      if Contains(url, YouTubeDomain) then Success(YoutubeLoad(url, code))
      else Success(PageLoad(url))
  }

  /** An unsupported language is turned away by both endpoints, so nothing is fetched for it. */
  lemma UnsupportedLanguageFetchesNothing(url: string, language: string)
    requires language !in SupportedLanguages
    ensures SummarizePlan(url, language, true) == Failure(InvalidLanguage)
    ensures SummarizeAdvancedPlan(url, language, true) == Failure(InvalidLanguage)
  {
  }

  /** Any URL with `youtube.com` inside it, whatever surrounds it, takes the YouTube path. */
  lemma YouTubeAnywhereRoutesToVideo(before: string, after: string, language: string)
    requires language in SupportedLanguages
    ensures SummarizeAdvancedPlan(before + YouTubeDomain + after, language, true).value.YoutubeLoad?
    ensures !SummarizePlan(before + YouTubeDomain + after, language, true).value.PageLoad?
  {
    ContainsInContext(before, YouTubeDomain, after);
  }

  /** A YouTube URL with an extractable id becomes a transcript request for that id. */
  lemma VideoUrlPlan(url: string, language: string)
    requires language in SupportedLanguages
    ensures MentionsYouTube(url) && ExtractVideoId(url).Some? ==>
      SummarizePlan(url, language, true) == Success(TranscriptFetch(ExtractVideoId(url).value, LanguageCodes[language]))
  {
  }

  /** The canonical watch URL holds `youtube.com` in its host. */
  lemma WatchUrlMentionsYouTube(url: string)
    requires url == "https://www.youtube.com/watch?v=dQw4w9WgXcQ"
    ensures MentionsYouTube(url)
  {
    assert forall k :: 0 <= k < |YouTubeDomain| ==> url[12 + k] == YouTubeDomain[k];
    assert OccursAt(url, YouTubeDomain, 12);
  }

  /** The canonical watch URL in English becomes a transcript request for its id in `en`. */
  lemma WatchUrlPlan(url: string)
    requires url == "https://www.youtube.com/watch?v=dQw4w9WgXcQ"
    ensures SummarizePlan(url, "English", true) == Success(TranscriptFetch("dQw4w9WgXcQ", "en"))
  {
    WatchUrlMentionsYouTube(url);
    WatchUrlExample(url);
    VideoUrlPlan(url, "English");
  }

  /** A `youtu.be` short link does not hold `youtube.com`, so it is loaded as a web page. */
  lemma ShortLinkIsWebPage()
    ensures SummarizeAdvancedPlan("https://youtu.be/dQw4w9WgXcQ", "English", true)
         == Success(PageLoad("https://youtu.be/dQw4w9WgXcQ"))
  {
    var url := "https://youtu.be/dQw4w9WgXcQ";
    forall j: nat | j <= |url| ensures !OccursAt(url, YouTubeDomain, j) {
      if j + |YouTubeDomain| <= |url| {
        assert url[j + 10] != YouTubeDomain[10];
      }
    }
  }
}
