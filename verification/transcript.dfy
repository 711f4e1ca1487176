/** Fetching a video transcript through a chosen proxy and flattening it to one string. */
module Transcript {
  import opened Wrappers
  import opened Text
  import opened Proxy

  /** One timed snippet of a transcript; only its `text` is used, so only it is kept. */
  datatype TranscriptEntry = TranscriptEntry(text: string)

  /**
    The external transcript service: video id, language code and `proxies`
    mapping in, the snippets or a failure out.
   */
  type TranscriptService = (string, string, ProxyConfig) -> Option<seq<TranscriptEntry>>

  function Texts(entries: seq<TranscriptEntry>): seq<string>
  {
    seq(|entries|, i requires 0 <= i < |entries| => entries[i].text)
  }

  /** `" ".join([entry['text'] for entry in transcript])`. */
  function JoinTranscript(entries: seq<TranscriptEntry>): (r: string)
    ensures |entries| == 0 ==> r == ""
    ensures |entries| == 1 ==> r == entries[0].text
    ensures |entries| >= 1 ==> |r| == SumLengths(Texts(entries)) + |entries| - 1
  {
    Join(Texts(entries), ' ')
  }

  /** Snippets without spaces can be recovered from the joined text by splitting on spaces. */
  lemma JoinTranscriptSplits(entries: seq<TranscriptEntry>)
    requires |entries| >= 1
    requires forall i :: 0 <= i < |entries| ==> ' ' !in entries[i].text
    ensures Split(JoinTranscript(entries), ' ') == Texts(entries)
  {
    SplitJoin(Texts(entries), ' ');
  }

  /** The joined text keeps snippet order: two runs of snippets join to their joins, one space apart. */
  lemma JoinTranscriptAppend(a: seq<TranscriptEntry>, b: seq<TranscriptEntry>)
    requires |a| >= 1 && |b| >= 1
    ensures JoinTranscript(a + b) == JoinTranscript(a) + " " + JoinTranscript(b)
  {
    assert Texts(a + b) == Texts(a) + Texts(b);
    JoinAppend(Texts(a), Texts(b), ' ');
  }

  /**
    `get_youtube_transcript(video_id, language)`: pick a proxy with `draw`,
    ask the service, and join the snippets. Any failure on the way, an
    empty or malformed pool included, is swallowed into `None`.
   */
  function GetYoutubeTranscript(pool: seq<string>, draw: nat, videoId: string, language: string,
                                service: TranscriptService): (r: Option<string>)
    ensures r.Some? <==>
      && GetRandomProxy(pool, draw).Success?
      && service(videoId, language, GetRandomProxy(pool, draw).value).Some?
    ensures r.Some? ==>
      r.value == JoinTranscript(service(videoId, language, GetRandomProxy(pool, draw).value).value)
    ensures |pool| == 0 ==> r.None?
  {
    match GetRandomProxy(pool, draw)
    case Failure(_) => None
    case Success(proxies) =>
      match service(videoId, language, proxies)
      case None => None
      case Some(entries) => Some(JoinTranscript(entries))
  }

  /** With a non-empty pool of well-formed entries only the service itself can make the fetch fail. */
  lemma WellFormedPoolTranscript(pool: seq<string>, draw: nat, videoId: string, language: string,
                                 service: TranscriptService)
    requires WellFormedPool(pool)
    ensures GetYoutubeTranscript(pool, draw, videoId, language, service).None?
        <==> service(videoId, language, GetRandomProxy(pool, draw).value).None?
  {
  }
}
