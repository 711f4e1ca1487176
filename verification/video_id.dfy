/**
  The YouTube video-id extractor: an unanchored search for `v=` or `/`
  followed by exactly eleven characters of `[0-9A-Za-z_-]`, returning the
  eleven characters of the leftmost match, or nothing.
 */
module VideoId {
  import opened Wrappers

  /** The captured group is a fixed eleven characters long. */
  const IdLength: nat := 11

  /** Membership in the character class `[0-9A-Za-z_-]`. */
  predicate IsIdChar(c: char)
  {
    ('0' <= c <= '9') || ('A' <= c <= 'Z') || ('a' <= c <= 'z') || c == '_' || c == '-'
  }

  predicate AllIdChars(s: string)
  {
    forall i :: 0 <= i < |s| ==> IsIdChar(s[i])
  }

  /**
    Length of the `(?:v=|/)` prefix matched at position `p`, 0 when neither
    alternative matches there. The alternatives are tried in order; at most
    one can apply, since one starts with `v` and the other with `/`.
   */
  function PrefixLength(url: string, p: nat): nat
    requires p <= |url|
  {
    if p + 2 <= |url| && url[p] == 'v' && url[p + 1] == '=' then 2
    else if p < |url| && url[p] == '/' then 1
    else 0
  }

  /** The whole pattern matches with its match starting at `p`. */
  predicate MatchesAt(url: string, p: nat)
    requires p <= |url|
  {
    var k := PrefixLength(url, p);
    k > 0 && p + k + IdLength <= |url| && AllIdChars(url[p + k..p + k + IdLength])
  }

  /** `p` is where `re.search` reports its match: the first start position that matches. */
  predicate IsLeftmostMatch(url: string, p: nat)
  {
    p <= |url| && MatchesAt(url, p) && forall q: nat :: q < p ==> !MatchesAt(url, q)
  }

  /** The captured group of a match starting at `p`. */
  function GroupAt(url: string, p: nat): string
    requires p <= |url| && MatchesAt(url, p)
  {
    var k := PrefixLength(url, p);
    url[p + k..p + k + IdLength]
  }

  /** `id` sits in `url` at index `j`, immediately after `v=` or `/`. */
  predicate PrecededByPrefix(url: string, id: string, j: nat)
  {
    && j + |id| <= |url|
    && url[j..j + |id|] == id
    && ((j >= 1 && url[j - 1] == '/') || (j >= 2 && url[j - 2] == 'v' && url[j - 1] == '='))
  }

  /** The scanning loop of `re.search`: try start positions `p`, `p + 1`, ... in turn. */
  function SearchFrom(url: string, p: nat): (r: Option<nat>)
    requires p <= |url|
    decreases |url| - p
    ensures r.None? <==> forall q: nat :: p <= q <= |url| ==> !MatchesAt(url, q)
    ensures r.Some? ==> p <= r.value <= |url| && MatchesAt(url, r.value)
    ensures r.Some? ==> forall q: nat :: p <= q < r.value ==> !MatchesAt(url, q)
  {
    if MatchesAt(url, p) then Some(p)
    else if p == |url| then None
    else SearchFrom(url, p + 1)
  }

  /** `get_youtube_video_id(url)`. */
  function ExtractVideoId(url: string): (r: Option<string>)
    ensures r.None? <==> forall p: nat :: p <= |url| ==> !MatchesAt(url, p)
    ensures r.Some? ==> |r.value| == IdLength && AllIdChars(r.value)
    ensures r.Some? ==> exists p: nat :: IsLeftmostMatch(url, p) && r.value == GroupAt(url, p)
    ensures r.Some? ==> exists j: nat :: PrecededByPrefix(url, r.value, j)
  {
    match SearchFrom(url, 0)
    case None => None
    case Some(p) =>
      var id := GroupAt(url, p);
      var j := p + PrefixLength(url, p);
      assert IsLeftmostMatch(url, p);
      assert PrecededByPrefix(url, id, j);
      Some(id)
  }

  /** Two leftmost matches are the same match, so the extracted id is determined by the url. */
  lemma LeftmostUnique(url: string, p: nat, q: nat)
    requires IsLeftmostMatch(url, p) && IsLeftmostMatch(url, q)
    ensures p == q
  {
  }

  /** Whatever comes after the eleven characters is ignored, more id characters included. */
  lemma SlashThenId(id: string, rest: string)
    requires |id| == IdLength && AllIdChars(id)
    ensures ExtractVideoId("/" + id + rest) == Some(id)
  {
  }

  /** The `v=` query form; again nothing after the eleven characters matters. */
  lemma QueryThenId(id: string, rest: string)
    requires |id| == IdLength && AllIdChars(id)
    ensures ExtractVideoId("v=" + id + rest) == Some(id)
  {
  }

  /** An extracted id, written back as a `v=` parameter, extracts to itself. */
  lemma ReextractIsStable(url: string)
    requires ExtractVideoId(url).Some?
    ensures ExtractVideoId("v=" + ExtractVideoId(url).value) == ExtractVideoId(url)
  {
    var id := ExtractVideoId(url).value;
    QueryThenId(id, "");
    assert "v=" + id + "" == "v=" + id;
  }

  /** A bare id has neither `/` nor `=` in it, so on its own it does not match. */
  lemma BareIdDoesNotMatch(id: string)
    requires AllIdChars(id)
    ensures ExtractVideoId(id) == None
  {
  }

  /** No start position before the `v=` of the canonical watch URL matches. */
  lemma WatchUrlEarlyPositions(url: string)
    requires url == "https://www.youtube.com/watch?v=dQw4w9WgXcQ"
    ensures forall q: nat :: q < 30 ==> !MatchesAt(url, q)
  {
    assert forall q :: 0 <= q < 30 ==> url[q] != 'v';
    assert forall q :: 0 <= q < 30 && q != 6 && q != 7 && q != 23 ==> url[q] != '/';
    forall q: nat | q < 30 ensures !MatchesAt(url, q) {
      if q == 6 { assert !IsIdChar(url[7]); }
      else if q == 7 { assert !IsIdChar(url[11]); }
      else if q == 23 { assert !IsIdChar(url[29]); }
    }
  }

  /** The canonical watch URL: the `/` before `watch` and the two in `https://`
      are rejected because a `/`, `.` or `?` falls within the next eleven
      characters, so the leftmost match is the `v=` parameter. */
  lemma WatchUrlExample(url: string)
    requires url == "https://www.youtube.com/watch?v=dQw4w9WgXcQ"
    ensures ExtractVideoId(url) == Some("dQw4w9WgXcQ")
  {
    assert url[32..43] == "dQw4w9WgXcQ";
    assert MatchesAt(url, 30);
    WatchUrlEarlyPositions(url);
    assert IsLeftmostMatch(url, 30);
    var r := ExtractVideoId(url);
    var p: nat :| IsLeftmostMatch(url, p) && r.value == GroupAt(url, p);
    LeftmostUnique(url, p, 30);
  }
}
