/**
 * The transcript route: check the posted URL, extract the video id with the
 * pattern `(?:youtube\.com\/watch\?v=|youtu\.be\/)([^&\n?#]+)`, ask the
 * transcript vendor once, and pass its transcript and title on.
 */
module TranscriptRoute {
  import opened Js
  import opened Http

  const WatchPrefix: string := "youtube.com/watch?v="
  const ShortPrefix: string := "youtu.be/"
  const VendorEndpoint: string := "https://youtube-transcript3.p.rapidapi.com/youtubetranscript?video_id="

  const UrlRequired: string := "YouTube URL is required"
  const InvalidUrl: string := "Invalid YouTube URL"
  const RequestFailed: string := "RapidAPI request failed: "
  const NoTranscript: string := "No transcript found for this video"
  const FetchFallback: string := "Failed to fetch transcript"
  const DefaultTitle: string := "YouTube Video"

  /** The posted JSON body: unreadable, or an object whose `url` may be missing. */
  datatype TranscriptRequest = UnreadableBody(message: string) | UrlField(url: Option<string>)

  /** The vendor's JSON answer: unreadable, `null`, or an object with optional fields. */
  datatype VendorJson =
    | UnreadableJson(message: string)
    | NullJson
    | VendorData(transcript: Option<TranscriptValue>, title: Option<string>)

  /** What the one `fetch` to the vendor gives: a thrown error, or a response. */
  datatype VendorReply = FetchFailed(message: string) | Replied(ok: bool, status: int, json: VendorJson)

  /** The request sent to the vendor, if any, and the route's answer. */
  datatype Handled = Handled(fetched: Option<string>, response: Response)

  // ---------------------------------------------------------------------
  // The pattern, as an explicit leftmost search

  /** The characters the id group `[^&\n?#]` excludes. */
  predicate IsDelimiter(c: char) {
    c == '&' || c == '\n' || c == '?' || c == '#'
  }

  predicate PrefixAt(s: string, i: nat, p: string) {
    i + |p| <= |s| && s[i..i + |p|] == p
  }

  /**
   * Where the id begins when the pattern matches at position `i`: one of the
   * two prefixes followed by at least one id character.
   */
  function IdStart(s: string, i: nat): (r: Option<nat>)
    ensures r.Some? ==> i < r.value < |s| && !IsDelimiter(s[r.value])
    ensures r.Some? ==>
      (PrefixAt(s, i, WatchPrefix) && r.value == i + |WatchPrefix|) ||
      (PrefixAt(s, i, ShortPrefix) && r.value == i + |ShortPrefix|)
    ensures r.None? <==>
      !(PrefixAt(s, i, WatchPrefix) && i + |WatchPrefix| < |s| && !IsDelimiter(s[i + |WatchPrefix|])) &&
      !(PrefixAt(s, i, ShortPrefix) && i + |ShortPrefix| < |s| && !IsDelimiter(s[i + |ShortPrefix|]))
  {
    if PrefixAt(s, i, WatchPrefix) && i + |WatchPrefix| < |s| && !IsDelimiter(s[i + |WatchPrefix|])
    then Some(i + |WatchPrefix|)
    else if PrefixAt(s, i, ShortPrefix) && i + |ShortPrefix| < |s| && !IsDelimiter(s[i + |ShortPrefix|])
    then Some(i + |ShortPrefix|)
    else None
  }

  /** The greedy `[^&\n?#]*` run from position `k`: up to the next delimiter or the end. */
  function IdRun(s: string, k: nat): (r: string)
    requires k <= |s|
    ensures k + |r| <= |s| && r == s[k..k + |r|]
    ensures forall m :: 0 <= m < |r| ==> !IsDelimiter(r[m])
    ensures k + |r| == |s| || IsDelimiter(s[k + |r|])
    decreases |s| - k
  {
    if k == |s| || IsDelimiter(s[k]) then "" else [s[k]] + IdRun(s, k + 1)
  }

  /** The leftmost position at or after `i` where the pattern matches. */
  function FirstMatch(s: string, i: nat): (r: Option<nat>)
    requires i <= |s|
    ensures r.Some? ==> i <= r.value < |s| && IdStart(s, r.value).Some?
    ensures r.Some? ==> forall j :: i <= j < r.value ==> IdStart(s, j).None?
    ensures r.None? ==> forall j :: i <= j <= |s| ==> IdStart(s, j).None?
    decreases |s| - i
  {
    if IdStart(s, i).Some? then Some(i)
    else if i == |s| then None
    else FirstMatch(s, i + 1)
  }

  /** `url.match(pattern)[1]`, or `None` when the pattern does not match. */
  function VideoId(url: string): (r: Option<string>)
    ensures r.None? <==> forall j :: 0 <= j <= |url| ==> IdStart(url, j).None?
    ensures r.Some? ==> |r.value| > 0 && forall m :: 0 <= m < |r.value| ==> !IsDelimiter(r.value[m])
  {
    match FirstMatch(url, 0)
    case None => None
    case Some(i) =>
      var k := IdStart(url, i).value;
      assert IdRun(url, k) != "" by { assert !IsDelimiter(url[k]); }
      Some(IdRun(url, k))
  }

  /**
   * The id is exactly the text from the end of the leftmost matching prefix
   * to the next delimiter or the end of the URL.
   */
  lemma {:induction false} VideoIdIsLeftmostMaximalRun(url: string, i: nat, e: nat)
    requires i <= |url| && IdStart(url, i).Some?
    requires forall j :: 0 <= j < i ==> IdStart(url, j).None?
    requires IdStart(url, i).value <= e <= |url|
    requires forall m :: IdStart(url, i).value <= m < e ==> !IsDelimiter(url[m])
    requires e == |url| || IsDelimiter(url[e])
    ensures VideoId(url) == Some(url[IdStart(url, i).value..e])
  {
    var k := IdStart(url, i).value;
    assert FirstMatch(url, 0) == Some(i);
    IdRunEndsAt(url, k, e);
  }

  /** A delimiter-free stretch from `k` that ends at a delimiter or at the end is the run from `k`. */
  lemma {:induction false} IdRunEndsAt(s: string, k: nat, e: nat)
    requires k <= e <= |s|
    requires forall m :: k <= m < e ==> !IsDelimiter(s[m])
    requires e == |s| || IsDelimiter(s[e])
    ensures IdRun(s, k) == s[k..e]
    decreases e - k
  {
    if k < e {
      IdRunEndsAt(s, k + 1, e);
      assert s[k..e] == [s[k]] + s[k + 1..e];
    }
  }

  /** No match can start at a character other than 'y'. */
  lemma NoMatchOffY(s: string, j: nat)
    requires j < |s| && s[j] != 'y'
    ensures IdStart(s, j).None?
  {
    if j + |WatchPrefix| <= |s| {
      assert s[j..j + |WatchPrefix|][0] == s[j] != WatchPrefix[0];
    }
    if j + |ShortPrefix| <= |s| {
      assert s[j..j + |ShortPrefix|][0] == s[j] != ShortPrefix[0];
    }
  }

  /**
   * Any text without a 'y', then either prefix, then a non-empty id, then
   * nothing or a delimiter: the extracted id is that id.
   */
  lemma {:induction false} CanonicalFormExtracts(lead: string, prefix: string, id: string, tail: string)
    requires prefix == WatchPrefix || prefix == ShortPrefix
    requires forall j :: 0 <= j < |lead| ==> lead[j] != 'y'
    requires |id| > 0 && forall m :: 0 <= m < |id| ==> !IsDelimiter(id[m])
    requires tail == "" || IsDelimiter(tail[0])
    ensures VideoId(lead + prefix + id + tail) == Some(id)
  {
    var s := lead + prefix + id + tail;
    var i := |lead|;
    forall j | 0 <= j < i
      ensures IdStart(s, j).None?
    {
      assert s[j] == lead[j];
      NoMatchOffY(s, j);
    }
    forall m | 0 <= m < |prefix|
      ensures s[i + m] == prefix[m]
    {
    }
    assert s[i..i + |prefix|] == prefix;
    var k := i + |prefix|;
    assert s[k] == id[0];
    assert PrefixAt(s, i, prefix);
    if prefix == ShortPrefix {
      assert s[i + 5] == ShortPrefix[5] != WatchPrefix[5];
      assert !PrefixAt(s, i, WatchPrefix);
    }
    assert IdStart(s, i) == Some(k);
    var e := k + |id|;
    assert s[k..e] == id;
    forall m | k <= m < e
      ensures !IsDelimiter(s[m])
    {
      assert s[m] == id[m - k];
    }
    assert e == |s| || s[e] == tail[0];
    VideoIdIsLeftmostMaximalRun(s, i, e);
  }

  /** The short form: the id stops at the first delimiter. */
  lemma ShortUrlExample()
    ensures VideoId("youtu.be/ab?t=1") == Some("ab")
  {
    CanonicalFormExtracts("", ShortPrefix, "ab", "?t=1");
    assert "" + ShortPrefix + "ab" + "?t=1" == "youtu.be/ab?t=1";
  }

  /** A prefix followed directly by a delimiter is no match. */
  lemma EmptyIdExample()
    ensures VideoId("youtu.be/#x") == None
  {
    var t := "youtu.be/#x";
    forall j | 0 <= j <= |t|
      ensures IdStart(t, j).None?
    {
      if j == 0 {
        assert IsDelimiter(t[9]);
      } else if j < |t| {
        NoMatchOffY(t, j);
      }
    }
  }

  /** The long form inside a full URL (`https://www.youtube.com/watch?v=dQw4w9WgXcQ&t=42`): the id runs to the `&`. */
  lemma WatchUrlExample()
    ensures VideoId("https://www." + WatchPrefix + "dQw4w9WgXcQ" + "&t=42") == Some("dQw4w9WgXcQ")
  {
    var lead, id := "https://www.", "dQw4w9WgXcQ";
    assert forall j :: 0 <= j < |lead| ==> lead[j] != 'y';
    assert forall m :: 0 <= m < |id| ==> !IsDelimiter(id[m]);
    CanonicalFormExtracts(lead, WatchPrefix, id, "&t=42");
  }

  // ---------------------------------------------------------------------
  // The route

  /** `error.message || 'Failed to fetch transcript'` with status 500. */
  function Failure(message: string): Response {
    Response(500, ErrorBody(if message != "" then message else FetchFallback))
  }

  /** The vendor answered, the answer was ok, and its JSON holds a truthy transcript. */
  predicate Delivered(reply: VendorReply) {
    reply.Replied? && reply.ok && reply.json.VendorData? && TranscriptPresent(reply.json.transcript)
  }

  /** The route's `POST`, with the vendor's reply as a parameter. */
  function HandleTranscript(req: TranscriptRequest, reply: VendorReply): (h: Handled)
    ensures req.UnreadableBody? ==> h == Handled(None, Failure(req.message))
    ensures req.UrlField? && !Truthy(req.url) ==> h == Handled(None, Response(400, ErrorBody(UrlRequired)))
    ensures req.UrlField? && Truthy(req.url) && VideoId(req.url.value).None? ==>
      h == Handled(None, Response(400, ErrorBody(InvalidUrl)))
    ensures h.fetched.Some? <==> req.UrlField? && Truthy(req.url) && VideoId(req.url.value).Some?
    ensures h.fetched.Some? ==> h.fetched.value == VendorEndpoint + VideoId(req.url.value).value
    ensures h.fetched.Some? && reply.Replied? && !reply.ok ==>
      h.response == Response(500, ErrorBody(RequestFailed + IntToString(reply.status)))
    ensures h.fetched.Some? && reply.Replied? && reply.ok && !Delivered(reply) && !reply.json.UnreadableJson? ==>
      h.response == Response(500, ErrorBody(NoTranscript))
    ensures h.fetched.Some? && reply.FetchFailed? ==> h.response == Failure(reply.message)
    ensures h.fetched.Some? && reply.Replied? && reply.ok && reply.json.UnreadableJson? ==>
      h.response == Failure(reply.json.message)
    ensures h.response.status == 200 <==> h.fetched.Some? && Delivered(reply)
    ensures h.response.status == 200 ==>
      h.response.body == TranscriptBody(reply.json.transcript.value, OrElse(reply.json.title, DefaultTitle))
    ensures h.response.status == 200 || h.response.status == 400 || h.response.status == 500
  {
    match req
    case UnreadableBody(message) => Handled(None, Failure(message))
    case UrlField(url) =>
      if !Truthy(url) then Handled(None, Response(400, ErrorBody(UrlRequired)))
      else
        match VideoId(url.value)
        case None => Handled(None, Response(400, ErrorBody(InvalidUrl)))
        case Some(videoId) =>
          var response :=
            match reply
            case FetchFailed(message) => Failure(message)
            case Replied(ok, status, json) =>
              if !ok then Failure(RequestFailed + IntToString(status))
              else
                match json
                case UnreadableJson(message) => Failure(message)
                case NullJson => Failure(NoTranscript)
                case VendorData(transcript, title) =>
                  if !TranscriptPresent(transcript) then Failure(NoTranscript)
                  else Response(200, TranscriptBody(transcript.value, OrElse(title, DefaultTitle)));
          Handled(Some(VendorEndpoint + videoId), response)
  }

  /** A URL the pattern does not match is refused with 400 before any vendor request. */
  lemma InvalidUrlMakesNoRequest(url: string, reply: VendorReply)
    requires url != "" && forall j :: 0 <= j <= |url| ==> IdStart(url, j).None?
    ensures HandleTranscript(UrlField(Some(url)), reply) == Handled(None, Response(400, ErrorBody(InvalidUrl)))
  {
  }
}
