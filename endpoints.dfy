/** The provider table both copies of the fallback loop build on every call,
    the headers each request carries, and the TikTok video-id extraction the
    second row's URL depends on. */
module Endpoints {
  import opened JsValues

  datatype HttpMethod = GET | POST

  /** Header name to value. Names are compared exactly, as the keys of the
      JavaScript object literal are. */
  type Headers = map<string, string>

  /** One row of the table: the provider's display name, where to send the
      request, with which method, the row's own headers and, for POST, the
      JSON body. */
  datatype Endpoint = Endpoint(
    name: string,
    url: string,
    verb: HttpMethod,
    headers: Headers,
    data: Option<Value>)

  /** What one attempt puts on the wire: the request handed to the HTTP
      client. */
  datatype Request = Request(
    verb: HttpMethod,
    url: string,
    headers: Headers,
    data: Option<Value>)

  const ProviderCount: nat := 5
  const ProviderNames: seq<string> :=
    ["TiklyDown", "TikTok Official", "Cobalt", "Noobs API", "TikWM"]

  const BrowserAgent := "Mozilla/5.0 (Windows NT 10.0; Win64; x64) AppleWebKit/537.36"
  const TikTokAppAgent := "com.ss.android.ugc.trill/494+TikTok+27.7.3+user_agent_hash"
  const JsonType := "application/json"
  const ContentTypeHeader := "Content-Type"

  const TiklyDownPrefix := "https://api.tiklydown.eu.org/api/download?url="
  const TikTokFeedPrefix := "https://api16-normal-c-useast1a.tiktokv.com/aweme/v1/feed/?aweme_id="
  const CobaltUrl := "https://api.cobalt.tools/api/json"
  const NoobsPrefix := "https://www.noobs-api.rf.gd/download?url="
  const TikWMUrl := "https://tikwm.com/api/"

  /** The headers every request starts from. */
  const DefaultHeaders: Headers := map["User-Agent" := BrowserAgent, "Accept" := JsonType]

  /** The headers of the request sent to `e`: the defaults overlaid with the
      row's own headers, which win on a shared name, and for POST a JSON
      `Content-Type` that wins over both. */
  function RequestHeaders(e: Endpoint): (h: Headers)
    ensures forall k :: k in h <==>
      k in DefaultHeaders || k in e.headers || (e.verb == POST && k == ContentTypeHeader)
    ensures forall k :: k in h ==>
      h[k] == (if e.verb == POST && k == ContentTypeHeader then JsonType
               else if k in e.headers then e.headers[k]
               else DefaultHeaders[k])
  {
    var merged := DefaultHeaders + e.headers;
    if e.verb == POST then merged[ContentTypeHeader := JsonType] else merged
  }

  function RequestFor(e: Endpoint): Request {
    Request(e.verb, e.url, RequestHeaders(e), e.data)
  }

  /** Builds the request for one row the way the loop body does: start from
      the defaults spread with the row's headers, then, for POST, set the JSON
      `Content-Type` on that header object. */
  method Prepare(e: Endpoint) returns (request: Request)
    ensures request == RequestFor(e)
  {
    var headers := DefaultHeaders + e.headers;
    if e.verb == POST {
      headers := headers[ContentTypeHeader := JsonType];
    }
    request := Request(e.verb, e.url, headers, e.data);
  }

  /** The requests for the rows of a table, one per row, in row order. */
  function Requests(table: seq<Endpoint>): seq<Request> {
    seq(|table|, j requires 0 <= j < |table| => RequestFor(table[j]))
  }

  // ----- extractTikTokId: the first match of /\/video\/(\d+)/ -----

  const VideoMarker := "/video/"

  /** The pattern matches at `p`: `/video/` followed by at least one digit. */
  predicate MatchesAt(s: string, p: int) {
    0 <= p && p + |VideoMarker| < |s| && s[p..p + |VideoMarker|] == VideoMarker
    && IsDigit(s[p + |VideoMarker|])
  }

  /** The longest run of digits starting at `k`, which is what the greedy
      `\d+` captures. */
  function DigitRun(s: string, k: nat): (d: string)
    requires k <= |s|
    ensures k + |d| <= |s| && d == s[k..k + |d|] && DigitsOnly(d)
    ensures k + |d| == |s| || !IsDigit(s[k + |d|])
    ensures k < |s| && IsDigit(s[k]) ==> |d| >= 1
    decreases |s| - k
  {
    if k < |s| && IsDigit(s[k]) then [s[k]] + DigitRun(s, k + 1) else ""
  }

  /** Scans positions `from`, `from + 1`, ... for the first match, as the
      regular-expression engine does. */
  function FindVideoId(s: string, from: nat): (r: Option<string>)
    requires from <= |s|
    ensures r.Some? ==> |r.value| >= 1 && DigitsOnly(r.value)
    ensures r.Some? ==> exists p :: from <= p && MatchesAt(s, p)
    decreases |s| - from
  {
    if from + |VideoMarker| >= |s| then None
    else if MatchesAt(s, from) then Some(DigitRun(s, from + |VideoMarker|))
    else FindVideoId(s, from + 1)
  }

  /** `extractTikTokId(url)`: the digits the regular expression captures,
      `None` standing for `null`. */
  function ExtractTikTokId(url: string): (id: Option<string>)
    ensures id.Some? ==> |id.value| >= 1 && DigitsOnly(id.value)
  {
    FindVideoId(url, 0)
  }

  /** `${id}` in the template: a missing id prints as `null`. */
  function IdText(id: Option<string>): string {
    match id
    case Some(d) => d
    case None => "null"
  }

  lemma {:induction false} FindVideoIdSpec(s: string, from: nat)
    requires from <= |s|
    ensures FindVideoId(s, from).None? <==> forall p :: from <= p ==> !MatchesAt(s, p)
    ensures FindVideoId(s, from).Some? ==>
      exists p :: (from <= p && MatchesAt(s, p)
                   && (forall q :: from <= q < p ==> !MatchesAt(s, q))
                   && FindVideoId(s, from).value == DigitRun(s, p + |VideoMarker|))
    decreases |s| - from
  {
    if from + |VideoMarker| >= |s| {
      forall p | from <= p ensures !MatchesAt(s, p) {}
    } else if MatchesAt(s, from) {
    } else {
      FindVideoIdSpec(s, from + 1);
      if FindVideoId(s, from + 1).Some? {
        var p :| from + 1 <= p && MatchesAt(s, p)
          && (forall q :: from + 1 <= q < p ==> !MatchesAt(s, q))
          && FindVideoId(s, from + 1).value == DigitRun(s, p + |VideoMarker|);
        assert forall q :: from <= q < p ==> !MatchesAt(s, q);
      } else {
        assert forall p :: from <= p ==> !MatchesAt(s, p) by {
          forall p | from <= p ensures !MatchesAt(s, p) {
            if p > from { assert from + 1 <= p; }
          }
        }
      }
    }
  }

  /** extractTikTokId returns null exactly when the pattern matches nowhere.
      Otherwise there is a leftmost position where `/video/` is followed by a
      digit, and the id is the maximal run of digits after that `/video/`
      (DigitRun's contract), so it is never empty. */
  lemma ExtractTikTokIdSpec(url: string)
    ensures ExtractTikTokId(url).None? <==> forall p :: !MatchesAt(url, p)
    ensures ExtractTikTokId(url).Some? ==>
      exists p :: (MatchesAt(url, p) && (forall q :: 0 <= q < p ==> !MatchesAt(url, q))
                   && ExtractTikTokId(url).value == DigitRun(url, p + |VideoMarker|)
                   && |ExtractTikTokId(url).value| >= 1)
  {
    FindVideoIdSpec(url, 0);
    if ExtractTikTokId(url).None? {
      forall p ensures !MatchesAt(url, p) {
      }
    }
  }

  function TiklyDown(url: string, encode: string -> string): Endpoint {
    Endpoint("TiklyDown", TiklyDownPrefix + encode(url), GET, map[], None)
  }

  /** The row whose URL carries the extracted video id. */
  function TikTokOfficial(url: string): Endpoint {
    Endpoint("TikTok Official", TikTokFeedPrefix + IdText(ExtractTikTokId(url)), GET,
             map["User-Agent" := TikTokAppAgent], None)
  }

  function Cobalt(url: string): Endpoint {
    Endpoint("Cobalt", CobaltUrl, POST, map[],
             Some(Obj(map["url" := Str(url), "vCodec" := Str("h264"), "vQuality" := Str("720"),
                          "aFormat" := Str("mp3"), "isAudioOnly" := Bool(false)])))
  }

  function Noobs(url: string, encode: string -> string): Endpoint {
    Endpoint("Noobs API", NoobsPrefix + encode(url), GET, map[], None)
  }

  function TikWM(url: string): Endpoint {
    Endpoint("TikWM", TikWMUrl, POST, map[], Some(Obj(map["url" := Str(url), "hd" := Num(1)])))
  }

  /** The provider table for one call of `download` or `handler`, in trial
      order. `encode` stands for `encodeURIComponent`. */
  function Table(url: string, encode: string -> string): (t: seq<Endpoint>)
    ensures |t| == ProviderCount
    ensures forall j :: 0 <= j < ProviderCount ==> t[j].name == ProviderNames[j]
  {
    [TiklyDown(url, encode), TikTokOfficial(url), Cobalt(url), Noobs(url, encode), TikWM(url)]
  }

  /** The table has five rows in the fixed order TiklyDown, TikTok Official,
      Cobalt, Noobs API, TikWM, with distinct names, so trying rows in index
      order tries each provider at most once. The two POST rows carry the
      caller's URL in their body; only TikTok Official overrides a default
      header, and it overrides the User-Agent. */
  lemma TableShape(url: string, encode: string -> string)
    ensures var t := Table(url, encode);
      |t| == ProviderCount
      && (forall j :: 0 <= j < |t| ==> t[j].name == ProviderNames[j])
      && (forall j, k :: 0 <= j < k < |t| ==> t[j].name != t[k].name)
      && (forall j :: 0 <= j < |t| ==> (t[j].verb == POST <==> j == 2 || j == 4))
      && (forall j :: 0 <= j < |t| && t[j].verb == POST ==>
            t[j].data.Some? && t[j].data.value.Obj? && t[j].data.value.fields["url"] == Str(url))
      && (forall j :: 0 <= j < |t| && t[j].verb == GET ==> t[j].data.None?)
      && RequestHeaders(t[1])["User-Agent"] == TikTokAppAgent
      && (forall j :: 0 <= j < |t| && j != 1 ==> RequestHeaders(t[j])["User-Agent"] == BrowserAgent)
  {
  }

  /** The five requests one call sends at most: one per row, in row order,
      with the row's method; exactly the POST requests (Cobalt and TikWM)
      carry `Content-Type`, and it is JSON. */
  lemma TableRequests(url: string, encode: string -> string)
    ensures var rs := Requests(Table(url, encode));
      |rs| == ProviderCount
      && (forall j :: 0 <= j < |rs| ==> rs[j].verb == Table(url, encode)[j].verb
                                        && rs[j].url == Table(url, encode)[j].url)
      && (forall j :: 0 <= j < |rs| ==>
            (ContentTypeHeader in rs[j].headers <==> rs[j].verb == POST))
      && (forall j :: 0 <= j < |rs| && rs[j].verb == POST ==>
            rs[j].headers[ContentTypeHeader] == JsonType)
  {
  }

  /** The TikTok Official row asks for `aweme_id=<id>`, and for
      `aweme_id=null` when the URL holds no video id. */
  lemma TikTokRowUrl(url: string, encode: string -> string)
    ensures ExtractTikTokId(url).None? ==> Table(url, encode)[1].url == TikTokFeedPrefix + "null"
    ensures ExtractTikTokId(url).Some? ==>
      Table(url, encode)[1].url == TikTokFeedPrefix + ExtractTikTokId(url).value
  {
  }

  /** A match begins with the marker's first two characters and a digit
      right after the marker. */
  lemma MatchStartsWithMarker(s: string, p: int)
    ensures MatchesAt(s, p) ==>
      s[p] == '/' && s[p + 1] == 'v' && IsDigit(s[p + |VideoMarker|])
  {
    if MatchesAt(s, p) {
      assert s[p..p + |VideoMarker|][0] == s[p];
      assert s[p..p + |VideoMarker|][1] == s[p + 1];
    }
  }

  /** A short link without a video id yields null, so the TikTok Official
      row asks for `aweme_id=null`. */
  lemma {:induction false} ShortLinkHasNoId(encode: string -> string)
    ensures ExtractTikTokId("https://vt.tiktok.com/ZS/") == None
    ensures Table("https://vt.tiktok.com/ZS/", encode)[1].url == TikTokFeedPrefix + "null"
  {
    var shortLink := "https://vt.tiktok.com/ZS/";
    assert forall p :: 0 <= p ==> !MatchesAt(shortLink, p);
    FindVideoIdSpec(shortLink, 0);
  }

  /** An earlier `/video/` that is not followed by a digit is skipped, and
      the id stops at the first non-digit. */
  lemma {:induction false} LaterMarkerSuppliesId()
    ensures ExtractTikTokId("/video/x/video/12?") == Some("12")
  {
    var s := "/video/x/video/12?";
    assert MatchesAt(s, 8) by {
      assert s[8..15] == VideoMarker;
    }
    forall q | 0 <= q < 8 ensures !MatchesAt(s, q) {
      MatchStartsWithMarker(s, q);
    }
    assert FindVideoId(s, 8) == Some(DigitRun(s, 15));
    assert FindVideoId(s, 0) == FindVideoId(s, 8);
    assert DigitRun(s, 17) == "";
    assert DigitRun(s, 15) == "12";
  }
}
