/** `download(url)` of index.js: check the URL, build the provider table,
    then call the providers one at a time until one answers usefully. Each
    call of the HTTP client is replaced by the next element of `net`, and
    `encodeURIComponent` by the parameter `encode`. */
module Download {
  import opened JsValues
  import opened Endpoints
  import opened Fallback

  const UrlRequired := "URL is required"
  const Warning := "API responded but data structure may be unexpected"

  /** A value thrown by `download`. */
  datatype JsError =
    | Error(message: string)
      /** `url.match is not a function`, raised while the table is built when
          `url` is truthy but not a string; its wording is the engine's. */
    | TypeError

  /** How the promise returned by `download` settles. */
  datatype Result =
    | Resolved(data: Value, contentType: Option<string>, apiUsed: string, status: nat,
               warning: Option<string>)
    | Thrown(error: JsError)
      /** The loop ran off its end; only an empty table could do that. */
    | ReturnedUndefined

  /** What `download(url)` settles to when the i-th provider call yields
      `net[i]`. */
  function DownloadSpec(url: Value, encode: string -> string, net: seq<Outcome>): (r: Result)
    requires |net| == ProviderCount
    ensures !Truthy(url) ==> r == Thrown(Error(UrlRequired))
    ensures r.Resolved? ==> url.Str? && r.apiUsed in ProviderNames
    ensures r.Resolved? ==> (r.warning.None? <==> Accepts(r.data))
    ensures r.Resolved? && r.warning.Some? ==>
      r.apiUsed == "TikWM" && r.warning.value == Warning && net[4] == Answered(Payload(r.data, r.contentType, r.status))
  {
    if !Truthy(url) then Thrown(Error(UrlRequired))
    else if !url.Str? then Thrown(TypeError)
    else
      match Run(net, 0)
      case Found(k, p) => Resolved(p.data, p.contentType, ProviderNames[k], p.status, None)
      case Unexpected(k, p) => Resolved(p.data, p.contentType, ProviderNames[k], p.status, Some(Warning))
      case Exhausted(last) => Thrown(Error(AllFailedMessage(ProviderCount, last)))
      case FellThrough => ReturnedUndefined
  }

  /** The requests `download(url)` sends, in the order it sends them. */
  function TriedSpec(url: Value, encode: string -> string, net: seq<Outcome>): seq<Request>
    requires |net| == ProviderCount
  {
    if !Truthy(url) || !url.Str? then []
    else
      Requests(Table(url.s, encode))[..Attempts(Run(net, 0), |net|)]
  }

  /** The loop both copies share: try the rows in order, sending one request
      per row, and stop at the first accepted answer, or at the last row with
      whatever it gave. `t` tells where and how the loop stopped; `tried`
      lists the requests sent. */
  method TryInOrder(endpoints: seq<Endpoint>, net: seq<Outcome>)
    returns (t: Terminal, tried: seq<Request>)
    requires |endpoints| == |net|
    ensures t == Run(net, 0)
    ensures tried == Requests(endpoints)[..Attempts(t, |net|)]
  {
    tried := [];
    var i := 0;
    while i < |endpoints|
      invariant i <= |endpoints|
      invariant tried == Requests(endpoints)[..i]
      invariant Run(net, i) == Run(net, 0)
    {
      var request := Prepare(endpoints[i]);
      tried := tried + [request];
      match net[i] {
        case Answered(response) =>
          if Accepts(response.data) {
            return Found(i, response), tried;
          } else if i == |endpoints| - 1 {
            return Unexpected(i, response), tried;
          }
        case _ =>
          if i == |endpoints| - 1 {
            return Exhausted(net[i]), tried;
          }
      }
      i := i + 1;
    }
    t := FellThrough;
  }

  method Download(url: Value, encode: string -> string, net: seq<Outcome>)
    returns (result: Result, tried: seq<Request>)
    requires |net| == ProviderCount
    ensures result == DownloadSpec(url, encode, net)
    ensures tried == TriedSpec(url, encode, net)
  {
    if !Truthy(url) {
      return Thrown(Error(UrlRequired)), [];
    }
    if !url.Str? {
      return Thrown(TypeError), [];
    }
    var endpoints := Table(url.s, encode);
    var t;
    t, tried := TryInOrder(endpoints, net);
    match t {
      case Found(k, response) =>
        result := Resolved(response.data, response.contentType, endpoints[k].name, response.status, None);
      case Unexpected(k, response) =>
        result := Resolved(response.data, response.contentType, endpoints[k].name, response.status,
                           Some(Warning));
      case Exhausted(last) =>
        result := Thrown(Error(AllFailedMessage(|endpoints|, last)));
      case FellThrough =>
        result := ReturnedUndefined;
    }
  }

  /** A falsy URL (missing, empty, null, 0, false) is rejected before any
      provider is called; so is a truthy URL that is not a string, with the
      TypeError the table's construction raises. */
  lemma BadUrlRejected(url: Value, encode: string -> string, net: seq<Outcome>)
    requires |net| == ProviderCount
    ensures !Truthy(url) ==> DownloadSpec(url, encode, net) == Thrown(Error(UrlRequired))
    ensures Truthy(url) && !url.Str? ==> DownloadSpec(url, encode, net) == Thrown(TypeError)
    ensures !Truthy(url) || !url.Str? ==> TriedSpec(url, encode, net) == []
  {
  }

  /** First valid wins: the first accepted response is returned, named after
      its provider, without a warning, and exactly the providers up to it
      were called, in table order. */
  lemma FirstAcceptedWins(url: string, encode: string -> string, net: seq<Outcome>, k: nat)
    requires url != "" && |net| == ProviderCount
    requires AcceptedAt(net, k) && forall j :: 0 <= j < k ==> !AcceptedAt(net, j)
    ensures var p := net[k].payload;
      DownloadSpec(Str(url), encode, net)
        == Resolved(p.data, p.contentType, ProviderNames[k], p.status, None)
    ensures TriedSpec(Str(url), encode, net) == Requests(Table(url, encode))[..k + 1]
  {
    FirstAcceptedIsFound(net, 0, k);
    assert Table(url, encode)[k].name == ProviderNames[k];
  }

  /** Last-provider policy: when no response is accepted, an answer from
      TikWM is still returned, with the warning, and an error from TikWM
      becomes the "All 5 API endpoints failed" error built from that error
      alone. All five providers were called. */
  lemma LastProviderDecides(url: string, encode: string -> string, net: seq<Outcome>)
    requires url != "" && |net| == ProviderCount
    requires forall j :: 0 <= j < |net| ==> !AcceptedAt(net, j)
    ensures net[4].Answered? ==>
      var p := net[4].payload;
      DownloadSpec(Str(url), encode, net)
        == Resolved(p.data, p.contentType, "TikWM", p.status, Some(Warning))
    ensures !net[4].Answered? ==>
      DownloadSpec(Str(url), encode, net) == Thrown(Error(AllFailedMessage(5, net[4])))
    ensures TriedSpec(Str(url), encode, net) == Requests(Table(url, encode))
  {
    NoneAcceptedMeansLastResort(net, 0);
    assert Table(url, encode)[4].name == "TikWM";
    var requests := Requests(Table(url, encode));
    assert requests[..|requests|] == requests;
  }

  /** A string URL always settles to a provider's data or to the
      all-failed error: never to `undefined`, and never to a TypeError. */
  lemma StringUrlSettles(url: string, encode: string -> string, net: seq<Outcome>)
    requires url != "" && |net| == ProviderCount
    ensures var r := DownloadSpec(Str(url), encode, net);
      r.Resolved?
      || (!net[ProviderCount - 1].Answered?
          && r == Thrown(Error(AllFailedMessage(ProviderCount, net[ProviderCount - 1]))))
  {
    AlwaysTerminal(net, 0);
  }

  /** A warning is attached only to TikWM's answer, and only when nothing
      was accepted; a result without a warning carries data the acceptance
      test approved. */
  lemma WarningOnlyFromLastProvider(url: string, encode: string -> string, net: seq<Outcome>)
    requires url != "" && |net| == ProviderCount
    ensures var r := DownloadSpec(Str(url), encode, net);
      (r.Resolved? && r.warning.Some? ==>
         r.apiUsed == "TikWM" && r.warning.value == Warning
         && forall j :: 0 <= j < |net| ==> !AcceptedAt(net, j))
      && (r.Resolved? && r.warning.None? ==> Accepts(r.data))
  {
    assert Table(url, encode)[4].name == "TikWM";
    var t := Run(net, 0);
    if t.Unexpected? {
      forall j | 0 <= j < |net| ensures !AcceptedAt(net, j) {
        if AcceptedAt(net, j) {
          AcceptedMeansFound(net, 0, j);
          assert false;
        }
      }
    }
  }
}
