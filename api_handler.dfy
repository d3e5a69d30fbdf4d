/** `handler(req, res)` of api/download.js: the serverless copy of the
    fallback loop, which answers over HTTP instead of resolving or throwing.
    The response object is modelled by the log of replies written to it. */
module ApiHandler {
  import opened JsValues
  import opened Endpoints
  import opened Fallback
  import Download

  /** The parts of the incoming request the handler reads. */
  datatype HttpRequest = HttpRequest(verb: string, body: Value)

  /** One `res.status(code).json(body)`. */
  datatype Reply = Reply(status: nat, body: Value)

  /** The response object: the status set last and every reply sent. */
  class ServerResponse {
    var statusCode: nat
    var written: seq<Reply>

    constructor ()
      ensures statusCode == 200 && written == []
    {
      statusCode := 200;
      written := [];
    }

    /** `res.status(code)`. */
    method Status(code: nat)
      modifies this
      ensures statusCode == code && written == old(written)
    {
      statusCode := code;
    }

    /** `res.json(body)`: sends `body` with the current status. */
    method Json(body: Value)
      modifies this
      ensures written == old(written) + [Reply(statusCode, body)]
      ensures statusCode == old(statusCode)
    {
      written := written + [Reply(statusCode, body)];
    }
  }

  /** How one invocation of the handler ends. */
  datatype HandlerOutcome =
    | Replied(reply: Reply)
      /** A TypeError escaped before any reply: destructuring a null or missing
          body, or calling `url.match` on a truthy URL that is not a string. */
    | Crashed
      /** The loop ran off its end without replying; only an empty table
          could do that. */
    | Silent

  const MethodNotAllowed := "Method not allowed"

  function ErrorBody(message: string): Value {
    Obj(map["error" := Str(message)])
  }

  /** `response.headers['content-type']` as a JSON field value. */
  function ContentTypeField(contentType: Option<string>): Value {
    match contentType
    case Some(t) => Str(t)
    case None => Undefined
  }

  function SuccessBody(url: Value, p: Payload, apiUsed: string): Value {
    Obj(map["success" := Bool(true), "url" := url, "contentType" := ContentTypeField(p.contentType),
            "apiUsed" := Str(apiUsed), "data" := p.data])
  }

  function WarningBody(url: Value, p: Payload, apiUsed: string): Value {
    Obj(map["success" := Bool(true), "url" := url, "contentType" := ContentTypeField(p.contentType),
            "apiUsed" := Str(apiUsed), "data" := p.data, "warning" := Str(Download.Warning)])
  }

  function FailureBody(message: string): Value {
    Obj(map["error" := Str(message), "success" := Bool(false)])
  }

  /** The three bodies of a provider-backed reply differ only where the
      handler's object literals do: the warning body is the success body
      plus a `warning` field the success body lacks, and the failure body is
      the plain error body plus `success: false`. */
  lemma ReplyBodiesRelated(url: Value, p: Payload, apiUsed: string, message: string)
    ensures WarningBody(url, p, apiUsed).fields
      == SuccessBody(url, p, apiUsed).fields["warning" := Str(Download.Warning)]
    ensures "warning" !in SuccessBody(url, p, apiUsed).fields
    ensures FailureBody(message).fields == ErrorBody(message).fields["success" := Bool(false)]
    ensures "success" !in ErrorBody(message).fields
    ensures SuccessBody(url, p, apiUsed).fields["success"] == Bool(true)
            && SuccessBody(url, p, apiUsed).fields["apiUsed"] == Str(apiUsed)
            && SuccessBody(url, p, apiUsed).fields["data"] == p.data
  {
  }

  /** What one invocation does when the i-th provider call yields `net[i]`. */
  function HandlerSpec(req: HttpRequest, encode: string -> string, net: seq<Outcome>): (r: HandlerOutcome)
    requires |net| == ProviderCount
    ensures r.Replied? ==> r.reply.status in {200, 400, 405, 500} && r.reply.body.Obj?
    ensures r.Replied? ==>
      (r.reply.status == 200 <==>
         "success" in r.reply.body.fields && r.reply.body.fields["success"] == Bool(true))
    ensures r.Replied? && r.reply.status == 500 ==>
      "success" in r.reply.body.fields && r.reply.body.fields["success"] == Bool(false)
      && !net[ProviderCount - 1].Answered?
  {
    if req.verb != "POST" then Replied(Reply(405, ErrorBody(MethodNotAllowed)))
    else if req.body.Null? || req.body.Undefined? then Crashed
    else
      var url := Member(req.body, "url");
      if !Truthy(url) then Replied(Reply(400, ErrorBody(Download.UrlRequired)))
      else if !url.Str? then Crashed
      else
        match Run(net, 0)
        case Found(k, p) => Replied(Reply(200, SuccessBody(url, p, ProviderNames[k])))
        case Unexpected(k, p) => Replied(Reply(200, WarningBody(url, p, ProviderNames[k])))
        case Exhausted(last) => Replied(Reply(500, FailureBody(AllFailedMessage(ProviderCount, last))))
        case FellThrough => Silent
  }

  /** The replies an outcome leaves in the response's log. */
  function Written(outcome: HandlerOutcome): seq<Reply> {
    if outcome.Replied? then [outcome.reply] else []
  }

  /** The requests the handler sends, in the order it sends them. */
  function HandlerTried(req: HttpRequest, encode: string -> string, net: seq<Outcome>): seq<Request>
    requires |net| == ProviderCount
  {
    if req.verb != "POST" || req.body.Null? || req.body.Undefined? then []
    else
      var url := Member(req.body, "url");
      if !Truthy(url) || !url.Str? then []
      else
        Requests(Table(url.s, encode))[..Attempts(Run(net, 0), |net|)]
  }

  method Handle(req: HttpRequest, encode: string -> string, net: seq<Outcome>, res: ServerResponse)
    returns (tried: seq<Request>)
    requires |net| == ProviderCount
    modifies res
    ensures res.written == old(res.written) + Written(HandlerSpec(req, encode, net))
    ensures res.statusCode == (if HandlerSpec(req, encode, net).Replied?
                               then HandlerSpec(req, encode, net).reply.status
                               else old(res.statusCode))
    ensures tried == HandlerTried(req, encode, net)
  {
    if req.verb != "POST" {
      res.Status(405);
      res.Json(ErrorBody(MethodNotAllowed));
      return [];
    }
    if req.body.Null? || req.body.Undefined? {
      return [];
    }
    var url := Member(req.body, "url");
    if !Truthy(url) {
      res.Status(400);
      res.Json(ErrorBody(Download.UrlRequired));
      return [];
    }
    if !url.Str? {
      return [];
    }
    var endpoints := Table(url.s, encode);
    var t;
    t, tried := Download.TryInOrder(endpoints, net);
    match t {
      case Found(k, response) =>
        res.Status(200);
        res.Json(SuccessBody(url, response, endpoints[k].name));
      case Unexpected(k, response) =>
        res.Status(200);
        res.Json(WarningBody(url, response, endpoints[k].name));
      case Exhausted(last) =>
        res.Status(500);
        res.Json(FailureBody(AllFailedMessage(|endpoints|, last)));
      case FellThrough =>
    }
  }

  /** The method and URL guards: a non-POST request gets 405 and a POST
      without a truthy `url` gets 400, and neither calls a provider. */
  lemma GuardsRejectEarly(req: HttpRequest, encode: string -> string, net: seq<Outcome>)
    requires |net| == ProviderCount
    ensures req.verb != "POST" ==>
      HandlerSpec(req, encode, net) == Replied(Reply(405, ErrorBody("Method not allowed")))
    ensures req.verb == "POST" && !req.body.Null? && !req.body.Undefined?
            && !Truthy(Member(req.body, "url")) ==>
      HandlerSpec(req, encode, net) == Replied(Reply(400, ErrorBody("URL is required")))
    ensures req.verb != "POST" || !Truthy(Member(req.body, "url")) ==>
      HandlerTried(req, encode, net) == []
  {
  }

  /** Exactly one reply per request: the handler writes one reply unless a
      TypeError escapes, which happens only for a null or missing body or a
      truthy `url` that is not a string, and never falls silent. */
  lemma ExactlyOneReply(req: HttpRequest, encode: string -> string, net: seq<Outcome>)
    requires |net| == ProviderCount
    ensures |Written(HandlerSpec(req, encode, net))| == 1 <==> !HandlerSpec(req, encode, net).Crashed?
    ensures HandlerSpec(req, encode, net).Crashed? <==>
      req.verb == "POST"
      && (req.body.Null? || req.body.Undefined?
          || (Truthy(Member(req.body, "url")) && !Member(req.body, "url").Str?))
  {
    AlwaysTerminal(net, 0);
  }

  /** The two copies agree: for a POST with a body, the handler's reply is
      `download`'s settlement rendered as HTTP. A resolution becomes 200 with
      `success: true` (and the warning when `download` gave one), the
      "URL is required" error becomes 400, the all-failed error becomes 500
      with `success: false` and the same text, and the TypeError escapes from
      both. Both call the same providers in the same order. */
  lemma HandlerAgreesWithDownload(req: HttpRequest, encode: string -> string, net: seq<Outcome>)
    requires |net| == ProviderCount
    requires req.verb == "POST" && !req.body.Null? && !req.body.Undefined?
    ensures var url := Member(req.body, "url");
      var d := Download.DownloadSpec(url, encode, net);
      var h := HandlerSpec(req, encode, net);
      (d.Resolved? ==>
         (h.Replied? && h.reply.status == 200
          && h.reply.body == (if d.warning.None?
                              then SuccessBody(url, Payload(d.data, d.contentType, d.status), d.apiUsed)
                              else WarningBody(url, Payload(d.data, d.contentType, d.status), d.apiUsed))))
      && (d.Thrown? && d.error.Error? && !Truthy(url) ==>
            h == Replied(Reply(400, ErrorBody(d.error.message))))
      && (d.Thrown? && d.error.Error? && Truthy(url) ==>
            h == Replied(Reply(500, FailureBody(d.error.message))))
      && (d.Thrown? && d.error.TypeError? <==> h.Crashed?)
      && (d.ReturnedUndefined? <==> h.Silent?)
      && Download.TriedSpec(url, encode, net) == HandlerTried(req, encode, net)
  {
  }
}
