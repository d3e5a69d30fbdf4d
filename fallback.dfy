/** The decision procedure shared by `download` (index.js) and `handler`
    (api/download.js): try the providers one at a time, accept the first
    response whose data looks like a media result, and treat the last
    provider specially. The network is an oracle: `outs[i]` is what the i-th
    provider's HTTP call produced. */
module Fallback {
  import opened JsValues

  /** A 2xx response as axios resolves it. */
  datatype Payload = Payload(data: Value, contentType: Option<string>, status: nat)

  /** What awaiting one provider's request yields. */
  datatype Outcome =
    | Answered(payload: Payload)
      /** axios rejected with `error.response` set: the server answered with an
          error status; `body` is `error.response.data`. */
    | HttpFailure(status: nat, body: Value, message: string)
      /** axios rejected without `error.response`: timeout, DNS, refused. */
    | NetworkFailure(message: string)

  /** How the loop ended. */
  datatype Terminal =
    | Found(index: nat, payload: Payload)        // first accepted response
    | Unexpected(index: nat, payload: Payload)   // last provider answered, not accepted
    | Exhausted(last: Outcome)                   // last provider failed
    | FellThrough                                // no provider to try

  /** The field names whose truthiness marks a response as usable. */
  const ValidityKeys: seq<string> := ["video_url", "download_url", "data", "aweme_list", "url"]

  /** The acceptance test applied to `response.data`. */
  predicate Accepts(data: Value)
    ensures Accepts(data) ==> data.Obj?
  {
    Truthy(data) && (
      Truthy(Member(data, "video_url")) ||
      Truthy(Member(data, "download_url")) ||
      Truthy(Member(data, "data")) ||
      Truthy(Member(data, "aweme_list")) ||
      Truthy(Member(data, "url")))
  }

  /** A response is accepted exactly when it is an object with a truthy field
      under one of the five names. So strings, arrays, numbers and null are
      never accepted, whatever they contain. */
  lemma AcceptsIffTruthyField(data: Value)
    ensures Accepts(data) <==>
      data.Obj? && exists k :: k in ValidityKeys && k in data.fields && Truthy(data.fields[k])
  {
    if data.Obj? && exists k :: k in ValidityKeys && k in data.fields && Truthy(data.fields[k]) {
      var k :| k in ValidityKeys && k in data.fields && Truthy(data.fields[k]);
      assert k == ValidityKeys[0] || k == ValidityKeys[1] || k == ValidityKeys[2]
          || k == ValidityKeys[3] || k == ValidityKeys[4];
    }
    if Accepts(data) {
      var k :=
        if Truthy(Member(data, "video_url")) then ValidityKeys[0]
        else if Truthy(Member(data, "download_url")) then ValidityKeys[1]
        else if Truthy(Member(data, "data")) then ValidityKeys[2]
        else if Truthy(Member(data, "aweme_list")) then ValidityKeys[3]
        else ValidityKeys[4];
      assert Truthy(Member(data, k));
      assert k in ValidityKeys && k in data.fields && Truthy(data.fields[k]);
    }
  }

  /** Truthiness, not content, decides: an empty array or empty object under
      one of the five names is enough for acceptance, while an empty string or
      a zero is not. */
  lemma EmptyContainerAccepted(k: string)
    requires k in ValidityKeys
    ensures Accepts(Obj(map[k := Arr([])]))
    ensures Accepts(Obj(map[k := Obj(map[])]))
    ensures !Accepts(Obj(map[k := Str("")]))
    ensures !Accepts(Obj(map[k := Num(0)]))
  {
    AcceptsIffTruthyField(Obj(map[k := Arr([])]));
    AcceptsIffTruthyField(Obj(map[k := Obj(map[])]));
    AcceptsIffTruthyField(Obj(map[k := Str("")]));
    AcceptsIffTruthyField(Obj(map[k := Num(0)]));
  }

  predicate AcceptedAt(outs: seq<Outcome>, j: int) {
    0 <= j < |outs| && outs[j].Answered? && Accepts(outs[j].payload.data)
  }

  /** The loop from index `i` on: an accepted response returns at once; an
      unaccepted response or an error moves on, except at the last index,
      where a response is returned anyway and an error ends the run. */
  function Run(outs: seq<Outcome>, i: nat): (r: Terminal)
    requires i <= |outs|
    ensures (r.Found? || r.Unexpected?) ==>
      i <= r.index < |outs| && outs[r.index] == Answered(r.payload)
    ensures r.Found? ==> Accepts(r.payload.data)
    ensures r.Unexpected? ==> r.index == |outs| - 1 && !Accepts(r.payload.data)
    ensures r.Exhausted? ==> i < |outs| && r.last == outs[|outs| - 1] && !r.last.Answered?
    decreases |outs| - i
  {
    if i == |outs| then FellThrough
    else
      match outs[i]
      case Answered(p) =>
        if Accepts(p.data) then Found(i, p)
        else if i == |outs| - 1 then Unexpected(i, p)
        else Run(outs, i + 1)
      case _ =>
        if i == |outs| - 1 then Exhausted(outs[i])
        else Run(outs, i + 1)
  }

  /** How many providers were called before the loop ended. */
  function Attempts(t: Terminal, count: nat): nat {
    match t
    case Found(k, _) => k + 1
    case Unexpected(k, _) => k + 1
    case _ => count
  }

  /** First valid wins: if `k` is the first accepted position at or after
      `i`, the loop ends there with that response, whatever comes later. */
  lemma {:induction false} FirstAcceptedIsFound(outs: seq<Outcome>, i: nat, k: nat)
    requires i <= k < |outs| && AcceptedAt(outs, k)
    requires forall j :: i <= j < k ==> !AcceptedAt(outs, j)
    ensures Run(outs, i) == Found(k, outs[k].payload)
    decreases k - i
  {
    if i < k {
      assert !AcceptedAt(outs, i);
      FirstAcceptedIsFound(outs, i + 1, k);
    }
  }

  /** Conversely, a Found result is the first accepted position: no earlier
      response was accepted. */
  lemma {:induction false} FoundIsFirstAccepted(outs: seq<Outcome>, i: nat)
    requires i <= |outs|
    ensures Run(outs, i).Found? ==>
      forall j :: i <= j < Run(outs, i).index ==> !AcceptedAt(outs, j)
    decreases |outs| - i
  {
    if i < |outs| && !AcceptedAt(outs, i) && i < |outs| - 1 {
      FoundIsFirstAccepted(outs, i + 1);
    }
  }

  /** An accepted response anywhere means the loop ends in Found, at that
      position or earlier. */
  lemma {:induction false} AcceptedMeansFound(outs: seq<Outcome>, i: nat, k: nat)
    requires i <= k && AcceptedAt(outs, k)
    ensures Run(outs, i).Found? && Run(outs, i).index <= k
    decreases k - i
  {
    if !AcceptedAt(outs, i) {
      AcceptedMeansFound(outs, i + 1, k);
    }
  }

  /** What the last provider's outcome makes of a run in which no response
      was accepted. */
  function LastResort(outs: seq<Outcome>): Terminal
    requires |outs| > 0
  {
    match outs[|outs| - 1]
    case Answered(p) => Unexpected(|outs| - 1, p)
    case _ => Exhausted(outs[|outs| - 1])
  }

  /** Last-provider policy: when no response from `i` on is accepted, the
      result depends on the last outcome only: its response is returned as
      Unexpected, or its error ends the run as Exhausted. Earlier errors are
      discarded. */
  lemma {:induction false} NoneAcceptedMeansLastResort(outs: seq<Outcome>, i: nat)
    requires i < |outs|
    requires forall j :: i <= j < |outs| ==> !AcceptedAt(outs, j)
    ensures Run(outs, i) == LastResort(outs)
    decreases |outs| - i
  {
    assert !AcceptedAt(outs, i);
    if i < |outs| - 1 {
      NoneAcceptedMeansLastResort(outs, i + 1);
    }
  }

  /** Exactly one terminal result: with at least one provider left to try,
      the loop always returns or throws and never runs off its end. */
  lemma {:induction false} AlwaysTerminal(outs: seq<Outcome>, i: nat)
    requires i < |outs|
    ensures !Run(outs, i).FellThrough?
    decreases |outs| - i
  {
    if i < |outs| - 1 {
      AlwaysTerminal(outs, i + 1);
    }
  }

  /** Two runs in which nothing is accepted and whose last outcomes agree end
      the same way, however their earlier failures differ. */
  lemma OnlyLastFailureReported(a: seq<Outcome>, b: seq<Outcome>)
    requires |a| == |b| > 0 && a[|a| - 1] == b[|b| - 1]
    requires forall j :: 0 <= j < |a| ==> !AcceptedAt(a, j)
    requires forall j :: 0 <= j < |b| ==> !AcceptedAt(b, j)
    ensures Run(a, 0) == Run(b, 0)
  {
    NoneAcceptedMeansLastResort(a, 0);
    NoneAcceptedMeansLastResort(b, 0);
  }

  /** Providers are called in order and none after the one that ended the
      run: the number of calls is one past the accepted index, or all of
      them. */
  lemma AttemptsOfRun(outs: seq<Outcome>)
    requires |outs| > 0
    ensures var t := Run(outs, 0);
      1 <= Attempts(t, |outs|) <= |outs|
      && (t.Found? ==> Attempts(t, |outs|) == t.index + 1
                       && forall j :: 0 <= j < t.index ==> !AcceptedAt(outs, j))
      && (!t.Found? ==> Attempts(t, |outs|) == |outs|)
  {
    AlwaysTerminal(outs, 0);
    FoundIsFirstAccepted(outs, 0);
  }

  // ----- the error text of the last failure -----

  /** `error.response?.data?.message`. */
  function BodyMessage(failure: Outcome): Value {
    if failure.HttpFailure? then Member(failure.body, "message") else Undefined
  }

  /** `statusCode || 'Network Error'`: the status in decimal when there is a
      non-zero one, otherwise the fixed text. */
  function StatusText(failure: Outcome): (s: string)
    ensures failure.HttpFailure? && failure.status != 0 ==>
      DigitsOnly(s) && DigitsValue(s) == failure.status
    ensures !(failure.HttpFailure? && failure.status != 0) ==> s == "Network Error"
  {
    if failure.HttpFailure? && failure.status != 0 then NatToString(failure.status)
    else "Network Error"
  }

  /** `error.response?.data?.message || error.message`, printed. */
  function ErrorText(failure: Outcome): string
    requires !failure.Answered?
  {
    var bodyMessage := BodyMessage(failure);
    if Truthy(bodyMessage) then ToJsString(bodyMessage) else failure.message
  }


  /** The error raised when the last of `count` providers fails. */
  function AllFailedMessage(count: nat, last: Outcome): string
    requires !last.Answered?
  {
    "All " + NatToString(count) + " API endpoints failed. Most recent error: "
    + StatusText(last) + " - " + ErrorText(last)
    + ". The video URL might be private, expired, or the APIs are temporarily down."
  }

  /** The server's own message wins over axios's when it is truthy; a
      falsy one (missing, empty, null) falls back to axios's message, and a
      transport failure always reports axios's message. */
  lemma ErrorTextChoice(failure: Outcome)
    requires !failure.Answered?
    ensures failure.NetworkFailure? ==> ErrorText(failure) == failure.message
    ensures failure.HttpFailure? && failure.body.Obj? && "message" in failure.body.fields
            && Truthy(failure.body.fields["message"])
            ==> ErrorText(failure) == ToJsString(failure.body.fields["message"])
    ensures failure.HttpFailure? && failure.body.Obj? && "message" in failure.body.fields
            && failure.body.fields["message"].Str? && failure.body.fields["message"].s != ""
            ==> ErrorText(failure) == failure.body.fields["message"].s
    ensures failure.HttpFailure? && !(failure.body.Obj? && "message" in failure.body.fields
                                      && Truthy(failure.body.fields["message"]))
            ==> ErrorText(failure) == failure.message
  {
  }

  /** The all-failed error for five providers reads "All 5 API endpoints
      failed. Most recent error: ", then the status text, " - ", the error
      text and the closing advice; StatusText and ErrorTextChoice say what
      the two middle parts are. */
  lemma AllFailedMessageText(last: Outcome)
    requires !last.Answered?
    ensures AllFailedMessage(5, last)
      == "All 5 API endpoints failed. Most recent error: " + StatusText(last) + " - "
         + ErrorText(last)
         + ". The video URL might be private, expired, or the APIs are temporarily down."
  {
    var count := NatToString(5);
    assert count == "5";
    AllFailedHeadForFive(count);
    var status, detail := StatusText(last), ErrorText(last);
    assert AllFailedMessage(5, last)
        == "All " + count + " API endpoints failed. Most recent error: " + status + " - " + detail
           + ". The video URL might be private, expired, or the APIs are temporarily down.";
  }

  /** The count 5, printed, in the head of the template. */
  lemma AllFailedHeadForFive(count: string)
    requires count == "5"
    ensures "All " + count + " API endpoints failed. Most recent error: "
         == "All 5 API endpoints failed. Most recent error: "
  {
  }

  /** Two concrete failures: a 404 whose body explains itself reports the
      status and the server's message; a timeout has no status, so it reports
      "Network Error" with axios's own message. The count prints as "5". */
  lemma FailureDetailExamples()
    ensures NatToString(5) == "5"
    ensures var notFound := HttpFailure(404, Obj(map["message" := Str("Video not found")]),
                                        "Request failed with status code 404");
      StatusText(notFound) == "404" && ErrorText(notFound) == "Video not found"
    ensures var timeout := NetworkFailure("timeout of 15000ms exceeded");
      StatusText(timeout) == "Network Error" && ErrorText(timeout) == "timeout of 15000ms exceeded"
  {
    assert NatToString(4) == "4";
    assert NatToString(40) == "40";
    assert NatToString(404) == "404";
  }
}
