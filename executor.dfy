/** `Request.request`, the authenticated-request protocol: read the token,
    authorise the request, send it, and when the response says the token has
    expired and the token may refresh itself, refresh it once and send the
    same request once more. `Request.__call__` builds the request from a
    normalised payload and runs the protocol. */
module Executor {
  import opened Values
  import opened Wire
  import opened Classifier
  import opened Payload

  /** The token object the protocol reads and refreshes. Its storage, and the
      login a first `get()` or an `update()` performs, are not part of this
      model: the value an `update()` obtains is a parameter. */
  class Token {
    var value: string
    var autoUpdate: bool
    var updates: nat   // how many times `update()` has been called

    constructor (value: string, autoUpdate: bool)
      ensures this.value == value && this.autoUpdate == autoUpdate && updates == 0
    {
      this.value := value;
      this.autoUpdate := autoUpdate;
      updates := 0;
    }

    /** `token.get()` */
    method Get() returns (v: string)
      ensures v == value
    {
      v := value;
    }

    /** `token.update()`: re-authentication replaces the held value. */
    method Update(reissued: string)
      modifies this
      ensures value == reissued && updates == old(updates) + 1 && autoUpdate == old(autoUpdate)
    {
      value := reissued;
      updates := updates + 1;
    }
  }

  /** The transport: it answers each send with the next of the replies the
      service is going to give, and records what was sent. */
  class Transport {
    var pending: seq<RawReply>
    var sent: seq<HttpRequest>

    constructor (replies: seq<RawReply>)
      ensures pending == replies && sent == []
    {
      pending := replies;
      sent := [];
    }

    method Send(req: HttpRequest) returns (reply: RawReply)
      requires pending != []
      modifies this
      ensures reply == old(pending[0]) && pending == old(pending[1..])
      ensures sent == old(sent) + [req]
    {
      reply := pending[0];
      pending := pending[1..];
      sent := sent + [req];
    }
  }

  /** `BaseRequest._request`: send the request and classify the reply. The
      transport's own errors are not part of this model. */
  method SendRequest(transport: Transport, req: HttpRequest, phrases: map<int, string>)
    returns (r: Result<Response>)
    requires transport.pending != []
    modifies transport
    ensures r == CheckResponse(old(transport.pending[0]), phrases)
    ensures transport.pending == old(transport.pending[1..])
    ensures transport.sent == old(transport.sent) + [req]
  {
    var reply := transport.Send(req);
    r := CheckResponse(reply, phrases);
  }

  /** Lines 145-147: the headers become exactly the bearer authorisation. */
  function Authorize(req: HttpRequest, tokenValue: string): (r: HttpRequest)
    ensures r.verb == req.verb && r.url == req.url && r.data == req.data
    ensures r.headers.Some? && r.headers.value.Keys == {"Authorization"}
    ensures |r.headers.value["Authorization"]| == 7 + |tokenValue|
    ensures r.headers.value["Authorization"][..7] == "Bearer "
    ensures r.headers.value["Authorization"][7..] == tokenValue
  {
    req.(headers := Some(map["Authorization" := "Bearer " + tokenValue]))
  }

  /** Lines 152-154: the data of a 200 or 201 response, and otherwise the
      exception `_bad_request` builds. */
  function Conclude(resp: Response, phrases: map<int, string>): (r: Result<Json>)
    ensures r.Ok? <==> IsSuccess(resp.statusCode)
    ensures r.Ok? ==> r.value == resp.data
    ensures r.Raised? ==> r.error == BadRequestOf(resp, phrases)
  {
    if IsSuccess(resp.statusCode) then Ok(resp.data) else Raised(BadRequestOf(resp, phrases))
  }

  /** What one call of the protocol does: the requests it sends, whether it
      refreshed the token, and what it returns or raises. */
  datatype Trace = Trace(sent: seq<HttpRequest>, refreshed: bool, outcome: Result<Json>)

  /** Whether a classified reply asks for a refresh. */
  predicate SignalsExpiry(r: Result<Response>) {
    r.Ok? && r.value.tokenExpired
  }

  /** The protocol of `Request.request` as a function of the token value read
      by `get()`, the `auto_update` flag and the replies of the service. */
  function Run(req: HttpRequest, tokenValue: string, autoUpdate: bool,
               replies: seq<RawReply>, phrases: map<int, string>): (t: Trace)
    requires |replies| >= 2
    // at most two sends, and a second one only after a refresh
    ensures 1 <= |t.sent| <= 2
    ensures t.refreshed <==> |t.sent| == 2
    ensures t.refreshed <==> autoUpdate && SignalsExpiry(CheckResponse(replies[0], phrases))
    // every send carries the header built from the value read before the first
    ensures forall i :: 0 <= i < |t.sent| ==> t.sent[i] == Authorize(req, tokenValue)
    // the outcome is decided by the last reply alone
    ensures CheckResponse(replies[|t.sent| - 1], phrases).Raised? ==>
              t.outcome == Raised(CheckResponse(replies[|t.sent| - 1], phrases).error)
    ensures CheckResponse(replies[|t.sent| - 1], phrases).Ok? ==>
              t.outcome == Conclude(CheckResponse(replies[|t.sent| - 1], phrases).value, phrases)
    // data is returned only from a 200 or 201 reply, never from an expiry
    ensures t.outcome.Ok? ==>
              && CheckResponse(replies[|t.sent| - 1], phrases).Ok?
              && IsSuccess(replies[|t.sent| - 1].statusCode)
              && t.outcome.value == CheckResponse(replies[|t.sent| - 1], phrases).value.data
  {
    var authorized := Authorize(req, tokenValue);
    var first := CheckResponse(replies[0], phrases);
    if first.Raised? then Trace([authorized], false, Raised(first.error))
    else if first.value.tokenExpired && autoUpdate then
      var second := CheckResponse(replies[1], phrases);
      if second.Raised? then Trace([authorized, authorized], true, Raised(second.error))
      else Trace([authorized, authorized], true, Conclude(second.value, phrases))
    else Trace([authorized], false, Conclude(first.value, phrases))
  }

  /** `Request.request`. */
  method Execute(req: HttpRequest, token: Token, transport: Transport,
                 phrases: map<int, string>, reissued: string)
    returns (outcome: Result<Json>)
    requires |transport.pending| >= 2
    modifies token, transport
    ensures var t := Run(req, old(token.value), old(token.autoUpdate), old(transport.pending), phrases);
            && outcome == t.outcome
            && transport.sent == old(transport.sent) + t.sent
            && transport.pending == old(transport.pending)[|t.sent|..]
            && token.updates == old(token.updates) + (if t.refreshed then 1 else 0)
            && token.value == (if t.refreshed then reissued else old(token.value))
            && token.autoUpdate == old(token.autoUpdate)
  {
    var tokenValue := token.Get();
    var authorized := Authorize(req, tokenValue);
    var response := SendRequest(transport, authorized, phrases);
    if response.Raised? {
      return Raised(response.error);
    }
    if response.value.tokenExpired && token.autoUpdate {
      token.Update(reissued);
      // the request is sent again with the header built before the refresh
      response := SendRequest(transport, authorized, phrases);
      if response.Raised? {
        return Raised(response.error);
      }
    }
    outcome := Conclude(response.value, phrases);
  }

  /** `Request.__call__` in blocking mode: normalise the payload, build the
      request for `path` and run the protocol. */
  method Call(verb: string, path: string, token: Token, payload: Dict?, transport: Transport,
              phrases: map<int, string>, reissued: string)
    returns (outcome: Result<Json>)
    requires |transport.pending| >= 2
    modifies payload, token, transport
    // the caller's dict afterwards: untouched when empty, normalised in place
    // otherwise, and only renamed when the phone number cannot be stripped
    ensures payload != null && old(payload.entries) == map[] ==> payload.entries == map[]
    ensures payload != null && old(payload.entries) != map[] ==>
              payload.entries == match NormalizedPayload(old(payload.entries))
                                 case Ok(m) => m
                                 case Raised(_) => RenameSender(old(payload.entries))
    ensures token.autoUpdate == old(token.autoUpdate)
    // a payload that cannot be normalised raises before anything is sent
    ensures var norm := NormalizedPayload(if payload == null then map[] else old(payload.entries));
            norm.Raised? ==>
              && outcome == Raised(norm.error)
              && transport.sent == old(transport.sent) && transport.pending == old(transport.pending)
              && token.updates == old(token.updates) && token.value == old(token.value)
    // otherwise the protocol runs on the request built from the normalised payload
    ensures var norm := NormalizedPayload(if payload == null then map[] else old(payload.entries));
            norm.Ok? ==>
              var t := Run(PrepareRequest(verb, path, Some(norm.value), None),
                           old(token.value), old(token.autoUpdate), old(transport.pending), phrases);
              && outcome == t.outcome
              && transport.sent == old(transport.sent) + t.sent
              && transport.pending == old(transport.pending)[|t.sent|..]
              && token.updates == old(token.updates) + (if t.refreshed then 1 else 0)
              && token.value == (if t.refreshed then reissued else old(token.value))
  {
    var prepared := PreparePayload(payload);
    if prepared.Raised? {
      return Raised(prepared.error);
    }
    var req := PrepareRequest(verb, path, Some(prepared.value.entries), None);
    outcome := Execute(req, token, transport, phrases, reissued);
  }

  // ---------------------------------------------------------------------
  // The protocol's scenarios
  // ---------------------------------------------------------------------

  /** A 200 or 201 JSON reply is returned unchanged, after a single send. */
  lemma SuccessReturnsBody(req: HttpRequest, v: string, auto: bool,
                           replies: seq<RawReply>, phrases: map<int, string>)
    requires |replies| >= 2 && replies[0].body.Parsed? && IsSuccess(replies[0].statusCode)
    ensures Run(req, v, auto, replies, phrases) == Trace([Authorize(req, v)], false, Ok(replies[0].body.json))
  {
  }

  /** An expiry with auto-update on refreshes once and returns what the
      resend returns; a second expiry is raised, not refreshed again. */
  lemma ExpiryThenResend(req: HttpRequest, v: string,
                         replies: seq<RawReply>, phrases: map<int, string>)
    requires |replies| >= 2 && replies[0].body.Parsed?
    requires ExpiredSignal(replies[0].statusCode, replies[0].body.json)
    ensures Run(req, v, true, replies, phrases).refreshed
    ensures |Run(req, v, true, replies, phrases).sent| == 2
    ensures replies[1].body.Parsed? && IsSuccess(replies[1].statusCode) ==>
              Run(req, v, true, replies, phrases).outcome == Ok(replies[1].body.json)
    ensures replies[1].body.Parsed? && ExpiredSignal(replies[1].statusCode, replies[1].body.json) ==>
              Run(req, v, true, replies, phrases).outcome
                == Raised(BadRequest(JStr(ExpiredToken), JStr(TokenInvalid), 401))
  {
  }

  /** With auto-update off an expiry is not retried: the same 401 is raised. */
  lemma ExpiryWithoutAutoUpdate(req: HttpRequest, v: string,
                                replies: seq<RawReply>, phrases: map<int, string>)
    requires |replies| >= 2 && replies[0].body.Parsed?
    requires ExpiredSignal(replies[0].statusCode, replies[0].body.json)
    ensures Run(req, v, false, replies, phrases)
              == Trace([Authorize(req, v)], false, Raised(BadRequest(JStr(ExpiredToken), JStr(TokenInvalid), 401)))
  {
  }
}
