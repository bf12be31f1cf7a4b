/** The response classifier of `BaseRequest`: `_check_response`, which turns a
    transport response into a classified `_Response` or raises, and
    `_bad_request`, which builds the `BadRequest` for a failed response. */
module Classifier {
  import opened Values
  import opened Wire

  /** The sentinels of `eskiz_sms.enums` that mark an expired token; the
      enums module is not part of this model, so they are the values of the
      service's wire contract. */
  const TokenInvalid: string := "token_invalid"
  const ExpiredToken: string := "Token expired"

  // ---------------------------------------------------------------------
  // The regular expression `API version: ([0-9.]+)` and `re.search`
  // ---------------------------------------------------------------------

  const Marker: string := "API version: "

  predicate IsVersionChar(c: char) {
    ('0' <= c <= '9') || c == '.'
  }

  /** The pattern matches at position `p`: the marker, then at least one
      version character. */
  predicate MatchesAt(text: string, p: int) {
    0 <= p && p + |Marker| < |text|
    && text[p..p + |Marker|] == Marker
    && IsVersionChar(text[p + |Marker|])
  }

  /** The greedy group `[0-9.]+`: the longest run of version characters at
      the start of `s`. */
  function VersionRun(s: string): (v: string)
    ensures |v| <= |s| && v == s[..|v|]
    ensures forall i :: 0 <= i < |v| ==> IsVersionChar(v[i])
    ensures |v| < |s| ==> !IsVersionChar(s[|v|])
  {
    if s != [] && IsVersionChar(s[0]) then [s[0]] + VersionRun(s[1..]) else []
  }

  /** The leftmost position at or after `from` where the pattern matches. */
  function FindMatch(text: string, from: nat): (r: Option<nat>)
    ensures r.Some? ==> from <= r.value && MatchesAt(text, r.value)
    ensures r.Some? ==> forall q :: from <= q < r.value ==> !MatchesAt(text, q)
    ensures r.None? ==> forall q :: from <= q ==> !MatchesAt(text, q)
    decreases |text| - from
  {
    if from + |Marker| >= |text| then None
    else if MatchesAt(text, from) then Some(from)
    else FindMatch(text, from + 1)
  }

  /** `v` is what `API_VERSION_RE.search(text).groups()[0]` yields: the group
      of the leftmost match, taken greedily. */
  ghost predicate GroupOfLeftmostMatch(text: string, p: int, v: string) {
    && MatchesAt(text, p)
    && (forall q :: 0 <= q < p ==> !MatchesAt(text, q))
    && p + |Marker| + |v| <= |text|
    && text[p + |Marker|..p + |Marker| + |v|] == v
    && (forall i :: 0 <= i < |v| ==> IsVersionChar(v[i]))
    && (p + |Marker| + |v| == |text| || !IsVersionChar(text[p + |Marker| + |v|]))
  }

  /** `API_VERSION_RE.search(text)` followed by `.groups()[0]`. */
  function SearchApiVersion(text: string): (r: Option<string>)
    ensures r.None? <==> forall q :: 0 <= q ==> !MatchesAt(text, q)
    ensures r.Some? ==> |r.value| > 0
    ensures r.Some? ==> exists p :: GroupOfLeftmostMatch(text, p, r.value)
  {
    match FindMatch(text, 0)
    case None => None
    case Some(p) =>
      var v := VersionRun(text[p + |Marker|..]);
      assert GroupOfLeftmostMatch(text, p, v);
      Some(v)
  }

  lemma SearchFindsVersion()
    ensures SearchApiVersion("API version: 4.12") == Some("4.12")
  {
    var text := "API version: 4.12";
    assert MatchesAt(text, 0);
    assert FindMatch(text, 0) == Some(0);
    assert text[|Marker|..] == "4.12";
    assert VersionRun("2") == "2" by { assert "2"[1..] == []; }
    assert VersionRun("12") == "12" by { assert "12"[1..] == "2"; }
    assert VersionRun(".12") == ".12" by { assert ".12"[1..] == "12"; }
    assert VersionRun("4.12") == "4.12" by { assert "4.12"[1..] == ".12"; }
  }

  // ---------------------------------------------------------------------
  // _check_response and _bad_request
  // ---------------------------------------------------------------------

  /** Lines 91-93 of the source: a 401 whose object body carries both
      sentinels. */
  predicate ExpiredSignal(code: int, data: Json) {
    && code == 401
    && data.JObj?
    && Field(data.fields, "status") == JStr(TokenInvalid)
    && Field(data.fields, "message") == JStr(ExpiredToken)
  }

  /** The data of a response whose body is not usable: `{message: phrase}`,
      or the `KeyError` of a status code the phrase table lacks. */
  function PhraseData(code: int, phrases: map<int, string>): (r: Result<Json>)
    ensures r.Ok? <==> code in phrases
    ensures r.Ok? ==> r.value == JObj(map["message" := JStr(phrases[code])])
    ensures r.Raised? ==> r.error == UnknownStatus(code)
  {
    if code in phrases then Ok(JObj(map["message" := JStr(phrases[code])]))
    else Raised(UnknownStatus(code))
  }

  /** Lines 78-85 with the intended status test: the parsed JSON body, or
      for a 200 text body the API version it announces, or nothing. */
  function BodyData(raw: RawReply): (d: Option<Json>)
    ensures raw.body.Parsed? ==> d == Some(raw.body.json)
    ensures raw.body.Unparsed? && d.Some? ==>
              raw.statusCode == 200
              && SearchApiVersion(raw.body.text).Some?
              && d.value == JObj(map["api_version" := JStr(SearchApiVersion(raw.body.text).value)])
    ensures raw.body.Unparsed? && raw.statusCode == 200 && SearchApiVersion(raw.body.text).Some? ==> d.Some?
  {
    match raw.body
    case Parsed(j) => Some(j)
    case Unparsed(text) =>
      if raw.statusCode == 200 then
        match SearchApiVersion(text)
        case Some(v) => Some(JObj(map["api_version" := JStr(v)]))
        case None => None
      else None
  }

  /** Lines 77-87: the `_Response` before its status is judged. Its data is
      the parsed body, the announced API version of a 200 text body, or else
      the status phrase, whose lookup raises `KeyError` for an unknown code. */
  function Initial(raw: RawReply, phrases: map<int, string>): (r: Result<Response>)
    ensures r.Ok? ==> r.value.statusCode == raw.statusCode && !r.value.tokenExpired
    ensures raw.body.Parsed? ==> r == Ok(Response(raw.statusCode, raw.body.json, false))
    ensures raw.body.Unparsed? && raw.statusCode == 200 && SearchApiVersion(raw.body.text).Some? ==>
              r == Ok(Response(200, JObj(map["api_version" := JStr(SearchApiVersion(raw.body.text).value)]), false))
    ensures raw.body.Unparsed? && !(raw.statusCode == 200 && SearchApiVersion(raw.body.text).Some?) ==>
              && (r.Ok? <==> raw.statusCode in phrases)
              && (raw.statusCode in phrases ==>
                    r == Ok(Response(raw.statusCode, JObj(map["message" := JStr(phrases[raw.statusCode])]), false)))
              && (raw.statusCode !in phrases ==> r == Raised(UnknownStatus(raw.statusCode)))
  {
    match BodyData(raw)
    case Some(d) => Ok(Response(raw.statusCode, d, false))
    case None =>
      match PhraseData(raw.statusCode, phrases)
      case Ok(d) => Ok(Response(raw.statusCode, d, false))
      case Raised(e) => Raised(e)
  }

  /** `_bad_request`: the exception raised for a failed response. Its message
      is the body's `message` when that is truthy and the status phrase
      otherwise; its status is the body's `status` or `None`. */
  function BadRequestOf(resp: Response, phrases: map<int, string>): (e: Failure)
    ensures e.BadRequest? || e == NotADict || e == UnknownStatus(resp.statusCode)
    ensures e == NotADict <==> !resp.data.JObj?
    ensures e.BadRequest? ==>
              && e.statusCode == resp.statusCode
              && e.status == Field(resp.data.fields, "status")
              && (Truthy(Field(resp.data.fields, "message")) ==> e.message == Field(resp.data.fields, "message"))
              && (!Truthy(Field(resp.data.fields, "message")) ==>
                    resp.statusCode in phrases && e.message == JStr(phrases[resp.statusCode]))
    ensures e.UnknownStatus? <==>
              resp.data.JObj? && !Truthy(Field(resp.data.fields, "message")) && resp.statusCode !in phrases
  {
    match resp.data
    case JObj(fields) =>
      var message := Field(fields, "message");
      if Truthy(message) then BadRequest(message, Field(fields, "status"), resp.statusCode)
      else if resp.statusCode in phrases then
        BadRequest(JStr(phrases[resp.statusCode]), Field(fields, "status"), resp.statusCode)
      else UnknownStatus(resp.statusCode)
    case _ => NotADict
  }

  /** Lines 91-93: whether the response is the expired-token signal; `.get`
      raises on a 401 body that is not an object. */
  function ExpiryCheck(resp: Response): (r: Result<bool>)
    ensures r.Raised? <==> resp.statusCode == 401 && !resp.data.JObj?
    ensures r.Raised? ==> r.error == NotADict
    ensures r.Ok? ==> (r.value <==> ExpiredSignal(resp.statusCode, resp.data))
  {
    if resp.statusCode != 401 then Ok(false)
    else match resp.data
      case JObj(fields) =>
        Ok(Field(fields, "status") == JStr(TokenInvalid) && Field(fields, "message") == JStr(ExpiredToken))
      case _ => Raised(NotADict)
  }

  /** Lines 91-100: an expired token is flagged and returned, any other
      status but 200 and 201 raises, and a success is returned as it is. The
      response judged is the one built at lines 79-87, never yet flagged. */
  function Judge(resp: Response, phrases: map<int, string>): (r: Result<Response>)
    requires !resp.tokenExpired
    ensures r.Ok? ==> r.value.statusCode == resp.statusCode && r.value.data == resp.data
    ensures r.Ok? ==> (r.value.tokenExpired <==> ExpiredSignal(resp.statusCode, resp.data))
    ensures r.Ok? ==> r.value.tokenExpired || IsSuccess(resp.statusCode)
    ensures ExpiredSignal(resp.statusCode, resp.data) ==> r == Ok(resp.(tokenExpired := true))
    ensures !ExpiredSignal(resp.statusCode, resp.data) && IsSuccess(resp.statusCode) ==> r == Ok(resp)
    ensures !ExpiredSignal(resp.statusCode, resp.data) && !IsSuccess(resp.statusCode) ==>
              r == Raised(BadRequestOf(resp, phrases))
  {
    match ExpiryCheck(resp)
    case Raised(e) => Raised(e)
    case Ok(true) => Ok(resp.(tokenExpired := true))
    case Ok(false) =>
      if !IsSuccess(resp.statusCode) then Raised(BadRequestOf(resp, phrases)) else Ok(resp)
  }

  /** `_check_response`, with line 81 testing the status code of the
      transport response (see CheckResponseAsWritten). */
  function CheckResponse(raw: RawReply, phrases: map<int, string>): (r: Result<Response>)
    // what is returned
    ensures r.Ok? ==> r.value.statusCode == raw.statusCode
    ensures r.Ok? ==> (r.value.tokenExpired <==> ExpiredSignal(raw.statusCode, r.value.data))
    ensures r.Ok? ==> r.value.tokenExpired || IsSuccess(raw.statusCode)
    ensures r.Ok? && r.value.tokenExpired ==> raw.statusCode == 401
    // a JSON body
    ensures raw.body.Parsed? && IsSuccess(raw.statusCode) ==>
              r == Ok(Response(raw.statusCode, raw.body.json, false))
    ensures raw.body.Parsed? && ExpiredSignal(raw.statusCode, raw.body.json) ==>
              r == Ok(Response(raw.statusCode, raw.body.json, true))
    ensures raw.body.Parsed? && !IsSuccess(raw.statusCode) && !ExpiredSignal(raw.statusCode, raw.body.json) ==>
              r == Raised(BadRequestOf(Response(raw.statusCode, raw.body.json, false), phrases))
    // a text body
    ensures raw.body.Unparsed? && raw.statusCode == 200 && SearchApiVersion(raw.body.text).Some? ==>
              r == Ok(Response(200, JObj(map["api_version" := JStr(SearchApiVersion(raw.body.text).value)]), false))
    ensures raw.body.Unparsed? && !(raw.statusCode == 200 && SearchApiVersion(raw.body.text).Some?) ==>
              && (raw.statusCode !in phrases ==> r == Raised(UnknownStatus(raw.statusCode)))
              && (raw.statusCode in phrases && IsSuccess(raw.statusCode) ==>
                    r == Ok(Response(raw.statusCode, JObj(map["message" := JStr(phrases[raw.statusCode])]), false)))
              && (raw.statusCode in phrases && !IsSuccess(raw.statusCode) ==>
                    r == Raised(BadRequest(JStr(phrases[raw.statusCode]), JNull, raw.statusCode)))
  {
    match Initial(raw, phrases)
    case Raised(e) => Raised(e)
    case Ok(resp) => Judge(resp, phrases)
  }

  /** `_check_response` as written: on `JSONDecodeError` line 81 reads
      `response.status_code` while `response` is still `None`, so every body
      that is not JSON raises `AttributeError`. */
  function CheckResponseAsWritten(raw: RawReply, phrases: map<int, string>): (r: Result<Response>)
    ensures raw.body.Unparsed? ==> r == Raised(NoneResponse)
    ensures raw.body.Parsed? ==> r == CheckResponse(raw, phrases)
  {
    match raw.body
    case Unparsed(_) => Raised(NoneResponse)
    case Parsed(j) => Judge(Response(raw.statusCode, j, false), phrases)
  }

  /** The discrepancy: a 200 text body announcing the API version raises as
      written, and is classified as a success with the version as intended. */
  lemma PlainTextVersionRaisesAsWritten(phrases: map<int, string>)
    ensures CheckResponseAsWritten(RawReply(200, Unparsed("API version: 4.12")), phrases)
              == Raised(NoneResponse)
    ensures CheckResponse(RawReply(200, Unparsed("API version: 4.12")), phrases)
              == Ok(Response(200, JObj(map["api_version" := JStr("4.12")]), false))
  {
    SearchFindsVersion();
  }
}
