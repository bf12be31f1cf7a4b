# eskiz-sms: the authenticated-request core, in Dafny

This project models the request core of the `eskiz_sms` client for the Eskiz
SMS gateway (`eskiz_sms/request.py`) and proves properties of it. The core has
four parts:

- **The response classifier** (`BaseRequest._check_response`, `_bad_request`).
  It turns a status code and a body into one of three things: a classified
  response with data, a response flagged `token_expired`, or a raised
  `BadRequest(message, status, status_code)`. A JSON body is taken as the
  data. A 401 whose body carries the `token_invalid` status and the
  `Token expired` message is the expiry signal. For a body that is not
  JSON the model gives the evidently intended behaviour: a 200 text body
  announcing `API version: <x>` gives `{api_version: <x>}`, and any other
  body gives `{message: <status phrase>}`. The code as written raises
  `AttributeError` for every such body instead (see Findings).
- **The single-retry refresh protocol** (`Request.request`). It reads the
  token once and sets the `Authorization: Bearer <token>` header. It sends
  the request. If the reply is the expiry signal and `auto_update` is on, it
  calls `update()` once and sends the same request once more. It raises
  `BadRequest` unless the final status is 200 or 201.
- **Payload normalisation** (`Request._prepare_payload`). It renames
  `from_whom` to `from` and strips `+` and spaces from `mobile_phone`. It
  works in place on the caller's dict.
- **Request construction** (`_url`, `_prepare_request`, `Request.__call__`).
  It prefixes the base URL `https://notify.eskiz.uz/api` to the path.

Files:

- `values.dfy`: JSON values, Python truthiness, `dict.get`, and the exceptions
  the core raises.
- `wire.dfy`: `_url`, `_Request`, `_Response`, `_prepare_request`.
- `classifier.dfy`: the regular expression, `_check_response`, `_bad_request`.
- `payload.dfy`: the `Dict` class and `_prepare_payload`.
- `executor.dfy`: the `Token` and transport objects, and `Request.request`
  both as the `Run` specification function and as the `Execute` method.
  Also `Request.__call__`.

Exceptions are values here. The `Failure` datatype holds `BadRequest` and
the Python errors the code can hit:

- `AttributeError` when `.get` is called on a JSON body that is not an object.
- `AttributeError` when `.replace` is called on a `mobile_phone` that is not a
  string.
- `KeyError` when a status code has no entry in `http.client.responses`.

The status-phrase table `http.client.responses` is a parameter
`phrases: map<int, string>`. Nothing is assumed about its contents. The
expiry sentinels `ResponseStatus.TOKEN_INVALID` and
`ResponseMessage.EXPIRED_TOKEN` come from `eskiz_sms/enums`, which is not part
of this model. They are the constants `"token_invalid"` and `"Token expired"`
of the service's wire contract.

In these places the model follows the code as written:

- **Stale header on retry.** The point of refreshing is that the resend
  authenticates with the new token. The code sends the same `_request` again, and its header
  was built before `update()`. `Run` and `Execute` state that every send
  carries the value read by the single `get()`.
- **Unknown status codes.** Whenever the status phrase is needed, the code
  looks it up in `http.client.responses` and raises `KeyError` for a code the
  table lacks. The model keeps that `KeyError`.

In one place the model follows the evident intent instead of the code:

- **Line 81.** The code reads `response.status_code` while `response` is
  still `None`. The model tests the transport's status code instead. The
  code as written is kept beside it as `CheckResponseAsWritten`. See
  Findings.

## Model

| member | source | states |
|---|---|---|
| `Wire.Url` | eskiz_sms/request.py:25-30 | the URL is the base URL followed by the path, and the path can be read back from it |
| `Wire.PrepareRequest` | eskiz_sms/request.py:51-52 | the request keeps the method, data and headers, and its URL is the base URL followed by the path |
| `Classifier.VersionRun` | eskiz_sms/request.py:26 | the greedy group `[0-9.]+`: the longest prefix of version characters, stopped by a non-version character or the end |
| `Classifier.FindMatch` | eskiz_sms/request.py:82 | `re.search` finds the leftmost position where the marker and at least one version character occur, and `None` only when there is none |
| `Classifier.SearchApiVersion` | eskiz_sms/request.py:82-84 | `None` exactly when the pattern matches nowhere; otherwise a non-empty group that is the greedy run after the leftmost match |
| `Classifier.SearchFindsVersion` | eskiz_sms/request.py:82-84 | the text `API version: 4.12` yields the version `4.12` |
| `Classifier.PhraseData` | eskiz_sms/request.py:86-87 | data `{message: phrase}` for a code in the table, `KeyError` otherwise |
| `Classifier.BodyData` | eskiz_sms/request.py:78-85 | a JSON body is the data; a text body gives data only for status 200 with an API-version match, and that data is `{api_version: group}` |
| `Classifier.Initial` | eskiz_sms/request.py:77-87 | the response carries the input status code and is not flagged expired; its data is the parsed JSON body, or `{api_version: group}` for a 200 text body with a match, or else `{message: phrase}`, and it raises `KeyError` exactly when that phrase is needed and missing |
| `Classifier.BadRequestOf` | eskiz_sms/request.py:55-60 | `status_code` is the response's; `status` is `data.get('status')`; the message is `data['message']` when truthy, else the status phrase; `AttributeError` exactly for a non-object body, `KeyError` exactly when the phrase is needed and missing |
| `Classifier.ExpiryCheck` | eskiz_sms/request.py:91-95 | true exactly for a 401 object body with both sentinels; a 401 with a non-object body raises `AttributeError` |
| `Classifier.Judge` | eskiz_sms/request.py:91-100 | status and data are kept; the response is flagged expired exactly for the expiry signal and then returned; otherwise a 200/201 is returned unflagged and any other status raises the `_bad_request` of that response |
| `Classifier.CheckResponse` | eskiz_sms/request.py:76-100 | status 200/201 with JSON returns the body unchanged, not expired; the expiry pattern is returned flagged, not raised; any other status raises `BadRequest` built from the body; a 200 version text gives `{api_version}`; other text bodies give `{message: phrase}` and are never flagged expired |
| `Classifier.CheckResponseAsWritten` | eskiz_sms/request.py:76-100 | as written, every text body raises `AttributeError`; on JSON bodies it agrees with `CheckResponse` |
| `Classifier.PlainTextVersionRaisesAsWritten` | eskiz_sms/request.py:79-84 | a 200 text body `API version: 4.12` raises as written and yields `{api_version: "4.12"}` as intended |
| `Payload.RemoveAll` | eskiz_sms/request.py:162 | `str.replace(c, "")` leaves no `c` in the string and never lengthens it |
| `Payload.StripPhone` | eskiz_sms/request.py:161-162 | the stripped phone number contains no `+` and no space |
| `Payload.StripPhoneIsFilter` | eskiz_sms/request.py:162 | the two replacements are one in-order pass that keeps every other character |
| `Payload.StripPhoneIdempotent` | eskiz_sms/request.py:162 | stripping twice is stripping once |
| `Payload.RenameSender` | eskiz_sms/request.py:159-160 | no `from_whom` remains; `from` holds its old value; other keys are unchanged |
| `Payload.StripMobile` | eskiz_sms/request.py:161-162 | `mobile_phone` is stripped and no other entry changes; a non-string phone raises `AttributeError` |
| `Payload.NormalizedPayload` | eskiz_sms/request.py:157-163 | no `from_whom` remains; `from` holds the old `from_whom`; `mobile_phone` has no `+` or space; all other keys are unchanged; the empty payload stays empty; raises exactly for a non-string phone |
| `Payload.NormalizedPayloadIdempotent` | eskiz_sms/request.py:157-163 | normalising a normalised payload changes nothing |
| `Payload.PreparePayload` | eskiz_sms/request.py:156-163 | an absent or empty payload gives a new empty dict and a caller's empty dict is left empty; any other dict is normalised in place and returned; on `AttributeError` the rename has already been applied |
| `Executor.Token.Get` | eskiz_sms/request.py:144 | returns the value the token holds |
| `Executor.Token.Update` | eskiz_sms/request.py:150 | replaces the held value and counts one update |
| `Executor.Transport.Send` | eskiz_sms/request.py:64-65 | answers with the next pending reply and records the request as sent |
| `Executor.SendRequest` | eskiz_sms/request.py:62-67 | one send, whose reply is classified by `CheckResponse` |
| `Executor.Authorize` | eskiz_sms/request.py:145-147 | the headers become exactly `{Authorization: "Bearer " + value}`; method, URL and data are kept |
| `Executor.Conclude` | eskiz_sms/request.py:152-154 | data is returned exactly for status 200 or 201; otherwise the `BadRequest` of that response is raised |
| `Executor.Run` | eskiz_sms/request.py:143-154 | one or two sends; a second send and a refresh happen together, and only when the first reply is an expiry and `auto_update` is on; every send carries the header built from the single `get()`; the outcome depends on the last reply alone; data comes only from a 200/201 reply |
| `Executor.Execute` | eskiz_sms/request.py:143-154 | the method's result, sends, update count and token value are those of `Run` |
| `Executor.Call` | eskiz_sms/request.py:119-128 | the caller's dict is left empty when empty and otherwise normalised in place, only renamed when the phone cannot be stripped; a payload that fails normalisation raises before any send or refresh; otherwise the result, sends, remaining replies, update count and token value are those of the protocol on the normalised request for the path; `auto_update` never changes |
| `Executor.SuccessReturnsBody` | eskiz_sms/request.py:148-154 | a 200/201 JSON reply is returned unchanged after one send and no refresh |
| `Executor.ExpiryThenResend` | eskiz_sms/request.py:149-153 | with `auto_update` on, an expiry causes exactly one refresh and one resend; a successful resend is returned; a second expiry is raised as `BadRequest("Token expired", "token_invalid", 401)` |
| `Executor.ExpiryWithoutAutoUpdate` | eskiz_sms/request.py:149-153 | with `auto_update` off, an expiry is not retried, and the same 401 is raised as `BadRequest` |

## Left out

- The httpx transport and its `HTTPError` wrapping (eskiz_sms/request.py:62-74) are I/O. The transport is a `Transport` object that answers each send with the next of a sequence of replies. Transport-level errors are not modelled.
- `Executor.Run`, `Executor.Execute` and `Executor.Call` require at least two pending replies. The transport is taken to answer every send, and the protocol makes at most two.
- The async path is concurrency plumbing and is not modelled. This covers `async_request` (eskiz_sms/request.py:130-141), which repeats the blocking algorithm, the `_is_async` branch of `__call__`, and `Coro` (eskiz_sms/request.py:102-112), whose constructor subtracts at line 105 instead of assigning.
- The endpoint decorators `post`/`put`/`get`/`delete`/`patch`/`_method_decorator` (eskiz_sms/request.py:165-197) are left out. They are metaprogramming that builds response models by keyword expansion, and they never pass `path`.
- Debug logging (eskiz_sms/request.py:89) is left out. It has no effect on the result.
- The contents of `http.client.responses` are not modelled. It is the `phrases` parameter.
- The expiry sentinels are taken as constant strings. `eskiz_sms/enums` is not part of this model.
- `Executor.Token.Get`: does not model the first-time login a token's `get()` may perform. It returns the held value.
- `Executor.Token.Update`: does not model re-authentication. The new value is the parameter `reissued`.
- `Executor.Execute`: builds the authorised request as a value. It does not write the header into the caller's `_Request` object, which `__call__` discards anyway.
- Dict insertion order is not modelled. A dict is a `map`, so the model does not capture that `payload['from'] = payload.pop('from_whom')` moves `from` to the end of the payload, nor the order in which the transport encodes it. No outcome of the core depends on that order.
- JSON numbers are integers. Floating point is not modelled.
- Decoding the body bytes and `r.json()` itself are not modelled. A body arrives either parsed or as text that failed to parse.
- `eskiz_sms/__init__.py` only re-exports names. It has no logic to model.

## Findings

| source | as written | input that shows it | evidently intended | confidence | as-written member | corrected member |
|---|---|---|---|---|---|---|
| eskiz_sms/request.py:81 | in the `JSONDecodeError` handler, `response.status_code` is read while `response` is still `None`, so every non-JSON body raises `AttributeError` | status 200 with the text body `API version: 4.12` | test the transport's `r.status_code`, so the version text gives `{api_version: "4.12"}` and other text gives `{message: phrase}` | high; not executed | `Classifier.CheckResponseAsWritten` (shown by `Classifier.PlainTextVersionRaisesAsWritten`) | `Classifier.CheckResponse` |
