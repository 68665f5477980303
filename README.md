# WeChat Pay unified order: a Dafny model

This project models the client side of the WeChat Pay "unified order" call, as
implemented in `weixin/unifiedorder.go`. The model covers four things:

- the create-order request record `UnifiedOrderPayload` and its pre-flight
  validation `PreSignCheck`, which reports the first missing required
  parameter;
- the omit-empty key/value view of the payload. This view is what gets signed
  and what the XML request body carries;
- the gateway reply `UnifiedOrderResp`, with its success test and its three
  trade-type handoffs: the JSAPI parameter map for in-browser payment, the APP
  parameter map for in-app payment, and the NATIVE QR-code URL;
- the `UnifiedOrder` flow, which runs validate, sign, write `Sign` into the
  caller's payload, transmit, parse and check success, in that order.

Modules:

- `Wrappers`: `Option` and `Result`.
- `Params`: parameter values, the omit-empty rule, the signer's type, and the
  `CarriesSignature` predicate. That predicate is the check a receiver
  performs: the entry under the signature key equals the signer applied to
  every other entry.
- `Payload`: the request record, its validation, and the validation rules
  written as an ordered table (`Requirements`) with first-failure semantics
  (`FirstViolation`).
- `Response`: the reply record and its handoffs.
- `Order`: the caller-owned payload (`PayloadRef`, standing for the Go
  `*UnifiedOrderPayload`) and the `UnifiedOrder` method.

Some collaborators are not part of this model. They are parameters instead:

- the digest routine `Sign`, as a `Signer` function;
- the gateway clock `ChinaTimestamp` and the nonce generator `NonceStr`, as
  the `timestamp` and `nonce` arguments of the handoff methods;
- the HTTP exchange, as a `Transport` function from the request's key/value
  view to a transport error or reply bytes;
- the XML decoder, as a `Parser` function.

`UnifiedOrder` also returns a ghost `sent`. It records the request that was
handed to the transport, or `None` when nothing was sent.

The model keeps two behaviours of the code exactly as written:

- When the reply is not a success, the decoded reply is returned together
  with the error. A partial result does come with an error in this case.
- The error message is `ErrCodeDes` verbatim, even when it is empty. There is
  no generic fallback message.

## Model

| member | source | states |
|---|---|---|
| `Payload.UnifiedOrderPayload.PreSignCheck` | weixin/unifiedorder.go:60-105 | any error it reports is one of the eleven fixed messages (nine "Missing required parameters: <wire name>" messages, the JSAPI openid message and the NATIVE product_id message) |
| `Payload.UnifiedOrderPayload.IsJSAPI` | weixin/unifiedorder.go:52-54 | a JSAPI payload names a non-empty trade type that is not NATIVE |
| `Payload.UnifiedOrderPayload.IsNative` | weixin/unifiedorder.go:56-58 | a NATIVE payload names a non-empty trade type that is not JSAPI |
| `Payload.Requirements` | weixin/unifiedorder.go:61-103 | the eleven validation rules in source order, each with its violation test and message; the openid rule can be violated only for JSAPI, the product_id rule only for NATIVE, and never both at once |
| `Payload.RequirementMessagesDistinct` | weixin/unifiedorder.go:61-103 | no two rules report the same message, so the one reported message identifies the rule that failed |
| `Payload.FirstViolation` | weixin/unifiedorder.go:60-105 | first-failure evaluation of an ordered rule table: `None` exactly when no rule is violated; otherwise the message of a violated rule with no violated rule before it |
| `Payload.PreSignCheckIsFirstViolation` | weixin/unifiedorder.go:60-105 | validation equals first-failure evaluation of the table in this order: appid, mch_id, body, nonce_str, out_trade_no, total_fee, spbill_create_ip, notify_url, trade_type, openid for JSAPI, product_id for NATIVE |
| `Payload.PreSignCheckPassesIff` | weixin/unifiedorder.go:60-105 | validation passes if and only if the eight string fields are non-empty, `TotalFee != 0`, JSAPI implies a non-empty `OpenID`, and NATIVE implies a non-empty `ProductID` |
| `Payload.PreSignCheckReportsFirst` | weixin/unifiedorder.go:61-103 | when rule i is the first violated rule, validation reports exactly rule i's message |
| `Payload.OtherTradeTypesIgnoreConditionalFields` | weixin/unifiedorder.go:97-103 | for a trade type other than JSAPI or NATIVE (APP included), changing `OpenID` or `ProductID` never changes the outcome, and neither trade-type message is reported |
| `Payload.UnifiedOrderPayload.WireFields` | weixin/unifiedorder.go:28-50 | the 21 struct fields, each paired with its tag name; no wire name occurs twice |
| `Payload.UnifiedOrderPayload.KeyValueView` | weixin/unifiedorder.go:171-176 | the signer's input: it holds no zero value, and every key is a wire name of the struct |
| `Payload.KeyValueViewExact` | weixin/unifiedorder.go:29-49 | a wire name is in the view if and only if its field is non-empty (or, for `TotalFee`, non-zero), and it maps to that field's value |
| `Payload.SignFieldOnlyTouchesSignEntry` | weixin/unifiedorder.go:33 | setting `Sign` changes the view at key "sign" only; "sign" is present if and only if the new value is non-empty, and then holds that value |
| `Params.OmitEmpty` | weixin/unifiedorder.go:171-176 | the omit-empty view of a field list keeps only non-zero values, under names drawn from the list |
| `Params.OmitEmptyAt` | weixin/unifiedorder.go:29-49 | with distinct names, field i is in the view if and only if its value is non-zero, and then with that value |
| `Params.OmitEmptyUpdate` | weixin/unifiedorder.go:29-49 | changing one field's value changes the view under that field's name only |
| `Response.UnifiedOrderResp.IsSuccess` | weixin/unifiedorder.go:122-124 | true exactly when both `ReturnCode` and `ResultCode` read "SUCCESS" (both directions) |
| `Response.SuccessNeedsBothCodes` | weixin/unifiedorder.go:122-124 | `IsSuccess` holds if and only if both `ReturnCode` and `ResultCode` are "SUCCESS"; one success code beside a failure code is not a success |
| `Response.UnifiedOrderResp.JSAPI` | weixin/unifiedorder.go:126-140 | `None` unless the trade type is JSAPI; otherwise a map with exactly the keys appId, timeStamp, nonceStr, package, signType and paySign; package is "prepay_id=" + `PrepayId`, signType is "MD5", and paySign is the signer applied to the other five entries |
| `Response.UnifiedOrderResp.APP` | weixin/unifiedorder.go:142-157 | `None` unless the trade type is APP; otherwise a map with exactly the keys appid, partnerid, package, timestamp, noncestr, prepayid and sign; partnerid is `MchId`, package is "Sign=WXPay", prepayid is `PrepayId`, and sign is the signer applied to the other six entries |
| `Response.UnifiedOrderResp.Native` | weixin/unifiedorder.go:159-164 | `CodeURL` when the trade type is NATIVE, "" otherwise |
| `Order.Signed` | weixin/unifiedorder.go:177-178 | the signed payload's `Sign` is the digest of the unsigned payload's view; every other field is unchanged |
| `Order.UnifiedOrder` | weixin/unifiedorder.go:166-209 | on a validation error: returns that same error and the zero reply, sends nothing, and leaves the payload unchanged. Otherwise: writes the signature into the payload and sends the signed payload's view once. A transport error or decode error is returned as is. A decoded reply that is not a success comes back together with `ErrCodeDes` verbatim as the error. No error implies a successful reply |
| `Order.RequestCarriesSignature` | weixin/unifiedorder.go:177-179 | the request's "sign" element is the signer applied to every other request element, when the payload came in unsigned (or the signer ignores "sign") and the digest is non-empty |
| `Order.ResignIsStable` | weixin/unifiedorder.go:177-178 | with a signer that ignores "sign", signing an already signed payload again reproduces the same signature |

## Left out

- The digest algorithm of `Sign` (sorting the keys, building the canonical string, MD5) is not part of this model. The signer is a parameter. `IgnoresSignEntry` states, as an assumption, the one property the lemmas rely on.
- `ChinaTimestamp` and `NonceStr` are not part of this model. Their results are arguments to the handoff methods. The timestamp is an opaque `Value`, because its Go type is not shown.
- HTTP request building, headers, the client call, the endpoint URL and the body read are network I/O. They are folded into the `Transport` parameter. A `http.NewRequest` failure counts as a transport error.
- The printing of the reply body is logging and is left out.
- JSON and XML encoding internals are left out. Only the omit-empty key set and its values are modelled. The float64 that `json.Unmarshal` makes of `TotalFee` is modelled as the integer itself, and numeric rendering is not modelled.
- The marshal and read errors that the code ignores are modelled as infallible steps, as the code treats them.
- Order.UnifiedOrder: a decode failure returns the zero reply. The fields that `xml.Unmarshal` may have filled in before failing are not modelled.
- `TotalFee` is an unbounded integer. It is compared with 0 and passed into the signed view and the request unchanged, never computed on, so no wrap-around of Go's platform-sized `int` is lost.
- The handoff methods cannot modify the reply, because the reply is an immutable datatype value. No separate lemma states this.
