/**
 * The unified-order flow `UnifiedOrder`: validate, sign, write the signature
 * into the caller's payload, transmit, parse and check the reply. The HTTP
 * exchange and the XML decoder are supplied by the caller as functions.
 */
module Order {
  import opened Wrappers
  import opened Params
  import opened Payload
  import opened Response

  /** The caller-owned payload, passed by pointer and updated in place. */
  class PayloadRef {
    var payload: UnifiedOrderPayload

    constructor (p: UnifiedOrderPayload)
      ensures payload == p
    {
      payload := p;
    }
  }

  /** What the HTTP POST to the gateway yields: a transport error or the reply body. */
  datatype Transfer = TransportFailed(message: string) | Received(body: seq<bv8>)

  /** One POST of the request's element set to the gateway. */
  type Transport = ParamMap -> Transfer

  /** The XML decoder for reply bodies. */
  type Parser = seq<bv8> -> Result<UnifiedOrderResp>

  /** The zero-valued reply returned alongside early errors. */
  const EmptyResp: UnifiedOrderResp := UnifiedOrderResp("", "", "", "", "", "", "", "", "", "", "", "")

  /** The payload after signing: its signature field holds the digest of its own key/value view. */
  function Signed(p: UnifiedOrderPayload, secretKey: string, sign: Signer): (q: UnifiedOrderPayload)
    ensures q.Sign == sign(p.KeyValueView(), secretKey)
    ensures q.(Sign := p.Sign) == p
  {
    p.(Sign := sign(p.KeyValueView(), secretKey))
  }

  /**
   * Creates a prepaid order. Fails fast with the validation message; on a
   * valid payload writes the signature into it, sends its key/value view once
   * and reports a transport error, a decode error, or the reply's
   * `ErrCodeDes` verbatim when the reply is not a success. `sent` records the
   * request that went over the wire, if any.
   */
  method UnifiedOrder(ref: PayloadRef, secretKey: string, sign: Signer, transport: Transport, parse: Parser)
    returns (response: UnifiedOrderResp, err: Option<string>, ghost sent: Option<ParamMap>)
    modifies ref
    ensures old(ref.payload).PreSignCheck().Some? ==>
      && err == old(ref.payload).PreSignCheck()
      && response == EmptyResp
      && sent == None
      && ref.payload == old(ref.payload)
    ensures old(ref.payload).PreSignCheck().None? ==>
      && ref.payload == Signed(old(ref.payload), secretKey, sign)
      && sent == Some(ref.payload.KeyValueView())
      && match transport(sent.value)
         case TransportFailed(msg) => err == Some(msg) && response == EmptyResp
         case Received(body) =>
           match parse(body)
           case Err(msg) => err == Some(msg) && response == EmptyResp
           case Ok(reply) =>
             && response == reply
             && err == (if reply.IsSuccess() then None else Some(reply.ErrCodeDes))
    ensures err.None? ==> response.IsSuccess() && sent.Some?
  {
    var preSignErr := ref.payload.PreSignCheck();
    if preSignErr.Some? {
      return EmptyResp, preSignErr, None;
    }
    var pm := ref.payload.KeyValueView();
    var signature := sign(pm, secretKey);
    ref.payload := ref.payload.(Sign := signature);
    var request := ref.payload.KeyValueView();
    sent := Some(request);
    var transfer := transport(request);
    if transfer.TransportFailed? {
      return EmptyResp, Some(transfer.message), sent;
    }
    var parsed := parse(transfer.body);
    if parsed.Err? {
      return EmptyResp, Some(parsed.message), sent;
    }
    response := parsed.value;
    if !response.IsSuccess() {
      return response, Some(response.ErrCodeDes), sent;
    }
    err := None;
  }

  /**
   * The request sent for a valid payload carries its signature under "sign",
   * computed over every other element of the request, so the gateway can
   * recompute it. This needs the caller's payload to arrive unsigned, or a
   * signer that ignores any "sign" entry, and a non-empty digest (an empty
   * one is dropped by the omit-empty rule).
   */
  lemma {:induction false} RequestCarriesSignature(p: UnifiedOrderPayload, secretKey: string, sign: Signer)
    requires p.Sign == "" || IgnoresSignEntry(sign)
    requires sign(p.KeyValueView(), secretKey) != ""
    ensures CarriesSignature(Signed(p, secretKey, sign).KeyValueView(), "sign", sign, secretKey)
  {
    var sig := sign(p.KeyValueView(), secretKey);
    var request := Signed(p, secretKey, sign).KeyValueView();
    SignFieldOnlyTouchesSignEntry(p, sig);
    assert request - {"sign"} == p.KeyValueView() - {"sign"};
    if p.Sign == "" {
      SignFieldOnlyTouchesSignEntry(p, "");
      assert p.(Sign := "") == p;
      assert "sign" !in p.KeyValueView();
      assert p.KeyValueView() - {"sign"} == p.KeyValueView();
    } else {
      assert sign(request - {"sign"}, secretKey) == sign(p.KeyValueView(), secretKey);
    }
  }

  /**
   * Signing an already-signed payload again yields the same signature when
   * the signer ignores the "sign" entry: the signature never feeds into itself.
   */
  lemma {:induction false} ResignIsStable(p: UnifiedOrderPayload, secretKey: string, sign: Signer)
    requires IgnoresSignEntry(sign)
    ensures Signed(Signed(p, secretKey, sign), secretKey, sign) == Signed(p, secretKey, sign)
  {
    var q := Signed(p, secretKey, sign);
    SignFieldOnlyTouchesSignEntry(p, q.Sign);
    assert sign(q.KeyValueView(), secretKey) == sign(p.KeyValueView(), secretKey);
  }
}
