/**
 * The create-order request `UnifiedOrderPayload`: its fields, the trade-type
 * tests, the pre-flight validation `PreSignCheck`, and the omit-empty
 * key/value view that is signed and sent.
 */
module Payload {
  import opened Wrappers
  import opened Params

  const TradeTypeAPP: string := "APP"
  const TradeTypeJSAPI: string := "JSAPI"
  const TradeTypeNative: string := "NATIVE"

  /** The message for a missing always-required parameter. */
  function Missing(wireName: string): string
  {
    "Missing required parameters: " + wireName
  }

  /** The messages for the two trade-type-specific parameters (spelled as the gateway client spells them). */
  const MissingOpenID: string := "Missing required paramters for JSAPI payment: openid"
  const MissingProductID: string := "Missing required paramters for NATIVE payment: product_id"

  /**
   * The request record. `TotalFee` is an amount in cents; every other field
   * is a string. All fields are tagged `omitempty`.
   */
  datatype UnifiedOrderPayload = UnifiedOrderPayload(
    AppId: string,
    MchId: string,
    DeviceInfo: string,
    NonceStr: string,
    Sign: string,
    SignType: string,
    Body: string,
    Detail: string,
    Attach: string,
    OutTradeNo: string,
    FeeType: string,
    TotalFee: int,
    SPBillCreateIp: string,
    TimeStart: string,
    TimeExpire: string,
    GoodsTag: string,
    NotifyURL: string,
    TradeType: string,
    LimitPay: string,
    OpenID: string,
    ProductID: string)
  {
    /** A JSAPI payload names a trade type, and not the NATIVE one. */
    predicate IsJSAPI(): (r: bool)
      ensures r ==> TradeType != "" && TradeType != TradeTypeNative
    {
      TradeType == TradeTypeJSAPI
    }

    /** A NATIVE payload names a trade type, and not the JSAPI one. */
    predicate IsNative(): (r: bool)
      ensures r ==> TradeType != "" && TradeType != TradeTypeJSAPI
    {
      TradeType == TradeTypeNative
    }

    /**
     * Pre-flight validation: the first missing required parameter, in a fixed
     * order, or `None` when the payload may be signed and sent.
     */
    function PreSignCheck(): (err: Option<string>)
      ensures err.Some? ==> err.value in AllMessages()
    {
      if AppId == "" then Some(Missing("appid"))
      else if MchId == "" then Some(Missing("mch_id"))
      else if Body == "" then Some(Missing("body"))
      else if NonceStr == "" then Some(Missing("nonce_str"))
      else if OutTradeNo == "" then Some(Missing("out_trade_no"))
      else if TotalFee == 0 then Some(Missing("total_fee"))
      else if SPBillCreateIp == "" then Some(Missing("spbill_create_ip"))
      else if NotifyURL == "" then Some(Missing("notify_url"))
      else if TradeType == "" then Some(Missing("trade_type"))
      else if IsJSAPI() && OpenID == "" then Some(MissingOpenID)
      else if IsNative() && ProductID == "" then Some(MissingProductID)
      else None
    }

    /** The fields in declaration order, each under its wire name. */
    function WireFields(): (fields: seq<(string, Value)>)
      ensures |fields| == 21 && DistinctNames(fields)
    {
      var fields := [
        ("appid", Str(AppId)),
        ("mch_id", Str(MchId)),
        ("device_info", Str(DeviceInfo)),
        ("nonce_str", Str(NonceStr)),
        ("sign", Str(Sign)),
        ("sign_type", Str(SignType)),
        ("body", Str(Body)),
        ("detail", Str(Detail)),
        ("attach", Str(Attach)),
        ("out_trade_no", Str(OutTradeNo)),
        ("fee_type", Str(FeeType)),
        ("total_fee", Num(TotalFee)),
        ("spbill_create_ip", Str(SPBillCreateIp)),
        ("time_start", Str(TimeStart)),
        ("time_expire", Str(TimeExpire)),
        ("goods_tag", Str(GoodsTag)),
        ("notify_url", Str(NotifyURL)),
        ("trade_type", Str(TradeType)),
        ("limit_pay", Str(LimitPay)),
        ("open_id", Str(OpenID)),
        ("product_id", Str(ProductID))
      ];
      fields
    }

    /**
     * The generic key/value view of the payload: every field with a non-zero
     * value, keyed by its wire name. It is both the signer's input and the
     * element set of the XML request body.
     */
    function KeyValueView(): (m: ParamMap)
      ensures forall k :: k in m ==> !IsDefault(m[k])
      ensures m.Keys <= Names(WireFields())
    {
      OmitEmpty(WireFields())
    }
  }

  /** Every message `PreSignCheck` can report. */
  function AllMessages(): set<string>
  {
    {Missing("appid"), Missing("mch_id"), Missing("body"), Missing("nonce_str"),
     Missing("out_trade_no"), Missing("total_fee"), Missing("spbill_create_ip"),
     Missing("notify_url"), Missing("trade_type"), MissingOpenID, MissingProductID}
  }

  /** One row of the validation table: whether the check is violated, and what it reports. */
  datatype Requirement = Requirement(violated: bool, message: string)

  /**
   * The validation rules as an ordered table: nine unconditional checks, then
   * the open-id rule for JSAPI and the product-id rule for NATIVE payments.
   */
  function Requirements(p: UnifiedOrderPayload): (rs: seq<Requirement>)
    ensures |rs| == 11
    ensures rs[9].violated ==> p.IsJSAPI() && !rs[10].violated
    ensures rs[10].violated ==> p.IsNative() && !rs[9].violated
  {
    [ Requirement(p.AppId == "", Missing("appid")),
      Requirement(p.MchId == "", Missing("mch_id")),
      Requirement(p.Body == "", Missing("body")),
      Requirement(p.NonceStr == "", Missing("nonce_str")),
      Requirement(p.OutTradeNo == "", Missing("out_trade_no")),
      Requirement(p.TotalFee == 0, Missing("total_fee")),
      Requirement(p.SPBillCreateIp == "", Missing("spbill_create_ip")),
      Requirement(p.NotifyURL == "", Missing("notify_url")),
      Requirement(p.TradeType == "", Missing("trade_type")),
      Requirement(p.TradeType == TradeTypeJSAPI && p.OpenID == "", MissingOpenID),
      Requirement(p.TradeType == TradeTypeNative && p.ProductID == "", MissingProductID) ]
  }

  /**
   * First-failure semantics over an ordered table: the message of the
   * earliest violated row at or after position `k`.
   */
  function FirstViolation(rs: seq<Requirement>, k: nat): (r: Option<string>)
    requires k <= |rs|
    ensures r.None? <==> forall i :: k <= i < |rs| ==> !rs[i].violated
    ensures r.Some? ==> exists i :: k <= i < |rs| && rs[i].violated && rs[i].message == r.value &&
                                    forall j :: k <= j < i ==> !rs[j].violated
    decreases |rs| - k
  {
    if k == |rs| then None
    else if rs[k].violated then Some(rs[k].message)
    else FirstViolation(rs, k + 1)
  }

  /** `PreSignCheck` is first-failure evaluation of the whole requirement table. */
  lemma PreSignCheckIsFirstViolation(p: UnifiedOrderPayload)
    ensures p.PreSignCheck() == FirstViolation(Requirements(p), 0)
  {
    var rs := Requirements(p);
    assert FirstViolation(rs, 11) == None;
    assert FirstViolation(rs, 10) == if rs[10].violated then Some(MissingProductID) else None;
    assert FirstViolation(rs, 9) == if rs[9].violated then Some(MissingOpenID) else FirstViolation(rs, 10);
    assert FirstViolation(rs, 8) == if rs[8].violated then Some(Missing("trade_type")) else FirstViolation(rs, 9);
    assert FirstViolation(rs, 7) == if rs[7].violated then Some(Missing("notify_url")) else FirstViolation(rs, 8);
    assert FirstViolation(rs, 6) == if rs[6].violated then Some(Missing("spbill_create_ip")) else FirstViolation(rs, 7);
    assert FirstViolation(rs, 5) == if rs[5].violated then Some(Missing("total_fee")) else FirstViolation(rs, 6);
    assert FirstViolation(rs, 4) == if rs[4].violated then Some(Missing("out_trade_no")) else FirstViolation(rs, 5);
    assert FirstViolation(rs, 3) == if rs[3].violated then Some(Missing("nonce_str")) else FirstViolation(rs, 4);
    assert FirstViolation(rs, 2) == if rs[2].violated then Some(Missing("body")) else FirstViolation(rs, 3);
    assert FirstViolation(rs, 1) == if rs[1].violated then Some(Missing("mch_id")) else FirstViolation(rs, 2);
  }

  /** Validation passes exactly when every always-required field is present and the trade-type rules hold. */
  lemma PreSignCheckPassesIff(p: UnifiedOrderPayload)
    ensures p.PreSignCheck().None? <==>
      && p.AppId != "" && p.MchId != "" && p.Body != "" && p.NonceStr != ""
      && p.OutTradeNo != "" && p.TotalFee != 0 && p.SPBillCreateIp != ""
      && p.NotifyURL != "" && p.TradeType != ""
      && (p.TradeType == TradeTypeJSAPI ==> p.OpenID != "")
      && (p.TradeType == TradeTypeNative ==> p.ProductID != "")
  {
    PreSignCheckIsFirstViolation(p);
  }

  /** On failure, validation reports exactly the first violated rule of the table. */
  lemma PreSignCheckReportsFirst(p: UnifiedOrderPayload, i: nat)
    requires i < |Requirements(p)| && Requirements(p)[i].violated
    requires forall j :: 0 <= j < i ==> !Requirements(p)[j].violated
    ensures p.PreSignCheck() == Some(Requirements(p)[i].message)
  {
    var rs := Requirements(p);
    PreSignCheckIsFirstViolation(p);
    var k :| 0 <= k < |rs| && rs[k].violated && rs[k].message == FirstViolation(rs, 0).value &&
             forall j :: 0 <= j < k ==> !rs[j].violated;
    assert !(k < i) && !(i < k);
  }

  /**
   * A payload that is neither JSAPI nor NATIVE (an APP payload, for one) is
   * judged by the nine unconditional checks alone: its open id and product id
   * never matter, and neither trade-type message is ever reported.
   */
  lemma OtherTradeTypesIgnoreConditionalFields(p: UnifiedOrderPayload, openID: string, productID: string)
    requires !p.IsJSAPI() && !p.IsNative()
    ensures p.PreSignCheck() == p.(OpenID := openID, ProductID := productID).PreSignCheck()
    ensures p.PreSignCheck() != Some(MissingOpenID) && p.PreSignCheck() != Some(MissingProductID)
  {
  }

  /**
   * The key/value view holds exactly the fields with a non-zero value, each
   * under its wire name with its own value, and nothing else.
   */
  lemma KeyValueViewExact(p: UnifiedOrderPayload)
    ensures forall i :: 0 <= i < |p.WireFields()| ==>
      (p.WireFields()[i].0 in p.KeyValueView() <==> !IsDefault(p.WireFields()[i].1))
    ensures forall i :: 0 <= i < |p.WireFields()| && p.WireFields()[i].0 in p.KeyValueView() ==>
      p.KeyValueView()[p.WireFields()[i].0] == p.WireFields()[i].1
  {
    forall i | 0 <= i < |p.WireFields()|
      ensures p.WireFields()[i].0 in p.KeyValueView() <==> !IsDefault(p.WireFields()[i].1)
      ensures p.WireFields()[i].0 in p.KeyValueView() ==> p.KeyValueView()[p.WireFields()[i].0] == p.WireFields()[i].1
    {
      OmitEmptyAt(p.WireFields(), i);
    }
  }

  /**
   * Writing the signature field changes the key/value view at "sign" only;
   * "sign" is in the view exactly when the signature is non-empty.
   */
  lemma SignFieldOnlyTouchesSignEntry(p: UnifiedOrderPayload, sig: string)
    ensures p.(Sign := sig).KeyValueView() - {"sign"} == p.KeyValueView() - {"sign"}
    ensures "sign" in p.(Sign := sig).KeyValueView() <==> sig != ""
    ensures sig != "" ==> p.(Sign := sig).KeyValueView()["sign"] == Str(sig)
  {
    var fs, q := p.WireFields(), p.(Sign := sig);
    var gs := q.WireFields();
    WireFieldsWithSign(p, sig);
    assert fs[4].0 == "sign";
    OmitEmptyUpdate(fs, 4, Str(sig));
    OmitEmptyAt(gs, 4);
  }

  /** The field list of a payload whose signature was replaced differs at the "sign" position only. */
  lemma WireFieldsWithSign(p: UnifiedOrderPayload, sig: string)
    ensures p.(Sign := sig).WireFields() == p.WireFields()[4 := ("sign", Str(sig))]
  {
    var a, b := p.(Sign := sig).WireFields(), p.WireFields()[4 := ("sign", Str(sig))];
    assert |a| == |b|;
    forall i | 0 <= i < |a| ensures a[i] == b[i] { }
  }

  /** The message for a missing parameter names that parameter: different names give different messages. */
  lemma MissingInjective(a: string, b: string)
    requires a != b
    ensures Missing(a) != Missing(b)
  {
    var prefix := "Missing required parameters: ";
    assert Missing(a)[|prefix|..] == a && Missing(b)[|prefix|..] == b;
  }

  /** No two rules of the table report the same message, so a reported message identifies its rule. */
  lemma RequirementMessagesDistinct(p: UnifiedOrderPayload)
    ensures forall i, j :: 0 <= i < j < |Requirements(p)| ==> Requirements(p)[i].message != Requirements(p)[j].message
  {
    var rs := Requirements(p);
    var names := ["appid", "mch_id", "body", "nonce_str", "out_trade_no", "total_fee",
                  "spbill_create_ip", "notify_url", "trade_type"];
    forall i, j | 0 <= i < j < 9 ensures rs[i].message != rs[j].message {
      assert rs[i].message == Missing(names[i]) && rs[j].message == Missing(names[j]);
      MissingInjective(names[i], names[j]);
    }
    forall i | 0 <= i < 9 ensures rs[i].message != MissingOpenID && rs[i].message != MissingProductID {
      assert rs[i].message[..25] == "Missing required paramete";
      assert MissingOpenID[..25] == "Missing required paramter";
      assert MissingProductID[..25] == "Missing required paramter";
    }
    assert MissingOpenID[42] != MissingProductID[42];
  }
}
