/**
 * The gateway's reply `UnifiedOrderResp`: the success test and the three
 * trade-type-specific handoffs given to the client (in-browser JSAPI map,
 * in-app APP map, NATIVE QR-code URL).
 */
module Response {
  import opened Wrappers
  import opened Params
  import opened Payload

  /** The sentinel both status codes carry on success. */
  const Success: string := "SUCCESS"

  /** The fixed signature-type marker of the JSAPI handoff. */
  const SignTypeMD5: string := "MD5"

  /** The fixed package marker of the APP handoff. */
  const AppPackage: string := "Sign=WXPay"

  datatype UnifiedOrderResp = UnifiedOrderResp(
    ReturnCode: string,
    ReturnMsg: string,
    AppId: string,
    MchId: string,
    NonceStr: string,
    Sign: string,
    ResultCode: string,
    ErrCode: string,
    ErrCodeDes: string,
    PrepayId: string,
    TradeType: string,
    CodeURL: string)
  {
    /** Both the transport-level and the business-level code read "SUCCESS". */
    predicate IsSuccess(): (r: bool)
      ensures r ==> ReturnCode == Success && ResultCode == Success
      ensures ReturnCode == Success && ResultCode == Success ==> r
    {
      ResultCode == Success && ReturnCode == Success
    }

    /**
     * The parameter map for an in-browser (JSAPI) payment, or `None` when this
     * reply is not of trade type JSAPI. `timestamp` and `nonce` are the fresh
     * values the gateway-time clock and the nonce generator supply.
     */
    method JSAPI(secretKey: string, sign: Signer, timestamp: Value, nonce: string) returns (r: Option<ParamMap>)
      ensures TradeType != TradeTypeJSAPI ==> r == None
      ensures TradeType == TradeTypeJSAPI ==>
        && r.Some?
        && r.value.Keys == {"appId", "timeStamp", "nonceStr", "package", "signType", "paySign"}
        && r.value["appId"] == Str(AppId)
        && r.value["timeStamp"] == timestamp
        && r.value["nonceStr"] == Str(nonce)
        && r.value["package"] == Str("prepay_id=" + PrepayId)
        && r.value["signType"] == Str(SignTypeMD5)
        && CarriesSignature(r.value, "paySign", sign, secretKey)
    {
      if TradeType != TradeTypeJSAPI {
        return None;
      }
      var results: ParamMap := map[
        "appId" := Str(AppId),
        "timeStamp" := timestamp,
        "nonceStr" := Str(nonce),
        "package" := Str("prepay_id=" + PrepayId),
        "signType" := Str(SignTypeMD5)
      ];
      var signature := sign(results, secretKey);
      InsertThenRemove(results, "paySign", Str(signature));
      results := results["paySign" := Str(signature)];
      return Some(results);
    }

    /**
     * The parameter map for an in-app (APP) payment, or `None` when this reply
     * is not of trade type APP.
     */
    method APP(secretKey: string, sign: Signer, timestamp: Value, nonce: string) returns (r: Option<ParamMap>)
      ensures TradeType != TradeTypeAPP ==> r == None
      ensures TradeType == TradeTypeAPP ==>
        && r.Some?
        && r.value.Keys == {"appid", "partnerid", "package", "timestamp", "noncestr", "prepayid", "sign"}
        && r.value["appid"] == Str(AppId)
        && r.value["partnerid"] == Str(MchId)
        && r.value["package"] == Str(AppPackage)
        && r.value["timestamp"] == timestamp
        && r.value["noncestr"] == Str(nonce)
        && r.value["prepayid"] == Str(PrepayId)
        && CarriesSignature(r.value, "sign", sign, secretKey)
    {
      if TradeType != TradeTypeAPP {
        return None;
      }
      var results: ParamMap := map[
        "appid" := Str(AppId),
        "partnerid" := Str(MchId),
        "package" := Str(AppPackage),
        "timestamp" := timestamp,
        "noncestr" := Str(nonce),
        "prepayid" := Str(PrepayId)
      ];
      var signature := sign(results, secretKey);
      InsertThenRemove(results, "sign", Str(signature));
      results := results["sign" := Str(signature)];
      return Some(results);
    }

    /** The QR-code URL for a NATIVE payment, or "" when this reply is not of trade type NATIVE. */
    function Native(): (url: string)
      ensures TradeType == TradeTypeNative ==> url == CodeURL
      ensures TradeType != TradeTypeNative ==> url == ""
    {
      if TradeType != TradeTypeNative then "" else CodeURL
    }
  }

  /**
   * A reply is a success exactly when both codes read "SUCCESS"; one success
   * code beside a failure code, in either position, is not a success.
   */
  lemma SuccessNeedsBothCodes(r: UnifiedOrderResp)
    ensures r.IsSuccess() <==> r.ReturnCode == Success && r.ResultCode == Success
    ensures r.ReturnCode == Success && r.ResultCode != Success ==> !r.IsSuccess()
    ensures r.ReturnCode != Success && r.ResultCode == Success ==> !r.IsSuccess()
  {
  }
}
