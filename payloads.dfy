/**
 * Caller payloads. Every operation takes an untyped object; the model keeps
 * its own properties as a map from key to value.
 */
module Payloads {

  /** An untyped request payload: property name to value. */
  type Payload = map<string, string>

  /** The text of `data.key` when it is concatenated into a string. */
  function Field(data: Payload, key: string): (v: string)
    ensures key in data ==> v == data[key]
    ensures key !in data ==> v == "undefined"
  {
    if key in data then data[key] else "undefined"
  }

  /**
   * The rest object of `const { key, ...rest } = data`: every property but
   * `key`, each with its value unchanged.
   */
  function Omit(data: Payload, key: string): (rest: Payload)
    ensures key !in rest
    ensures forall k :: k in rest <==> k in data && k != key
    ensures forall k :: k in rest ==> rest[k] == data[k]
  {
    data - {key}
  }

  /** All `keys` are properties of `data`. */
  predicate Has(data: Payload, keys: set<string>) {
    forall k :: k in keys ==> k in data
  }

  // The required properties of the declared parameter types of the public
  // operations. An object with further properties conforms as well.

  /** `JSAPI_Oder_Business`: order fields plus `appid`, `mchid` and the payer. */
  predicate BusinessOrderInput(data: Payload) {
    Has(data, {"description", "out_trade_no", "notify_url", "amount", "payer", "appid", "mchid"})
  }

  /** `JSAPI_Oder_Provider`: order fields plus `sp_appid`, `sp_mchid`, `sub_mchid` and the payer. */
  predicate ProviderOrderInput(data: Payload) {
    Has(data, {"description", "out_trade_no", "notify_url", "amount", "payer", "sp_appid", "sp_mchid", "sub_mchid"})
  }

  /** `JSAPI_QueryOrder_tid_Business`. */
  predicate TidBusinessInput(data: Payload) {
    Has(data, {"transaction_id", "mchid"})
  }

  /** `JSAPI_QueryOrder_tid_Provider`. */
  predicate TidProviderInput(data: Payload) {
    Has(data, {"transaction_id", "sp_mchid", "sub_mchid"})
  }

  /** `JSAPI_QueryOrder_outTradeNo_Business`. */
  predicate OutTradeNoBusinessInput(data: Payload) {
    Has(data, {"out_trade_no", "mchid"})
  }

  /** `JSAPI_QueryOrder_outTradeNo_Provider`. */
  predicate OutTradeNoProviderInput(data: Payload) {
    Has(data, {"out_trade_no", "sp_mchid", "sub_mchid"})
  }
}
