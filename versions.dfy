/**
 * How the two clients relate. `BasePay` is the later design: it keeps the
 * order table and the routing rules of `JSAPI`, turns each query prefix into
 * a template ending in the identifier's placeholder, and forwards the rest of
 * a query payload as parameters where `JSAPI` forwards nothing.
 */
module Versions {

  import opened Wrappers
  import opened Payloads
  import opened Transport
  import opened Template
  import opened Endpoints
  import BasePay
  import Jsapi

  /** Both clients post orders identically: same table, same request, same reply. */
  lemma OrdersAgree<D>(client: Client<D>, data: Payload)
    ensures BasePay.UrlMap.order == Jsapi.UrlMap.order
    ensures BasePay.OrderCall(data) == Jsapi.OrderCall(data)
    ensures BasePay.Order(client, data) == Jsapi.Order(client, data)
  {
  }

  /** Each `BasePay` query template is the `JSAPI` prefix followed by one placeholder. */
  lemma TemplatesExtendPrefixes(mode: Mode)
    ensures BasePay.UrlMap.transactionIdQueryOrder.For(mode)
         == Jsapi.UrlMap.transactionIdQueryOrder.For(mode) + Placeholder("transaction_id")
    ensures BasePay.UrlMap.outTradeNoQueryOrder.For(mode)
         == Jsapi.UrlMap.outTradeNoQueryOrder.For(mode) + Placeholder("out_trade_no")
  {
    BasePay.UrlMapPairsVariants(mode);
  }

  /**
   * Both clients query the same URL for every payload; `BasePay` adds the
   * payload without its identifier as parameters, `JSAPI` passes none.
   */
  lemma QueriesAgreeOnUrl(data: Payload)
    ensures BasePay.TransactionIdQueryCall(data).request.url == Jsapi.TransactionIdQueryCall(data).request.url
    ensures BasePay.TransactionIdQueryCall(data).request.params == Some(Omit(data, "transaction_id"))
    ensures Jsapi.TransactionIdQueryCall(data).request.params == None
    ensures BasePay.OutTradeNoQueryCall(data).request.url == Jsapi.OutTradeNoQueryCall(data).request.url
    ensures BasePay.OutTradeNoQueryCall(data).request.params == Some(Omit(data, "out_trade_no"))
    ensures Jsapi.OutTradeNoQueryCall(data).request.params == None
  {
  }
}
