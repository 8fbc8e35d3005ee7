/**
 * `JSAPI`: the earlier client, for order creation and the two order queries.
 * Query URLs are formed by appending the identifier to a prefix that ends in
 * `/`, and queries pass nothing else to the HTTP client.
 */
module Jsapi {

  import opened Wrappers
  import opened Payloads
  import opened Transport
  import opened Endpoints

  /** Shape of the static URL table. */
  datatype UrlTable = UrlTable(
    order: Endpoint,
    transactionIdQueryOrder: Endpoint,
    outTradeNoQueryOrder: Endpoint)

  /** The static URL table; the query rows are prefixes the identifier is appended to. */
  const UrlMap := UrlTable(
    order := Endpoint(
      provider := ProviderRoot + "jsapi",
      business := BusinessRoot + "jsapi"),
    transactionIdQueryOrder := Endpoint(
      provider := ProviderRoot + "id/",
      business := BusinessRoot + "id/"),
    outTradeNoQueryOrder := Endpoint(
      provider := ProviderRoot + "out-trade-no/",
      business := BusinessRoot + "out-trade-no/"))

  /**
   * Every query prefix ends in `/`, so the appended identifier is the last
   * path segment, and every row's business URL is its provider URL with
   * `/partner` taken out.
   */
  lemma UrlMapShape(mode: Mode)
    ensures var p := UrlMap.transactionIdQueryOrder.For(mode); |p| > 0 && p[|p| - 1] == '/'
    ensures var p := UrlMap.outTradeNoQueryOrder.For(mode); |p| > 0 && p[|p| - 1] == '/'
    ensures PartnerRemoved(UrlMap.order)
    ensures PartnerRemoved(UrlMap.transactionIdQueryOrder)
    ensures PartnerRemoved(UrlMap.outTradeNoQueryOrder)
  {
    RootsPairedByPartner("jsapi");
    RootsPairedByPartner("id/");
    RootsPairedByPartner("out-trade-no/");
  }

  // ---------------------------------------------------------------- order

  /**
   * `_order`: the payload goes, unchanged, as the POST body to the business
   * order URL exactly when it has an `appid`, and to the provider order URL
   * otherwise; the answer's body is returned.
   */
  function OrderCall(data: Payload): (ex: Exchange)
    ensures ex.returning == ResponseData
    ensures ex.request.Post? && ex.request.body == data
    ensures ex.request.url == UrlMap.order.business <==> "appid" in data
    ensures ex.request.url == UrlMap.order.provider <==> "appid" !in data
    ensures ModeOfUrl(ex.request.url) == Some(OrderMode(data))
  {
    var mode := OrderMode(data);
    ModeOfUrlUnderRoot(mode, "jsapi");
    Exchange(Post(UrlMap.order.For(mode), data), ResponseData)
  }

  /** `order`: one call, the order exchange; the answer's body is returned. */
  function Order<D>(client: Client<D>, data: Payload): (t: Trace<D>)
    ensures t.calls == [OrderCall(data).request]
    ensures t.reply == Data(client(OrderCall(data).request).data)
  {
    Perform(client, OrderCall(data))
  }

  /** `orderOnProvider`: the same implementation as `order`. */
  function OrderOnProvider<D>(client: Client<D>, data: Payload): (t: Trace<D>)
    ensures t.calls == [OrderCall(data).request]
    ensures t.reply == Data(client(OrderCall(data).request).data)
  {
    Perform(client, OrderCall(data))
  }

  // ------------------------------------------- query by transaction id

  /**
   * `_transactionIdQueryOrder`: a GET, with no parameters, to the mode's
   * `id/` prefix followed by the text of `transaction_id`; the mode is
   * business exactly when `mchid` is present.
   */
  function TransactionIdQueryCall(data: Payload): (ex: Exchange)
    ensures ex.returning == ResponseData
    ensures ex.request == Get(Root(MerchantMode(data)) + "id/" + Field(data, "transaction_id"), None)
    ensures ModeOfUrl(ex.request.url) == Some(MerchantMode(data))
  {
    var mode := MerchantMode(data);
    var apiUrl := UrlMap.transactionIdQueryOrder.For(mode);
    var id := Field(data, "transaction_id");
    ModeOfUrlOfPath(mode, "id/", id);
    Exchange(Get(apiUrl + id, None), ResponseData)
  }

  /** `transactionIdQueryOrder`: one call; the answer's body is returned. */
  function TransactionIdQueryOrder<D>(client: Client<D>, data: Payload): (t: Trace<D>)
    ensures t.calls == [TransactionIdQueryCall(data).request]
    ensures t.reply == Data(client(TransactionIdQueryCall(data).request).data)
  {
    Perform(client, TransactionIdQueryCall(data))
  }

  /** `transactionIdQueryOrderOnProvider`: the same implementation. */
  function TransactionIdQueryOrderOnProvider<D>(client: Client<D>, data: Payload): (t: Trace<D>)
    ensures t.calls == [TransactionIdQueryCall(data).request]
    ensures t.reply == Data(client(TransactionIdQueryCall(data).request).data)
  {
    Perform(client, TransactionIdQueryCall(data))
  }

  // ------------------------------------------- query by out-trade-no

  /**
   * `_outTradeNoQueryOrder`: a GET, with no parameters, to the mode's
   * `out-trade-no/` prefix followed by the text of `out_trade_no`; business
   * exactly when `mchid` is present.
   */
  function OutTradeNoQueryCall(data: Payload): (ex: Exchange)
    ensures ex.returning == ResponseData
    ensures ex.request == Get(Root(MerchantMode(data)) + "out-trade-no/" + Field(data, "out_trade_no"), None)
    ensures ModeOfUrl(ex.request.url) == Some(MerchantMode(data))
  {
    var mode := MerchantMode(data);
    var apiUrl := UrlMap.outTradeNoQueryOrder.For(mode);
    var id := Field(data, "out_trade_no");
    ModeOfUrlOfPath(mode, "out-trade-no/", id);
    Exchange(Get(apiUrl + id, None), ResponseData)
  }

  /**
   * `outTradeNoQueryOrder`, as written: one call; the answer's body is
   * returned. Its parameter is declared with the query-by-transaction-id
   * type, which has no `out_trade_no`.
   */
  function OutTradeNoQueryOrder<D>(client: Client<D>, data: Payload): (t: Trace<D>)
    ensures t.calls == [OutTradeNoQueryCall(data).request]
    ensures t.reply == Data(client(OutTradeNoQueryCall(data).request).data)
  {
    Perform(client, OutTradeNoQueryCall(data))
  }

  /** `outTradeNoQueryOrderOnProvider`, as written: the same implementation and the same declared-type slip. */
  function OutTradeNoQueryOrderOnProvider<D>(client: Client<D>, data: Payload): (t: Trace<D>)
    ensures t.calls == [OutTradeNoQueryCall(data).request]
    ensures t.reply == Data(client(OutTradeNoQueryCall(data).request).data)
  {
    Perform(client, OutTradeNoQueryCall(data))
  }

  /**
   * A payload of the declared parameter types of `outTradeNoQueryOrder` and
   * `outTradeNoQueryOrderOnProvider` need not carry an `out_trade_no`; then
   * the order number in the URL is the text `undefined`.
   */
  lemma DeclaredTypesLoseOutTradeNo<D>(client: Client<D>)
    ensures var data := map["transaction_id" := "4200000001", "mchid" := "1230000109"];
      TidBusinessInput(data)
      && OutTradeNoQueryOrder(client, data).calls
         == [Get(BusinessRoot + "out-trade-no/" + "undefined", None)]
    ensures var data := map["transaction_id" := "4200000001", "sp_mchid" := "1900000100", "sub_mchid" := "1900000109"];
      TidProviderInput(data)
      && OutTradeNoQueryOrderOnProvider(client, data).calls
         == [Get(ProviderRoot + "out-trade-no/" + "undefined", None)]
  {
  }

  /**
   * `outTradeNoQueryOrder` with the parameter type it evidently intends,
   * `JSAPI_QueryOrder_outTradeNo_Business`: the URL always ends in the
   * payload's own order number, under the business root.
   */
  function OutTradeNoQueryOrderAsIntended<D>(client: Client<D>, data: Payload): (t: Trace<D>)
    requires OutTradeNoBusinessInput(data)
    ensures t.calls == [Get(BusinessRoot + "out-trade-no/" + data["out_trade_no"], None)]
    ensures t.reply == Data(client(t.calls[0]).data)
  {
    assert "out_trade_no" in data && "mchid" in data;
    OutTradeNoQueryOrder(client, data)
  }

  /**
   * `outTradeNoQueryOrderOnProvider` with the parameter type it evidently
   * intends, `JSAPI_QueryOrder_outTradeNo_Provider`: the URL always ends in
   * the payload's own order number.
   */
  function OutTradeNoQueryOrderOnProviderAsIntended<D>(client: Client<D>, data: Payload): (t: Trace<D>)
    requires OutTradeNoProviderInput(data)
    ensures t.calls == [Get(Root(MerchantMode(data)) + "out-trade-no/" + data["out_trade_no"], None)]
    ensures t.reply == Data(client(t.calls[0]).data)
  {
    assert "out_trade_no" in data;
    OutTradeNoQueryOrderOnProvider(client, data)
  }

  // --------------------------------------------------------- properties

  /** Each business wrapper and its provider twin do the same thing on the same payload. */
  lemma WrappersShareImplementation<D>(client: Client<D>, data: Payload)
    ensures Order(client, data) == OrderOnProvider(client, data)
    ensures TransactionIdQueryOrder(client, data) == TransactionIdQueryOrderOnProvider(client, data)
    ensures OutTradeNoQueryOrder(client, data) == OutTradeNoQueryOrderOnProvider(client, data)
  {
  }

  /**
   * Nothing of a query payload reaches the HTTP client except its mode and
   * its identifier: two payloads that agree on `mchid` being present and on
   * the identifier produce the same request.
   */
  lemma QueriesForwardOnlyTheId(d1: Payload, d2: Payload)
    requires ("mchid" in d1 <==> "mchid" in d2)
    ensures Field(d1, "transaction_id") == Field(d2, "transaction_id")
        ==> TransactionIdQueryCall(d1) == TransactionIdQueryCall(d2)
    ensures Field(d1, "out_trade_no") == Field(d2, "out_trade_no")
        ==> OutTradeNoQueryCall(d1) == OutTradeNoQueryCall(d2)
  {
  }
}
