/**
 * `BasePay`: the client for order creation, the two order queries, order
 * closing and refunds. Every private operation picks a URL from the static
 * table by account mode, moves the identifying field into the URL through a
 * `{placeholder}` template, and makes one call to the signed HTTP client.
 * Each is modelled as the `Exchange` it hands to the client; each public
 * business/provider pair performs that exchange.
 */
module BasePay {

  import opened Wrappers
  import opened Strings
  import opened Payloads
  import opened Transport
  import opened Template
  import opened Endpoints

  /** Shape of the static URL table. */
  datatype UrlTable = UrlTable(
    order: Endpoint,
    transactionIdQueryOrder: Endpoint,
    outTradeNoQueryOrder: Endpoint,
    closeOrder: Endpoint,
    refund: string)

  /** The static URL table. */
  const UrlMap := UrlTable(
    order := Endpoint(
      provider := ProviderRoot + "jsapi",
      business := BusinessRoot + "jsapi"),
    transactionIdQueryOrder := Endpoint(
      provider := ProviderRoot + "id/" + Placeholder("transaction_id"),
      business := BusinessRoot + "id/" + Placeholder("transaction_id")),
    outTradeNoQueryOrder := Endpoint(
      provider := ProviderRoot + "out-trade-no/" + Placeholder("out_trade_no"),
      business := BusinessRoot + "out-trade-no/" + Placeholder("out_trade_no")),
    closeOrder := Endpoint(
      provider := ProviderRoot + "out-trade-no/" + Placeholder("out_trade_no") + "/close",
      business := BusinessRoot + "out-trade-no/" + Placeholder("out_trade_no") + "/close"),
    refund := RefundUrl)

  /**
   * Every row of the table puts one path under both roots, and the query and
   * close paths hold the identifier's placeholder and no other.
   */
  lemma UrlMapPairsVariants(mode: Mode)
    ensures UrlMap.order.For(mode) == Root(mode) + "jsapi"
    ensures UrlMap.transactionIdQueryOrder.For(mode) == Root(mode) + "id/" + Placeholder("transaction_id")
    ensures UrlMap.outTradeNoQueryOrder.For(mode) == Root(mode) + "out-trade-no/" + Placeholder("out_trade_no")
    ensures UrlMap.closeOrder.For(mode)
         == Root(mode) + "out-trade-no/" + Placeholder("out_trade_no") + "/close"
  {
  }

  /** Hence every row's business URL is its provider URL with `/partner` taken out. */
  lemma UrlMapRowsDropPartner()
    ensures PartnerRemoved(UrlMap.order) && PartnerRemoved(UrlMap.transactionIdQueryOrder)
    ensures PartnerRemoved(UrlMap.outTradeNoQueryOrder) && PartnerRemoved(UrlMap.closeOrder)
  {
    RootsPairedByPartner("jsapi");
    RootsPairedByPartner("id/" + Placeholder("transaction_id"));
    RootsPairedByPartner("out-trade-no/" + Placeholder("out_trade_no"));
    RootsPairedByPartner("out-trade-no/" + Placeholder("out_trade_no") + "/close");
  }

  /** Filling in the query-by-transaction-id template leaves the id as the last path segment. */
  lemma TransactionIdTemplateFilled(mode: Mode, id: string)
    ensures Substitute(UrlMap.transactionIdQueryOrder.For(mode), [("transaction_id", id)])
         == Root(mode) + "id/" + id
    ensures ModeOfUrl(Root(mode) + "id/" + id) == Some(mode)
  {
    UrlMapPairsVariants(mode);
    RootsFreeOfBraces(mode);
    SubstituteAfterPath(Root(mode), "id/", "transaction_id", "", id);
    assert Root(mode) + "id/" + Placeholder("transaction_id") + "" == Root(mode) + "id/" + Placeholder("transaction_id");
    assert Root(mode) + "id/" + id + "" == Root(mode) + "id/" + id;
    ModeOfUrlOfPath(mode, "id/", id);
  }

  /** Filling in the query-by-out-trade-no template leaves the id as the last path segment. */
  lemma OutTradeNoTemplateFilled(mode: Mode, id: string)
    ensures Substitute(UrlMap.outTradeNoQueryOrder.For(mode), [("out_trade_no", id)])
         == Root(mode) + "out-trade-no/" + id
    ensures ModeOfUrl(Root(mode) + "out-trade-no/" + id) == Some(mode)
  {
    UrlMapPairsVariants(mode);
    RootsFreeOfBraces(mode);
    SubstituteAfterPath(Root(mode), "out-trade-no/", "out_trade_no", "", id);
    assert Root(mode) + "out-trade-no/" + Placeholder("out_trade_no") + ""
        == Root(mode) + "out-trade-no/" + Placeholder("out_trade_no");
    assert Root(mode) + "out-trade-no/" + id + "" == Root(mode) + "out-trade-no/" + id;
    ModeOfUrlOfPath(mode, "out-trade-no/", id);
  }

  /** Filling in the close template puts the id just before the final `/close`. */
  lemma CloseTemplateFilled(mode: Mode, id: string)
    ensures Substitute(UrlMap.closeOrder.For(mode), [("out_trade_no", id)])
         == Root(mode) + "out-trade-no/" + id + "/close"
    ensures ModeOfUrl(Root(mode) + "out-trade-no/" + id + "/close") == Some(mode)
  {
    UrlMapPairsVariants(mode);
    RootsFreeOfBraces(mode);
    SubstituteAfterPath(Root(mode), "out-trade-no/", "out_trade_no", "/close", id);
    assert Root(mode) + "out-trade-no/" + id + "/close" == Root(mode) + "out-trade-no/" + (id + "/close");
    ModeOfUrlOfPath(mode, "out-trade-no/", id + "/close");
  }

  // ---------------------------------------------------------------- order

  /**
   * `_order`: the payload goes, unchanged, as the POST body to the business
   * order URL exactly when it has an `appid`, and to the provider order URL
   * otherwise; the answer's body is returned.
   */
  function OrderCall(data: Payload): (ex: Exchange)
    ensures ex.returning == ResponseData
    ensures ex.request.Post? && ex.request.body == data
    ensures ex.request.url == UrlMap.order.business <==> "appid" in data
    ensures ex.request.url == UrlMap.order.provider <==> "appid" !in data
    ensures ModeOfUrl(ex.request.url) == Some(OrderMode(data))
  {
    var mode := OrderMode(data);
    UrlMapPairsVariants(mode);
    ModeOfUrlUnderRoot(mode, "jsapi");
    Exchange(Post(UrlMap.order.For(mode), data), ResponseData)
  }

  /** `order`: one call, the order exchange; the answer's body is returned. */
  function Order<D>(client: Client<D>, data: Payload): (t: Trace<D>)
    ensures t.calls == [OrderCall(data).request]
    ensures t.reply == Data(client(OrderCall(data).request).data)
  {
    Perform(client, OrderCall(data))
  }

  /** `orderOnProvider`: the same implementation as `order`. */
  function OrderOnProvider<D>(client: Client<D>, data: Payload): (t: Trace<D>)
    ensures t.calls == [OrderCall(data).request]
    ensures t.reply == Data(client(OrderCall(data).request).data)
  {
    Perform(client, OrderCall(data))
  }

  // ------------------------------------------- query by transaction id

  /**
   * `_transactionIdQueryOrder`: a GET to the mode's `id/` path ending in the
   * `transaction_id` value, the mode being business exactly when `mchid` is
   * present; every other property of the payload, unchanged, goes as the
   * query parameters.
   */
  function TransactionIdQueryCall(data: Payload): (ex: Exchange)
    ensures ex.returning == ResponseData
    ensures ex.request.Get? && ex.request.params == Some(Omit(data, "transaction_id"))
    ensures ex.request.url == Root(MerchantMode(data)) + "id/" + Field(data, "transaction_id")
    ensures ModeOfUrl(ex.request.url) == Some(MerchantMode(data))
  {
    var query := Omit(data, "transaction_id");
    var mode := MerchantMode(data);
    var template := UrlMap.transactionIdQueryOrder.For(mode);
    var url := Substitute(template, [("transaction_id", Field(data, "transaction_id"))]);
    TransactionIdTemplateFilled(mode, Field(data, "transaction_id"));
    Exchange(Get(url, Some(query)), ResponseData)
  }

  /** `transactionIdQueryOrder`: one call; the answer's body is returned. */
  function TransactionIdQueryOrder<D>(client: Client<D>, data: Payload): (t: Trace<D>)
    ensures t.calls == [TransactionIdQueryCall(data).request]
    ensures t.reply == Data(client(TransactionIdQueryCall(data).request).data)
  {
    Perform(client, TransactionIdQueryCall(data))
  }

  /** `transactionIdQueryOrderOnProvider`: the same implementation. */
  function TransactionIdQueryOrderOnProvider<D>(client: Client<D>, data: Payload): (t: Trace<D>)
    ensures t.calls == [TransactionIdQueryCall(data).request]
    ensures t.reply == Data(client(TransactionIdQueryCall(data).request).data)
  {
    Perform(client, TransactionIdQueryCall(data))
  }

  // ------------------------------------------- query by out-trade-no

  /**
   * `_outTradeNoQueryOrder`: a GET to the mode's `out-trade-no/` path ending
   * in the `out_trade_no` value, business exactly when `mchid` is present;
   * every other property, unchanged, goes as the query parameters.
   */
  function OutTradeNoQueryCall(data: Payload): (ex: Exchange)
    ensures ex.returning == ResponseData
    ensures ex.request.Get? && ex.request.params == Some(Omit(data, "out_trade_no"))
    ensures ex.request.url == Root(MerchantMode(data)) + "out-trade-no/" + Field(data, "out_trade_no")
    ensures ModeOfUrl(ex.request.url) == Some(MerchantMode(data))
  {
    var query := Omit(data, "out_trade_no");
    var mode := MerchantMode(data);
    var template := UrlMap.outTradeNoQueryOrder.For(mode);
    var url := Substitute(template, [("out_trade_no", Field(data, "out_trade_no"))]);
    OutTradeNoTemplateFilled(mode, Field(data, "out_trade_no"));
    Exchange(Get(url, Some(query)), ResponseData)
  }

  /** `outTradeNoQueryOrder`: one call; the answer's body is returned. */
  function OutTradeNoQueryOrder<D>(client: Client<D>, data: Payload): (t: Trace<D>)
    ensures t.calls == [OutTradeNoQueryCall(data).request]
    ensures t.reply == Data(client(OutTradeNoQueryCall(data).request).data)
  {
    Perform(client, OutTradeNoQueryCall(data))
  }

  /** `outTradeNoQueryOrderOnProvider`: the same implementation. */
  function OutTradeNoQueryOrderOnProvider<D>(client: Client<D>, data: Payload): (t: Trace<D>)
    ensures t.calls == [OutTradeNoQueryCall(data).request]
    ensures t.reply == Data(client(OutTradeNoQueryCall(data).request).data)
  {
    Perform(client, OutTradeNoQueryCall(data))
  }

  // ---------------------------------------------------------- close

  /**
   * `_closeOrder`: a POST to the mode's `out-trade-no/<id>/close` path,
   * business exactly when `mchid` is present, with every other property,
   * unchanged, as the body; the answer's status is returned, not its body.
   */
  function CloseOrderCall(data: Payload): (ex: Exchange)
    ensures ex.returning == ResponseStatus
    ensures ex.request.Post? && ex.request.body == Omit(data, "out_trade_no")
    ensures ex.request.url
         == Root(MerchantMode(data)) + "out-trade-no/" + Field(data, "out_trade_no") + "/close"
    ensures ModeOfUrl(ex.request.url) == Some(MerchantMode(data))
  {
    var body := Omit(data, "out_trade_no");
    var mode := MerchantMode(data);
    var template := UrlMap.closeOrder.For(mode);
    var url := Substitute(template, [("out_trade_no", Field(data, "out_trade_no"))]);
    CloseTemplateFilled(mode, Field(data, "out_trade_no"));
    Exchange(Post(url, body), ResponseStatus)
  }

  /** `closeOrder`: one call; the answer's status is returned, whatever it is. */
  function CloseOrder<D>(client: Client<D>, data: Payload): (t: Trace<D>)
    ensures t.calls == [CloseOrderCall(data).request]
    ensures t.reply == Status(client(CloseOrderCall(data).request).status)
  {
    Perform(client, CloseOrderCall(data))
  }

  /** `closeOrderOnProvider`: the same implementation. */
  function CloseOrderOnProvider<D>(client: Client<D>, data: Payload): (t: Trace<D>)
    ensures t.calls == [CloseOrderCall(data).request]
    ensures t.reply == Status(client(CloseOrderCall(data).request).status)
  {
    Perform(client, CloseOrderCall(data))
  }

  // --------------------------------------------------------- refund

  /**
   * `_refund`: the payload, unchanged, is posted to the one refund URL,
   * which lies under neither transaction root, whatever mode fields the
   * payload has; the answer's body is returned.
   */
  function RefundCall(data: Payload): (ex: Exchange)
    ensures ex == Exchange(Post(RefundUrl, data), ResponseData)
    ensures ModeOfUrl(ex.request.url) == None
  {
    RefundUrlUnderNoRoot();
    Exchange(Post(UrlMap.refund, data), ResponseData)
  }

  /** `refund`: one call; the answer's body is returned. */
  function Refund<D>(client: Client<D>, data: Payload): (t: Trace<D>)
    ensures t.calls == [RefundCall(data).request]
    ensures t.reply == Data(client(RefundCall(data).request).data)
  {
    Perform(client, RefundCall(data))
  }

  /** `refundOnProvider`: the same implementation. */
  function RefundOnProvider<D>(client: Client<D>, data: Payload): (t: Trace<D>)
    ensures t.calls == [RefundCall(data).request]
    ensures t.reply == Data(client(RefundCall(data).request).data)
  {
    Perform(client, RefundCall(data))
  }

  // --------------------------------------------------------- properties

  /** Each business wrapper and its provider twin do the same thing on the same payload. */
  lemma WrappersShareImplementation<D>(client: Client<D>, data: Payload)
    ensures Order(client, data) == OrderOnProvider(client, data)
    ensures TransactionIdQueryOrder(client, data) == TransactionIdQueryOrderOnProvider(client, data)
    ensures OutTradeNoQueryOrder(client, data) == OutTradeNoQueryOrderOnProvider(client, data)
    ensures CloseOrder(client, data) == CloseOrderOnProvider(client, data)
    ensures Refund(client, data) == RefundOnProvider(client, data)
  {
  }

  /**
   * A payload of the declared business order type goes to the business URL;
   * one of the provider order type goes to the provider URL unless it also
   * carries an `appid`, which its type does not forbid.
   */
  lemma OrderRoutingByDeclaredType(data: Payload)
    ensures BusinessOrderInput(data) ==> OrderCall(data).request.url == UrlMap.order.business
    ensures ProviderOrderInput(data) && "appid" !in data
        ==> OrderCall(data).request.url == UrlMap.order.provider
    ensures ProviderOrderInput(data) && "appid" in data
        ==> OrderCall(data).request.url == UrlMap.order.business
  {
    assert BusinessOrderInput(data) ==> "appid" in data;
  }

  /**
   * Query and close requests of the declared business types go under the
   * business root; those of the provider types go under the provider root
   * unless they also carry an `mchid`.
   */
  lemma MerchantRoutingByDeclaredType(data: Payload)
    ensures TidBusinessInput(data) ==> ModeOfUrl(TransactionIdQueryCall(data).request.url) == Some(Business)
    ensures TidProviderInput(data) && "mchid" !in data
        ==> ModeOfUrl(TransactionIdQueryCall(data).request.url) == Some(Provider)
    ensures OutTradeNoBusinessInput(data)
        ==> (ModeOfUrl(OutTradeNoQueryCall(data).request.url) == Some(Business)
          && ModeOfUrl(CloseOrderCall(data).request.url) == Some(Business))
    ensures OutTradeNoProviderInput(data) && "mchid" !in data
        ==> (ModeOfUrl(OutTradeNoQueryCall(data).request.url) == Some(Provider)
          && ModeOfUrl(CloseOrderCall(data).request.url) == Some(Provider))
  {
    assert TidBusinessInput(data) ==> "mchid" in data;
    assert OutTradeNoBusinessInput(data) ==> "mchid" in data;
  }

  /**
   * Closing hands back whatever status the client reports: 204 (closed) and
   * any other status alike, never the body and never an error.
   */
  lemma CloseOrderPassesStatusThrough<D>(data: Payload, status: int, body: D)
    ensures CloseOrder((r: Request) => Response(status, body), data).reply == Status(status)
    ensures CloseOrder((r: Request) => Response(204, body), data).reply == Status(204)
    ensures CloseOrder((r: Request) => Response(202, body), data).reply == Status(202)
  {
  }

  /**
   * Querying `{out_trade_no: "ORDER1", mchid: "M1", extra: "E"}` asks for the
   * business URL ending in `/out-trade-no/ORDER1` with exactly `mchid` and
   * `extra` as parameters.
   */
  lemma OutTradeNoQueryExample()
    ensures var data := map["out_trade_no" := "ORDER1", "mchid" := "M1", "extra" := "E"];
      OutTradeNoQueryCall(data).request
        == Get(BusinessRoot + "out-trade-no/" + "ORDER1", Some(map["mchid" := "M1", "extra" := "E"]))
  {
    var data := map["out_trade_no" := "ORDER1", "mchid" := "M1", "extra" := "E"];
    assert Omit(data, "out_trade_no") == map["mchid" := "M1", "extra" := "E"];
  }
}
