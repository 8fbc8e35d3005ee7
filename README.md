# WeChat Pay v3 request routing, modelled in Dafny

This project models the request-routing layer of a WeChat Pay v3 client
(`BasePay` and its earlier version `JSAPI`). The layer does four things:

- It holds a static URL table. Each operation has a direct-merchant
  ("business") URL under `/v3/pay/transactions/` and a service-provider URL
  under `/v3/pay/partner/transactions/`. Refunds have a single URL.
- It infers the account mode from which fields the payload has: `appid` for
  order creation, `mchid` for the queries and for closing an order.
- It splits the payload. The identifying field (`transaction_id` or
  `out_trade_no`) goes into the URL path. The rest is forwarded as query
  parameters or as the request body.
- It makes exactly one call to the signed HTTP client and returns either the
  response body or, when closing an order, the HTTP status.

Every private operation is a pure function from a payload to an `Exchange`:
the request handed to the HTTP client, plus which part of the answer is
returned. The HTTP client is a function parameter (`Client<D>`). Each public
business/provider wrapper sends that one request and returns a `Trace`, which
holds the calls made and the reply.

Files, one module each:

- `wrappers.dfy`: `Option`.
- `strings.dfy`: prefixes, occurrences, and global literal replacement.
- `payloads.dfy`: payloads as maps, JavaScript property reads, the rest object
  of a destructuring, and the declared parameter types.
- `transport.dfy`: requests, responses, exchanges, traces.
- `template.dfy`: `{placeholder}` substitution.
- `endpoints.dfy`: the URL roots, account modes, and reading a mode back from
  a URL.
- `base_pay.dfy`: `BasePay` (`src/apis/basePay/basePay.ts`).
- `jsapi.dfy`: `JSAPI` (`src/apis/basePay/JSAPI.ts`).
- `versions.dfy`: how the two clients relate.

The URL tables are written as a shared root plus a path, for example
`BusinessRoot + "id/" + Placeholder("transaction_id")`. These spell out the
same text as the source's literals. For example, that one is
`https://api.mch.weixin.qq.com/v3/pay/transactions/id/{transaction_id}`.
Writing them this way keeps the proofs about them small.

Some behaviour of the code is easy to misread. The model follows the code
here:

- Refund does not look at the mode at all.
- Queries and close test only `mchid`. They never test `sp_mchid` or
  `sub_mchid`.
- A placeholder with no token is left in the URL. It is not rejected.
- Identifiers are not percent-encoded.

## Model

| member | source | states |
|---|---|---|
| Endpoints.OrderMode | src/apis/basePay/basePay.ts:49 | an order is a business order exactly when the payload has `appid` |
| Endpoints.MerchantMode | src/apis/basePay/basePay.ts:66 | a query or close is a business request exactly when the payload has `mchid` |
| Endpoints.ModeOfUrlUnderRoot | src/apis/basePay/basePay.ts:23-39 | a URL under a mode's transaction root is read back as that mode and no other, so the business and provider roots never overlap |
| Endpoints.RefundUrlUnderNoRoot | src/apis/basePay/basePay.ts:40-42 | the refund URL lies under neither transaction root |
| Endpoints.ProviderUrlContainsPartner | src/apis/basePay/basePay.ts:25-37 | every URL under the provider root contains `/v3/pay/partner/transactions/` |
| Endpoints.RootsPairedByPartner | src/apis/basePay/basePay.ts:23-39 | a row that puts one path under both roots has a business URL equal to its provider URL with `/partner` removed |
| Payloads.Omit | src/apis/basePay/basePay.ts:65 | the rest object of `{ key, ...rest }` has every other key with its value unchanged, and nothing else |
| Payloads.Field | src/apis/basePay/JSAPI.ts:53 | reading a property for concatenation gives its value, or `undefined` when it is absent |
| Template.SubstituteOne | src/apis/basePay/basePay.ts:70-72 | a template with a single placeholder becomes the text around it with the value in its place; the value is not rescanned |
| Template.SubstituteIgnoresUnusedToken | src/apis/basePay/basePay.ts:2 | a token whose placeholder is not in the template changes nothing |
| Template.SubstituteExamples | src/apis/basePay/basePay.ts:2 | `/x/{a}/y` with `a = 123` gives `/x/123/y`; with no tokens `{a}` stays in place |
| Transport.Perform | src/apis/basePay/basePay.ts:51-52 | an exchange sends exactly its one request and hands back the response's body or its status, unchanged, as the exchange says |
| BasePay.UrlMapPairsVariants | src/apis/basePay/basePay.ts:23-39 | every table row has the same path under the business and the provider root; the query and close templates hold exactly the identifier's placeholder |
| BasePay.UrlMapRowsDropPartner | src/apis/basePay/basePay.ts:23-39 | every row's business URL is its provider URL with `/partner` removed |
| BasePay.TransactionIdTemplateFilled | src/apis/basePay/basePay.ts:67-72 | the filled query-by-transaction-id template is the mode's `id/` path ending in the id, and is read back as that mode |
| BasePay.OutTradeNoTemplateFilled | src/apis/basePay/basePay.ts:92-96 | the filled query-by-out-trade-no template is the mode's `out-trade-no/` path ending in the order number, in that mode |
| BasePay.CloseTemplateFilled | src/apis/basePay/basePay.ts:117-120 | the filled close template is the mode's `out-trade-no/<id>/close`, in that mode |
| BasePay.OrderCall | src/apis/basePay/basePay.ts:47-53 | the payload is posted unchanged as the body; the URL is the business order URL iff `appid` is present and the provider one iff not; the body of the answer is returned |
| BasePay.Order | src/apis/basePay/basePay.ts:55-57 | exactly one call, the order request; the reply is that response's data |
| BasePay.OrderOnProvider | src/apis/basePay/basePay.ts:59-61 | exactly one call, the same order request; the reply is that response's data |
| BasePay.TransactionIdQueryCall | src/apis/basePay/basePay.ts:64-75 | a GET to the mode's `id/` path ending in `transaction_id`, business iff `mchid` is present, with the payload minus `transaction_id` as parameters; the body is returned |
| BasePay.TransactionIdQueryOrder | src/apis/basePay/basePay.ts:79-81 | exactly one call, the query request; the reply is that response's data |
| BasePay.TransactionIdQueryOrderOnProvider | src/apis/basePay/basePay.ts:85-87 | exactly one call, the same query request; the reply is that response's data |
| BasePay.OutTradeNoQueryCall | src/apis/basePay/basePay.ts:90-99 | a GET to the mode's `out-trade-no/` path ending in `out_trade_no`, business iff `mchid` is present, with the payload minus `out_trade_no` as parameters |
| BasePay.OutTradeNoQueryOrder | src/apis/basePay/basePay.ts:103-105 | exactly one call, the query request; the reply is that response's data |
| BasePay.OutTradeNoQueryOrderOnProvider | src/apis/basePay/basePay.ts:109-111 | exactly one call, the same query request; the reply is that response's data |
| BasePay.CloseOrderCall | src/apis/basePay/basePay.ts:114-123 | a POST to the mode's `out-trade-no/<id>/close`, business iff `mchid` is present, with the payload minus `out_trade_no` as body; the status is returned, not the body |
| BasePay.CloseOrder | src/apis/basePay/basePay.ts:124-130 | exactly one call, the close request; the reply is that response's status, whatever it is |
| BasePay.CloseOrderOnProvider | src/apis/basePay/basePay.ts:131-137 | exactly one call, the same close request; the reply is that response's status |
| BasePay.RefundCall | src/apis/basePay/basePay.ts:140-144 | the payload is posted unchanged to the one refund URL, whatever its mode fields; the URL is under neither transaction root; the body is returned |
| BasePay.Refund | src/apis/basePay/basePay.ts:149-151 | exactly one call, the refund request; the reply is that response's data |
| BasePay.RefundOnProvider | src/apis/basePay/basePay.ts:156-158 | exactly one call, the same refund request; the reply is that response's data |
| BasePay.WrappersShareImplementation | src/apis/basePay/basePay.ts:54-158 | each business wrapper and its provider twin give the same trace for the same client and payload |
| BasePay.OrderRoutingByDeclaredType | src/apis/basePay/basePay.ts:47-61 | a business-typed order goes to the business URL; a provider-typed order goes to the provider URL unless it also has `appid` |
| BasePay.MerchantRoutingByDeclaredType | src/apis/basePay/basePay.ts:64-137 | business-typed queries and closes go under the business root; provider-typed ones go under the provider root unless they also have `mchid` |
| BasePay.CloseOrderPassesStatusThrough | src/apis/basePay/basePay.ts:121-127 | closing returns exactly the client's status: 204 gives 204, 202 gives 202, any status is passed back |
| BasePay.OutTradeNoQueryExample | src/apis/basePay/basePay.ts:90-97 | `{out_trade_no: ORDER1, mchid: M1, extra: E}` queries the business URL ending in `/out-trade-no/ORDER1` with parameters exactly `{mchid: M1, extra: E}` |
| Jsapi.UrlMapShape | src/apis/basePay/JSAPI.ts:15-28 | every query prefix ends in `/`, and every row's business URL is its provider URL without `/partner` |
| Jsapi.OrderCall | src/apis/basePay/JSAPI.ts:31-37 | the payload is posted unchanged; the URL is the business order URL iff `appid` is present and the provider one iff not; the body is returned |
| Jsapi.Order | src/apis/basePay/JSAPI.ts:39-41 | exactly one call, the order request; the reply is that response's data |
| Jsapi.OrderOnProvider | src/apis/basePay/JSAPI.ts:43-45 | exactly one call, the same order request; the reply is that response's data |
| Jsapi.TransactionIdQueryCall | src/apis/basePay/JSAPI.ts:47-55 | a GET with no parameters to the mode's `id/` prefix followed by `transaction_id`, business iff `mchid` is present |
| Jsapi.TransactionIdQueryOrder | src/apis/basePay/JSAPI.ts:59-61 | exactly one call, the query request; the reply is that response's data |
| Jsapi.TransactionIdQueryOrderOnProvider | src/apis/basePay/JSAPI.ts:65-67 | exactly one call, the same query request; the reply is that response's data |
| Jsapi.OutTradeNoQueryCall | src/apis/basePay/JSAPI.ts:69-74 | a GET with no parameters to the mode's `out-trade-no/` prefix followed by `out_trade_no`, business iff `mchid` is present |
| Jsapi.OutTradeNoQueryOrder | src/apis/basePay/JSAPI.ts:78-80 | exactly one call, the query request; the reply is that response's data |
| Jsapi.OutTradeNoQueryOrderOnProvider | src/apis/basePay/JSAPI.ts:84-86 | exactly one call, the same query request; the reply is that response's data |
| Jsapi.DeclaredTypesLoseOutTradeNo | src/apis/basePay/JSAPI.ts:78-86 | payloads of the declared parameter types can lack `out_trade_no`, and then the URL ends in `out-trade-no/undefined` |
| Jsapi.OutTradeNoQueryOrderAsIntended | src/apis/basePay/JSAPI.ts:78-80 | with the intended parameter type, the URL is always the business `out-trade-no/` prefix followed by the payload's own order number |
| Jsapi.OutTradeNoQueryOrderOnProviderAsIntended | src/apis/basePay/JSAPI.ts:84-86 | with the intended parameter type, the URL always ends in the payload's own order number |
| Jsapi.WrappersShareImplementation | src/apis/basePay/JSAPI.ts:39-86 | each business wrapper and its provider twin give the same trace for the same client and payload |
| Jsapi.QueriesForwardOnlyTheId | src/apis/basePay/JSAPI.ts:49-72 | two payloads that agree on whether `mchid` is present and on the identifier give the same request, so no other field reaches the client |
| Versions.OrdersAgree | src/apis/basePay/JSAPI.ts:16-36 | both clients have the same order table and make the same order request with the same reply |
| Versions.TemplatesExtendPrefixes | src/apis/basePay/JSAPI.ts:20-27 | each `BasePay` query template is the `JSAPI` prefix followed by the identifier's placeholder |
| Versions.QueriesAgreeOnUrl | src/apis/basePay/JSAPI.ts:47-74 | both clients query the same URL for every payload; `BasePay` forwards the payload minus the identifier as parameters, `JSAPI` forwards none |

## Findings

| source | as written | input that shows it | evidently intended | confidence | as-written member | corrected member |
|---|---|---|---|---|---|---|
| src/apis/basePay/JSAPI.ts:78-86 | `outTradeNoQueryOrder` and `outTradeNoQueryOrderOnProvider` declare their parameter with the query-by-transaction-id types, which have `transaction_id` and no `out_trade_no`, yet read `data.out_trade_no` | `{transaction_id: "4200000001", mchid: "1230000109"}` conforms to the declared type and sends a GET to `.../v3/pay/transactions/out-trade-no/undefined` | the query-by-out-trade-no types, as `BasePay` declares them (src/apis/basePay/basePay.ts:103, 109) | high; not executed | Jsapi.DeclaredTypesLoseOutTradeNo | Jsapi.OutTradeNoQueryOrderAsIntended |

`Jsapi.OutTradeNoQueryOrderOnProviderAsIntended` is the corrected provider
counterpart.

## Left out

- The signed HTTP client is not part of this model. That covers signing,
  TLS, JSON, the network and errors it raises. It is the `Client<D>`
  parameter, and its errors propagate unchanged.
- `replaceStrWithTokenObject` (src/utils/index) is not part of this model.
  `Template.Substitute` is the behaviour assumed of it, not a verified fact
  about it: each token in key order replaces every `{key}` with the value
  inserted literally. `$`-patterns are not interpreted. An absent identifier
  is inserted as the text `undefined`, as JavaScript would stringify it.
- `async`/`await`: each operation awaits one call, and nothing depends on
  interleaving.
- Payload values are strings. Nested objects such as `amount` and `payer`
  only pass through, so their structure is not modelled. A property
  explicitly set to `undefined` is modelled as absent.
- The response and refund types, and the trade-type and trade-state enums,
  are not modelled. Response bodies are the opaque type parameter `D`.
- BasePay.UrlMapPairsVariants: the model proves that every business URL lies
  under `/v3/pay/transactions/` and not under `/v3/pay/partner/`. It does not
  prove that the text `/partner/` occurs nowhere in it, because searching
  whole literal URLs costs the solver too much.
- `WechatPayV3Base` and the constructors only store the client, so they are
  not modelled.
