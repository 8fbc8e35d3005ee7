/**
 * The gateway's URL space and the two account modes. Direct merchants
 * ("business") use paths under `/v3/pay/transactions/`; service providers
 * acting for sub-merchants use the same paths under
 * `/v3/pay/partner/transactions/`. Refunds have one path for both.
 */
module Endpoints {

  import opened Wrappers
  import opened Strings
  import opened Payloads

  const Host := "https://api.mch.weixin.qq.com"
  const PayRoot := Host + "/v3/pay"
  /** Root of every direct-merchant transaction URL. */
  const BusinessRoot := PayRoot + "/transactions/"
  /** Root of every provider transaction URL: the business root with `/partner` inserted. */
  const ProviderRoot := PayRoot + "/partner" + "/transactions/"
  /** The one refund URL, whichever account mode asks. */
  const RefundUrl := Host + "/v3/refund/domestic/refunds"

  /** The account flow a request belongs to. */
  datatype Mode = Business | Provider

  /** The transaction root of a mode. */
  function Root(mode: Mode): string {
    match mode
    case Business => BusinessRoot
    case Provider => ProviderRoot
  }

  /** One row of a URL table: the provider and the business variant of an operation. */
  datatype Endpoint = Endpoint(provider: string, business: string) {

    /** The variant a request of `mode` uses. */
    function For(mode: Mode): string {
      if mode == Business then business else provider
    }
  }

  /**
   * The business variant of a row is its provider variant with the
   * `/partner` path segment taken out.
   */
  ghost predicate PartnerRemoved(e: Endpoint) {
    exists rest :: e.provider == PayRoot + "/partner" + rest && e.business == PayRoot + rest
  }

  /** Any row that puts one path under both roots has that shape. */
  lemma RootsPairedByPartner(path: string)
    ensures PartnerRemoved(Endpoint(provider := ProviderRoot + path, business := BusinessRoot + path))
  {
    var rest := "/transactions/" + path;
    assert ProviderRoot + path == PayRoot + "/partner" + rest;
    assert BusinessRoot + path == PayRoot + rest;
  }

  /** Order creation is a business order exactly when the payload has an `appid`. */
  function OrderMode(data: Payload): (mode: Mode)
    ensures mode == Business <==> "appid" in data
  {
    if "appid" in data then Business else Provider
  }

  /** Queries and close are business requests exactly when the payload has an `mchid`. */
  function MerchantMode(data: Payload): (mode: Mode)
    ensures mode == Business <==> "mchid" in data
  {
    if "mchid" in data then Business else Provider
  }

  /** The mode a URL belongs to, read off its root; `None` outside both roots. */
  function ModeOfUrl(url: string): Option<Mode> {
    if IsPrefix(ProviderRoot, url) then Some(Provider)
    else if IsPrefix(BusinessRoot, url) then Some(Business)
    else None
  }

  /** No transaction root contains a `{`, so no placeholder starts inside one. */
  lemma RootsFreeOfBraces(mode: Mode)
    ensures '{' !in Root(mode)
  {
    assert '{' !in Host;
    assert '{' !in PayRoot;
  }

  /** `ModeOfUrlUnderRoot` for a URL written as root, path and tail. */
  lemma ModeOfUrlOfPath(mode: Mode, path: string, tail: string)
    ensures ModeOfUrl(Root(mode) + path + tail) == Some(mode)
  {
    assert Root(mode) + path + tail == Root(mode) + (path + tail);
    ModeOfUrlUnderRoot(mode, path + tail);
  }

  /** A URL under a mode's root belongs to that mode and to no other. */
  lemma ModeOfUrlUnderRoot(mode: Mode, tail: string)
    ensures ModeOfUrl(Root(mode) + tail) == Some(mode)
  {
    var url := Root(mode) + tail;
    assert url[..|Root(mode)|] == Root(mode);
    if mode == Business {
      var k := |PayRoot| + 1;
      assert ProviderRoot[k] == 'p';
      assert url[k] == 't';
      assert |url| >= |ProviderRoot| ==> url[..|ProviderRoot|][k] != ProviderRoot[k];
    }
  }

  /** The refund URL lies under neither transaction root. */
  lemma RefundUrlUnderNoRoot()
    ensures ModeOfUrl(RefundUrl) == None
  {
    var k := |Host| + 4;
    assert RefundUrl[k] == 'r';
    assert ProviderRoot[k] == 'p' && BusinessRoot[k] == 'p';
    assert |RefundUrl| < |ProviderRoot|;
    assert RefundUrl[..|BusinessRoot|][k] != BusinessRoot[k];
  }

  /** Every URL under the provider root contains `/v3/pay/partner/transactions/`. */
  lemma ProviderUrlContainsPartner(tail: string)
    ensures Occurs("/v3/pay/partner/transactions/", ProviderRoot + tail)
  {
    var url := ProviderRoot + tail;
    assert url == Host + ("/v3/pay/partner/transactions/" + tail);
    assert url[|Host|..] == "/v3/pay/partner/transactions/" + tail;
    OccursAt("/v3/pay/partner/transactions/", url, |Host|);
  }
}
