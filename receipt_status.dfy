/** `ReceiptStatus`: where an emergency notification stands (delivered, acknowledged, expired). */
module ReceiptStatusRequest {
  import opened Wrappers
  import opened Decimal
  import opened Base

  datatype ReceiptStatus = ReceiptStatus(token: string, receipt: string)
  {
    function GetMethod(): (m: HttpMethod)
      ensures m == GET
    {
      GET
    }

    /** `build_url`: segments `receipts` and `<receipt>.json`; the token is the whole query. */
    method BuildUrl(target: Url)
      modifies target
      ensures target.path == old(target.path) + ["receipts", JsonSegment(receipt)]
      ensures target.query == old(target.query) + [("token", token)]
    {
      target.PushSegment("receipts");
      target.PushSegment(JsonSegment(receipt));
      target.AppendPair("token", token);
    }
  }

  /** The fields of `RawReceiptStatusResponse` beyond status, request and errors. */
  datatype ReceiptStatusBody = ReceiptStatusBody(
    calledBack: Option<u8>, calledBackAt: Option<u32>, acknowledged: Option<u8>,
    acknowledgedAt: Option<u32>, acknowledgedBy: Option<string>, acknowledgedByDevice: Option<string>,
    lastDeliveredAt: Option<u32>, expired: Option<u8>, expiresAt: Option<u32>)

  type RawReceiptStatusResponse = Raw<ReceiptStatusBody>

  datatype ReceiptStatusResponse = ReceiptStatusResponse(
    calledBack: u8, calledBackAt: u32, acknowledged: u8, acknowledgedAt: u32,
    acknowledgedBy: string, acknowledgedByDevice: string, lastDeliveredAt: u32,
    expired: u8, expiresAt: u32, request: string)

  /** `map`: the nine status fields, each of which it unwraps, and the request identifier. */
  function Map(raw: RawReceiptStatusResponse): (r: ReceiptStatusResponse)
    requires raw.body.calledBack.Some? && raw.body.calledBackAt.Some? && raw.body.acknowledged.Some?
    requires raw.body.acknowledgedAt.Some? && raw.body.acknowledgedBy.Some? && raw.body.acknowledgedByDevice.Some?
    requires raw.body.lastDeliveredAt.Some? && raw.body.expired.Some? && raw.body.expiresAt.Some?
    ensures Reply(r) == raw.(status := 1, errors := None)
  {
    var b := raw.body;
    ReceiptStatusResponse(
      b.calledBack.value, b.calledBackAt.value, b.acknowledged.value, b.acknowledgedAt.value,
      b.acknowledgedBy.value, b.acknowledgedByDevice.value, b.lastDeliveredAt.value,
      b.expired.value, b.expiresAt.value, raw.request)
  }

  /** The success reply that carries a given response. */
  function Reply(resp: ReceiptStatusResponse): RawReceiptStatusResponse
  {
    SuccessReply(resp.request, ReceiptStatusBody(
      Some(resp.calledBack), Some(resp.calledBackAt), Some(resp.acknowledged), Some(resp.acknowledgedAt),
      Some(resp.acknowledgedBy), Some(resp.acknowledgedByDevice), Some(resp.lastDeliveredAt),
      Some(resp.expired), Some(resp.expiresAt)))
  }

  /** Sending back the reply for a response gives that response. */
  lemma MapRoundTrip(resp: ReceiptStatusResponse)
    ensures Dispatch(Reply(resp), Map) == Ok(resp)
  {
  }

  /** The URL the client sends a status request to: `receipts/<receipt>.json?token=...`. */
  method FullUrl(token: string, receipt: string) returns (path: seq<string>, query: seq<Pair>)
    ensures path == [ApiVersion, "receipts", receipt + ".json"]
    ensures query == [("token", token)]
  {
    var target := new Url.Versioned();
    ReceiptStatus(token, receipt).BuildUrl(target);
    path, query := target.path, target.query;
  }
}
