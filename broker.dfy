/**
 * The broker client (`dhanhq`) as an oracle. A session is opened from a client id and a plaintext
 * token; the broker's answer to `get_fund_limits` on it is whatever the oracle says. The reply's
 * shape is assumed: the amounts are integers, and an amount that is present is a number (never
 * `null`).
 */
module Broker {
  import opened Wrappers

  /** The `data` part of a fund-limits reply; `None` is a field the broker left out. */
  datatype FundData = FundData(
    equityAmount: Option<int>,
    commodityAmount: Option<int>,
    utilisedAmount: Option<int>,
    openingBalance: Option<int>)

  /**
   * One call of `get_fund_limits`: either it raises (`Raised`, a transport or client error) or it
   * returns a dictionary whose `status` and `data` keys may be missing.
   */
  datatype Response = Raised(reason: string) | Reply(status: Option<string>, data: Option<FundData>)

  /** The broker's answer to `get_fund_limits` for a session opened with (client id, plaintext token). */
  type Api = (string, string) -> Response

  /** A `dhanhq` handle: it holds the client id and the plaintext token it was built from. */
  datatype Session = Session(clientId: string, token: string)

  /** `test.get('status') == 'success'` on a reply that did not raise. */
  predicate ProbeOk(resp: Response) {
    resp.Reply? && resp.status == Some("success")
  }

  /** `session.get_fund_limits()` */
  function FundLimits(api: Api, s: Session): Response {
    api(s.clientId, s.token)
  }
}
