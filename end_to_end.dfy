/**
 * The widget fed by the proxy: what the display rows are after a fetch whose
 * reply is the proxy's response to a given provider reply.
 */
module EndToEnd {
  import opened Common
  import RatesRoute
  import ExchangeWidget

  /**
   * The transport assumed between the two: an error object travels with its
   * status 500, so the widget sees a non-ok reply; the success object
   * arrives with status 200 and parses to a body whose `rates` member is the table.
   */
  function Deliver(r: RatesRoute.Response): ExchangeWidget.Reply {
    match r
    case Failure(status, _) => ExchangeWidget.NotOk(status)
    case Success(_, rates) => ExchangeWidget.Ok(Object(Some(rates)))
  }

  /**
   * When the proxy succeeds, the widget shows the five display currencies in
   * order, each with its rebased rate when the provider gave it a non-zero
   * rate and with 0 otherwise.
   */
  lemma ProxySuccessShown(apiKey: Option<string>, rates: RateTable, s: ExchangeWidget.WidgetState, now: ExchangeWidget.Timestamp)
    requires !RatesRoute.KeyMissing(apiKey) && RatesRoute.Truthy(rates, Pivot)
    ensures var shown := ExchangeWidget.AfterFetch(s, Deliver(RatesRoute.Handle(apiKey, RatesRoute.Ok(Object(Some(rates))))), now);
      && ExchangeWidget.DisplayRows(shown.rates)
      && shown.error.None?
      && forall i :: 0 <= i < |Currencies| ==>
           shown.rates[i].rateToGBP
             == if RatesRoute.Truthy(rates, Currencies[i]) then rates[Currencies[i]] / rates[Pivot] else 0.0
  {
    var response := RatesRoute.Handle(apiKey, RatesRoute.Ok(Object(Some(rates))));
    var shown := ExchangeWidget.AfterFetch(s, Deliver(response), now);
    ExchangeWidget.FetchSuccess(s, Some(response.rates), now);
    forall i | 0 <= i < |Currencies|
      ensures shown.rates[i].rateToGBP
        == if RatesRoute.Truthy(rates, Currencies[i]) then rates[Currencies[i]] / rates[Pivot] else 0.0
    {
      RatesRoute.SuccessRates(apiKey, rates, Currencies[i]);
    }
  }

  /** When the proxy fails, for whatever reason, the widget shows its one generic error and keeps its rows. */
  lemma ProxyFailureShown(apiKey: Option<string>, reply: RatesRoute.ProviderReply, s: ExchangeWidget.WidgetState, now: ExchangeWidget.Timestamp)
    requires RatesRoute.Handle(apiKey, reply).Failure?
    ensures var shown := ExchangeWidget.AfterFetch(s, Deliver(RatesRoute.Handle(apiKey, reply)), now);
      && shown.error == Some(ExchangeWidget.LoadError)
      && shown.rates == s.rates
      && shown.lastUpdated == s.lastUpdated
      && !shown.refreshing
  {
  }
}
