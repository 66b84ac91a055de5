/** What the web client shows for the responses the backend's search
    endpoint produces. */
module EndToEnd {
  import opened Wrappers
  import opened Text
  import opened Models
  import opened MockSearch
  import opened SearchClient

  /** Every card of a response made of complete records shows a formatted
      price (never "Price not extracted"), the confidence badge and the shop
      link. */
  lemma CardsOfCompleteRecords(response: SearchResponse)
    requires forall p :: p in response.results ==> CompleteRecord(p)
    ensures forall p :: p in response.results ==>
      && p.price.Some? && PriceCellOf(p) == Formatted(CurrencyAmount(p.price.value, p.currency))
      && ShowsConfidence(p) && ShowsLink(p)
  {
  }

  /** A completed six-record response delivered with an ok status raises
      the success notification "Found 6 products in <time>ms". */
  lemma CompletedSearchToast(response: SearchResponse, status: int, elapsedMs: int)
    requires IsOk(status)
    requires response.status == "completed" && response.totalFound == 6
    requires response.searchTimeMs == Some(elapsedMs)
    ensures TerminalToast(Received(status, Some(response)))
      == Some(Toast(Success, "Found 6 products in " + IntToString(elapsedMs) + "ms"))
  {
    assert IntToString(6) == "6";
    assert OptionalNumberText(response.searchTimeMs) == IntToString(elapsedMs);
    assert "Found " + "6" + " products in " == "Found 6 products in ";
  }
}
