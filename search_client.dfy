/** The web client's search form: the submission handler as a state machine
    over the component's state (the query box, the searching flag, the shown
    response and the notifications), and the render-time guards of the form
    and of a product card. */
module SearchClient {
  import opened Wrappers
  import opened Text
  import opened Models

  // ---------------------------------------------------------------------------
  // Notifications

  /** The three notification styles the handler uses. */
  datatype ToastKind = Loading | Success | Failure

  datatype Toast = Toast(kind: ToastKind, message: string)

  /** The one id every notification of a search is raised under. */
  const SearchToastId: string := "search"

  const LoadingMessage: string := "Gemini AI is analyzing websites..."
  const BackendDownMessage: string := "Failed to search products. Check if backend is running."
  const SearchFailedMessage: string := "Search failed"

  /** How a template literal renders an optional number: a present one as
      its decimal numeral (read back, it gives the number), an absent one as
      "undefined". */
  function OptionalNumberText(n: Option<int>): (r: string)
    ensures n.Some? && n.value >= 0 ==> AllDigits(r) && ParseDecimal(r) == n.value
    ensures n.Some? && n.value < 0 ==> |r| > 1 && r[0] == '-' && AllDigits(r[1..]) && ParseDecimal(r[1..]) == -n.value
    ensures n.None? ==> r == "undefined"
  {
    match n
    case Some(v) => IntToString(v)
    case None => "undefined"
  }

  /** The success text: `Found ${total_found} products in ${search_time_ms}ms`. */
  function SuccessMessage(data: SearchResponse): (m: string)
    ensures "Found " <= m
    ensures |m| == |"Found "| + |IntToString(data.totalFound)| + |" products in "| + |OptionalNumberText(data.searchTimeMs)| + |"ms"|
    ensures m[|m| - 2..] == "ms"
  {
    "Found " + IntToString(data.totalFound) + " products in " + OptionalNumberText(data.searchTimeMs) + "ms"
  }

  /** The text of a failed search: `error_message || 'Search failed'`. */
  function FailureMessage(data: SearchResponse): (r: string)
    ensures r != []
    ensures data.errorMessage.Some? && data.errorMessage.value != [] ==> r == data.errorMessage.value
    ensures data.errorMessage.None? || data.errorMessage.value == [] ==> r == SearchFailedMessage
  {
    if data.errorMessage.Some? && data.errorMessage.value != [] then data.errorMessage.value else SearchFailedMessage
  }

  /** The success text reports the number of products found and the search
      time, each at a fixed position. */
  lemma SuccessMessageReports(data: SearchResponse)
    ensures var m := SuccessMessage(data);
      && OccursAt(IntToString(data.totalFound), m, 6)
      && OccursAt(OptionalNumberText(data.searchTimeMs), m, 6 + |IntToString(data.totalFound)| + 13)
      && Occurs(IntToString(data.totalFound), m)
      && Occurs(OptionalNumberText(data.searchTimeMs), m)
  {
    var total := IntToString(data.totalFound);
    var time := OptionalNumberText(data.searchTimeMs);
    var m := SuccessMessage(data);
    assert m == "Found " + total + " products in " + time + "ms";
    assert m[6..6 + |total|] == total;
    assert m[6 + |total| + 13..6 + |total| + 13 + |time|] == time;
    assert OccursAt(total, m, 6);
    assert OccursAt(time, m, 6 + |total| + 13);
  }

  // ---------------------------------------------------------------------------
  // The network round trip

  /** What `fetch` and `response.json()` deliver: the request failed before
      a response arrived, or a response arrived with its HTTP status and,
      when its body parsed, the decoded search response. */
  datatype FetchOutcome =
    | TransportError
    | Received(status: int, body: Option<SearchResponse>)

  /** `response.ok`: the status is in the 2xx range. */
  predicate IsOk(status: int) {
    200 <= status <= 299
  }

  /** The outcome that reaches `setSearchResults`: an ok status and a body that parsed. */
  predicate Delivered(outcome: FetchOutcome) {
    outcome.Received? && IsOk(outcome.status) && outcome.body.Some?
  }

  /** The notification a finished search raises under the search id, or
      None when it raises none. Success comes exactly from a delivered
      "completed" response; every undelivered outcome gets the backend-down
      text; a delivered "failed" response gets its own failure text; any
      other delivered status raises nothing, so the loading notification
      stays. The success text is the "Found ... products in ...ms" text of
      the response. Every raised text is non-empty. */
  function TerminalToast(outcome: FetchOutcome): (t: Option<Toast>)
    ensures t.Some? && t.value.kind == Success <==> Delivered(outcome) && outcome.body.value.status == "completed"
    ensures t.Some? && t.value.kind == Failure <==> !Delivered(outcome) || outcome.body.value.status == "failed"
    ensures t.None? <==>
      Delivered(outcome) && outcome.body.value.status != "completed" && outcome.body.value.status != "failed"
    ensures !Delivered(outcome) ==> t == Some(Toast(Failure, BackendDownMessage))
    ensures t.Some? && t.value.kind == Success ==> t.value.message == SuccessMessage(outcome.body.value)
    ensures t.Some? && Delivered(outcome) && outcome.body.value.status == "failed" ==>
      t.value.message == FailureMessage(outcome.body.value)
    ensures t.Some? ==> t.value.kind != Loading && t.value.message != []
  {
    if !Delivered(outcome) then Some(Toast(Failure, BackendDownMessage))
    else
      var data := outcome.body.value;
      if data.status == "completed" then Some(Toast(Success, SuccessMessage(data)))
      else if data.status == "failed" then Some(Toast(Failure, FailureMessage(data)))
      else None
  }

  /** The notification table after raising `t` (if any) under the search id. */
  function Raise(toasts: map<string, Toast>, t: Option<Toast>): map<string, Toast> {
    match t
    case Some(toast) => toasts[SearchToastId := toast]
    case None => toasts
  }

  // ---------------------------------------------------------------------------
  // Render-time guards

  /** The submit button's `disabled`: `!query.trim() || isSearching`. */
  function SubmitDisabled(query: string, isSearching: bool): (disabled: bool)
    ensures disabled <==> isSearching || AllSpace(query, JavaScript)
  {
    Strip(query, JavaScript) == [] || isSearching
  }

  /** What `formatPrice` shows: the fixed text for an absent price, or the
      amount in the currency (the currency text itself is left abstract). */
  datatype PriceText = PriceNotAvailable | CurrencyAmount(amount: Cents, currency: string)

  /** `formatPrice(price, currency = 'USD')`. */
  function FormatPrice(price: Option<Cents>, currency: Option<string>): (t: PriceText)
    ensures t == PriceNotAvailable <==> price.None?
    ensures t.CurrencyAmount? ==> t == CurrencyAmount(price.value, currency.GetOr(DefaultCurrency))
  {
    if price.None? then PriceNotAvailable else CurrencyAmount(price.value, currency.GetOr(DefaultCurrency))
  }

  /** The price slot of a product card. */
  datatype PriceCell = Formatted(text: PriceText) | NotExtracted

  /** `product.price ? formatPrice(...) : 'Price not extracted'`: a price of
      0 is falsy and shows as not extracted; a shown price is never the
      "Price not available" text. */
  function PriceCellOf(p: Product): (c: PriceCell)
    ensures c.NotExtracted? <==> p.price.None? || p.price.value == 0
    ensures c.Formatted? ==> c.text != PriceNotAvailable && c.text.amount == p.price.value
    ensures c.Formatted? ==> c.text.currency == p.currency
  {
    if p.price.Some? && p.price.value != 0 then Formatted(FormatPrice(p.price, Some(p.currency))) else NotExtracted
  }

  /** `product.extraction_confidence && <badge>`: the badge needs a
      confidence, and 0 is falsy. */
  predicate ShowsConfidence(p: Product): (shown: bool)
    ensures shown ==> p.extractionConfidence.Some?
    ensures p.extractionConfidence == Some(0.0) ==> !shown
    ensures p.extractionConfidence.Some? && p.extractionConfidence.value > 0.0 ==> shown
  {
    p.extractionConfidence.Some? && p.extractionConfidence.value != 0.0
  }

  /** `product.product_url && <link>`: the link needs a URL, and the empty
      string is falsy. */
  predicate ShowsLink(p: Product): (shown: bool)
    ensures shown ==> p.productUrl.Some?
    ensures p.productUrl == Some([]) ==> !shown
    ensures p.productUrl.Some? && |p.productUrl.value| > 0 ==> shown
  {
    p.productUrl.Some? && p.productUrl.value != []
  }

  // ---------------------------------------------------------------------------
  // The component state and `handleSearch`

  class App {
    var query: string
    var isSearching: bool
    var searchResults: Option<SearchResponse>
    /** Live notifications, by id. */
    var toasts: map<string, Toast>

    constructor ()
      ensures query == [] && !isSearching && searchResults == None && toasts == map[]
    {
      query := [];
      isSearching := false;
      searchResults := None;
      toasts := map[];
    }

    /** The query box's `onChange`. */
    method SetQuery(q: string)
      modifies this
      ensures query == q
      ensures isSearching == old(isSearching) && searchResults == old(searchResults) && toasts == old(toasts)
    {
      query := q;
    }

    /** The part of `handleSearch` before the `await`: the blank-query guard,
        then the searching state, the loading notification and the request
        body. `request` is None when the guard returns. */
    method BeginSearch() returns (request: Option<SearchRequest>)
      modifies this
      ensures request.None? <==> AllSpace(old(query), JavaScript)
      ensures request.None? ==> unchanged(this)
      ensures request.Some? ==>
        && request.value == SearchRequest(Strip(old(query), JavaScript), 3, true)
        && query == old(query) && isSearching && searchResults == None
        && toasts == old(toasts)[SearchToastId := Toast(Loading, LoadingMessage)]
        && SubmitDisabled(query, isSearching)
      ensures request.Some? ==>
        && request.value.query != []
        && !IsSpace(request.value.query[0], JavaScript)
        && !IsSpace(request.value.query[|request.value.query| - 1], JavaScript)
    {
      var trimmed := Strip(query, JavaScript);
      if trimmed == [] {
        return None;
      }
      isSearching := true;
      searchResults := None;
      toasts := toasts[SearchToastId := Toast(Loading, LoadingMessage)];
      request := Some(SearchRequest(trimmed, 3, true));
    }

    /** The part of `handleSearch` after the `await`: the `try` body, the
        `catch` and the `finally`. A transport error, a non-ok status and a
        body that does not parse all end in the `catch`. */
    method FinishSearch(outcome: FetchOutcome)
      modifies this
      ensures query == old(query) && !isSearching
      ensures searchResults == (if Delivered(outcome) then outcome.body else old(searchResults))
      ensures toasts == Raise(old(toasts), TerminalToast(outcome))
    {
      var failed := false;
      match outcome {
        case TransportError =>
          failed := true;
        case Received(status, body) =>
          if !IsOk(status) {
            failed := true;
          } else if body.None? {
            failed := true;
          } else {
            var data := body.value;
            searchResults := Some(data);
            if data.status == "completed" {
              toasts := toasts[SearchToastId := Toast(Success, SuccessMessage(data))];
            } else if data.status == "failed" {
              toasts := toasts[SearchToastId := Toast(Failure, FailureMessage(data))];
            }
          }
      }
      if failed {
        toasts := toasts[SearchToastId := Toast(Failure, BackendDownMessage)];
      }
      isSearching := false;
    }

    /** `handleSearch` for one submission whose request, if sent, ends in
        `outcome`. A blank query changes nothing. Otherwise the searching
        flag ends false, the shown response is the delivered one or none,
        the only notification touched is the one under the search id, and
        it is the loading one exactly when no terminal one was raised. */
    method HandleSearch(outcome: FetchOutcome) returns (request: Option<SearchRequest>)
      modifies this
      ensures request.None? <==> AllSpace(old(query), JavaScript)
      ensures request.None? ==> unchanged(this)
      ensures request.Some? ==>
        && request.value == SearchRequest(Strip(old(query), JavaScript), 3, true)
        && query == old(query) && !isSearching
        && searchResults == (if Delivered(outcome) then outcome.body else None)
        && toasts.Keys == old(toasts).Keys + {SearchToastId}
        && (forall id :: id in old(toasts) && id != SearchToastId ==> toasts[id] == old(toasts)[id])
        && toasts[SearchToastId] == TerminalToast(outcome).GetOr(Toast(Loading, LoadingMessage))
        && !SubmitDisabled(query, isSearching)
    {
      request := BeginSearch();
      if request.Some? {
        FinishSearch(outcome);
      }
    }
  }
}
