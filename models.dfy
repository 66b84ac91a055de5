/** The records exchanged between the backend and the web client:
    `SearchRequest`, `Product` and `SearchResponse`. */
module Models {
  import opened Wrappers

  /** A price in integer cents (the source carries prices as floats). */
  type Cents = int

  /** The body of `POST /api/search/`. */
  datatype SearchRequest = SearchRequest(query: string, maxResultsPerSite: int, useCache: bool)

  /** Currency every product record is given. */
  const DefaultCurrency: string := "USD"

  /** The three shops, in the order the backend generates and reports them. */
  const SupportedSites: seq<string> := ["amazon.com", "bestbuy.com", "walmart.com"]

  /** One price record of one shop. */
  datatype Product = Product(
    id: int,
    site: string,
    productName: string,
    price: Option<Cents>,
    currency: string,
    productUrl: Option<string>,
    imageUrl: Option<string>,
    extractedAt: string,
    extractionConfidence: Option<real>)

  /** The response of `POST /api/search/`. */
  datatype SearchResponse = SearchResponse(
    searchId: int,
    query: string,
    status: string,
    results: seq<Product>,
    totalFound: int,
    searchTimeMs: Option<int>,
    sitesSearched: seq<string>,
    cachedResults: int,
    freshResults: int,
    errorMessage: Option<string>)
}
