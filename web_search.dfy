/** The web-search capability the content path consults. The provider itself is outside
    the model; it is an oracle that may raise. */
module WebSearch {
  import opened Wrappers

  /** One result dictionary of the provider. Each key may be missing. */
  datatype SearchResult = SearchResult(title: Entry<string>, link: Entry<string>, snippet: Entry<string>)

  /** The number of results requested (`GoogleSearchAPIWrapper(k=4)`, `num_results=4`). */
  const TopK: nat := 4

  /** The search wrapper as the web-search node meets it. Building the wrapper may raise
      (it validates its credentials when constructed, outside the node's try block);
      a configured wrapper answers `(query, count)` with a ranked result list or raises. */
  datatype SearchBackend =
    | Unconfigured(error: string)
    | Configured(results: (string, nat) -> Result<seq<SearchResult>>)
}
