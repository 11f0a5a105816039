/** QueryState of main.py: what one user has chosen so far and the results being paged through. */
module State {
  import opened Wrappers
  import opened Dates
  import opened Merge

  /** page counts result pages shown; it starts at 0 and is only ever reset or incremented. */
  datatype QueryState = QueryState(
    origin: Option<string>,
    originLabel: Option<string>,
    destination: Option<string>,
    destinationLabel: Option<string>,
    departDate: Option<Date>,
    results: Option<seq<MergedOffer>>,
    page: nat,
    selectedIdx: Option<int>)

  /** QueryState() with its dataclass defaults. */
  const Fresh: QueryState := QueryState(None, None, None, None, None, None, 0, None)

  /** Python truthiness of an optional string field: set and non-empty. */
  predicate Chosen(v: Option<string>) { v.Some? && v.value != "" }

  /** `q.results` is truthy: set and non-empty. */
  predicate HasResults(q: QueryState) { q.results.Some? && q.results.value != [] }
}
