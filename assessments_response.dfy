/**
 * The responses page: loads every response once, builds the filter options from them (null
 * values skipped), and replaces the table with the backend's answer when filters are applied.
 */
module AssessmentsResponse {
  import opened Api
  import opened FilterOptions
  import opened Filters

  /** The responses page leaves null values out of the options. */
  const SkipNull := true

  class ResponsesPage {
    var data: seq<Row>
    var filterOptions: OptionMap
    var loading: bool
    var errorMsg: Option<string>
    const filterState: FilterState

    constructor (filterState: FilterState)
      ensures this.filterState == filterState
      ensures data == [] && filterOptions == map[] && loading && errorMsg == None
    {
      this.filterState := filterState;
      data, filterOptions, loading, errorMsg := [], map[], true, None;
    }

    /**
     * The mount effect, given how GET /responses settled (a missing body reads as no rows): on
     * success the rows are shown and their options offered; on failure the message is shown and
     * the rest is kept.  Loading ends either way.
     */
    method FetchResponses(response: Fetch<Option<seq<Row>>>)
      modifies this`data, this`filterOptions, this`loading, this`errorMsg
      ensures !loading
      ensures response.Ok? ==> data == OrEmpty(response.body) && errorMsg == None && filterOptions == Options(data, SkipNull)
      ensures response.Failed? ==> errorMsg == Some(ErrorText(response.error)) && data == old(data) && filterOptions == old(filterOptions)
    {
      match response {
        case Ok(body) =>
          var rows := OrEmpty(body);
          data := rows;
          errorMsg := None;
          filterOptions := CollectOptions(rows, SkipNull);
        case Failed(err) =>
          errorMsg := Some(ErrorText(err));
      }
      loading := false;
    }

    /**
     * "Apply Filters": POST /filter-responses with the current selection, answered by `api`; a
     * failed request is only logged and leaves the table as it was.
     */
    method ApplyFilters(api: Selection -> Fetch<Option<seq<Row>>>) returns (sent: Selection)
      modifies this`data
      ensures sent == filterState.filters
      ensures api(sent).Ok? ==> data == OrEmpty(api(sent).body)
      ensures api(sent).Failed? ==> data == old(data)
    {
      sent := filterState.filters;
      var res := api(sent);
      if res.Ok? {
        data := OrEmpty(res.body);
      }
    }
  }
}
