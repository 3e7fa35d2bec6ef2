/**
 * The pending-assessments page: asks the backend for the pending responses with no filters,
 * builds the filter options from them (null values skipped), and asks again with the selection
 * when filters are applied.  Both requests go to POST /pending.
 */
module PendingAssessments {
  import opened Api
  import opened FilterOptions
  import opened Filters

  /** The pending page leaves null values out of the options. */
  const SkipNull := true

  class PendingPage {
    var data: seq<Row>
    var filterOptions: OptionMap
    var loading: bool
    var errorMsg: Option<string>
    const filterState: FilterState

    constructor (filterState: FilterState)
      ensures this.filterState == filterState
      ensures data == [] && filterOptions == map[] && loading && errorMsg == None
    {
      this.filterState := filterState;
      data, filterOptions, loading, errorMsg := [], map[], true, None;
    }

    /**
     * The mount effect: POST /pending with an empty selection, answered by `api`.  On success the
     * rows are shown and their options offered; on failure the message is shown and the rest is
     * kept.  Loading ends either way.
     */
    method FetchPending(api: Selection -> Fetch<Option<seq<Row>>>) returns (sent: Selection)
      modifies this`data, this`filterOptions, this`loading, this`errorMsg
      ensures sent == map[] && !loading
      ensures api(sent).Ok? ==> data == OrEmpty(api(sent).body) && errorMsg == None && filterOptions == Options(data, SkipNull)
      ensures api(sent).Failed? ==> errorMsg == Some(ErrorText(api(sent).error)) && data == old(data) && filterOptions == old(filterOptions)
    {
      sent := map[];
      match api(sent) {
        case Ok(body) =>
          var rows := OrEmpty(body);
          data := rows;
          errorMsg := None;
          filterOptions := CollectOptions(rows, SkipNull);
        case Failed(err) =>
          errorMsg := Some(ErrorText(err));
      }
      loading := false;
    }

    /** "Apply Filters": POST /pending with the current selection; a failure is only logged. */
    method ApplyFilters(api: Selection -> Fetch<Option<seq<Row>>>) returns (sent: Selection)
      modifies this`data
      ensures sent == filterState.filters
      ensures api(sent).Ok? ==> data == OrEmpty(api(sent).body)
      ensures api(sent).Failed? ==> data == old(data)
    {
      sent := filterState.filters;
      var res := api(sent);
      if res.Ok? {
        data := OrEmpty(res.body);
      }
    }
  }

  /**
   * Before any choice is made, applying the filters asks for exactly what the mount asked for.
   * The server is modelled as a function of the selection it is sent, so the same selection
   * gets the same answer and the table shows the same rows again.
   */
  method ApplyBeforeChoosing(api: Selection -> Fetch<Option<seq<Row>>>)
    returns (mounted: Selection, applied: Selection, before: seq<Row>, after: seq<Row>)
    requires api(map[]).Ok?
    ensures mounted == applied == map[]
    ensures before == after == OrEmpty(api(map[]).body)
  {
    var state := new FilterState();
    var page := new PendingPage(state);
    mounted := page.FetchPending(api);
    before := page.data;
    applied := page.ApplyFilters(api);
    after := page.data;
  }
}
