/**
 * The Nikeeta lookup view: a paged table of unassigned responses between two dates.  Each load
 * goes through the local cache first (a fresh entry answers without a request, an expired one is
 * removed), writes a successful response back, and, once idle, prefetches the next page.
 */
module NikeetaLookup {
  import opened Api
  import opened CacheStore
  import opened CacheLogic
  import opened CacheKey

  /** What the view shows and caches: `{ data, total }`. */
  datatype ResultPage = ResultPage(rows: seq<Row>, total: int)

  /** The two fields of a lookup response; None stands for a missing or falsy field. */
  datatype LookupReply = LookupReply(data: Option<seq<Row>>, total: Option<int>)

  /** `{ data: res.data.data || [], total: res.data.total || 0 }`. */
  function Normalize(reply: LookupReply): (page: ResultPage)
    ensures reply.data.Some? ==> page.rows == reply.data.value
    ensures reply.data.None? ==> page.rows == []
    ensures reply.total.Some? ==> page.total == reply.total.value
    ensures reply.total.None? ==> page.total == 0
  {
    ResultPage(OrEmpty(reply.data), if reply.total.Some? then reply.total.value else 0)
  }

  /** `Math.ceil(total / pageSize)`: the least page count whose pages hold `total` rows. */
  function TotalPages(total: int): (n: int)
    ensures (n - 1) * PageSize < total <= n * PageSize
  {
    -((-total) / PageSize)
  }

  /** The `name` of the date input that changed. */
  datatype DateField = StartDate | EndDate

  class LookupView {
    var data: seq<Row>
    var total: int
    var loading: bool
    var errorMsg: Option<string>
    var startDate: string
    var endDate: string
    var page: int
    /** A prefetch timer is set and has neither fired nor been cleared. */
    var prefetchArmed: bool
    const storage: LocalStorage<ResultPage>

    /** The page is 1-based, and an armed prefetch always targets a page that exists. */
    ghost predicate Valid()
      reads this
    {
      page >= 1 && (prefetchArmed ==> !loading && page < TotalPages(total))
    }

    /** The pager is rendered only after loading and when there is something to page through. */
    predicate ShowsPager()
      reads this
    {
      !loading && total > 0
    }

    constructor (storage: LocalStorage<ResultPage>, today: string)
      ensures Valid() && this.storage == storage
      ensures data == [] && total == 0 && loading && errorMsg == None
      ensures startDate == "" && endDate == today && page == 1 && !prefetchArmed
    {
      this.storage := storage;
      data, total, loading, errorMsg := [], 0, true, None;
      startDate, endDate, page := "", today, 1;
      prefetchArmed := false;
    }

    /**
     * The load effect.  `now` and `fetchedAt` are the clock at the cache read and at the write
     * back; `api` answers the request; `writeRejected` is a storage quota failure.
     */
    method FetchData(now: int, fetchedAt: int, api: LookupQuery -> Fetch<LookupReply>, writeRejected: bool)
      returns (sent: Option<LookupQuery>)
      requires Valid()
      modifies this`data, this`total, this`loading, this`errorMsg, this`prefetchArmed, storage
      ensures Valid() && !loading && !prefetchArmed
      ensures var q := QueryFor(startDate, endDate, page);
        var read := Lookup(old(storage.items), Key(q), now);
        if read.0.Found? then
          && sent == None && errorMsg == None
          && data == read.0.data.rows && total == read.0.data.total
          && storage.items == old(storage.items)
        else
          && sent == Some(q)
          && match api(q)
             case Ok(reply) =>
               && data == Normalize(reply).rows && total == Normalize(reply).total && errorMsg == None
               && storage.items == if writeRejected then read.1 else read.1[Key(q) := Stamped(fetchedAt, Normalize(reply))]
             case Failed(err) =>
               && data == old(data) && total == old(total) && errorMsg == Some(ErrorText(err))
               && storage.items == read.1
    {
      loading := true;
      errorMsg := None;
      prefetchArmed := false;
      var q := QueryFor(startDate, endDate, page);
      var paramString := ParamString(q);
      // A corrupt slot makes the read throw; the view catches that and goes on to the network.
      ghost var read := Lookup(storage.items, Key(q), now);
      var cached := GetCachedData(storage, paramString, now);
      assert cached == read.0 && storage.items == read.1;
      assert Key(q) == CachePrefix + paramString;
      if cached.Found? {
        data := cached.data.rows;
        total := cached.data.total;
        loading := false;
        return None;
      }
      sent := Some(q);
      match api(q) {
        case Ok(reply) =>
          var result := Normalize(reply);
          if !writeRejected {
            storage.SetItem(CachePrefix + paramString, Stamped(fetchedAt, result));
          }
          data := result.rows;
          total := result.total;
        case Failed(err) =>
          errorMsg := Some(ErrorText(err));
      }
      loading := false;
    }

    /** The prefetch effect: clears any pending timer and sets a new one when idle and not on the last page. */
    method PrefetchEffect()
      requires Valid()
      modifies this`prefetchArmed
      ensures Valid()
      ensures prefetchArmed <==> !loading && page < TotalPages(total)
    {
      prefetchArmed := !loading && page < TotalPages(total);
    }

    /**
     * The prefetch timer going off: unless the next page's slot is already occupied (fresh or
     * not), request that page with the same dates and cache the answer; failures are dropped.
     */
    method PrefetchTimerFires(now: int, api: LookupQuery -> Fetch<LookupReply>, writeRejected: bool)
      returns (sent: Option<LookupQuery>)
      requires Valid()
      modifies this`prefetchArmed, storage
      ensures Valid() && !prefetchArmed
      ensures var q := QueryFor(startDate, endDate, page + 1);
        if !old(prefetchArmed) || Present(old(storage.items), Key(q)) then
          sent == None && storage.items == old(storage.items)
        else
          && sent == Some(q)
          && storage.items ==
               if api(q).Ok? && !writeRejected then old(storage.items)[Key(q) := Stamped(now, Normalize(api(q).body))]
               else old(storage.items)
    {
      if !prefetchArmed {
        return None;
      }
      prefetchArmed := false;
      var nextPage := page + 1;
      var q := QueryFor(startDate, endDate, nextPage);
      var cacheKey := CachePrefix + ParamString(q);
      if storage.GetItem(cacheKey).Some? {
        return None;
      }
      sent := Some(q);
      var res := api(q);
      if res.Ok? && !writeRejected {
        storage.SetItem(cacheKey, Stamped(now, Normalize(res.body)));
      }
    }

    /** Editing either date input; the view returns to page 1. */
    method HandleDateChange(field: DateField, value: string)
      requires Valid()
      modifies this`startDate, this`endDate, this`page, this`prefetchArmed
      ensures Valid() && page == 1 && !prefetchArmed
      ensures field == StartDate ==> startDate == value && endDate == old(endDate)
      ensures field == EndDate ==> endDate == value && startDate == old(startDate)
    {
      match field {
        case StartDate => startDate := value;
        case EndDate => endDate := value;
      }
      page := 1;
      prefetchArmed := false;
    }

    /** A "Last N days" button, given the ISO dates N days ago and today; disabled while loading. */
    method SetPresetRange(start: string, end: string)
      requires Valid()
      modifies this`startDate, this`endDate, this`page, this`prefetchArmed
      ensures Valid()
      ensures !loading ==> startDate == start && endDate == end && page == 1 && !prefetchArmed
      ensures loading ==> startDate == old(startDate) && endDate == old(endDate) && page == old(page)
    {
      if !loading {
        startDate, endDate := start, end;
        page := 1;
        prefetchArmed := false;
      }
    }

    /** "Clear Filter": no start date, today as end date, page 1; disabled while loading. */
    method HandleClearFilters(today: string)
      requires Valid()
      modifies this`startDate, this`endDate, this`page, this`prefetchArmed
      ensures Valid()
      ensures !loading ==> startDate == "" && endDate == today && page == 1 && !prefetchArmed
      ensures loading ==> startDate == old(startDate) && endDate == old(endDate) && page == old(page)
    {
      if !loading {
        startDate, endDate := "", today;
        page := 1;
        prefetchArmed := false;
      }
    }

    /** "Previous": `Math.max(1, p - 1)`, disabled on page 1. */
    method PreviousPage()
      requires Valid()
      modifies this`page, this`prefetchArmed
      ensures Valid()
      ensures 1 <= page <= old(page)
      ensures ShowsPager() && old(page) != 1 ==> page == old(page) - 1
      ensures !(ShowsPager() && old(page) != 1) ==> page == old(page)
      ensures page != old(page) ==> !prefetchArmed
      ensures page == old(page) ==> prefetchArmed == old(prefetchArmed)
    {
      if ShowsPager() && page != 1 {
        page := if page - 1 > 1 then page - 1 else 1;
        prefetchArmed := false;
      }
    }

    /** "Next": `Math.min(totalPages, p + 1)`, disabled from the last page on. */
    method NextPage()
      requires Valid()
      modifies this`page, this`prefetchArmed
      ensures Valid()
      ensures old(page) <= page
      ensures ShowsPager() && old(page) < TotalPages(total) ==> page == old(page) + 1 && page <= TotalPages(total)
      ensures !(ShowsPager() && old(page) < TotalPages(total)) ==> page == old(page)
      ensures page != old(page) ==> !prefetchArmed
      ensures page == old(page) ==> prefetchArmed == old(prefetchArmed)
    {
      if ShowsPager() && page < TotalPages(total) {
        var totalPages := TotalPages(total);
        page := if totalPages < page + 1 then totalPages else page + 1;
        prefetchArmed := false;
      }
    }
  }

  /**
   * Loading the same page twice within the retention window sends one request: the second load
   * is answered from the cache with what the first one fetched.
   */
  method LoadTwice(today: string, now: int, later: int, api: LookupQuery -> Fetch<LookupReply>)
    returns (first: Option<LookupQuery>, second: Option<LookupQuery>, shown: seq<Row>)
    requires api(QueryFor("", today, 1)).Ok?
    requires now <= later < now + CacheRetentionMs
    ensures first == Some(QueryFor("", today, 1)) && second == None
    ensures shown == Normalize(api(QueryFor("", today, 1)).body).rows
  {
    var storage := new LocalStorage<ResultPage>();
    var view := new LookupView(storage, today);
    first := view.FetchData(now, now, api, false);
    second := view.FetchData(later, later, api, false);
    shown := view.data;
  }

  /** A fresh view that loads page 1 of 120 rows sends that request, caches it, and arms the prefetch. */
  method LoadFirstPage(today: string, now: int, api: LookupQuery -> Fetch<LookupReply>)
    returns (view: LookupView, first: Option<LookupQuery>)
    requires api(QueryFor("", today, 1)).Ok? && Normalize(api(QueryFor("", today, 1)).body).total == 120
    ensures fresh(view) && fresh(view.storage) && view.Valid()
    ensures first == Some(QueryFor("", today, 1))
    ensures view.page == 1 && view.startDate == "" && view.endDate == today && view.total == 120
    ensures view.prefetchArmed && !view.loading
    ensures view.storage.items == map[Key(QueryFor("", today, 1)) := Stamped(now, Normalize(api(QueryFor("", today, 1)).body))]
  {
    var storage := new LocalStorage<ResultPage>();
    view := new LookupView(storage, today);
    first := view.FetchData(now, now, api, false);
    assert TotalPages(120) == 3;
    view.PrefetchEffect();
  }

  /** With page 1 loaded and the prefetch armed, the timer fetches and caches page 2, and "Next" moves there. */
  method PrefetchAndAdvance(view: LookupView, today: string, now: int, api: LookupQuery -> Fetch<LookupReply>)
    returns (prefetched: Option<LookupQuery>)
    requires view.Valid() && view.prefetchArmed && !view.loading && view.total == 120
    requires view.page == 1 && view.startDate == "" && view.endDate == today
    requires !Present(view.storage.items, Key(QueryFor("", today, 2)))
    requires api(QueryFor("", today, 2)).Ok?
    modifies view, view.storage
    ensures view.Valid() && view.page == 2 && view.startDate == "" && view.endDate == today
    ensures prefetched == Some(QueryFor("", today, 2))
    ensures var k2 := Key(QueryFor("", today, 2));
      k2 in view.storage.items && view.storage.items[k2] == Stamped(now + 1500, Normalize(api(QueryFor("", today, 2)).body))
  {
    prefetched := view.PrefetchTimerFires(now + 1500, api, false);
    assert TotalPages(120) == 3;
    view.NextPage();
  }

  /**
   * After page 1 of 120 rows loads, the prefetch requests page 2 with the same dates, and moving
   * to page 2 before the window closes is then served without a request.
   */
  method PrefetchThenNext(today: string, now: int, api: LookupQuery -> Fetch<LookupReply>)
    returns (prefetched: Option<LookupQuery>, onNext: Option<LookupQuery>)
    requires api(QueryFor("", today, 1)).Ok? && Normalize(api(QueryFor("", today, 1)).body).total == 120
    requires api(QueryFor("", today, 2)).Ok?
    ensures prefetched == Some(QueryFor("", today, 2))
    ensures onNext == None
  {
    NextPageKeyDiffers("", today, 1);
    var view, first := LoadFirstPage(today, now, api);
    prefetched := PrefetchAndAdvance(view, today, now, api);
    assert Lookup(view.storage.items, Key(QueryFor("", today, 2)), now + 2000).0.Found?;
    onNext := view.FetchData(now + 2000, now + 2000, api, false);
  }
}
