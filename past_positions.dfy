/** The state of the senior past-positions list and its fetch cycle. */
module PastPositions {
  import opened Wrappers
  import opened Redeems

  /** The component state `State`. */
  datatype ListState = ListState(loading: bool, data: seq<Entity>, total: int, pageSize: int, page: int)

  /** `InitialState`: not loading, no entries, page 1 of size 10. */
  const InitialState: ListState := ListState(false, [], 0, 10, 1)

  /** A partial state handed to `mergeState`: the fields it names are `Some`. */
  datatype Patch = Patch(
    loading: Option<bool>,
    data: Option<seq<Entity>>,
    total: Option<int>,
    pageSize: Option<int>,
    page: Option<int>)

  /** `mergeState(patch)(prev)`, i.e. `{...prev, ...patch}`: every field the
      patch names takes the patch's value, every other field keeps its
      previous one. */
  function MergeState(prev: ListState, patch: Patch): (r: ListState)
    ensures r.loading == (if patch.loading.Some? then patch.loading.value else prev.loading)
    ensures r.data == (if patch.data.Some? then patch.data.value else prev.data)
    ensures r.total == (if patch.total.Some? then patch.total.value else prev.total)
    ensures r.pageSize == (if patch.pageSize.Some? then patch.pageSize.value else prev.pageSize)
    ensures r.page == (if patch.page.Some? then patch.page.value else prev.page)
  {
    ListState(
      patch.loading.GetOr(prev.loading),
      patch.data.GetOr(prev.data),
      patch.total.GetOr(prev.total),
      patch.pageSize.GetOr(prev.pageSize),
      patch.page.GetOr(prev.page))
  }

  /** The update made when a fetch starts. */
  function LoadingPatch(): Patch {
    Patch(Some(true), None, None, None, None)
  }

  /** The update made when a fetch succeeds. */
  function SuccessPatch(data: seq<Entity>, count: int): Patch {
    Patch(Some(false), Some(data), Some(count), None, None)
  }

  /** The update made when a fetch fails. */
  function FailurePatch(): Patch {
    Patch(Some(false), Some([]), Some(0), None, None)
  }

  /** A patch that settles a fetch: it names loading (as false), data and
      total, and leaves the pagination window alone. */
  predicate Settles(p: Patch) {
    p.loading == Some(false) && p.data.Some? && p.total.Some? && p.pageSize.None? && p.page.None?
  }

  /** A patch that names no field leaves the state as it was. */
  lemma MergeNothing(prev: ListState)
    ensures MergeState(prev, Patch(None, None, None, None, None)) == prev
  {
  }

  /** Merging the same patch twice is merging it once. */
  lemma MergeIdempotent(prev: ListState, patch: Patch)
    ensures MergeState(MergeState(prev, patch), patch) == MergeState(prev, patch)
  {
  }

  /** Both resolutions of a fetch settle it. */
  lemma ResolutionsSettle(data: seq<Entity>, count: int)
    ensures Settles(SuccessPatch(data, count))
    ensures Settles(FailurePatch())
  {
  }

  /** Whatever was merged before, a settling patch decides the outcome on its
      own: a response that resolves later replaces an earlier one wholesale,
      with no mix of the two, and the pagination window survives both. */
  lemma LaterSettlementWins(prev: ListState, earlier: Patch, later: Patch)
    requires earlier.pageSize.None? && earlier.page.None?
    requires Settles(later)
    ensures MergeState(MergeState(prev, earlier), later) == MergeState(prev, later)
    ensures MergeState(MergeState(prev, earlier), later).page == prev.page
    ensures MergeState(MergeState(prev, earlier), later).pageSize == prev.pageSize
  {
  }

  /** A failure leaves the same list whatever state it met. */
  lemma FailureForgetsPriorState(s: ListState, t: ListState)
    requires s.page == t.page && s.pageSize == t.pageSize
    ensures MergeState(s, FailurePatch()) == MergeState(t, FailurePatch())
    ensures MergeState(s, FailurePatch()).data == [] && MergeState(s, FailurePatch()).total == 0
  {
  }

  /** An absent filter prop defaults to `'all'`. */
  function FilterOrAll(filter: Option<string>): (r: string)
    ensures filter.Some? ==> r == filter.value
    ensures filter.None? ==> r == "all"
  {
    filter.GetOr("all")
  }

  /** The arguments `fetchSYSeniorRedeems` is called with. */
  datatype Request = Request(account: string, page: int, pageSize: int, originatorFilter: string, tokenFilter: string)

  /** One page of redemption history as the endpoint returns it: the records
      and the server's total `meta.count`. */
  datatype RedeemsPage = RedeemsPage(data: seq<Redeem>, count: int)

  /** How the request settled: a page, or a rejection of any kind. */
  datatype FetchOutcome = Fetched(page: RedeemsPage) | FetchFailed

  /** The `PastPositionsList` component's state and its fetch-cycle transitions. */
  class PastPositionsList {
    var loading: bool
    var data: seq<Entity>
    var total: int
    var pageSize: int
    var page: int

    /** The current state as a value. */
    function Snapshot(): ListState
      reads this
    {
      ListState(loading, data, total, pageSize, page)
    }

    /** No transition of the component moves the pagination window, so it stays
        at InitialState's. */
    ghost predicate Valid()
      reads this
    {
      page == InitialState.page && pageSize == InitialState.pageSize
    }

    constructor ()
      ensures Valid()
      ensures Snapshot() == InitialState
    {
      loading, data, total, pageSize, page := false, [], 0, 10, 1;
    }

    /** The synchronous start of the effect: the two guards, then `loading`.
        Returns the request that is then sent, or None when a guard returned early.
        An account is present only when it is set and not the empty string,
        as JavaScript's `!wallet.account` treats `""` as absent. */
    method BeginFetch(pools: seq<Pool>, account: Option<string>, originatorFilter: Option<string>, tokenFilter: Option<string>)
      returns (request: Option<Request>)
      requires Valid()
      modifies this
      ensures Valid()
      ensures request.Some? <==> |pools| > 0 && account.Some? && account.value != ""
      ensures request.None? ==> Snapshot() == old(Snapshot())
      ensures request.Some? ==>
        && request.value == Request(account.value, page, pageSize, FilterOrAll(originatorFilter), FilterOrAll(tokenFilter))
        && Snapshot() == MergeState(old(Snapshot()), LoadingPatch())
        && loading && data == old(data) && total == old(total)
        && page == old(page) && pageSize == old(pageSize)
    {
      if |pools| == 0 {
        return None;
      }
      if account.None? || account.value == "" {
        return None;
      }
      loading := true;
      request := Some(Request(account.value, page, pageSize, FilterOrAll(originatorFilter), FilterOrAll(tokenFilter)));
    }

    /** The request resolved: publish the joined entries and the server count. */
    method OnSuccess(response: RedeemsPage, pools: seq<Pool>, catalog: Catalog)
      requires Valid()
      modifies this
      ensures Valid()
      ensures Snapshot() == MergeState(old(Snapshot()), SuccessPatch(Join(response.data, pools, catalog), response.count))
      ensures !loading && data == Join(response.data, pools, catalog) && total == response.count
      ensures page == old(page) && pageSize == old(pageSize)
    {
      var joined := Join(response.data, pools, catalog);
      loading, data, total := false, joined, response.count;
    }

    /** The request was rejected: an empty list with zero total. */
    method OnFailure()
      requires Valid()
      modifies this
      ensures Valid()
      ensures Snapshot() == MergeState(old(Snapshot()), FailurePatch())
      ensures !loading && data == [] && total == 0
      ensures page == old(page) && pageSize == old(pageSize)
    {
      loading, data, total := false, [], 0;
    }

    /** One whole run of the effect, with the endpoint given as `fetch`.
        When a guard returns early nothing changes; otherwise the list ends
        not loading, holding either the joined page or nothing. */
    method RunFetchCycle(pools: seq<Pool>, catalog: Catalog, account: Option<string>,
                         originatorFilter: Option<string>, tokenFilter: Option<string>,
                         fetch: Request -> FetchOutcome)
      returns (request: Option<Request>)
      requires Valid()
      modifies this
      ensures Valid()
      ensures request.Some? <==> |pools| > 0 && account.Some? && account.value != ""
      ensures request.None? ==> Snapshot() == old(Snapshot())
      ensures request.Some? ==>
        request.value == Request(account.value, old(page), old(pageSize), FilterOrAll(originatorFilter), FilterOrAll(tokenFilter))
      ensures request.Some? && fetch(request.value).Fetched? ==>
        var response := fetch(request.value).page;
        Snapshot() == MergeState(old(Snapshot()), SuccessPatch(Join(response.data, pools, catalog), response.count))
      ensures request.Some? && fetch(request.value).FetchFailed? ==>
        Snapshot() == MergeState(old(Snapshot()), FailurePatch())
      ensures page == old(page) && pageSize == old(pageSize)
    {
      request := BeginFetch(pools, account, originatorFilter, tokenFilter);
      if request.Some? {
        match fetch(request.value)
        case Fetched(response) => OnSuccess(response, pools, catalog);
        case FetchFailed => OnFailure();
      }
    }
  }
}
