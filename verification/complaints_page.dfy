/**
  The logic of the complaint list view: the page strip with ellipses, the
  total-pages fallback, the staged and applied filter sets with their
  handlers, the list rows' status badge, and the flattening of the
  problem-type table.
*/
module ComplaintsPage {
  import opened JsValues
  import opened Badges
  import opened ComplaintsSlice
  import ComplaintModal

  // ---------------------------------------------------------------------------
  // Page strip

  /** One item of the page strip: a page button or an ellipsis. */
  datatype PageItem = PageNumber(n: int) | Ellipsis

  /** The buttons lo, lo + 1, ..., hi; none when hi < lo. */
  function PageRange(lo: int, hi: int): (r: seq<PageItem>)
    ensures |r| == if hi < lo then 0 else hi - lo + 1
    ensures forall i | 0 <= i < |r| :: r[i] == PageNumber(lo + i)
    decreases hi - lo
  {
    if hi < lo then [] else PageRange(lo, hi - 1) + [PageNumber(hi)]
  }

  /** The strip for `currentPage` out of `totalPages`. */
  function PageStrip(currentPage: int, totalPages: int): seq<PageItem> {
    if totalPages <= 7 then
      PageRange(1, totalPages)
    else if currentPage <= 4 then
      PageRange(1, 5) + [Ellipsis, PageNumber(totalPages)]
    else if currentPage >= totalPages - 3 then
      [PageNumber(1), Ellipsis] + PageRange(totalPages - 4, totalPages)
    else
      [PageNumber(1), Ellipsis] + PageRange(currentPage - 1, currentPage + 1) + [Ellipsis, PageNumber(totalPages)]
  }

  /** The strip as the view builds it, pushing onto an initially empty list. */
  method BuildPageStrip(currentPage: int, totalPages: int) returns (pages: seq<PageItem>)
    ensures pages == PageStrip(currentPage, totalPages)
  {
    pages := [];
    if totalPages <= 7 {
      var i := 1;
      while i <= totalPages
        invariant 1 <= i && (i == 1 || i <= totalPages + 1)
        invariant pages == PageRange(1, i - 1)
      {
        pages := pages + [PageNumber(i)];
        i := i + 1;
      }
    } else if currentPage <= 4 {
      var i := 1;
      while i <= 5
        invariant 1 <= i <= 6
        invariant pages == PageRange(1, i - 1)
      {
        pages := pages + [PageNumber(i)];
        i := i + 1;
      }
      pages := pages + [Ellipsis];
      pages := pages + [PageNumber(totalPages)];
      assert pages == PageRange(1, 5) + [Ellipsis, PageNumber(totalPages)];
    } else if currentPage >= totalPages - 3 {
      pages := pages + [PageNumber(1)];
      pages := pages + [Ellipsis];
      var i := totalPages - 4;
      while i <= totalPages
        invariant totalPages - 4 <= i <= totalPages + 1
        invariant pages == [PageNumber(1), Ellipsis] + PageRange(totalPages - 4, i - 1)
      {
        pages := pages + [PageNumber(i)];
        i := i + 1;
      }
    } else {
      pages := pages + [PageNumber(1)];
      pages := pages + [Ellipsis];
      var i := currentPage - 1;
      while i <= currentPage + 1
        invariant currentPage - 1 <= i <= currentPage + 2
        invariant pages == [PageNumber(1), Ellipsis] + PageRange(currentPage - 1, i - 1)
      {
        pages := pages + [PageNumber(i)];
        i := i + 1;
      }
      pages := pages + [Ellipsis];
      pages := pages + [PageNumber(totalPages)];
      assert pages == [PageNumber(1), Ellipsis] + PageRange(currentPage - 1, currentPage + 1) + [Ellipsis, PageNumber(totalPages)];
    }
  }

  /** Page buttons strictly increase and stay within 1..totalPages. */
  ghost predicate IncreasingWithin(r: seq<PageItem>, totalPages: int) {
    && (forall i | 0 <= i < |r| && r[i].PageNumber? :: 1 <= r[i].n <= totalPages)
    && (forall i, j | 0 <= i < j < |r| && r[i].PageNumber? && r[j].PageNumber? :: r[i].n < r[j].n)
  }

  /**
    No page is skipped silently: neighbouring buttons are consecutive pages,
    and an ellipsis sits between two buttons and hides at least one page.
  */
  ghost predicate GapsMarked(r: seq<PageItem>) {
    && (forall i | 0 <= i < |r| - 1 && r[i].PageNumber? && r[i + 1].PageNumber? :: r[i + 1].n == r[i].n + 1)
    && (forall i | 0 <= i < |r| && r[i].Ellipsis? ::
          && 0 < i < |r| - 1
          && r[i - 1].PageNumber? && r[i + 1].PageNumber?
          && r[i + 1].n - r[i - 1].n >= 2)
  }

  /** With at most seven pages the strip lists every page once, in order. */
  lemma SmallStripListsEveryPage(currentPage: int, totalPages: int)
    requires totalPages <= 7
    ensures |PageStrip(currentPage, totalPages)| == if totalPages < 0 then 0 else totalPages
    ensures forall i | 0 <= i < |PageStrip(currentPage, totalPages)| :: PageStrip(currentPage, totalPages)[i] == PageNumber(i + 1)
  {
  }

  /**
    A strip as the view should draw it: it starts at page 1 and ends at the
    last page, has at most seven items, and marks every gap.
  */
  ghost predicate WellFormedStrip(r: seq<PageItem>, totalPages: int) {
    && 1 <= |r| <= 7
    && r[0] == PageNumber(1) && r[|r| - 1] == PageNumber(totalPages)
    && IncreasingWithin(r, totalPages)
    && GapsMarked(r)
  }

  /** Up to seven pages: every page in a row. */
  lemma SmallStripWellFormed(currentPage: int, totalPages: int)
    requires 1 <= totalPages <= 7
    ensures WellFormedStrip(PageStrip(currentPage, totalPages), totalPages)
  {
  }

  /** Near the start the strip reads 1 2 3 4 5 … n. */
  lemma HeadStripWellFormed(currentPage: int, totalPages: int)
    requires totalPages > 7 && currentPage <= 4
    ensures PageStrip(currentPage, totalPages) ==
      [PageNumber(1), PageNumber(2), PageNumber(3), PageNumber(4), PageNumber(5), Ellipsis, PageNumber(totalPages)]
    ensures |PageStrip(currentPage, totalPages)| == 7
    ensures WellFormedStrip(PageStrip(currentPage, totalPages), totalPages)
  {
    var r := PageStrip(currentPage, totalPages);
    assert PageRange(1, 5) == [PageNumber(1), PageNumber(2), PageNumber(3), PageNumber(4), PageNumber(5)];
    assert r == [PageNumber(1), PageNumber(2), PageNumber(3), PageNumber(4), PageNumber(5), Ellipsis, PageNumber(totalPages)];
  }

  /** Near the end the strip reads 1 … n-4 n-3 n-2 n-1 n. */
  lemma TailStripWellFormed(currentPage: int, totalPages: int)
    requires totalPages > 7 && 4 < currentPage && currentPage >= totalPages - 3
    ensures PageStrip(currentPage, totalPages) ==
      [PageNumber(1), Ellipsis, PageNumber(totalPages - 4), PageNumber(totalPages - 3),
       PageNumber(totalPages - 2), PageNumber(totalPages - 1), PageNumber(totalPages)]
    ensures |PageStrip(currentPage, totalPages)| == 7
    ensures WellFormedStrip(PageStrip(currentPage, totalPages), totalPages)
  {
    var n := totalPages;
    var r := PageStrip(currentPage, n);
    assert PageRange(n - 4, n) == [PageNumber(n - 4), PageNumber(n - 3), PageNumber(n - 2), PageNumber(n - 1), PageNumber(n)];
    assert r == [PageNumber(1), Ellipsis, PageNumber(n - 4), PageNumber(n - 3), PageNumber(n - 2), PageNumber(n - 1), PageNumber(n)];
  }

  /** In between the strip reads 1 … c-1 c c+1 … n. */
  lemma MiddleStripWellFormed(currentPage: int, totalPages: int)
    requires totalPages > 7 && 4 < currentPage < totalPages - 3
    ensures PageStrip(currentPage, totalPages) ==
      [PageNumber(1), Ellipsis, PageNumber(currentPage - 1), PageNumber(currentPage),
       PageNumber(currentPage + 1), Ellipsis, PageNumber(totalPages)]
    ensures |PageStrip(currentPage, totalPages)| == 7
    ensures WellFormedStrip(PageStrip(currentPage, totalPages), totalPages)
  {
    var c, n := currentPage, totalPages;
    var r := PageStrip(c, n);
    assert PageRange(c - 1, c + 1) == [PageNumber(c - 1), PageNumber(c), PageNumber(c + 1)];
    assert r == [PageNumber(1), Ellipsis, PageNumber(c - 1), PageNumber(c), PageNumber(c + 1), Ellipsis, PageNumber(n)];
  }

  /** Every strip is well formed, and beyond seven pages it always has seven items. */
  lemma PageStripWellFormed(currentPage: int, totalPages: int)
    requires totalPages >= 1
    ensures WellFormedStrip(PageStrip(currentPage, totalPages), totalPages)
    ensures totalPages > 7 ==> |PageStrip(currentPage, totalPages)| == 7
  {
    if totalPages <= 7 {
      SmallStripWellFormed(currentPage, totalPages);
    } else if currentPage <= 4 {
      HeadStripWellFormed(currentPage, totalPages);
    } else if currentPage >= totalPages - 3 {
      TailStripWellFormed(currentPage, totalPages);
    } else {
      MiddleStripWellFormed(currentPage, totalPages);
    }
  }

  /** The current page always has a button when it is a real page. */
  lemma PageStripShowsCurrent(currentPage: int, totalPages: int)
    requires 1 <= currentPage <= totalPages
    ensures PageNumber(currentPage) in PageStrip(currentPage, totalPages)
  {
    var r := PageStrip(currentPage, totalPages);
    if totalPages <= 7 {
      assert r[currentPage - 1] == PageNumber(currentPage);
    } else if currentPage <= 4 {
      assert r[currentPage - 1] == PageNumber(currentPage);
    } else if currentPage >= totalPages - 3 {
      assert r[currentPage - totalPages + 6] == PageNumber(currentPage);
    } else {
      assert r[3] == PageNumber(currentPage);
    }
  }

  /** Four strips worked out by hand. */
  lemma PageStripExamples()
    ensures PageStrip(1, 10) == [PageNumber(1), PageNumber(2), PageNumber(3), PageNumber(4), PageNumber(5), Ellipsis, PageNumber(10)]
    ensures PageStrip(10, 10) == [PageNumber(1), Ellipsis, PageNumber(6), PageNumber(7), PageNumber(8), PageNumber(9), PageNumber(10)]
    ensures PageStrip(5, 10) == [PageNumber(1), Ellipsis, PageNumber(4), PageNumber(5), PageNumber(6), Ellipsis, PageNumber(10)]
    ensures PageStrip(3, 5) == [PageNumber(1), PageNumber(2), PageNumber(3), PageNumber(4), PageNumber(5)]
  {
  }

  // ---------------------------------------------------------------------------
  // Total pages

  /** `Math.ceil(totalItems / itemsPerPage)`: the fewest pages of that size that hold every item. */
  function TotalPages(totalItems: nat, itemsPerPage: nat): (r: nat)
    requires itemsPerPage > 0
    ensures totalItems <= r * itemsPerPage
    ensures r > 0 ==> (r - 1) * itemsPerPage < totalItems
  {
    (totalItems + itemsPerPage - 1) / itemsPerPage
  }

  // ---------------------------------------------------------------------------
  // Staged and applied filters

  /** The nine fields of the filter form. */
  const FILTER_FIELDS: seq<string> :=
    [QUERY, STATUS, PLAN, IS_ASSIGNED, CITY, MUNICIPAL_CORPORATION, DATE_FROM, DATE_TO, STR_CODE]

  /** The filter form with every field blank. */
  function BlankFilters(): map<string, Value> {
    map k | k in FILTER_FIELDS :: Str("")
  }

  /** A staged value that applying keeps: anything but '' and undefined. */
  predicate Kept(v: Value) {
    v != Str("") && v != Undefined
  }

  /** `applied` holds exactly the staged entries that applying keeps, with their values. */
  ghost predicate AppliedFrom(applied: map<string, Value>, staged: map<string, Value>) {
    && (forall k :: k in applied <==> k in staged && Kept(staged[k]))
    && (forall k | k in applied :: applied[k] == staged[k])
  }

  /** The loop shared by Apply and Remove: copy every kept entry of the staged filters. */
  method CollectFiltersToApply(staged: map<string, Value>) returns (applied: map<string, Value>)
    ensures AppliedFrom(applied, staged)
  {
    applied := map[];
    var pending := staged.Keys;
    while pending != {}
      invariant pending <= staged.Keys
      invariant forall k :: k in applied <==> k in staged && k !in pending && Kept(staged[k])
      invariant forall k | k in applied :: applied[k] == staged[k]
      decreases pending
    {
      var k :| k in pending;
      if Kept(staged[k]) {
        applied := applied[k := staged[k]];
      }
      pending := pending - {k};
    }
  }

  /** The applied set is determined by the staged one. */
  lemma AppliedFromUnique(a: map<string, Value>, b: map<string, Value>, staged: map<string, Value>)
    requires AppliedFrom(a, staged) && AppliedFrom(b, staged)
    ensures a == b
  {
    assert a.Keys == b.Keys;
  }

  /** Applying what is already applied changes nothing: the applied set holds no blank entry. */
  lemma ApplyIsIdempotent(applied: map<string, Value>, staged: map<string, Value>)
    requires AppliedFrom(applied, staged)
    ensures AppliedFrom(applied, applied)
  {
  }

  /** Applying right after a reset applies nothing. */
  lemma ResetAppliesNothing()
    ensures AppliedFrom(map[], BlankFilters())
  {
  }

  /**
    When the applied set was built from the current staged filters, removing
    key k drops k from it and leaves every other applied entry as it was.
  */
  lemma RemoveInSyncDropsOnlyKey(staged: map<string, Value>, before: map<string, Value>, after: map<string, Value>, k: string)
    requires AppliedFrom(before, staged)
    requires AppliedFrom(after, staged[k := Str("")])
    ensures after == before - {k}
  {
    assert after.Keys == before.Keys - {k};
  }

  /**
    Removing one filter re-applies the whole staged form, so a staged edit
    not yet applied takes effect too: here the query applied as "a" was edited
    to "b" and the status filter is then removed.
  */
  lemma RemovePicksUpStagedEdits(before: map<string, Value>, after: map<string, Value>)
    requires AppliedFrom(before, map[QUERY := Str("a"), STATUS := Str("x")])
    requires AppliedFrom(after, map[QUERY := Str("b"), STATUS := Str("x")][STATUS := Str("")])
    ensures before[QUERY] == Str("a") && after == map[QUERY := Str("b")]
  {
    assert QUERY in before;
    assert after.Keys == {QUERY};
  }

  /** Of an applied set of form strings, the fetch action sends every entry except the problem-type code. */
  lemma AppliedFiltersSent(applied: map<string, Value>, staged: map<string, Value>)
    requires AppliedFrom(applied, staged)
    requires forall k | k in staged :: k in FILTER_FIELDS && staged[k].Str?
    ensures FilterPayload(applied) == applied - {STR_CODE}
  {
    var p := FilterPayload(applied);
    forall k | k in applied && k != STR_CODE
      ensures k in p
    {
      assert k in PAYLOAD_KEYS;
      assert Truthy(Lookup(applied, k));
    }
    assert p.Keys == applied.Keys - {STR_CODE};
  }

  /** A fetch the view dispatches: the filtered list, or the user's own assignments. */
  datatype Request = FetchFiltered(filters: map<string, Value>) | FetchAssigned

  /**
    The effect that runs whenever the applied filters change: it refetches
    only when some filter is applied and the view is not the assigned-to-me view.
  */
  function RefetchOnApplied(applied: map<string, Value>, assignedToMe: bool): (r: Option<Request>)
    ensures r.Some? <==> |applied| > 0 && !assignedToMe
    ensures r.Some? ==> r.value == FetchFiltered(applied)
  {
    if |applied| > 0 && !assignedToMe then Some(FetchFiltered(applied)) else None
  }

  /**
    Resetting, or removing the last filter, empties the applied set, and an
    empty set starts no fetch: the list keeps the last filtered result.
  */
  lemma EmptyAppliedStartsNoFetch(staged: map<string, Value>, applied: map<string, Value>, assignedToMe: bool)
    requires AppliedFrom(applied, staged)
    requires forall k | k in staged :: !Kept(staged[k])
    ensures RefetchOnApplied(applied, assignedToMe) == None
  {
    assert applied.Keys == {};
  }

  /** The list view's handlers over the staged filters, dispatching into the complaint store. */
  class Page {
    var localFilters: map<string, Value>
    const store: ComplaintStore
    /** Whether the view lists only the complaints assigned to the signed-in user. */
    const assignedToMe: bool

    /** The staged form starts with all nine fields blank. */
    constructor (store: ComplaintStore, assignedToMe: bool)
      ensures this.store == store && this.assignedToMe == assignedToMe
      ensures localFilters == BlankFilters()
    {
      this.store := store;
      this.assignedToMe := assignedToMe;
      localFilters := BlankFilters();
    }

    /**
      The page count the pagination bar shows. The store's invariant supplies
      the non-zero page size and ties the item count to the loaded list, so
      the count covers exactly the loaded complaints.
    */
    function ShownTotalPages(): (r: nat)
      reads store
      requires store.Valid()
      ensures |store.complaints| <= r * ITEMS_PER_PAGE
      ensures r > 0 ==> (r - 1) * ITEMS_PER_PAGE < |store.complaints|
    {
      TotalPages(store.pagination.totalItems, store.pagination.itemsPerPage)
    }

    /** The fetch the view starts when it mounts. */
    function MountRequest(): (r: Request)
      ensures r.FetchFiltered? <==> !assignedToMe
      ensures r.FetchFiltered? ==> r.filters == map[]
    {
      if assignedToMe then FetchAssigned else FetchFiltered(map[])
    }

    /**
      Moving to another page records it in the store and asks for the list
      again, with the applied filters (which carry no page number).
    */
    method HandlePageChange(page: int) returns (request: Request)
      requires store.Valid()
      modifies store
      ensures store.Valid()
      ensures store.State() == old(store.State()).(pagination := old(store.pagination).(currentPage := page))
      ensures request.FetchFiltered? <==> !assignedToMe
      ensures request.FetchFiltered? ==> request.filters == store.appliedFilters
    {
      store.SetCurrentPage(page);
      if assignedToMe {
        request := FetchAssigned;
      } else {
        request := FetchFiltered(store.appliedFilters);
      }
    }

    /** Editing one field of the form sets that key only. */
    method HandleFilterChange(key: string, value: Value)
      modifies this
      ensures localFilters == old(localFilters)[key := value]
    {
      localFilters := localFilters[key := value];
    }

    /** Apply: the applied set becomes the kept staged entries, and the list goes back to page 1. */
    method HandleApplyFilters()
      requires store.Valid()
      modifies store
      ensures store.Valid()
      ensures AppliedFrom(store.appliedFilters, localFilters)
      ensures store.State() == old(store.State()).(
        appliedFilters := store.appliedFilters,
        pagination := old(store.pagination).(currentPage := 1))
    {
      var filtersToApply := CollectFiltersToApply(localFilters);
      store.SetAppliedFilters(filtersToApply);
      store.SetCurrentPage(1);
    }

    /** Reset: every field blank, both filter sets in the store empty, and page 1. */
    method HandleResetFilters()
      requires store.Valid()
      modifies this, store
      ensures store.Valid()
      ensures localFilters == BlankFilters()
      ensures store.State() == old(store.State()).(
        filters := map[],
        appliedFilters := map[],
        pagination := old(store.pagination).(currentPage := 1))
    {
      localFilters := BlankFilters();
      store.ClearFilters();
      store.SetCurrentPage(1);
    }

    /** Remove one filter: blank it in the form and apply the form at once; the page stays. */
    method HandleRemoveFilter(key: string)
      requires store.Valid()
      modifies this, store
      ensures store.Valid()
      ensures localFilters == old(localFilters)[key := Str("")]
      ensures AppliedFrom(store.appliedFilters, localFilters) && key !in store.appliedFilters
      ensures store.State() == old(store.State()).(appliedFilters := store.appliedFilters)
    {
      var newFilters := localFilters[key := Str("")];
      localFilters := newFilters;
      var filtersToApply := CollectFiltersToApply(newFilters);
      store.SetAppliedFilters(filtersToApply);
    }
  }

  /** The Previous button is enabled off the first page, and leads one page back. */
  function PreviousTarget(currentPage: int): (r: Option<int>)
    ensures r.Some? <==> currentPage != 1
    ensures r.Some? ==> r.value + 1 == currentPage
  {
    if currentPage == 1 then None else Some(currentPage - 1)
  }

  /** The Next button is enabled off the last page, and leads one page on. */
  function NextTarget(currentPage: int, totalPages: int): (r: Option<int>)
    ensures r.Some? <==> currentPage != totalPages
    ensures r.Some? ==> r.value == currentPage + 1
  {
    if currentPage == totalPages then None else Some(currentPage + 1)
  }

  /** From any real page, the enabled buttons never leave the range of pages. */
  lemma PrevNextStayInRange(currentPage: int, totalPages: int)
    requires 1 <= currentPage <= totalPages
    ensures PreviousTarget(currentPage).Some? ==> 1 <= PreviousTarget(currentPage).value <= totalPages
    ensures NextTarget(currentPage, totalPages).Some? ==> 1 <= NextTarget(currentPage, totalPages).value <= totalPages
  {
  }

  // ---------------------------------------------------------------------------
  // Filter choices

  /** The position of the first occurrence of `v` in `xs`. */
  ghost function FirstIndex(xs: seq<Value>, v: Value): (r: nat)
    requires v in xs
    ensures r < |xs| && xs[r] == v
    ensures forall k | 0 <= k < r :: xs[k] != v
  {
    if xs[0] == v then 0 else 1 + FirstIndex(xs[1..], v)
  }

  /** Dropping the last value keeps the first occurrence of every value still present, and a new last value occurs first at the end. */
  lemma {:induction false} FirstIndexOfInit(xs: seq<Value>)
    requires |xs| > 0
    ensures forall v | v in xs[..|xs| - 1] :: FirstIndex(xs[..|xs| - 1], v) == FirstIndex(xs, v)
    ensures xs[|xs| - 1] !in xs[..|xs| - 1] ==> FirstIndex(xs, xs[|xs| - 1]) == |xs| - 1
  {
    var init := xs[..|xs| - 1];
    assert forall k | 0 <= k < |init| :: init[k] == xs[k];
    forall v | v in init
      ensures FirstIndex(init, v) == FirstIndex(xs, v)
    {
      var i, j := FirstIndex(init, v), FirstIndex(xs, v);
      assert xs[i] == v;
      assert j < |init| ==> init[j] == v;
    }
    if xs[|xs| - 1] !in init {
      assert forall k | 0 <= k < |init| :: xs[k] in init;
    }
  }

  /** `[...new Set(xs)]`: each value once, in order of first occurrence. */
  function Distinct(xs: seq<Value>): (r: seq<Value>)
    ensures forall v :: v in r <==> v in xs
    ensures forall i, j | 0 <= i < j < |r| :: r[i] != r[j]
    ensures forall i, j | 0 <= i < j < |r| :: FirstIndex(xs, r[i]) < FirstIndex(xs, r[j])
    ensures |r| <= |xs|
  {
    if xs == [] then []
    else
      var init := Distinct(xs[..|xs| - 1]);
      assert forall v :: v in xs <==> v in xs[..|xs| - 1] || v == xs[|xs| - 1] by {
        assert xs == xs[..|xs| - 1] + [xs[|xs| - 1]];
      }
      FirstIndexOfInit(xs);
      if xs[|xs| - 1] in init then init else init + [xs[|xs| - 1]]
  }

  /** `complaints.map(c => c.city)`. */
  function Cities(complaints: seq<Complaint>): (r: seq<Value>)
    ensures |r| == |complaints|
    ensures forall i | 0 <= i < |r| :: r[i] == complaints[i].city
  {
    seq(|complaints|, i requires 0 <= i < |complaints| => complaints[i].city)
  }

  /** `complaints.map(c => c.municipalCorporation)`. */
  function Corporations(complaints: seq<Complaint>): (r: seq<Value>)
    ensures |r| == |complaints|
    ensures forall i | 0 <= i < |r| :: r[i] == complaints[i].municipalCorporation
  {
    seq(|complaints|, i requires 0 <= i < |complaints| => complaints[i].municipalCorporation)
  }

  /** The city choices: each city of the listed complaints once, in the order the cities first appear in the list. */
  function UniqueCities(complaints: seq<Complaint>): (r: seq<Value>)
    ensures forall v :: v in r <==> v in Cities(complaints)
    ensures forall v :: v in r <==> exists c | c in complaints :: c.city == v
    ensures forall i, j | 0 <= i < j < |r| :: r[i] != r[j]
    ensures forall i, j | 0 <= i < j < |r| :: FirstIndex(Cities(complaints), r[i]) < FirstIndex(Cities(complaints), r[j])
  {
    var cities := Cities(complaints);
    assert forall v :: v in cities <==> exists c | c in complaints :: c.city == v by {
      forall v | v in cities ensures exists c | c in complaints :: c.city == v {
        var i :| 0 <= i < |cities| && cities[i] == v;
        assert complaints[i] in complaints;
      }
      forall v | exists c | c in complaints :: c.city == v ensures v in cities {
        var c :| c in complaints && c.city == v;
        var i :| 0 <= i < |complaints| && complaints[i] == c;
        assert cities[i] == v;
      }
    }
    Distinct(cities)
  }

  /** The municipal-corporation choices: each corporation of the listed complaints once, in order of first appearance. */
  function UniqueCorporations(complaints: seq<Complaint>): (r: seq<Value>)
    ensures forall v :: v in r <==> v in Corporations(complaints)
    ensures forall v :: v in r <==> exists c | c in complaints :: c.municipalCorporation == v
    ensures forall i, j | 0 <= i < j < |r| :: r[i] != r[j]
    ensures forall i, j | 0 <= i < j < |r| :: FirstIndex(Corporations(complaints), r[i]) < FirstIndex(Corporations(complaints), r[j])
  {
    var corporations := Corporations(complaints);
    assert forall v :: v in corporations <==> exists c | c in complaints :: c.municipalCorporation == v by {
      forall v | v in corporations ensures exists c | c in complaints :: c.municipalCorporation == v {
        var i :| 0 <= i < |corporations| && corporations[i] == v;
        assert complaints[i] in complaints;
      }
      forall v | exists c | c in complaints :: c.municipalCorporation == v ensures v in corporations {
        var c :| c in complaints && c.municipalCorporation == v;
        var i :| 0 <= i < |complaints| && complaints[i] == c;
        assert corporations[i] == v;
      }
    }
    Distinct(corporations)
  }

  // ---------------------------------------------------------------------------
  // List rows

  /** The status badge of a list row, written out inline by the row. */
  function RowStatusColor(status: Value): Color {
    if status == Str("resolved") then Green
    else if status == Str("in process") then Yellow
    else Gray
  }

  /** A list row shows the same status badge, colour and text, as the detail modal. */
  lemma RowStatusMatchesModal(status: Value)
    ensures RowStatusColor(status) == ComplaintModal.StatusColor(status)
    ensures Or(status, Str("Pending")) == ComplaintModal.StatusText(status)
  {
  }

  // ---------------------------------------------------------------------------
  // Problem types

  datatype ProblemType = ProblemType(code: string, name: string, category: string)

  /** The options table: categories in order, each with its (problem name, code) pairs in order. */
  type ProblemTable = seq<(string, seq<(string, string)>)>

  /** The entries of one category, in order. */
  function Entries(category: string, problems: seq<(string, string)>): seq<ProblemType> {
    if problems == [] then []
    else
      var last := problems[|problems| - 1];
      Entries(category, problems[..|problems| - 1]) + [ProblemType(last.1, last.0, category)]
  }

  /** The whole table flattened, category after category. */
  function Flatten(t: ProblemTable): seq<ProblemType> {
    if t == [] then [] else Flatten(t[..|t| - 1]) + Entries(t[|t| - 1].0, t[|t| - 1].1)
  }

  /** The number of (category, problem) pairs in the table. */
  function TotalProblems(t: ProblemTable): nat {
    if t == [] then 0 else TotalProblems(t[..|t| - 1]) + |t[|t| - 1].1|
  }

  /** `processProblemTypes`: nested iteration over the table, pushing one entry per problem. */
  method ProcessProblemTypes(t: ProblemTable) returns (problemTypes: seq<ProblemType>)
    ensures problemTypes == Flatten(t)
  {
    problemTypes := [];
    var i := 0;
    while i < |t|
      invariant 0 <= i <= |t|
      invariant problemTypes == Flatten(t[..i])
    {
      var (category, problems) := t[i];
      var j := 0;
      while j < |problems|
        invariant 0 <= j <= |problems|
        invariant problemTypes == Flatten(t[..i]) + Entries(category, problems[..j])
      {
        assert problems[..j + 1][..j] == problems[..j];
        problemTypes := problemTypes + [ProblemType(problems[j].1, problems[j].0, category)];
        j := j + 1;
      }
      assert problems[..j] == problems;
      assert t[..i + 1][..i] == t[..i];
      i := i + 1;
    }
    assert t[..i] == t;
  }

  /** Entry j of a category is its j-th problem, with code, name and category in place. */
  lemma {:induction false} EntriesAt(category: string, problems: seq<(string, string)>, j: int)
    requires 0 <= j < |problems|
    ensures |Entries(category, problems)| == |problems|
    ensures Entries(category, problems)[j] == ProblemType(problems[j].1, problems[j].0, category)
    decreases |problems|
  {
    var init := problems[..|problems| - 1];
    if j < |problems| - 1 {
      EntriesAt(category, init, j);
    } else if init != [] {
      EntriesAt(category, init, 0);
    }
  }

  /** Flattening keeps every pair: no entry is dropped, so duplicate codes stay. */
  lemma {:induction false} FlattenLength(t: ProblemTable)
    ensures |Flatten(t)| == TotalProblems(t)
  {
    if t != [] {
      var last := t[|t| - 1];
      FlattenLength(t[..|t| - 1]);
      if last.1 != [] {
        EntriesAt(last.0, last.1, 0);
      }
    }
  }

  /** Flattening the first i categories gives a prefix of flattening them all. */
  lemma {:induction false} FlattenPrefix(t: ProblemTable, i: int)
    requires 0 <= i <= |t|
    ensures |Flatten(t[..i])| <= |Flatten(t)|
    ensures Flatten(t)[..|Flatten(t[..i])|] == Flatten(t[..i])
  {
    if i < |t| {
      var init := t[..|t| - 1];
      assert init[..i] == t[..i];
      FlattenPrefix(init, i);
    } else {
      assert t[..i] == t;
    }
  }

  /** Problem j of category i is found at position (problems before category i) + j. */
  lemma FlattenAt(t: ProblemTable, i: int, j: int)
    requires 0 <= i < |t| && 0 <= j < |t[i].1|
    ensures TotalProblems(t[..i]) + j < |Flatten(t)|
    ensures Flatten(t)[TotalProblems(t[..i]) + j] == ProblemType(t[i].1[j].1, t[i].1[j].0, t[i].0)
  {
    var upto := t[..i + 1];
    assert upto[..i] == t[..i];
    assert Flatten(upto) == Flatten(t[..i]) + Entries(t[i].0, t[i].1);
    FlattenLength(t[..i]);
    EntriesAt(t[i].0, t[i].1, j);
    FlattenPrefix(t, i + 1);
  }

  /** The problem-type table the dashboard ships with. */
  const OPTIONS: ProblemTable := [
    ("Municipal Complaints", [
      ("Garbage Problem", "0001"),
      ("Broken Roads", "0002"),
      ("Dust problem", "0011"),
      ("Bad Quality material in construction", "0006"),
      ("Open Manhole", "0007"),
      ("Request garbage bin", "0008"),
      ("Unfinished Constructions", "0009"),
      ("Unhygienic public toilets", "0010"),
      ("Dust problem ", "0011"),
      ("Illegal public Advertisement", "0012")]),
    ("Water-related Complaints", [
      ("Sewer overflowing", "1001"),
      ("Water logging", "1002"),
      ("Need water pipeline", "1003")]),
    ("Electricity-Related Complaints", [
      ("No Streetlights (residential area)", "2001"),
      ("Frequent Power Cuts", "2002")]),
    ("Hospital related", [
      ("No beds in Hospitals", "3001"),
      ("Unhygienic conditions", "3002")]),
    ("Education and school related", [
      ("Broken School buildings", "4001"),
      ("Broken Desks", "4002"),
      ("Unhygienic toilets", "4004")]),
    ("Happening for good", [
      ("Cleanliness drives by NGOs", "-100"),
      ("Schools taking initiative", "-101")]),
    ("Protests", [
      ("Justice for Maumita and Women Safety", "P10001")]),
    ("District Specific", [
      ("Nal jal Yojna", "5001")])
  ]

  /** The shipped table has eight categories and twenty-four problems, and the dropdown lists every one. */
  lemma OptionsListEveryProblem()
    ensures |OPTIONS| == 8
    ensures |Flatten(OPTIONS)| == TotalProblems(OPTIONS) == 24
  {
    var k := 0;
    while k < 8
      invariant 0 <= k <= 8
      invariant TotalProblems(OPTIONS[..k]) == [0, 10, 13, 15, 17, 20, 22, 23, 24][k]
    {
      assert OPTIONS[..k + 1][..k] == OPTIONS[..k];
      k := k + 1;
    }
    assert OPTIONS[..8] == OPTIONS;
    FlattenLength(OPTIONS);
  }

  /** In the shipped table, two differently spelled problems share code 0011 and both are listed. */
  lemma OptionsKeepDuplicateCode()
    ensures |Flatten(OPTIONS)| > 8
    ensures Flatten(OPTIONS)[2] == ProblemType("0011", "Dust problem", "Municipal Complaints")
    ensures Flatten(OPTIONS)[8] == ProblemType("0011", "Dust problem ", "Municipal Complaints")
  {
    assert OPTIONS[..0] == [];
    FlattenAt(OPTIONS, 0, 2);
    FlattenAt(OPTIONS, 0, 8);
  }
}
