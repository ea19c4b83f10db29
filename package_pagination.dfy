/** The pagination plugin of the package (`packages/boring-table-core/src/plugins/pagination.ts`).
    It counts the rows of the table's custom body, derives the number of pages with `Math.ceil`,
    cuts the custom body down to the current page, and moves between pages within bounds. */
module PackagePagination {
  import opened Wrappers
  import opened Values
  import opened Seqs
  import opened Events
  import PluginBase
  import opened PackageHost

  /** `page >= totalPages`: never true against `Infinity` or `NaN`. */
  predicate AtOrPastLast(page: int, c: PageCount) {
    c.Pages? && page >= c.n
  }

  /** The page `nextPage` moves to. */
  function NextOf(page: int, c: PageCount): int {
    if AtOrPastLast(page, c) then page else page + 1
  }

  /** The page `prevPage` moves to. */
  function PrevOf(page: int): int {
    if page <= 1 then page else page - 1
  }

  /** The page `setPage(p)` leaves. */
  function SetOf(page: int, p: int, c: PageCount): int {
    if p < 1 || PastLast(p, c) then page else p
  }

  /** With a finite count, none of the three moves leaves the range `1..totalPages`. */
  lemma MovesStayInRange(page: int, p: int, n: nat)
    requires 1 <= page <= n
    ensures 1 <= NextOf(page, Pages(n)) <= n
    ensures 1 <= PrevOf(page) <= n
    ensures 1 <= SetOf(page, p, Pages(n)) <= n
  {
  }

  /** Each move goes exactly one page, or to the page asked for, unless it would leave the range;
      then it stays. */
  lemma MovesAreBounded(page: int, p: int, c: PageCount)
    ensures NextOf(page, c) == page + 1 <==> !AtOrPastLast(page, c)
    ensures NextOf(page, c) == page <==> AtOrPastLast(page, c)
    ensures PrevOf(page) == page - 1 <==> page > 1
    ensures SetOf(page, p, c) == p <==> (1 <= p && !PastLast(p, c)) || p == page
  {
  }

  /** Stepping forward from a page before the last and back again returns to it, and so does
      stepping back from a page after the first and forward again. */
  lemma NextPrevRoundTrip(page: int, c: PageCount)
    ensures page >= 1 && !AtOrPastLast(page, c) ==> PrevOf(NextOf(page, c)) == page
    ensures page > 1 && c.Pages? && page <= c.n ==> NextOf(PrevOf(page), c) == page
  {
  }

  /** Asking for the page one is on changes nothing, and so does asking twice. */
  lemma SetPageIdempotent(page: int, p: int, c: PageCount)
    ensures SetOf(page, page, c) == page
    ensures SetOf(SetOf(page, p, c), p, c) == SetOf(page, p, c)
  {
  }

  /** The plugin's keys in `extend()` and in the table's extensions. */
  const PaginationKeys: set<string> :=
    {"page", "pageSize", "totalItems", "totalPages", "nextPage", "prevPage", "setPage", "fistPage", "lastPage"}

  class PaginationPlugin {
    /** `BASE_PRIORITIES.SHOULD_BE_LAST`. */
    const priority: int
    var table: Table?
    var page: int
    var pageSize: nat
    var totalPages: PageCount
    var totalItems: nat

    /** The options `page` and `pageSize` replace the defaults 1 and 0 only when given and not 0. */
    constructor (optPage: Option<int>, optPageSize: Option<nat>)
      ensures priority == PluginBase.ShouldBeLast && table == null
      ensures page == if optPage.Some? && optPage.value != 0 then optPage.value else 1
      ensures pageSize == if optPageSize.Some? then optPageSize.value else 0
      ensures totalPages == Pages(0) && totalItems == 0
    {
      priority := PluginBase.ShouldBeLast;
      table := null;
      page := if optPage.Some? && optPage.value != 0 then optPage.value else 1;
      pageSize := if optPageSize.Some? && optPageSize.value != 0 then optPageSize.value else 0;
      totalPages := Pages(0);
      totalItems := 0;
    }

    /** `configure(table)`: keeps the table and contributes nothing. */
    method Configure(t: Table) returns (r: Bag)
      modifies this`table
      ensures table == t && r == map[]
    {
      table := t;
      r := map[];
    }

    /** The two events every page move dispatches: `update:custom-body`, then `update:extensions`. */
    method AnnounceMove()
      requires table != null
      modifies table.log
      ensures table.log.entries == old(table.log.entries) + [(UpdateCustomBody, Undefined), (UpdateExtensions, Undefined)]
    {
      table.Dispatch(UpdateCustomBody, Undefined);
      table.Dispatch(UpdateExtensions, Undefined);
    }

    /** `nextPage()`: one page on, announced, unless the page is at or past the last. */
    method NextPage()
      requires table != null
      modifies this`page, table.log
      ensures page == NextOf(old(page), totalPages)
      ensures table.log.entries ==
                if AtOrPastLast(old(page), totalPages) then old(table.log.entries)
                else old(table.log.entries) + [(UpdateCustomBody, Undefined), (UpdateExtensions, Undefined)]
    {
      if AtOrPastLast(page, totalPages) {
        return;
      }
      page := page + 1;
      AnnounceMove();
    }

    /** `prevPage()`: one page back, announced, unless the page is the first or before it. */
    method PrevPage()
      requires table != null
      modifies this`page, table.log
      ensures page == PrevOf(old(page))
      ensures table.log.entries ==
                if old(page) <= 1 then old(table.log.entries)
                else old(table.log.entries) + [(UpdateCustomBody, Undefined), (UpdateExtensions, Undefined)]
    {
      if page <= 1 {
        return;
      }
      page := page - 1;
      AnnounceMove();
    }

    /** `setPage(p)`: the page becomes `p`, announced, unless `p` lies outside `1..totalPages`. */
    method SetPage(p: int)
      requires table != null
      modifies this`page, table.log
      ensures page == SetOf(old(page), p, totalPages)
      ensures table.log.entries ==
                if p < 1 || PastLast(p, totalPages) then old(table.log.entries)
                else old(table.log.entries) + [(UpdateCustomBody, Undefined), (UpdateExtensions, Undefined)]
    {
      if p < 1 || PastLast(p, totalPages) {
        return;
      }
      page := p;
      AnnounceMove();
    }

    /** `fistPage()`: `setPage(1)`. */
    method FistPage()
      requires table != null
      modifies this`page, table.log
      ensures page == SetOf(old(page), 1, totalPages)
      ensures totalPages.Pages? && totalPages.n >= 1 ==> page == 1
      ensures table.log.entries ==
                if PastLast(1, totalPages) then old(table.log.entries)
                else old(table.log.entries) + [(UpdateCustomBody, Undefined), (UpdateExtensions, Undefined)]
    {
      SetPage(1);
    }

    /** `lastPage()`: `setPage(totalPages)`, for a finite count. */
    method LastPage()
      requires table != null && totalPages.Pages?
      modifies this`page, table.log
      ensures page == SetOf(old(page), totalPages.n, totalPages)
      ensures totalPages.n >= 1 ==> page == totalPages.n
      ensures table.log.entries ==
                if totalPages.n < 1 then old(table.log.entries)
                else old(table.log.entries) + [(UpdateCustomBody, Undefined), (UpdateExtensions, Undefined)]
    {
      SetPage(totalPages.n);
    }

    /** The counting both hooks share: back to page 1 when the number of rows changed, then the
        rows are counted and the pages derived. */
    method Recount(n: nat)
      modifies this`page, this`totalItems, this`totalPages
      ensures page == if n != old(totalItems) then 1 else old(page)
      ensures totalItems == n && totalPages == CountPages(n, pageSize)
    {
      if n != totalItems {
        page := 1;
      }
      totalItems := n;
      totalPages := CountPages(totalItems, pageSize);
    }

    /** `afterCreateBodyRows()`: a page size of 0 becomes the number of custom-body rows; the rows
        are recounted; `update:extensions` and `update:custom-body` follow. */
    method AfterCreateBodyRows() returns (r: Bag)
      requires table != null
      modifies this`page, this`pageSize, this`totalItems, this`totalPages, table.log
      ensures pageSize == if old(pageSize) == 0 then |table.customBody| else old(pageSize)
      ensures page == if |table.customBody| != old(totalItems) then 1 else old(page)
      ensures totalItems == |table.customBody| && totalPages == CountPages(totalItems, pageSize)
      ensures table.log.entries == old(table.log.entries) + [(UpdateExtensions, Undefined), (UpdateCustomBody, Undefined)]
      ensures r == map[]
    {
      if pageSize == 0 {
        pageSize := |table.customBody|;
      }
      Recount(|table.customBody|);
      table.Dispatch(UpdateExtensions, Undefined);
      table.Dispatch(UpdateCustomBody, Undefined);
      r := map[];
    }

    /** `onUpdateCustomBody()`: the rows are recounted, the custom body is cut down to the current
        page, and `update:extensions` follows. */
    method OnUpdateCustomBody()
      requires table != null
      modifies this`page, this`totalItems, this`totalPages, table`customBody, table.log
      ensures page == if |old(table.customBody)| != old(totalItems) then 1 else old(page)
      ensures totalItems == |old(table.customBody)| && totalPages == CountPages(totalItems, pageSize)
      ensures table.customBody == Window(old(table.customBody), page, pageSize)
      ensures table.log.entries == old(table.log.entries) + [(UpdateExtensions, Undefined)]
    {
      Recount(|table.customBody|);
      table.customBody := JsSlice(table.customBody, (page - 1) * pageSize, page * pageSize);
      table.Dispatch(UpdateExtensions, Undefined);
    }

    /** `extend()`: the counters as they are now and the five moves. */
    function Extension(): (r: Bag)
      reads this
      ensures r.Keys == PaginationKeys
      ensures r["page"] == Num(page) && r["pageSize"] == Num(pageSize) && r["totalItems"] == Num(totalItems)
      ensures r["totalPages"] == CountValue(totalPages)
      ensures forall k :: k in PaginationKeys - {"page", "pageSize", "totalItems", "totalPages"} ==> r[k].Opaque?
    {
      map["page" := Num(page), "pageSize" := Num(pageSize), "totalItems" := Num(totalItems),
          "totalPages" := CountValue(totalPages), "nextPage" := Opaque(0), "prevPage" := Opaque(1),
          "setPage" := Opaque(2), "fistPage" := Opaque(3), "lastPage" := Opaque(4)]
    }

    /** `onUpdateExtensions(extensions)`: `Object.assign` writes the plugin's keys over the
        extensions and keeps every other key. */
    function AssignedExtensions(extensions: Bag): (r: Bag)
      reads this
      ensures r.Keys == extensions.Keys + PaginationKeys
      ensures forall k :: k in PaginationKeys ==> r[k] == Extension()[k]
      ensures forall k :: k in extensions && k !in PaginationKeys ==> r[k] == extensions[k]
    {
      extensions + Extension()
    }
  }

  /** The cut-down custom body holds at most a page of rows, the consecutive rows from the page's
      offset on; it is empty exactly when the page lies past the last. */
  lemma PageFits(rows: seq<RowObject>, page: int, size: nat)
    requires page >= 1 && size > 0
    ensures var w := Window(rows, page, size);
            |w| <= size && (w != [] <==> !PastLast(page, CountPages(|rows|, size))) &&
            forall k :: 0 <= k < |w| ==> 0 <= (page - 1) * size + k < |rows| && w[k] == rows[(page - 1) * size + k]
  {
    MulMonotone(0, page - 1, size);
    WindowContents(rows, page, size);
  }

  /** Without a page size the page is always empty, whatever the page. */
  lemma NoSizeNoRows(rows: seq<RowObject>, page: int)
    ensures Window(rows, page, 0) == []
  {
  }

  /** With `NaN` pages (no rows and no page size) `nextPage` never stops: it moves from page 1 to
      page 2 although there is no page at all. */
  lemma NotANumberNeverStops()
    ensures CountPages(0, 0) == NotANumber && NextOf(1, CountPages(0, 0)) == 2
  {
  }
}
