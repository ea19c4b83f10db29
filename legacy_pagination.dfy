/** The pagination plugin of the older engine (`src/plugins/pagination.ts`). It counts the items
    or body rows, derives the number of pages with `Math.ceil`, keeps the rows of the current
    page as `page`, and announces every change with `update:extensions`. */
module LegacyPagination {
  import opened Wrappers
  import opened Values
  import opened Seqs
  import opened LegacyRows
  import opened LegacyTable

  /** The keys `extend` returns and `onUpdateExtensions` assigns. */
  const PaginationKeys: set<string> :=
    {"setPage", "nextPage", "prevPage", "currentPage", "totalPages", "totalItems", "pageSize", "page"}

  function RowObjects(rows: seq<Row>): seq<Value> {
    seq(|rows|, i requires 0 <= i < |rows| => Obj(rows[i].Object()))
  }

  /** `page < totalPages`: always true against `Infinity`, never against `NaN`. */
  predicate Below(page: int, c: PageCount) {
    match c
    case Pages(n) => page < n
    case Infinite => true
    case NotANumber => false
  }

  /** A page between 1 and a finite page count. */
  predicate InRange(page: int, c: PageCount) {
    c.Pages? && 1 <= page <= c.n
  }

  class PaginationPlugin {
    /** `priority = 100`. */
    const priority: int
    /** Any natural number; with 0 the page count is `Infinity`, or `NaN` without items. */
    const pageSize: nat
    var table: BoringTable?
    var currentPage: int
    var total: nat
    var totalPages: PageCount
    var page: seq<Row>

    constructor (pageSize: nat)
      ensures priority == 100 && this.pageSize == pageSize
      ensures table == null && currentPage == 1 && total == 0 && totalPages == Pages(0) && page == []
    {
      priority := 100;
      this.pageSize := pageSize;
      table := null;
      currentPage := 1;
      total, totalPages := 0, Pages(0);
      page := [];
    }

    /** `configure(table)`: throws without a table; otherwise counts the table's items. */
    method Configure(t: BoringTable?) returns (r: Bag, thrown: bool)
      modifies this
      ensures thrown <==> t == null
      ensures thrown ==> table == old(table) && total == old(total) && totalPages == old(totalPages)
      ensures !thrown ==> table == t && total == t.data.Length && totalPages == CountPages(t.data.Length, pageSize)
      ensures currentPage == old(currentPage) && page == old(page) && r == map[]
    {
      r := map[];
      thrown := t == null;
      if thrown {
        return;
      }
      table := t;
      total := t.data.Length;
      totalPages := CountPages(total, pageSize);
    }

    /** `updatePage(rows)`: the current page of `rows`, or of the table's body rows when no rows
        are given, then `update:extensions`. */
    method UpdatePage(rows: Option<seq<Row>>)
      modifies this, table
      requires table != null && table.Valid()
      ensures table == old(table) && currentPage == old(currentPage)
      ensures total == old(total) && totalPages == old(totalPages)
      ensures page == Window(if rows.Some? then rows.value else old(table.body), currentPage, pageSize)
      ensures table.Valid() && table.events == Append(old(table.events), UpdateExtensions, Undefined)
      ensures table.data == old(table.data) && table.Current() == old(table.Current())
    {
      var start := (currentPage - 1) * pageSize;
      var end := currentPage * pageSize;
      page := JsSlice(if rows.Some? then rows.value else table.body, start, end);
      table.Dispatch(UpdateExtensions, Undefined);
    }

    /** `onUpdateData(data)`: recounts from `data`, falls back to the first page when the
        current one no longer exists, and re-slices the body. */
    method OnUpdateData(data: seq<Value>)
      modifies this, table
      requires table != null && table.Valid()
      ensures total == |data| && totalPages == CountPages(|data|, pageSize)
      ensures currentPage == if PastLast(old(currentPage), totalPages) then 1 else old(currentPage)
      ensures page == Window(old(table.body), currentPage, pageSize)
      ensures table == old(table) && table.Valid() && table.events == Append(old(table.events), UpdateExtensions, Undefined)
      ensures table.data == old(table.data) && table.Current() == old(table.Current())
    {
      total := |data|;
      totalPages := CountPages(total, pageSize);
      if PastLast(currentPage, totalPages) {
        currentPage := 1;
      }
      UpdatePage(None);
    }

    /** `afterCreateBodyRows(rows)`: recounts from the table's body (not from `rows`) and slices
        the current page out of `rows`, or out of the body when none are given. */
    method AfterCreateBodyRows(rows: Option<seq<Row>>)
      modifies this, table
      requires table != null && table.Valid()
      ensures total == |old(table.body)| && totalPages == CountPages(total, pageSize) && currentPage == old(currentPage)
      ensures page == Window(if rows.Some? then rows.value else old(table.body), currentPage, pageSize)
      ensures table == old(table) && table.Valid() && table.events == Append(old(table.events), UpdateExtensions, Undefined)
      ensures table.data == old(table.data) && table.Current() == old(table.Current())
    {
      total := |table.body|;
      totalPages := CountPages(total, pageSize);
      UpdatePage(rows);
    }

    /** `onUpdateBodyRows()`, `onUpdateBodyRow()` and `onUpdateBodyCell()`: each only announces
        `update:extensions`. */
    method OnUpdateBody()
      modifies table
      requires table != null && table.Valid()
      ensures table.Valid() && table.events == Append(old(table.events), UpdateExtensions, Undefined)
      ensures table.data == old(table.data) && table.Current() == old(table.Current())
    {
      table.Dispatch(UpdateExtensions, Undefined);
    }

    /** `setPage(page)`: takes any number as the current page, without a bounds check. */
    method SetPage(p: int)
      modifies this, table
      requires table != null && table.Valid()
      ensures currentPage == p && total == old(total) && totalPages == old(totalPages)
      ensures page == Window(old(table.body), p, pageSize)
      ensures table == old(table) && table.Valid()
      ensures table.events == Append(Append(old(table.events), UpdateExtensions, Undefined), UpdateExtensions, Undefined)
      ensures table.data == old(table.data) && table.Current() == old(table.Current())
    {
      currentPage := p;
      UpdatePage(None);
      table.Dispatch(UpdateExtensions, Undefined);
    }

    /** `setPage` as evidently intended, and as the newer plugin does it: a page outside
        `1..totalPages` is ignored. */
    method SetPageChecked(p: int)
      modifies this, table
      requires table != null && table.Valid()
      ensures currentPage == if 1 <= p && !PastLast(p, totalPages) then p else old(currentPage)
      ensures InRange(old(currentPage), totalPages) ==> InRange(currentPage, totalPages)
      ensures total == old(total) && totalPages == old(totalPages) && table == old(table) && table.Valid()
      ensures 1 <= p && !PastLast(p, totalPages) ==> page == Window(old(table.body), p, pageSize)
      ensures !(1 <= p && !PastLast(p, totalPages)) ==> page == old(page) && table.events == old(table.events)
      ensures table.data == old(table.data) && table.Current() == old(table.Current())
    {
      if 1 <= p && !PastLast(p, totalPages) {
        SetPage(p);
      }
    }

    /** `nextPage()`: moves one page on, unless the current page is the last. */
    method NextPage()
      modifies this, table
      requires table != null && table.Valid()
      ensures currentPage == if Below(old(currentPage), totalPages) then old(currentPage) + 1 else old(currentPage)
      ensures InRange(old(currentPage), totalPages) ==> InRange(currentPage, totalPages)
      ensures total == old(total) && totalPages == old(totalPages) && table == old(table) && table.Valid()
      ensures Below(old(currentPage), totalPages) ==> page == Window(old(table.body), currentPage, pageSize)
      ensures !Below(old(currentPage), totalPages) ==> page == old(page) && table.events == old(table.events)
      ensures table.data == old(table.data) && table.Current() == old(table.Current())
    {
      if Below(currentPage, totalPages) {
        currentPage := currentPage + 1;
        UpdatePage(None);
        table.Dispatch(UpdateExtensions, Undefined);
      }
    }

    /** `prevPage()`: moves one page back, unless the current page is the first. */
    method PrevPage()
      modifies this, table
      requires table != null && table.Valid()
      ensures currentPage == if old(currentPage) > 1 then old(currentPage) - 1 else old(currentPage)
      ensures InRange(old(currentPage), totalPages) ==> InRange(currentPage, totalPages)
      ensures total == old(total) && totalPages == old(totalPages) && table == old(table) && table.Valid()
      ensures old(currentPage) > 1 ==> page == Window(old(table.body), currentPage, pageSize)
      ensures old(currentPage) <= 1 ==> page == old(page) && table.events == old(table.events)
      ensures table.data == old(table.data) && table.Current() == old(table.Current())
    {
      if currentPage > 1 {
        currentPage := currentPage - 1;
        UpdatePage(None);
        table.Dispatch(UpdateExtensions, Undefined);
      }
    }

    /** `extend()`: the three setters as closures, and the counters and page as they are now. */
    function Extension(): (r: Bag)
      reads this
      ensures r.Keys == PaginationKeys
      ensures r["currentPage"] == Num(currentPage) && r["totalPages"] == CountValue(totalPages)
      ensures r["totalItems"] == Num(total) && r["pageSize"] == Num(pageSize)
      ensures r["page"] == Arr(RowObjects(page))
    {
      map["setPage" := Opaque(0), "nextPage" := Opaque(1), "prevPage" := Opaque(2),
          "currentPage" := Num(currentPage), "totalPages" := CountValue(totalPages), "totalItems" := Num(total),
          "pageSize" := Num(pageSize), "page" := Arr(RowObjects(page))]
    }

    /** `onUpdateExtensions(extensions)`: `Object.assign` writes the plugin's keys over the
        table's extensions and keeps every other key. */
    function AssignedExtensions(extensions: Bag): (r: Bag)
      reads this
      ensures r.Keys == extensions.Keys + PaginationKeys
      ensures forall k :: k in PaginationKeys ==> r[k] == Extension()[k]
      ensures forall k :: k in extensions && k !in PaginationKeys ==> r[k] == extensions[k]
    {
      extensions + Extension()
    }
  }

  /** A page counted from 1 holds at most `pageSize` consecutive rows, and it has rows exactly
      when it is one of the `totalPages` pages of the rows it was cut from. */
  lemma PageFits(rows: seq<Row>, currentPage: int, pageSize: nat)
    requires currentPage >= 1 && pageSize > 0
    ensures var w := Window(rows, currentPage, pageSize);
            |w| <= pageSize && (w != [] <==> currentPage <= CeilDiv(|rows|, pageSize)) &&
            forall k :: 0 <= k < |w| ==> 0 <= (currentPage - 1) * pageSize + k < |rows| && w[k] == rows[(currentPage - 1) * pageSize + k]
  {
    WindowContents(rows, currentPage, pageSize);
    MulMonotone(0, currentPage - 1, pageSize);
  }

  /** The pages `1..ceil(n / pageSize)` cover the rows: every row lies on the page its position
      gives it. */
  lemma EveryRowOnItsPage(rows: seq<Row>, pageSize: nat, i: nat)
    requires i < |rows| && pageSize > 0
    ensures var p := i / pageSize + 1;
            1 <= p <= CeilDiv(|rows|, pageSize) && i - (p - 1) * pageSize < |Window(rows, p, pageSize)| &&
            Window(rows, p, pageSize)[i - (p - 1) * pageSize] == rows[i]
  {
    var q := i / pageSize;
    var p := q + 1;
    DivBounds(i, pageSize);
    assert (p - 1) * pageSize == q * pageSize;
    PageInRange(p, pageSize, |rows|);
    NextPageOffset(p, pageSize);
    SliceFrom(rows, q * pageSize, pageSize);
  }

  lemma DivBounds(i: nat, n: nat)
    requires n > 0
    ensures (i / n) * n <= i < (i / n) * n + n
  {
  }

  /** `setPage(-1)` over three rows with one row per page does not show an empty page: the
      negative `slice` bounds count from the end, and the page holds the middle row. */
  lemma NegativePageCountsFromEnd(rows: seq<Row>)
    requires |rows| == 3
    ensures Window(rows, -1, 1) == [rows[1]]
  {
  }

  /** With a page size of 0 every page is empty. The page count is `Infinity` when there are
      items, so `nextPage` always moves on, and `NaN` without items, so it never does; and
      `onUpdateData` never falls back to the first page. */
  lemma ZeroPageSize(rows: seq<Row>, page: int, items: nat)
    ensures Window(rows, page, 0) == []
    ensures CountPages(items, 0) == (if items > 0 then Infinite else NotANumber)
    ensures Below(page, CountPages(items, 0)) <==> items > 0
    ensures !PastLast(page, CountPages(items, 0))
  {
  }
}
