/** Cursor pagination of the product list: filter, order, one row more than the page, and the last id. */
module Pagination {
  import opened Rows
  import opened Sorting

  type NeighborhoodId = nat
  type Category = nat

  // found: the title or the description contains every word of the search.
  datatype Listing = Listing(
    id: ProductId, price: nat, createdAt: Time, status: ProductStatus, neighborhood: NeighborhoodId,
    category: Category, found: bool)

  datatype Ordering = Latest | PriceAscending | PriceDescending

  datatype Query = Query(
    ordering: Ordering, limit: nat, neighborhoods: set<NeighborhoodId>, category: Option<Category>,
    minPrice: Option<nat>, maxPrice: Option<nat>)

  predicate Precedes(ordering: Ordering, a: Listing, b: Listing) {
    match ordering
    case Latest => a.createdAt > b.createdAt || (a.createdAt == b.createdAt && a.id > b.id)
    case PriceAscending => a.price < b.price || (a.price == b.price && a.id < b.id)
    case PriceDescending => a.price > b.price || (a.price == b.price && a.id > b.id)
  }

  function Order(ordering: Ordering): (Listing, Listing) -> bool {
    (a: Listing, b: Listing) => Precedes(ordering, a, b)
  }

  predicate Matches(query: Query, row: Listing) {
    && row.status.Active? && row.neighborhood in query.neighborhoods && row.found
    && (query.category.Some? ==> row.category == query.category.value)
    && (query.minPrice.Some? ==> query.minPrice.value <= row.price)
    && (query.maxPrice.Some? ==> row.price <= query.maxPrice.value)
  }

  ghost predicate UniqueIds(table: seq<Listing>) {
    forall i, j :: 0 <= i < j < |table| ==> table[i].id != table[j].id
  }

  function Filter(rows: seq<Listing>, keep: Listing -> bool): seq<Listing> {
    if rows == [] then [] else (if keep(rows[0]) then [rows[0]] else []) + Filter(rows[1..], keep)
  }

  // Every matching product in the chosen order.
  function Listed(table: seq<Listing>, query: Query): seq<Listing> {
    Sort(Order(query.ordering), Filter(table, (row: Listing) => Matches(query, row)))
  }

  function Find(table: seq<Listing>, id: ProductId): Option<Listing> {
    if table == [] then None else if table[0].id == id then Some(table[0]) else Find(table[1..], id)
  }

  // The rows the database returns from a cursor on: those not before the cursor's row, without the first.
  function FromCursor(table: seq<Listing>, query: Query, cursor: Option<ProductId>): seq<Listing> {
    var all := Listed(table, query);
    match cursor
    case None => all
    case Some(id) =>
      match Find(table, id)
      case None => []
      case Some(at) =>
        var rows := Filter(all, (row: Listing) => !Precedes(query.ordering, row, at));
        if rows == [] then [] else rows[1..]
  }

  function Take(rows: seq<Listing>, n: nat): seq<Listing> {
    if |rows| <= n then rows else rows[..n]
  }

  datatype Page = Page(products: seq<Listing>, nextCursor: Option<ProductId>)

  function PageOf(table: seq<Listing>, query: Query, cursor: Option<ProductId>): Page
    requires query.limit > 0
  {
    var rows := FromCursor(table, query, cursor);
    if |rows| > query.limit then Page(rows[..query.limit], Some(rows[query.limit - 1].id)) else Page(rows, None)
  }

  method List(table: seq<Listing>, query: Query, cursor: Option<ProductId>) returns (page: Page)
    requires query.limit > 0
    ensures page == PageOf(table, query, cursor)
    ensures |page.products| <= query.limit
  {
    var products := Take(FromCursor(table, query, cursor), query.limit + 1);
    var hasMore := |products| > query.limit;
    if hasMore {
      products := products[..|products| - 1];
    }
    var nextCursor := if hasMore then Some(products[|products| - 1].id) else None;
    page := Page(products, nextCursor);
  }

  // ---------- The listed sequence ----------

  lemma OrderIsStrict(ordering: Ordering)
    ensures StrictOrder(Order(ordering))
  {
  }

  lemma {:induction false} FilterKeeps(rows: seq<Listing>, keep: Listing -> bool)
    ensures forall row :: row in Filter(rows, keep) <==> row in rows && keep(row)
    ensures UniqueIds(rows) ==> UniqueIds(Filter(rows, keep))
  {
    if rows != [] {
      var rest := rows[1..];
      assert rows == [rows[0]] + rest;
      FilterKeeps(rest, keep);
      if UniqueIds(rows) {
        forall row | row in Filter(rest, keep) ensures row.id != rows[0].id {
          var k :| 0 <= k < |rest| && rest[k] == row;
          assert rows[k + 1] == row;
        }
      }
    }
  }

  lemma ListedIsSorted(table: seq<Listing>, query: Query)
    requires UniqueIds(table)
    ensures Sorted(Order(query.ordering), Listed(table, query))
    ensures forall row :: row in Listed(table, query) <==> row in table && Matches(query, row)
  {
    var rows := Filter(table, (row: Listing) => Matches(query, row));
    FilterKeeps(table, (row: Listing) => Matches(query, row));
    OrderIsStrict(query.ordering);
    assert Separates(Order(query.ordering), rows);
    SortSorts(Order(query.ordering), rows);
  }

  lemma {:induction false} FindFinds(table: seq<Listing>, row: Listing)
    requires UniqueIds(table) && row in table
    ensures Find(table, row.id) == Some(row)
  {
    var rest := table[1..];
    assert table == [table[0]] + rest;
    if table[0] == row {
    } else {
      var k :| 0 <= k < |table| && table[k] == row;
      assert rest[k - 1] == row;
      FindFinds(rest, row);
    }
  }

  // In a sorted list, the rows not before its i-th are exactly the rows from the i-th on.
  lemma {:induction false} FilterFrom(ordering: Ordering, all: seq<Listing>, i: nat)
    requires Sorted(Order(ordering), all) && i < |all|
    ensures Filter(all, (row: Listing) => !Precedes(ordering, row, all[i])) == all[i..]
    decreases i
  {
    var keep := (row: Listing) => !Precedes(ordering, row, all[i]);
    if i == 0 {
      FilterAll(all, keep);
    } else {
      assert Order(ordering)(all[0], all[i]);
      assert all[1..][i - 1] == all[i];
      FilterFrom(ordering, all[1..], i - 1);
      assert all[1..][i - 1..] == all[i..];
    }
  }

  lemma {:induction false} FilterAll(rows: seq<Listing>, keep: Listing -> bool)
    requires forall i :: 0 <= i < |rows| ==> keep(rows[i])
    ensures Filter(rows, keep) == rows
  {
    if rows != [] {
      FilterAll(rows[1..], keep);
      assert rows == [rows[0]] + rows[1..];
    }
  }

  lemma CursorContinues(table: seq<Listing>, query: Query, i: nat)
    requires UniqueIds(table) && i < |Listed(table, query)|
    ensures FromCursor(table, query, Some(Listed(table, query)[i].id)) == Listed(table, query)[i + 1..]
  {
    var all := Listed(table, query);
    ListedIsSorted(table, query);
    assert all[i] in table;
    FindFinds(table, all[i]);
    FilterFrom(query.ordering, all, i);
    assert all[i..][1..] == all[i + 1..];
  }

  // ---------- Following the cursors ----------

  // A cursor the list itself handed out, or none: its position in the listed sequence.
  ghost predicate At(table: seq<Listing>, query: Query, cursor: Option<ProductId>, i: nat) {
    i <= |Listed(table, query)| && FromCursor(table, query, cursor) == Listed(table, query)[i..]
  }

  lemma NextIsAt(table: seq<Listing>, query: Query, cursor: Option<ProductId>, i: nat)
    requires UniqueIds(table) && query.limit > 0 && At(table, query, cursor, i)
    ensures var page := PageOf(table, query, cursor);
            if page.nextCursor.Some? then
              && i + query.limit < |Listed(table, query)| && At(table, query, page.nextCursor, i + query.limit)
              && page.products == Listed(table, query)[i..i + query.limit]
            else page.products == Listed(table, query)[i..]
  {
    var all := Listed(table, query);
    if |all[i..]| > query.limit {
      assert all[i..][query.limit - 1] == all[i + query.limit - 1];
      assert all[i..][..query.limit] == all[i..i + query.limit];
      CursorContinues(table, query, i + query.limit - 1);
    }
  }

  // The pages a client sees that follows the cursors to the end.
  ghost function Pages(table: seq<Listing>, query: Query, cursor: Option<ProductId>, i: nat): seq<Page>
    requires UniqueIds(table) && query.limit > 0 && At(table, query, cursor, i)
    decreases |Listed(table, query)| - i
  {
    NextIsAt(table, query, cursor, i);
    var page := PageOf(table, query, cursor);
    if page.nextCursor.Some? then [page] + Pages(table, query, page.nextCursor, i + query.limit) else [page]
  }

  ghost function Shown(pages: seq<Page>): seq<Listing> {
    if pages == [] then [] else pages[0].products + Shown(pages[1..])
  }

  // The first page, and the pages after it.
  lemma NextPages(table: seq<Listing>, query: Query, cursor: Option<ProductId>, i: nat)
    requires UniqueIds(table) && query.limit > 0 && At(table, query, cursor, i)
    ensures var page := PageOf(table, query, cursor);
            var pages, all := Pages(table, query, cursor, i), Listed(table, query);
            if page.nextCursor.Some? then
              && i + query.limit < |all| && At(table, query, page.nextCursor, i + query.limit)
              && pages == [page] + Pages(table, query, page.nextCursor, i + query.limit)
              && page.products + all[i + query.limit..] == all[i..]
            else pages == [page] && i <= |all| <= i + query.limit && page.products == all[i..]
  {
    hide Listed, FromCursor;
    NextIsAt(table, query, cursor, i);
  }

  lemma ShownFirst(page: Page, pages: seq<Page>)
    ensures Shown([page] + pages) == page.products + Shown(pages)
  {
    assert ([page] + pages)[1..] == pages;
  }

  lemma {:induction false} PagesShowTheRest(table: seq<Listing>, query: Query, cursor: Option<ProductId>, i: nat)
    requires UniqueIds(table) && query.limit > 0 && At(table, query, cursor, i)
    ensures i <= |Listed(table, query)| && Shown(Pages(table, query, cursor, i)) == Listed(table, query)[i..]
    decreases |Listed(table, query)| - i
  {
    hide Pages, At, PageOf, Listed, UniqueIds;
    NextPages(table, query, cursor, i);
    var page := PageOf(table, query, cursor);
    if page.nextCursor.Some? {
      PagesShowTheRest(table, query, page.nextCursor, i + query.limit);
      ShownFirst(page, Pages(table, query, page.nextCursor, i + query.limit));
    } else {
      ShownFirst(page, []);
      assert [page] + [] == [page];
    }
  }

  // The least number of pages that hold so many rows; an empty list still has its one page.
  predicate LeastPages(pages: nat, limit: nat, rows: nat) {
    if rows == 0 then pages == 1 else pages >= 1 && (pages - 1) * limit < rows <= pages * limit
  }

  lemma OnePage(limit: nat, rows: nat)
    requires rows <= limit
    ensures LeastPages(1, limit, rows)
  {
  }

  lemma OneMorePage(more: nat, limit: nat, rows: nat)
    requires limit < rows && LeastPages(more, limit, rows - limit)
    ensures LeastPages(more + 1, limit, rows)
  {
    assert more * limit == (more - 1) * limit + limit && (more + 1) * limit == more * limit + limit;
  }

  lemma {:induction false} PageCount(table: seq<Listing>, query: Query, cursor: Option<ProductId>, i: nat)
    requires UniqueIds(table) && query.limit > 0 && At(table, query, cursor, i)
    ensures i <= |Listed(table, query)|
    ensures LeastPages(|Pages(table, query, cursor, i)|, query.limit, |Listed(table, query)| - i)
    decreases |Listed(table, query)| - i
  {
    hide Pages, At, PageOf, Listed, UniqueIds, LeastPages;
    NextPages(table, query, cursor, i);
    var next := PageOf(table, query, cursor).nextCursor;
    var rows := |Listed(table, query)| - i;
    if next.Some? {
      PageCount(table, query, next, i + query.limit);
      OneMorePage(|Pages(table, query, next, i + query.limit)|, query.limit, rows);
    } else {
      OnePage(query.limit, rows);
    }
  }

  // On a fixed table, for every filter, order and page size: following the cursors from the start shows
  // every matching product exactly once, in order, and stops after the least number of pages that hold them.
  lemma PaginationIsComplete(table: seq<Listing>, query: Query)
    requires UniqueIds(table) && query.limit > 0
    ensures At(table, query, None, 0)
    ensures var shown := Shown(Pages(table, query, None, 0));
            && LeastPages(|Pages(table, query, None, 0)|, query.limit, |shown|)
            && (forall row :: row in shown <==>
                  && row in table && row.status.Active? && row.neighborhood in query.neighborhoods && row.found
                  && (query.category.Some? ==> row.category == query.category.value)
                  && (query.minPrice.Some? ==> row.price >= query.minPrice.value)
                  && (query.maxPrice.Some? ==> row.price <= query.maxPrice.value))
            && forall i, j :: 0 <= i < j < |shown| ==>
                 && (query.ordering.Latest? ==>
                       shown[i].createdAt > shown[j].createdAt
                       || (shown[i].createdAt == shown[j].createdAt && shown[i].id > shown[j].id))
                 && (query.ordering.PriceAscending? ==>
                       shown[i].price < shown[j].price || (shown[i].price == shown[j].price && shown[i].id < shown[j].id))
                 && (query.ordering.PriceDescending? ==>
                       shown[i].price > shown[j].price || (shown[i].price == shown[j].price && shown[i].id > shown[j].id))
  {
    assert Listed(table, query)[0..] == Listed(table, query);
    hide Pages, Listed, UniqueIds;
    PagesShowTheRest(table, query, None, 0);
    PageCount(table, query, None, 0);
    ListedIsSorted(table, query);
    var shown := Shown(Pages(table, query, None, 0));
    forall i, j | 0 <= i < j < |shown| ensures Precedes(query.ordering, shown[i], shown[j]) {
      assert Order(query.ordering)(shown[i], shown[j]);
    }
  }
}
