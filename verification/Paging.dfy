/** Filtered pages: the repository's get_all, the list endpoint's page arithmetic and the Go lists' parameters. */
module Paging {
  import opened Wrappers
  import opened Rows

  // ----- get_all

  /** A row passes when it satisfies every filter that has a value. */
  function Selected<T(!new)>(filters: seq<Option<T -> bool>>): T -> bool {
    (x: T) => forall i :: 0 <= i < |filters| && filters[i].Some? ==> filters[i].value(x)
  }

  /** A conjunction of WHERE clauses. */
  function Where<T(!new)>(conditions: seq<T -> bool>): T -> bool {
    (x: T) => forall i :: 0 <= i < |conditions| ==> conditions[i](x)
  }

  /**
   Builds the page query and the count query side by side. The count is sent first and reads the table as it is by
   then, `counted`; the page reads it as it is after that, `rows`. On a table at rest the two are one.
   */
  method GetAll<T(!new)>(counted: seq<T>, rows: seq<T>, skip: nat, limit: nat, filters: seq<Option<T -> bool>>)
    returns (items: seq<T>, total: nat)
    ensures total == |Filter(Selected(filters), counted)|
    ensures items == Slice(Filter(Selected(filters), rows), skip, limit)
  {
    var query: seq<T -> bool>, countQuery: seq<T -> bool> := [], [];
    for i := 0 to |filters|
      invariant forall x: T :: Where(query)(x) <==> Selected(filters[..i])(x)
      invariant forall x: T :: Where(countQuery)(x) <==> Selected(filters[..i])(x)
    {
      if filters[i].Some? {
        ghost var before, countBefore := query, countQuery;
        query := query + [filters[i].value];
        countQuery := countQuery + [filters[i].value];
        WhereMore(before, filters[i].value);
        WhereMore(countBefore, filters[i].value);
      }
      SelectedMore(filters, i);
    }
    assert filters[..|filters|] == filters;
    FilterAgree(Where(query), Selected(filters), rows);
    FilterAgree(Where(countQuery), Selected(filters), counted);
    total := |Filter(Where(countQuery), counted)|;
    items := Slice(Filter(Where(query), rows), skip, limit);
  }

  lemma WhereMore<T(!new)>(conditions: seq<T -> bool>, c: T -> bool)
    ensures forall x: T :: Where(conditions + [c])(x) <==> Where(conditions)(x) && c(x)
  {
    forall x: T ensures Where(conditions + [c])(x) <==> Where(conditions)(x) && c(x) {
      var more := conditions + [c];
      if Where(more)(x) {
        assert more[|conditions|] == c;
        forall i | 0 <= i < |conditions| ensures conditions[i](x) { assert more[i] == conditions[i]; }
      }
    }
  }

  lemma SelectedMore<T(!new)>(filters: seq<Option<T -> bool>>, i: nat)
    requires i < |filters|
    ensures forall x: T :: Selected(filters[..i + 1])(x)
              <==> Selected(filters[..i])(x) && (filters[i].Some? ==> filters[i].value(x))
  {
    forall x: T
      ensures Selected(filters[..i + 1])(x) <==> Selected(filters[..i])(x) && (filters[i].Some? ==> filters[i].value(x))
    {
      var more := filters[..i + 1];
      assert more[i] == filters[i];
      forall k | 0 <= k < i ensures more[k] == filters[..i][k] {}
      if Selected(more)(x) {
        forall k | 0 <= k < i && filters[..i][k].Some? ensures filters[..i][k].value(x) { assert more[k].Some?; }
      }
    }
  }

  // ----- the list endpoint

  datatype Page<T> = Page(items: seq<T>, total: nat, page: nat, pageSize: nat, hasMore: bool)

  function PageNumber(skip: nat, limit: nat): nat
    requires limit >= 1
  {
    skip / limit + 1
  }

  function PageOf<T>(found: seq<T>, total: nat, skip: nat, limit: nat): Page<T>
    requires limit >= 1
  {
    Page(Slice(found, skip, limit), total, PageNumber(skip, limit), limit, skip + limit < total)
  }

  /** The body of GET /measurements: the filters on device and status, then the page arithmetic. */
  method ListMeasurements<T(!new)>(counted: seq<T>, rows: seq<T>, device: Option<T -> bool>, status: Option<T -> bool>,
                                   skip: nat, limit: nat)
    returns (page: Page<T>)
    requires 1 <= limit <= 200
    ensures page == PageOf(Filter(Selected([device, status]), rows), |Filter(Selected([device, status]), counted)|,
                           skip, limit)
  {
    var filters := [device, status];
    var items, total := GetAll(counted, rows, skip, limit, filters);
    page := Page(items, total, PageNumber(skip, limit), limit, skip + limit < total);
  }

  /** What a client reads that starts at skip and follows has_more. */
  function FollowPages<T>(found: seq<T>, skip: nat, limit: nat): seq<Page<T>>
    requires limit >= 1
    decreases if skip < |found| then |found| - skip else 0
  {
    var page := PageOf(found, |found|, skip, limit);
    [page] + if page.hasMore then FollowPages(found, skip + limit, limit) else []
  }

  function Items<T>(pages: seq<Page<T>>): seq<T> {
    if pages == [] then [] else pages[0].items + Items(pages[1..])
  }

  lemma {:induction false} PagesFrom<T>(found: seq<T>, skip: nat, limit: nat)
    requires limit >= 1 && skip % limit == 0
    ensures var pages := FollowPages(found, skip, limit);
            && Items(pages) == (if skip < |found| then found[skip..] else [])
            && (forall i :: 0 <= i < |pages| ==>
                  && pages[i].page == PageNumber(skip, limit) + i
                  && pages[i].total == |found| && pages[i].pageSize == limit
                  && (pages[i].hasMore <==> i + 1 < |pages|)
                  && (pages[i].hasMore ==> |pages[i].items| == limit))
    decreases if skip < |found| then |found| - skip else 0
  {
    var pages := FollowPages(found, skip, limit);
    if PageOf(found, |found|, skip, limit).hasMore {
      NextPage(skip, limit);
      PagesFrom(found, skip + limit, limit);
      var rest := FollowPages(found, skip + limit, limit);
      assert pages[1..] == rest;
      assert found[skip..skip + limit] + found[skip + limit..] == found[skip..];
      forall i | 1 <= i < |pages| ensures pages[i] == rest[i - 1] {}
    } else {
      assert pages[1..] == [];
    }
  }

  lemma NextPage(skip: nat, limit: nat)
    requires limit >= 1 && skip % limit == 0
    ensures (skip + limit) % limit == 0 && PageNumber(skip + limit, limit) == PageNumber(skip, limit) + 1
  {
    assert skip == skip / limit * limit;
    Division(skip + limit, limit, skip / limit + 1);
  }

  lemma Division(n: int, d: int, q: int)
    requires d >= 1 && n == q * d
    ensures n / d == q && n % d == 0
  {
    var k := n / d;
    assert k * d <= n < k * d + d;
    if q > k { Times(k + 1, q, d); } else if q < k { Times(q + 1, k, d); }
  }

  lemma Times(a: int, b: int, d: int)
    requires a <= b && d >= 0
    ensures a * d <= b * d
  {}

  /**
   Pages tile the result: on an unchanging table, following has_more from the first page ends, the pages are
   numbered 1, 2, 3, ..., all but the last are full, and together they are the filtered rows, each once, in order.
   */
  lemma PagesTile<T(!new)>(rows: seq<T>, filters: seq<Option<T -> bool>>, limit: nat)
    requires limit >= 1
    ensures var found := Filter(Selected(filters), rows);
            var pages := FollowPages(found, 0, limit);
            && Items(pages) == found
            && (forall i :: 0 <= i < |pages| ==>
                  pages[i].page == i + 1 && pages[i].total == |found| && pages[i].pageSize == limit)
            && (forall i :: 0 <= i < |pages| ==> (pages[i].hasMore <==> i + 1 < |pages|))
            && (forall i :: 0 <= i < |pages| - 1 ==> |pages[i].items| == limit)
  {
    Division(0, limit, 0);
    PagesFrom(Filter(Selected(filters), rows), 0, limit);
  }

  /** The page number is the one whose rows include row number skip, also when skip is no multiple of the limit. */
  lemma PageNumberMeans<T>(found: seq<T>, skip: nat, limit: nat)
    requires limit >= 1
    ensures var page := PageOf(found, |found|, skip, limit).page;
            page >= 1 && (page - 1) * limit <= skip < page * limit
  {
    var q := skip / limit;
    assert skip == q * limit + skip % limit;
    assert (q + 1) * limit == q * limit + limit;
  }

  // ----- the Go lists

  function ClampLimit(limit: int, defaultLimit: int, maxLimit: int): int {
    var l := if limit <= 0 then defaultLimit else limit;
    if l > maxLimit then maxLimit else l
  }

  /** A parameter that is absent takes its default, and one that does not parse is 0. */
  function Parsed(param: Option<Option<int>>, default: int): int {
    match param
    case None => default
    case Some(None) => 0
    case Some(Some(n)) => n
  }

  /** Every page the Go lists are asked for has between one and the maximum number of rows and a legal offset. */
  method ParsePagination(limitParam: Option<Option<int>>, offsetParam: Option<Option<int>>, defaultLimit: int,
                         maxLimit: int)
    returns (limit: int, offset: int)
    requires 1 <= defaultLimit <= maxLimit
    ensures 1 <= limit <= maxLimit && 0 <= offset
    ensures limit == ClampLimit(Parsed(limitParam, defaultLimit), defaultLimit, maxLimit)
    ensures 1 <= Parsed(limitParam, defaultLimit) <= maxLimit ==> limit == Parsed(limitParam, defaultLimit)
    ensures Parsed(limitParam, defaultLimit) > maxLimit ==> limit == maxLimit
    ensures Parsed(limitParam, defaultLimit) <= 0 ==> limit == defaultLimit
    ensures limitParam == None || limitParam == Some(None) ==> limit == defaultLimit
    ensures offsetParam == None || offsetParam == Some(None) ==> offset == 0
    ensures offset == if Parsed(offsetParam, 0) > 0 then Parsed(offsetParam, 0) else 0
  {
    limit := Parsed(limitParam, defaultLimit);
    offset := Parsed(offsetParam, 0);
    if limit <= 0 { limit := defaultLimit; }
    if limit > maxLimit { limit := maxLimit; }
    if offset < 0 { offset := 0; }
  }

  /** What a client of the Go lists reads: pages at offset, offset + limit, ... while the total is not reached. */
  function FollowOffsets<T>(total: nat, page: nat -> seq<T>, offset: nat, limit: nat): seq<T>
    requires limit >= 1
    decreases if offset < total then total - offset else 0
  {
    if offset >= total then [] else page(offset) + FollowOffsets(total, page, offset + limit, limit)
  }

  lemma {:induction false} OffsetsTile<T>(found: seq<T>, page: nat -> seq<T>, offset: nat, limit: nat)
    requires limit >= 1 && forall o: nat :: page(o) == Slice(found, o, limit)
    ensures FollowOffsets(|found|, page, offset, limit) == if offset < |found| then found[offset..] else []
    decreases if offset < |found| then |found| - offset else 0
  {
    if offset < |found| {
      OffsetsTile(found, page, offset + limit, limit);
      SliceThenRest(found, offset, limit);
    }
  }

  lemma SliceThenRest<T>(found: seq<T>, offset: nat, limit: nat)
    requires offset < |found|
    ensures Slice(found, offset, limit) + (if offset + limit < |found| then found[offset + limit..] else [])
            == found[offset..]
  {}

  /** A list that is paged in sorted order is collected sorted, each row once. */
  lemma ListTiles<T>(key: T -> int, rows: seq<T>, page: nat -> seq<T>, limit: nat)
    requires limit >= 1 && forall o: nat :: page(o) == Slice(SortBy(key, rows), o, limit)
    ensures var all := FollowOffsets(|rows|, page, 0, limit);
            |all| == |rows| && Ascending(key, all) && multiset(all) == multiset(rows)
  {
    OffsetsTile(SortBy(key, rows), page, 0, limit);
    SortAscending(key, rows);
  }
}
