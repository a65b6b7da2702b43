/** Pages of a list (pagination.utils.ts). */
module Pagination {

  datatype SkipTake = SkipTake(skip: nat, take: nat)

  datatype PaginatedResult<T> = PaginatedResult(data: seq<T>, total: nat, page: nat, limit: nat, totalPages: nat)

  // The items of n full pages.
  function Items(n: nat, limit: nat): nat {
    n * limit
  }

  function BuildPrismaSkipTake(page: nat, limit: nat): SkipTake
    requires page >= 1
  {
    SkipTake(Items(page - 1, limit), limit)
  }

  // Math.ceil(total / limit)
  function TotalPages(total: nat, limit: nat): (pages: nat)
    requires limit >= 1
    ensures total <= Items(pages, limit)
    ensures forall n: nat :: n < pages ==> Items(n, limit) < total
  {
    var pages := if total % limit == 0 then total / limit else total / limit + 1;
    CeilBounds(total, limit);
    assert forall n: nat | n < pages :: Items(n, limit) < total by {
      forall n: nat | n < pages ensures Items(n, limit) < total { ItemsGrow(n, pages, limit); }
    }
    pages
  }

  lemma CeilBounds(total: nat, limit: nat)
    requires limit >= 1
    ensures var pages := if total % limit == 0 then total / limit else total / limit + 1;
            total <= Items(pages, limit) && Items(pages, limit) < total + limit
  {
    var q := total / limit;
    assert total == q * limit + total % limit;
    assert (q + 1) * limit == q * limit + limit;
  }

  lemma ItemsGrow(n: nat, m: nat, limit: nat)
    ensures Items(n + 1, limit) == Items(n, limit) + limit
    ensures n < m ==> Items(n, limit) + limit <= Items(m, limit)
    ensures n <= m ==> Items(n, limit) <= Items(m, limit)
    ensures Items(0, limit) == 0
  {
    hide Items;
    Nothing(limit);
    Distribute(n, 1, limit);
    if n < m {
      Distribute(n + 1, m - n - 1, limit);
    }
  }

  lemma Nothing(limit: nat)
    ensures Items(0, limit) == 0
  {
  }

  lemma Distribute(a: nat, b: nat, limit: nat)
    ensures Items(a + b, limit) == Items(a, limit) + Items(b, limit) && Items(1, limit) == limit
  {
  }

  predicate HasNextPage(page: nat, total: nat, limit: nat) {
    Items(page, limit) < total
  }

  // What the database returns for a skip and a take.
  function Slice<T>(rows: seq<T>, s: SkipTake): seq<T> {
    if s.skip >= |rows| then []
    else if s.skip + s.take > |rows| then rows[s.skip..]
    else rows[s.skip..s.skip + s.take]
  }

  function Page<T>(rows: seq<T>, page: nat, limit: nat): PaginatedResult<T>
    requires page >= 1 && limit >= 1
  {
    PaginatedResult(Slice(rows, BuildPrismaSkipTake(page, limit)), |rows|, page, limit, TotalPages(|rows|, limit))
  }

  // The data of the first n pages, one after the other.
  function Pages<T>(rows: seq<T>, n: nat, limit: nat): seq<T>
    requires limit >= 1
  {
    if n == 0 then [] else Pages(rows, n - 1, limit) + Page(rows, n, limit).data
  }

  lemma {:induction false} FirstPages<T>(rows: seq<T>, n: nat, limit: nat)
    requires limit >= 1
    ensures Pages(rows, n, limit) == if Items(n, limit) < |rows| then rows[..Items(n, limit)] else rows
  {
    hide Items, TotalPages;
    ItemsGrow(0, 0, limit);
    if n > 0 {
      FirstPages(rows, n - 1, limit);
      ItemsGrow(n - 1, n, limit);
      NextSlice(rows, Items(n - 1, limit), limit);
      hide Slice;
    }
  }

  // The first rows, and the slice behind them.
  lemma NextSlice<T>(rows: seq<T>, skip: nat, take: nat)
    ensures (if skip < |rows| then rows[..skip] else rows) + Slice(rows, SkipTake(skip, take))
         == if skip + take < |rows| then rows[..skip + take] else rows
  {
    if skip < |rows| {
      if skip + take < |rows| {
        assert rows[..skip] + rows[skip..skip + take] == rows[..skip + take];
      } else {
        assert rows[..skip] + rows[skip..] == rows;
      }
    }
  }

  // A page is followed by another exactly when it is not the last.
  lemma NextPageExists(page: nat, total: nat, limit: nat)
    requires limit >= 1
    ensures HasNextPage(page, total, limit) <==> page < TotalPages(total, limit)
  {
    hide Items;
    if page >= TotalPages(total, limit) {
      ItemsGrow(TotalPages(total, limit), page, limit);
    }
  }

  // The pages 1 to totalPages make up the list; every page that has a next one is full, the last one is not empty, and
  // a page past the last is.
  lemma PagesPartition<T>(rows: seq<T>, limit: nat)
    requires limit >= 1
    ensures Pages(rows, TotalPages(|rows|, limit), limit) == rows
    ensures forall page :: 1 <= page ==>
      var size := |Page(rows, page, limit).data|;
      (page < TotalPages(|rows|, limit) ==> size == limit)
      && (page == TotalPages(|rows|, limit) ==> 1 <= size <= limit)
      && (page > TotalPages(|rows|, limit) ==> size == 0)
  {
    hide Items, TotalPages;
    var pages := TotalPages(|rows|, limit);
    FirstPages(rows, pages, limit);
    forall page: nat | 1 <= page
      ensures var size := |Page(rows, page, limit).data|;
        (page < pages ==> size == limit) && (page == pages ==> 1 <= size <= limit) && (page > pages ==> size == 0)
    {
      NextPageExists(page, |rows|, limit);
      NextPageExists(page - 1, |rows|, limit);
      ItemsGrow(page - 1, page, limit);
    }
  }
}
