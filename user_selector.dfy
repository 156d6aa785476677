/**
 * The paginated user picker (`UserSelectorComponent`): the users input is cut
 * into pages of `pageSize`, the page numbers are listed, and navigation moves
 * between existing pages only.
 */
module UserSelector {
  import opened Wrappers
  import opened Models

  const DefaultPageSize: nat := 12

  function Min(a: int, b: int): int {
    if a <= b then a else b
  }

  /** `Math.ceil(count / pageSize)`: the fewest pages of `pageSize` that hold `count` items. */
  function TotalPages(count: nat, pageSize: nat): (total: nat)
    requires pageSize > 0
    ensures total * pageSize >= count
    ensures total > 0 ==> (total - 1) * pageSize < count
    ensures total == 0 <==> count == 0
  {
    var q := count / pageSize;
    if q * pageSize == count then q else q + 1
  }

  /** `Array.from({ length: total }, (_, i) => i + 1)`. */
  function PageNumbers(total: nat): (pages: seq<int>)
    ensures |pages| == total
    ensures forall p :: p in pages <==> 1 <= p <= total
    ensures forall i, j :: 0 <= i < j < |pages| ==> pages[i] < pages[j]
  {
    var pages := seq(total, i => i + 1);
    assert forall p :: 1 <= p <= total ==> p in pages by {
      forall p | 1 <= p <= total ensures p in pages {
        assert pages[p - 1] == p;
      }
    }
    pages
  }

  /**
   * `users.slice(start, start + pageSize)` with `start = (page - 1) * pageSize`;
   * `slice` clamps both ends to the length.
   */
  function PageSlice(users: seq<User>, page: int, pageSize: nat): (slice: seq<User>)
    requires page >= 1 && pageSize > 0
    ensures |slice| <= pageSize
    ensures (page - 1) * pageSize >= |users| ==> slice == []
    ensures (page - 1) * pageSize < |users| ==>
      slice == users[(page - 1) * pageSize .. Min(page * pageSize, |users|)]
  {
    var start := (page - 1) * pageSize;
    var end := start + pageSize;
    users[Min(start, |users|) .. Min(end, |users|)]
  }

  /** Pages 1 to `k`, one after the other. */
  function PagesUpTo(users: seq<User>, pageSize: nat, k: nat): seq<User>
    requires pageSize > 0
  {
    if k == 0 then [] else PagesUpTo(users, pageSize, k - 1) + PageSlice(users, k, pageSize)
  }

  lemma {:induction false} PagesUpToIsPrefix(users: seq<User>, pageSize: nat, k: nat)
    requires pageSize > 0
    ensures PagesUpTo(users, pageSize, k) == users[..Min(k * pageSize, |users|)]
  {
    if k > 0 {
      PagesUpToIsPrefix(users, pageSize, k - 1);
      var a := Min((k - 1) * pageSize, |users|);
      var b := Min(k * pageSize, |users|);
      assert k * pageSize == (k - 1) * pageSize + pageSize;
      assert users[..a] + users[a..b] == users[..b];
    }
  }

  /** Reading every page in order gives back exactly the users. */
  lemma PagesCoverUsers(users: seq<User>, pageSize: nat)
    requires pageSize > 0
    ensures PagesUpTo(users, pageSize, TotalPages(|users|, pageSize)) == users
  {
    var total := TotalPages(|users|, pageSize);
    PagesUpToIsPrefix(users, pageSize, total);
    assert users[..|users|] == users;
  }

  /** Multiplying by a page size keeps `<=`. */
  lemma MulMonotone(a: int, b: int, pageSize: nat)
    requires a <= b
    ensures a * pageSize <= b * pageSize
  {
    assert b * pageSize == a * pageSize + (b - a) * pageSize;
  }

  /** Every listed page holds at least one user, and every page but the last is full. */
  lemma PageInRangeIsNonEmpty(users: seq<User>, pageSize: nat, page: int)
    requires pageSize > 0 && 1 <= page <= TotalPages(|users|, pageSize)
    ensures |PageSlice(users, page, pageSize)| > 0
    ensures page < TotalPages(|users|, pageSize) ==> |PageSlice(users, page, pageSize)| == pageSize
  {
    var total := TotalPages(|users|, pageSize);
    MulMonotone(page - 1, total - 1, pageSize);
    assert (page - 1) * pageSize < |users|;
    if page < total {
      MulMonotone(page, total - 1, pageSize);
      assert page * pageSize == (page - 1) * pageSize + pageSize;
      assert page * pageSize <= |users|;
    }
  }

  class UserSelector {
    var users: seq<User>
    var paginatedUsers: seq<User>
    var currentPage: int
    const pageSize: nat
    var totalPages: nat
    var pages: seq<int>

    ghost predicate Valid()
      reads this
    {
      pageSize > 0 && currentPage >= 1
    }

    /** The derived fields agree with the users, the page size and the current page. */
    ghost predicate InSync()
      reads this
      requires Valid()
    {
      && totalPages == TotalPages(|users|, pageSize)
      && pages == PageNumbers(totalPages)
      && paginatedUsers == PageSlice(users, currentPage, pageSize)
    }

    constructor()
      ensures Valid()
      ensures users == [] && paginatedUsers == [] && pages == []
      ensures currentPage == 1 && pageSize == DefaultPageSize && totalPages == 0
    {
      users := [];
      paginatedUsers := [];
      currentPage := 1;
      pageSize := DefaultPageSize;
      totalPages := 0;
      pages := [];
    }

    /** `updatePagination()`: recomputes the page count, the page list and the current page's slice. */
    method UpdatePagination()
      requires Valid()
      modifies this`totalPages, this`pages, this`paginatedUsers
      ensures Valid() && InSync()
    {
      totalPages := TotalPages(|users|, pageSize);
      pages := PageNumbers(totalPages);
      var start := (currentPage - 1) * pageSize;
      var end := start + pageSize;
      paginatedUsers := users[Min(start, |users|) .. Min(end, |users|)];
    }

    /** `ngOnInit()`. */
    method NgOnInit()
      requires Valid()
      modifies this`totalPages, this`pages, this`paginatedUsers
      ensures Valid() && InSync()
    {
      UpdatePagination();
    }

    /**
     * `ngOnChanges(changes)`. `Some(u)`: the users input changed to the present
     * value `u` (Angular writes it into `users` before the hook runs);
     * `None`: the change record carries no present users value.
     */
    method NgOnChanges(usersChange: Option<seq<User>>)
      requires Valid()
      modifies this
      ensures Valid()
      ensures usersChange.None? ==> unchanged(this)
      ensures usersChange.Some? ==> users == usersChange.value && currentPage == 1 && InSync()
    {
      if usersChange.Some? {
        users := usersChange.value;
        currentPage := 1;
        UpdatePagination();
      }
    }

    /** `selectUser(id)`: emits the id and touches no pagination state. */
    method SelectUser(userId: string) returns (emitted: string)
      ensures emitted == userId
    {
      emitted := userId;
    }

    /** `goToPage(page)`: pages outside 1..totalPages are ignored. */
    method GoToPage(page: int)
      requires Valid()
      modifies this`currentPage, this`totalPages, this`pages, this`paginatedUsers
      ensures Valid()
      ensures page < 1 || page > old(totalPages) ==> unchanged(this)
      ensures 1 <= page <= old(totalPages) ==> currentPage == page && InSync()
    {
      if page < 1 || page > totalPages {
        return;
      }
      currentPage := page;
      UpdatePagination();
    }
  }
}
