/**
 Cursor pagination as the three list operations of `mcpservice` do it: the decimal offset of
 the next item is the cursor. The pagers differ in how they treat a cursor that is out of
 range, and agree on the walk a client makes by following cursors from the start.
 */
module Pagination {
  import opened Wrappers
  import Decimal

  datatype Page<T> = Page(items: seq<T>, next: Option<string>)

  datatype Pager = FileSystem | Tools | Resources

  /** The shared cursor reading: anything unreadable or negative means the start. */
  function ParseCursor(cursor: Option<string>): (n: nat)
    ensures cursor.None? || cursor.value == "" ==> n == 0
    ensures cursor.Some? && (Decimal.Atoi(cursor.value).None? || Decimal.Atoi(cursor.value).value < 0) ==> n == 0
    ensures cursor.Some? && Decimal.Atoi(cursor.value).Some? && Decimal.Atoi(cursor.value).value >= 0 ==> n == Decimal.Atoi(cursor.value).value
  {
    if cursor.None? || cursor.value == "" then 0
    else match Decimal.Atoi(cursor.value)
      case Some(n) => if n < 0 then 0 else n
      case None => 0
  }

  function PageAt<T>(all: seq<T>, size: nat, start: nat): Page<T>
    requires start <= |all|
  {
    var end := if start + size > |all| then |all| else start + size;
    Page(all[start..end], if end < |all| then Some(Decimal.Itoa(end)) else None)
  }

  /** What a pager answers to a cursor. */
  function Serve<T>(kind: Pager, all: seq<T>, size: nat, cursor: Option<string>): Page<T> {
    var start := ParseCursor(cursor);
    if start <= |all| then PageAt(all, size, start)
    else if kind.Resources? then Page([], None)
    else PageAt(all, size, 0)
  }

  // ----- the pagers as written -----

  /** `pageSlice`: reads the cursor itself and ignores one that is out of range. */
  method PageSlice<T>(all: seq<T>, pageSize: nat, cursor: Option<string>) returns (page: Page<T>)
    ensures page == Serve(FileSystem, all, pageSize, cursor)
  {
    var start := 0;
    if cursor.Some? && cursor.value != "" {
      var n := Decimal.Atoi(cursor.value);
      if n.Some? && 0 <= n.value <= |all| {
        start := n.value;
      }
    }
    var end := start + pageSize;
    if end > |all| {
      end := |all|;
    }
    var items := all[start..end];
    if end < |all| {
      return Page(items, Some(Decimal.Itoa(end)));
    }
    page := Page(items, None);
  }

  /** `ListTools`: clamps the parsed cursor back to the start. */
  method ListTools<T>(all: seq<T>, pageSize: nat, cursor: Option<string>) returns (page: Page<T>)
    ensures page == Serve(Tools, all, pageSize, cursor)
  {
    var start := ParseCursor(cursor);
    if start > |all| {
      start := 0;
    }
    var end := start + pageSize;
    if end > |all| {
      end := |all|;
    }
    var items := all[start..end];
    if end < |all| {
      return Page(items, Some(Decimal.Itoa(end)));
    }
    page := Page(items, None);
  }

  /** `ListResources`: past the end there is nothing; entries are converted one by one. */
  method ListResources<T, U>(all: seq<T>, pageSize: nat, cursor: Option<string>, wire: T -> U) returns (page: Page<U>)
    ensures var spec := Serve(Resources, all, pageSize, cursor);
      && page.next == spec.next
      && |page.items| == |spec.items|
      && forall i | 0 <= i < |spec.items| :: page.items[i] == wire(spec.items[i])
  {
    var start := ParseCursor(cursor);
    if start >= |all| {
      return Page([], None);
    }
    var end := start + pageSize;
    if end > |all| {
      end := |all|;
    }
    var slice := all[start..end];
    var out: seq<U> := [];
    for i := 0 to |slice|
      invariant |out| == i && forall k | 0 <= k < i :: out[k] == wire(slice[k])
    {
      out := out + [wire(slice[i])];
    }
    page := Page(out, None);
    if end < |all| {
      page := page.(next := Some(Decimal.Itoa(end)));
    }
  }

  // ----- following cursors -----

  /** A pager over an unchanged list. */
  function Server<T>(kind: Pager, all: seq<T>, size: nat): Option<string> -> Page<T> {
    cursor => Serve(kind, all, size, cursor)
  }

  /** The pages a client collects in at most `budget` requests, if it reaches the end. */
  function Follow<T>(serve: Option<string> -> Page<T>, cursor: Option<string>, budget: nat): Option<seq<Page<T>>>
    decreases budget
  {
    if budget == 0 then None
    else
      var page := serve(cursor);
      if page.next.None? then Some([page])
      else match Follow(serve, page.next, budget - 1)
        case None => None
        case Some(rest) => Some([page] + rest)
  }

  function Items<T>(pages: seq<Page<T>>): seq<T> {
    if pages == [] then [] else pages[0].items + Items(pages[1..])
  }

  /** How many pages n items fill: at least one, otherwise rounded up. */
  function PageCount(n: nat, size: nat): nat
    requires size > 0
  {
    if n == 0 then 1 else (n + size - 1) / size
  }

  /** The same count, page by page. */
  function PagesNeeded(n: nat, size: nat): nat
    requires size > 0
    decreases n
  {
    if n <= size then 1 else 1 + PagesNeeded(n - size, size)
  }

  lemma {:induction false} MulAtLeast(b: int, d: int)
    requires b > 0 && d >= 1
    ensures b * d >= b
  {
  }

  /** Quotients are unique: the multiple of b just below a determines a / b. */
  lemma {:induction false} QuotientIs(a: int, b: int, q: int)
    requires b > 0 && b * q <= a < b * q + b
    ensures a / b == q
  {
    var p := a / b;
    assert a == b * p + a % b;
    assert b * (p - q) == b * p - b * q && b * (q - p) == b * q - b * p;
    if p > q {
      MulAtLeast(b, p - q);
    } else if p < q {
      MulAtLeast(b, q - p);
    }
  }

  lemma {:induction false} QuotientShift(a: int, b: int)
    requires b > 0
    ensures (a + b) / b == a / b + 1
  {
    var p := a / b;
    assert a == b * p + a % b;
    assert b * (p + 1) == b * p + b;
    QuotientIs(a + b, b, p + 1);
  }

  lemma {:induction false} PagesNeededIsCeiling(n: nat, size: nat)
    requires size > 0
    ensures PagesNeeded(n, size) == PageCount(n, size)
    decreases n
  {
    if n > size {
      PagesNeededIsCeiling(n - size, size);
      QuotientShift(n - size + size - 1, size);
    } else if n > 0 {
      QuotientIs(n + size - 1, size, 1);
    }
  }

  /** A page that is not the last: its cursor reads back as where it ended. */
  lemma {:induction false} FullPage<T>(kind: Pager, all: seq<T>, size: nat, cursor: Option<string>)
    requires |all| <= Decimal.INT64_MAX && ParseCursor(cursor) + size < |all|
    ensures var start := ParseCursor(cursor);
      var page := Serve(kind, all, size, cursor);
      page.items == all[start..start + size] && page.next.Some? && ParseCursor(page.next) == start + size
  {
    var end := ParseCursor(cursor) + size;
    Decimal.AtoiItoa(end);
    Decimal.ItoaSign(end);
  }

  lemma {:induction false} LastPage<T>(kind: Pager, all: seq<T>, size: nat, cursor: Option<string>)
    requires ParseCursor(cursor) <= |all| <= ParseCursor(cursor) + size
    ensures Serve(kind, all, size, cursor) == Page(all[ParseCursor(cursor)..], None)
  {
  }

  ghost predicate Walked<T>(r: Option<seq<Page<T>>>, budget: nat, count: nat, items: seq<T>) {
    if budget < count then r == None else r.Some? && |r.value| == count && Items(r.value) == items
  }

  lemma {:induction false} WalkedLast<T>(page: Page<T>, budget: nat)
    requires budget > 0
    ensures Walked(Some([page]), budget, 1, page.items)
  {
    assert [page][1..] == [];
    assert Items([page]) == page.items + Items<T>([]);
  }

  lemma {:induction false} WalkedMore<T>(page: Page<T>, rest: Option<seq<Page<T>>>, budget: nat, count: nat, tail: seq<T>)
    requires budget > 0 && Walked(rest, budget - 1, count, tail)
    ensures Walked(if rest.None? then None else Some([page] + rest.value), budget, count + 1, page.items + tail)
  {
    if rest.Some? {
      assert ([page] + rest.value)[1..] == rest.value;
    }
  }

  /** The page from a position: a full one whose cursor reads back as where it ended, or the last. */
  predicate PageFrom<T(==)>(page: Page<T>, all: seq<T>, size: nat, start: nat)
    requires start <= |all|
  {
    if start + size < |all|
    then page.items == all[start..start + size] && page.next.Some? && ParseCursor(page.next) == start + size
    else page == Page(all[start..], None)
  }

  ghost predicate ServesAt<T>(serve: Option<string> -> Page<T>, all: seq<T>, size: nat, cursor: Option<string>) {
    ParseCursor(cursor) <= |all| ==> PageFrom(serve(cursor), all, size, ParseCursor(cursor))
  }

  ghost predicate Serves<T>(serve: Option<string> -> Page<T>, all: seq<T>, size: nat) {
    forall cursor :: ServesAt(serve, all, size, cursor)
  }

  lemma {:induction false} PagersServe<T>(kind: Pager, all: seq<T>, size: nat)
    requires |all| <= Decimal.INT64_MAX
    ensures Serves(Server(kind, all, size), all, size)
  {
    forall cursor ensures ServesAt(Server(kind, all, size), all, size, cursor) {
      if ParseCursor(cursor) + size < |all| {
        FullPage(kind, all, size, cursor);
      } else if ParseCursor(cursor) <= |all| {
        LastPage(kind, all, size, cursor);
      }
    }
  }

  lemma {:induction false} SliceOn<T>(all: seq<T>, start: nat, end: nat)
    requires start <= end <= |all|
    ensures all[start..end] + all[end..] == all[start..]
  {
  }

  lemma {:induction false} MorePages(left: nat, size: nat)
    requires size > 0 && left > 0
    ensures PagesNeeded(left + size, size) == PagesNeeded(left, size) + 1
  {
    assert left + size - size == left;
  }

  lemma {:induction false} FollowFrom<T>(serve: Option<string> -> Page<T>, all: seq<T>, size: nat, start: nat, cursor: Option<string>, budget: nat)
    requires size > 0 && Serves(serve, all, size) && ParseCursor(cursor) == start <= |all|
    ensures Walked(Follow(serve, cursor, budget), budget, PagesNeeded(|all| - start, size), all[start..])
    decreases budget
  {
    if budget > 0 {
      var page := serve(cursor);
      assert ServesAt(serve, all, size, cursor);
      if start + size < |all| {
        var end := start + size;
        FollowFrom(serve, all, size, end, page.next, budget - 1);
        WalkedMore(page, Follow(serve, page.next, budget - 1), budget, PagesNeeded(|all| - end, size), all[end..]);
        MorePages(|all| - end, size);
        SliceOn(all, start, end);
        assert |all| - start == |all| - end + size;
      } else {
        WalkedLast(page, budget);
      }
    }
  }

  /**
   The walk. Following cursors from the start over an unchanged list yields every item
   exactly once and in order, in max(1, ceil(n / size)) pages and no fewer, for each of the
   three pagers and any positive page size. A Go slice has at most 2^63 - 1 elements.
   */
  lemma {:induction false} WalkCoversTheList<T>(kind: Pager, all: seq<T>, size: nat, budget: nat)
    requires size > 0 && |all| <= Decimal.INT64_MAX
    ensures var r := Follow(Server(kind, all, size), None, budget);
      if budget < PageCount(|all|, size) then r == None
      else r.Some? && |r.value| == PageCount(|all|, size) && Items(r.value) == all
  {
    PagersServe(kind, all, size);
    FollowFrom(Server(kind, all, size), all, size, 0, None, budget);
    PagesNeededIsCeiling(|all|, size);
    assert all[0..] == all;
  }

  /** The pagers answer alike exactly when the cursor is in range or the list is empty. */
  lemma {:induction false} PagersAgreeInRange<T>(all: seq<T>, size: nat, cursor: Option<string>)
    requires size > 0
    ensures Serve(FileSystem, all, size, cursor) == Serve(Tools, all, size, cursor)
    ensures Serve(Resources, all, size, cursor) == Serve(Tools, all, size, cursor)
       <==> ParseCursor(cursor) <= |all| || all == []
    ensures ParseCursor(cursor) > |all| ==>
      Serve(Tools, all, size, cursor) == Serve(Tools, all, size, None) && Serve(Resources, all, size, cursor) == Page([], None)
  {
    if ParseCursor(cursor) > |all| && all != [] {
      assert |PageAt(all, size, 0).items| > 0;
    }
  }
}
