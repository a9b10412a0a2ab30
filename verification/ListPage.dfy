/**
 Keyset pages over hazard events, newest first (app/hazards/repos/hazard_event.py).
 */
module ListPage {
  import opened Common

  /** What a page is ordered by, and what its cursor encodes. */
  datatype Pos = Pos(startsAt: Time, id: nat)

  datatype Page = Page(items: seq<Pos>, next: Option<Pos>)

  datatype PageError = IndexError

  /** `a` comes before `b` in ORDER BY starts_at DESC, id DESC. */
  predicate Above(a: Pos, b: Pos) { a.startsAt > b.startsAt || (a.startsAt == b.startsAt && a.id > b.id) }

  /** The rows of `s` that the cursor has not passed yet. */
  function Below(s: set<Pos>, cursor: Option<Pos>): set<Pos> {
    set x | x in s && (cursor.Some? ==> Above(cursor.value, x))
  }

  ghost predicate Descending(xs: seq<Pos>) { forall i, j :: 0 <= i < j < |xs| ==> Above(xs[i], xs[j]) }

  /** `xs` answers a query for the first `n` rows of `s`, in order. */
  ghost predicate IsAnswer(xs: seq<Pos>, s: set<Pos>, n: nat) {
    && Descending(xs) && |xs| <= n
    && (forall x :: x in xs ==> x in s)
    && (forall x :: x in s && x !in xs ==> |xs| == n && forall y :: y in xs ==> Above(y, x))
  }

  /** A page of at most `limit` rows after `cursor`, with a next cursor exactly
      when rows are left. */
  ghost predicate IsPage(p: Page, s: set<Pos>, cursor: Option<Pos>, limit: nat) {
    && IsAnswer(p.items, Below(s, cursor), limit)
    && (p.next.None? ==> forall x :: x in Below(s, cursor) ==> x in p.items)
    && (p.next.Some? ==>
          && 0 < |p.items| == limit && p.next.value == p.items[limit - 1]
          && exists x :: x in Below(s, cursor) && x !in p.items)
  }

  /** `rows` is the database's answer to the query for `limit` + 1 rows of the
      matching set `s`. A zero limit raises unless nothing is left. */
  method ListPage(
    rows: seq<Pos>, limit: nat, cursor: Option<Pos>, ghost s: set<Pos>) returns (r: Result<Page, PageError>)
    requires IsAnswer(rows, Below(s, cursor), limit + 1)
    ensures r.Ok? <==> limit > 0 || Below(s, cursor) == {}
    ensures r.Ok? ==> IsPage(r.value, s, cursor, limit)
  {
    if |rows| <= limit {
      assert forall x :: x in Below(s, cursor) ==> x in rows;
      return Ok(Page(rows, None));
    }
    var page := rows[..limit];
    assert rows[limit] in rows && rows[limit] in Below(s, cursor);
    if page == [] { return Err(IndexError); }
    PageIsAnswer(rows, Below(s, cursor), limit);
    return Ok(Page(page, Some(page[|page| - 1])));
  }

  lemma PageIsAnswer(rows: seq<Pos>, s: set<Pos>, limit: nat)
    requires IsAnswer(rows, s, limit + 1) && |rows| == limit + 1
    ensures IsAnswer(rows[..limit], s, limit) && rows[limit] in s && rows[limit] !in rows[..limit]
  {
    assert rows == rows[..limit] + [rows[limit]];
    forall y | y in rows[..limit] ensures Above(y, rows[limit]) {
      var i :| 0 <= i < limit && rows[i] == y;
    }
    assert rows[limit] in rows;
  }

  // ----- Following the cursors -----

  function CursorAt(pages: seq<Page>, i: nat): Option<Pos>
    requires i <= |pages|
  {
    if i == 0 then None else pages[i - 1].next
  }

  /** A client follows the cursors; page `i` is read from the matching rows
      `snaps[i]`, with any inserts and deletes in between. */
  ghost predicate IsWalk(snaps: seq<set<Pos>>, pages: seq<Page>, limit: nat) {
    |snaps| == |pages| && forall i: nat :: i < |pages| ==> IsWalkStep(snaps, pages, limit, i)
  }

  ghost predicate IsWalkStep(snaps: seq<set<Pos>>, pages: seq<Page>, limit: nat, i: nat)
    requires i < |pages| == |snaps|
  {
    IsPage(pages[i], snaps[i], CursorAt(pages, i), limit) && (i + 1 < |pages| ==> pages[i].next.Some?)
  }

  ghost predicate IsWholeWalk(snaps: seq<set<Pos>>, pages: seq<Page>, limit: nat) {
    IsWalk(snaps, pages, limit) && pages != [] && pages[|pages| - 1].next.None?
  }

  /** What the first `n` pages show. */
  function Shown(pages: seq<Page>, n: nat): seq<Pos>
    requires n <= |pages|
  {
    if n == 0 then [] else Shown(pages, n - 1) + pages[n - 1].items
  }

  function Items(pages: seq<Page>): seq<Pos> { Shown(pages, |pages|) }

  lemma PageAt(snaps: seq<set<Pos>>, pages: seq<Page>, limit: nat, i: nat)
    requires IsWalk(snaps, pages, limit) && i < |pages|
    ensures IsPage(pages[i], snaps[i], CursorAt(pages, i), limit) && CursorAt(pages, i + 1) == pages[i].next
    ensures CursorAt(pages, i).None? <==> i == 0
  {
    assert IsWalkStep(snaps, pages, limit, i);
    if i > 0 { assert IsWalkStep(snaps, pages, limit, i - 1); }
  }

  /** A page strictly splits what is below its cursor. */
  lemma PageSplits(p: Page, s: set<Pos>, cursor: Option<Pos>, limit: nat)
    requires IsPage(p, s, cursor, limit)
    ensures forall x :: x in p.items ==> x in s && (cursor.Some? ==> Above(cursor.value, x))
    ensures p.next.Some? ==> forall x :: x in p.items ==> x == p.next.value || Above(x, p.next.value)
    ensures forall x ::
        x in s && (cursor.Some? ==> Above(cursor.value, x)) ==> x in p.items || (p.next.Some? && Above(p.next.value, x))
    ensures p.next.Some? ==> Below(s, p.next) == Below(s, cursor) - (set x | x in p.items)
    ensures p.next.Some? ==> cursor.Some? ==> Above(cursor.value, p.next.value)
  {
    if p.next.Some? {
      forall x | x in p.items ensures x == p.next.value || Above(x, p.next.value) {
        var i :| 0 <= i < |p.items| && p.items[i] == x;
      }
      assert p.next.value in p.items;
    }
  }

  lemma PageDescends(p: Page, s: set<Pos>, cursor: Option<Pos>, limit: nat)
    requires IsPage(p, s, cursor, limit)
    ensures Descending(p.items)
  {
  }

  /** Rows come in strictly descending order over all pages, so none repeats. */
  lemma {:induction false} WalkDescends(snaps: seq<set<Pos>>, pages: seq<Page>, limit: nat, n: nat)
    requires IsWalk(snaps, pages, limit) && n <= |pages|
    ensures Descending(Shown(pages, n))
    ensures CursorAt(pages, n).Some? ==> forall x ::
        x in Shown(pages, n) ==> x == CursorAt(pages, n).value || Above(x, CursorAt(pages, n).value)
  {
    hide IsPage, CursorAt;
    if n > 0 {
      var (before, p, cursor) := (Shown(pages, n - 1), pages[n - 1], CursorAt(pages, n - 1));
      WalkDescends(snaps, pages, limit, n - 1);
      PageAt(snaps, pages, limit, n - 1);
      assert Shown(pages, n) == before + p.items && (n == 1 ==> before == []);
      hide *;
      PageDescends(p, snaps[n - 1], cursor, limit);
      PageSplits(p, snaps[n - 1], cursor, limit);
      Concatenated(before, p.items, cursor);
    }
  }

  lemma Concatenated(a: seq<Pos>, b: seq<Pos>, cursor: Option<Pos>)
    requires Descending(a) && Descending(b)
    requires cursor.None? ==> a == []
    requires cursor.Some? ==> forall x :: x in a ==> x == cursor.value || Above(x, cursor.value)
    requires cursor.Some? ==> forall x :: x in b ==> Above(cursor.value, x)
    ensures Descending(a + b)
  {
    forall i, j | 0 <= i < |a| && 0 <= j < |b| ensures Above(a[i], b[j]) {
      assert a[i] in a && b[j] in b;
    }
  }

  /** A row that every page could have shown has been shown, or is still below
      the cursor. */
  lemma {:induction false} WalkCovers(snaps: seq<set<Pos>>, pages: seq<Page>, limit: nat, n: nat, x: Pos)
    requires IsWalk(snaps, pages, limit) && n <= |pages|
    requires forall i :: 0 <= i < n ==> x in snaps[i]
    ensures x in Shown(pages, n) || n == 0 || (CursorAt(pages, n).Some? && Above(CursorAt(pages, n).value, x))
  {
    hide IsPage, CursorAt, Below;
    if n > 0 {
      WalkCovers(snaps, pages, limit, n - 1, x);
      PageAt(snaps, pages, limit, n - 1);
      NextPageCovers(pages[n - 1], snaps[n - 1], CursorAt(pages, n - 1), limit, Shown(pages, n - 1), x);
    }
  }

  lemma NextPageCovers(p: Page, s: set<Pos>, cursor: Option<Pos>, limit: nat, before: seq<Pos>, x: Pos)
    requires IsPage(p, s, cursor, limit) && x in s
    requires x in before || (cursor.Some? ==> Above(cursor.value, x))
    ensures x in before + p.items || (p.next.Some? && Above(p.next.value, x))
  {
    PageSplits(p, s, cursor, limit);
    hide *;
    assert x in p.items ==> x in before + p.items;
  }

  lemma {:induction false} WalkShowsOnlyRows(snaps: seq<set<Pos>>, pages: seq<Page>, limit: nat, n: nat, x: Pos)
    requires IsWalk(snaps, pages, limit) && n <= |pages| && x in Shown(pages, n)
    ensures exists i :: 0 <= i < n && x in pages[i].items && x in snaps[i]
  {
    hide IsPage, CursorAt, Below;
    if n > 0 {
      PageAt(snaps, pages, limit, n - 1);
      assert Shown(pages, n) == Shown(pages, n - 1) + pages[n - 1].items;
      hide *;
      if x in Shown(pages, n - 1) {
        WalkShowsOnlyRows(snaps, pages, limit, n - 1, x);
      } else {
        PageSplits(pages[n - 1], snaps[n - 1], CursorAt(pages, n - 1), limit);
      }
    }
  }

  lemma {:induction false} DescendingIsDistinct(xs: seq<Pos>, x: Pos)
    requires Descending(xs)
    ensures multiset(xs)[x] == if x in xs then 1 else 0
  {
    if xs != [] {
      var (init, last) := (xs[..|xs| - 1], xs[|xs| - 1]);
      assert xs == init + [last];
      DescendingIsDistinct(init, x);
      assert last !in init;
    }
  }

  /** Later rows never start later, and ids fall among rows that start together. */
  ghost predicate NewestFirst(xs: seq<Pos>) {
    forall i, j :: 0 <= i < j < |xs| ==>
      && xs[j].startsAt <= xs[i].startsAt
      && (xs[j].startsAt == xs[i].startsAt ==> xs[j].id < xs[i].id)
  }

  /** Whatever is inserted or deleted between pages: following the cursors to the
      end shows rows in strictly descending order, nothing twice, every row that
      was there throughout exactly once, and no row that was not there when its
      page was read. */
  lemma WholeWalkIsExact(snaps: seq<set<Pos>>, pages: seq<Page>, limit: nat)
    requires IsWholeWalk(snaps, pages, limit)
    ensures Descending(Items(pages)) && NewestFirst(Items(pages))
    ensures forall x :: multiset(Items(pages))[x] <= 1
    ensures forall x :: (forall i :: 0 <= i < |snaps| ==> x in snaps[i]) ==> multiset(Items(pages))[x] == 1
    ensures forall x :: x in Items(pages) ==> exists i :: 0 <= i < |snaps| && x in pages[i].items && x in snaps[i]
  {
    var n := |pages|;
    WalkDescends(snaps, pages, limit, n);
    forall x ensures multiset(Items(pages))[x] == if x in Items(pages) then 1 else 0 {
      DescendingIsDistinct(Items(pages), x);
    }
    forall x | forall i :: 0 <= i < |snaps| ==> x in snaps[i] ensures x in Items(pages) {
      WalkCovers(snaps, pages, limit, n, x);
    }
    forall x | x in Items(pages) ensures exists i :: 0 <= i < |snaps| && x in pages[i].items && x in snaps[i] {
      WalkShowsOnlyRows(snaps, pages, limit, n, x);
    }
  }

  /** There is only one way to sort a set. */
  lemma {:induction false} SortedIsUnique(a: seq<Pos>, b: seq<Pos>)
    requires Descending(a) && Descending(b) && forall x :: x in a <==> x in b
    ensures a == b
  {
    assert b != [] ==> b[0] in b;
    if a != [] {
      assert a[0] in b && b != [];
      assert b[0] in a;
      var i :| 0 <= i < |b| && b[i] == a[0];
      var j :| 0 <= j < |a| && a[j] == b[0];
      assert a[0] == b[0];
      assert a == [a[0]] + a[1..] && b == [b[0]] + b[1..];
      forall x ensures x in a[1..] <==> x in b[1..] {
        if x in a[1..] { assert x in b && x != a[0]; }
        if x in b[1..] { assert x in a && x != b[0]; }
      }
      SortedIsUnique(a[1..], b[1..]);
    }
  }

  /** On rows that do not change, the pages put together are the full sorted list. */
  lemma StillPagesAreTheList(s: set<Pos>, snaps: seq<set<Pos>>, pages: seq<Page>, limit: nat, all: seq<Pos>)
    requires IsWholeWalk(snaps, pages, limit) && forall i :: 0 <= i < |snaps| ==> snaps[i] == s
    requires IsAnswer(all, s, |s|)
    ensures Items(pages) == all
  {
    StillRowsAreShown(s, snaps, pages, limit);
    AllAreThere(all, s);
    assert Descending(all);
    hide *;
    SortedIsUnique(Items(pages), all);
  }

  lemma StillRowsAreShown(s: set<Pos>, snaps: seq<set<Pos>>, pages: seq<Page>, limit: nat)
    requires IsWholeWalk(snaps, pages, limit) && forall i :: 0 <= i < |snaps| ==> snaps[i] == s
    ensures Descending(Items(pages)) && forall x :: x in Items(pages) <==> x in s
  {
    assert Items(pages) == Shown(pages, |pages|) && IsWalk(snaps, pages, limit) && CursorAt(pages, |pages|).None?;
    hide *;
    WalkDescends(snaps, pages, limit, |pages|);
    forall x ensures x in Items(pages) <==> x in s {
      if x in s {
        WalkCovers(snaps, pages, limit, |pages|, x);
      } else if x in Items(pages) {
        WalkShowsOnlyRows(snaps, pages, limit, |pages|, x);
      }
    }
  }

  lemma AllAreThere(xs: seq<Pos>, s: set<Pos>)
    requires IsAnswer(xs, s, |s|)
    ensures forall x :: x in xs <==> x in s
  {
    var shown := set x | x in xs;
    CountIs(xs);
    if x :| x in s && x !in xs {
      assert shown + {x} <= s;
      Smaller(shown + {x}, s);
    }
  }

  lemma {:induction false} CountIs(xs: seq<Pos>)
    requires Descending(xs)
    ensures |set x | x in xs| == |xs|
  {
    if xs != [] {
      var (init, last) := (xs[..|xs| - 1], xs[|xs| - 1]);
      assert xs == init + [last];
      CountIs(init);
      assert last !in init;
      assert (set x | x in xs) == (set x | x in init) + {last};
    }
  }

  lemma {:induction false} Smaller(a: set<Pos>, b: set<Pos>)
    requires a <= b
    ensures |a| <= |b|
  {
    assert b == a + (b - a);
  }

  // ----- The walk ends -----

  /** How many rows were inserted between the first `n` + 1 snapshots. */
  function Inserted(snaps: seq<set<Pos>>, n: nat): nat
    requires n < |snaps|
  {
    if n == 0 then 0 else Inserted(snaps, n - 1) + |snaps[n] - snaps[n - 1]|
  }

  lemma PageTakes(p: Page, s: set<Pos>, s': set<Pos>, cursor: Option<Pos>, limit: nat)
    requires IsPage(p, s, cursor, limit) && p.next.Some?
    ensures |Below(s', p.next)| + limit <= |Below(s, cursor)| + |s' - s|
  {
    var shown := set x | x in p.items;
    PageSplits(p, s, cursor, limit);
    CountIs(p.items);
    assert shown <= Below(s, cursor) && Below(s, p.next) == Below(s, cursor) - shown;
    assert Below(s', p.next) <= Below(s, p.next) + (s' - s);
    hide *;
    Smaller(Below(s', p.next), Below(s, p.next) + (s' - s));
  }

  /** The rows below the cursor are the measure: every page takes `limit` of them,
      and only inserts add any. So a walk reads at most
      (rows at the start + rows inserted) / limit full pages. */
  lemma WalkEnds(snaps: seq<set<Pos>>, pages: seq<Page>, limit: nat, n: nat)
    requires IsWalk(snaps, pages, limit) && n < |pages|
    ensures n * limit + |Below(snaps[n], CursorAt(pages, n))| <= |snaps[0]| + Inserted(snaps, n)
  {
    MeasureDrops(snaps, pages, limit, n);
    TakenIs(n, limit);
  }

  function Taken(n: nat, limit: nat): nat { if n == 0 then 0 else Taken(n - 1, limit) + limit }

  lemma {:induction false} TakenIs(n: nat, limit: nat)
    ensures Taken(n, limit) == n * limit
  {
    if n > 0 {
      TakenIs(n - 1, limit);
      assert n * limit == (n - 1) * limit + limit;
    }
  }

  lemma {:induction false} MeasureDrops(snaps: seq<set<Pos>>, pages: seq<Page>, limit: nat, n: nat)
    requires IsWalk(snaps, pages, limit) && n < |pages|
    ensures Taken(n, limit) + |Below(snaps[n], CursorAt(pages, n))| <= |snaps[0]| + Inserted(snaps, n)
  {
    hide IsPage, CursorAt;
    if n == 0 {
      PageAt(snaps, pages, limit, 0);
      assert Below(snaps[0], None) == snaps[0];
    } else {
      MeasureDrops(snaps, pages, limit, n - 1);
      PageAt(snaps, pages, limit, n - 1);
      PageAt(snaps, pages, limit, n);
      hide Below;
      PageTakes(pages[n - 1], snaps[n - 1], snaps[n], CursorAt(pages, n - 1), limit);
    }
  }
}
