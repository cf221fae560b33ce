/**
  Keyset paging over (pinned, at, id), newest first, with the frame limit
  trimming a page further.
*/
module Paging {
  import opened Wrappers
  import opened Tables
  import opened TableLemmas
  import opened Ages

  const MAX_LIMIT := 500

  /** The filters of a list request; `matches` is what full-text search says about a row. */
  datatype Filter = Filter(matches: Option<int -> bool>, kind: Option<Kind>, pinned: Option<bool>)

  predicate Wanted(f: Filter, e: EntryRow) {
    && (f.matches.Some? ==> f.matches.value(e.id))
    && (f.kind.Some? ==> e.kind == f.kind.value)
    && (f.pinned.Some? ==> e.pinned == f.pinned.value)
  }

  /** `ORDER BY pinned DESC, at DESC, id DESC`. */
  predicate Precedes(a: EntryRow, b: EntryRow) {
    if a.pinned != b.pinned then a.pinned
    else if a.at != b.at then a.at > b.at
    else a.id > b.id
  }

  ghost predicate Sorted(es: seq<EntryRow>) {
    forall i, j | 0 <= i < j < |es| :: Precedes(es[i], es[j])
  }

  function Insert(e: EntryRow, es: seq<EntryRow>): seq<EntryRow> {
    if es == [] then [e]
    else if Precedes(e, es[0]) then [e] + es
    else [es[0]] + Insert(e, es[1..])
  }

  function Sort(es: seq<EntryRow>): seq<EntryRow> {
    if es == [] then [] else Insert(es[|es| - 1], Sort(es[..|es| - 1]))
  }

  function Where(es: seq<EntryRow>, p: EntryRow -> bool): (r: seq<EntryRow>)
    ensures forall e :: e in r <==> e in es && p(e)
  {
    if es == [] then []
    else if p(es[0]) then [es[0]] + Where(es[1..], p) else Where(es[1..], p)
  }

  /** The rows past the cursor. One whose row is gone falls back to its id alone. */
  function Past(es: seq<EntryRow>, before: Option<int>): EntryRow -> bool {
    match before
    case None => (e: EntryRow) => true
    case Some(id) =>
      match Find(es, id)
      case Some(mark) => (e: EntryRow) => Precedes(mark, e)
      case None => (e: EntryRow) => e.id < id
  }

  function Matching(es: seq<EntryRow>, before: Option<int>, f: Filter): EntryRow -> bool {
    var past := Past(es, before);
    (e: EntryRow) => Wanted(f, e) && past(e)
  }

  function Clamp(limit: int): nat {
    if limit < 1 then 1 else if limit > MAX_LIMIT then MAX_LIMIT else limit
  }

  /** `Index::list`. */
  function Page(es: seq<EntryRow>, limit: int, before: Option<int>, f: Filter): seq<EntryRow> {
    var all := Sort(Where(es, Matching(es, before, f)));
    all[..Min(Clamp(limit), |all|)]
  }

  /** One list request as the daemon meets it: the table then, the limit asked for, and the rows the frame holds. */
  datatype Visit = Visit(es: seq<EntryRow>, limit: int, fits: nat)

  function Items(v: Visit, before: Option<int>, f: Filter): seq<EntryRow> {
    var page := Page(v.es, v.limit, before, f);
    page[..Min(v.fits, |page|)]
  }

  /** The page was full, or the frame cut it. */
  predicate More(v: Visit, before: Option<int>, f: Filter) {
    var page := Page(v.es, v.limit, before, f);
    |page| >= Clamp(v.limit) || v.fits < |page|
  }

  // -------------------------------------------------------------- ordering

  lemma {:induction false} InsertSorted(e: EntryRow, es: seq<EntryRow>)
    requires Sorted(es) && forall x <- es :: x.id != e.id
    ensures Sorted(Insert(e, es))
    ensures forall x :: x in Insert(e, es) <==> x == e || x in es
    decreases |es|
  {
    if es != [] && !Precedes(e, es[0]) {
      var rest := Insert(e, es[1..]);
      assert es == [es[0]] + es[1..];
      InsertSorted(e, es[1..]);
      forall i, j | 0 <= i < j < |[es[0]] + rest|
        ensures Precedes(([es[0]] + rest)[i], ([es[0]] + rest)[j])
      {
        assert rest[j - 1] in rest;
        if i == 0 && rest[j - 1] != e {
          var k :| 0 <= k < |es[1..]| && es[1..][k] == rest[j - 1];
          assert es[1..][k] == es[k + 1];
        }
      }
    }
  }

  ghost predicate DistinctIds(es: seq<EntryRow>) {
    forall i, j | 0 <= i < j < |es| :: es[i].id != es[j].id
  }

  lemma {:induction false} SortSorts(es: seq<EntryRow>)
    requires DistinctIds(es)
    ensures Sorted(Sort(es))
    ensures forall x :: x in Sort(es) <==> x in es
  {
    if es != [] {
      var front, last := es[..|es| - 1], es[|es| - 1];
      assert es == front + [last];
      SortSorts(front);
      InsertSorted(last, Sort(front));
    }
  }

  lemma {:induction false} WhereKeepsDistinct(es: seq<EntryRow>, p: EntryRow -> bool)
    requires DistinctIds(es)
    ensures DistinctIds(Where(es, p)) && |Where(es, p)| <= |es|
  {
    if es != [] {
      var rest := es[1..];
      WhereKeepsDistinct(rest, p);
      forall x <- Where(rest, p)
        ensures x.id != es[0].id
      {
        var k :| 0 <= k < |rest| && rest[k] == x;
        assert rest[k] == es[k + 1];
      }
    }
  }

  lemma IncreasingAreDistinct(es: seq<EntryRow>)
    requires Increasing(es)
    ensures DistinctIds(es)
  {
  }

  /** Everything the current cursor has still to show, in order. */
  lemma ListingIsSorted(es: seq<EntryRow>, before: Option<int>, f: Filter)
    requires Increasing(es)
    ensures IsListing(es, before, f, Sort(Where(es, Matching(es, before, f))))
  {
    var p := Matching(es, before, f);
    IncreasingAreDistinct(es);
    WhereKeepsDistinct(es, p);
    SortSorts(Where(es, p));
  }

  // ------------------------------------------------------------ following

  /** A page is a beginning of what was left; without `more` it is all of it, and with it the page moved on. */
  lemma PageIsBeginning(v: Visit, before: Option<int>, f: Filter)
    requires Increasing(v.es)
    ensures var all := Sort(Where(v.es, Matching(v.es, before, f)));
      && Items(v, before, f) == all[..|Items(v, before, f)|] && |Items(v, before, f)| <= |all|
      && (!More(v, before, f) ==> Items(v, before, f) == all)
      && (More(v, before, f) && v.fits > 0 ==> Items(v, before, f) != [])
  {
  }

  /**
    A client following `more`, with the last id it saw as the cursor. Rows may
    be removed between pages, but not the one the cursor names; limits and
    frame cuts may change from page to page, as long as one row fits.
  */
  ghost predicate IsWalk(visits: seq<Visit>, before: Option<int>, f: Filter)
    decreases |visits|
  {
    visits != [] && Increasing(visits[0].es) && visits[0].fits > 0 &&
    if !More(visits[0], before, f) then |visits| == 1
    else
      var items := Items(visits[0], before, f);
      && |visits| > 1 && items != []
      && (exists gone: set<int> :: items[|items| - 1].id !in gone && visits[1].es == DropEntries(visits[0].es, gone))
      && IsWalk(visits[1..], Some(items[|items| - 1].id), f)
  }

  /** All the rows the client was shown, in the order it saw them. */
  function Shown(visits: seq<Visit>, before: Option<int>, f: Filter): seq<EntryRow>
    decreases |visits|
  {
    if visits == [] then []
    else
      var items := Items(visits[0], before, f);
      if items == [] then [] else items + Shown(visits[1..], Some(items[|items| - 1].id), f)
  }

  lemma {:induction false} FindOnly(es: seq<EntryRow>, e: EntryRow)
    requires Increasing(es) && e in es
    ensures Find(es, e.id) == Some(e)
  {
    var i :| 0 <= i < |es| && es[i] == e;
    var found := Find(es, e.id);
    assert found.Some?;
    var j :| 0 <= j < |es| && es[j] == found.value;
    assert i == j;
  }

  /** `all` is what the cursor has still to show, in order. */
  ghost predicate IsListing(es: seq<EntryRow>, before: Option<int>, f: Filter, all: seq<EntryRow>) {
    Sorted(all) && forall e :: e in all <==> e in es && Wanted(f, e) && Past(es, before)(e)
  }

  lemma PageSplits(all: seq<EntryRow>, n: nat, e: EntryRow)
    requires Sorted(all) && 0 < n <= |all|
    ensures e in all ==> e in all[..n] || Precedes(all[n - 1], e)
    ensures Precedes(all[n - 1], e) ==> e !in all[..n]
  {
    if e in all {
      var k :| 0 <= k < |all| && all[k] == e;
      if k < n {
        assert all[..n][k] == e;
      } else {
        assert Precedes(all[n - 1], all[k]);
      }
    }
    if Precedes(all[n - 1], e) {
      forall k | 0 <= k < n
        ensures all[k] != e
      {
        if k < n - 1 {
          assert Precedes(all[k], all[n - 1]);
        }
      }
    }
  }

  /** What is left past the last row shown is what was left before, past that row. */
  lemma CursorMoves(es: seq<EntryRow>, before: Option<int>, f: Filter, all: seq<EntryRow>, n: nat, gone: set<int>)
    requires Increasing(es) && IsListing(es, before, f, all) && 0 < n <= |all| && CursorThere(es, before)
    requires all[n - 1].id !in gone
    ensures var last, after := all[n - 1], DropEntries(es, gone);
      && Increasing(after) && last in after
      && (forall e :: Past(after, Some(last.id))(e) <==> Precedes(last, e))
      && (forall e <- after | Wanted(f, e) && Past(es, before)(e) :: e in all[..n] || Precedes(last, e))
      && (forall e <- after | Wanted(f, e) && Precedes(last, e) :: Past(es, before)(e) && e !in all[..n])
  {
    var last, after := all[n - 1], DropEntries(es, gone);
    DropKeepsOrder(es, gone);
    assert last in all;
    FindOnly(after, last);
    forall e <- after | Wanted(f, e)
      ensures Past(es, before)(e) ==> e in all[..n] || Precedes(last, e)
      ensures Precedes(last, e) ==> Past(es, before)(e) && e !in all[..n]
    {
      PageSplits(all, n, e);
      if Precedes(last, e) {
        FurtherIsPast(es, before, last, e);
      }
    }
  }

  /** Whatever comes after a row past the cursor is past the cursor, when the cursor has its row. */
  lemma FurtherIsPast(es: seq<EntryRow>, before: Option<int>, last: EntryRow, e: EntryRow)
    requires Past(es, before)(last) && Precedes(last, e)
    requires CursorThere(es, before)
    ensures Past(es, before)(e)
  {
  }

  predicate CursorThere(es: seq<EntryRow>, before: Option<int>) {
    before.Some? ==> Find(es, before.value).Some?
  }

  /**
    What a walk from `before` over `es`, ending at the table `end`, should show:
    sorted, belonging, and missing nothing that survived.
  */
  ghost predicate ShownOk(es: seq<EntryRow>, before: Option<int>, f: Filter, shown: seq<EntryRow>, end: seq<EntryRow>) {
    && Sorted(shown)
    && (forall e <- shown :: e in es && Wanted(f, e) && Past(es, before)(e))
    && (forall e <- end :: e in es)
    && (forall e <- end | Wanted(f, e) && Past(es, before)(e) :: e in shown)
  }

  function Listing(v: Visit, before: Option<int>, f: Filter): seq<EntryRow> {
    Sort(Where(v.es, Matching(v.es, before, f)))
  }

  lemma WalkEnds(visits: seq<Visit>, before: Option<int>, f: Filter)
    requires IsWalk(visits, before, f) && !More(visits[0], before, f)
    ensures |visits| == 1 && Shown(visits, before, f) == Listing(visits[0], before, f)
  {
    PageIsBeginning(visits[0], before, f);
    assert visits[1..] == [];
  }

  lemma WalkGoesOn(visits: seq<Visit>, before: Option<int>, f: Filter) returns (n: nat, gone: set<int>)
    requires IsWalk(visits, before, f) && More(visits[0], before, f)
    ensures var all := Listing(visits[0], before, f);
      && |visits| > 1 && 0 < n <= |all| && all[n - 1].id !in gone
      && visits[1].es == DropEntries(visits[0].es, gone)
      && IsWalk(visits[1..], Some(all[n - 1].id), f)
      && Shown(visits, before, f) == all[..n] + Shown(visits[1..], Some(all[n - 1].id), f)
  {
    var items := Items(visits[0], before, f);
    n := |items|;
    PageIsBeginning(visits[0], before, f);
    gone :| items[n - 1].id !in gone && visits[1].es == DropEntries(visits[0].es, gone);
  }

  lemma LastPageShows(v: Visit, before: Option<int>, f: Filter)
    requires Increasing(v.es)
    ensures ShownOk(v.es, before, f, Listing(v, before, f), v.es)
  {
    ListingIsSorted(v.es, before, f);
  }

  lemma CursorStays(v: Visit, before: Option<int>, f: Filter, n: nat, gone: set<int>)
    requires Increasing(v.es) && 0 < n <= |Listing(v, before, f)| && Listing(v, before, f)[n - 1].id !in gone
    ensures CursorThere(DropEntries(v.es, gone), Some(Listing(v, before, f)[n - 1].id))
  {
    ListingIsSorted(v.es, before, f);
    var last := Listing(v, before, f)[n - 1];
    assert last in Listing(v, before, f);
    DropKeepsOrder(v.es, gone);
    FindOnly(DropEntries(v.es, gone), last);
  }

  lemma {:induction false} WalkShows(visits: seq<Visit>, before: Option<int>, f: Filter)
    requires IsWalk(visits, before, f) && CursorThere(visits[0].es, before)
    ensures ShownOk(visits[0].es, before, f, Shown(visits, before, f), visits[|visits| - 1].es)
    decreases |visits|
  {
    var v := visits[0];
    if !More(v, before, f) {
      WalkEnds(visits, before, f);
      LastPageShows(v, before, f);
    } else {
      var n, gone := WalkGoesOn(visits, before, f);
      var next := Some(Listing(v, before, f)[n - 1].id);
      var rest, end := visits[1..], visits[|visits| - 1].es;
      assert rest[0].es == DropEntries(v.es, gone) && rest[|rest| - 1].es == end;
      CursorStays(v, before, f, n, gone);
      WalkShows(rest, next, f);
      NextPages(v, before, f, n, gone, Shown(rest, next, f), end);
    }
  }

  /** Every page but the last shows something. */
  lemma {:induction false} WalkIsShort(visits: seq<Visit>, before: Option<int>, f: Filter)
    requires IsWalk(visits, before, f)
    ensures |visits| <= |Shown(visits, before, f)| + 1
    decreases |visits|
  {
    if More(visits[0], before, f) {
      var n, gone := WalkGoesOn(visits, before, f);
      WalkIsShort(visits[1..], Some(Listing(visits[0], before, f)[n - 1].id), f);
    } else {
      WalkEnds(visits, before, f);
    }
  }

  /** A page, and what the rest of the walk shows past its last row. */
  lemma NextPages(v: Visit, before: Option<int>, f: Filter, n: nat, gone: set<int>, more: seq<EntryRow>,
                  end: seq<EntryRow>)
    requires Increasing(v.es) && CursorThere(v.es, before)
    requires 0 < n <= |Listing(v, before, f)| && Listing(v, before, f)[n - 1].id !in gone
    requires ShownOk(DropEntries(v.es, gone), Some(Listing(v, before, f)[n - 1].id), f, more, end)
    ensures ShownOk(v.es, before, f, Listing(v, before, f)[..n] + more, end)
  {
    var all := Listing(v, before, f);
    ListingIsSorted(v.es, before, f);
    CursorMoves(v.es, before, f, all, n, gone);
    SortedJoin(all[..n], more);
    assert forall e <- all[..n] :: e in all;
  }

  lemma SortedJoin(a: seq<EntryRow>, b: seq<EntryRow>)
    requires a != [] && Sorted(a) && Sorted(b) && forall e <- b :: Precedes(a[|a| - 1], e)
    ensures Sorted(a + b)
  {
    forall i, j | 0 <= i < j < |a + b|
      ensures Precedes((a + b)[i], (a + b)[j])
    {
      if i < |a| <= j {
        assert b[j - |a|] in b;
        assert i < |a| - 1 ==> Precedes(a[i], a[|a| - 1]);
      }
    }
  }

  lemma HasFirst(es: seq<EntryRow>)
    ensures es == [] || exists e :: e in es
  {
    if es != [] {
      assert es[0] in es;
    }
  }

  lemma {:induction false} SortedOnce(a: seq<EntryRow>, b: seq<EntryRow>)
    requires Sorted(a) && Sorted(b) && forall e :: e in a <==> e in b
    ensures a == b
    decreases |a|
  {
    if a == [] {
      HasFirst(b);
    } else {
      assert a[0] in b && b != [] && b[0] in a;
      FirstIsFirst(a, b);
      FirstIsOnce(a);
      FirstIsOnce(b);
      assert a == [a[0]] + a[1..] && b == [b[0]] + b[1..];
      assert forall e :: e in a[1..] <==> e in a && e != a[0];
      assert forall e :: e in b[1..] <==> e in b && e != b[0];
      SortedOnce(a[1..], b[1..]);
    }
  }

  lemma FirstIsFirst(a: seq<EntryRow>, b: seq<EntryRow>)
    requires Sorted(a) && Sorted(b) && a != [] && b != [] && a[0] in b && b[0] in a
    ensures a[0] == b[0]
  {
    var i :| 0 <= i < |b| && b[i] == a[0];
    var j :| 0 <= j < |a| && a[j] == b[0];
    assert i > 0 ==> Precedes(b[0], b[i]);
    assert j > 0 ==> Precedes(a[0], a[j]);
  }

  lemma FirstIsOnce(a: seq<EntryRow>)
    requires Sorted(a) && a != []
    ensures a[0] !in a[1..]
  {
    forall k | 0 <= k < |a[1..]|
      ensures a[1..][k] != a[0]
    {
      assert Precedes(a[0], a[k + 1]);
    }
  }

  // ------------------------------------------------------- unfinished walks

  /** A client part way through: the same, but it may have stopped anywhere. */
  ghost predicate IsFollowing(visits: seq<Visit>, before: Option<int>, f: Filter)
    decreases |visits|
  {
    visits != [] && Increasing(visits[0].es) && visits[0].fits > 0 &&
    (|visits| == 1 ||
      var items := Items(visits[0], before, f);
      && More(visits[0], before, f) && items != []
      && (exists gone: set<int> :: items[|items| - 1].id !in gone && visits[1].es == DropEntries(visits[0].es, gone))
      && IsFollowing(visits[1..], Some(items[|items| - 1].id), f))
  }

  lemma PastThePage(all: seq<EntryRow>, n: nat, e: EntryRow)
    requires n <= |all| && e in all && e !in all[..n]
    ensures e in all[n..]
  {
    assert all == all[..n] + all[n..];
  }

  /** What is left to show past a page is no more than what the page did not show. */
  lemma LessIsLeft(v: Visit, before: Option<int>, f: Filter, n: nat, next: Visit, gone: set<int>)
    requires Increasing(v.es) && CursorThere(v.es, before)
    requires 0 < n <= |Listing(v, before, f)| && Listing(v, before, f)[n - 1].id !in gone
    requires next.es == DropEntries(v.es, gone)
    ensures |Listing(next, Some(Listing(v, before, f)[n - 1].id), f)| <= |Listing(v, before, f)| - n
  {
    var all := Listing(v, before, f);
    ListingIsSorted(v.es, before, f);
    CursorMoves(v.es, before, f, all, n, gone);
    ListingIsSorted(next.es, Some(all[n - 1].id), f);
    forall e <- Listing(next, Some(all[n - 1].id), f)
      ensures e in all[n..]
    {
      PastThePage(all, n, e);
    }
    NoMoreThanThere(Listing(next, Some(all[n - 1].id), f), all[n..]);
  }

  lemma {:induction false} FollowingIsShort(visits: seq<Visit>, before: Option<int>, f: Filter)
    requires IsFollowing(visits, before, f) && CursorThere(visits[0].es, before)
    ensures |visits| <= |Listing(visits[0], before, f)| + 1
    decreases |visits|
  {
    if |visits| > 1 {
      var n, gone := FollowingGoesOn(visits, before, f);
      CursorStays(visits[0], before, f, n, gone);
      LessIsLeft(visits[0], before, f, n, visits[1], gone);
      FollowingIsShort(visits[1..], Some(Listing(visits[0], before, f)[n - 1].id), f);
    }
  }

  lemma FollowingGoesOn(visits: seq<Visit>, before: Option<int>, f: Filter) returns (n: nat, gone: set<int>)
    requires IsFollowing(visits, before, f) && |visits| > 1
    ensures var all := Listing(visits[0], before, f);
      && 0 < n <= |all| && all[n - 1].id !in gone
      && visits[1].es == DropEntries(visits[0].es, gone)
      && IsFollowing(visits[1..], Some(all[n - 1].id), f)
  {
    var items := Items(visits[0], before, f);
    n := |items|;
    PageIsBeginning(visits[0], before, f);
    gone :| items[n - 1].id !in gone && visits[1].es == DropEntries(visits[0].es, gone);
  }

  /** Following `more` from the top ends: no walk, finished or not, is longer than the archive it began with. */
  lemma FollowingEnds(visits: seq<Visit>, f: Filter)
    requires IsFollowing(visits, None, f)
    ensures |visits| <= |visits[0].es| + 1
  {
    FollowingIsShort(visits, None, f);
    ListingIsSorted(visits[0].es, None, f);
    NoMoreThanThere(Listing(visits[0], None, f), visits[0].es);
  }

  // ----------------------------------------------------------- the promise

  /**
    Following `more` from the top shows, in listing order and each once, every
    matching row that is still there at the end, however pages were limited or
    cut and whatever else was removed on the way; and it ends.
  */
  lemma WalkIsComplete(visits: seq<Visit>, f: Filter)
    requires IsWalk(visits, None, f)
    ensures Sorted(Shown(visits, None, f))
    ensures forall e <- Shown(visits, None, f) :: e in visits[0].es && Wanted(f, e)
    ensures forall e <- visits[|visits| - 1].es | Wanted(f, e) :: e in Shown(visits, None, f)
    ensures |visits| <= |visits[0].es| + 1
  {
    WalkShows(visits, None, f);
    WalkIsShort(visits, None, f);
    NoMoreThanThere(Shown(visits, None, f), visits[0].es);
  }

  lemma NoMoreThanThere(shown: seq<EntryRow>, es: seq<EntryRow>)
    requires Sorted(shown) && forall e <- shown :: e in es
    ensures |shown| <= |es|
  {
    forall i, j | 0 <= i < j < |shown|
      ensures shown[i] != shown[j]
    {
      assert Precedes(shown[i], shown[j]);
    }
    NoRepeatsCount(shown);
    AtMostItsLength(es);
    assert ToSet(es) == ToSet(shown) + (ToSet(es) - ToSet(shown));
  }

  lemma {:induction false} AtMostItsLength(es: seq<EntryRow>)
    ensures |ToSet(es)| <= |es|
  {
    if es != [] {
      AtMostItsLength(es[1..]);
      assert es == [es[0]] + es[1..];
      assert ToSet(es) == {es[0]} + ToSet(es[1..]);
    }
  }

  /** With nothing removed on the way the pages joined are exactly the listing. */
  lemma PagesAreTheListing(visits: seq<Visit>, f: Filter)
    requires IsWalk(visits, None, f) && visits[|visits| - 1].es == visits[0].es
    ensures Shown(visits, None, f) == Sort(Where(visits[0].es, Matching(visits[0].es, None, f)))
  {
    WalkIsComplete(visits, f);
    ListingIsSorted(visits[0].es, None, f);
    SortedOnce(Shown(visits, None, f), Sort(Where(visits[0].es, Matching(visits[0].es, None, f))));
  }

  // ------------------------------------------------------- a cursor removed

  /** The page a client should get past a row it was shown, whether or not that row is still there. */
  function RightPage(es: seq<EntryRow>, cursor: EntryRow, limit: int, f: Filter): seq<EntryRow> {
    var all := Sort(Where(es, (e: EntryRow) => Wanted(f, e) && Precedes(cursor, e)));
    all[..Min(Clamp(limit), |all|)]
  }

  lemma RightListing(es: seq<EntryRow>, cursor: EntryRow, f: Filter)
    requires Increasing(es)
    ensures var all := Sort(Where(es, (e: EntryRow) => Wanted(f, e) && Precedes(cursor, e)));
      Sorted(all) && forall e :: e in all <==> e in es && Wanted(f, e) && Precedes(cursor, e)
  {
    var p := (e: EntryRow) => Wanted(f, e) && Precedes(cursor, e);
    IncreasingAreDistinct(es);
    WhereKeepsDistinct(es, p);
    SortSorts(Where(es, p));
  }

  /** Two listings have the same first page if each page's rows are all in the other listing. */
  lemma {:induction false} SameFirstPage(a: seq<EntryRow>, b: seq<EntryRow>, n: nat)
    requires Sorted(a) && Sorted(b)
    requires forall e <- a[..Min(n, |a|)] :: e in b
    requires forall e <- b[..Min(n, |b|)] :: e in a
    ensures a[..Min(n, |a|)] == b[..Min(n, |b|)]
    decreases n
  {
    if n > 0 && (a != [] || b != []) {
      SameHead(a, b, n);
      FirstIsOnce(a);
      FirstIsOnce(b);
      OthersInTail(a, b, n);
      OthersInTail(b, a, n);
      assert Sorted(a[1..]) && Sorted(b[1..]);
      SameFirstPage(a[1..], b[1..], n - 1);
      assert a[..Min(n, |a|)] == [a[0]] + a[1..][..Min(n - 1, |a| - 1)];
      assert b[..Min(n, |b|)] == [b[0]] + b[1..][..Min(n - 1, |b| - 1)];
    }
  }

  lemma SameHead(a: seq<EntryRow>, b: seq<EntryRow>, n: nat)
    requires Sorted(a) && Sorted(b) && n > 0 && (a != [] || b != [])
    requires forall e <- a[..Min(n, |a|)] :: e in b
    requires forall e <- b[..Min(n, |b|)] :: e in a
    ensures a != [] && b != [] && a[0] == b[0]
  {
    if a != [] {
      assert a[..Min(n, |a|)][0] == a[0] && a[0] in b;
    }
    if b != [] {
      assert b[..Min(n, |b|)][0] == b[0] && b[0] in a;
    }
    FirstIsFirst(a, b);
  }

  lemma OthersInTail(a: seq<EntryRow>, b: seq<EntryRow>, n: nat)
    requires n > 0 && a != [] && b != [] && a[0] == b[0] && a[0] !in a[1..]
    requires forall e <- a[..Min(n, |a|)] :: e in b
    ensures forall e <- a[1..][..Min(n - 1, |a| - 1)] :: e in b[1..]
  {
    var page := a[1..][..Min(n - 1, |a| - 1)];
    forall k | 0 <= k < |page|
      ensures page[k] in b[1..]
    {
      assert page[k] == a[..Min(n, |a|)][k + 1] && page[k] in b;
      assert a[1..][k] == page[k] && page[k] != b[0];
      var i :| 0 <= i < |b| && b[i] == page[k];
      assert b[1..][i - 1] == page[k];
    }
  }

  /** The two pages agree when each shows only what belongs on the other. */
  lemma RemovedCursorPages(es: seq<EntryRow>, cursor: EntryRow, limit: int, f: Filter)
    requires Increasing(es) && cursor in es
    ensures var after := DropEntries(es, {cursor.id});
      Page(after, limit, Some(cursor.id), f) == RightPage(after, cursor, limit, f) <==>
        && (forall e <- Page(after, limit, Some(cursor.id), f) :: Precedes(cursor, e))
        && (forall e <- RightPage(after, cursor, limit, f) :: e.id < cursor.id)
  {
    var after := DropEntries(es, {cursor.id});
    DropKeepsOrder(es, {cursor.id});
    assert Find(after, cursor.id).None?;
    ListingIsSorted(after, Some(cursor.id), f);
    RightListing(after, cursor, f);
    var shown := Sort(Where(after, Matching(after, Some(cursor.id), f)));
    var right := Sort(Where(after, (e: EntryRow) => Wanted(f, e) && Precedes(cursor, e)));
    var n := Clamp(limit);
    assert forall e <- shown[..Min(n, |shown|)] :: e in shown;
    assert forall e <- right[..Min(n, |right|)] :: e in right;
    if && (forall e <- shown[..Min(n, |shown|)] :: Precedes(cursor, e))
       && (forall e <- right[..Min(n, |right|)] :: e.id < cursor.id) {
      SameFirstPage(shown, right, n);
    }
  }

  /** A listing comes after the cursor as a whole if its first page does: the head of the page leads everything. */
  lemma HeadLeads(all: seq<EntryRow>, n: nat, cursor: EntryRow)
    requires Sorted(all) && n > 0
    ensures (forall e <- all[..Min(n, |all|)] :: Precedes(cursor, e)) <==> (forall e <- all :: Precedes(cursor, e))
  {
    var page := all[..Min(n, |all|)];
    assert forall e <- page :: e in all;
    if all != [] {
      assert page[0] == all[0] && page[0] in page;
    }
    forall e <- all | forall x <- page :: Precedes(cursor, x)
      ensures Precedes(cursor, e)
    {
      var k :| 0 <= k < |all| && all[k] == e;
      assert k > 0 ==> Precedes(all[0], all[k]);
    }
  }

  /** So the page by ids is in place exactly when every row with a smaller id comes after the cursor. */
  lemma IdsComeAfter(es: seq<EntryRow>, cursor: EntryRow, limit: int, f: Filter)
    requires Increasing(es) && Find(es, cursor.id).None?
    ensures (forall e <- Page(es, limit, Some(cursor.id), f) :: Precedes(cursor, e)) <==>
      (forall e <- es | Wanted(f, e) && e.id < cursor.id :: Precedes(cursor, e))
  {
    var all := Sort(Where(es, Matching(es, Some(cursor.id), f)));
    ListingIsSorted(es, Some(cursor.id), f);
    HeadLeads(all, Clamp(limit), cursor);
    assert forall e :: e in all <==> e in es && Wanted(f, e) && e.id < cursor.id;
  }

  /**
    When the cursor's own row is removed the page after it falls back to ids.
    The client gets the right page if and only if every matching row with a
    smaller id comes after the removed one, and every row that belongs on the
    page has a smaller id. Both are facts about the table before the request.
  */
  lemma RemovedCursor(es: seq<EntryRow>, cursor: EntryRow, limit: int, f: Filter)
    requires Increasing(es) && cursor in es
    ensures var after := DropEntries(es, {cursor.id});
      Page(after, limit, Some(cursor.id), f) == RightPage(after, cursor, limit, f) <==>
        && (forall e <- after | Wanted(f, e) && e.id < cursor.id :: Precedes(cursor, e))
        && (forall e <- RightPage(after, cursor, limit, f) :: e.id < cursor.id)
  {
    var after := DropEntries(es, {cursor.id});
    DropKeepsOrder(es, {cursor.id});
    assert Find(after, cursor.id).None?;
    RemovedCursorPages(es, cursor, limit, f);
    IdsComeAfter(after, cursor, limit, f);
  }

  /** So it does for an archive in which ids grow with the listing, whatever the limit. */
  lemma RemovedCursorIsFine(es: seq<EntryRow>, cursor: EntryRow, limit: int, f: Filter)
    requires Increasing(es) && cursor in es
    requires forall e <- es | Wanted(f, e) && e != cursor :: e.id < cursor.id <==> Precedes(cursor, e)
    ensures var after := DropEntries(es, {cursor.id});
      Page(after, limit, Some(cursor.id), f) == RightPage(after, cursor, limit, f)
  {
    var after := DropEntries(es, {cursor.id});
    DropKeepsOrder(es, {cursor.id});
    assert Find(after, cursor.id).None?;
    ListingIsSorted(after, Some(cursor.id), f);
    RightListing(after, cursor, f);
    RemovedCursor(es, cursor, limit, f);
  }

  const ALL := Filter(None, None, None)

  /** After a page of `first` alone and its removal, the next page is empty although rows remain. */
  ghost predicate Hides(first: EntryRow, rest: seq<EntryRow>) {
    && Page([first] + rest, 1, None, ALL) == [first]
    && DropEntries([first] + rest, {first.id}) == rest
    && Page(rest, 1, Some(first.id), ALL) == []
    && Page(rest, 1, None, ALL) != []
  }

  /** An entry copied again keeps its old id; removed while it is the cursor, it hides everything after it. */
  lemma RemovedCursorHides(first: EntryRow, rest: seq<EntryRow>)
    requires rest != [] && Increasing([first] + rest) && forall e <- rest :: Precedes(first, e)
    ensures Hides(first, rest)
  {
    var es := [first] + rest;
    forall e <- rest
      ensures e.id > first.id
    {
      var k :| 0 <= k < |rest| && rest[k] == e;
      assert es[0] == first && es[k + 1] == e;
    }
    FirstOfSorted(es, first);
    DropFirst(first, rest);
    assert Find(rest, first.id).None?;
    TailIncreasing(first, rest);
    NothingPast(rest, Some(first.id));
    SomethingFirst(rest);
  }

  const WORDS := Facts(Text, None, None, None, None, None, None)

  function TextPart(c: char): Part {
    Part("text/plain", seq(64, i => c), 5)
  }

  const FIRST := RowOf(1, "one", [TextPart('a')], WORDS, 10)
  const SECOND := RowOf(2, "two", [TextPart('b')], WORDS, 20)

  function CopiedTwo(): Db {
    Inserted(Inserted(EMPTY, "one", [TextPart('a')], WORDS, 10), "two", [TextPart('b')], WORDS, 20)
  }

  /** Two texts are copied, then the first one again. */
  function CopiedAgain(): Db {
    Touched(CopiedTwo(), "one", 30)
  }

  lemma CopiedTwoRows()
    ensures CopiedTwo().entries == [FIRST, SECOND]
  {
    assert Inserted(EMPTY, "one", [TextPart('a')], WORDS, 10).entries == [FIRST];
  }

  lemma CopiedTwoIsValid()
    ensures Valid(CopiedTwo())
  {
    var one := Inserted(EMPTY, "one", [TextPart('a')], WORDS, 10);
    InsertedKeepsValid(EMPTY, "one", [TextPart('a')], WORDS, 10);
    assert one.entries == [FIRST];
    assert "one" != "two" by { assert "one"[0] != "two"[0]; }
    assert FindIdentity([FIRST], "two").None?;
    InsertedKeepsValid(one, "two", [TextPart('b')], WORDS, 20);
  }

  lemma CopiedAgainRows()
    ensures CopiedAgain().entries == [FIRST.(at := 30)] + [SECOND]
  {
    CopiedTwoRows();
    var es := [FIRST, SECOND];
    assert "one" != "two" by { assert "one"[0] != "two"[0]; }
    assert es[..1] == [FIRST] && FindIdentity([FIRST], "one") == Some(1);
    assert FindIdentity(es, "one") == Some(1);
  }

  /** Two entries are enough: the older one copied again, shown first, and removed while it is the cursor. */
  lemma RemovedCursorHidesARow()
    ensures Valid(CopiedAgain()) && CopiedAgain().entries == [FIRST.(at := 30)] + [SECOND]
    ensures Hides(FIRST.(at := 30), [SECOND])
  {
    CopiedTwoIsValid();
    CopiedAgainRows();
    TouchedKeepsValid(CopiedTwo(), "one", 30);
    RemovedCursorHides(FIRST.(at := 30), [SECOND]);
  }

  lemma SomethingFirst(es: seq<EntryRow>)
    requires Increasing(es) && es != []
    ensures Page(es, 1, None, ALL) != []
  {
    ListingIsSorted(es, None, ALL);
    assert es[0] in Sort(Where(es, Matching(es, None, ALL)));
  }

  lemma TailIncreasing(first: EntryRow, rest: seq<EntryRow>)
    requires Increasing([first] + rest)
    ensures Increasing(rest)
  {
    var es := [first] + rest;
    assert forall i | 0 <= i < |rest| :: rest[i] == es[i + 1];
  }

  lemma NothingPast(es: seq<EntryRow>, before: Option<int>)
    requires Increasing(es) && forall e <- es :: !Past(es, before)(e)
    ensures Page(es, 1, before, ALL) == []
  {
    ListingIsSorted(es, before, ALL);
    var all := Sort(Where(es, Matching(es, before, ALL)));
    HasFirst(all);
  }

  lemma {:induction false} DropFirst(first: EntryRow, es: seq<EntryRow>)
    requires forall e <- es :: e.id != first.id
    ensures DropEntries([first] + es, {first.id}) == es
  {
    if es == [] {
      assert ([first] + es)[..0] == [];
    } else {
      var n := |es| - 1;
      DropFirst(first, es[..n]);
      assert ([first] + es)[..n + 1] == [first] + es[..n];
    }
  }

  lemma FirstOfSorted(es: seq<EntryRow>, first: EntryRow)
    requires Increasing(es) && first in es && forall e <- es | e != first :: Precedes(first, e)
    ensures Page(es, 1, None, ALL) == [first]
  {
    ListingIsSorted(es, None, ALL);
    var all := Sort(Where(es, Matching(es, None, ALL)));
    assert first in all;
    var k :| 0 <= k < |all| && all[k] == first;
    assert k == 0 || Precedes(all[0], all[k]);
    assert all[0] in all;
  }
}
