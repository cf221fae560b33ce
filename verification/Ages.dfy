/**
  Which entries the daemon collects on its own, and in what order.

  Eviction and expiry both walk `ORDER BY at, id` over unpinned rows. The
  order is stated here without sorting anything: a list of ids is oldest first
  when each one is the oldest of those the list has not yet named.
*/
module Ages {
  import opened Wrappers
  import opened Tables
  import opened TableLemmas

  /** Unpinned, and strictly older than the cutoff when there is one. */
  predicate Eligible(e: EntryRow, cutoff: Option<int>) {
    !e.pinned && (cutoff.Some? ==> e.at < cutoff.value)
  }

  predicate Older(a: EntryRow, b: EntryRow) {
    a.at < b.at || (a.at == b.at && a.id < b.id)
  }

  function ToSet<T(==)>(xs: seq<T>): set<T> {
    set x <- xs
  }

  ghost predicate NoRepeats<T>(xs: seq<T>) {
    forall i, j :: 0 <= i < j < |xs| ==> xs[i] != xs[j]
  }

  ghost function EligibleIds(es: seq<EntryRow>, cutoff: Option<int>): set<int> {
    set e <- es | Eligible(e, cutoff) :: e.id
  }

  ghost predicate IsOldest(es: seq<EntryRow>, cutoff: Option<int>, gone: set<int>, id: int) {
    exists e <- es :: e.id == id && id !in gone && Eligible(e, cutoff)
      && forall f <- es | Eligible(f, cutoff) && f.id !in gone && f.id != id :: Older(e, f)
  }

  ghost predicate OldestFirst(es: seq<EntryRow>, cutoff: Option<int>, ids: seq<int>) {
    forall k | 0 <= k < |ids| :: IsOldest(es, cutoff, ToSet(ids[..k]), ids[k])
  }

  /**
    The specification of eviction: the shortest oldest-first run of unpinned
    entries whose removal fits the budget, or all of them when none does.
  */
  ghost predicate EvictsTo(db: Db, budget: int, removed: seq<int>) {
    && OldestFirst(db.entries, None, removed)
    && (forall k | 0 <= k < |removed| :: Used(Without(db, ToSet(removed[..k]))) > budget)
    && (Used(Without(db, ToSet(removed))) <= budget
        || EligibleIds(Without(db, ToSet(removed)).entries, None) == {})
  }

  /** The specification of one expiry pass: the oldest `batch` eligible entries, or all of them. */
  ghost predicate ExpiresTo(db: Db, cutoff: int, batch: nat, removed: seq<int>) {
    && OldestFirst(db.entries, Some(cutoff), removed)
    && |removed| == Min(batch, |EligibleIds(db.entries, Some(cutoff))|)
  }

  function Min(a: nat, b: nat): nat {
    if a < b then a else b
  }

  // ------------------------------------------------------------- lemmas

  lemma ToSetAppend<T>(xs: seq<T>, ys: seq<T>)
    ensures ToSet(xs + ys) == ToSet(xs) + ToSet(ys)
  {
  }

  lemma OldestFirstSpread(es: seq<EntryRow>, cutoff: Option<int>, ids: seq<int>)
    requires OldestFirst(es, cutoff, ids)
    ensures NoRepeats(ids)
    ensures ToSet(ids) <= EligibleIds(es, cutoff)
  {
    forall i, j | 0 <= i < j < |ids|
      ensures ids[i] != ids[j]
    {
      assert IsOldest(es, cutoff, ToSet(ids[..j]), ids[j]);
      assert ids[i] in ids[..j];
    }
    forall id <- ids
      ensures id in EligibleIds(es, cutoff)
    {
      var k :| 0 <= k < |ids| && ids[k] == id;
      assert IsOldest(es, cutoff, ToSet(ids[..k]), ids[k]);
    }
  }

  lemma {:induction false} NoRepeatsCount<T>(xs: seq<T>)
    requires NoRepeats(xs)
    ensures |ToSet(xs)| == |xs|
  {
    if xs != [] {
      var front, last := xs[..|xs| - 1], xs[|xs| - 1];
      NoRepeatsCount(front);
      assert ToSet(xs) == ToSet(front) + {last};
    }
  }

  /** There is only one oldest entry, so an oldest-first list is fixed by its length. */
  lemma {:induction false} OldestFirstUnique(es: seq<EntryRow>, cutoff: Option<int>, a: seq<int>, b: seq<int>)
    requires OldestFirst(es, cutoff, a) && OldestFirst(es, cutoff, b)
    requires |a| <= |b|
    ensures a == b[..|a|]
  {
    if a != [] {
      var n := |a| - 1;
      OldestFirstPrefix(es, cutoff, a, n);
      OldestFirstUnique(es, cutoff, a[..n], b);
      assert IsOldest(es, cutoff, ToSet(a[..n]), a[n]);
      assert IsOldest(es, cutoff, ToSet(b[..n]), b[n]);
      assert a[..n] == b[..n];
      assert a == a[..n] + [a[n]] && b[..|a|] == b[..n] + [b[n]];
    }
  }

  lemma OldestFirstPrefix(es: seq<EntryRow>, cutoff: Option<int>, ids: seq<int>, n: nat)
    requires OldestFirst(es, cutoff, ids) && n <= |ids|
    ensures OldestFirst(es, cutoff, ids[..n])
  {
    forall k | 0 <= k < n
      ensures IsOldest(es, cutoff, ToSet(ids[..n][..k]), ids[..n][k])
    {
      assert ids[..n][..k] == ids[..k];
      assert IsOldest(es, cutoff, ToSet(ids[..k]), ids[k]);
    }
  }

  lemma OldestAfterDrop(es: seq<EntryRow>, cutoff: Option<int>, gone: set<int>, more: set<int>, id: int)
    ensures IsOldest(DropEntries(es, gone), cutoff, more, id) <==> IsOldest(es, cutoff, gone + more, id)
  {
    if IsOldest(DropEntries(es, gone), cutoff, more, id) {
      var e :| e in DropEntries(es, gone) && e.id == id && id !in more && Eligible(e, cutoff)
        && forall f <- DropEntries(es, gone) | Eligible(f, cutoff) && f.id !in more && f.id != id :: Older(e, f);
      assert e in es;
      forall f <- es | Eligible(f, cutoff) && f.id !in gone + more && f.id != id
        ensures Older(e, f)
      {
        assert f in DropEntries(es, gone);
      }
    }
    if IsOldest(es, cutoff, gone + more, id) {
      var e :| e in es && e.id == id && id !in gone + more && Eligible(e, cutoff)
        && forall f <- es | Eligible(f, cutoff) && f.id !in gone + more && f.id != id :: Older(e, f);
      assert e in DropEntries(es, gone);
    }
  }

  /** Collecting oldest first, and then oldest first from what is left, is one oldest-first pass. */
  lemma OldestFirstAppend(es: seq<EntryRow>, cutoff: Option<int>, a: seq<int>, b: seq<int>)
    requires OldestFirst(es, cutoff, a)
    requires OldestFirst(DropEntries(es, ToSet(a)), cutoff, b)
    ensures OldestFirst(es, cutoff, a + b)
  {
    forall k | 0 <= k < |a + b|
      ensures IsOldest(es, cutoff, ToSet((a + b)[..k]), (a + b)[k])
    {
      if k < |a| {
        assert (a + b)[..k] == a[..k];
        assert IsOldest(es, cutoff, ToSet(a[..k]), a[k]);
      } else {
        var j := k - |a|;
        assert (a + b)[..k] == a + b[..j];
        ToSetAppend(a, b[..j]);
        assert IsOldest(DropEntries(es, ToSet(a)), cutoff, ToSet(b[..j]), b[j]);
        OldestAfterDrop(es, cutoff, ToSet(a), ToSet(b[..j]), b[j]);
      }
    }
  }

  lemma EligibleAfterDrop(es: seq<EntryRow>, cutoff: Option<int>, gone: set<int>)
    requires Increasing(es)
    ensures EligibleIds(DropEntries(es, gone), cutoff) == EligibleIds(es, cutoff) - gone
  {
  }

  /** The specification of eviction has at most one answer. */
  lemma EvictionUnique(db: Db, budget: int, a: seq<int>, b: seq<int>)
    requires EvictsTo(db, budget, a) && EvictsTo(db, budget, b)
    ensures a == b
  {
    if |a| <= |b| {
      EvictionNoLonger(db, budget, a, b);
    } else {
      EvictionNoLonger(db, budget, b, a);
    }
  }

  /** Eviction goes on past `n` victims only while over budget with a victim left. */
  lemma EvictionGoesOn(db: Db, budget: int, removed: seq<int>, n: nat)
    requires EvictsTo(db, budget, removed) && n < |removed|
    ensures Used(Without(db, ToSet(removed[..n]))) > budget
    ensures EligibleIds(Without(db, ToSet(removed[..n])).entries, None) != {}
  {
    var gone := ToSet(removed[..n]);
    assert IsOldest(db.entries, None, gone, removed[n]);
    var e :| e in db.entries && e.id == removed[n] && e.id !in gone && Eligible(e, None);
    assert e in DropEntries(db.entries, gone);
    assert e.id in EligibleIds(Without(db, gone).entries, None);
  }

  lemma EvictionNoLonger(db: Db, budget: int, a: seq<int>, b: seq<int>)
    requires EvictsTo(db, budget, a) && EvictsTo(db, budget, b) && |a| <= |b|
    ensures a == b
  {
    if |a| < |b| {
      EvictionGoesOn(db, budget, b, |a|);
    }
    OldestFirstUnique(db.entries, None, a, b);
  }

  /** The specification of an expiry pass has at most one answer. */
  lemma ExpiryUnique(db: Db, cutoff: int, batch: nat, a: seq<int>, b: seq<int>)
    requires ExpiresTo(db, cutoff, batch, a) && ExpiresTo(db, cutoff, batch, b)
    ensures a == b
  {
    OldestFirstUnique(db.entries, Some(cutoff), a, b);
  }

  /**
    Two passes are one larger pass: a batch of `m` after a batch of `n` removes
    exactly what one batch of `n + m` would have.
  */
  lemma ExpiryAppend(db: Db, cutoff: int, n: nat, m: nat, a: seq<int>, b: seq<int>)
    requires Valid(db)
    requires ExpiresTo(db, cutoff, n, a)
    requires ExpiresTo(Without(db, ToSet(a)), cutoff, m, b)
    ensures ExpiresTo(db, cutoff, n + m, a + b)
    ensures Without(Without(db, ToSet(a)), ToSet(b)) == Without(db, ToSet(a + b))
  {
    OldestFirstAppend(db.entries, Some(cutoff), a, b);
    EligibleAfterDrop(db.entries, Some(cutoff), ToSet(a));
    OldestFirstSpread(db.entries, Some(cutoff), a);
    NoRepeatsCount(a);
    CountLeft(ToSet(a), EligibleIds(db.entries, Some(cutoff)));
    ToSetAppend(a, b);
    WithoutTwice(db, ToSet(a), ToSet(b));
  }

  lemma CountLeft(gone: set<int>, due: set<int>)
    requires gone <= due
    ensures |due - gone| == |due| - |gone|
  {
    assert due == gone + (due - gone);
  }
}
