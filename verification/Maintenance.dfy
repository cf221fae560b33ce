/**
  Retention: one wake of the maintenance timer deletes at most four batches of
  256 expired entries, oldest first, and tells the watchers.
*/
module Maintenance {
  import opened Wrappers
  import opened Tables
  import opened TableLemmas
  import opened Ages
  import opened Index

  const BATCH := 256
  const BATCHES := 4
  const MIN_I64 := -0x8000_0000_0000_0000
  const MAX_I64 := 0x7fff_ffff_ffff_ffff

  function SaturatingSub(a: int, b: int): int {
    if a - b < MIN_I64 then MIN_I64 else if a - b > MAX_I64 then MAX_I64 else a - b
  }

  /** A batch that came back short took everything there was. */
  lemma ShortBatch(db: Db, cutoff: int, removed: seq<int>, i: nat)
    requires ExpiresTo(db, cutoff, BATCH * i, removed) && |removed| < BATCH * i && i <= BATCHES
    ensures ExpiresTo(db, cutoff, BATCH * BATCHES, removed)
  {
  }

  lemma NothingExpired(db: Db, cutoff: int)
    requires Valid(db)
    ensures ExpiresTo(db, cutoff, 0, []) && Without(db, ToSet([])) == db
  {
    WithoutNothing(db);
    assert ToSet<int>([]) == {};
  }

  lemma OnlyExpired(db: Db, cutoff: int, batch: nat, removed: seq<int>)
    requires Valid(db) && ExpiresTo(db, cutoff, batch, removed)
    ensures forall e <- db.entries | e.id in removed :: !e.pinned && e.at < cutoff
  {
    OldestFirstSpread(db.entries, Some(cutoff), removed);
    forall e <- db.entries | e.id in removed
      ensures !e.pinned && e.at < cutoff
    {
      assert e.id in EligibleIds(db.entries, Some(cutoff));
      var f :| f in db.entries && f.id == e.id && Eligible(f, Some(cutoff));
      SameIdSameRow(db.entries, e, f);
    }
  }

  lemma SameIdSameRow(es: seq<EntryRow>, e: EntryRow, f: EntryRow)
    requires Increasing(es) && e in es && f in es && e.id == f.id
    ensures e == f
  {
    var i :| 0 <= i < |es| && es[i] == e;
    var j :| 0 <= j < |es| && es[j] == f;
    assert i == j;
  }

  /**
    One wake. Uninterrupted, its batches are exactly the first 1024 expired
    entries in (at, id) order, or all of them; when the database defers it, a
    shorter beginning of the same order. `sound`: the database does not fail.
  */
  method Expire(index: Index, retention: Option<int>, now: int, sound: bool)
    returns (removed: seq<int>, deferred: bool)
    requires Valid(index.Rows())
    modifies index
    ensures Valid(index.Rows())
    ensures index.Rows() == Without(old(index.Rows()), ToSet(removed))
    ensures retention.None? ==> removed == []
    ensures |removed| <= BATCH * BATCHES
    ensures sound ==> !deferred
    ensures retention.Some? ==>
      var cutoff := SaturatingSub(now, retention.value);
      && ExpiresTo(old(index.Rows()), cutoff, if deferred then |removed| else BATCH * BATCHES, removed)
      && forall e <- old(index.entries) | e.id in removed :: !e.pinned && e.at < cutoff
  {
    ghost var before := index.Rows();
    removed, deferred := [], false;
    NothingExpired(before, 0);
    if retention.None? {
      return;
    }
    var cutoff := SaturatingSub(now, retention.value);
    NothingExpired(before, cutoff);
    var i := 0;
    while i < BATCHES
      invariant 0 <= i <= BATCHES && !deferred
      invariant Valid(index.Rows()) && index.Rows() == Without(before, ToSet(removed))
      invariant ExpiresTo(before, cutoff, BATCH * i, removed) && |removed| == BATCH * i
    {
      deferred := *;
      deferred := deferred && !sound;
      if deferred {
        break;
      }
      ghost var was := removed;
      var orphaned, batch := index.ExpireBefore(cutoff, BATCH);
      ExpiryAppend(before, cutoff, BATCH * i, BATCH, was, batch);
      removed := removed + batch;
      i := i + 1;
      if |batch| < BATCH {
        ShortBatch(before, cutoff, removed, i);
        break;
      }
    }
    OnlyExpired(before, cutoff, if deferred then |removed| else BATCH * BATCHES, removed);
  }

  /** Wakes one after another, with nothing recorded in between. */
  ghost predicate Wakes(db: Db, cutoff: int, wakes: seq<seq<int>>)
    decreases |wakes|
  {
    wakes == [] ||
      (ExpiresTo(db, cutoff, BATCH * BATCHES, wakes[0]) && Wakes(Without(db, ToSet(wakes[0])), cutoff, wakes[1..]))
  }

  function AllOf(wakes: seq<seq<int>>): seq<int> {
    if wakes == [] then [] else wakes[0] + AllOf(wakes[1..])
  }

  /** Any number of wakes is one pass with a batch of all their rows together. */
  lemma {:induction false} WakesAddUp(db: Db, cutoff: int, wakes: seq<seq<int>>)
    requires Valid(db) && Wakes(db, cutoff, wakes)
    ensures ExpiresTo(db, cutoff, BATCH * BATCHES * |wakes|, AllOf(wakes))
    decreases |wakes|
  {
    if wakes == [] {
      NothingExpired(db, cutoff);
    } else {
      WithoutKeepsValid(db, ToSet(wakes[0]));
      WakesAddUp(Without(db, ToSet(wakes[0])), cutoff, wakes[1..]);
      ExpiryAppend(db, cutoff, BATCH * BATCHES, BATCH * BATCHES * (|wakes| - 1), wakes[0], AllOf(wakes[1..]));
    }
  }

  function WakesNeeded(n: nat): nat {
    (n + BATCH * BATCHES - 1) / (BATCH * BATCHES)
  }

  /** A backlog of `n` expired entries is gone after ceil(n / 1024) wakes, and not one wake sooner. */
  lemma BacklogDrains(db: Db, cutoff: int, wakes: seq<seq<int>>)
    requires Valid(db) && Wakes(db, cutoff, wakes)
    ensures EligibleIds(Without(db, ToSet(AllOf(wakes))).entries, Some(cutoff)) == {}
      <==> |wakes| >= WakesNeeded(|EligibleIds(db.entries, Some(cutoff))|)
  {
    var all := AllOf(wakes);
    var due := EligibleIds(db.entries, Some(cutoff));
    WakesAddUp(db, cutoff, wakes);
    OldestFirstSpread(db.entries, Some(cutoff), all);
    NoRepeatsCount(all);
    EligibleAfterDrop(db.entries, Some(cutoff), ToSet(all));
    DrainedWhenCounted(ToSet(all), due);
    assert |all| == Min(1024 * |wakes|, |due|);
  }

  lemma DrainedWhenCounted(gone: set<int>, due: set<int>)
    requires gone <= due
    ensures due - gone == {} <==> |gone| == |due|
  {
    assert due == gone + (due - gone);
    assert |due| == |gone| + |due - gone|;
  }
}
