/**
  The archive's metadata as the daemon keeps it: four tables updated in place,
  one transaction at a time.

  A method that opens a transaction works on a local copy and assigns the
  fields only when it commits, so an error leaves the tables as they were.
*/
module Index {
  import opened Wrappers
  import opened Tables
  import opened TableLemmas
  import opened Ages

  datatype DbError = IdentityTaken | MimeTwice | BodyTaken

  // ------------------------------------------------- releasing one entry

  lemma RowsDeleted(db: Db, id: int, left: map<string, BlobRow>)
    requires left == Without(db, {id}).blobs
    ensures Db(DropEntries(db.entries, {id}), DropParts(db.parts, {id}), left, db.bodies - {id}) == Without(db, {id})
  {
    assert Without(db, {id}).bodies == db.bodies - {id};
  }

  lemma CountInAppend(ds: seq<string>, last: string, d: string)
    ensures CountIn(ds + [last], d) == CountIn(ds, d) + if last == d then 1 else 0
  {
    assert (ds + [last])[..|ds|] == ds;
  }

  lemma {:induction false} EntryPartsCounted(ps: seq<PartRow>, id: int, d: string)
    ensures CountParts(ps, d) == CountParts(DropParts(ps, {id}), d) + CountIn(Digests(PartsOf(ps, id)), d)
  {
    if ps != [] {
      var front, last := ps[..|ps| - 1], ps[|ps| - 1];
      EntryPartsCounted(front, id, d);
      if last.entry == id {
        assert Digests(PartsOf(front, id) + [last]) == Digests(PartsOf(front, id)) + [last.digest];
        CountInAppend(Digests(PartsOf(front, id)), last.digest, d);
      } else {
        CountPartsAppend(DropParts(front, {id}), last, d);
      }
    }
  }

  lemma CountPartsAppend(ps: seq<PartRow>, last: PartRow, d: string)
    ensures CountParts(ps + [last], d) == CountParts(ps, d) + if last.digest == d then 1 else 0
  {
    assert (ps + [last])[..|ps|] == ps;
  }

  lemma {:induction false} EntryThumbCounted(es: seq<EntryRow>, id: int, d: string)
    requires Increasing(es)
    ensures CountThumbs(es, d) == CountThumbs(DropEntries(es, {id}), d)
      + match Find(es, id) case Some(e) => (if e.thumb == Some(d) then 1 else 0) case None => 0
  {
    if es != [] {
      var front, last := es[..|es| - 1], es[|es| - 1];
      EntryThumbCounted(front, id, d);
      var kept := DropEntries(front, {id});
      if last.id == id {
        assert Find(front, id).None?;
      } else {
        assert (kept + [last])[..|kept|] == kept;
      }
    }
  }

  /** What an entry releases is exactly what the surviving rows no longer count. */
  lemma ReleaseAccounts(db: Db, id: int, d: string)
    requires Increasing(db.entries)
    ensures Refs(db.entries, db.parts, d)
         == Refs(DropEntries(db.entries, {id}), DropParts(db.parts, {id}), d) + CountIn(DigestsOf(db, id), d)
  {
    EntryPartsCounted(db.parts, id, d);
    EntryThumbCounted(db.entries, id, d);
    var mine := Digests(PartsOf(db.parts, id));
    match Find(db.entries, id) {
      case None => assert DigestsOf(db, id) == mine;
      case Some(e) =>
        if e.thumb.Some? {
          CountInAppend(mine, e.thumb.value, d);
        } else {
          assert DigestsOf(db, id) == mine;
        }
    }
  }

  /** `blob` after the first `n` of an entry's references were dropped. */
  ghost predicate PartlyReleased(db: Db, id: int, n: nat, blobs: map<string, BlobRow>)
    requires n <= |DigestsOf(db, id)|
  {
    var done := DigestsOf(db, id)[..n];
    forall d: string ::
      && (d in blobs <==> Refs(db.entries, db.parts, d) > CountIn(done, d))
      && (d in blobs ==>
            d in db.blobs && blobs[d] == BlobRow(db.blobs[d].bytes, Refs(db.entries, db.parts, d) - CountIn(done, d)))
  }

  lemma {:induction false} CountInGrows(ds: seq<string>, n: nat, d: string)
    requires n < |ds|
    ensures CountIn(ds[..n + 1], d) == CountIn(ds[..n], d) + if ds[n] == d then 1 else 0
    ensures CountIn(ds[..n + 1], d) <= CountIn(ds, d)
    decreases |ds|
  {
    assert ds[..n + 1][..n] == ds[..n];
    if n + 1 < |ds| {
      CountInGrows(ds[..|ds| - 1], n, d);
      assert ds[..|ds| - 1][..n + 1] == ds[..n + 1] && ds[..|ds| - 1][..n] == ds[..n];
    } else {
      assert ds[..n + 1] == ds;
    }
  }

  /** The blob table, the digests that fell to zero and the bytes they held, part way through a release. */
  datatype Released = Released(blobs: map<string, BlobRow>, orphaned: seq<string>, freed: nat)

  /** `UPDATE ... refs - 1`, then `DELETE` when nothing is left; a row already gone counts as zero. */
  function ReleaseOne(r: Released, d: string): Released {
    if d !in r.blobs then Released(r.blobs, r.orphaned + [d], r.freed)
    else if r.blobs[d].refs <= 1 then Released(r.blobs - {d}, r.orphaned + [d], r.freed + r.blobs[d].bytes)
    else r.(blobs := r.blobs[d := BlobRow(r.blobs[d].bytes, r.blobs[d].refs - 1)])
  }

  function ReleaseAll(blobs: map<string, BlobRow>, digests: seq<string>): Released {
    if digests == [] then Released(blobs, [], 0)
    else ReleaseOne(ReleaseAll(blobs, digests[..|digests| - 1]), digests[|digests| - 1])
  }

  lemma OneMoreReleased(blobs: map<string, BlobRow>, digests: seq<string>, n: nat)
    requires n < |digests|
    ensures ReleaseAll(blobs, digests[..n + 1]) == ReleaseOne(ReleaseAll(blobs, digests[..n]), digests[n])
  {
    assert digests[..n + 1][..n] == digests[..n];
  }

  lemma ReleaseStep(db: Db, id: int, n: nat, r: Released)
    requires Valid(db) && n < |DigestsOf(db, id)|
    requires PartlyReleased(db, id, n, r.blobs)
    ensures DigestsOf(db, id)[n] in r.blobs
    ensures PartlyReleased(db, id, n + 1, ReleaseOne(r, DigestsOf(db, id)[n]).blobs)
  {
    var digests := DigestsOf(db, id);
    var digest := digests[n];
    forall d: string
      ensures CountIn(digests[..n + 1], d) == CountIn(digests[..n], d) + if digest == d then 1 else 0
      ensures CountIn(digests[..n + 1], d) <= Refs(db.entries, db.parts, d)
    {
      CountInGrows(digests, n, d);
      ReleaseAccounts(db, id, d);
    }
    assert digest in r.blobs;
    var after := ReleaseOne(r, digest).blobs;
    forall d: string
      ensures d in after <==> Refs(db.entries, db.parts, d) > CountIn(digests[..n + 1], d)
      ensures d in after ==> d in db.blobs
      ensures d in after ==>
        after[d] == BlobRow(db.blobs[d].bytes, Refs(db.entries, db.parts, d) - CountIn(digests[..n + 1], d))
    {
    }
  }

  /** The orphans so far are the rows that disappeared, each once, and the bytes so far are theirs. */
  ghost predicate Accounts(blobs: map<string, BlobRow>, r: Released) {
    && r.blobs.Keys <= blobs.Keys
    && NoRepeats(r.orphaned) && ToSet(r.orphaned) == blobs.Keys - r.blobs.Keys
    && SumBytes(blobs) == SumBytes(r.blobs) + r.freed
  }

  lemma AccountsStep(blobs: map<string, BlobRow>, r: Released, d: string)
    requires Accounts(blobs, r) && d in r.blobs
    ensures Accounts(blobs, ReleaseOne(r, d))
  {
    if r.blobs[d].refs <= 1 {
      SumOfRest(r.blobs, d);
      OrphanOne(r.orphaned, d, blobs.Keys, r.blobs);
    } else {
      SumOfSub(ReleaseOne(r, d).blobs, r.blobs);
    }
  }

  lemma {:induction false} ReleasePrefix(db: Db, id: int, n: nat)
    requires Valid(db) && n <= |DigestsOf(db, id)|
    ensures PartlyReleased(db, id, n, ReleaseAll(db.blobs, DigestsOf(db, id)[..n]).blobs)
    ensures Accounts(db.blobs, ReleaseAll(db.blobs, DigestsOf(db, id)[..n]))
  {
    var digests := DigestsOf(db, id);
    if n > 0 {
      ReleasePrefix(db, id, n - 1);
      var r := ReleaseAll(db.blobs, digests[..n - 1]);
      ReleaseStep(db, id, n - 1, r);
      AccountsStep(db.blobs, r, digests[n - 1]);
      OneMoreReleased(db.blobs, digests, n - 1);
    } else {
      assert digests[..n] == [];
      NothingReleased(db, id);
    }
  }

  lemma NothingReleased(db: Db, id: int)
    requires Valid(db)
    ensures PartlyReleased(db, id, 0, db.blobs)
  {
    assert DigestsOf(db, id)[..0] == [];
  }

  /**
    Releasing an entry's references one at a time, however its parts share
    digests with each other, its thumbnail and other entries, leaves exactly
    the blob table of the surviving rows; the orphans are the rows that went.
  */
  lemma ReleaseMeans(db: Db, id: int)
    requires Valid(db)
    ensures var r := ReleaseAll(db.blobs, DigestsOf(db, id));
      r.blobs == Without(db, {id}).blobs && Accounts(db.blobs, r)
  {
    var digests := DigestsOf(db, id);
    ReleasePrefix(db, id, |digests|);
    assert digests[..|digests|] == digests;
    ReleaseDone(db, id, ReleaseAll(db.blobs, digests).blobs);
  }

  lemma ReleaseDone(db: Db, id: int, blobs: map<string, BlobRow>)
    requires Valid(db)
    requires PartlyReleased(db, id, |DigestsOf(db, id)|, blobs)
    ensures blobs == Without(db, {id}).blobs
  {
    var digests := DigestsOf(db, id);
    var es, ps := DropEntries(db.entries, {id}), DropParts(db.parts, {id});
    assert digests[..|digests|] == digests;
    forall d: string
      ensures d in blobs <==> Refs(es, ps, d) > 0
      ensures d in blobs ==> d in db.blobs && blobs[d] == BlobRow(db.blobs[d].bytes, Refs(es, ps, d))
    {
      ReleaseAccounts(db, id, d);
    }
    RebuiltBlobs(db.blobs, blobs, es, ps);
  }

  lemma RebuiltBlobs(before: map<string, BlobRow>, after: map<string, BlobRow>, es: seq<EntryRow>, ps: seq<PartRow>)
    requires forall d: string :: d in after <==> Refs(es, ps, d) > 0
    requires forall d <- after :: d in before && after[d] == BlobRow(before[d].bytes, Refs(es, ps, d))
    ensures after == map d | d in before && Refs(es, ps, d) > 0 :: BlobRow(before[d].bytes, Refs(es, ps, d))
  {
  }

  class Index {
    var entries: seq<EntryRow>
    var parts: seq<PartRow>
    var blobs: map<string, BlobRow>
    var bodies: map<int, string>

    function Rows(): Db
      reads this
    {
      Db(entries, parts, blobs, bodies)
    }

    constructor ()
      ensures Rows() == EMPTY && Valid(Rows())
    {
      entries, parts, blobs, bodies := [], [], map[], map[];
    }

    method Commit(db: Db)
      modifies this
      ensures Rows() == db
    {
      entries, parts, blobs, bodies := db.entries, db.parts, db.blobs, db.bodies;
    }

    /** Moves an existing entry's timestamp; answers its id when the identity was known. */
    method Touch(identity: string, at: int) returns (existing: Option<int>)
      requires Valid(Rows())
      modifies this
      ensures existing == FindIdentity(old(entries), identity)
      ensures Rows() == Touched(old(Rows()), identity, at)
      ensures Valid(Rows())
    {
      TouchedKeepsValid(Rows(), identity, at);
      existing := FindIdentity(entries, identity);
      if existing.Some? {
        entries := WithAt(entries, existing.value, at);
      }
    }

    /** Records a new entry and every representation it holds, or nothing at all. */
    method Insert(identity: string, accepted: seq<Part>, facts: Facts, at: int) returns (r: Result<int, DbError>)
      requires Valid(Rows())
      modifies this
      ensures r.Ok? <==> FindIdentity(old(entries), identity).None? && DistinctMimes(accepted)
      ensures r.Ok? ==> r.value == NextId(old(entries))
      ensures r.Ok? ==> Rows() == Inserted(old(Rows()), identity, accepted, facts, at)
      ensures r.Err? ==> Rows() == old(Rows())
      ensures Valid(Rows())
    {
      InsertOutcome(Rows(), identity, accepted, facts, at);
      if FindIdentity(entries, identity).Some? {
        return Err(IdentityTaken);
      }
      var id := NextId(entries);
      var tx := Rows().(entries := entries + [RowOf(id, identity, accepted, facts, at)]);
      var recorded := InsertParts(tx, id, accepted);
      if recorded.Err? {
        return Err(MimeTwice);
      }
      tx := recorded.value;
      if facts.thumb.Some? {
        tx := tx.(blobs := Reference(tx.blobs, facts.thumb.value.digest, facts.thumb.value.bytes));
      }
      if facts.body.Some? {
        if id in tx.bodies {
          assert false;
          return Err(BodyTaken);
        }
        tx := tx.(bodies := tx.bodies[id := facts.body.value]);
      }
      Commit(tx);
      r := Ok(id);
    }

    /** The loop that records each representation, stopping at a repeated mime. */
    static method InsertParts(start: Db, id: int, accepted: seq<Part>) returns (r: Result<Db, DbError>)
      requires forall row <- start.parts :: row.entry != id
      ensures r.Ok? <==> DistinctMimes(accepted)
      ensures r.Ok? ==> r.value == start.(parts := start.parts + PartRows(id, accepted),
                                          blobs := ReferenceAll(start.blobs, accepted))
    {
      var tx := start;
      var i := 0;
      while i < |accepted|
        invariant 0 <= i <= |accepted|
        invariant tx == start.(parts := start.parts + PartRows(id, accepted[..i]),
                               blobs := ReferenceAll(start.blobs, accepted[..i]))
        invariant DistinctMimes(accepted[..i])
      {
        var part := accepted[i];
        if exists row <- tx.parts :: row.entry == id && row.mime == part.mime {
          var row :| row in tx.parts && row.entry == id && row.mime == part.mime;
          assert row in PartRows(id, accepted[..i]);
          return Err(MimeTwice);
        }
        MimeIsNew(start.parts, id, accepted, i);
        OneMorePart(start.blobs, id, accepted, i);
        tx := tx.(parts := tx.parts + [PartRow(id, part.mime, part.digest, part.bytes)],
                  blobs := Reference(tx.blobs, part.digest, part.bytes));
        i := i + 1;
      }
      assert accepted[..i] == accepted;
      r := Ok(tx);
    }

    /**
      Drops every reference one entry holds, one at a time, and reports the
      digests that fell to zero with the bytes they held.
    */
    static method ReleaseEntry(tx: Db, id: int)
      returns (left: map<string, BlobRow>, orphaned: seq<string>, freed: nat)
      requires Valid(tx)
      ensures left == Without(tx, {id}).blobs
      ensures Accounts(tx.blobs, Released(left, orphaned, freed))
    {
      var digests := DigestsOf(tx, id);
      left, orphaned, freed := tx.blobs, [], 0;
      var i := 0;
      while i < |digests|
        invariant 0 <= i <= |digests|
        invariant Released(left, orphaned, freed) == ReleaseAll(tx.blobs, digests[..i])
      {
        var digest := digests[i];
        if digest in left {
          left := left[digest := BlobRow(left[digest].bytes, left[digest].refs - 1)];
        }
        var remaining, size := 0, 0;
        if digest in left {
          remaining, size := left[digest].refs, left[digest].bytes;
        }
        if remaining <= 0 {
          left, orphaned, freed := left - {digest}, orphaned + [digest], freed + size;
        }
        OneMoreReleased(tx.blobs, digests, i);
        i := i + 1;
      }
      assert digests[..i] == digests;
      ReleaseMeans(tx, id);
    }

    /** Releases an entry and deletes its rows from every table. */
    static method DeleteEntry(tx: Db, id: int) returns (after: Db, orphaned: seq<string>, freed: nat)
      requires Valid(tx)
      ensures after == Without(tx, {id}) && Valid(after)
      ensures Accounts(tx.blobs, Released(after.blobs, orphaned, freed))
    {
      var left;
      left, orphaned, freed := ReleaseEntry(tx, id);
      after := Db(DropEntries(tx.entries, {id}), DropParts(tx.parts, {id}), left, tx.bodies - {id});
      RowsDeleted(tx, id, left);
      WithoutKeepsValid(tx, {id});
    }

    /** Deletes one entry, returning the digests no record names any more. */
    method Remove(id: int) returns (orphaned: seq<string>)
      requires Valid(Rows())
      modifies this
      ensures Rows() == Without(old(Rows()), {id}) && Valid(Rows())
      ensures NoRepeats(orphaned) && ToSet(orphaned) == old(blobs).Keys - blobs.Keys
      ensures Find(old(entries), id).None? ==> Rows() == old(Rows()) && orphaned == []
    {
      var before := Rows();
      var tx, freed;
      tx, orphaned, freed := DeleteEntry(before, id);
      if Find(entries, id).None? {
        AbsentHoldsNothing(before, id);
        orphaned := [];
      }
      Commit(tx);
    }

    /** Deletes everything not pinned. */
    method Clear() returns (orphaned: seq<string>)
      requires Valid(Rows())
      modifies this
      ensures Rows() == Without(old(Rows()), EligibleIds(old(entries), None)) && Valid(Rows())
      ensures NoRepeats(orphaned) && ToSet(orphaned) == old(blobs).Keys - blobs.Keys
    {
      var doomed := SelectUnpinned(entries);
      orphaned := DeleteAll(doomed);
    }

    /** `SELECT id FROM entry WHERE pinned = 0`. */
    static method SelectUnpinned(es: seq<EntryRow>) returns (ids: seq<int>)
      ensures ToSet(ids) == EligibleIds(es, None)
    {
      ids := [];
      for i := 0 to |es|
        invariant ToSet(ids) == EligibleIds(es[..i], None)
      {
        EligibleAppend(es[..i], es[i]);
        assert es[..i + 1] == es[..i] + [es[i]];
        if !es[i].pinned {
          ToSetAppend(ids, [es[i].id]);
          ids := ids + [es[i].id];
        }
      }
      assert es[..|es|] == es;
    }

    method DeleteAll(doomed: seq<int>) returns (orphaned: seq<string>)
      requires Valid(Rows())
      modifies this
      ensures Rows() == Without(old(Rows()), ToSet(doomed)) && Valid(Rows())
      ensures NoRepeats(orphaned) && ToSet(orphaned) == old(blobs).Keys - blobs.Keys
    {
      ghost var before := Rows();
      var tx := Rows();
      ghost var total := 0;
      orphaned := [];
      WithoutNothing(tx);
      assert ToSet(doomed[..0]) == {};
      for i := 0 to |doomed|
        invariant Valid(tx) && tx == Without(before, ToSet(doomed[..i]))
        invariant Accounts(before.blobs, Released(tx.blobs, orphaned, total))
      {
        OneMoreGone(before, doomed, i);
        ghost var was := tx;
        var released, freed;
        tx, released, freed := DeleteEntry(tx, doomed[i]);
        AccountsAppend(before.blobs, Released(was.blobs, orphaned, total), Released(tx.blobs, released, freed));
        orphaned, total := orphaned + released, total + freed;
      }
      assert doomed[..|doomed|] == doomed;
      Commit(tx);
    }

    /** `SELECT COALESCE(SUM(bytes), 0) FROM blob`. */
    static method Bytes(blobs: map<string, BlobRow>) returns (used: nat)
      ensures used == SumBytes(blobs)
    {
      var left := blobs;
      used := 0;
      while left != map[]
        invariant used + SumBytes(left) == SumBytes(blobs)
        decreases |left|
      {
        var d :| d in left;
        SumOfRest(left, d);
        used := used + left[d].bytes;
        left := left - {d};
      }
    }

    /** `SELECT id ... WHERE pinned = 0 [AND at < cutoff] ORDER BY at, id LIMIT 1`, past `gone`. */
    static method SelectOldest(es: seq<EntryRow>, cutoff: Option<int>, gone: set<int>) returns (r: Option<int>)
      requires Increasing(es)
      ensures r.Some? ==> IsOldest(es, cutoff, gone, r.value)
      ensures r.None? ==> EligibleIds(es, cutoff) <= gone
    {
      var best: Option<EntryRow> := None;
      for i := 0 to |es|
        invariant best.Some? ==> best.value in es && Eligible(best.value, cutoff) && best.value.id !in gone
        invariant forall j | 0 <= j < i && Eligible(es[j], cutoff) && es[j].id !in gone ::
          best.Some? && (es[j] == best.value || Older(best.value, es[j]))
      {
        if Eligible(es[i], cutoff) && es[i].id !in gone && (best.None? || Older(es[i], best.value)) {
          best := Some(es[i]);
        }
      }
      r := if best.Some? then Some(best.value.id) else None;
    }

    /**
      Drops the oldest unpinned entries until the blobs fit in `budget`,
      keeping a running total instead of summing the table again.
    */
    method EvictTo(budget: int) returns (orphaned: seq<string>, removed: seq<int>)
      requires Valid(Rows())
      modifies this
      ensures EvictsTo(old(Rows()), budget, removed)
      ensures Rows() == Without(old(Rows()), ToSet(removed)) && Valid(Rows())
      ensures NoRepeats(orphaned) && ToSet(orphaned) == old(blobs).Keys - blobs.Keys
    {
      WithoutNothing(Rows());
      assert ToSet<int>([]) == {};
      var used := Bytes(blobs);
      if used <= budget {
        return [], [];
      }
      var tx;
      tx, orphaned, removed := EvictFrom(Rows(), budget, used);
      WithoutKeepsValid(Rows(), ToSet(removed));
      Commit(tx);
    }

    /** The eviction loop over one open transaction. */
    static method EvictFrom(before: Db, budget: int, total: nat)
      returns (tx: Db, orphaned: seq<string>, removed: seq<int>)
      requires Valid(before) && total == Used(before)
      ensures StillNeeded(before, budget, removed)
      ensures Used(tx) <= budget || EligibleIds(tx.entries, None) == {}
      ensures tx == Without(before, ToSet(removed))
      ensures NoRepeats(orphaned) && ToSet(orphaned) == before.blobs.Keys - tx.blobs.Keys
    {
      tx, orphaned, removed := before, [], [];
      WithoutNothing(before);
      assert ToSet(removed) == {};
      var used: int := total;
      while used > budget
        invariant tx == Without(before, ToSet(removed))
        invariant used <= total
        invariant Accounts(before.blobs, Released(tx.blobs, orphaned, total - used))
        invariant StillNeeded(before, budget, removed)
        decreases |EligibleIds(tx.entries, None)|
      {
        WithoutKeepsValid(before, ToSet(removed));
        var victim := SelectOldest(tx.entries, None, {});
        if victim.None? {
          break;
        }
        VictimShrinks(tx.entries, victim.value);
        OneMoreVictim(before, budget, removed, victim.value);
        ghost var was := tx;
        var released, freed;
        tx, released, freed := DeleteEntry(tx, victim.value);
        AccountsAppend(before.blobs, Released(was.blobs, orphaned, total - used), Released(tx.blobs, released, freed));
        used, orphaned, removed := used - freed, orphaned + released, removed + [victim.value];
      }
    }

    /** One bounded expiry transaction; pinned rows never qualify. */
    method ExpireBefore(cutoff: int, batch: nat) returns (orphaned: seq<string>, removed: seq<int>)
      requires Valid(Rows())
      modifies this
      ensures ExpiresTo(old(Rows()), cutoff, batch, removed)
      ensures Rows() == Without(old(Rows()), ToSet(removed)) && Valid(Rows())
      ensures NoRepeats(orphaned) && ToSet(orphaned) == old(blobs).Keys - blobs.Keys
    {
      removed := SelectExpired(entries, cutoff, batch);
      orphaned := DeleteAll(removed);
    }

    /** `SELECT id ... WHERE pinned = 0 AND at < cutoff ORDER BY at, id LIMIT batch`. */
    static method SelectExpired(es: seq<EntryRow>, cutoff: int, batch: nat) returns (ids: seq<int>)
      requires Increasing(es)
      ensures OldestFirst(es, Some(cutoff), ids)
      ensures |ids| == Min(batch, |EligibleIds(es, Some(cutoff))|)
    {
      ids := [];
      while |ids| < batch
        invariant OldestFirst(es, Some(cutoff), ids) && |ids| <= batch
        invariant |ids| <= |EligibleIds(es, Some(cutoff))|
      {
        var next := SelectOldest(es, Some(cutoff), ToSet(ids));
        OldestFirstSpread(es, Some(cutoff), ids);
        NoRepeatsCount(ids);
        if next.None? {
          assert ToSet(ids) == EligibleIds(es, Some(cutoff));
          return;
        }
        ExtendOldest(es, Some(cutoff), ids, next.value);
        ids := ids + [next.value];
        OldestFirstSpread(es, Some(cutoff), ids);
        NoRepeatsCount(ids);
        Within(ToSet(ids), EligibleIds(es, Some(cutoff)));
      }
    }

    method SetPinned(id: int, pinned: bool) returns (changed: bool)
      requires Valid(Rows())
      modifies this
      ensures changed <==> Find(old(entries), id).Some?
      ensures Rows() == Pinned(old(Rows()), id, pinned) && Valid(Rows())
    {
      PinnedKeepsValid(Rows(), id, pinned);
      changed := Find(entries, id).Some?;
      entries := WithPinned(entries, id, pinned);
    }
  }

  // ------------------------------------------------------ small supports

  lemma OneMoreGone(db: Db, doomed: seq<int>, i: nat)
    requires i < |doomed|
    ensures Without(Without(db, ToSet(doomed[..i])), {doomed[i]}) == Without(db, ToSet(doomed[..i + 1]))
  {
    WithoutTwice(db, ToSet(doomed[..i]), {doomed[i]});
    assert ToSet(doomed[..i + 1]) == ToSet(doomed[..i]) + {doomed[i]};
  }

  lemma MimeIsNew(before: seq<PartRow>, id: int, accepted: seq<Part>, i: nat)
    requires i < |accepted| && DistinctMimes(accepted[..i])
    requires !exists row <- before + PartRows(id, accepted[..i]) :: row.entry == id && row.mime == accepted[i].mime
    ensures DistinctMimes(accepted[..i + 1])
  {
    forall j | 0 <= j < i
      ensures accepted[j].mime != accepted[i].mime
    {
      assert PartRows(id, accepted[..i])[j] in before + PartRows(id, accepted[..i]);
    }
    var known, all := accepted[..i], accepted[..i + 1];
    forall j, k | 0 <= j < k < |all|
      ensures all[j].mime != all[k].mime
    {
      assert all[j] == known[j];
      if k < i {
        assert all[k] == known[k];
      }
    }
  }

  lemma OneMorePart(blobs: map<string, BlobRow>, id: int, accepted: seq<Part>, i: nat)
    requires i < |accepted|
    ensures PartRows(id, accepted[..i + 1])
         == PartRows(id, accepted[..i]) + [PartRow(id, accepted[i].mime, accepted[i].digest, accepted[i].bytes)]
    ensures ReferenceAll(blobs, accepted[..i + 1])
         == Reference(ReferenceAll(blobs, accepted[..i]), accepted[i].digest, accepted[i].bytes)
  {
    assert accepted[..i + 1][..i] == accepted[..i];
  }

  lemma InsertOutcome(db: Db, identity: string, accepted: seq<Part>, facts: Facts, at: int)
    requires Valid(db)
    ensures NextId(db.entries) !in db.bodies
    ensures forall row <- db.parts :: row.entry != NextId(db.entries)
    ensures ReferenceAll(db.blobs, accepted + ThumbParts(facts))
         == (var recorded := ReferenceAll(db.blobs, accepted);
             if facts.thumb.Some? then Reference(recorded, facts.thumb.value.digest, facts.thumb.value.bytes)
             else recorded)
    ensures FindIdentity(db.entries, identity).None? && DistinctMimes(accepted)
        ==> Valid(Inserted(db, identity, accepted, facts, at))
  {
    NextIdIsFresh(db);
    if facts.thumb.Some? {
      assert (accepted + ThumbParts(facts))[..|accepted|] == accepted;
    } else {
      assert accepted + ThumbParts(facts) == accepted;
    }
    if FindIdentity(db.entries, identity).None? && DistinctMimes(accepted) {
      InsertedKeepsValid(db, identity, accepted, facts, at);
    }
  }

  lemma EligibleAppend(es: seq<EntryRow>, e: EntryRow)
    ensures EligibleIds(es + [e], None) == EligibleIds(es, None) + if e.pinned then {} else {e.id}
  {
    assert forall f :: f in es + [e] <==> f in es || f == e;
  }

  lemma VictimShrinks(es: seq<EntryRow>, victim: int)
    requires Increasing(es) && IsOldest(es, None, {}, victim)
    ensures |EligibleIds(DropEntries(es, {victim}), None)| < |EligibleIds(es, None)|
  {
    EligibleAfterDrop(es, None, {victim});
    assert victim in EligibleIds(es, None);
  }

  lemma AbsentHoldsNothing(db: Db, id: int)
    requires Valid(db) && Find(db.entries, id).None?
    ensures Without(db, {id}) == db
  {
    assert id !in Ids(db.entries);
    DropNoEntry(db.entries, {id});
    DropNoPart(db.parts, {id});
    RecountIsSame(db.blobs, db.entries, db.parts);
    assert Without(db, {id}).bodies == db.bodies;
  }

  lemma OrphansAppend(a: seq<string>, b: seq<string>)
    requires NoRepeats(a) && NoRepeats(b) && ToSet(a) !! ToSet(b)
    ensures NoRepeats(a + b) && ToSet(a + b) == ToSet(a) + ToSet(b)
  {
    forall i, j | 0 <= i < j < |a + b|
      ensures (a + b)[i] != (a + b)[j]
    {
      if i < |a| <= j {
        assert a[i] in ToSet(a) && b[j - |a|] in ToSet(b);
      }
    }
  }

  lemma OrphanOne(orphaned: seq<string>, d: string, all: set<string>, left: map<string, BlobRow>)
    requires NoRepeats(orphaned) && ToSet(orphaned) == all - left.Keys
    requires d in left && d in all
    ensures NoRepeats(orphaned + [d]) && ToSet(orphaned + [d]) == all - (left - {d}).Keys
  {
    OrphansAppend(orphaned, [d]);
  }

  lemma ExtendOldest(es: seq<EntryRow>, cutoff: Option<int>, ids: seq<int>, id: int)
    requires OldestFirst(es, cutoff, ids)
    requires IsOldest(es, cutoff, ToSet(ids), id)
    ensures OldestFirst(es, cutoff, ids + [id])
  {
    forall k | 0 <= k < |ids| + 1
      ensures IsOldest(es, cutoff, ToSet((ids + [id])[..k]), (ids + [id])[k])
    {
      if k < |ids| {
        assert (ids + [id])[..k] == ids[..k];
        assert IsOldest(es, cutoff, ToSet(ids[..k]), ids[k]);
      } else {
        assert (ids + [id])[..k] == ids;
      }
    }
  }

  lemma Within(a: set<int>, b: set<int>)
    requires a <= b
    ensures |a| <= |b|
  {
    assert b == a + (b - a);
  }

  lemma AccountsAppend(blobs: map<string, BlobRow>, r: Released, next: Released)
    requires Accounts(blobs, r) && Accounts(r.blobs, next)
    ensures Accounts(blobs, Released(next.blobs, r.orphaned + next.orphaned, r.freed + next.freed))
  {
    OrphansAppend(r.orphaned, next.orphaned);
  }

  /** Every victim so far was the oldest left, taken while the blobs were still over budget. */
  ghost predicate StillNeeded(db: Db, budget: int, removed: seq<int>) {
    && OldestFirst(db.entries, None, removed)
    && forall k | 0 <= k < |removed| :: Used(Without(db, ToSet(removed[..k]))) > budget
  }

  lemma StillNeededOnce(db: Db, budget: int, removed: seq<int>, victim: int)
    requires StillNeeded(db, budget, removed)
    requires Used(Without(db, ToSet(removed))) > budget
    requires OldestFirst(db.entries, None, removed + [victim])
    ensures StillNeeded(db, budget, removed + [victim])
  {
    var more := removed + [victim];
    forall k | 0 <= k < |more|
      ensures Used(Without(db, ToSet(more[..k]))) > budget
    {
      if k < |removed| {
        assert more[..k] == removed[..k];
      } else {
        assert more[..k] == removed;
      }
    }
  }

  /** The eviction loop's step: the victim extends the oldest-first run, and the run was still needed. */
  lemma OneMoreVictim(db: Db, budget: int, removed: seq<int>, victim: int)
    requires StillNeeded(db, budget, removed)
    requires Used(Without(db, ToSet(removed))) > budget
    requires IsOldest(DropEntries(db.entries, ToSet(removed)), None, {}, victim)
    ensures StillNeeded(db, budget, removed + [victim])
    ensures Without(Without(db, ToSet(removed)), {victim}) == Without(db, ToSet(removed + [victim]))
  {
    var gone := ToSet(removed);
    OldestAfterDrop(db.entries, None, gone, {}, victim);
    assert gone + {} == gone;
    ExtendOldest(db.entries, None, removed, victim);
    StillNeededOnce(db, budget, removed, victim);
    WithoutTwice(db, gone, {victim});
    ToSetAppend(removed, [victim]);
    assert ToSet([victim]) == {victim};
  }
}
