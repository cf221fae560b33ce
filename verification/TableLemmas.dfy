/** What deleting, inserting and updating rows keeps of `Tables.Valid`. */
module TableLemmas {
  import opened Wrappers
  import opened Tables

  // ------------------------------------------------------------- filters

  lemma {:induction false} DropKeepsOrder(es: seq<EntryRow>, gone: set<int>)
    requires Increasing(es)
    ensures Increasing(DropEntries(es, gone))
  {
    if es != [] {
      DropKeepsOrder(es[..|es| - 1], gone);
    }
  }

  lemma {:induction false} DropNoEntry(es: seq<EntryRow>, gone: set<int>)
    requires forall e <- es :: e.id !in gone
    ensures DropEntries(es, gone) == es
  {
    if es != [] {
      DropNoEntry(es[..|es| - 1], gone);
      assert es == es[..|es| - 1] + [es[|es| - 1]];
    }
  }

  lemma {:induction false} DropNoPart(ps: seq<PartRow>, gone: set<int>)
    requires forall p <- ps :: p.entry !in gone
    ensures DropParts(ps, gone) == ps
  {
    if ps != [] {
      DropNoPart(ps[..|ps| - 1], gone);
      assert ps == ps[..|ps| - 1] + [ps[|ps| - 1]];
    }
  }

  lemma DropNothing(es: seq<EntryRow>, ps: seq<PartRow>)
    ensures DropEntries(es, {}) == es && DropParts(ps, {}) == ps
  {
    DropNoEntry(es, {});
    DropNoPart(ps, {});
  }

  lemma {:induction false} DropEntriesTwice(es: seq<EntryRow>, a: set<int>, b: set<int>)
    ensures DropEntries(DropEntries(es, a), b) == DropEntries(es, a + b)
  {
    if es != [] {
      var front, last := es[..|es| - 1], es[|es| - 1];
      DropEntriesTwice(front, a, b);
      if last.id !in a {
        assert (DropEntries(front, a) + [last])[..|DropEntries(front, a)|] == DropEntries(front, a);
      }
    }
  }

  lemma {:induction false} DropPartsTwice(ps: seq<PartRow>, a: set<int>, b: set<int>)
    ensures DropParts(DropParts(ps, a), b) == DropParts(ps, a + b)
  {
    if ps != [] {
      var front, last := ps[..|ps| - 1], ps[|ps| - 1];
      DropPartsTwice(front, a, b);
      if last.entry !in a {
        assert (DropParts(front, a) + [last])[..|DropParts(front, a)|] == DropParts(front, a);
      }
    }
  }

  lemma {:induction false} DropKeepsDistinct(ps: seq<PartRow>, gone: set<int>)
    requires DistinctRows(ps)
    ensures DistinctRows(DropParts(ps, gone))
  {
    if ps != [] {
      var front := ps[..|ps| - 1];
      DropKeepsDistinct(front, gone);
      assert forall p <- DropParts(front, gone) :: p in front;
    }
  }

  lemma {:induction false} DropKeepsPartsOf(ps: seq<PartRow>, gone: set<int>, id: int)
    requires id !in gone
    ensures PartsOf(DropParts(ps, gone), id) == PartsOf(ps, id)
  {
    if ps != [] {
      var front, last := ps[..|ps| - 1], ps[|ps| - 1];
      DropKeepsPartsOf(front, gone, id);
      if last.entry !in gone {
        assert (DropParts(front, gone) + [last])[..|DropParts(front, gone)|] == DropParts(front, gone);
      }
    }
  }

  lemma {:induction false} PartsOfAppend(a: seq<PartRow>, b: seq<PartRow>, id: int)
    ensures PartsOf(a + b, id) == PartsOf(a, id) + PartsOf(b, id)
  {
    if b == [] {
      assert a + b == a;
    } else {
      assert (a + b)[..|a + b| - 1] == a + b[..|b| - 1];
      PartsOfAppend(a, b[..|b| - 1], id);
    }
  }

  lemma {:induction false} PartsOfAll(ps: seq<PartRow>, id: int)
    requires forall p <- ps :: p.entry == id
    ensures PartsOf(ps, id) == ps
  {
    if ps != [] {
      PartsOfAll(ps[..|ps| - 1], id);
    }
  }

  lemma {:induction false} PartsOfNone(ps: seq<PartRow>, id: int)
    requires forall p <- ps :: p.entry != id
    ensures PartsOf(ps, id) == []
  {
    if ps != [] {
      PartsOfNone(ps[..|ps| - 1], id);
    }
  }

  // -------------------------------------------------------------- counts

  lemma {:induction false} DropCountsDown(es: seq<EntryRow>, ps: seq<PartRow>, gone: set<int>, d: string)
    ensures CountThumbs(DropEntries(es, gone), d) <= CountThumbs(es, d)
    ensures CountParts(DropParts(ps, gone), d) <= CountParts(ps, d)
    decreases |es| + |ps|
  {
    if es != [] {
      var front, last := es[..|es| - 1], es[|es| - 1];
      DropCountsDown(front, [], gone, d);
      assert (DropEntries(front, gone) + [last])[..|DropEntries(front, gone)|] == DropEntries(front, gone);
    }
    if ps != [] {
      var front, last := ps[..|ps| - 1], ps[|ps| - 1];
      DropCountsDown([], front, gone, d);
      assert (DropParts(front, gone) + [last])[..|DropParts(front, gone)|] == DropParts(front, gone);
    }
  }

  lemma {:induction false} CountPartsAppend(a: seq<PartRow>, b: seq<PartRow>, d: string)
    ensures CountParts(a + b, d) == CountParts(a, d) + CountParts(b, d)
  {
    if b == [] {
      assert a + b == a;
    } else {
      assert (a + b)[..|a + b| - 1] == a + b[..|b| - 1];
      CountPartsAppend(a, b[..|b| - 1], d);
    }
  }

  lemma {:induction false} SameThumbs(es: seq<EntryRow>, fs: seq<EntryRow>, d: string)
    requires |es| == |fs| && forall i | 0 <= i < |es| :: es[i].thumb == fs[i].thumb
    ensures CountThumbs(es, d) == CountThumbs(fs, d)
  {
    if es != [] {
      SameThumbs(es[..|es| - 1], fs[..|fs| - 1], d);
    }
  }

  /** A digest is named by some row exactly when it is counted. */
  lemma {:induction false} CountedMeansNamed(es: seq<EntryRow>, ps: seq<PartRow>, d: string)
    ensures CountParts(ps, d) > 0 <==> exists p <- ps :: p.digest == d
    ensures CountThumbs(es, d) > 0 <==> exists e <- es :: e.thumb == Some(d)
    decreases |es| + |ps|
  {
    if es != [] {
      CountedMeansNamed(es[..|es| - 1], [], d);
      assert es == es[..|es| - 1] + [es[|es| - 1]];
    }
    if ps != [] {
      CountedMeansNamed([], ps[..|ps| - 1], d);
      assert ps == ps[..|ps| - 1] + [ps[|ps| - 1]];
    }
  }

  // ------------------------------------------------------------ deletion

  lemma WithoutNothing(db: Db)
    requires Valid(db)
    ensures Without(db, {}) == db
  {
    DropNothing(db.entries, db.parts);
    RecountIsSame(db.blobs, db.entries, db.parts);
    assert Without(db, {}).bodies == db.bodies;
  }

  lemma RecountIsSame(blobs: map<string, BlobRow>, es: seq<EntryRow>, ps: seq<PartRow>)
    requires RefsExact(blobs, es, ps)
    ensures (map d | d in blobs && Refs(es, ps, d) > 0 :: BlobRow(blobs[d].bytes, Refs(es, ps, d))) == blobs
  {
  }

  lemma RefsFallOnDrop(es: seq<EntryRow>, ps: seq<PartRow>, gone: set<int>)
    ensures forall d: string :: Refs(DropEntries(es, gone), DropParts(ps, gone), d) <= Refs(es, ps, d)
  {
    forall d: string
      ensures Refs(DropEntries(es, gone), DropParts(ps, gone), d) <= Refs(es, ps, d)
    {
      DropCountsDown(es, ps, gone, d);
    }
  }

  /** Deleting in two steps leaves what deleting in one would: no order of victims matters. */
  lemma WithoutTwice(db: Db, a: set<int>, b: set<int>)
    ensures Without(Without(db, a), b) == Without(db, a + b)
  {
    var es, ps := DropEntries(db.entries, a), DropParts(db.parts, a);
    var es2, ps2 := DropEntries(es, b), DropParts(ps, b);
    assert es2 == DropEntries(db.entries, a + b) by { DropEntriesTwice(db.entries, a, b); }
    assert ps2 == DropParts(db.parts, a + b) by { DropPartsTwice(db.parts, a, b); }
    var once, twice := Without(db, a + b), Without(Without(db, a), b);
    assert twice.bodies == once.bodies;
    RefsFallOnDrop(es, ps, b);
    assert forall d: string :: d in twice.blobs <==> d in once.blobs;
    assert twice.blobs == once.blobs;
  }

  lemma {:induction false} DropKeepsIdentities(es: seq<EntryRow>, gone: set<int>)
    requires UniqueIdentities(es)
    ensures UniqueIdentities(DropEntries(es, gone))
  {
    if es != [] {
      var front := es[..|es| - 1];
      DropKeepsIdentities(front, gone);
      assert forall e <- DropEntries(front, gone) :: e in front;
    }
  }

  lemma DropKeepsOwners(db: Db, gone: set<int>)
    requires OwnedRows(db)
    ensures OwnedRows(Without(db, gone))
  {
    var after := Without(db, gone);
    forall p <- after.parts
      ensures p.entry in Ids(after.entries)
    {
      var e :| e in db.entries && e.id == p.entry;
      assert e in after.entries;
    }
    forall id <- after.bodies
      ensures id in Ids(after.entries)
    {
      var e :| e in db.entries && e.id == id;
      assert e in after.entries;
    }
  }

  /** Deleting any set of entries, in one go, keeps the index consistent. */
  lemma WithoutKeepsValid(db: Db, gone: set<int>)
    requires Valid(db)
    ensures Valid(Without(db, gone))
  {
    var after := Without(db, gone);
    DropKeepsOrder(db.entries, gone);
    DropKeepsIdentities(db.entries, gone);
    DropKeepsOwners(db, gone);
    DropKeepsDistinct(db.parts, gone);
    assert SizesAgree(after.entries, after.parts) by {
      forall e <- after.entries
        ensures e.bytes == TotalBytes(PartsOf(after.parts, e.id))
      {
        DropKeepsPartsOf(db.parts, gone, e.id);
      }
    }
    RefsFallOnDrop(db.entries, db.parts, gone);
  }

  // ----------------------------------------------------------- insertion

  lemma RefsAfterAppend(db: Db, row: EntryRow, rows: seq<PartRow>, d: string)
    ensures Refs(db.entries + [row], db.parts + rows, d)
         == Refs(db.entries, db.parts, d) + CountParts(rows, d) + if row.thumb == Some(d) then 1 else 0
  {
    CountPartsAppend(db.parts, rows, d);
    assert (db.entries + [row])[..|db.entries|] == db.entries;
  }

  ghost function CountDigest(parts: seq<Part>, d: string): nat {
    if parts == [] then 0
    else CountDigest(parts[..|parts| - 1], d) + if parts[|parts| - 1].digest == d then 1 else 0
  }

  lemma {:induction false} CountPartRows(id: int, parts: seq<Part>, d: string)
    ensures CountParts(PartRows(id, parts), d) == CountDigest(parts, d)
  {
    if parts != [] {
      var front := parts[..|parts| - 1];
      CountPartRows(id, front, d);
      assert PartRows(id, parts)[..|parts| - 1] == PartRows(id, front);
    }
  }

  /** Referencing a list of parts adds each digest's multiplicity and keeps every known size. */
  lemma {:induction false} ReferenceAllCounts(blobs: map<string, BlobRow>, parts: seq<Part>, d: string)
    requires forall x <- blobs :: blobs[x].refs > 0
    ensures var r := ReferenceAll(blobs, parts);
      && (d in r <==> d in blobs || CountDigest(parts, d) > 0)
      && (d in r ==> r[d].refs == (if d in blobs then blobs[d].refs else 0) + CountDigest(parts, d))
      && (d in blobs ==> d in r && r[d].bytes == blobs[d].bytes)
  {
    if parts != [] {
      ReferenceAllCounts(blobs, parts[..|parts| - 1], d);
    }
  }

  lemma {:induction false} TotalOfRows(id: int, parts: seq<Part>)
    ensures TotalBytes(PartRows(id, parts)) == TotalOf(parts)
  {
    if parts != [] {
      var front := parts[..|parts| - 1];
      TotalOfRows(id, front);
      assert PartRows(id, parts)[..|parts| - 1] == PartRows(id, front);
    }
  }

  lemma NextIdIsFresh(db: Db)
    requires Increasing(db.entries) && forall e <- db.entries :: e.id > 0
    ensures NextId(db.entries) > 0
    ensures forall e <- db.entries :: e.id < NextId(db.entries)
  {
  }

  lemma {:induction false} DropAppended(es: seq<EntryRow>, row: EntryRow, ps: seq<PartRow>, rows: seq<PartRow>,
                                        gone: set<int>)
    requires row.id in gone && forall p <- rows :: p.entry == row.id
    ensures DropEntries(es + [row], gone) == DropEntries(es, gone)
    ensures DropParts(ps + rows, gone) == DropParts(ps, gone)
  {
    assert (es + [row])[..|es|] == es;
    if rows != [] {
      var n := |rows| - 1;
      DropAppended(es, row, ps, rows[..n], gone);
      assert (ps + rows)[..|ps + rows| - 1] == ps + rows[..n];
    } else {
      assert ps + rows == ps;
    }
  }

  lemma {:induction false} ReferenceKeepsBytes(blobs: map<string, BlobRow>, parts: seq<Part>)
    ensures var after := ReferenceAll(blobs, parts);
      forall d <- blobs :: d in after && after[d].bytes == blobs[d].bytes
  {
    if parts != [] {
      ReferenceKeepsBytes(blobs, parts[..|parts| - 1]);
    }
  }

  /** Recounting the rows of a larger blob table for the same references gives the same table. */
  lemma SameRecount(blobs: map<string, BlobRow>, more: map<string, BlobRow>, es: seq<EntryRow>, ps: seq<PartRow>)
    requires forall d: string | Refs(es, ps, d) > 0 :: d in blobs
    requires forall d <- blobs :: d in more && more[d].bytes == blobs[d].bytes
    ensures (map d | d in more && Refs(es, ps, d) > 0 :: BlobRow(more[d].bytes, Refs(es, ps, d)))
         == (map d | d in blobs && Refs(es, ps, d) > 0 :: BlobRow(blobs[d].bytes, Refs(es, ps, d)))
  {
  }

  lemma InsertedRefs(db: Db, identity: string, parts: seq<Part>, facts: Facts, at: int)
    requires RefsExact(db.blobs, db.entries, db.parts)
    ensures var after := Inserted(db, identity, parts, facts, at);
      RefsExact(after.blobs, after.entries, after.parts)
  {
    var after := Inserted(db, identity, parts, facts, at);
    var id := NextId(db.entries);
    var row, rows := RowOf(id, identity, parts, facts, at), PartRows(id, parts);
    var all := parts + ThumbParts(facts);
    forall d: string
      ensures (d in after.blobs <==> Refs(after.entries, after.parts, d) > 0)
           && (d in after.blobs ==> after.blobs[d].refs == Refs(after.entries, after.parts, d))
    {
      RefsAfterAppend(db, row, rows, d);
      CountPartRows(id, parts, d);
      ReferenceAllCounts(db.blobs, all, d);
      if facts.thumb.Some? {
        assert all[..|all| - 1] == parts;
      } else {
        assert all == parts;
      }
      assert CountDigest(all, d) == CountDigest(parts, d) + if row.thumb == Some(d) then 1 else 0;
    }
  }

  lemma InsertedSizes(db: Db, identity: string, parts: seq<Part>, facts: Facts, at: int)
    requires Valid(db)
    ensures var after := Inserted(db, identity, parts, facts, at);
      && SizesAgree(after.entries, after.parts)
      && PartsOf(after.parts, NextId(db.entries)) == PartRows(NextId(db.entries), parts)
      && forall e <- db.entries :: PartsOf(after.parts, e.id) == PartsOf(db.parts, e.id)
  {
    var after := Inserted(db, identity, parts, facts, at);
    var id := NextId(db.entries);
    var row, rows := RowOf(id, identity, parts, facts, at), PartRows(id, parts);
    NextIdIsFresh(db);
    forall e <- db.entries
      ensures PartsOf(after.parts, e.id) == PartsOf(db.parts, e.id)
    {
      PartsOfAppend(db.parts, rows, e.id);
      PartsOfNone(rows, e.id);
    }
    PartsOfAppend(db.parts, rows, id);
    PartsOfAll(rows, id);
    PartsOfNone(db.parts, id);
    TotalOfRows(id, parts);
    forall e <- after.entries
      ensures e.bytes == TotalBytes(PartsOf(after.parts, e.id))
    {
      assert e == row || e in db.entries;
      assert PartsOf(after.parts, id) == PartsOf(db.parts, id) + rows == rows;
      if e in db.entries {
        assert PartsOf(after.parts, e.id) == PartsOf(db.parts, e.id);
      }
    }
  }

  lemma InsertedOwners(db: Db, identity: string, parts: seq<Part>, facts: Facts, at: int)
    requires OwnedRows(db)
    ensures OwnedRows(Inserted(db, identity, parts, facts, at))
  {
    var after := Inserted(db, identity, parts, facts, at);
    var row := RowOf(NextId(db.entries), identity, parts, facts, at);
    assert row in after.entries;
    assert forall e <- db.entries :: e in after.entries;
    assert Ids(db.entries) <= Ids(after.entries);
  }

  lemma InsertedDistinct(db: Db, identity: string, parts: seq<Part>, facts: Facts, at: int)
    requires Valid(db)
    requires DistinctMimes(parts)
    ensures DistinctRows(Inserted(db, identity, parts, facts, at).parts)
  {
    NextIdIsFresh(db);
    assert forall p <- db.parts :: p.entry < NextId(db.entries);
  }

  /** Inserting an entry of unknown identity and distinct mimes keeps the index consistent. */
  lemma InsertedKeepsValid(db: Db, identity: string, parts: seq<Part>, facts: Facts, at: int)
    requires Valid(db)
    requires forall e <- db.entries :: e.identity != identity
    requires DistinctMimes(parts)
    ensures Valid(Inserted(db, identity, parts, facts, at))
  {
    var after := Inserted(db, identity, parts, facts, at);
    assert Increasing(after.entries) && PositiveIds(after.entries) by {
      NextIdIsFresh(db);
    }
    assert UniqueIdentities(after.entries);
    InsertedRefs(db, identity, parts, facts, at);
    InsertedSizes(db, identity, parts, facts, at);
    InsertedOwners(db, identity, parts, facts, at);
    InsertedDistinct(db, identity, parts, facts, at);
  }

  // -------------------------------------------------------------- update

  ghost predicate SameButAtAndPin(e: EntryRow, f: EntryRow) {
    f == e.(at := f.at, pinned := f.pinned)
  }

  /** An update in place of timestamps and pins keeps the index consistent. */
  lemma RewrittenKeepsValid(db: Db, es: seq<EntryRow>)
    requires Valid(db)
    requires |es| == |db.entries| && forall i | 0 <= i < |es| :: SameButAtAndPin(db.entries[i], es[i])
    ensures Valid(db.(entries := es))
    ensures Ids(es) == Ids(db.entries)
  {
    assert Ids(es) == Ids(db.entries) by {
      forall e <- db.entries ensures e.id in Ids(es) {
        var i :| 0 <= i < |es| && db.entries[i] == e;
        assert SameButAtAndPin(db.entries[i], es[i]) && es[i] in es;
      }
      forall e <- es ensures e.id in Ids(db.entries) {
        var i :| 0 <= i < |es| && es[i] == e;
        assert SameButAtAndPin(db.entries[i], es[i]) && db.entries[i] in db.entries;
      }
    }
    forall d: string
      ensures CountThumbs(es, d) == CountThumbs(db.entries, d)
    {
      SameThumbs(es, db.entries, d);
    }
  }

  lemma TouchedKeepsValid(db: Db, identity: string, at: int)
    requires Valid(db)
    ensures Valid(Touched(db, identity, at))
  {
    if FindIdentity(db.entries, identity).Some? {
      RewrittenKeepsValid(db, Touched(db, identity, at).entries);
    }
  }

  lemma PinnedKeepsValid(db: Db, id: int, pinned: bool)
    requires Valid(db)
    ensures Valid(Pinned(db, id, pinned))
  {
    RewrittenKeepsValid(db, Pinned(db, id, pinned).entries);
  }

  /** Deleting the entry that was just inserted undoes the insert: rows, references and indexed text. */
  lemma InsertUndone(db: Db, identity: string, parts: seq<Part>, facts: Facts, at: int)
    requires Valid(db)
    ensures Without(Inserted(db, identity, parts, facts, at), {NextId(db.entries)}) == db
  {
    var id := NextId(db.entries);
    NextIdIsUnused(db);
    EntryUndone(db.entries, RowOf(id, identity, parts, facts, at));
    PartsUndone(db.parts, PartRows(id, parts), id);
    ReferencesUndone(db.blobs, parts + ThumbParts(facts), db.entries, db.parts);
    BodyUndone(db.bodies, facts.body, id);
    Restored(Inserted(db, identity, parts, facts, at), db, id);
  }

  lemma BodyUndone(bodies: map<int, string>, body: Option<string>, id: int)
    requires id !in bodies
    ensures (if body.Some? then bodies[id := body.value] else bodies) - {id} == bodies
  {
  }

  lemma NextIdIsUnused(db: Db)
    requires Valid(db)
    ensures var id := NextId(db.entries);
      (forall e <- db.entries :: e.id != id) && (forall p <- db.parts :: p.entry != id) && id !in db.bodies
  {
    NextIdIsFresh(db);
  }

  /** A deletion that leaves the rows of `db`, and the references they make, leaves `db`. */
  lemma Restored(mid: Db, db: Db, id: int)
    requires DropEntries(mid.entries, {id}) == db.entries && DropParts(mid.parts, {id}) == db.parts
    requires db.blobs == map d | d in mid.blobs && Refs(db.entries, db.parts, d) > 0 ::
      BlobRow(mid.blobs[d].bytes, Refs(db.entries, db.parts, d))
    requires mid.bodies - {id} == db.bodies
    ensures Without(mid, {id}) == db
  {
    assert Without(mid, {id}).bodies == mid.bodies - {id};
  }

  lemma EntryUndone(es: seq<EntryRow>, row: EntryRow)
    requires forall e <- es :: e.id != row.id
    ensures DropEntries(es + [row], {row.id}) == es
  {
    assert (es + [row])[..|es|] == es;
    DropNoEntry(es, {row.id});
  }

  lemma {:induction false} PartsUndone(ps: seq<PartRow>, rows: seq<PartRow>, id: int)
    requires (forall p <- ps :: p.entry != id) && forall p <- rows :: p.entry == id
    ensures DropParts(ps + rows, {id}) == ps
  {
    if rows == [] {
      assert ps + rows == ps;
      DropNoPart(ps, {id});
    } else {
      var n := |rows| - 1;
      assert (ps + rows)[..|ps + rows| - 1] == ps + rows[..n];
      PartsUndone(ps, rows[..n], id);
    }
  }

  lemma ReferencesUndone(blobs: map<string, BlobRow>, parts: seq<Part>, es: seq<EntryRow>, ps: seq<PartRow>)
    requires RefsExact(blobs, es, ps)
    ensures var more := ReferenceAll(blobs, parts);
      (map d | d in more && Refs(es, ps, d) > 0 :: BlobRow(more[d].bytes, Refs(es, ps, d))) == blobs
  {
    ReferenceKeepsBytes(blobs, parts);
    SameRecount(blobs, ReferenceAll(blobs, parts), es, ps);
    RecountIsSame(blobs, es, ps);
  }

  // --------------------------------------------------------------- bytes

  lemma {:induction false} SumOfRest(blobs: map<string, BlobRow>, d: string)
    requires d in blobs
    ensures SumBytes(blobs) == blobs[d].bytes + SumBytes(blobs - {d})
    decreases |blobs|
  {
    var c :| c in blobs && SumBytes(blobs) == blobs[c].bytes + SumBytes(blobs - {c});
    if c != d {
      SumOfRest(blobs - {c}, d);
      SumOfRest(blobs - {d}, c);
      assert blobs - {c} - {d} == blobs - {d} - {c};
    }
  }

  /** A table that keeps sizes and loses rows never grows. */
  lemma {:induction false} SumOfSub(small: map<string, BlobRow>, big: map<string, BlobRow>)
    requires small.Keys <= big.Keys
    requires forall d <- small :: small[d].bytes == big[d].bytes
    ensures SumBytes(small) <= SumBytes(big)
    ensures small.Keys == big.Keys ==> SumBytes(small) == SumBytes(big)
    decreases |small|
  {
    if small != map[] {
      var d :| d in small;
      SumOfRest(small, d);
      SumOfRest(big, d);
      SumOfSub(small - {d}, big - {d});
    } else if big != map[] {
      var d :| d in big;
      assert d !in small;
    }
  }

  lemma WithoutNeverGrows(db: Db, gone: set<int>)
    ensures Used(Without(db, gone)) <= Used(db)
  {
    SumOfSub(Without(db, gone).blobs, db.blobs);
  }
}
