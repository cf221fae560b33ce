/**
  What holds in every reachable state of the archive: no row ever names a
  missing file, no pin is less than durable, no two entries hold the same
  content and no entry holds a secret.
*/
module ArchiveSafety {
  import opened Wrappers
  import opened Tables
  import opened TableLemmas
  import opened Ages
  import opened Identity
  import opened Secrets
  import opened Archive

  // ------------------------------------------------------------- holdings

  /** How many leases one actor holds on `d`. */
  function HeldBy(a: Actor, d: string): nat {
    CountIn(DigestsOfParts(a.parts), d)
    + (if a.thumb.Some? && a.thumb.value.digest == d then 1 else 0)
    + (if a.failed == Some(d) then 1 else 0)
  }

  function Held(actors: seq<Actor>, d: string): nat {
    if actors == [] then 0 else Held(actors[..|actors| - 1], d) + HeldBy(actors[|actors| - 1], d)
  }

  /** The lease registry counts exactly the leases that are alive, and lists no other digest. */
  ghost predicate LeasesExact(leases: map<string, nat>, actors: seq<Actor>) {
    forall d: string :: (d in leases <==> Held(actors, d) > 0)
                     && (d in leases ==> leases[d] == Held(actors, d))
  }

  lemma {:induction false} HeldAfter(actors: seq<Actor>, i: nat, a: Actor, d: string)
    requires i < |actors|
    ensures Held(actors[i := a], d) == Held(actors, d) - HeldBy(actors[i], d) + HeldBy(a, d)
    ensures HeldBy(actors[i], d) <= Held(actors, d)
  {
    var n := |actors| - 1;
    if i < n {
      HeldAfter(actors[..n], i, a, d);
      assert actors[i := a][..n] == actors[..n][i := a];
    } else {
      assert actors[i := a][..n] == actors[..n];
    }
  }

  lemma {:induction false} HeldMeans(actors: seq<Actor>, d: string)
    ensures Held(actors, d) > 0 <==> exists i | 0 <= i < |actors| :: HeldBy(actors[i], d) > 0
  {
    if actors != [] {
      var n := |actors| - 1;
      HeldMeans(actors[..n], d);
      assert forall i | 0 <= i < n :: actors[..n][i] == actors[i];
    }
  }

  lemma {:induction false} CountInMeans(ds: seq<string>, d: string)
    ensures CountIn(ds, d) > 0 <==> d in ds
  {
    if ds != [] {
      CountInMeans(ds[..|ds| - 1], d);
      assert ds == ds[..|ds| - 1] + [ds[|ds| - 1]];
    }
  }

  // -------------------------------------------------------------- programs

  /** A program that starts without the index lock. */
  predicate Outside(prog: seq<Instr>) {
    prog == [] ||
    match prog[0]
    case Acquire => Entering(prog[1..])
    case DropThumb | DropPart | DropFailed | SweepIncoming => Outside(prog[1..])
    case FinishPart(_) => prog[1..] == []
    case FinishThumb(_) => prog[1..] == []
    case Derive(_) => prog[1..] == []
    case Reply => prog[1..] == []
    case _ => false
  }

  /** What may follow `Acquire`: a sweep, or one statement that decides the rest. */
  predicate Entering(prog: seq<Instr>) {
    prog != [] &&
    match prog[0]
    case Release => Outside(prog[1..])
    case Check(_) => Entering(prog[1..])
    case TouchFirst(_) => prog[1..] == []
    case TouchAgain(_, _) => prog[1..] == []
    case RemoveRow(_) => prog[1..] == []
    case ClearRows => prog[1..] == []
    case ExpireRows(_, _) => prog[1..] == []
    case StartPin(_, _) => prog[1..] == []
    case Scan => prog[1..] == []
    case _ => false
  }

  /** A program in the middle of a lock hold, with what its next statements rely on. */
  ghost predicate Inside(db: Db, synced: set<string>, identity: string, prog: seq<Instr>)
    decreases |prog|
  {
    prog != [] &&
    match prog[0]
    case Check(d) => Inside(db, synced - {d}, identity, prog[1..])
    case Unlink(d) => d !in db.blobs && Inside(db, synced - {d}, identity, prog[1..])
    case Sync(_) => Pinning(db, synced, prog)
    case SetPin(_, _) => Pinning(db, synced, prog)
    case InsertRow(_, _) => prog[1..] == [] && FindIdentity(db.entries, identity).None?
    case Evict => prog[1..] == []
    case _ => Entering(prog)
  }

  /** Every digest of the entry is synced by the time the pin is written. */
  ghost predicate Pinning(db: Db, synced: set<string>, prog: seq<Instr>)
    decreases |prog|
  {
    prog != [] &&
    match prog[0]
    case Sync(d) => Pinning(db, synced + {d}, prog[1..])
    case SetPin(id, on) => prog[1..] == [Release] && (on ==> forall d <- DigestsOf(db, id) :: d in synced)
    case _ => false
  }

  lemma {:induction false} PinningOnly(db: Db, synced: set<string>, prog: seq<Instr>)
    requires Pinning(db, synced, prog)
    ensures DropThumb !in prog && DropPart !in prog && prog[|prog| - 1] == Release
    ensures |prog| > 1
    decreases |prog|
  {
    assert prog == [prog[0]] + prog[1..];
    if prog[0].Sync? {
      PinningOnly(db, synced + {prog[0].digest}, prog[1..]);
    }
  }

  lemma {:induction false} MorePinned(db: Db, less: set<string>, more: set<string>, prog: seq<Instr>)
    requires less <= more && Pinning(db, less, prog)
    ensures Pinning(db, more, prog)
    decreases |prog|
  {
    if prog[0].Sync? {
      MorePinned(db, less + {prog[0].digest}, more + {prog[0].digest}, prog[1..]);
    }
  }

  lemma {:induction false} MoreSynced(db: Db, less: set<string>, more: set<string>, identity: string, prog: seq<Instr>)
    requires less <= more && Inside(db, less, identity, prog)
    ensures Inside(db, more, identity, prog)
    decreases |prog|
  {
    match prog[0]
    case Check(d) => MoreSynced(db, less - {d}, more - {d}, identity, prog[1..]);
    case Unlink(d) => MoreSynced(db, less - {d}, more - {d}, identity, prog[1..]);
    case Sync(_) => MorePinned(db, less, more, prog);
    case SetPin(_, _) => MorePinned(db, less, more, prog);
    case _ =>
  }

  lemma {:induction false} EnteredIsInside(db: Db, synced: set<string>, identity: string, prog: seq<Instr>)
    requires Entering(prog)
    ensures Inside(db, synced, identity, prog)
    decreases |prog|
  {
    if prog[0].Check? {
      EnteredIsInside(db, synced - {prog[0].digest}, identity, prog[1..]);
    }
  }

  // ------------------------------------------------------------- invariant

  /** The content an actor holds leases on is on the disk, and passed the checks on the way in. */
  ghost predicate HoldsFiles(files: set<string>, a: Actor) {
    && (forall p <- a.parts :: p.digest in files && Acceptable(p))
    && (a.thumb.Some? ==> a.thumb.value.digest in files)
  }

  datatype Standing = Sound | Unsound

  /**
    Where one actor stands: its content is on the disk, its program fits the
    lock, and it still has to do what it owes. A value rather than a
    predicate, so that a proof looks inside only where it has to.
  */
  ghost function StandingOf(w: World, me: nat, a: Actor): Standing {
    if && HoldsFiles(w.files, a)
       && (if w.lock == Some(me) then Inside(w.db, w.synced, IdentityOf(a), a.prog) else Outside(a.prog))
       && (Committing(a.prog) ==> a.parts != [] && !AnySensitive(a.parts))
       && HoldingsOk(a)
    then Sound else Unsound
  }

  ghost predicate ActorOk(w: World, me: nat, a: Actor) {
    StandingOf(w, me, a).Sound?
  }

  /** What an actor holds and what its program still does about it agree. */
  predicate HoldingsOk(a: Actor) {
    && (a.failed.Some? ==> a.prog != [] && a.prog[0].DropFailed?)
    && (if InCommit(a.prog)
        then DropPart !in a.prog && DropThumb !in a.prog && ThumbMatches(a.prog[|a.prog| - 1], a.thumb)
        else a.thumb.Some? ==> DropThumb in a.prog)
  }

  /** The last instruction is one of a recording, so what follows it is not decided yet. */
  predicate InCommit(prog: seq<Instr>) {
    prog != [] &&
    var last := prog[|prog| - 1];
    last.FinishPart? || last.Evict? || Committing(prog)
  }

  /** Only the later statements of a commit have a thumbnail, and they record that one. */
  predicate ThumbMatches(last: Instr, thumb: Option<Part>) {
    match last
    case TouchAgain(_, facts) => facts.thumb == thumb
    case InsertRow(_, facts) => facts.thumb == thumb
    case Evict => true
    case _ => thumb.None?
  }

  /** Between the checks at the head of a commit and its last statement. */
  predicate Committing(prog: seq<Instr>) {
    prog != [] &&
    var last := prog[|prog| - 1];
    last.TouchFirst? || last.Derive? || last.FinishThumb? || last.TouchAgain? || last.InsertRow?
  }

  function AsParts(rows: seq<PartRow>): seq<Part> {
    seq(|rows|, i requires 0 <= i < |rows| => Part(rows[i].mime, rows[i].digest, rows[i].bytes))
  }

  /** An entry's identity is computed from the rows it holds, and none of them is a secret. */
  ghost predicate EntryOk(e: EntryRow, ps: seq<PartRow>) {
    var held := AsParts(PartsOf(ps, e.id));
    && held != [] && WellFormed(held) && !AnySensitive(held)
    && e.identity == Encoded(held)
  }

  ghost predicate DbOk(db: Db) {
    && Valid(db)
    && forall e <- db.entries :: EntryOk(e, db.parts)
  }

  ghost predicate PinsDurable(db: Db, synced: set<string>) {
    forall e <- db.entries | e.pinned :: forall d <- DigestsOf(db, e.id) :: d in synced
  }

  /** Where the whole archive stands, a value for the same reason. */
  ghost function SoundnessOf(s: State): Standing {
    if && DbOk(s.w.db)
       && s.w.db.blobs.Keys <= s.w.files
       && s.w.synced <= s.w.files
       && PinsDurable(s.w.db, s.w.synced)
       && LeasesExact(s.w.leases, s.actors)
       && (s.w.lock.Some? ==> s.w.lock.value < |s.actors|)
       && forall i | 0 <= i < |s.actors| :: ActorOk(s.w, i, s.actors[i])
    then Sound else Unsound
  }

  ghost predicate Inv(s: State) {
    SoundnessOf(s).Sound?
  }

  // ------------------------------------------------- what rows keep naming

  lemma {:induction false} PartsOfAreRows(ps: seq<PartRow>, id: int)
    ensures forall p <- PartsOf(ps, id) :: p in ps && p.entry == id
  {
    if ps != [] {
      PartsOfAreRows(ps[..|ps| - 1], id);
    }
  }

  /** Every digest an entry names has a blob row. */
  lemma NamedHasBlob(db: Db, id: int, d: string)
    requires Valid(db) && d in DigestsOf(db, id)
    ensures d in db.blobs
  {
    CountedMeansNamed(db.entries, db.parts, d);
    PartsOfAreRows(db.parts, id);
    if d in Digests(PartsOf(db.parts, id)) {
      var i :| 0 <= i < |PartsOf(db.parts, id)| && PartsOf(db.parts, id)[i].digest == d;
      assert PartsOf(db.parts, id)[i] in db.parts;
    }
    assert Refs(db.entries, db.parts, d) > 0;
  }

  lemma {:induction false} FindAfterDrop(es: seq<EntryRow>, gone: set<int>, id: int)
    requires id !in gone
    ensures Find(DropEntries(es, gone), id) == Find(es, id)
  {
    if es != [] {
      var front, last := es[..|es| - 1], es[|es| - 1];
      FindAfterDrop(front, gone, id);
      if last.id !in gone {
        assert (DropEntries(front, gone) + [last])[..|DropEntries(front, gone)|] == DropEntries(front, gone);
      }
    }
  }

  lemma DigestsAfterDrop(db: Db, gone: set<int>, id: int)
    requires id !in gone
    ensures DigestsOf(Without(db, gone), id) == DigestsOf(db, id)
    ensures PartsOf(Without(db, gone).parts, id) == PartsOf(db.parts, id)
  {
    FindAfterDrop(db.entries, gone, id);
    DropKeepsPartsOf(db.parts, gone, id);
  }

  /** Deleting rows keeps identities, secrets and pins as they were for what is left. */
  lemma WithoutOk(db: Db, gone: set<int>, synced: set<string>)
    requires DbOk(db) && PinsDurable(db, synced)
    ensures DbOk(Without(db, gone)) && PinsDurable(Without(db, gone), synced)
    ensures Without(db, gone).blobs.Keys <= db.blobs.Keys
  {
    WithoutKeepsValid(db, gone);
    forall e <- Without(db, gone).entries
      ensures EntryOk(e, Without(db, gone).parts)
      ensures e.pinned ==> forall d <- DigestsOf(Without(db, gone), e.id) :: d in synced
    {
      DigestsAfterDrop(db, gone, e.id);
    }
  }

  lemma {:induction false} FindAmended(es: seq<EntryRow>, fs: seq<EntryRow>, id: int)
    requires |es| == |fs| && forall i | 0 <= i < |es| :: SameButAtAndPin(es[i], fs[i])
    ensures Find(es, id).Some? == Find(fs, id).Some?
    ensures Find(es, id).Some? ==> Find(es, id).value.thumb == Find(fs, id).value.thumb
  {
    if es != [] {
      var n := |es| - 1;
      assert forall i | 0 <= i < n :: SameButAtAndPin(es[..n][i], fs[..n][i]);
      assert SameButAtAndPin(es[n], fs[n]);
      FindAmended(es[..n], fs[..n], id);
    }
  }

  /** Moving timestamps, or pinning entries whose content is synced, keeps everything. */
  lemma AmendedOk(db: Db, fs: seq<EntryRow>, synced: set<string>)
    requires DbOk(db)
    requires |fs| == |db.entries| && forall i | 0 <= i < |fs| :: SameButAtAndPin(db.entries[i], fs[i])
    requires forall f <- fs | f.pinned :: forall d <- DigestsOf(db, f.id) :: d in synced
    ensures DbOk(db.(entries := fs)) && PinsDurable(db.(entries := fs), synced)
  {
    RewrittenKeepsValid(db, fs);
    forall f <- fs
      ensures EntryOk(f, db.parts)
      ensures DigestsOf(db.(entries := fs), f.id) == DigestsOf(db, f.id)
    {
      AmendedRowOk(db, fs, f);
    }
  }

  lemma AmendedRowOk(db: Db, fs: seq<EntryRow>, f: EntryRow)
    requires forall e <- db.entries :: EntryOk(e, db.parts)
    requires |fs| == |db.entries| && forall i | 0 <= i < |fs| :: SameButAtAndPin(db.entries[i], fs[i])
    requires f in fs
    ensures EntryOk(f, db.parts)
    ensures DigestsOf(db.(entries := fs), f.id) == DigestsOf(db, f.id)
  {
    var i :| 0 <= i < |fs| && fs[i] == f;
    assert SameButAtAndPin(db.entries[i], fs[i]) && EntryOk(db.entries[i], db.parts);
    FindAmended(db.entries, fs, f.id);
  }

  lemma TouchedOk(db: Db, identity: string, at: int, synced: set<string>)
    requires DbOk(db) && PinsDurable(db, synced)
    ensures DbOk(Touched(db, identity, at)) && PinsDurable(Touched(db, identity, at), synced)
    ensures Touched(db, identity, at).blobs == db.blobs
  {
    var found := FindIdentity(db.entries, identity);
    if found.Some? {
      var fs := WithAt(db.entries, found.value, at);
      WithAtAmends(db.entries, found.value, at);
      AmendedPins(db, fs, synced);
      AmendedOk(db, fs, synced);
    }
  }

  lemma WithAtAmends(es: seq<EntryRow>, id: int, at: int)
    ensures forall i | 0 <= i < |es| :: SameButAtAndPin(es[i], WithAt(es, id, at)[i])
    ensures forall i | 0 <= i < |es| :: WithAt(es, id, at)[i].pinned == es[i].pinned
  {
  }

  lemma AmendedPins(db: Db, fs: seq<EntryRow>, synced: set<string>)
    requires PinsDurable(db, synced)
    requires |fs| == |db.entries| && forall i | 0 <= i < |fs| :: SameButAtAndPin(db.entries[i], fs[i])
    requires forall i | 0 <= i < |fs| :: fs[i].pinned == db.entries[i].pinned
    ensures forall f <- fs | f.pinned :: forall d <- DigestsOf(db, f.id) :: d in synced
  {
    forall f <- fs | f.pinned
      ensures forall d <- DigestsOf(db, f.id) :: d in synced
    {
      var i :| 0 <= i < |fs| && fs[i] == f;
      assert SameButAtAndPin(db.entries[i], fs[i]) && db.entries[i] in db.entries;
    }
  }

  lemma PinnedOk(db: Db, id: int, on: bool, synced: set<string>)
    requires DbOk(db) && PinsDurable(db, synced)
    requires on ==> forall d <- DigestsOf(db, id) :: d in synced
    ensures DbOk(Pinned(db, id, on)) && PinsDurable(Pinned(db, id, on), synced)
  {
    PinnedAmends(db.entries, id, on);
    PinnedSynced(db, id, on, synced);
    AmendedOk(db, WithPinned(db.entries, id, on), synced);
  }

  lemma PinnedAmends(es: seq<EntryRow>, id: int, on: bool)
    ensures forall i | 0 <= i < |es| :: SameButAtAndPin(es[i], WithPinned(es, id, on)[i])
  {
  }

  lemma PinnedSynced(db: Db, id: int, on: bool, synced: set<string>)
    requires PinsDurable(db, synced)
    requires on ==> forall d <- DigestsOf(db, id) :: d in synced
    ensures forall f <- WithPinned(db.entries, id, on) | f.pinned :: forall d <- DigestsOf(db, f.id) :: d in synced
  {
    var fs := WithPinned(db.entries, id, on);
    forall f <- fs | f.pinned
      ensures forall d <- DigestsOf(db, f.id) :: d in synced
    {
      var i :| 0 <= i < |fs| && fs[i] == f;
      assert db.entries[i].id == f.id && db.entries[i] in db.entries;
    }
  }

  lemma {:induction false} FindInFront(es: seq<EntryRow>, row: EntryRow, id: int)
    requires id != row.id
    ensures Find(es + [row], id) == Find(es, id)
  {
    assert (es + [row])[..|es|] == es;
  }

  lemma AsPartsOfRows(id: int, parts: seq<Part>)
    ensures AsParts(PartRows(id, parts)) == parts
  {
  }

  /** A new row and its parts change nothing about another id. */
  lemma InsertedOther(db: Db, row: EntryRow, rows: seq<PartRow>, x: int)
    requires x != row.id && forall p <- rows :: p.entry == row.id
    ensures Find(db.entries + [row], x) == Find(db.entries, x)
    ensures PartsOf(db.parts + rows, x) == PartsOf(db.parts, x)
  {
    FindInFront(db.entries, row, x);
    PartsOfAppend(db.parts, rows, x);
    PartsOfNone(rows, x);
    assert PartsOf(db.parts, x) + [] == PartsOf(db.parts, x);
  }

  /** The new row holds exactly its own parts. */
  lemma InsertedItself(db: Db, id: int, rows: seq<PartRow>)
    requires (forall p <- db.parts :: p.entry != id) && forall p <- rows :: p.entry == id
    ensures PartsOf(db.parts + rows, id) == rows
  {
    PartsOfAppend(db.parts, rows, id);
    PartsOfNone(db.parts, id);
    PartsOfAll(rows, id);
    assert [] + rows == rows;
  }

  lemma NewRowOk(db: Db, parts: seq<Part>, facts: Facts, at: int)
    requires Valid(db) && parts != [] && WellFormed(parts) && !AnySensitive(parts)
    ensures var id := NextId(db.entries);
      EntryOk(RowOf(id, Encoded(parts), parts, facts, at), db.parts + PartRows(id, parts))
  {
    var id := NextId(db.entries);
    NextIdIsFresh(db);
    InsertedItself(db, id, PartRows(id, parts));
    AsPartsOfRows(id, parts);
  }

  lemma InsertedEntriesOk(db: Db, parts: seq<Part>, facts: Facts, at: int)
    requires DbOk(db) && parts != [] && WellFormed(parts) && !AnySensitive(parts)
    ensures var after := Inserted(db, Encoded(parts), parts, facts, at);
      forall e <- after.entries :: EntryOk(e, after.parts)
  {
    var id := NextId(db.entries);
    var row := RowOf(id, Encoded(parts), parts, facts, at);
    var after := Inserted(db, Encoded(parts), parts, facts, at);
    NextIdIsFresh(db);
    NewRowOk(db, parts, facts, at);
    RowsOk(db, after, row, PartRows(id, parts));
  }

  lemma RowsOk(db: Db, after: Db, row: EntryRow, rows: seq<PartRow>)
    requires forall e <- db.entries :: e.id != row.id && EntryOk(e, db.parts)
    requires after.entries == db.entries + [row] && after.parts == db.parts + rows
    requires (forall p <- rows :: p.entry == row.id) && EntryOk(row, after.parts)
    ensures forall e <- after.entries :: EntryOk(e, after.parts)
  {
    forall e <- after.entries
      ensures EntryOk(e, after.parts)
    {
      if e in db.entries {
        OldRowOk(db, after, row, rows, e);
      }
    }
  }

  lemma InsertedPins(db: Db, parts: seq<Part>, facts: Facts, at: int, synced: set<string>)
    requires DbOk(db) && PinsDurable(db, synced)
    ensures PinsDurable(Inserted(db, Encoded(parts), parts, facts, at), synced)
  {
    var id := NextId(db.entries);
    var row := RowOf(id, Encoded(parts), parts, facts, at);
    var after := Inserted(db, Encoded(parts), parts, facts, at);
    NextIdIsFresh(db);
    forall e <- after.entries | e.pinned
      ensures forall d <- DigestsOf(after, e.id) :: d in synced
    {
      OldRowOk(db, after, row, PartRows(id, parts), e);
    }
  }

  /** A new entry is consistent, unpinned and no secret, and names only content its draft held. */
  lemma InsertedOk(db: Db, parts: seq<Part>, facts: Facts, at: int, synced: set<string>)
    requires DbOk(db) && PinsDurable(db, synced)
    requires FindIdentity(db.entries, Encoded(parts)).None? && DistinctMimes(parts)
    requires parts != [] && WellFormed(parts) && !AnySensitive(parts)
    ensures var after := Inserted(db, Encoded(parts), parts, facts, at);
      DbOk(after) && PinsDurable(after, synced)
  {
    InsertedKeepsValid(db, Encoded(parts), parts, facts, at);
    InsertedEntriesOk(db, parts, facts, at);
    InsertedPins(db, parts, facts, at, synced);
  }

  lemma OldRowOk(db: Db, after: Db, row: EntryRow, rows: seq<PartRow>, e: EntryRow)
    requires e in db.entries && e.id != row.id && EntryOk(e, db.parts) && forall p <- rows :: p.entry == row.id
    requires after.entries == db.entries + [row] && after.parts == db.parts + rows
    ensures EntryOk(e, after.parts) && DigestsOf(after, e.id) == DigestsOf(db, e.id)
  {
    InsertedOther(db, row, rows, e.id);
  }

  lemma {:induction false} ReferencedKeys(blobs: map<string, BlobRow>, parts: seq<Part>)
    ensures forall d <- ReferenceAll(blobs, parts) :: d in blobs || exists p <- parts :: p.digest == d
  {
    if parts != [] {
      ReferencedKeys(blobs, parts[..|parts| - 1]);
    }
  }
}
