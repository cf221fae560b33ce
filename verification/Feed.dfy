/**
  The event feed as a replica of the archive.

  Every mutator tells the watchers what it did. A client that starts from the
  listing and folds the events in order holds, after each serialized mutation,
  exactly what the archive holds. `Mutates` is what each mutator does to the
  tables and says about it, `FeedIsAReplica` what that means over a whole run
  for a client that joins at any point of it.
*/
module Feed {
  import opened Wrappers
  import opened Tables
  import opened TableLemmas
  import opened Ages
  import opened Index
  import opened ListFrame
  import opened ArchiveSafety
  import opened Maintenance
  import opened Outbox

  datatype Event = Added(entry: Summary) | Updated(entry: Summary) | Removed(id: int) | Cleared

  // ------------------------------------------------------------- summaries

  function KindName(kind: Kind): string {
    match kind
    case Text => "text"
    case Link => "link"
    case Color => "color"
    case Image => "image"
    case Files => "files"
  }

  function Mimes(ps: seq<PartRow>): seq<string> {
    seq(|ps|, i requires 0 <= i < |ps| => ps[i].mime)
  }

  function SummaryOf(e: EntryRow, ps: seq<PartRow>): Summary {
    Summary(e.id, KindName(e.kind), Mimes(PartsOf(ps, e.id)), e.bytes, e.preview, e.width, e.height,
            e.thumb.Some?, e.pinned, e.source, e.at)
  }

  function Summaries(es: seq<EntryRow>, ps: seq<PartRow>): map<int, Summary> {
    if es == [] then map[]
    else
      var last := es[|es| - 1];
      Summaries(es[..|es| - 1], ps)[last.id := SummaryOf(last, ps)]
  }

  /** What the archive would list, by id. */
  function Replica(db: Db): map<int, Summary> {
    Summaries(db.entries, db.parts)
  }

  /** What a client does with one event. */
  function Fold(held: map<int, Summary>, event: Event): map<int, Summary> {
    match event
    case Added(entry) => held[entry.id := entry]
    case Updated(entry) => held[entry.id := entry]
    case Removed(id) => held - {id}
    case Cleared => map id | id in held && held[id].pinned :: held[id]
  }

  function FoldAll(held: map<int, Summary>, events: seq<Event>): map<int, Summary> {
    if events == [] then held else Fold(FoldAll(held, events[..|events| - 1]), events[|events| - 1])
  }

  function Removals(ids: seq<int>): seq<Event> {
    seq(|ids|, i requires 0 <= i < |ids| => Removed(ids[i]))
  }

  // --------------------------------------------------------------- folding

  lemma FoldOne(held: map<int, Summary>, event: Event)
    ensures FoldAll(held, [event]) == Fold(held, event)
  {
    assert [event][..0] == [];
  }

  lemma FoldMore(held: map<int, Summary>, events: seq<Event>, event: Event)
    ensures FoldAll(held, events + [event]) == Fold(FoldAll(held, events), event)
  {
    assert (events + [event])[..|events|] == events;
  }

  lemma {:induction false} FoldAppend(held: map<int, Summary>, a: seq<Event>, b: seq<Event>)
    ensures FoldAll(held, a + b) == FoldAll(FoldAll(held, a), b)
    decreases |b|
  {
    if b == [] {
      assert a + b == a;
    } else {
      FoldAppend(held, a, b[..|b| - 1]);
      assert (a + b)[..|a + b| - 1] == a + b[..|b| - 1];
    }
  }

  lemma {:induction false} FoldRemovals(held: map<int, Summary>, ids: seq<int>)
    ensures FoldAll(held, Removals(ids)) == held - ToSet(ids)
  {
    if ids == [] {
      assert ToSet(ids) == {};
    } else {
      var n := |ids| - 1;
      FoldRemovals(held, ids[..n]);
      assert Removals(ids)[..n] == Removals(ids[..n]);
      assert ToSet(ids) == ToSet(ids[..n]) + {ids[n]};
    }
  }

  // ------------------------------------------------ the replica of a change

  lemma {:induction false} Listed(es: seq<EntryRow>, ps: seq<PartRow>, id: int)
    ensures id in Summaries(es, ps) <==> Find(es, id).Some?
    ensures id in Summaries(es, ps) ==> Summaries(es, ps)[id] == SummaryOf(Find(es, id).value, ps)
  {
    if es != [] {
      Listed(es[..|es| - 1], ps, id);
    }
  }

  /** One id of a changed archive, against the replica before. */
  lemma ListedSame(db: Db, after: Db, id: int)
    requires Find(after.entries, id) == Find(db.entries, id)
    requires PartsOf(after.parts, id) == PartsOf(db.parts, id)
    ensures id in Replica(after) <==> id in Replica(db)
    ensures id in Replica(after) ==> Replica(after)[id] == Replica(db)[id]
  {
    Listed(db.entries, db.parts, id);
    Listed(after.entries, after.parts, id);
  }

  lemma ReplicaWithout(db: Db, gone: set<int>)
    ensures Replica(Without(db, gone)) == Replica(db) - gone
  {
    var after := Without(db, gone);
    forall id: int
      ensures id in gone ==> id !in Replica(after)
      ensures id !in gone ==> (id in Replica(after) <==> id in Replica(db))
      ensures id in Replica(after) && id !in gone ==> Replica(after)[id] == Replica(db)[id]
    {
      if id in gone {
        Listed(after.entries, after.parts, id);
      } else {
        FindAfterDrop(db.entries, gone, id);
        DropKeepsPartsOf(db.parts, gone, id);
        ListedSame(db, after, id);
      }
    }
  }

  lemma {:induction false} FindWithAt(es: seq<EntryRow>, id: int, at: int, x: int)
    ensures Find(WithAt(es, id, at), x) ==
      match Find(es, x) case Some(e) => Some(if x == id then e.(at := at) else e) case None => None
  {
    if es != [] {
      FindWithAt(es[..|es| - 1], id, at, x);
      assert WithAt(es, id, at)[..|es| - 1] == WithAt(es[..|es| - 1], id, at);
    }
  }

  lemma {:induction false} FindWithPinned(es: seq<EntryRow>, id: int, pinned: bool, x: int)
    ensures Find(WithPinned(es, id, pinned), x) ==
      match Find(es, x) case Some(e) => Some(if x == id then e.(pinned := pinned) else e) case None => None
  {
    if es != [] {
      FindWithPinned(es[..|es| - 1], id, pinned, x);
      assert WithPinned(es, id, pinned)[..|es| - 1] == WithPinned(es[..|es| - 1], id, pinned);
    }
  }

  /** A change to one row, or a new row, shows as that row's new summary and nothing else. */
  lemma ReplicaAmended(db: Db, after: Db, id: int)
    requires Find(after.entries, id).Some?
    requires forall x: int | x != id :: Find(after.entries, x) == Find(db.entries, x)
    requires forall x: int | x != id :: PartsOf(after.parts, x) == PartsOf(db.parts, x)
    ensures Replica(after) == Replica(db)[id := SummaryOf(Find(after.entries, id).value, after.parts)]
  {
    Listed(after.entries, after.parts, id);
    forall x: int | x != id
      ensures x in Replica(after) <==> x in Replica(db)
      ensures x in Replica(after) ==> Replica(after)[x] == Replica(db)[x]
    {
      ListedSame(db, after, x);
    }
  }

  lemma ReplicaTouched(db: Db, identity: string, at: int)
    requires FindIdentity(db.entries, identity).Some?
    ensures var id, after := FindIdentity(db.entries, identity).value, Touched(db, identity, at);
      && Find(after.entries, id).Some?
      && Replica(after) == Replica(db)[id := SummaryOf(Find(after.entries, id).value, db.parts)]
  {
    var id := FindIdentity(db.entries, identity).value;
    forall x: int
      ensures Find(WithAt(db.entries, id, at), x) ==
        match Find(db.entries, x) case Some(e) => Some(if x == id then e.(at := at) else e) case None => None
    {
      FindWithAt(db.entries, id, at, x);
    }
    ReplicaAmended(db, Touched(db, identity, at), id);
  }

  lemma ReplicaPinned(db: Db, id: int, pinned: bool)
    ensures var fs := WithPinned(db.entries, id, pinned);
      if Find(db.entries, id).None? then Replica(Pinned(db, id, pinned)) == Replica(db)
      else
        && Find(fs, id).Some?
        && Replica(Pinned(db, id, pinned)) == Replica(db)[id := SummaryOf(Find(fs, id).value, db.parts)]
  {
    var fs := WithPinned(db.entries, id, pinned);
    forall x: int
      ensures Find(fs, x) ==
        match Find(db.entries, x) case Some(e) => Some(if x == id then e.(pinned := pinned) else e) case None => None
    {
      FindWithPinned(db.entries, id, pinned, x);
    }
    if Find(db.entries, id).Some? {
      ReplicaAmended(db, Pinned(db, id, pinned), id);
    } else {
      forall x: int
        ensures x in Replica(Pinned(db, id, pinned)) <==> x in Replica(db)
        ensures x in Replica(db) ==> Replica(Pinned(db, id, pinned))[x] == Replica(db)[x]
      {
        ListedSame(db, Pinned(db, id, pinned), x);
      }
    }
  }

  lemma ReplicaInserted(db: Db, identity: string, parts: seq<Part>, facts: Facts, at: int)
    requires Valid(db)
    ensures var id, after := NextId(db.entries), Inserted(db, identity, parts, facts, at);
      && Find(after.entries, id) == Some(RowOf(id, identity, parts, facts, at))
      && Replica(after) == Replica(db)[id := SummaryOf(RowOf(id, identity, parts, facts, at), after.parts)]
      && id !in Replica(db)
  {
    var id := NextId(db.entries);
    var row := RowOf(id, identity, parts, facts, at);
    var after := Inserted(db, identity, parts, facts, at);
    NextIdIsFresh(db);
    FindLast(db.entries, row);
    Listed(db.entries, db.parts, id);
    forall x: int | x != id
      ensures Find(after.entries, x) == Find(db.entries, x)
      ensures PartsOf(after.parts, x) == PartsOf(db.parts, x)
    {
      InsertedOther(db, row, PartRows(id, parts), x);
    }
    ReplicaAmended(db, after, id);
  }

  lemma FindLast(es: seq<EntryRow>, row: EntryRow)
    ensures Find(es + [row], row.id) == Some(row)
  {
  }

  /** Dropping what is not pinned from the replica is what clearing does to the archive. */
  lemma ReplicaCleared(db: Db)
    requires Valid(db)
    ensures Replica(Without(db, EligibleIds(db.entries, None))) == Fold(Replica(db), Cleared)
  {
    var gone := EligibleIds(db.entries, None);
    ReplicaWithout(db, gone);
    forall id <- Replica(db)
      ensures id in gone <==> !Replica(db)[id].pinned
    {
      Listed(db.entries, db.parts, id);
      UnpinnedOrKept(db.entries, id);
    }
    assert Replica(db) - gone == Fold(Replica(db), Cleared);
  }

  lemma UnpinnedOrKept(es: seq<EntryRow>, id: int)
    requires Increasing(es) && Find(es, id).Some?
    ensures id in EligibleIds(es, None) <==> !Find(es, id).value.pinned
  {
    var e := Find(es, id).value;
    if id in EligibleIds(es, None) {
      var f :| f in es && f.id == id && !f.pinned;
      SameIdSameRow(es, e, f);
    }
  }

  // ------------------------------------------------------------- mutations

  datatype Mutation =
    | Record(identity: string, parts: seq<Part>, facts: Facts, at: int)
    | SetPin(id: int, on: bool)
    | Drop(id: int)
    | Empty
    | Retire(retention: Option<int>, now: int)

  /** A row of the archive as it is announced. */
  function SummaryIn(db: Db, id: int): Summary
    requires Find(db.entries, id).Some?
  {
    SummaryOf(Find(db.entries, id).value, db.parts)
  }

  /** What one mutation makes of the tables `db`, and what it tells the watchers, in order. */
  ghost predicate Mutates(budget: int, db: Db, op: Mutation, after: Db, sent: seq<Event>) {
    match op
    case Record(identity, parts, facts, at) => Records(budget, db, identity, parts, facts, at, after, sent)
    case SetPin(id, on) =>
      && after == Pinned(db, id, on)
      && if Find(db.entries, id).None? then sent == []
         else Find(after.entries, id).Some? && sent == [Updated(SummaryIn(after, id))]
    case Drop(id) =>
      if Find(db.entries, id).None? then after == db && sent == []
      else after == Without(db, {id}) && sent == [Removed(id)]
    case Empty => after == Without(db, EligibleIds(db.entries, None)) && sent == [Cleared]
    case Retire(retention, now) =>
      exists removed: seq<int> :: Retires(db, retention, now, removed)
        && after == Without(db, ToSet(removed)) && sent == Removals(removed)
  }

  /** A copy moves to the top, a repeated mime is refused, and a new entry evicts what no longer fits. */
  ghost predicate Records(budget: int, db: Db, identity: string, parts: seq<Part>, facts: Facts, at: int,
                          after: Db, sent: seq<Event>) {
    var known := FindIdentity(db.entries, identity);
    if known.Some? then
      && after == Touched(db, identity, at) && Find(after.entries, known.value).Some?
      && sent == [Updated(SummaryIn(after, known.value))]
    else if !DistinctMimes(parts) then after == db && sent == []
    else
      var mid := Inserted(db, identity, parts, facts, at);
      && Find(mid.entries, NextId(db.entries)).Some?
      && exists gone: seq<int> :: EvictsTo(mid, budget, gone) && after == Without(mid, ToSet(gone))
           && sent == Announced(SummaryIn(mid, NextId(db.entries)), gone)
  }

  /** One wake: a beginning of the expired rows, at most four batches of them. */
  ghost predicate Retires(db: Db, retention: Option<int>, now: int, removed: seq<int>) {
    match retention
    case None => removed == []
    case Some(age) =>
      ExpiresTo(db, SaturatingSub(now, age), |removed|, removed) && |removed| <= BATCH * BATCHES
  }

  lemma RecordFolds(budget: int, db: Db, identity: string, parts: seq<Part>, facts: Facts, at: int, after: Db,
                    sent: seq<Event>)
    requires Valid(db) && Records(budget, db, identity, parts, facts, at, after, sent)
    ensures Valid(after) && Replica(after) == FoldAll(Replica(db), sent)
  {
    var known := FindIdentity(db.entries, identity);
    if known.Some? {
      TouchedKeepsValid(db, identity, at);
      ReplicaTouched(db, identity, at);
      FoldOne(Replica(db), Updated(SummaryIn(after, known.value)));
    } else if DistinctMimes(parts) {
      var mid, id := Inserted(db, identity, parts, facts, at), NextId(db.entries);
      var gone :| EvictsTo(mid, budget, gone) && after == Without(mid, ToSet(gone))
        && sent == Announced(SummaryIn(mid, id), gone);
      InsertedKeepsValid(db, identity, parts, facts, at);
      ReplicaInserted(db, identity, parts, facts, at);
      WithoutKeepsValid(mid, ToSet(gone));
      ReplicaWithout(mid, ToSet(gone));
      AnnouncedFolds(Replica(db), SummaryIn(mid, id), gone);
    }
  }

  lemma PinFolds(db: Db, id: int, on: bool, after: Db, sent: seq<Event>)
    requires Valid(db) && after == Pinned(db, id, on)
    requires if Find(db.entries, id).None? then sent == []
             else Find(after.entries, id).Some? && sent == [Updated(SummaryIn(after, id))]
    ensures Valid(after) && Replica(after) == FoldAll(Replica(db), sent)
  {
    PinnedKeepsValid(db, id, on);
    ReplicaPinned(db, id, on);
    if Find(db.entries, id).Some? {
      FoldOne(Replica(db), sent[0]);
    }
  }

  lemma DropFolds(db: Db, id: int)
    requires Valid(db)
    ensures Valid(Without(db, {id})) && Replica(Without(db, {id})) == FoldAll(Replica(db), [Removed(id)])
  {
    WithoutKeepsValid(db, {id});
    ReplicaWithout(db, {id});
    FoldOne(Replica(db), Removed(id));
  }

  lemma EmptyFolds(db: Db)
    requires Valid(db)
    ensures var after := Without(db, EligibleIds(db.entries, None));
      Valid(after) && Replica(after) == FoldAll(Replica(db), [Cleared])
  {
    WithoutKeepsValid(db, EligibleIds(db.entries, None));
    ReplicaCleared(db);
    FoldOne(Replica(db), Cleared);
  }

  lemma RetireFolds(db: Db, removed: seq<int>)
    requires Valid(db)
    ensures var after := Without(db, ToSet(removed));
      Valid(after) && Replica(after) == FoldAll(Replica(db), Removals(removed))
  {
    WithoutKeepsValid(db, ToSet(removed));
    ReplicaWithout(db, ToSet(removed));
    FoldRemovals(Replica(db), removed);
  }

  /** Every mutation's events turn a replica of the tables before into one of the tables after. */
  lemma MutationFolds(budget: int, db: Db, op: Mutation, after: Db, sent: seq<Event>)
    requires Valid(db) && Mutates(budget, db, op, after, sent)
    ensures Valid(after) && Replica(after) == FoldAll(Replica(db), sent)
  {
    match op
    case Record(identity, parts, facts, at) => RecordFolds(budget, db, identity, parts, facts, at, after, sent);
    case SetPin(id, on) => PinFolds(db, id, on, after, sent);
    case Drop(id) => DropFolds(db, id);
    case Empty => EmptyFolds(db);
    case Retire(retention, now) =>
      var removed: seq<int> :| Retires(db, retention, now, removed)
        && after == Without(db, ToSet(removed)) && sent == Removals(removed);
      RetireFolds(db, removed);
  }

  // ---------------------------------------------------------- lost replies

  /**
    A request that will change nothing a listing shows, told from the tables it
    finds: nothing to pin, remove or clear, a copy of the same age, a draft that
    is refused, or one that cannot stay. Expiry answers no one.
  */
  ghost predicate Unseen(budget: int, db: Db, op: Mutation)
    requires !op.Retire?
  {
    match op
    case Record(identity, parts, facts, at) =>
      var known := FindIdentity(db.entries, identity);
      if known.Some? then Find(db.entries, known.value).value.at == at
      else !DistinctMimes(parts) || CannotStay(budget, db, Inserted(db, identity, parts, facts, at), at)
    case SetPin(id, on) => Find(db.entries, id).None? || Find(db.entries, id).value.pinned == on
    case Drop(id) => Find(db.entries, id).None?
    case Empty => forall e <- db.entries :: e.pinned
  }

  /**
    A new entry is the only one its own eviction takes: it does not fit, every
    entry that could go in its place is younger, and without it either the
    budget was kept or there is nothing else to evict.
  */
  ghost predicate CannotStay(budget: int, db: Db, mid: Db, at: int) {
    && Used(mid) > budget
    && (forall e <- db.entries | !e.pinned :: e.at > at)
    && (Used(db) <= budget || forall e <- db.entries :: e.pinned)
  }

  lemma TouchUnseen(db: Db, identity: string, at: int)
    requires FindIdentity(db.entries, identity).Some?
    ensures var id := FindIdentity(db.entries, identity).value;
      && Find(db.entries, id).Some?
      && (Replica(Touched(db, identity, at)) == Replica(db) <==> Find(db.entries, id).value.at == at)
  {
    var id := FindIdentity(db.entries, identity).value;
    ReplicaTouched(db, identity, at);
    FindWithAt(db.entries, id, at, id);
    Listed(db.entries, db.parts, id);
    UpsertUnseen(Replica(db), id, SummaryIn(Touched(db, identity, at), id));
  }

  lemma UpsertUnseen(held: map<int, Summary>, id: int, s: Summary)
    ensures held[id := s] == held <==> id in held && held[id] == s
  {
    if held[id := s] == held {
      assert id in held[id := s];
    }
  }

  lemma PinUnseen(db: Db, id: int, on: bool)
    requires Find(db.entries, id).Some?
    ensures Replica(Pinned(db, id, on)) == Replica(db) <==> Find(db.entries, id).value.pinned == on
  {
    ReplicaPinned(db, id, on);
    FindWithPinned(db.entries, id, on, id);
    Listed(db.entries, db.parts, id);
    UpsertUnseen(Replica(db), id, SummaryIn(Pinned(db, id, on), id));
  }

  lemma RemovalUnseen(db: Db, gone: set<int>)
    ensures Replica(Without(db, gone)) == Replica(db) <==> forall id <- gone :: Find(db.entries, id).None?
  {
    ReplicaWithout(db, gone);
    forall id <- gone
      ensures id in Replica(db) <==> Find(db.entries, id).Some?
    {
      Listed(db.entries, db.parts, id);
    }
    assert (forall id <- gone :: id !in Replica(db)) ==> Replica(db) - gone == Replica(db);
  }

  lemma EligibleAreThere(es: seq<EntryRow>, cutoff: Option<int>, gone: set<int>)
    requires gone <= EligibleIds(es, cutoff)
    ensures forall id <- gone :: Find(es, id).Some?
  {
    forall id <- gone
      ensures Find(es, id).Some?
    {
      assert id in EligibleIds(es, cutoff);
    }
  }

  lemma EmptyUnseen(db: Db)
    ensures Replica(Without(db, EligibleIds(db.entries, None))) == Replica(db) <==> forall e <- db.entries :: e.pinned
  {
    var gone := EligibleIds(db.entries, None);
    RemovalUnseen(db, gone);
    EligibleAreThere(db.entries, None, gone);
    assert (forall e <- db.entries :: e.pinned) ==> gone == {};
    forall e <- db.entries | gone == {}
      ensures e.pinned
    {
      assert !e.pinned ==> e.id in gone;
    }
  }

  /** A new entry goes unseen only if it is itself all that was evicted. */
  lemma InsertUnseen(db: Db, mid: Db, id: int, budget: int, gone: seq<int>, s: Summary)
    requires Replica(mid) == Replica(db)[id := s] && id !in Replica(db) && EvictsTo(mid, budget, gone)
    ensures Replica(Without(mid, ToSet(gone))) == Replica(db) <==> gone == [id]
  {
    ReplicaWithout(mid, ToSet(gone));
    OldestFirstSpread(mid.entries, None, gone);
    EligibleAreThere(mid.entries, None, ToSet(gone));
    forall x <- ToSet(gone)
      ensures x in Replica(mid)
    {
      Listed(mid.entries, mid.parts, x);
    }
    UpsertThenDropUnseen(Replica(db), id, s, ToSet(gone));
    if ToSet(gone) == {id} {
      assert forall y <- gone :: y in ToSet(gone);
      assert id in gone;
      OnlyOne(gone, id);
    }
    assert gone == [id] ==> ToSet(gone) == {id};
  }

  lemma UpsertThenDropUnseen(held: map<int, Summary>, id: int, s: Summary, gone: set<int>)
    requires id !in held && gone <= held.Keys + {id}
    ensures held[id := s] - gone == held <==> gone == {id}
  {
    var left := held[id := s] - gone;
    if left == held {
      assert id !in left;
      forall x <- gone
        ensures x == id
      {
        assert x !in left;
      }
    }
  }

  lemma OnlyOne(xs: seq<int>, x: int)
    requires NoRepeats(xs) && x in xs && forall y <- xs :: y == x
    ensures xs == [x]
  {
    NoRepeatsCount(xs);
    assert ToSet(xs) == {x};
    assert xs[0] in xs;
  }

  /** The new row is the oldest there is exactly when every other one that may go is younger. */
  lemma NewestIsOldest(es: seq<EntryRow>, row: EntryRow)
    requires !row.pinned && forall e <- es :: e.id < row.id
    ensures IsOldest(es + [row], None, {}, row.id) <==> forall e <- es | !e.pinned :: e.at > row.at
  {
    var all := es + [row];
    assert forall f :: f in all <==> f in es || f == row;
    if IsOldest(all, None, {}, row.id) {
      var e :| e in all && e.id == row.id
        && forall f <- all | Eligible(f, None) && f.id !in {} && f.id != row.id :: Older(e, f);
      assert e == row;
    }
  }

  /** What evicting from `mid` does first, and whether that is enough. */
  lemma EvictsOnly(mid: Db, db: Db, budget: int, id: int)
    requires Without(mid, {}) == mid && Without(mid, {id}) == db
    ensures EvictsTo(mid, budget, [id]) <==>
      && IsOldest(mid.entries, None, {}, id) && Used(mid) > budget
      && (Used(db) <= budget || forall e <- db.entries :: e.pinned)
  {
    NoneEligible(db.entries);
    assert [id][..0] == [] && ToSet<int>([]) == {} && ToSet([id]) == {id};
  }

  lemma NoneEligible(es: seq<EntryRow>)
    ensures EligibleIds(es, None) == {} <==> forall e <- es :: e.pinned
  {
    forall e <- es | EligibleIds(es, None) == {}
      ensures e.pinned
    {
      assert !e.pinned ==> e.id in EligibleIds(es, None);
    }
  }

  lemma OnlyItselfGoes(budget: int, db: Db, identity: string, parts: seq<Part>, facts: Facts, at: int, gone: seq<int>)
    requires Valid(db) && FindIdentity(db.entries, identity).None? && DistinctMimes(parts)
    requires EvictsTo(Inserted(db, identity, parts, facts, at), budget, gone)
    ensures gone == [NextId(db.entries)] <==> CannotStay(budget, db, Inserted(db, identity, parts, facts, at), at)
  {
    var id, mid := NextId(db.entries), Inserted(db, identity, parts, facts, at);
    NextIdIsFresh(db);
    InsertedKeepsValid(db, identity, parts, facts, at);
    InsertUndone(db, identity, parts, facts, at);
    NewestIsOldest(db.entries, RowOf(id, identity, parts, facts, at));
    WithoutNothing(mid);
    EvictsOnly(mid, db, budget, id);
    EvictedThat(mid, budget, gone, [id]);
  }

  lemma EvictedThat(db: Db, budget: int, gone: seq<int>, ids: seq<int>)
    requires EvictsTo(db, budget, gone)
    ensures gone == ids <==> EvictsTo(db, budget, ids)
  {
    if EvictsTo(db, budget, ids) {
      EvictionUnique(db, budget, gone, ids);
    }
  }

  lemma RecordUnseen(budget: int, db: Db, identity: string, parts: seq<Part>, facts: Facts, at: int, after: Db,
                     sent: seq<Event>)
    requires Valid(db) && Records(budget, db, identity, parts, facts, at, after, sent)
    ensures Replica(after) == Replica(db) <==> Unseen(budget, db, Record(identity, parts, facts, at))
  {
    if FindIdentity(db.entries, identity).Some? {
      TouchUnseen(db, identity, at);
    } else if DistinctMimes(parts) {
      var mid, id := Inserted(db, identity, parts, facts, at), NextId(db.entries);
      var gone :| EvictsTo(mid, budget, gone) && after == Without(mid, ToSet(gone))
        && sent == Announced(SummaryIn(mid, id), gone);
      ReplicaInserted(db, identity, parts, facts, at);
      InsertUnseen(db, mid, id, budget, gone, SummaryIn(mid, id));
      OnlyItselfGoes(budget, db, identity, parts, facts, at, gone);
    }
  }

  /**
    A request whose reply is lost is never announced. A watcher that was in step
    still is, exactly when the request was one that changes nothing a listing
    shows, which the tables before it tell.
  */
  lemma LostReplyLosesEvents(budget: int, db: Db, op: Mutation, after: Db, sent: seq<Event>, held: map<int, Summary>)
    requires Valid(db) && Mutates(budget, db, op, after, sent) && held == Replica(db)
    requires !op.Retire?
    ensures held == Replica(after) <==> Unseen(budget, db, op)
  {
    match op
    case Record(identity, parts, facts, at) => RecordUnseen(budget, db, identity, parts, facts, at, after, sent);
    case SetPin(id, on) =>
      if Find(db.entries, id).Some? {
        PinUnseen(db, id, on);
      } else {
        ReplicaPinned(db, id, on);
      }
    case Drop(id) => RemovalUnseen(db, {id});
    case Empty => EmptyUnseen(db);
  }

  // ------------------------------------------------------------------ runs

  /** Mutations one after another: the tables before, between and after, and what each of them sent. */
  ghost predicate IsHistory(budget: int, dbs: seq<Db>, ops: seq<Mutation>, sent: seq<seq<Event>>) {
    && |dbs| == |ops| + 1 && |sent| == |ops|
    && LedgerOf(budget, dbs, ops, sent).Sound?
  }

  ghost function LedgerOf(budget: int, dbs: seq<Db>, ops: seq<Mutation>, sent: seq<seq<Event>>): Standing
    requires |dbs| == |ops| + 1 && |sent| == |ops|
  {
    if && Valid(dbs[0])
       && forall k | 0 <= k < |ops| :: Mutates(budget, dbs[k], ops[k], dbs[k + 1], sent[k])
    then Sound else Unsound
  }

  function Flat(sent: seq<seq<Event>>): seq<Event> {
    if sent == [] then [] else Flat(sent[..|sent| - 1]) + sent[|sent| - 1]
  }

  /** The `k`-th mutation of a run. */
  lemma {:induction false} HistoryFolds(budget: int, dbs: seq<Db>, ops: seq<Mutation>, sent: seq<seq<Event>>, k: nat)
    requires IsHistory(budget, dbs, ops, sent) && k < |ops|
    ensures Valid(dbs[k]) && Valid(dbs[k + 1]) && Replica(dbs[k + 1]) == FoldAll(Replica(dbs[k]), sent[k])
  {
    if k > 0 {
      HistoryFolds(budget, dbs, ops, sent, k - 1);
    }
    StepOfHistory(budget, dbs, ops, sent, k);
    MutationFolds(budget, dbs[k], ops[k], dbs[k + 1], sent[k]);
  }

  lemma StepOfHistory(budget: int, dbs: seq<Db>, ops: seq<Mutation>, sent: seq<seq<Event>>, k: nat)
    requires IsHistory(budget, dbs, ops, sent) && k < |ops|
    ensures Mutates(budget, dbs[k], ops[k], dbs[k + 1], sent[k])
  {
  }

  ghost predicate IsFeed(listings: seq<map<int, Summary>>, sent: seq<seq<Event>>) {
    && |listings| == |sent| + 1
    && forall k | 0 <= k < |sent| :: listings[k + 1] == FoldAll(listings[k], sent[k])
  }

  lemma {:induction false} FeedFolds(listings: seq<map<int, Summary>>, sent: seq<seq<Event>>, i: nat, j: nat)
    requires IsFeed(listings, sent) && i <= j <= |sent|
    ensures FoldAll(listings[i], Flat(sent[i..j])) == listings[j]
    decreases j
  {
    if i < j {
      FeedFolds(listings, sent, i, j - 1);
      assert sent[i..j][..|sent[i..j]| - 1] == sent[i..j - 1];
      FoldAppend(listings[i], Flat(sent[i..j - 1]), sent[j - 1]);
    }
  }

  function Replicas(dbs: seq<Db>): (r: seq<map<int, Summary>>)
    ensures |r| == |dbs| && forall k | 0 <= k < |dbs| :: r[k] == Replica(dbs[k])
  {
    seq(|dbs|, k requires 0 <= k < |dbs| => Replica(dbs[k]))
  }

  lemma HistoryIsFeed(budget: int, dbs: seq<Db>, ops: seq<Mutation>, sent: seq<seq<Event>>)
    requires IsHistory(budget, dbs, ops, sent)
    ensures IsFeed(Replicas(dbs), sent)
  {
    forall k | 0 <= k < |sent|
      ensures Replicas(dbs)[k + 1] == FoldAll(Replicas(dbs)[k], sent[k])
    {
      HistoryFolds(budget, dbs, ops, sent, k);
    }
  }

  /**
    Over any run of recordings, pins, removals, clears and expiry, and from any
    point of it: the listing then, with the events since folded in, is the
    archive now.
  */
  lemma FeedIsAReplica(budget: int, dbs: seq<Db>, ops: seq<Mutation>, sent: seq<seq<Event>>, i: nat, j: nat)
    requires IsHistory(budget, dbs, ops, sent) && i <= j <= |ops|
    ensures FoldAll(Replica(dbs[i]), Flat(sent[i..j])) == Replica(dbs[j])
  {
    HistoryIsFeed(budget, dbs, ops, sent);
    FeedFolds(Replicas(dbs), sent, i, j);
  }

  /**
    And so for a watcher, whatever its queue and its worker did on the way: as
    long as it is subscribed and has been sent all it was offered, it holds
    the archive.
  */
  lemma WatcherHoldsTheArchive(budget: int, dbs: seq<Db>, ops: seq<Mutation>, sent: seq<seq<Event>>, i: nat,
                               steps: seq<Step<Event>>)
    requires IsHistory(budget, dbs, ops, sent) && i <= |ops|
    requires Broadcasts(steps) == Flat(sent[i..])
    requires var w := RunSteps(Subscribed(), steps); w.subscribed && w.working && Ahead(w) == []
    ensures FoldAll(Replica(dbs[i]), RunSteps(Subscribed(), steps).delivered) == Replica(dbs[|ops|])
  {
    UpToDate(steps);
    FeedIsAReplica(budget, dbs, ops, sent, i, |ops|);
    assert sent[i..|ops|] == sent[i..];
  }

  // ---------------------------------------------- announced in another order

  /** What one event tells about one id to a client that held `v` there. */
  function Tell(v: Option<Summary>, event: Event, id: int): Option<Summary> {
    match event
    case Added(entry) => if entry.id == id then Some(entry) else v
    case Updated(entry) => if entry.id == id then Some(entry) else v
    case Removed(gone) => if gone == id then None else v
    case Cleared => if v.Some? && v.value.pinned then v else None
  }

  function At(held: map<int, Summary>, id: int): Option<Summary> {
    if id in held then Some(held[id]) else None
  }

  predicate Names(event: Event, id: int) {
    match event
    case Added(entry) => entry.id == id
    case Updated(entry) => entry.id == id
    case Removed(gone) => gone == id
    case Cleared => false
  }

  /** The last event that names an id, if any does, and whether a clear came after it. */
  datatype Word = Word(last: Option<Event>, cleared: bool)

  function LastWord(events: seq<Event>, id: int): Word {
    if events == [] then Word(None, false)
    else
      var event := events[|events| - 1];
      if Names(event, id) then Word(Some(event), false)
      else
        var before := LastWord(events[..|events| - 1], id);
        if event.Cleared? then before.(cleared := true) else before
  }

  function Heeded(v: Option<Summary>, word: Word, id: int): Option<Summary> {
    var told := if word.last.Some? then Tell(v, word.last.value, id) else v;
    if word.cleared then Tell(told, Cleared, id) else told
  }

  lemma FoldAt(held: map<int, Summary>, event: Event, id: int)
    ensures At(Fold(held, event), id) == Tell(At(held, id), event, id)
  {
  }

  /** Of all a client was told, only the last word on an id counts there. */
  lemma {:induction false} LastWordCounts(held: map<int, Summary>, events: seq<Event>, id: int)
    ensures At(FoldAll(held, events), id) == Heeded(At(held, id), LastWord(events, id), id)
  {
    if events != [] {
      var front, event := events[..|events| - 1], events[|events| - 1];
      LastWordCounts(held, front, id);
      FoldAt(FoldAll(held, front), event, id);
    }
  }

  lemma SameAt(a: map<int, Summary>, b: map<int, Summary>)
    ensures a == b <==> forall id: int :: At(a, id) == At(b, id)
  {
    if forall id: int :: At(a, id) == At(b, id) {
      forall id: int
        ensures id in a <==> id in b
        ensures id in a ==> a[id] == b[id]
      {
        assert At(a, id) == At(b, id);
      }
    }
  }

  /**
    Mutators broadcast after they have released the index lock, so concurrent
    ones may be announced in any order. Whatever order a client heard, from a
    listing in step: it is in step again if and only if the last word it heard
    on each id leaves what the last word in lock order would have left.
  */
  lemma AnnouncedInAnyOrder(budget: int, dbs: seq<Db>, ops: seq<Mutation>, sent: seq<seq<Event>>, i: nat,
                            heard: seq<Event>)
    requires IsHistory(budget, dbs, ops, sent) && i <= |ops|
    ensures var held := Replica(dbs[i]);
      FoldAll(held, heard) == Replica(dbs[|ops|]) <==>
        forall id: int ::
          Heeded(At(held, id), LastWord(heard, id), id) == Heeded(At(held, id), LastWord(Flat(sent[i..]), id), id)
  {
    var held := Replica(dbs[i]);
    FeedIsAReplica(budget, dbs, ops, sent, i, |ops|);
    assert sent[i..|ops|] == sent[i..];
    SameAt(FoldAll(held, heard), FoldAll(held, Flat(sent[i..])));
    forall id: int
      ensures At(FoldAll(held, heard), id) == Heeded(At(held, id), LastWord(heard, id), id)
      ensures At(FoldAll(held, Flat(sent[i..])), id) == Heeded(At(held, id), LastWord(Flat(sent[i..]), id), id)
    {
      LastWordCounts(held, heard, id);
      LastWordCounts(held, Flat(sent[i..]), id);
    }
  }

  /** One actor's events, with another's single event let in after the first `k`. */
  function LetIn(events: seq<Event>, event: Event, k: nat): seq<Event>
    requires k <= |events|
  {
    events[..k] + [event] + events[k..]
  }

  lemma {:induction false} NamedLast(events: seq<Event>, entry: Summary, k: nat)
    requires events != [] && events[|events| - 1] == Added(entry) && k <= |events|
    ensures LastWord(LetIn(events, Removed(entry.id), k), entry.id)
      == Word(Some(if k == |events| then Removed(entry.id) else Added(entry)), false)
  {
    var mixed := LetIn(events, Removed(entry.id), k);
    assert mixed[|mixed| - 1] == if k == |events| then Removed(entry.id) else Added(entry);
  }

  /**
    Two actors, the exact case: one records an entry that stays, another removes
    it. The removal's event may fall anywhere among the recording's. The client
    ends in step if and only if it falls behind all of them; anywhere else the
    client goes on showing an entry that is gone.
  */
  lemma RemovalOvertakes(budget: int, db: Db, op: Mutation, mid: Db, sent: seq<Event>, after: Db, k: nat)
    requires Valid(db) && op.Record? && FindIdentity(db.entries, op.identity).None? && DistinctMimes(op.parts)
    requires Mutates(budget, db, op, mid, sent) && Find(mid.entries, NextId(db.entries)).Some?
    requires Mutates(budget, mid, Drop(NextId(db.entries)), after, [Removed(NextId(db.entries))]) && k <= |sent|
    ensures FoldAll(Replica(db), LetIn(sent, Removed(NextId(db.entries)), k)) == Replica(after) <==> k == |sent|
  {
    RecordedStays(budget, db, op, mid, sent);
    TwoFold(budget, db, op, mid, sent, Drop(NextId(db.entries)), after, [Removed(NextId(db.entries))]);
    LateRemoval(Replica(db), sent, sent[|sent| - 1].entry, k);
  }

  lemma TwoFold(budget: int, db: Db, op: Mutation, mid: Db, sent: seq<Event>, next: Mutation,
                after: Db, more: seq<Event>)
    requires Valid(db) && Mutates(budget, db, op, mid, sent) && Mutates(budget, mid, next, after, more)
    ensures Replica(after) == FoldAll(Replica(db), sent + more)
  {
    MutationFolds(budget, db, op, mid, sent);
    MutationFolds(budget, mid, next, after, more);
    FoldAppend(Replica(db), sent, more);
  }

  lemma LateRemoval(held: map<int, Summary>, sent: seq<Event>, entry: Summary, k: nat)
    requires sent != [] && sent[|sent| - 1] == Added(entry) && k <= |sent|
    ensures FoldAll(held, LetIn(sent, Removed(entry.id), k)) == FoldAll(held, sent + [Removed(entry.id)])
      <==> k == |sent|
  {
    var whole := sent + [Removed(entry.id)];
    assert LetIn(sent, Removed(entry.id), |sent|) == whole;
    NamedLast(sent, entry, k);
    NamedLast(sent, entry, |sent|);
    LastWordCounts(held, LetIn(sent, Removed(entry.id), k), entry.id);
    LastWordCounts(held, whole, entry.id);
  }

  lemma RecordedStays(budget: int, db: Db, op: Mutation, mid: Db, sent: seq<Event>)
    requires op.Record? && FindIdentity(db.entries, op.identity).None? && DistinctMimes(op.parts)
    requires Mutates(budget, db, op, mid, sent) && Find(mid.entries, NextId(db.entries)).Some?
    ensures sent != [] && sent[|sent| - 1].Added? && sent[|sent| - 1].entry.id == NextId(db.entries)
  {
    var id := NextId(db.entries);
    var whole := Inserted(db, op.identity, op.parts, op.facts, op.at);
    var gone :| EvictsTo(whole, budget, gone) && mid == Without(whole, ToSet(gone))
      && sent == Announced(SummaryIn(whole, id), gone);
    assert Find(mid.entries, id).value in mid.entries;
    EndsAdded(SummaryIn(whole, id), gone);
  }

  lemma EndsAdded(entry: Summary, gone: seq<int>)
    requires entry.id !in gone
    ensures Announced(entry, gone) == Removals(gone) + [Added(entry)]
  {
  }

  /** A recording with room to spare evicts nothing and announces only its entry. */
  lemma RoomyRecord(budget: int, db: Db, identity: string, parts: seq<Part>, facts: Facts, at: int)
    requires Valid(db) && FindIdentity(db.entries, identity).None? && DistinctMimes(parts)
    requires Used(Inserted(db, identity, parts, facts, at)) <= budget
    ensures var mid, id := Inserted(db, identity, parts, facts, at), NextId(db.entries);
      && Find(mid.entries, id).Some?
      && Records(budget, db, identity, parts, facts, at, mid, [Added(SummaryIn(mid, id))])
  {
    var mid, id := Inserted(db, identity, parts, facts, at), NextId(db.entries);
    InsertedKeepsValid(db, identity, parts, facts, at);
    WithoutNothing(mid);
    FindLast(db.entries, RowOf(id, identity, parts, facts, at));
    NothingEvicted(mid, budget);
    assert Removals([]) + [Added(SummaryIn(mid, id))] == Announced(SummaryIn(mid, id), []);
    RecordedAs(budget, db, identity, parts, facts, at, []);
  }

  lemma RecordedAs(budget: int, db: Db, identity: string, parts: seq<Part>, facts: Facts, at: int, gone: seq<int>)
    requires FindIdentity(db.entries, identity).None? && DistinctMimes(parts)
    requires EvictsTo(Inserted(db, identity, parts, facts, at), budget, gone)
    requires Find(Inserted(db, identity, parts, facts, at).entries, NextId(db.entries)).Some?
    ensures var mid := Inserted(db, identity, parts, facts, at);
      Records(budget, db, identity, parts, facts, at, Without(mid, ToSet(gone)),
              Announced(SummaryIn(mid, NextId(db.entries)), gone))
  {
  }

  lemma NothingEvicted(db: Db, budget: int)
    requires Without(db, {}) == db && Used(db) <= budget
    ensures EvictsTo(db, budget, []) && Without(db, ToSet([])) == db
  {
    assert ToSet<int>([]) == {};
  }

  lemma OnePartUses(part: Part)
    ensures SumBytes(ReferenceAll(map[], [part])) == part.bytes
  {
    var blobs := map[part.digest := BlobRow(part.bytes, 1)];
    assert [part][..0] == [] && ReferenceAll(map[], [part]) == blobs;
    SumOfRest(blobs, part.digest);
    assert blobs - {part.digest} == map[];
  }

  const NOTED := Facts(Text, None, None, None, None, None, None)

  /** The smallest case: one text recorded into an empty archive and removed, heard the wrong way round. */
  lemma ARemovalOvertakes(note: Part)
    ensures var mid := Inserted(EMPTY, "note", [note], NOTED, 0);
      && Find(mid.entries, 1).Some?
      && Mutates(note.bytes, EMPTY, Record("note", [note], NOTED, 0), mid, [Added(SummaryIn(mid, 1))])
      && Mutates(note.bytes, mid, Drop(1), EMPTY, [Removed(1)])
      && FoldAll(map[], [Removed(1), Added(SummaryIn(mid, 1))]) != Replica(EMPTY)
  {
    var mid := Inserted(EMPTY, "note", [note], NOTED, 0);
    OnePartUses(note);
    assert [note] + ThumbParts(NOTED) == [note];
    RoomyRecord(note.bytes, EMPTY, "note", [note], NOTED, 0);
    InsertUndone(EMPTY, "note", [note], NOTED, 0);
    HeardLate(SummaryIn(mid, 1));
  }

  lemma HeardLate(entry: Summary)
    ensures entry.id in FoldAll(map[], [Removed(entry.id), Added(entry)])
  {
    assert [Removed(entry.id), Added(entry)][..1] == [Removed(entry.id)];
  }

  // ---------------------------------------------------------- the mutators

  /** The archive's mutators, one at a time, with what each broadcasts. */
  class Publisher {
    const index: Index
    const budget: int
    var events: seq<Event>

    ghost predicate Consistent()
      reads this, index
    {
      Valid(index.Rows())
    }

    constructor (limit: int)
      ensures Consistent() && events == [] && budget == limit && fresh(index)
      ensures Replica(index.Rows()) == map[]
    {
      index := new Index();
      budget := limit;
      events := [];
    }

    method Broadcast(event: Event)
      modifies this`events
      ensures events == old(events) + [event]
    {
      events := events + [event];
    }

    method BroadcastRemovals(ids: seq<int>)
      modifies this`events
      ensures events == old(events) + Removals(ids)
    {
      assert old(events) + Removals(ids[..0]) == old(events);
      for i := 0 to |ids|
        invariant events == old(events) + Removals(ids[..i])
      {
        assert Removals(ids[..i + 1]) == Removals(ids[..i]) + [Removed(ids[i])];
        Broadcast(Removed(ids[i]));
      }
      assert ids[..|ids|] == ids;
    }

    /** The archive now is the archive before with the events since folded in. */
    ghost predicate Told(before: map<int, Summary>, sent: seq<Event>)
      reads this, index
    {
      && |sent| <= |events| && events[..|sent|] == sent
      && FoldAll(before, events[|sent|..]) == Replica(index.Rows())
    }

    /** What has happened since is one mutation, and its events are what was sent. */
    ghost predicate Did(op: Mutation, before: Db, sent: seq<Event>)
      reads this, index
    {
      && |sent| <= |events| && events[..|sent|] == sent
      && Mutates(budget, before, op, index.Rows(), events[|sent|..])
    }

    method Pin(id: int, on: bool) returns (found: bool)
      requires Consistent()
      modifies this`events, index
      ensures Consistent() && Did(SetPin(id, on), old(index.Rows()), old(events))
      ensures found <==> Find(old(index.entries), id).Some?
    {
      ghost var before := index.Rows();
      found := index.SetPinned(id, on);
      if !found {
        SinceThen(events, []);
        assert events + [] == events;
        return;
      }
      FindWithPinned(before.entries, id, on, id);
      var summary := SummaryOf(Find(index.entries, id).value, index.parts);
      Broadcast(Updated(summary));
      SinceThen(old(events), [Updated(summary)]);
    }

    method Remove(id: int) returns (found: bool)
      requires Consistent()
      modifies this`events, index
      ensures Consistent() && Did(Drop(id), old(index.Rows()), old(events))
      ensures found <==> Find(old(index.entries), id).Some?
    {
      if Find(index.entries, id).None? {
        SinceThen(events, []);
        assert events + [] == events;
        return false;
      }
      var orphaned := index.Remove(id);
      Broadcast(Removed(id));
      SinceThen(old(events), [Removed(id)]);
      found := true;
    }

    method Clear()
      requires Consistent()
      modifies this`events, index
      ensures Consistent() && Did(Empty, old(index.Rows()), old(events))
    {
      var orphaned := index.Clear();
      Broadcast(Cleared);
      SinceThen(old(events), [Cleared]);
    }

    method ExpireOld(retention: Option<int>, now: int, sound: bool) returns (removed: seq<int>)
      requires Consistent()
      modifies this`events, index
      ensures Consistent() && Did(Retire(retention, now), old(index.Rows()), old(events))
      ensures index.Rows() == Without(old(index.Rows()), ToSet(removed))
      ensures retention.Some? && sound ==>
        ExpiresTo(old(index.Rows()), SaturatingSub(now, retention.value), BATCH * BATCHES, removed)
    {
      ghost var before := index.Rows();
      var deferred;
      removed, deferred := Expire(index, retention, now, sound);
      assert Retires(before, retention, now, removed);
      BroadcastRemovals(removed);
      SinceThen(old(events), Removals(removed));
    }

    /**
      Records a draft, moves a copy to the top, or fails; evicted entries are
      announced first, and the entry itself only if it was kept.
    */
    method Commit(identity: string, accepted: seq<Part>, facts: Facts, at: int)
      returns (r: Result<(int, bool), DbError>, ghost evicted: seq<int>)
      requires Consistent()
      modifies this`events, index
      ensures Consistent() && Did(Record(identity, accepted, facts, at), old(index.Rows()), old(events))
      ensures r.Err? ==> index.Rows() == old(index.Rows()) && events == old(events)
      ensures r.Err? <==> FindIdentity(old(index.entries), identity).None? && !DistinctMimes(accepted)
      ensures r.Ok? && FindIdentity(old(index.entries), identity).Some? ==>
        && r.value == (FindIdentity(old(index.entries), identity).value, false)
        && index.Rows() == Touched(old(index.Rows()), identity, at)
      ensures r.Ok? && FindIdentity(old(index.entries), identity).None? ==>
        var entry, mid := NextId(old(index.entries)), Inserted(old(index.Rows()), identity, accepted, facts, at);
        && EvictsTo(mid, budget, evicted) && index.Rows() == Without(mid, ToSet(evicted))
        && r.value == if entry in evicted then (0, false) else (entry, true)
    {
      ghost var before := index.Rows();
      SinceThen(events, []);
      assert events + [] == events;
      var existing := index.Touch(identity, at);
      if existing.Some? {
        ReplicaTouched(before, identity, at);
        var known := SummaryOf(Find(index.entries, existing.value).value, index.parts);
        Broadcast(Updated(known));
        SinceThen(old(events), [Updated(known)]);
        return Ok((existing.value, false)), [];
      }
      var recorded := index.Insert(identity, accepted, facts, at);
      if recorded.Err? {
        return Err(recorded.error), [];
      }
      ReplicaInserted(before, identity, accepted, facts, at);
      var retained;
      retained, evicted := Announce(recorded.value);
      r := Ok((if retained then recorded.value else 0, retained));
    }

    /** The rest of a commit that recorded something: evict, and say what happened. */
    method Announce(entry: int) returns (retained: bool, ghost gone: seq<int>)
      requires Consistent() && Find(index.entries, entry).Some?
      modifies this`events, index
      ensures Consistent()
      ensures |old(events)| <= |events| && events[..|old(events)|] == old(events)
      ensures events[|old(events)|..] == Announced(SummaryIn(old(index.Rows()), entry), gone)
      ensures EvictsTo(old(index.Rows()), budget, gone) && index.Rows() == Without(old(index.Rows()), ToSet(gone))
      ensures retained <==> entry !in gone
    {
      var summary := SummaryOf(Find(index.entries, entry).value, index.parts);
      var orphaned, evicted := index.EvictTo(budget);
      retained, gone := entry !in evicted, evicted;
      BroadcastCommit(summary, evicted);
      SinceThen(old(events), Announced(summary, evicted));
    }

    /** Any one mutator. */
    method Serve(op: Mutation)
      requires Consistent()
      modifies this`events, index
      ensures Consistent() && Did(op, old(index.Rows()), old(events))
    {
      match op {
        case Record(identity, parts, facts, at) => var _, _ := Commit(identity, parts, facts, at);
        case SetPin(id, on) => var _ := Pin(id, on);
        case Drop(id) => var _ := Remove(id);
        case Empty => Clear();
        case Retire(retention, now) => var _ := ExpireOld(retention, now, false);
      }
    }

    /** Any run of them: what the archive held before, with all that was sent folded in, is what it holds now. */
    method ServeAll(ops: seq<Mutation>)
      requires Consistent()
      modifies this`events, index
      ensures Consistent() && Told(Replica(old(index.Rows())), old(events))
    {
      ghost var listing, sent := Replica(index.Rows()), events;
      assert events[|sent|..] == [];
      for i := 0 to |ops|
        invariant Consistent() && Told(listing, sent)
      {
        ghost var before, seen := index.Rows(), events;
        Serve(ops[i]);
        MutationFolds(budget, before, ops[i], index.Rows(), events[|seen|..]);
        FoldAppend(listing, seen[|sent|..], events[|seen|..]);
        SplitAt(events, |sent|, |seen|);
      }
    }

    method BroadcastCommit(summary: Summary, evicted: seq<int>)
      modifies this`events
      ensures events == old(events) + Announced(summary, evicted)
    {
      BroadcastRemovals(evicted);
      if summary.id !in evicted {
        Broadcast(Added(summary));
      }
    }
  }

  /** What a commit that recorded something says: evictions first, and the entry itself only if it was kept. */
  function Announced(summary: Summary, evicted: seq<int>): seq<Event> {
    Removals(evicted) + if summary.id in evicted then [] else [Added(summary)]
  }

  lemma AnnouncedFolds(before: map<int, Summary>, summary: Summary, evicted: seq<int>)
    ensures before[summary.id := summary] - ToSet(evicted) == FoldAll(before, Announced(summary, evicted))
  {
    if summary.id in evicted {
      EvictedItself(before, summary, evicted);
      assert Removals(evicted) + [] == Removals(evicted);
    } else {
      KeptEntry(before, summary, evicted);
    }
  }

  lemma SinceThen(sent: seq<Event>, more: seq<Event>)
    ensures (sent + more)[..|sent|] == sent && (sent + more)[|sent|..] == more
  {
  }

  lemma SplitAt(events: seq<Event>, i: nat, j: nat)
    requires i <= j <= |events|
    ensures events[..j][i..] + events[j..] == events[i..] && events[..j][..i] == events[..i]
  {
  }

  lemma UpsertThenDrop(held: map<int, Summary>, id: int, s: Summary, gone: set<int>)
    ensures id !in gone ==> held[id := s] - gone == (held - gone)[id := s]
    ensures id in gone ==> held[id := s] - gone == held - gone
  {
  }

  /** Evictions are announced first, so the kept entry is upserted into what is left. */
  lemma KeptEntry(before: map<int, Summary>, summary: Summary, evicted: seq<int>)
    requires summary.id !in evicted
    ensures before[summary.id := summary] - ToSet(evicted) == FoldAll(before, Removals(evicted) + [Added(summary)])
  {
    FoldRemovals(before, evicted);
    FoldMore(before, Removals(evicted), Added(summary));
    UpsertThenDrop(before, summary.id, summary, ToSet(evicted));
  }

  /** An entry that made room by leaving again is never announced, and nothing is missed. */
  lemma EvictedItself(before: map<int, Summary>, summary: Summary, evicted: seq<int>)
    requires summary.id in evicted
    ensures before[summary.id := summary] - ToSet(evicted) == FoldAll(before, Removals(evicted))
  {
    FoldRemovals(before, evicted);
    UpsertThenDrop(before, summary.id, summary, ToSet(evicted));
  }
}
