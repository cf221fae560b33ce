/**
  The storage budget over whole runs.

  A commit inserts and evicts under one hold of the index lock, and eviction
  never touches a pinned entry. The bound survives pins because pinning only
  ever happens while the archive fits, so what is pinned always fits alone.
*/
module ArchiveBudget {
  import opened Wrappers
  import opened Tables
  import opened TableLemmas
  import opened Ages
  import opened Archive
  import opened ArchiveSafety
  import opened ArchiveSteps
  import opened ArchiveRuns

  /** The tables if every unpinned entry were evicted. */
  ghost function PinnedOnly(db: Db): Db {
    Without(db, EligibleIds(db.entries, None))
  }

  // ------------------------------------------------------------ the tables

  lemma ThumbsAppend(es: seq<EntryRow>, e: EntryRow, d: string)
    ensures CountThumbs(es + [e], d) == CountThumbs(es, d) + if e.thumb == Some(d) then 1 else 0
  {
    assert (es + [e])[..|es|] == es;
  }

  lemma {:induction false} DropAmended(es: seq<EntryRow>, fs: seq<EntryRow>, gone: set<int>, d: string)
    requires |es| == |fs| && forall i | 0 <= i < |es| :: SameButAtAndPin(es[i], fs[i])
    ensures CountThumbs(DropEntries(es, gone), d) == CountThumbs(DropEntries(fs, gone), d)
  {
    if es != [] {
      var n := |es| - 1;
      assert forall i | 0 <= i < n :: SameButAtAndPin(es[..n][i], fs[..n][i]);
      assert SameButAtAndPin(es[n], fs[n]);
      DropAmended(es[..n], fs[..n], gone, d);
      ThumbsAppend(DropEntries(es[..n], gone), es[n], d);
      ThumbsAppend(DropEntries(fs[..n], gone), fs[n], d);
    }
  }

  /** Moving timestamps changes nothing about which blobs would be left. */
  lemma AmendedUse(db: Db, fs: seq<EntryRow>, gone: set<int>)
    requires |fs| == |db.entries| && forall i | 0 <= i < |fs| :: SameButAtAndPin(db.entries[i], fs[i])
    ensures Without(db.(entries := fs), gone).blobs == Without(db, gone).blobs
  {
    var es, after, ps := DropEntries(db.entries, gone), DropEntries(fs, gone), DropParts(db.parts, gone);
    forall d: string
      ensures Refs(es, ps, d) == Refs(after, ps, d)
    {
      DropAmended(db.entries, fs, gone, d);
    }
    assert Without(db.(entries := fs), gone).blobs
      == map d | d in db.blobs && Refs(after, ps, d) > 0 :: BlobRow(db.blobs[d].bytes, Refs(after, ps, d));
  }

  lemma AmendedEligible(es: seq<EntryRow>, fs: seq<EntryRow>)
    requires |fs| == |es| && forall i | 0 <= i < |fs| :: SameButAtAndPin(es[i], fs[i])
    requires forall i | 0 <= i < |fs| :: fs[i].pinned == es[i].pinned
    ensures EligibleIds(fs, None) == EligibleIds(es, None)
  {
    forall e <- es | Eligible(e, None)
      ensures e.id in EligibleIds(fs, None)
    {
      var i :| 0 <= i < |es| && es[i] == e;
      assert SameButAtAndPin(es[i], fs[i]) && fs[i] in fs;
    }
    forall f <- fs | Eligible(f, None)
      ensures f.id in EligibleIds(es, None)
    {
      var i :| 0 <= i < |fs| && fs[i] == f;
      assert SameButAtAndPin(es[i], fs[i]) && es[i] in es;
    }
  }

  lemma TouchedUse(db: Db, identity: string, at: int)
    ensures Touched(db, identity, at).blobs == db.blobs
    ensures PinnedOnly(Touched(db, identity, at)).blobs == PinnedOnly(db).blobs
  {
    var found := FindIdentity(db.entries, identity);
    if found.Some? {
      var fs := WithAt(db.entries, found.value, at);
      WithAtAmends(db.entries, found.value, at);
      AmendedEligible(db.entries, fs);
      AmendedUse(db, fs, EligibleIds(db.entries, None));
    }
  }

  /** Deleting rows lowers both totals. */
  lemma WithoutUse(db: Db, gone: set<int>)
    requires Valid(db)
    ensures Used(Without(db, gone)) <= Used(db)
    ensures Used(PinnedOnly(Without(db, gone))) <= Used(PinnedOnly(db))
  {
    var unpinned := EligibleIds(db.entries, None);
    EligibleAfterDrop(db.entries, None, gone);
    WithoutTwice(db, gone, unpinned - gone);
    WithoutTwice(db, unpinned, gone);
    assert gone + (unpinned - gone) == unpinned + gone;
    WithoutNeverGrows(db, gone);
    WithoutNeverGrows(PinnedOnly(db), gone);
  }

  lemma {:induction false} DropUnlisted(es: seq<EntryRow>, ps: seq<PartRow>, gone: set<int>, id: int)
    requires (forall e <- es :: e.id != id) && forall p <- ps :: p.entry != id
    ensures DropEntries(es, gone + {id}) == DropEntries(es, gone)
    ensures DropParts(ps, gone + {id}) == DropParts(ps, gone)
  {
    DropNoEntry(DropEntries(es, gone), {id});
    DropEntriesTwice(es, gone, {id});
    DropNoPart(DropParts(ps, gone), {id});
    DropPartsTwice(ps, gone, {id});
  }

  /** A new entry is unpinned, so it adds nothing to what pins hold on to. */
  lemma InsertedUse(db: Db, identity: string, parts: seq<Part>, facts: Facts, at: int)
    requires Valid(db)
    ensures PinnedOnly(Inserted(db, identity, parts, facts, at)).blobs == PinnedOnly(db).blobs
  {
    var id := NextId(db.entries);
    var row := RowOf(id, identity, parts, facts, at);
    var after := Inserted(db, identity, parts, facts, at);
    var gone := EligibleIds(db.entries, None);
    NextIdIsFresh(db);
    NewEligible(db.entries, row);
    DropAppended(db.entries, row, db.parts, PartRows(id, parts), gone + {id});
    DropUnlisted(db.entries, db.parts, gone, id);
    ReferenceKeepsBytes(db.blobs, parts + ThumbParts(facts));
    RefsFallOnDrop(db.entries, db.parts, gone);
    var es, ps := DropEntries(db.entries, gone), DropParts(db.parts, gone);
    forall d: string | Refs(es, ps, d) > 0
      ensures d in db.blobs
    {
      assert Refs(es, ps, d) <= Refs(db.entries, db.parts, d);
    }
    SameRecount(db.blobs, after.blobs, es, ps);
  }

  lemma NewEligible(es: seq<EntryRow>, row: EntryRow)
    requires !row.pinned
    ensures EligibleIds(es + [row], None) == EligibleIds(es, None) + {row.id}
  {
    assert forall f :: f in es + [row] <==> f in es || f == row;
  }

  /**
    After any eviction the archive fits exactly when what is pinned fits alone
    or it fitted already; there is no other way to stay over budget.
  */
  lemma EvictionFits(db: Db, budget: int, removed: seq<int>)
    requires Valid(db) && EvictsTo(db, budget, removed)
    ensures Used(Without(db, ToSet(removed))) <= budget <==> Used(PinnedOnly(db)) <= budget
  {
    OldestFirstSpread(db.entries, None, removed);
    UnpinnedGone(db, ToSet(removed));
  }

  lemma UnpinnedGone(db: Db, gone: set<int>)
    requires Valid(db) && gone <= EligibleIds(db.entries, None)
    ensures Used(PinnedOnly(db)) <= Used(Without(db, gone))
    ensures EligibleIds(Without(db, gone).entries, None) == {} ==> Without(db, gone) == PinnedOnly(db)
  {
    var unpinned := EligibleIds(db.entries, None);
    WithoutTwice(db, gone, unpinned);
    assert gone + unpinned == unpinned;
    WithoutNeverGrows(Without(db, gone), unpinned);
    EligibleAfterDrop(db.entries, None, gone);
    if unpinned - gone == {} {
      assert forall id <- unpinned :: id in gone by {
        forall id <- unpinned ensures id in gone { assert id !in unpinned - gone; }
      }
      assert gone == unpinned;
    }
  }

  // --------------------------------------------------------------- the runs

  /** Some actor has recorded its entry and still holds the lock to evict. */
  predicate Evicting(s: State) {
    s.w.lock.Some? && s.w.lock.value < |s.actors| && s.actors[s.w.lock.value].prog == [Evict]
  }

  ghost predicate WithinBudget(s: State) {
    && Used(PinnedOnly(s.w.db)) <= s.w.budget
    && (Used(s.w.db) <= s.w.budget || Evicting(s))
  }

  /** Any step at all, except that an eviction under way neither fails nor is cut short by a crash. */
  ghost predicate SteadyNext(s: State, s': State) {
    || (exists i: nat, c: Choice :: Run(s, i, c, s') && !(c.fault && s.actors[i].prog[0].Evict?))
    || (exists i: nat, mime: string :: BeginPart(s, i, mime, s'))
    || (exists i: nat, at: int :: BeginCommit(s, i, at, s'))
    || (exists i: nat :: Abandon(s, i, s'))
    || (exists a: Actor :: Spawn(s, a, s'))
    || (Crash(s, s') && !Evicting(s))
  }

  lemma SteadyIsNext(s: State, s': State)
    requires SteadyNext(s, s')
    ensures Next(s, s')
  {
  }

  /** Only the lock holder changes tables. */
  predicate ChangesTables(h: Instr) {
    || h.TouchFirst? || h.TouchAgain? || h.InsertRow? || h.Evict?
    || h.RemoveRow? || h.ClearRows? || h.ExpireRows? || h.SetPin?
  }

  lemma OthersKeepTables(s: State, i: nat, c: Choice)
    requires i < |s.actors| && s.actors[i].prog != [] && !ChangesTables(s.actors[i].prog[0])
    ensures Exec(s.w, i, s.actors[i], c).0.db == s.w.db
    ensures Exec(s.w, i, s.actors[i], c).0.budget == s.w.budget
    ensures s.actors[i].prog[0].Acquire? || s.actors[i].prog[0].Release?
      || Exec(s.w, i, s.actors[i], c).0.lock == s.w.lock
  {
  }

  lemma QuietStep(s: State, i: nat, c: Choice, s': State)
    requires Inv(s) && WithinBudget(s) && Run(s, i, c, s')
    requires !ChangesTables(s.actors[i].prog[0])
    ensures WithinBudget(s')
  {
    assert ActorOk(s.w, i, s.actors[i]);
    OthersKeepTables(s, i, c);
    if Evicting(s) {
      assert i != s.w.lock.value;
    }
  }

  lemma InsertStepBudget(s: State, i: nat, c: Choice, s': State)
    requires Valid(s.w.db) && Fitting(s.w.db, s.w.budget) && Run(s, i, c, s')
    requires s.actors[i].prog[0].InsertRow? && s.w.lock == Some(i)
    ensures WithinBudget(s')
  {
    var a := s.actors[i];
    var h := a.prog[0];
    if c.fault || !DistinctMimes(a.parts) {
    } else {
      InsertedUse(s.w.db, IdentityOf(a), a.parts, h.facts, h.at);
      assert s'.actors[i].prog == [Evict];
    }
  }

  lemma EvictRan(w: World, i: nat, a: Actor, c: Choice)
    requires a.prog != [] && a.prog[0].Evict? && !c.fault
    ensures Exec(w, i, a, c).0 == w.(db := Without(w.db, ToSet(c.removed)))
    ensures Enabled(w, a, c) ==> EvictsTo(w.db, w.budget, c.removed)
  {
  }

  lemma EvictedFits(db: Db, budget: int, removed: seq<int>)
    requires Valid(db) && Used(PinnedOnly(db)) <= budget && EvictsTo(db, budget, removed)
    ensures Fitting(Without(db, ToSet(removed)), budget)
  {
    EvictionFits(db, budget, removed);
    WithoutUse(db, ToSet(removed));
  }

  lemma EvictStepBudget(s: State, i: nat, c: Choice, s': State)
    requires Inv(s) && WithinBudget(s) && Run(s, i, c, s')
    requires s.actors[i].prog[0].Evict? && !c.fault
    ensures Used(s'.w.db) <= s'.w.budget && WithinBudget(s')
  {
    TablesAreValid(s);
    EvictRan(s.w, i, s.actors[i], c);
    EvictedFits(s.w.db, s.w.budget, c.removed);
  }

  /** The tables fit, and so does what is pinned in them. */
  ghost predicate Fitting(db: Db, budget: int) {
    Used(PinnedOnly(db)) <= budget && Used(db) <= budget
  }

  lemma TablesAreValid(s: State)
    requires Inv(s)
    ensures Valid(s.w.db)
  {
  }

  lemma PinRan(w: World, i: nat, a: Actor, c: Choice)
    requires a.prog != [] && a.prog[0].SetPin?
    ensures var v := Exec(w, i, a, c).0; v.budget == w.budget && v.db.blobs == w.db.blobs
  {
  }

  lemma PinFits(db: Db, after: Db, budget: int)
    requires Used(db) <= budget && after.blobs == db.blobs
    ensures Fitting(after, budget)
  {
    WithoutNeverGrows(after, EligibleIds(after.entries, None));
  }

  lemma PinStepBudget(s: State, i: nat, c: Choice, s': State)
    requires Fitting(s.w.db, s.w.budget) && Run(s, i, c, s') && s.actors[i].prog[0].SetPin?
    ensures WithinBudget(s')
  {
    PinRan(s.w, i, s.actors[i], c);
    PinFits(s.w.db, s'.w.db, s.w.budget);
  }

  lemma TouchRan(w: World, i: nat, a: Actor, c: Choice)
    requires a.prog != [] && a.prog[0].TouchFirst?
    ensures var v := Exec(w, i, a, c).0;
      v.budget == w.budget && (v.db == w.db || v.db == Touched(w.db, IdentityOf(a), a.prog[0].at))
  {
  }

  lemma TouchAgainRan(w: World, i: nat, a: Actor, c: Choice)
    requires a.prog != [] && a.prog[0].TouchAgain?
    ensures var v := Exec(w, i, a, c).0;
      v.budget == w.budget && (v.db == w.db || v.db == Touched(w.db, IdentityOf(a), a.prog[0].at))
  {
  }

  lemma TouchStepBudget(s: State, i: nat, c: Choice, s': State)
    requires Fitting(s.w.db, s.w.budget) && Run(s, i, c, s')
    requires s.actors[i].prog[0].TouchFirst? || s.actors[i].prog[0].TouchAgain?
    ensures WithinBudget(s')
  {
    if s.actors[i].prog[0].TouchFirst? {
      TouchRan(s.w, i, s.actors[i], c);
    } else {
      TouchAgainRan(s.w, i, s.actors[i], c);
    }
    TouchedUse(s.w.db, IdentityOf(s.actors[i]), s.actors[i].prog[0].at);
  }

  ghost function Deleted(w: World, h: Instr, c: Choice): set<int> {
    if h.RemoveRow? then {h.id} else if h.ClearRows? then EligibleIds(w.db.entries, None) else ToSet(c.removed)
  }

  lemma DeleteRan(w: World, i: nat, a: Actor, c: Choice)
    requires a.prog != [] && (a.prog[0].RemoveRow? || a.prog[0].ClearRows? || a.prog[0].ExpireRows?)
    ensures var v := Exec(w, i, a, c).0;
      v.budget == w.budget && (v.db == w.db || v.db == Without(w.db, Deleted(w, a.prog[0], c)))
  {
    match a.prog[0]
    case RemoveRow(_) => RemoveRuns(w, i, a, c);
    case ClearRows => ClearRuns(w, i, a, c);
    case ExpireRows(_, _) => ExpireRuns(w, i, a, c);
  }

  lemma DeleteStepBudget(s: State, i: nat, c: Choice, s': State)
    requires Valid(s.w.db) && Fitting(s.w.db, s.w.budget) && Run(s, i, c, s')
    requires var h := s.actors[i].prog[0]; h.RemoveRow? || h.ClearRows? || h.ExpireRows?
    ensures WithinBudget(s')
  {
    DeleteRan(s.w, i, s.actors[i], c);
    WithoutUse(s.w.db, Deleted(s.w, s.actors[i].prog[0], c));
  }

  /** While no eviction is under way, nothing but an insert leaves the archive over budget, and that one evicts. */
  lemma ChangeKeepsBudget(s: State, i: nat, c: Choice, s': State)
    requires Inv(s) && Fitting(s.w.db, s.w.budget) && Run(s, i, c, s') && s.w.lock == Some(i)
    requires ChangesTables(s.actors[i].prog[0]) && !s.actors[i].prog[0].Evict?
    ensures WithinBudget(s')
  {
    TablesAreValid(s);
    match s.actors[i].prog[0]
    case InsertRow(_, _) => InsertStepBudget(s, i, c, s');
    case SetPin(_, _) => PinStepBudget(s, i, c, s');
    case TouchFirst(_) => TouchStepBudget(s, i, c, s');
    case TouchAgain(_, _) => TouchStepBudget(s, i, c, s');
    case _ => DeleteStepBudget(s, i, c, s');
  }

  lemma ChangesUnderLock(w: World, i: nat, a: Actor)
    requires ActorOk(w, i, a) && a.prog != [] && ChangesTables(a.prog[0])
    ensures w.lock == Some(i)
  {
  }

  lemma RunKeepsBudget(s: State, i: nat, c: Choice, s': State)
    requires Inv(s) && WithinBudget(s) && Run(s, i, c, s')
    requires !(c.fault && s.actors[i].prog[0].Evict?)
    ensures WithinBudget(s')
  {
    if !ChangesTables(s.actors[i].prog[0]) {
      QuietStep(s, i, c, s');
    } else {
      ChangesUnderLock(s.w, i, s.actors[i]);
      if s.actors[i].prog[0].Evict? {
        EvictStepBudget(s, i, c, s');
      } else {
        ChangeKeepsBudget(s, i, c, s');
      }
    }
  }

  /** What sessions decide between instructions changes no table and no running eviction. */
  lemma DecisionKeepsTables(s: State, s': State)
    requires Inv(s) && SteadyNext(s, s')
    requires forall i: nat, c: Choice | Run(s, i, c, s') :: c.fault && s.actors[i].prog[0].Evict?
    ensures s'.w.db == s.w.db && s'.w.budget == s.w.budget
    ensures Evicting(s) ==> Evicting(s')
  {
    if i: nat, mime: string :| BeginPart(s, i, mime, s') {
    } else if i: nat, at: int :| BeginCommit(s, i, at, s') {
    } else if i: nat :| Abandon(s, i, s') {
    } else if a: Actor :| Spawn(s, a, s') {
    } else {
      assert Crash(s, s') && !Evicting(s);
    }
  }

  lemma SteadyKeepsBudget(s: State, s': State)
    requires Inv(s) && WithinBudget(s) && SteadyNext(s, s')
    ensures WithinBudget(s')
  {
    if i: nat, c: Choice :| Run(s, i, c, s') && !(c.fault && s.actors[i].prog[0].Evict?) {
      RunKeepsBudget(s, i, c, s');
    } else {
      DecisionKeepsTables(s, s');
    }
  }

  ghost predicate IsSteadyRun(states: seq<State>, budget: int) {
    && states != [] && states[0] == Boot(budget)
    && forall k | 0 < k < |states| :: SteadyNext(states[k - 1], states[k])
  }

  lemma {:induction false} SteadyRunOk(states: seq<State>, budget: int)
    requires IsSteadyRun(states, budget) && budget >= 0
    ensures Inv(states[|states| - 1]) && WithinBudget(states[|states| - 1])
  {
    if |states| == 1 {
      BootOk(budget);
      assert Without(EMPTY, {}).blobs == map[];
      assert PinnedOnly(EMPTY).blobs == map[];
    } else {
      var n := |states| - 1;
      var front := states[..n];
      assert IsSteadyRun(front, budget);
      SteadyRunOk(front, budget);
      SteadyIsNext(states[n - 1], states[n]);
      NextKeepsInv(states[n - 1], states[n]);
      SteadyKeepsBudget(states[n - 1], states[n]);
    }
  }

  /**
    Whenever no one holds the index lock the archive fits its budget, pins
    included, however recording, pinning, removal and crashes interleave.
  */
  lemma ArchiveFitsBudget(states: seq<State>, budget: int)
    requires IsSteadyRun(states, budget) && budget >= 0
    requires states[|states| - 1].w.lock.None?
    ensures Used(states[|states| - 1].w.db) <= states[|states| - 1].w.budget
  {
    SteadyRunOk(states, budget);
  }

  /**
    Why the eviction must not fail: after its step the archive fits exactly
    when the eviction worked or nothing needed evicting.
  */
  lemma FailedEvictionKeepsExcess(s: State, i: nat, c: Choice, s': State)
    requires Inv(s) && WithinBudget(s) && Run(s, i, c, s') && s.actors[i].prog[0].Evict?
    ensures Used(s'.w.db) <= s'.w.budget <==> !c.fault || Used(s.w.db) <= s.w.budget
  {
    if !c.fault {
      EvictStepBudget(s, i, c, s');
    }
  }

  /**
    A crash at any point of a run: the daemon that starts next is over budget
    exactly when the tables were, and they were only if the crash fell between
    an insert and its eviction.
  */
  lemma CrashKeepsExcess(states: seq<State>, budget: int, s': State)
    requires IsSteadyRun(states, budget) && budget >= 0 && Crash(states[|states| - 1], s')
    ensures var s := states[|states| - 1];
      && (Used(s'.w.db) <= s'.w.budget <==> Used(s.w.db) <= s.w.budget)
      && (Used(s'.w.db) <= s'.w.budget || Evicting(s))
  {
    SteadyRunOk(states, budget);
  }
}
