/** The archive's promises, over every run from a first start. */
module ArchiveRuns {
  import opened Wrappers
  import opened Tables
  import opened TableLemmas
  import opened Ages
  import opened Identity
  import opened Secrets
  import opened Archive
  import opened ArchiveSafety
  import opened ArchiveSteps

  lemma BootOk(budget: int)
    ensures Inv(Boot(budget))
  {
    var s := Boot(budget);
    StartupOk(s.w);
    StartupHoldsNothing();
  }

  lemma StartupHoldsNothing()
    ensures forall d: string :: Held([STARTUP], d) == 0
  {
    forall d: string
      ensures Held([STARTUP], d) == 0
    {
      assert [STARTUP][..0] == [];
    }
  }

  /** A crash loses every lease and lock and nothing else, so what was on the disk is still consistent. */
  lemma CrashKeepsInv(s: State, s': State)
    requires Inv(s) && Crash(s, s')
    ensures Inv(s')
  {
    StartupOk(s'.w);
    StartupHoldsNothing();
  }

  lemma StartupOk(w: World)
    requires w.lock.None?
    ensures ActorOk(w, 0, STARTUP)
  {
    assert STARTUP.prog[1..] == [Acquire, Scan] && STARTUP.prog[1..][1..] == [Scan];
    assert Outside(STARTUP.prog);
  }

  /** A session's own decision about an idle draft: only its program and its temporary change. */
  lemma DecisionKeepsInv(s: State, i: nat, temps: Temps, writing: bool, prog: seq<Instr>)
    requires Inv(s) && i < |s.actors| && s.actors[i].prog == []
    requires ActorOk(s.w, i, s.actors[i].(writing := writing, prog := prog))
    ensures Inv(State(s.w.(temps := temps), s.actors[i := s.actors[i].(writing := writing, prog := prog)]))
  {
    var a := s.actors[i].(writing := writing, prog := prog);
    SameHoldings(s.w.leases, s.actors, i, a);
    FrameDisk(s, i, s.w.(temps := temps), a);
  }

  lemma BeginPartKeepsInv(s: State, i: nat, mime: string, s': State)
    requires Inv(s) && BeginPart(s, i, mime, s')
    ensures Inv(s')
  {
    assert ActorOk(s.w, i, s.actors[i]);
    DecisionKeepsInv(s, i, Opened(s.w.temps), true, [FinishPart(mime)]);
  }

  lemma DiscardKeepsInv(s: State, i: nat)
    requires Inv(s) && Idle(s, i)
    ensures Inv(State(s.w, s.actors[i := s.actors[i].(prog := DiscardCode(s.actors[i].parts))]))
  {
    var a := s.actors[i];
    assert ActorOk(s.w, i, a);
    DiscardShape(a.parts);
    LastOfDiscard(a.parts);
    DecisionKeepsInv(s, i, s.w.temps, false, DiscardCode(a.parts));
    assert s.w.(temps := s.w.temps) == s.w;
  }

  lemma CommitKeepsInv(s: State, i: nat, at: int)
    requires Inv(s) && Idle(s, i)
    requires s.actors[i].parts != [] && !AnySensitive(s.actors[i].parts)
    ensures Inv(State(s.w, s.actors[i := s.actors[i].(prog := [Acquire, TouchFirst(at)])]))
  {
    var a := s.actors[i];
    assert ActorOk(s.w, i, a);
    LookingAgainNext(TouchFirst(at));
    DecisionKeepsInv(s, i, s.w.temps, false, [Acquire, TouchFirst(at)]);
    assert s.w.(temps := s.w.temps) == s.w;
  }

  lemma BeginCommitKeepsInv(s: State, i: nat, at: int, s': State)
    requires Inv(s) && BeginCommit(s, i, at, s')
    ensures Inv(s')
  {
    var a := s.actors[i];
    if a.parts == [] || AnySensitive(a.parts) || TotalOf(a.parts) > Room(s.w.budget) {
      DiscardKeepsInv(s, i);
    } else {
      CommitKeepsInv(s, i, at);
    }
  }

  lemma FreshActorOk(a: Actor, w: World, i: nat)
    requires a == DRAFT || exists op: Op :: a == OpActor(op)
    requires w.lock != Some(i)
    ensures ActorOk(w, i, a) && forall d: string :: HeldBy(a, d) == 0
  {
    if op: Op :| a == OpActor(op) {
      assert a.prog[1..] == [OpCode(op)] && Entering([OpCode(op)]);
    }
  }

  lemma SpawnKeepsInv(s: State, a: Actor, s': State)
    requires Inv(s) && Spawn(s, a, s')
    ensures Inv(s')
  {
    FreshActorOk(a, s.w, |s.actors|);
    assert s'.actors[..|s.actors|] == s.actors;
    forall d: string
      ensures Held(s'.actors, d) == Held(s.actors, d)
    {
    }
    forall j | 0 <= j < |s'.actors|
      ensures ActorOk(s'.w, j, s'.actors[j])
    {
      if j < |s.actors| {
        assert ActorOk(s.w, j, s.actors[j]);
      }
    }
  }

  /** Whatever any actor does next, and wherever the process dies, the invariant holds. */
  lemma NextKeepsInv(s: State, s': State)
    requires Inv(s) && Next(s, s')
    ensures Inv(s')
  {
    if i: nat, c: Choice :| Run(s, i, c, s') {
      RunKeepsInv(s, i, c, s');
    } else if i: nat, mime: string :| BeginPart(s, i, mime, s') {
      BeginPartKeepsInv(s, i, mime, s');
    } else if i: nat, at: int :| BeginCommit(s, i, at, s') {
      BeginCommitKeepsInv(s, i, at, s');
    } else if i: nat :| Abandon(s, i, s') {
      DiscardKeepsInv(s, i);
    } else if a: Actor :| Spawn(s, a, s') {
      SpawnKeepsInv(s, a, s');
    } else {
      CrashKeepsInv(s, s');
    }
  }

  lemma {:induction false} RunsKeepInv(states: seq<State>, budget: int)
    requires IsRun(states, budget)
    ensures Inv(states[|states| - 1])
  {
    if |states| == 1 {
      BootOk(budget);
    } else {
      var front := states[..|states| - 1];
      assert IsRun(front, budget);
      RunsKeepInv(front, budget);
      NextKeepsInv(states[|states| - 2], states[|states| - 1]);
    }
  }

  lemma ReachableOk(s: State)
    requires Reachable(s)
    ensures Inv(s)
  {
    var states: seq<State>, budget: int :| IsRun(states, budget) && states[|states| - 1] == s;
    RunsKeepInv(states, budget);
  }

  // -------------------------------------------------------------- promises

  /**
    Collection is safe under every interleaving, failure and crash: whatever an
    entry names, a representation or a thumbnail, its file is on the disk.
  */
  lemma NoEntryLosesItsFile(s: State)
    requires Reachable(s)
    ensures forall p <- s.w.db.parts :: p.digest in s.w.files
    ensures forall e <- s.w.db.entries | e.thumb.Some? :: e.thumb.value in s.w.files
  {
    ReachableOk(s);
    forall p <- s.w.db.parts
      ensures p.digest in s.w.files
    {
      CountedMeansNamed(s.w.db.entries, s.w.db.parts, p.digest);
      assert Refs(s.w.db.entries, s.w.db.parts, p.digest) > 0;
    }
    forall e <- s.w.db.entries | e.thumb.Some?
      ensures e.thumb.value in s.w.files
    {
      CountedMeansNamed(s.w.db.entries, s.w.db.parts, e.thumb.value);
      assert Refs(s.w.db.entries, s.w.db.parts, e.thumb.value) > 0;
    }
  }

  /** Content a draft, or a commit under way, has been told it holds cannot be collected from under it. */
  lemma NoDraftLosesItsFile(s: State, i: nat)
    requires Reachable(s) && i < |s.actors|
    ensures forall p <- s.actors[i].parts :: p.digest in s.w.files
    ensures s.actors[i].thumb.Some? ==> s.actors[i].thumb.value.digest in s.w.files
  {
    ReachableOk(s);
    assert ActorOk(s.w, i, s.actors[i]);
  }

  /** A pinned entry's content and thumbnail have been synced since their files were last published. */
  lemma PinsAreDurable(s: State)
    requires Reachable(s)
    ensures forall e <- s.w.db.entries | e.pinned :: forall d <- DigestsOf(s.w.db, e.id) :: d in s.w.synced
    ensures s.w.synced <= s.w.files
  {
    ReachableOk(s);
  }

  /** The index stays consistent, row for row, in every reachable state. */
  lemma IndexIsConsistent(s: State)
    requires Reachable(s)
    ensures Valid(s.w.db)
  {
    ReachableOk(s);
  }

  /** No archived entry offers a secret, whatever the clients sent. */
  lemma NoSecretIsArchived(s: State)
    requires Reachable(s)
    ensures forall p <- s.w.db.parts :: !IsSensitive(p.mime)
  {
    ReachableOk(s);
    forall p <- s.w.db.parts
      ensures !IsSensitive(p.mime)
    {
      var e :| e in s.w.db.entries && e.id == p.entry;
      PartsOfFinds(s.w.db.parts, p);
      var held := AsParts(PartsOf(s.w.db.parts, e.id));
      assert EntryOk(e, s.w.db.parts);
      var k :| 0 <= k < |PartsOf(s.w.db.parts, e.id)| && PartsOf(s.w.db.parts, e.id)[k] == p;
      assert held[k] in held && held[k].mime == p.mime;
    }
  }

  lemma {:induction false} PartsOfFinds(ps: seq<PartRow>, p: PartRow)
    requires p in ps
    ensures p in PartsOf(ps, p.entry)
  {
    if ps[|ps| - 1] != p {
      PartsOfFinds(ps[..|ps| - 1], p);
    }
  }

  /** Two live entries never hold the same representations. */
  lemma EntriesAreDistinct(s: State, e: EntryRow, f: EntryRow)
    requires Reachable(s) && e in s.w.db.entries && f in s.w.db.entries
    requires Representations(AsParts(PartsOf(s.w.db.parts, e.id)))
          == Representations(AsParts(PartsOf(s.w.db.parts, f.id)))
    ensures e == f
  {
    ReachableOk(s);
    assert EntryOk(e, s.w.db.parts) && EntryOk(f, s.w.db.parts);
    EncodedIdentifies(AsParts(PartsOf(s.w.db.parts, e.id)), AsParts(PartsOf(s.w.db.parts, f.id)));
    SameIdentitySameRow(s.w.db.entries, e, f);
  }

  lemma SameIdentitySameRow(es: seq<EntryRow>, e: EntryRow, f: EntryRow)
    requires UniqueIdentities(es) && e in es && f in es && e.identity == f.identity
    ensures e == f
  {
    var i :| 0 <= i < |es| && es[i] == e;
    var j :| 0 <= j < |es| && es[j] == f;
    if i != j {
      assert es[i].identity != es[j].identity;
    }
  }

  /**
    A commit is recognised as a copy of an entry exactly when that entry holds
    the draft's representations; sizes, order and source do not matter.
  */
  lemma CopiesAreRecognised(s: State, i: nat)
    requires Reachable(s) && i < |s.actors|
    ensures FindIdentity(s.w.db.entries, IdentityOf(s.actors[i])).Some? <==>
      exists e <- s.w.db.entries ::
        Representations(AsParts(PartsOf(s.w.db.parts, e.id))) == Representations(s.actors[i].parts)
  {
    ReachableOk(s);
    var a := s.actors[i];
    assert ActorOk(s.w, i, a);
    forall e <- s.w.db.entries
      ensures e.identity == IdentityOf(a) <==>
        Representations(AsParts(PartsOf(s.w.db.parts, e.id))) == Representations(a.parts)
    {
      assert EntryOk(e, s.w.db.parts);
      EncodedIdentifies(AsParts(PartsOf(s.w.db.parts, e.id)), a.parts);
    }
  }

  /**
    Although the lock was given up between the two, the second look decides:
    an insert never meets an identity that is already there.
  */
  lemma InsertNeverCollides(s: State, i: nat)
    requires Reachable(s) && i < |s.actors|
    requires s.actors[i].prog != [] && s.actors[i].prog[0].InsertRow?
    ensures forall e <- s.w.db.entries :: e.identity != IdentityOf(s.actors[i])
    ensures s.w.lock == Some(i)
  {
    ReachableOk(s);
    assert ActorOk(s.w, i, s.actors[i]);
    InsertingIsNew(s.w, i, s.actors[i]);
  }

  /** At most one actor is between taking and releasing the index lock. */
  lemma OneLockHolder(s: State, i: nat, j: nat)
    requires Reachable(s) && i < |s.actors| && j < |s.actors| && i != j
    requires !Outside(s.actors[i].prog)
    ensures Outside(s.actors[j].prog)
  {
    ReachableOk(s);
    assert ActorOk(s.w, i, s.actors[i]) && ActorOk(s.w, j, s.actors[j]);
  }
}
