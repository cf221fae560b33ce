/**
  Temporary files: after startup has swept `incoming`, there is one for every
  write under way and one for every removal that failed since, and no other,
  whatever else fails and however often the process dies. While removals
  succeed there is exactly one for every write under way.
*/
module ArchiveTemps {
  import opened Wrappers
  import opened Tables
  import opened Archive
  import opened ArchiveLeaks

  /** Instructions that run while a temporary file is open. */
  predicate Opens(x: Instr) {
    x.FinishPart? || x.FinishThumb? || x.DropFailed?
  }

  predicate Tame(prog: seq<Instr>) {
    forall x <- prog :: !Opens(x) && !x.SweepIncoming?
  }

  /** A temporary is open exactly while the next instruction deals with it. */
  predicate WritingOk(a: Actor) {
    && (a.writing <==> a.prog != [] && Opens(a.prog[0]))
    && (a.prog != [] ==> !a.prog[0].SweepIncoming? && Tame(a.prog[1..]))
  }

  function CountWriting(actors: seq<Actor>): nat {
    if actors == [] then 0
    else CountWriting(actors[..|actors| - 1]) + if actors[|actors| - 1].writing then 1 else 0
  }

  ghost predicate TempsExact(s: State) {
    s.actors == [STARTUP] ||
      (s.w.temps.count == CountWriting(s.actors) + s.w.temps.stray && forall a <- s.actors :: WritingOk(a))
  }

  lemma {:induction false} CountAfter(actors: seq<Actor>, i: nat, a: Actor)
    requires i < |actors|
    ensures CountWriting(actors[i := a])
      == CountWriting(actors) - (if actors[i].writing then 1 else 0) + (if a.writing then 1 else 0)
    ensures actors[i].writing ==> CountWriting(actors) > 0
  {
    var n := |actors| - 1;
    if i < n {
      CountAfter(actors[..n], i, a);
      assert actors[i := a][..n] == actors[..n][i := a];
    } else {
      assert actors[i := a][..n] == actors[..n];
    }
  }

  // ------------------------------------------------------------- programs

  lemma TameCode(a: Actor, ds: seq<string>)
    ensures Tame(DiscardCode(a.parts)) && Tame(SweepCode(ds)) && Tame(FailedCommitCode(a))
    ensures Tame(FinishedCommitCode(a, ds)) && Tame(Syncs(ds)) && Tame(Unlinks(ds))
  {
    assert Tame(Checks(ds)) && Tame(Checks(DigestsOfParts(a.parts)));
    assert Tame(SweepCode(ds)) && Tame(SweepCode(DigestsOfParts(a.parts)));
    assert Tame(DropLeases(|a.parts|)) && Tame(DiscardCode(a.parts));
    assert Tame(DropThumbCode(a.thumb)) && Tame(SweepThumbCode(a.thumb));
  }

  lemma TameIsOk(a: Actor)
    requires !a.writing && Tame(a.prog)
    ensures WritingOk(a)
  {
  }

  // ---------------------------------------------------------------- steps

  ghost predicate Balanced(w: World, a: Actor, r: (World, Actor)) {
    && WritingOk(r.1)
    && r.0.temps.count - r.0.temps.stray
        == w.temps.count - w.temps.stray - (if a.writing then 1 else 0) + (if r.1.writing then 1 else 0)
  }

  lemma WritesBalance(w: World, me: nat, a: Actor, c: Choice)
    requires WritingOk(a) && a.writing && w.temps.count > 0
    ensures Balanced(w, a, Exec(w, me, a, c))
  {
    TameCode(a, []);
    assert a.prog[0].DropFailed? ==> Tame(a.prog[1..]);
  }

  lemma DeriveBalances(w: World, me: nat, a: Actor, c: Choice)
    requires WritingOk(a) && a.prog != [] && a.prog[0].Derive?
    ensures Balanced(w, a, Exec(w, me, a, c))
  {
    TameCode(a, []);
  }

  lemma TameConcat(a: seq<Instr>, b: seq<Instr>)
    requires Tame(a) && Tame(b)
    ensures Tame(a + b)
  {
  }

  /** An instruction of a commit. */
  predicate InCommitBody(x: Instr) {
    x.TouchFirst? || x.TouchAgain? || x.InsertRow? || x.Evict?
  }

  lemma TouchBalances(w: World, me: nat, a: Actor, c: Choice)
    requires WritingOk(a) && a.prog != [] && (a.prog[0].TouchFirst? || a.prog[0].TouchAgain?)
    ensures Balanced(w, a, Exec(w, me, a, c))
  {
    TameCode(a, []);
    TameConcat([Release], DiscardCode(a.parts));
    TameIsOk(Exec(w, me, a, c).1);
  }

  lemma RecordBalances(w: World, me: nat, a: Actor, c: Choice)
    requires WritingOk(a) && a.prog != [] && (a.prog[0].InsertRow? || a.prog[0].Evict?)
    ensures Balanced(w, a, Exec(w, me, a, c))
  {
    TameCode(a, c.orphaned);
    TameIsOk(Exec(w, me, a, c).1);
  }

  lemma MutatorBalances(w: World, me: nat, a: Actor, c: Choice)
    requires WritingOk(a) && a.prog != []
    requires var h := a.prog[0]; h.RemoveRow? || h.ClearRows? || h.ExpireRows? || h.Scan?
    ensures Balanced(w, a, Exec(w, me, a, c))
  {
    TameCode(a, c.orphaned);
    TameCode(a, Unknown(c.listing, w.db.blobs));
    TameConcat([Release], SweepCode(c.orphaned));
    TameConcat(Unlinks(Unknown(c.listing, w.db.blobs)), [Release]);
    TameIsOk(Exec(w, me, a, c).1);
  }

  lemma PinBalances(w: World, me: nat, a: Actor, c: Choice)
    requires WritingOk(a) && a.prog != [] && a.prog[0].StartPin?
    ensures Balanced(w, a, Exec(w, me, a, c))
  {
    var ds := DigestsOf(w.db, a.prog[0].id);
    var tail := [SetPin(a.prog[0].id, a.prog[0].on), Release];
    TameCode(a, ds);
    TameConcat(Syncs(ds), tail);
    TameConcat([], tail);
    TameIsOk(Exec(w, me, a, c).1);
  }

  /** Everything else moves on to the rest of its program. */
  lemma PoppedBalances(w: World, me: nat, a: Actor, c: Choice)
    requires WritingOk(a) && a.prog != [] && !a.writing && !a.prog[0].Derive? && !InCommitBody(a.prog[0])
    requires var h := a.prog[0]; !h.RemoveRow? && !h.ClearRows? && !h.ExpireRows? && !h.Scan? && !h.StartPin?
    ensures Balanced(w, a, Exec(w, me, a, c))
  {
    var r := Exec(w, me, a, c);
    var rest := a.prog[1..];
    if a.prog[0].Check? {
      TameConcat([Unlink(a.prog[0].digest)], rest);
    }
    TameIsOk(r.1);
  }

  lemma QuietBalances(w: World, me: nat, a: Actor, c: Choice)
    requires WritingOk(a) && a.prog != [] && !a.writing && !a.prog[0].Derive?
    ensures Balanced(w, a, Exec(w, me, a, c))
  {
    var h := a.prog[0];
    if h.TouchFirst? || h.TouchAgain? {
      TouchBalances(w, me, a, c);
    } else if h.InsertRow? || h.Evict? {
      RecordBalances(w, me, a, c);
    } else if h.RemoveRow? || h.ClearRows? || h.ExpireRows? || h.Scan? {
      MutatorBalances(w, me, a, c);
    } else if h.StartPin? {
      PinBalances(w, me, a, c);
    } else {
      PoppedBalances(w, me, a, c);
    }
  }

  lemma RunKeepsTemps(s: State, i: nat, c: Choice, s': State)
    requires s.actors != [STARTUP] && TempsExact(s) && Run(s, i, c, s')
    ensures TempsExact(s')
  {
    var a := s.actors[i];
    assert WritingOk(a);
    CountAfter(s.actors, i, s'.actors[i]);
    if a.writing {
      WritesBalance(s.w, i, a, c);
    } else if a.prog[0].Derive? {
      DeriveBalances(s.w, i, a, c);
    } else {
      QuietBalances(s.w, i, a, c);
    }
    ReplacedOk(s.actors, i, s'.actors[i]);
  }

  lemma ReplacedOk(actors: seq<Actor>, i: nat, a: Actor)
    requires i < |actors| && WritingOk(a) && forall x <- actors :: WritingOk(x)
    ensures forall x <- actors[i := a] :: WritingOk(x)
  {
  }

  /** The first instruction of all: whatever a crash left in `incoming` goes. */
  lemma StartupSweeps(s: State, i: nat, c: Choice, s': State)
    requires s.actors == [STARTUP] && Run(s, i, c, s')
    ensures TempsExact(s')
  {
    var a := STARTUP.(prog := [Acquire, Scan]);
    assert STARTUP.prog[1..] == [Acquire, Scan];
    if !c.fault {
      assert s'.actors == [a] && s'.w.temps.count == s'.w.temps.stray;
    }
    assert CountWriting([a]) == 0 by { assert [a][..0] == []; }
    assert WritingOk(a) by { assert a.prog[1..] == [Scan]; }
  }

  lemma DecisionKeepsTemps(s: State, i: nat, s': State, temps: Temps, writing: bool, prog: seq<Instr>)
    requires TempsExact(s) && s.actors != [STARTUP] && Idle(s, i)
    requires s' == State(s.w.(temps := temps), s.actors[i := s.actors[i].(writing := writing, prog := prog)])
    requires temps == if writing then Opened(s.w.temps) else s.w.temps
    requires WritingOk(s.actors[i].(writing := writing, prog := prog))
    ensures TempsExact(s')
  {
    var b := s.actors[i].(writing := writing, prog := prog);
    CountAfter(s.actors, i, b);
    ReplacedOk(s.actors, i, b);
  }

  lemma SpawnKeepsTemps(s: State, a: Actor, s': State)
    requires TempsExact(s) && s.actors != [STARTUP] && Spawn(s, a, s')
    ensures TempsExact(s')
  {
    assert s'.actors[..|s.actors|] == s.actors;
    assert a.prog == [] || a.prog[1..] == [a.prog[1]];
    assert WritingOk(a);
  }

  lemma NextKeepsTemps(s: State, s': State)
    requires TempsExact(s) && Next(s, s')
    ensures TempsExact(s')
  {
    if Crash(s, s') {
    } else if i: nat, c: Choice :| Run(s, i, c, s') {
      if s.actors == [STARTUP] {
        StartupSweeps(s, i, c, s');
      } else {
        RunKeepsTemps(s, i, c, s');
      }
    } else if i: nat, mime: string :| BeginPart(s, i, mime, s') {
      DecisionKeepsTemps(s, i, s', Opened(s.w.temps), true, [FinishPart(mime)]);
    } else if i: nat, at: int :| BeginCommit(s, i, at, s') {
      var a := s.actors[i];
      TameCode(a, []);
      assert s.w.(temps := s.w.temps) == s.w && a.(writing := false, prog := s'.actors[i].prog) == s'.actors[i];
      DecisionKeepsTemps(s, i, s', s.w.temps, false, s'.actors[i].prog);
    } else if i: nat :| Abandon(s, i, s') {
      var a := s.actors[i];
      TameCode(a, []);
      assert s.w.(temps := s.w.temps) == s.w && a.(writing := false, prog := DiscardCode(a.parts)) == s'.actors[i];
      DecisionKeepsTemps(s, i, s', s.w.temps, false, DiscardCode(a.parts));
    } else if a: Actor :| Spawn(s, a, s') {
      SpawnKeepsTemps(s, a, s');
    }
  }

  lemma {:induction false} RunsKeepTemps(states: seq<State>, budget: int)
    requires IsRun(states, budget)
    ensures TempsExact(states[|states| - 1])
  {
    if |states| > 1 {
      var n := |states| - 1;
      assert IsRun(states[..n], budget);
      RunsKeepTemps(states[..n], budget);
      NextKeepsTemps(states[n - 1], states[n]);
    }
  }

  lemma {:induction false} NoneWriting(actors: seq<Actor>)
    ensures CountWriting(actors) == 0 <==> forall a <- actors :: !a.writing
  {
    if actors != [] {
      NoneWriting(actors[..|actors| - 1]);
      assert actors == actors[..|actors| - 1] + [actors[|actors| - 1]];
    }
  }

  /**
    What is in `incoming`, in every reachable state: the writes under way and
    the strays. Nothing is there exactly when no one writes and nothing was
    left over.
  */
  lemma TemporariesAreAccountedFor(s: State)
    requires Reachable(s) && s.actors != [STARTUP]
    ensures s.w.temps.count == CountWriting(s.actors) + s.w.temps.stray
    ensures s.w.temps.count == 0 <==> (s.w.temps.stray == 0 && forall a <- s.actors :: !a.writing)
  {
    var states: seq<State>, budget: int :| IsRun(states, budget) && states[|states| - 1] == s;
    RunsKeepTemps(states, budget);
    NoneWriting(s.actors);
  }

  // --------------------------------------------------------------- strays

  /** The step has a temporary to remove and cannot. A rename onto an empty place leaves none to remove. */
  predicate FailsToRemove(w: World, a: Actor, c: Choice)
    requires a.prog != []
  {
    match a.prog[0]
    case FinishPart(_) => c.unremoved && (c.fault || (!c.unpublished && c.part.digest in w.files))
    case FinishThumb(_) => c.unremoved && (c.fault || (!c.unpublished && c.part.digest in w.files))
    case DropFailed => c.unremoved
    case SweepIncoming => c.left > 0
    case _ => false
  }

  /** Past startup a stray comes of a removal that failed, one at a time, and none goes before the next start. */
  lemma StraysAreFailures(s: State, i: nat, c: Choice, s': State)
    requires Run(s, i, c, s') && !s.actors[i].prog[0].SweepIncoming?
    ensures s'.w.temps.stray == s.w.temps.stray + if FailsToRemove(s.w, s.actors[i], c) then 1 else 0
  {
  }

  /** Any step at all, calls that fail and crashes included, except a temporary that cannot be removed. */
  ghost predicate TidyNext(s: State, s': State) {
    || (exists i: nat, c: Choice :: Run(s, i, c, s') && !FailsToRemove(s.w, s.actors[i], c))
    || (exists i: nat, mime: string :: BeginPart(s, i, mime, s'))
    || (exists i: nat, at: int :: BeginCommit(s, i, at, s'))
    || (exists i: nat :: Abandon(s, i, s'))
    || (exists a: Actor :: Spawn(s, a, s'))
    || Crash(s, s')
  }

  /** Runs that begin with a start of the daemon, whatever earlier ones left in `incoming`. */
  ghost predicate IsTidyRun(states: seq<State>) {
    && states != [] && Reachable(states[0]) && states[0].actors == [STARTUP]
    && forall k | 0 < k < |states| :: TidyNext(states[k - 1], states[k])
  }

  ghost predicate Tidy(s: State) {
    TempsExact(s) && (s.actors == [STARTUP] || s.w.temps.stray == 0)
  }

  lemma TidyKeeps(s: State, s': State)
    requires Tidy(s) && TidyNext(s, s')
    ensures Tidy(s')
  {
    if i: nat, c: Choice :| Run(s, i, c, s') && !FailsToRemove(s.w, s.actors[i], c) {
      NextKeepsTemps(s, s');
      assert s.actors == [STARTUP] ==> s.actors[i].prog[0].SweepIncoming?;
      if s.actors[i].prog[0].SweepIncoming? {
        assert s'.w.temps == Swept(s.w.temps, 0);
      } else {
        StraysAreFailures(s, i, c, s');
      }
    } else {
      NextKeepsTemps(s, s');
    }
  }

  lemma {:induction false} TidyRunOk(states: seq<State>)
    requires IsTidyRun(states)
    ensures Tidy(states[|states| - 1])
  {
    if |states| > 1 {
      var n := |states| - 1;
      assert IsTidyRun(states[..n]);
      TidyRunOk(states[..n]);
      TidyKeeps(states[n - 1], states[n]);
    }
  }

  /**
    As long as a temporary can be removed none outlives the write it was opened
    for: transfers that fail, publications that fail and crashes included.
  */
  lemma TemporariesAreGone(states: seq<State>)
    requires IsTidyRun(states) && states[|states| - 1].actors != [STARTUP]
    ensures var s := states[|states| - 1];
      s.w.temps.count == CountWriting(s.actors) && (Quiet(s) ==> s.w.temps.count == 0)
  {
    TidyRunOk(states);
    NoneWriting(states[|states| - 1].actors);
  }
}
