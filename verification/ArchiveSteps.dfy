/** Every step of every actor keeps `ArchiveSafety.Inv`, one lemma per kind of instruction. */
module ArchiveSteps {
  import opened Wrappers
  import opened Tables
  import opened TableLemmas
  import opened Ages
  import opened Identity
  import opened Secrets
  import opened Archive
  import opened ArchiveSafety

  // --------------------------------------------------------------- leases

  lemma SameHoldings(leases: map<string, nat>, actors: seq<Actor>, i: nat, a: Actor)
    requires i < |actors| && LeasesExact(leases, actors)
    requires forall d: string :: HeldBy(a, d) == HeldBy(actors[i], d)
    ensures LeasesExact(leases, actors[i := a])
  {
    forall d: string
      ensures Held(actors[i := a], d) == Held(actors, d)
    {
      HeldAfter(actors, i, a, d);
    }
  }

  lemma LeaseTaken(leases: map<string, nat>, actors: seq<Actor>, i: nat, a: Actor, taken: string)
    requires i < |actors| && LeasesExact(leases, actors)
    requires forall d: string :: HeldBy(a, d) == HeldBy(actors[i], d) + if d == taken then 1 else 0
    ensures LeasesExact(Leased(leases, taken), actors[i := a])
  {
    forall d: string
      ensures Held(actors[i := a], d) == Held(actors, d) + if d == taken then 1 else 0
    {
      HeldAfter(actors, i, a, d);
    }
  }

  lemma LeaseDropped(leases: map<string, nat>, actors: seq<Actor>, i: nat, a: Actor, dropped: string)
    requires i < |actors| && LeasesExact(leases, actors)
    requires forall d: string :: HeldBy(actors[i], d) == HeldBy(a, d) + if d == dropped then 1 else 0
    ensures LeasesExact(Unleased(leases, dropped), actors[i := a])
  {
    forall d: string
      ensures Held(actors, d) == Held(actors[i := a], d) + if d == dropped then 1 else 0
    {
      HeldAfter(actors, i, a, d);
    }
  }

  lemma PartTaken(parts: seq<Part>, p: Part, d: string)
    ensures CountIn(DigestsOfParts(parts + [p]), d)
         == CountIn(DigestsOfParts(parts), d) + if p.digest == d then 1 else 0
  {
    assert DigestsOfParts(parts + [p])[..|parts|] == DigestsOfParts(parts);
  }

  lemma {:induction false} PartDropped(parts: seq<Part>, d: string)
    requires parts != []
    ensures CountIn(DigestsOfParts(parts), d)
         == CountIn(DigestsOfParts(parts[1..]), d) + if parts[0].digest == d then 1 else 0
  {
    var n := |parts| - 1;
    assert DigestsOfParts(parts)[..n] == DigestsOfParts(parts[..n]);
    if n > 0 {
      PartDropped(parts[..n], d);
      assert parts[..n][1..] == parts[1..][..n - 1];
      assert DigestsOfParts(parts[1..])[..n - 1] == DigestsOfParts(parts[1..][..n - 1]);
    }
  }

  // ---------------------------------------------------------------- frame

  lemma HasItsFiles(w: World, j: nat, a: Actor)
    requires ActorOk(w, j, a)
    ensures HoldsFiles(w.files, a)
  {
  }

  /** An actor whose content is still there stands where it stood, if another one ran. */
  lemma StandsAside(w: World, i: nat, v: World, j: nat, a: Actor)
    requires ActorOk(w, j, a) && j != i && HoldsFiles(v.files, a)
    requires w.lock == Some(i) || (v.db == w.db && v.synced == w.synced)
    requires v.lock == w.lock || (w.lock == None && v.lock == Some(i)) || (w.lock == Some(i) && v.lock == None)
    ensures ActorOk(v, j, a)
  {
  }

  /**
    What one actor does leaves every other actor's claims standing: only the
    holder of the index lock changes the tables or what is synced, and no
    file an actor holds a lease on disappears.
  */
  lemma Frame(s: State, i: nat, w: World, a: Actor)
    requires Inv(s) && i < |s.actors|
    requires s.w.lock == Some(i) || (w.db == s.w.db && w.synced == s.w.synced)
    requires w.lock == s.w.lock || (s.w.lock == None && w.lock == Some(i)) || (s.w.lock == Some(i) && w.lock == None)
    requires forall d <- s.w.files :: d in w.files || Held(s.actors, d) == 0
    requires DbOk(w.db) && w.db.blobs.Keys <= w.files && w.synced <= w.files && PinsDurable(w.db, w.synced)
    requires LeasesExact(w.leases, s.actors[i := a])
    requires ActorOk(w, i, a)
    ensures Inv(State(w, s.actors[i := a]))
  {
    OthersStand(s, i, w);
    Assembled(w, s.actors[i := a]);
  }

  lemma Assembled(w: World, actors: seq<Actor>)
    requires DbOk(w.db) && w.db.blobs.Keys <= w.files && w.synced <= w.files && PinsDurable(w.db, w.synced)
    requires LeasesExact(w.leases, actors) && (w.lock.Some? ==> w.lock.value < |actors|)
    requires forall j | 0 <= j < |actors| :: ActorOk(w, j, actors[j])
    ensures Inv(State(w, actors))
  {
  }

  lemma OthersStand(s: State, i: nat, w: World)
    requires Inv(s)
    requires s.w.lock == Some(i) || (w.db == s.w.db && w.synced == s.w.synced)
    requires w.lock == s.w.lock || (s.w.lock == None && w.lock == Some(i)) || (s.w.lock == Some(i) && w.lock == None)
    requires forall d <- s.w.files :: d in w.files || Held(s.actors, d) == 0
    ensures forall j | 0 <= j < |s.actors| && j != i :: ActorOk(w, j, s.actors[j])
  {
    forall j | 0 <= j < |s.actors| && j != i
      ensures ActorOk(w, j, s.actors[j])
    {
      HasItsFiles(s.w, j, s.actors[j]);
      KeepsFiles(s, j, w.files);
      StandsAside(s.w, i, w, j, s.actors[j]);
    }
  }

  /** The frame of a step that leaves the tables and what is synced alone, and loses no file. */
  lemma FrameDisk(s: State, i: nat, w: World, a: Actor)
    requires Inv(s) && i < |s.actors|
    requires w.db == s.w.db && w.synced == s.w.synced && s.w.files <= w.files
    requires w.lock == s.w.lock || (s.w.lock == None && w.lock == Some(i)) || (s.w.lock == Some(i) && w.lock == None)
    requires LeasesExact(w.leases, s.actors[i := a])
    requires ActorOk(w, i, a)
    ensures Inv(State(w, s.actors[i := a]))
  {
    Frame(s, i, w, a);
  }

  lemma KeepsFiles(s: State, j: nat, files: set<string>)
    requires j < |s.actors| && HoldsFiles(s.w.files, s.actors[j])
    requires forall d <- s.w.files :: d in files || Held(s.actors, d) == 0
    ensures HoldsFiles(files, s.actors[j])
  {
    var a := s.actors[j];
    forall d: string | HeldBy(a, d) > 0 && d in s.w.files
      ensures d in files
    {
      HeldMeans(s.actors, d);
    }
    forall p <- a.parts
      ensures p.digest in files
    {
      HoldsPart(a, p);
    }
  }

  lemma HoldsPart(a: Actor, p: Part)
    requires p in a.parts
    ensures HeldBy(a, p.digest) > 0
  {
    var k :| 0 <= k < |a.parts| && a.parts[k] == p;
    assert DigestsOfParts(a.parts)[k] == p.digest;
    CountInMeans(DigestsOfParts(a.parts), p.digest);
  }

  // -------------------------------------------------------- program shapes

  lemma {:induction false} ChecksShape(ds: seq<string>, tail: seq<Instr>)
    requires Entering(tail)
    ensures Entering(Checks(ds) + tail)
  {
    if ds == [] {
      assert Checks(ds) + tail == tail;
    } else {
      ChecksShape(ds[1..], tail);
      assert (Checks(ds) + tail)[1..] == Checks(ds[1..]) + tail;
      assert (Checks(ds) + tail)[0] == Check(ds[0]);
    }
  }

  lemma SweepShape(ds: seq<string>, tail: seq<Instr>)
    requires Outside(tail)
    ensures Outside(SweepCode(ds) + tail)
  {
    assert ([Release] + tail)[1..] == tail;
    ChecksShape(ds, [Release] + tail);
    assert SweepCode(ds) + tail == [Acquire] + (Checks(ds) + ([Release] + tail));
    assert (SweepCode(ds) + tail)[1..] == Checks(ds) + ([Release] + tail);
  }

  lemma {:induction false} DropsShape(n: nat, tail: seq<Instr>)
    requires Outside(tail)
    ensures Outside(DropLeases(n) + tail)
  {
    if n == 0 {
      assert DropLeases(n) + tail == tail;
    } else {
      DropsShape(n - 1, tail);
      assert (DropLeases(n) + tail)[1..] == DropLeases(n - 1) + tail;
    }
  }

  lemma DiscardShape(parts: seq<Part>)
    ensures Outside(DiscardCode(parts)) && !InCommit(DiscardCode(parts))
  {
    SweepShape(DigestsOfParts(parts), []);
    assert SweepCode(DigestsOfParts(parts)) + [] == SweepCode(DigestsOfParts(parts));
    DropsShape(|parts|, SweepCode(DigestsOfParts(parts)));
  }

  lemma DropThumbShape(thumb: Option<Part>, tail: seq<Instr>)
    requires Outside(tail)
    ensures Outside(DropThumbCode(thumb) + tail)
  {
    if thumb.Some? {
      assert (DropThumbCode(thumb) + tail)[1..] == tail;
    } else {
      assert DropThumbCode(thumb) + tail == tail;
    }
  }

  lemma FailedCommitShape(a: Actor)
    ensures Entering(FailedCommitCode(a)) && !InCommit(FailedCommitCode(a))
  {
    DiscardShape(a.parts);
    DropThumbShape(a.thumb, DiscardCode(a.parts));
    Regroup([Release], DropThumbCode(a.thumb), DiscardCode(a.parts));
    ReleaseShape(DropThumbCode(a.thumb) + DiscardCode(a.parts));
    LastOfDiscard(a.parts);
    EndsReleased([Release] + DropThumbCode(a.thumb), DiscardCode(a.parts));
  }

  lemma EndsReleased(prog: seq<Instr>, tail: seq<Instr>)
    requires tail != [] && tail[|tail| - 1] == Release
    ensures !InCommit(prog + tail)
  {
    assert (prog + tail)[|prog + tail| - 1] == Release;
  }

  lemma LastOfDiscard(parts: seq<Part>)
    ensures DiscardCode(parts)[|DiscardCode(parts)| - 1] == Release
  {
  }

  lemma SweepThumbShape(thumb: Option<Part>, tail: seq<Instr>)
    requires Outside(tail)
    ensures Outside(SweepThumbCode(thumb) + tail)
  {
    if thumb.Some? {
      SweepShape([thumb.value.digest], tail);
    } else {
      assert SweepThumbCode(thumb) + tail == tail;
    }
  }

  lemma ReleaseShape(tail: seq<Instr>)
    requires Outside(tail)
    ensures Entering([Release] + tail)
  {
    assert ([Release] + tail)[1..] == tail;
  }

  lemma RegroupFive(a: seq<Instr>, b: seq<Instr>, c: seq<Instr>, d: seq<Instr>, e: seq<Instr>)
    ensures a + b + c + d + e == a + (b + (c + (d + e)))
  {
    Regroup(a + b + c, d, e);
    Regroup(a + b, c, d + e);
    Regroup(a, b, c + (d + e));
  }

  lemma FinishedCommitShape(a: Actor, orphaned: seq<string>)
    ensures Entering(FinishedCommitCode(a, orphaned)) && !InCommit(FinishedCommitCode(a, orphaned))
  {
    var last := [Reply];
    SweepThumbShape(a.thumb, last);
    SweepShape(orphaned, SweepThumbCode(a.thumb) + last);
    DropThumbShape(a.thumb, SweepCode(orphaned) + (SweepThumbCode(a.thumb) + last));
    ReleaseShape(DropThumbCode(a.thumb) + (SweepCode(orphaned) + (SweepThumbCode(a.thumb) + last)));
    RegroupFive([Release], DropThumbCode(a.thumb), SweepCode(orphaned), SweepThumbCode(a.thumb), last);
  }

  lemma ReleaseThenSweepShape(ds: seq<string>)
    ensures Entering([Release] + SweepCode(ds)) && !InCommit([Release] + SweepCode(ds))
  {
    SweepShape(ds, []);
    assert SweepCode(ds) + [] == SweepCode(ds);
    assert ([Release] + SweepCode(ds))[1..] == SweepCode(ds);
  }

  lemma ReleaseThenDiscardShape(parts: seq<Part>)
    ensures Entering([Release] + DiscardCode(parts)) && !InCommit([Release] + DiscardCode(parts))
  {
    DiscardShape(parts);
    LastOfDiscard(parts);
    assert ([Release] + DiscardCode(parts))[1..] == DiscardCode(parts);
  }

  lemma {:induction false} UnlinksShape(db: Db, synced: set<string>, identity: string, ds: seq<string>)
    requires forall d <- ds :: d !in db.blobs
    ensures Inside(db, synced, identity, Unlinks(ds) + [Release])
    decreases |ds|
  {
    if ds == [] {
      assert Unlinks(ds) + [Release] == [Release];
    } else {
      UnlinksShape(db, synced - {ds[0]}, identity, ds[1..]);
      assert (Unlinks(ds) + [Release])[1..] == Unlinks(ds[1..]) + [Release];
    }
  }

  lemma {:induction false} SyncsShape(db: Db, synced: set<string>, id: int, ds: seq<string>)
    requires forall d <- DigestsOf(db, id) :: d in synced || d in ds
    ensures var prog := Syncs(ds) + [SetPin(id, true), Release];
      Pinning(db, synced, prog) && (prog[0].Sync? || prog[0].SetPin?)
    decreases |ds|
  {
    var prog := Syncs(ds) + [SetPin(id, true), Release];
    if ds == [] {
      assert prog == [SetPin(id, true), Release] && prog[1..] == [Release];
    } else {
      SyncsShape(db, synced + {ds[0]}, id, ds[1..]);
      assert prog[1..] == Syncs(ds[1..]) + [SetPin(id, true), Release];
    }
  }

  // ------------------------------------------------------ one lemma a step

  ghost predicate Before(s: State, i: nat) {
    Inv(s) && i < |s.actors| && s.actors[i].prog != []
  }

  ghost function After(s: State, i: nat, c: Choice): State
    requires Before(s, i)
  {
    var r := Exec(s.w, i, s.actors[i], c);
    State(r.0, s.actors[i := r.1])
  }

  lemma Popped(a: Actor)
    requires |a.prog| > 1 && HoldingsOk(a) && !a.prog[0].DropThumb? && !a.prog[0].DropFailed?
    ensures HoldingsOk(a.(prog := a.prog[1..]))
    ensures Committing(a.prog[1..]) == Committing(a.prog)
  {
    assert a.prog == [a.prog[0]] + a.prog[1..];
  }

  lemma PoppedLast(a: Actor)
    requires |a.prog| == 1 && HoldingsOk(a) && !InCommit(a.prog) && !a.prog[0].DropThumb? && !a.prog[0].DropFailed?
    ensures HoldingsOk(a.(prog := a.prog[1..]))
  {
  }

  /** The running actor either has more to do or has just run its last instruction. */
  lemma PoppedAny(a: Actor)
    requires a.prog != [] && HoldingsOk(a) && !a.prog[0].DropThumb? && !a.prog[0].DropFailed?
    requires |a.prog| == 1 ==> !InCommit(a.prog)
    ensures HoldingsOk(a.(prog := a.prog[1..]))
    ensures Committing(a.prog[1..]) ==> Committing(a.prog)
  {
    if |a.prog| > 1 {
      Popped(a);
    } else {
      PoppedLast(a);
    }
  }

  /** A step that moves the program of actor `i` on and at most touches the temporaries. */
  lemma AsideStep(s: State, i: nat, w: World, prog: seq<Instr>)
    requires Inv(s) && i < |s.actors| && w == s.w.(temps := w.temps)
    requires ActorOk(w, i, s.actors[i].(prog := prog))
    ensures Inv(State(w, s.actors[i := s.actors[i].(prog := prog)]))
  {
    var a := s.actors[i].(prog := prog);
    SameHoldings(s.w.leases, s.actors, i, a);
    FrameDisk(s, i, w, a);
  }

  /** A step that only moves the program of actor `i` on. */
  lemma ProgramStep(s: State, i: nat, prog: seq<Instr>)
    requires Inv(s) && i < |s.actors|
    requires ActorOk(s.w, i, s.actors[i].(prog := prog))
    ensures Inv(State(s.w, s.actors[i := s.actors[i].(prog := prog)]))
  {
    AsideStep(s, i, s.w, prog);
  }

  lemma AcquireStep(s: State, i: nat, c: Choice)
    requires Before(s, i) && s.actors[i].prog[0].Acquire?
    requires Enabled(s.w, s.actors[i], c)
    ensures Inv(After(s, i, c))
  {
    var a := s.actors[i];
    assert ActorOk(s.w, i, a);
    var w, after := s.w.(lock := Some(i)), a.(prog := a.prog[1..]);
    EnteredIsInside(s.w.db, s.w.synced, IdentityOf(a), a.prog[1..]);
    PoppedAny(a);
    SameHoldings(s.w.leases, s.actors, i, after);
    FrameDisk(s, i, w, after);
  }

  lemma ReleaseStep(s: State, i: nat, c: Choice)
    requires Before(s, i) && s.actors[i].prog[0].Release?
    ensures Inv(After(s, i, c))
  {
    var a := s.actors[i];
    assert ActorOk(s.w, i, a);
    var w, after := s.w.(lock := None), a.(prog := a.prog[1..]);
    PoppedAny(a);
    SameHoldings(s.w.leases, s.actors, i, after);
    FrameDisk(s, i, w, after);
  }

  // --------------------------------------------------------------- writing

  lemma TakenPart(a: Actor, p: Part, after: Actor)
    requires after == a.(parts := a.parts + [p], writing := after.writing, prog := after.prog)
    ensures forall x: string :: HeldBy(after, x) == HeldBy(a, x) + if x == p.digest then 1 else 0
  {
    forall x: string
      ensures HeldBy(after, x) == HeldBy(a, x) + if x == p.digest then 1 else 0
    {
      PartTaken(a.parts, p, x);
    }
  }

  /** A part's write ends one of three ways, and the draft is idle again or about to give its lease back. */
  lemma WrittenOk(w: World, i: nat, a: Actor, p: Part, unremoved: bool)
    requires ActorOk(w, i, a) && a.prog != [] && a.prog[0].FinishPart? && Acceptable(p)
    ensures w.lock != Some(i) && a.failed.None? && a.thumb.None?
    ensures ActorOk(w, i, a.(writing := false, prog := []))
    ensures ActorOk(w, i, a.(failed := Some(p.digest), prog := [DropFailed]))
    ensures ActorOk(Published(w, p.digest, unremoved), i, a.(parts := a.parts + [p], writing := false, prog := []))
  {
    assert a.prog == [a.prog[0]];
    assert Outside([DropFailed]) && Outside([]);
  }

  lemma FinishPartStep(s: State, i: nat, c: Choice)
    requires Before(s, i) && s.actors[i].prog[0].FinishPart?
    requires Enabled(s.w, s.actors[i], c)
    ensures Inv(After(s, i, c))
  {
    var a := s.actors[i];
    assert ActorOk(s.w, i, a);
    var r := Exec(s.w, i, a, c);
    WrittenOk(s.w, i, a, c.part, c.unremoved);
    if c.fault {
      SameHoldings(s.w.leases, s.actors, i, r.1);
      WorldAside(s.w, r.0, i, r.1);
    } else if c.unpublished {
      LeaseTaken(s.w.leases, s.actors, i, r.1, c.part.digest);
      WorldAside(s.w, r.0, i, r.1);
    } else {
      TakenPart(a, c.part, r.1);
      LeaseTaken(s.w.leases, s.actors, i, r.1, c.part.digest);
    }
    FrameDisk(s, i, r.0, r.1);
  }

  /** Leases and temporaries are no part of where an actor stands. */
  lemma WorldAside(w: World, v: World, i: nat, a: Actor)
    requires ActorOk(w, i, a) && v == w.(leases := v.leases, temps := v.temps)
    ensures ActorOk(v, i, a)
  {
  }

  lemma DropFailedShape(parts: seq<Part>)
    ensures Outside([DropFailed] + DiscardCode(parts)) && !InCommit([DropFailed] + DiscardCode(parts))
  {
    DiscardShape(parts);
    LastOfDiscard(parts);
    assert ([DropFailed] + DiscardCode(parts))[1..] == DiscardCode(parts);
  }

  lemma ThumbLostStep(s: State, i: nat, c: Choice)
    requires Before(s, i) && s.actors[i].prog[0].FinishThumb?
    requires Enabled(s.w, s.actors[i], c)
    requires c.fault || c.unpublished
    ensures Inv(After(s, i, c))
  {
    var a := s.actors[i];
    assert ActorOk(s.w, i, a);
    var r := Exec(s.w, i, a, c);
    assert a.failed.None? && a.prog == [a.prog[0]] && a.thumb.None?;
    DiscardShape(a.parts);
    LastOfDiscard(a.parts);
    DropFailedShape(a.parts);
    if c.fault {
      SameHoldings(s.w.leases, s.actors, i, r.1);
    } else {
      LeaseTaken(s.w.leases, s.actors, i, r.1, c.part.digest);
    }
    FrameDisk(s, i, r.0, r.1);
  }

  lemma ThumbHeldOk(w: World, i: nat, a: Actor, p: Part, last: Instr, unremoved: bool)
    requires ActorOk(w, i, a) && |a.prog| == 1 && a.prog[0].FinishThumb? && w.lock != Some(i)
    requires last.TouchAgain? && last.facts.thumb == Some(p)
    ensures ActorOk(Published(w, p.digest, unremoved), i,
                    a.(thumb := Some(p), writing := false, prog := [Acquire, last]))
  {
    LookingAgainNext(last);
  }

  lemma ThumbPublishedStep(s: State, i: nat, c: Choice)
    requires Before(s, i) && s.actors[i].prog[0].FinishThumb?
    requires Enabled(s.w, s.actors[i], c)
    requires !c.fault && !c.unpublished
    ensures Inv(After(s, i, c))
  {
    var a := s.actors[i];
    assert ActorOk(s.w, i, a);
    assert a.failed.None? && a.prog == [a.prog[0]] && a.thumb.None?;
    var last := TouchAgain(a.prog[0].at, c.facts.(thumb := Some(c.part)));
    var after := a.(thumb := Some(c.part), writing := false, prog := [Acquire, last]);
    var w := Published(s.w, c.part.digest, c.unremoved);
    ThumbHeldOk(s.w, i, a, c.part, last, c.unremoved);
    LeaseTaken(s.w.leases, s.actors, i, after, c.part.digest);
    FrameDisk(s, i, w, after);
  }

  // -------------------------------------------------------------- dropping

  lemma FirstPartDropped(a: Actor, after: Actor)
    requires a.parts != [] && after == a.(parts := a.parts[1..], prog := after.prog)
    ensures forall x: string :: HeldBy(a, x) == HeldBy(after, x) + if x == a.parts[0].digest then 1 else 0
    ensures forall p <- after.parts :: p in a.parts
  {
    forall x: string
      ensures HeldBy(a, x) == HeldBy(after, x) + if x == a.parts[0].digest then 1 else 0
    {
      PartDropped(a.parts, x);
    }
  }

  lemma DropPartStep(s: State, i: nat, c: Choice)
    requires Before(s, i) && s.actors[i].prog[0].DropPart?
    ensures Inv(After(s, i, c))
  {
    var a := s.actors[i];
    var r := Exec(s.w, i, a, c);
    PartDroppedOk(s.w, i, a, c);
    if a.parts != [] {
      FirstPartDropped(a, r.1);
      LeaseDropped(s.w.leases, s.actors, i, r.1, a.parts[0].digest);
    } else {
      SameHoldings(s.w.leases, s.actors, i, r.1);
    }
    FrameDisk(s, i, r.0, r.1);
  }

  lemma PartDroppedOk(w: World, i: nat, a: Actor, c: Choice)
    requires ActorOk(w, i, a) && a.prog != [] && a.prog[0].DropPart?
    ensures var r := Exec(w, i, a, c);
      && ActorOk(r.0, i, r.1)
      && r.1 == a.(parts := if a.parts == [] then [] else a.parts[1..], prog := a.prog[1..])
      && r.0 == w.(leases := if a.parts == [] then w.leases else Unleased(w.leases, a.parts[0].digest))
  {
    assert DropPart in a.prog;
    PoppedAny(a);
    assert a.parts != [] ==> forall p <- a.parts[1..] :: p in a.parts;
  }

  lemma DroppedThumb(a: Actor)
    requires a.prog != [] && HoldingsOk(a) && a.prog[0].DropThumb?
    ensures HoldingsOk(a.(thumb := None, prog := a.prog[1..]))
    ensures Committing(a.prog[1..]) ==> Committing(a.prog)
    ensures a.thumb.None? ==> a.(thumb := None) == a
  {
    assert DropThumb in a.prog && a.prog == [a.prog[0]] + a.prog[1..];
  }

  lemma DropThumbStep(s: State, i: nat, c: Choice)
    requires Before(s, i) && s.actors[i].prog[0].DropThumb?
    ensures Inv(After(s, i, c))
  {
    var a := s.actors[i];
    var r := Exec(s.w, i, a, c);
    ThumbDroppedOk(s.w, i, a, c);
    if a.thumb.Some? {
      LeaseDropped(s.w.leases, s.actors, i, r.1, a.thumb.value.digest);
    } else {
      SameHoldings(s.w.leases, s.actors, i, r.1);
    }
    FrameDisk(s, i, r.0, r.1);
  }

  lemma ThumbDroppedOk(w: World, i: nat, a: Actor, c: Choice)
    requires ActorOk(w, i, a) && a.prog != [] && a.prog[0].DropThumb?
    ensures var r := Exec(w, i, a, c);
      && ActorOk(r.0, i, r.1) && r.1 == a.(thumb := None, prog := a.prog[1..])
      && r.0 == w.(leases := if a.thumb.None? then w.leases else Unleased(w.leases, a.thumb.value.digest))
  {
    DroppedThumb(a);
  }

  lemma PoppedFailed(a: Actor)
    requires a.prog != [] && HoldingsOk(a) && a.prog[0].DropFailed?
    ensures HoldingsOk(a.(failed := None, writing := false, prog := a.prog[1..]))
    ensures Committing(a.prog[1..]) ==> Committing(a.prog)
  {
    assert a.prog == [a.prog[0]] + a.prog[1..];
  }

  lemma DropFailedStep(s: State, i: nat, c: Choice)
    requires Before(s, i) && s.actors[i].prog[0].DropFailed?
    ensures Inv(After(s, i, c))
  {
    var a := s.actors[i];
    assert ActorOk(s.w, i, a);
    var r := Exec(s.w, i, a, c);
    PoppedFailed(a);
    if a.failed.Some? {
      LeaseDropped(s.w.leases, s.actors, i, r.1, a.failed.value);
    } else {
      SameHoldings(s.w.leases, s.actors, i, r.1);
    }
    FrameDisk(s, i, r.0, r.1);
  }

  // --------------------------------------------------------------- commit

  /** The frame of a statement under the lock that only changes the tables. */
  lemma FrameDb(s: State, i: nat, db: Db, prog: seq<Instr>)
    requires Inv(s) && i < |s.actors| && s.w.lock == Some(i)
    requires DbOk(db) && db.blobs.Keys <= s.w.files && PinsDurable(db, s.w.synced)
    requires ActorOk(s.w.(db := db), i, s.actors[i].(prog := prog))
    ensures Inv(State(s.w.(db := db), s.actors[i := s.actors[i].(prog := prog)]))
  {
    var a := s.actors[i].(prog := prog);
    SameHoldings(s.w.leases, s.actors, i, a);
    Frame(s, i, s.w.(db := db), a);
  }

  /** A lock holder whose program goes on to release is fine over any tables. */
  lemma LeavingOk(w: World, i: nat, a: Actor, prog: seq<Instr>)
    requires w.lock == Some(i) && HoldsFiles(w.files, a)
    requires Entering(prog) && !InCommit(prog) && HoldingsOk(a.(prog := prog))
    ensures ActorOk(w, i, a.(prog := prog))
  {
    EnteredIsInside(w.db, w.synced, IdentityOf(a), prog);
  }

  /** An identity already known only moves its entry's timestamp, whatever comes next. */
  lemma TouchedStep(s: State, i: nat, at: int, prog: seq<Instr>)
    requires Inv(s) && i < |s.actors| && s.w.lock == Some(i)
    requires ActorOk(s.w.(db := Touched(s.w.db, IdentityOf(s.actors[i]), at)), i, s.actors[i].(prog := prog))
    ensures var db := Touched(s.w.db, IdentityOf(s.actors[i]), at);
      Inv(State(s.w.(db := db), s.actors[i := s.actors[i].(prog := prog)]))
  {
    TouchedOk(s.w.db, IdentityOf(s.actors[i]), at, s.w.synced);
    FrameDb(s, i, Touched(s.w.db, IdentityOf(s.actors[i]), at), prog);
  }

  /** The first lock hold of a commit is over: the draft goes back to the session and is discarded. */
  lemma EndedStep(s: State, i: nat)
    requires Inv(s) && i < |s.actors| && s.w.lock == Some(i)
    requires |s.actors[i].prog| == 1 && s.actors[i].prog[0].TouchFirst?
    ensures var a := s.actors[i];
      Inv(State(s.w, s.actors[i := a.(prog := [Release] + DiscardCode(a.parts))]))
  {
    var a := s.actors[i];
    assert ActorOk(s.w, i, a);
    ReleaseThenDiscardShape(a.parts);
    LastOfDiscard(a.parts);
    LeavingOk(s.w, i, a, [Release] + DiscardCode(a.parts));
    ProgramStep(s, i, [Release] + DiscardCode(a.parts));
  }

  lemma FoundStep(s: State, i: nat)
    requires Inv(s) && i < |s.actors| && s.w.lock == Some(i)
    requires |s.actors[i].prog| == 1 && s.actors[i].prog[0].TouchFirst?
    ensures var a := s.actors[i];
      var db := Touched(s.w.db, IdentityOf(a), a.prog[0].at);
      Inv(State(s.w.(db := db), s.actors[i := a.(prog := [Release, Reply])]))
  {
    var a := s.actors[i];
    AnsweringOk(s.w.(db := Touched(s.w.db, IdentityOf(a), a.prog[0].at)), s.w, i, a);
    TouchedStep(s, i, a.prog[0].at, [Release, Reply]);
  }

  lemma AnsweringOk(w: World, before: World, i: nat, a: Actor)
    requires ActorOk(before, i, a) && before.lock == Some(i)
    requires w.files == before.files && w.lock == before.lock
    requires |a.prog| == 1 && a.prog[0].TouchFirst?
    ensures ActorOk(w, i, a.(prog := [Release, Reply]))
  {
    assert [Release, Reply][1..] == [Reply] && Outside([Reply]);
    LeavingOk(w, i, a, [Release, Reply]);
  }

  lemma MissedStep(s: State, i: nat)
    requires Inv(s) && i < |s.actors| && s.w.lock == Some(i)
    requires |s.actors[i].prog| == 1 && s.actors[i].prog[0].TouchFirst?
    ensures var a := s.actors[i];
      Inv(State(s.w, s.actors[i := a.(prog := [Release, Derive(a.prog[0].at)])]))
  {
    var a := s.actors[i];
    assert ActorOk(s.w, i, a);
    DerivingNext(a.prog[0].at);
    ProgramStep(s, i, [Release, Derive(a.prog[0].at)]);
  }

  lemma DerivingNext(at: int)
    ensures Entering([Release, Derive(at)])
  {
    assert [Release, Derive(at)][1..] == [Derive(at)];
    assert Outside([Derive(at)]);
  }

  lemma LookingAgainNext(x: Instr)
    requires x.TouchFirst? || x.TouchAgain?
    ensures Outside([Acquire, x])
  {
    assert [Acquire, x][1..] == [x];
    assert Entering([x]);
  }

  /** A statement of a commit that decides what follows. */
  predicate Looks(h: Instr) {
    h.TouchFirst? || h.TouchAgain? || h.InsertRow? || h.Evict?
  }

  /** One of the other mutators' statements that decide what follows. */
  predicate Mutating(h: Instr) {
    h.RemoveRow? || h.ClearRows? || h.ExpireRows? || h.StartPin? || h.Scan?
  }

  lemma LooksInside(db: Db, synced: set<string>, identity: string, prog: seq<Instr>)
    requires prog != [] && Looks(prog[0])
    ensures !Outside(prog)
    ensures Inside(db, synced, identity, prog) ==> prog == [prog[0]]
  {
  }

  lemma MutatesInside(db: Db, synced: set<string>, identity: string, prog: seq<Instr>)
    requires prog != [] && Mutating(prog[0])
    ensures !Outside(prog)
    ensures Inside(db, synced, identity, prog) ==> prog == [prog[0]]
  {
  }

  /** An actor at the last instruction of its program has no lease of a failed publication. */
  lemma NothingFailedHere(a: Actor)
    requires HoldingsOk(a) && a.prog != [] && !a.prog[0].DropFailed?
    ensures a.failed.None?
  {
  }

  lemma MutatorsHoldNothing(a: Actor)
    requires HoldingsOk(a) && a.prog != [] && a.prog == [a.prog[0]] && Mutating(a.prog[0])
    ensures a.thumb.None?
  {
  }

  /** What an actor's standing says about its program and its holdings. */
  lemma StandsSo(w: World, i: nat, a: Actor)
    requires ActorOk(w, i, a)
    ensures HoldingsOk(a)
    ensures if w.lock == Some(i) then Inside(w.db, w.synced, IdentityOf(a), a.prog) else Outside(a.prog)
  {
  }

  /** The lock holder's program ends with the statement that decides what follows. */
  lemma Deciding(s: State, i: nat)
    requires Inv(s) && i < |s.actors| && s.actors[i].prog != []
    requires Looks(s.actors[i].prog[0]) || Mutating(s.actors[i].prog[0])
    ensures s.w.lock == Some(i) && s.actors[i].prog == [s.actors[i].prog[0]]
    ensures s.actors[i].failed.None?
    ensures Mutating(s.actors[i].prog[0]) ==> s.actors[i].thumb.None?
  {
    DecidesAlone(s.w, i, s.actors[i]);
  }

  lemma DecidesAlone(w: World, i: nat, a: Actor)
    requires ActorOk(w, i, a) && a.prog != [] && (Looks(a.prog[0]) || Mutating(a.prog[0]))
    ensures w.lock == Some(i) && a.prog == [a.prog[0]] && a.failed.None?
    ensures Mutating(a.prog[0]) ==> a.thumb.None?
  {
    StandsSo(w, i, a);
    NothingFailedHere(a);
    if Looks(a.prog[0]) {
      LooksInside(w.db, w.synced, IdentityOf(a), a.prog);
    } else {
      MutatesInside(w.db, w.synced, IdentityOf(a), a.prog);
      MutatorsHoldNothing(a);
    }
  }

  lemma TouchFirstStep(s: State, i: nat, c: Choice)
    requires Before(s, i) && s.actors[i].prog[0].TouchFirst?
    ensures Inv(After(s, i, c))
  {
    Deciding(s, i);
    if c.fault {
      EndedStep(s, i);
    } else if FindIdentity(s.w.db.entries, IdentityOf(s.actors[i])).Some? {
      FoundStep(s, i);
    } else {
      MissedStep(s, i);
    }
  }

  lemma DeriveStep(s: State, i: nat, c: Choice)
    requires Before(s, i) && s.actors[i].prog[0].Derive?
    ensures Inv(After(s, i, c))
  {
    var r := Exec(s.w, i, s.actors[i], c);
    DerivedOk(s.w, i, s.actors[i], c);
    SameHoldings(s.w.leases, s.actors, i, r.1);
    FrameDisk(s, i, r.0, r.1);
  }

  /** Deriving touches no table and no lease, and leaves the commit in good order with or without a thumbnail. */
  lemma DerivedOk(w: World, i: nat, a: Actor, c: Choice)
    requires ActorOk(w, i, a) && a.prog != [] && a.prog[0].Derive?
    ensures var r := Exec(w, i, a, c);
      && ActorOk(r.0, i, r.1) && r.0 == w.(temps := r.0.temps)
      && r.1 == a.(writing := r.1.writing, prog := r.1.prog)
  {
    assert a.prog == [a.prog[0]];
    DiscardShape(a.parts);
    LastOfDiscard(a.parts);
    LookingAgainNext(TouchAgain(a.prog[0].at, c.facts.(thumb := None)));
  }

  lemma FailedCommitStep(s: State, i: nat)
    requires Inv(s) && i < |s.actors| && s.w.lock == Some(i) && s.actors[i].failed.None?
    ensures Inv(State(s.w, s.actors[i := s.actors[i].(prog := FailedCommitCode(s.actors[i]))]))
  {
    var a := s.actors[i];
    assert ActorOk(s.w, i, a);
    FailedCommitShape(a);
    if a.thumb.Some? {
      assert FailedCommitCode(a)[1] == DropThumb;
    }
    LeavingOk(s.w, i, a, FailedCommitCode(a));
    ProgramStep(s, i, FailedCommitCode(a));
  }

  lemma FoundAgainStep(s: State, i: nat)
    requires Inv(s) && i < |s.actors| && s.w.lock == Some(i)
    requires |s.actors[i].prog| == 1 && s.actors[i].prog[0].TouchAgain?
    ensures var a := s.actors[i];
      var db := Touched(s.w.db, IdentityOf(a), a.prog[0].at);
      Inv(State(s.w.(db := db), s.actors[i := a.(prog := [Evict])]))
  {
    assert ActorOk(s.w, i, s.actors[i]);
    TouchedStep(s, i, s.actors[i].prog[0].at, [Evict]);
  }

  lemma MissedAgainStep(s: State, i: nat)
    requires Inv(s) && i < |s.actors| && s.w.lock == Some(i)
    requires |s.actors[i].prog| == 1 && s.actors[i].prog[0].TouchAgain?
    requires FindIdentity(s.w.db.entries, IdentityOf(s.actors[i])).None?
    ensures var a := s.actors[i];
      Inv(State(s.w, s.actors[i := a.(prog := [InsertRow(a.prog[0].at, a.prog[0].facts)])]))
  {
    var a := s.actors[i];
    assert ActorOk(s.w, i, a);
    InsertingOk(s.w, i, a);
    ProgramStep(s, i, [InsertRow(a.prog[0].at, a.prog[0].facts)]);
  }

  lemma InsertingOk(w: World, i: nat, a: Actor)
    requires ActorOk(w, i, a) && w.lock == Some(i)
    requires |a.prog| == 1 && a.prog[0].TouchAgain?
    requires FindIdentity(w.db.entries, IdentityOf(a)).None?
    ensures ActorOk(w, i, a.(prog := [InsertRow(a.prog[0].at, a.prog[0].facts)]))
  {
  }

  lemma TouchAgainStep(s: State, i: nat, c: Choice)
    requires Before(s, i) && s.actors[i].prog[0].TouchAgain?
    ensures Inv(After(s, i, c))
  {
    Deciding(s, i);
    if c.fault {
      FailedCommitStep(s, i);
    } else if FindIdentity(s.w.db.entries, IdentityOf(s.actors[i])).Some? {
      FoundAgainStep(s, i);
    } else {
      MissedAgainStep(s, i);
    }
  }

  /** Nothing an insert names is missing: the draft and the thumbnail hold leases on all of it. */
  lemma InsertedFiles(s: State, i: nat, at: int, facts: Facts)
    requires Inv(s) && i < |s.actors|
    requires s.actors[i].prog == [InsertRow(at, facts)]
    ensures var a := s.actors[i];
      Inserted(s.w.db, IdentityOf(a), a.parts, facts, at).blobs.Keys <= s.w.files
  {
    var a := s.actors[i];
    assert ActorOk(s.w, i, a);
    ReferencedKeys(s.w.db.blobs, a.parts + ThumbParts(facts));
  }

  lemma InsertedStep(s: State, i: nat)
    requires Inv(s) && i < |s.actors| && s.w.lock == Some(i)
    requires |s.actors[i].prog| == 1 && s.actors[i].prog[0].InsertRow? && DistinctMimes(s.actors[i].parts)
    ensures var a := s.actors[i];
      var db := Inserted(s.w.db, IdentityOf(a), a.parts, a.prog[0].facts, a.prog[0].at);
      Inv(State(s.w.(db := db), s.actors[i := a.(prog := [Evict])]))
  {
    var a := s.actors[i];
    assert ActorOk(s.w, i, a);
    var at, facts := a.prog[0].at, a.prog[0].facts;
    var db := Inserted(s.w.db, IdentityOf(a), a.parts, facts, at);
    InsertedOk(s.w.db, a.parts, facts, at, s.w.synced);
    InsertedFiles(s, i, at, facts);
    RecordedOk(s.w, i, a, db);
    FrameDb(s, i, db, [Evict]);
  }

  lemma RecordedOk(w: World, i: nat, a: Actor, db: Db)
    requires ActorOk(w, i, a) && w.lock == Some(i) && |a.prog| == 1 && a.prog[0].InsertRow?
    ensures ActorOk(w.(db := db), i, a.(prog := [Evict]))
  {
  }

  lemma InsertingIsNew(w: World, i: nat, a: Actor)
    requires ActorOk(w, i, a) && a.prog != [] && a.prog[0].InsertRow?
    ensures w.lock == Some(i) && FindIdentity(w.db.entries, IdentityOf(a)).None?
  {
  }

  lemma InsertRowStep(s: State, i: nat, c: Choice)
    requires Before(s, i) && s.actors[i].prog[0].InsertRow?
    ensures Inv(After(s, i, c))
  {
    Deciding(s, i);
    if c.fault || !DistinctMimes(s.actors[i].parts) {
      FailedCommitStep(s, i);
    } else {
      InsertedStep(s, i);
    }
  }

  /** A deletion under the lock, whose program then releases and sweeps. */
  lemma DeletedStep(s: State, i: nat, gone: set<int>, prog: seq<Instr>)
    requires Inv(s) && i < |s.actors| && s.w.lock == Some(i)
    requires Entering(prog) && !InCommit(prog) && HoldingsOk(s.actors[i].(prog := prog))
    ensures Inv(State(s.w.(db := Without(s.w.db, gone)), s.actors[i := s.actors[i].(prog := prog)]))
  {
    var db := Without(s.w.db, gone);
    WithoutOk(s.w.db, gone, s.w.synced);
    assert ActorOk(s.w, i, s.actors[i]);
    LeavingOk(s.w.(db := db), i, s.actors[i], prog);
    FrameDb(s, i, db, prog);
  }

  lemma EvictedStep(s: State, i: nat, gone: set<int>, orphaned: seq<string>)
    requires Inv(s) && i < |s.actors| && s.w.lock == Some(i)
    requires |s.actors[i].prog| == 1 && s.actors[i].prog[0].Evict?
    ensures var a := s.actors[i];
      Inv(State(s.w.(db := Without(s.w.db, gone)), s.actors[i := a.(prog := FinishedCommitCode(a, orphaned))]))
  {
    var a := s.actors[i];
    assert ActorOk(s.w, i, a);
    var prog := FinishedCommitCode(a, orphaned);
    FinishedCommitShape(a, orphaned);
    if a.thumb.Some? {
      assert prog[1] == DropThumb;
    }
    DeletedStep(s, i, gone, prog);
  }

  lemma EvictStep(s: State, i: nat, c: Choice)
    requires Before(s, i) && s.actors[i].prog[0].Evict?
    ensures Inv(After(s, i, c))
  {
    Deciding(s, i);
    if c.fault {
      FailedCommitStep(s, i);
    } else {
      EvictedStep(s, i, ToSet(c.removed), c.orphaned);
    }
  }

  /** The draft is discarded, or only its leases go; either way the archive's invariant does not depend on the peer. */
  lemma ReplyOk(w: World, i: nat, a: Actor)
    requires ActorOk(w, i, a) && a.prog != [] && a.prog[0].Reply?
    ensures ActorOk(w, i, a.(prog := DiscardCode(a.parts)))
    ensures ActorOk(w, i, a.(prog := DropLeases(|a.parts|)))
  {
    assert a.prog == [a.prog[0]];
    DiscardShape(a.parts);
    LastOfDiscard(a.parts);
    DropsShape(|a.parts|, []);
    assert DropLeases(|a.parts|) + [] == DropLeases(|a.parts|);
  }

  lemma ReplyRuns(w: World, i: nat, a: Actor, c: Choice)
    requires a.prog != [] && a.prog[0].Reply?
    ensures Exec(w, i, a, c) == (w, a.(prog := if c.unheard then DropLeases(|a.parts|) else DiscardCode(a.parts)))
  {
  }

  lemma ReplyStep(s: State, i: nat, c: Choice)
    requires Before(s, i) && s.actors[i].prog[0].Reply?
    ensures Inv(After(s, i, c))
  {
    ReplyRuns(s.w, i, s.actors[i], c);
    ReplyOk(s.w, i, s.actors[i]);
    ProgramStep(s, i, if c.unheard then DropLeases(|s.actors[i].parts|) else DiscardCode(s.actors[i].parts));
  }

  // ----------------------------------------------------------- collection

  lemma BlobsAreReferenced(db: Db, d: string)
    requires Valid(db) && !(d in db.blobs && db.blobs[d].refs > 0)
    ensures d !in db.blobs
  {
  }

  /** A collection step that leaves everything where it is. */
  lemma SkippedStep(s: State, i: nat)
    requires Inv(s) && i < |s.actors| && s.actors[i].prog != []
    requires s.actors[i].prog[0].Check? || s.actors[i].prog[0].Unlink?
    ensures Inv(State(s.w, s.actors[i := s.actors[i].(prog := s.actors[i].prog[1..])]))
  {
    var a := s.actors[i];
    assert ActorOk(s.w, i, a);
    SkippingOk(s.w, i, a);
    ProgramStep(s, i, a.prog[1..]);
  }

  lemma SkippingOk(w: World, i: nat, a: Actor)
    requires ActorOk(w, i, a) && a.prog != [] && (a.prog[0].Check? || a.prog[0].Unlink?)
    ensures w.lock == Some(i) && |a.prog| > 1
    ensures ActorOk(w, i, a.(prog := a.prog[1..]))
  {
    var d, rest := a.prog[0].digest, a.prog[1..];
    assert w.lock == Some(i) && Inside(w.db, w.synced - {d}, IdentityOf(a), rest);
    Popped(a);
    MoreSynced(w.db, w.synced - {d}, w.synced, IdentityOf(a), rest);
  }

  lemma CondemnedStep(s: State, i: nat)
    requires Inv(s) && i < |s.actors| && s.actors[i].prog != []
    requires s.actors[i].prog[0].Check?
    requires var d := s.actors[i].prog[0].digest; !(d in s.w.db.blobs && s.w.db.blobs[d].refs > 0)
    ensures var a := s.actors[i];
      Inv(State(s.w, s.actors[i := a.(prog := [Unlink(a.prog[0].digest)] + a.prog[1..])]))
  {
    var a := s.actors[i];
    assert ActorOk(s.w, i, a);
    BlobsAreReferenced(s.w.db, a.prog[0].digest);
    CondemningOk(s.w, i, a);
    ProgramStep(s, i, [Unlink(a.prog[0].digest)] + a.prog[1..]);
  }

  lemma CondemningOk(w: World, i: nat, a: Actor)
    requires ActorOk(w, i, a) && a.prog != [] && a.prog[0].Check? && a.prog[0].digest !in w.db.blobs
    ensures ActorOk(w, i, a.(prog := [Unlink(a.prog[0].digest)] + a.prog[1..]))
  {
    var d, rest := a.prog[0].digest, a.prog[1..];
    var prog := [Unlink(d)] + rest;
    SkippingOk(w, i, a);
    UnlinkHead(a, d);
    assert prog[0] == Unlink(d) && prog[1..] == rest;
    assert Inside(w.db, w.synced, IdentityOf(a), prog);
  }

  lemma CheckRuns(w: World, i: nat, a: Actor, c: Choice)
    requires a.prog != [] && a.prog[0].Check?
    ensures var d, rest := a.prog[0].digest, a.prog[1..];
      Exec(w, i, a, c) ==
        if c.fault || (d in w.db.blobs && w.db.blobs[d].refs > 0) then (w, a.(prog := rest))
        else (w, a.(prog := [Unlink(d)] + rest))
  {
  }

  lemma CheckStep(s: State, i: nat, c: Choice)
    requires Before(s, i) && s.actors[i].prog[0].Check?
    ensures Inv(After(s, i, c))
  {
    var d := s.actors[i].prog[0].digest;
    CheckRuns(s.w, i, s.actors[i], c);
    if c.fault || (d in s.w.db.blobs && s.w.db.blobs[d].refs > 0) {
      SkippedStep(s, i);
    } else {
      CondemnedStep(s, i);
    }
  }

  lemma UnlinkHead(a: Actor, d: string)
    requires |a.prog| > 1 && a.prog[0].Check? && HoldingsOk(a)
    ensures ([Unlink(d)] + a.prog[1..])[1..] == a.prog[1..]
    ensures HoldingsOk(a.(prog := [Unlink(d)] + a.prog[1..]))
    ensures Committing([Unlink(d)] + a.prog[1..]) == Committing(a.prog)
  {
    assert a.prog == [a.prog[0]] + a.prog[1..];
  }

  lemma UnlinkRuns(w: World, i: nat, a: Actor, c: Choice)
    requires a.prog != [] && a.prog[0].Unlink?
    ensures var d, after := a.prog[0].digest, a.(prog := a.prog[1..]);
      Exec(w, i, a, c) ==
        if c.fault || d in w.leases then (w, after)
        else (w.(files := w.files - {d}, synced := w.synced - {d}), after)
  {
  }

  /** The file goes only when no row names it and no lease is on it, both still true at this step. */
  lemma UnlinkStep(s: State, i: nat, c: Choice)
    requires Before(s, i) && s.actors[i].prog[0].Unlink?
    ensures Inv(After(s, i, c))
  {
    var a := s.actors[i];
    UnlinkRuns(s.w, i, a, c);
    if c.fault || a.prog[0].digest in s.w.leases {
      SkippedStep(s, i);
    } else {
      assert ActorOk(s.w, i, a);
      SkippingOk(s.w, i, a);
      UnlinkedStep(s, i);
    }
  }

  lemma PinsSurviveUnlink(db: Db, synced: set<string>, d: string)
    requires Valid(db) && PinsDurable(db, synced) && d !in db.blobs
    ensures PinsDurable(db, synced - {d})
  {
    forall e <- db.entries | e.pinned
      ensures forall x <- DigestsOf(db, e.id) :: x in synced - {d}
    {
      forall x <- DigestsOf(db, e.id)
        ensures x in synced - {d}
      {
        NamedHasBlob(db, e.id, x);
      }
    }
  }

  lemma UnlinkedStep(s: State, i: nat)
    requires Inv(s) && i < |s.actors| && s.w.lock == Some(i)
    requires |s.actors[i].prog| > 1 && s.actors[i].prog[0].Unlink? && s.actors[i].prog[0].digest !in s.w.leases
    ensures var a := s.actors[i];
      var d := a.prog[0].digest;
      Inv(State(s.w.(files := s.w.files - {d}, synced := s.w.synced - {d}), s.actors[i := a.(prog := a.prog[1..])]))
  {
    var a := s.actors[i];
    assert ActorOk(s.w, i, a);
    var d, after := a.prog[0].digest, a.(prog := a.prog[1..]);
    var w := s.w.(files := s.w.files - {d}, synced := s.w.synced - {d});
    Popped(a);
    SameHoldings(s.w.leases, s.actors, i, after);
    PinsSurviveUnlink(s.w.db, s.w.synced, d);
    assert Held(s.actors, d) == 0;
    KeepsFiles(s, i, w.files);
    assert ActorOk(w, i, after);
    Frame(s, i, w, after);
  }

  // ------------------------------------------------------- other mutators

  /** Nothing to do, or the statement failed: the lock is released and that is all. */
  lemma GivenUpStep(s: State, i: nat)
    requires Inv(s) && i < |s.actors| && s.w.lock == Some(i)
    requires s.actors[i].thumb.None? && s.actors[i].failed.None?
    ensures Inv(State(s.w, s.actors[i := s.actors[i].(prog := [Release])]))
  {
    var a := s.actors[i];
    assert ActorOk(s.w, i, a);
    LeavingOk(s.w, i, a, [Release]);
    ProgramStep(s, i, [Release]);
  }

  lemma RemovedStep(s: State, i: nat, gone: set<int>, orphaned: seq<string>)
    requires Inv(s) && i < |s.actors| && s.w.lock == Some(i)
    requires s.actors[i].thumb.None? && s.actors[i].failed.None?
    ensures var a := s.actors[i];
      Inv(State(s.w.(db := Without(s.w.db, gone)), s.actors[i := a.(prog := [Release] + SweepCode(orphaned))]))
  {
    ReleaseThenSweepShape(orphaned);
    DeletedStep(s, i, gone, [Release] + SweepCode(orphaned));
  }

  lemma RemoveRuns(w: World, i: nat, a: Actor, c: Choice)
    requires a.prog != [] && a.prog[0].RemoveRow?
    ensures var id := a.prog[0].id;
      Exec(w, i, a, c) ==
        if c.fault || Find(w.db.entries, id).None? then (w, a.(prog := [Release]))
        else (w.(db := Without(w.db, {id})), a.(prog := [Release] + SweepCode(c.orphaned)))
  {
  }

  lemma RemoveStep(s: State, i: nat, c: Choice)
    requires Before(s, i) && s.actors[i].prog[0].RemoveRow?
    ensures Inv(After(s, i, c))
  {
    Deciding(s, i);
    var a := s.actors[i];
    var id := a.prog[0].id;
    RemoveRuns(s.w, i, a, c);
    if c.fault || Find(s.w.db.entries, id).None? {
      GivenUpStep(s, i);
    } else {
      RemovedStep(s, i, {id}, c.orphaned);
    }
  }

  lemma ClearRuns(w: World, i: nat, a: Actor, c: Choice)
    requires a.prog != [] && a.prog[0].ClearRows?
    ensures Exec(w, i, a, c) ==
      if c.fault then (w, a.(prog := [Release]))
      else (w.(db := Without(w.db, EligibleIds(w.db.entries, None))), a.(prog := [Release] + SweepCode(c.orphaned)))
  {
  }

  lemma ClearStep(s: State, i: nat, c: Choice)
    requires Before(s, i) && s.actors[i].prog[0].ClearRows?
    ensures Inv(After(s, i, c))
  {
    Deciding(s, i);
    ClearRuns(s.w, i, s.actors[i], c);
    if c.fault {
      GivenUpStep(s, i);
    } else {
      RemovedStep(s, i, EligibleIds(s.w.db.entries, None), c.orphaned);
    }
  }

  lemma ExpireRuns(w: World, i: nat, a: Actor, c: Choice)
    requires a.prog != [] && a.prog[0].ExpireRows?
    ensures Exec(w, i, a, c) ==
      if c.fault then (w, a.(prog := [Release]))
      else (w.(db := Without(w.db, ToSet(c.removed))), a.(prog := [Release] + SweepCode(c.orphaned)))
  {
  }

  lemma ExpireStep(s: State, i: nat, c: Choice)
    requires Before(s, i) && s.actors[i].prog[0].ExpireRows?
    ensures Inv(After(s, i, c))
  {
    Deciding(s, i);
    var a := s.actors[i];
    ExpireRuns(s.w, i, a, c);
    if c.fault {
      GivenUpStep(s, i);
    } else {
      RemovedStep(s, i, ToSet(c.removed), c.orphaned);
    }
  }

  lemma StartPinRuns(w: World, i: nat, a: Actor, c: Choice)
    requires a.prog != [] && a.prog[0].StartPin?
    ensures var id, on := a.prog[0].id, a.prog[0].on;
      Exec(w, i, a, c) ==
        if c.fault || (on && Find(w.db.entries, id).None?) then (w, a.(prog := [Release]))
        else if on then (w, a.(prog := Syncs(DigestsOf(w.db, id)) + [SetPin(id, true), Release]))
        else (w, a.(prog := [SetPin(id, false), Release]))
  {
    assert [] + [SetPin(a.prog[0].id, false), Release] == [SetPin(a.prog[0].id, false), Release];
  }

  lemma StartPinStep(s: State, i: nat, c: Choice)
    requires Before(s, i) && s.actors[i].prog[0].StartPin?
    ensures Inv(After(s, i, c))
  {
    Deciding(s, i);
    var a := s.actors[i];
    var id, on := a.prog[0].id, a.prog[0].on;
    StartPinRuns(s.w, i, a, c);
    if c.fault || (on && Find(s.w.db.entries, id).None?) {
      GivenUpStep(s, i);
    } else if on {
      PinProgramOk(s.w, i, a, id);
      ProgramStep(s, i, Syncs(DigestsOf(s.w.db, id)) + [SetPin(id, true), Release]);
    } else {
      UnpinProgramOk(s.w, i, a, id);
      ProgramStep(s, i, [SetPin(id, false), Release]);
    }
  }

  lemma UnpinProgramOk(w: World, i: nat, a: Actor, id: int)
    requires ActorOk(w, i, a) && w.lock == Some(i) && a.thumb.None? && a.failed.None?
    ensures ActorOk(w, i, a.(prog := [SetPin(id, false), Release]))
  {
    assert [SetPin(id, false), Release][1..] == [Release];
  }

  lemma PinProgramOk(w: World, i: nat, a: Actor, id: int)
    requires ActorOk(w, i, a) && w.lock == Some(i) && a.thumb.None? && a.failed.None?
    ensures ActorOk(w, i, a.(prog := Syncs(DigestsOf(w.db, id)) + [SetPin(id, true), Release]))
  {
    var prog := Syncs(DigestsOf(w.db, id)) + [SetPin(id, true), Release];
    SyncsShape(w.db, w.synced, id, DigestsOf(w.db, id));
    assert prog[|prog| - 1] == Release;
  }

  lemma PinningAlone(s: State, i: nat)
    requires Inv(s) && i < |s.actors| && s.actors[i].prog != []
    requires s.actors[i].prog[0].Sync? || s.actors[i].prog[0].SetPin?
    ensures s.w.lock == Some(i) && Pinning(s.w.db, s.w.synced, s.actors[i].prog) && |s.actors[i].prog| > 1
    ensures s.actors[i].thumb.None? && s.actors[i].failed.None?
  {
    assert ActorOk(s.w, i, s.actors[i]);
    PinningOnly(s.w.db, s.w.synced, s.actors[i].prog);
  }

  lemma SyncStep(s: State, i: nat, c: Choice)
    requires Before(s, i) && s.actors[i].prog[0].Sync?
    ensures Inv(After(s, i, c))
  {
    PinningAlone(s, i);
    if c.fault || s.actors[i].prog[0].digest !in s.w.files {
      GivenUpStep(s, i);
    } else {
      SyncedStep(s, i);
    }
  }

  lemma SyncKeepsPins(db: Db, synced: set<string>, d: string)
    requires PinsDurable(db, synced)
    ensures PinsDurable(db, synced + {d})
  {
  }

  lemma SyncedStep(s: State, i: nat)
    requires Inv(s) && i < |s.actors| && s.w.lock == Some(i)
    requires |s.actors[i].prog| > 1 && s.actors[i].prog[0].Sync? && s.actors[i].prog[0].digest in s.w.files
    ensures var a := s.actors[i];
      Inv(State(s.w.(synced := s.w.synced + {a.prog[0].digest}), s.actors[i := a.(prog := a.prog[1..])]))
  {
    var a := s.actors[i];
    assert ActorOk(s.w, i, a);
    var w, after := s.w.(synced := s.w.synced + {a.prog[0].digest}), a.(prog := a.prog[1..]);
    SyncingOk(s.w, i, a);
    SameHoldings(s.w.leases, s.actors, i, after);
    SyncKeepsPins(s.w.db, s.w.synced, a.prog[0].digest);
    Frame(s, i, w, after);
  }

  lemma SyncingOk(w: World, i: nat, a: Actor)
    requires ActorOk(w, i, a) && w.lock == Some(i)
    requires |a.prog| > 1 && a.prog[0].Sync?
    ensures ActorOk(w.(synced := w.synced + {a.prog[0].digest}), i, a.(prog := a.prog[1..]))
  {
    var synced, rest := w.synced + {a.prog[0].digest}, a.prog[1..];
    Popped(a);
    assert Pinning(w.db, synced, rest) && (rest[0].Sync? || rest[0].SetPin?);
  }

  lemma PinWrittenStep(s: State, i: nat)
    requires Inv(s) && i < |s.actors| && s.w.lock == Some(i)
    requires |s.actors[i].prog| > 1 && s.actors[i].prog[0].SetPin?
    requires Pinning(s.w.db, s.w.synced, s.actors[i].prog)
    requires s.actors[i].thumb.None? && s.actors[i].failed.None?
    ensures var a := s.actors[i];
      Inv(State(s.w.(db := Pinned(s.w.db, a.prog[0].id, a.prog[0].on)), s.actors[i := a.(prog := [Release])]))
  {
    var a := s.actors[i];
    assert ActorOk(s.w, i, a);
    var db := Pinned(s.w.db, a.prog[0].id, a.prog[0].on);
    PinnedOk(s.w.db, a.prog[0].id, a.prog[0].on, s.w.synced);
    LeavingOk(s.w.(db := db), i, a, [Release]);
    FrameDb(s, i, db, [Release]);
  }

  lemma SetPinStep(s: State, i: nat, c: Choice)
    requires Before(s, i) && s.actors[i].prog[0].SetPin?
    ensures Inv(After(s, i, c))
  {
    PinningAlone(s, i);
    if c.fault {
      GivenUpStep(s, i);
    } else {
      PinWrittenStep(s, i);
    }
  }

  lemma SweptOk(w: World, i: nat, a: Actor, temps: Temps)
    requires ActorOk(w, i, a) && a.prog != [] && a.prog[0].SweepIncoming?
    ensures ActorOk(w.(temps := temps), i, a)
    ensures ActorOk(w.(temps := temps), i, a.(prog := a.prog[1..]))
  {
    PoppedAny(a);
  }

  lemma SweepIncomingStep(s: State, i: nat, c: Choice)
    requires Before(s, i) && s.actors[i].prog[0].SweepIncoming?
    ensures Inv(After(s, i, c))
  {
    var a, temps := s.actors[i], Swept(s.w.temps, c.left);
    SweptOk(s.w, i, a, temps);
    AsideStep(s, i, s.w.(temps := temps), if c.fault then a.prog else a.prog[1..]);
  }

  lemma ScanRuns(w: World, i: nat, a: Actor, c: Choice)
    requires a.prog != [] && a.prog[0].Scan?
    ensures Exec(w, i, a, c) ==
      if c.fault then (w, a.(prog := [Release]))
      else (w, a.(prog := Unlinks(Unknown(c.listing, w.db.blobs)) + [Release]))
  {
  }

  lemma ScanStep(s: State, i: nat, c: Choice)
    requires Before(s, i) && s.actors[i].prog[0].Scan?
    ensures Inv(After(s, i, c))
  {
    Deciding(s, i);
    ScanRuns(s.w, i, s.actors[i], c);
    if c.fault {
      GivenUpStep(s, i);
    } else {
      ScannedStep(s, i, Unknown(c.listing, s.w.db.blobs));
    }
  }

  lemma ScannedStep(s: State, i: nat, stale: seq<string>)
    requires Inv(s) && i < |s.actors| && s.w.lock == Some(i)
    requires s.actors[i].thumb.None? && s.actors[i].failed.None?
    requires forall d <- stale :: d !in s.w.db.blobs
    ensures Inv(State(s.w, s.actors[i := s.actors[i].(prog := Unlinks(stale) + [Release])]))
  {
    ScannedOk(s.w, i, s.actors[i], stale);
    ProgramStep(s, i, Unlinks(stale) + [Release]);
  }

  lemma ScannedOk(w: World, i: nat, a: Actor, stale: seq<string>)
    requires ActorOk(w, i, a) && w.lock == Some(i) && a.thumb.None? && a.failed.None?
    requires forall d <- stale :: d !in w.db.blobs
    ensures ActorOk(w, i, a.(prog := Unlinks(stale) + [Release]))
  {
    UnlinksShape(w.db, w.synced, IdentityOf(a), stale);
    EndsReleased(Unlinks(stale), [Release]);
  }

  /** Every instruction of every actor keeps the invariant, whether its calls succeed or fail. */
  lemma RunKeepsInv(s: State, i: nat, c: Choice, s': State)
    requires Inv(s) && Run(s, i, c, s')
    ensures Inv(s')
  {
    match s.actors[i].prog[0]
    case Acquire => AcquireStep(s, i, c);
    case Release => ReleaseStep(s, i, c);
    case FinishPart(_) => FinishPartStep(s, i, c);
    case FinishThumb(_) =>
      if c.fault || c.unpublished {
        ThumbLostStep(s, i, c);
      } else {
        ThumbPublishedStep(s, i, c);
      }
    case DropFailed => DropFailedStep(s, i, c);
    case TouchFirst(_) => TouchFirstStep(s, i, c);
    case Derive(_) => DeriveStep(s, i, c);
    case TouchAgain(_, _) => TouchAgainStep(s, i, c);
    case InsertRow(_, _) => InsertRowStep(s, i, c);
    case Evict => EvictStep(s, i, c);
    case Reply => ReplyStep(s, i, c);
    case DropThumb => DropThumbStep(s, i, c);
    case DropPart => DropPartStep(s, i, c);
    case Check(_) => CheckStep(s, i, c);
    case Unlink(_) => UnlinkStep(s, i, c);
    case RemoveRow(_) => RemoveStep(s, i, c);
    case ClearRows => ClearStep(s, i, c);
    case ExpireRows(_, _) => ExpireStep(s, i, c);
    case StartPin(_, _) => StartPinStep(s, i, c);
    case Sync(_) => SyncStep(s, i, c);
    case SetPin(_, _) => SetPinStep(s, i, c);
    case SweepIncoming => SweepIncomingStep(s, i, c);
    case Scan => ScanStep(s, i, c);
  }
}
