/**
  Runs from a first start that end where the general theorems do not reach.

  One draft offers a picture. Its thumbnail is published, and the entry would
  take more than the whole budget, so the commit evicts what it has just
  recorded. The runs differ in one thing each: the picture comes with a second
  one under the same mime, the eviction fails, the process dies before it, or
  the peer is gone before the reply. No other call fails in any of them.
*/
module ArchiveExample {
  import opened Wrappers
  import opened Tables
  import opened TableLemmas
  import opened Ages
  import opened Identity
  import opened Secrets
  import opened Archive
  import opened ArchiveSafety
  import opened ArchiveSteps
  import opened ArchiveRuns
  import opened ArchiveLeaks
  import opened ArchiveBudget

  const IMAGE := "image/png"
  const PICTURE := Part(IMAGE, seq(64, i => '0'), 4000)
  const THUMB := Part(IMAGE, seq(64, i => '1'), 1500)
  const SECOND := Part(IMAGE, seq(64, i => '2'), 100)
  const FACTS := Facts(Image, None, Some(640), Some(480), Some(THUMB), None, None)
  const CHOICE := Choice(false, false, false, 0, false, true, PICTURE, FACTS, [], [], [])
  const BUDGET := 5000
  const START := World(EMPTY, {}, {}, Temps(0, 0), map[], None, BUDGET)
  const IDLE := STARTUP.(prog := [])

  /** One draft beside the finished startup pass. */
  function With(w: World, a: Actor): State {
    State(w, [IDLE, a])
  }

  // ----------------------------------------------------------- one step on

  lemma Advance(s: State, s': State)
    requires Reachable(s) && Next(s, s')
    ensures Reachable(s')
  {
    var states: seq<State>, budget: int :| IsRun(states, budget) && states[|states| - 1] == s;
    assert IsRun(states + [s'], budget);
  }

  lemma AdvanceBy(s: State, i: nat, c: Choice, s': State)
    requires Reachable(s) && Run(s, i, c, s')
    ensures Reachable(s')
  {
    Advance(s, s');
  }

  /** The draft runs the head of its program, which only concerns the lock. */
  lemma Locking(w: World, a: Actor, rest: seq<Instr>)
    requires Reachable(With(w, a))
    requires (a.prog == [Acquire] + rest && w.lock.None?) || a.prog == [Release] + rest
    ensures Reachable(With(w.(lock := if a.prog[0].Acquire? then Some(1) else None), a.(prog := rest)))
  {
    assert a.prog[1..] == rest;
    AdvanceBy(With(w, a), 1, CHOICE, With(w.(lock := if a.prog[0].Acquire? then Some(1) else None), a.(prog := rest)));
  }

  // ---------------------------------------------------- the runs in common

  lemma Started()
    ensures Reachable(State(START, [IDLE]))
  {
    var s := Boot(BUDGET);
    assert IsRun([s], BUDGET);
    assert Reachable(s) by { assert [s][0] == s; }
    assert STARTUP.prog[1..] == [Acquire, Scan] && [Acquire, Scan][1..] == [Scan];
    var s1 := State(START, [STARTUP.(prog := [Acquire, Scan])]);
    AdvanceBy(s, 0, CHOICE, s1);
    var s2 := State(START.(lock := Some(0)), [STARTUP.(prog := [Scan])]);
    AdvanceBy(s1, 0, CHOICE, s2);
    assert ToSet<string>([]) == {} && Unlinks([]) + [Release] == [Release];
    var s3 := State(START.(lock := Some(0)), [STARTUP.(prog := [Release])]);
    AdvanceBy(s2, 0, CHOICE, s3);
    assert [Release][1..] == [] && s3.actors[0 := IDLE] == [IDLE];
    assert START.(lock := Some(0)).(lock := None) == START;
    AdvanceBy(s3, 0, CHOICE, State(START, [IDLE]));
  }

  lemma DigestsDiffer()
    ensures ValidMime(IMAGE) && !IsSensitive(IMAGE)
    ensures IsDigest(PICTURE.digest) && IsDigest(THUMB.digest) && IsDigest(SECOND.digest)
    ensures PICTURE.digest != THUMB.digest && PICTURE.digest != SECOND.digest && SECOND.digest != THUMB.digest
  {
    assert PICTURE.digest[0] != THUMB.digest[0] && PICTURE.digest[0] != SECOND.digest[0];
    assert SECOND.digest[0] != THUMB.digest[0];
  }

  /** The world once `p` has been published for the draft. */
  function Holding(w: World, p: Part): World {
    w.(files := w.files + {p.digest}, leases := Leased(w.leases, p.digest))
  }

  lemma PartSent(w: World, parts: seq<Part>, p: Part)
    requires w.lock.None? && w.temps == Temps(0, 0) && p.mime == IMAGE && IsDigest(p.digest)
    requires Reachable(With(w, DRAFT.(parts := parts)))
    ensures Reachable(With(Holding(w, p), DRAFT.(parts := parts + [p])))
  {
    DigestsDiffer();
    var s := With(w, DRAFT.(parts := parts));
    var s1 := With(w.(temps := Temps(1, 0)), DRAFT.(parts := parts, writing := true, prog := [FinishPart(IMAGE)]));
    assert BeginPart(s, 1, IMAGE, s1);
    Advance(s, s1);
    AdvanceBy(s1, 1, CHOICE.(part := p), With(Holding(w, p), DRAFT.(parts := parts + [p])));
  }

  lemma PictureSent()
    ensures Reachable(With(Holding(START, PICTURE), DRAFT.(parts := [PICTURE])))
  {
    Started();
    DigestsDiffer();
    assert Spawn(State(START, [IDLE]), DRAFT, With(START, DRAFT)) by {
      assert [IDLE] + [DRAFT] == [IDLE, DRAFT];
    }
    Advance(State(START, [IDLE]), With(START, DRAFT));
    assert DRAFT.(parts := []) == DRAFT && [] + [PICTURE] == [PICTURE];
    PartSent(START, [], PICTURE);
  }

  /** The first half of a commit: nothing known, and the lock given up to derive a thumbnail. */
  lemma HalfCommitted(w: World, parts: seq<Part>)
    requires w.lock.None? && w.db == EMPTY && parts != [] && TotalOf(parts) <= w.budget
    requires forall p <- parts :: p.mime == IMAGE
    requires Reachable(With(w, DRAFT.(parts := parts)))
    ensures Reachable(With(w, DRAFT.(parts := parts, prog := [Derive(0)])))
  {
    DigestsDiffer();
    var a := DRAFT.(parts := parts);
    var s := With(w, a.(prog := [Acquire, TouchFirst(0)]));
    assert BeginCommit(With(w, a), 1, 0, s);
    Advance(With(w, a), s);
    assert [Acquire, TouchFirst(0)] == [Acquire] + [TouchFirst(0)];
    Locking(w, s.actors[1], [TouchFirst(0)]);
    var s1 := With(w.(lock := Some(1)), a.(prog := [TouchFirst(0)]));
    var s2 := With(w.(lock := Some(1)), a.(prog := [Release, Derive(0)]));
    AdvanceBy(s1, 1, CHOICE, s2);
    assert [Release, Derive(0)] == [Release] + [Derive(0)] && w.(lock := None) == w;
    Locking(w.(lock := Some(1)), s2.actors[1], [Derive(0)]);
  }

  lemma ThumbnailPublished(w: World, parts: seq<Part>)
    requires w.temps == Temps(0, 0)
    requires Reachable(With(w, DRAFT.(parts := parts, prog := [Derive(0)])))
    ensures Reachable(With(Holding(w, THUMB),
                           DRAFT.(parts := parts, thumb := Some(THUMB), prog := [Acquire, TouchAgain(0, FACTS)])))
  {
    DigestsDiffer();
    var a := DRAFT.(parts := parts);
    var s := With(w.(temps := Temps(1, 0)), a.(writing := true, prog := [FinishThumb(0)]));
    AdvanceBy(With(w, a.(prog := [Derive(0)])), 1, CHOICE, s);
    assert FACTS.(thumb := Some(THUMB)) == FACTS;
    AdvanceBy(s, 1, CHOICE.(part := THUMB),
              With(Holding(w, THUMB), a.(thumb := Some(THUMB), prog := [Acquire, TouchAgain(0, FACTS)])));
  }

  /** The second half, up to the insert. */
  lemma Inserting(w: World, parts: seq<Part>)
    requires w.lock.None? && w.db == EMPTY && w.temps == Temps(0, 0) && parts != [] && TotalOf(parts) <= w.budget
    requires forall p <- parts :: p.mime == IMAGE
    requires Reachable(With(w, DRAFT.(parts := parts)))
    ensures Reachable(With(Holding(w, THUMB).(lock := Some(1)),
                           DRAFT.(parts := parts, thumb := Some(THUMB), prog := [InsertRow(0, FACTS)])))
  {
    HalfCommitted(w, parts);
    ThumbnailPublished(w, parts);
    var b := DRAFT.(parts := parts, thumb := Some(THUMB));
    assert [Acquire, TouchAgain(0, FACTS)] == [Acquire] + [TouchAgain(0, FACTS)];
    Locking(Holding(w, THUMB), b.(prog := [Acquire, TouchAgain(0, FACTS)]), [TouchAgain(0, FACTS)]);
    var held := Holding(w, THUMB).(lock := Some(1));
    AdvanceBy(With(held, b.(prog := [TouchAgain(0, FACTS)])), 1, CHOICE, With(held, b.(prog := [InsertRow(0, FACTS)])));
  }

  // ------------------------------------------------------ a refused insert

  const TWO := [PICTURE, SECOND]
  const BOTH := Holding(Holding(Holding(START, PICTURE), SECOND), THUMB)
  const AFTER := BOTH.(leases := Unleased(BOTH.leases, THUMB.digest))

  lemma Refused()
    ensures Reachable(With(BOTH.(lock := Some(1)),
                           DRAFT.(parts := TWO, thumb := Some(THUMB), prog := [InsertRow(0, FACTS)])))
  {
    PictureSent();
    DigestsDiffer();
    PartSent(Holding(START, PICTURE), [PICTURE], SECOND);
    assert [PICTURE] + [SECOND] == TWO;
    assert TotalOf(TWO) == 4100 by {
      assert TWO[..1] == [PICTURE] && TWO[..1][..0] == [];
      assert TotalOf(TWO[..1]) == 4000;
    }
    Inserting(Holding(Holding(START, PICTURE), SECOND), TWO);
  }

  /** The thumbnail's file is on the disk, no row names it, no one holds it and no sweep will look at it. */
  lemma ARefusedInsertStrandsItsThumbnail()
    ensures Reachable(With(AFTER, DRAFT.(parts := TWO, prog := DiscardCode(TWO))))
    ensures !NoLeak(With(AFTER, DRAFT.(parts := TWO, prog := DiscardCode(TWO))))
  {
    Refused();
    DigestsDiffer();
    var a := DRAFT.(parts := TWO, thumb := Some(THUMB));
    assert !DistinctMimes(TWO) by { assert TWO[0].mime == TWO[1].mime; }
    var rest := [DropThumb] + DiscardCode(TWO);
    Regroup([Release], [DropThumb], DiscardCode(TWO));
    AdvanceBy(With(BOTH.(lock := Some(1)), a.(prog := [InsertRow(0, FACTS)])), 1, CHOICE,
              With(BOTH.(lock := Some(1)), a.(prog := [Release] + rest)));
    Locking(BOTH.(lock := Some(1)), a.(prog := [Release] + rest), rest);
    assert BOTH.(lock := None) == BOTH;
    ThumbnailLet(a.(prog := rest), DiscardCode(TWO));
    ThumbnailForgotten();
  }

  lemma ThumbnailLet(a: Actor, rest: seq<Instr>)
    requires Reachable(With(BOTH, a)) && a.prog == [DropThumb] + rest && a.thumb == Some(THUMB)
    ensures Reachable(With(AFTER, a.(thumb := None, prog := rest)))
  {
    assert a.prog[1..] == rest;
    AdvanceBy(With(BOTH, a), 1, CHOICE, With(AFTER, a.(thumb := None, prog := rest)));
  }

  lemma ThumbnailForgotten()
    ensures !NoLeak(With(AFTER, DRAFT.(parts := TWO, prog := DiscardCode(TWO))))
  {
    var s, d := With(AFTER, DRAFT.(parts := TWO, prog := DiscardCode(TWO))), THUMB.digest;
    DigestsDiffer();
    DiscardChecks(TWO, d);
    DiscardOnlyChecks(TWO);
    assert DigestsOfParts(TWO) == [PICTURE.digest, SECOND.digest];
    CountInMeans(DigestsOfParts(TWO), d);
    assert !Kept(s.w.db, s.actors, d);
  }

  // ------------------------------------------------------------ over budget

  const SHOWN := DRAFT.(parts := [PICTURE], thumb := Some(THUMB))
  const FULL := Holding(Holding(START, PICTURE), THUMB)
  const RECORDED := Inserted(EMPTY, Encoded([PICTURE]), [PICTURE], FACTS, 0)

  lemma RecordedBlobs()
    ensures RECORDED.blobs == map[PICTURE.digest := BlobRow(4000, 1), THUMB.digest := BlobRow(1500, 1)]
    ensures Used(RECORDED) == 5500
  {
    DigestsDiffer();
    var both := [PICTURE] + ThumbParts(FACTS);
    assert both == [PICTURE, THUMB] && both[..1] == [PICTURE] && [PICTURE][..0] == [];
    assert ReferenceAll(map[], [PICTURE]) == map[PICTURE.digest := BlobRow(4000, 1)];
    var blobs := RECORDED.blobs;
    SumOfRest(blobs, PICTURE.digest);
    SumOfRest(blobs - {PICTURE.digest}, THUMB.digest);
    assert blobs - {PICTURE.digest} - {THUMB.digest} == map[];
  }

  /** The entry and its thumbnail are recorded, and nothing has been evicted yet. */
  lemma NotYetEvicted()
    ensures Reachable(With(FULL.(db := RECORDED, lock := Some(1)), SHOWN.(prog := [Evict])))
  {
    PictureSent();
    assert TotalOf([PICTURE]) == 4000 by { assert [PICTURE][..0] == []; }
    Inserting(Holding(START, PICTURE), [PICTURE]);
    assert IdentityOf(SHOWN) == Encoded([PICTURE]);
    AdvanceBy(With(FULL.(lock := Some(1)), SHOWN.(prog := [InsertRow(0, FACTS)])), 1, CHOICE,
              With(FULL.(db := RECORDED, lock := Some(1)), SHOWN.(prog := [Evict])));
  }

  /** An eviction whose transaction fails: the lock is free and the archive holds more than its budget. */
  lemma AFailedEvictionExceedsTheBudget()
    ensures exists s :: Reachable(s) && s.w.lock.None? && Used(s.w.db) > s.w.budget
  {
    NotYetEvicted();
    RecordedBlobs();
    var w := FULL.(db := RECORDED, lock := Some(1));
    var rest := [DropThumb] + DiscardCode([PICTURE]);
    assert FailedCommitCode(SHOWN) == [Release] + rest;
    AdvanceBy(With(w, SHOWN.(prog := [Evict])), 1, CHOICE.(fault := true), With(w, SHOWN.(prog := [Release] + rest)));
    Locking(w, SHOWN.(prog := [Release] + rest), rest);
    assert Used(With(w.(lock := None), SHOWN.(prog := rest)).w.db) > BUDGET;
  }

  /** A process that dies between the two transactions: so does the daemon that starts next. */
  lemma ACrashBeforeEvictionExceedsTheBudget()
    ensures exists s :: Reachable(s) && s.actors == [STARTUP] && s.w.lock.None? && Used(s.w.db) > s.w.budget
  {
    NotYetEvicted();
    RecordedBlobs();
    var s := With(FULL.(db := RECORDED, lock := Some(1)), SHOWN.(prog := [Evict]));
    var s' := State(s.w.(leases := map[], lock := None), [STARTUP]);
    assert Crash(s, s');
    Advance(s, s');
    assert Used(s'.w.db) > BUDGET;
  }

  // ---------------------------------------------------------- a lost reply

  lemma NothingIsLeft()
    ensures Without(RECORDED, {1}) == EMPTY
  {
    var row := RowOf(1, Encoded([PICTURE]), [PICTURE], FACTS, 0);
    assert RECORDED.entries == [row] && [row][..0] == [];
    assert DropEntries([row], {1}) == [];
    var p := PartRow(1, IMAGE, PICTURE.digest, 4000);
    assert RECORDED.parts == [p] && [p][..0] == [];
    assert DropParts([p], {1}) == [];
    assert forall d: string :: Refs([], [], d) == 0;
  }

  /** The new entry is the only one to evict, and its thumbnail is what makes it too large. */
  lemma EvictsItself()
    ensures EvictsTo(RECORDED, BUDGET, [1])
  {
    RecordedBlobs();
    NothingIsLeft();
    InsertedKeepsValid(EMPTY, Encoded([PICTURE]), [PICTURE], FACTS, 0);
    WithoutNothing(RECORDED);
    OnlyRowIsOldest(RowOf(1, Encoded([PICTURE]), [PICTURE], FACTS, 0));
    assert [1][..0] == [] && ToSet([1]) == {1} && ToSet<int>([]) == {};
    assert Used(EMPTY) == 0;
  }

  lemma OnlyRowIsOldest(row: EntryRow)
    requires !row.pinned
    ensures OldestFirst([row], None, [row.id])
  {
    assert [row.id][..0] == [] && ToSet<int>([]) == {};
    assert row in [row] && IsOldest([row], None, {}, row.id);
  }

  lemma OrphansItself()
    ensures Orphans(RECORDED, {1}, [PICTURE.digest, THUMB.digest])
  {
    DigestsDiffer();
    RecordedBlobs();
    NothingIsLeft();
    assert ToSet([PICTURE.digest, THUMB.digest]) == {PICTURE.digest, THUMB.digest};
  }

  /** A sweep looks at one digest no row names: its file goes unless it is leased. */
  lemma Looked(w: World, a: Actor, d: string, rest: seq<Instr>)
    requires Reachable(With(w, a)) && a.prog == [Check(d)] + rest && d !in w.db.blobs
    ensures Reachable(With(if d in w.leases then w else w.(files := w.files - {d}, synced := w.synced - {d}),
                           a.(prog := rest)))
  {
    assert a.prog[1..] == rest;
    var b := a.(prog := [Unlink(d)] + rest);
    AdvanceBy(With(w, a), 1, CHOICE, With(w, b));
    assert b.prog[1..] == rest;
    AdvanceBy(With(w, b), 1, CHOICE,
              With(if d in w.leases then w else w.(files := w.files - {d}, synced := w.synced - {d}),
                   a.(prog := rest)));
  }

  const ASKED := SweepCode([THUMB.digest]) + [Reply]
  const LEFT := Holding(START, PICTURE)

  lemma FinishedProgram(orphaned: seq<string>)
    ensures FinishedCommitCode(SHOWN, orphaned) == [Release] + ([DropThumb] + (SweepCode(orphaned) + ASKED))
  {
    assert DropThumbCode(SHOWN.thumb) == [DropThumb] && SweepThumbCode(SHOWN.thumb) == SweepCode([THUMB.digest]);
    RegroupFive([Release], [DropThumb], SweepCode(orphaned), SweepCode([THUMB.digest]), [Reply]);
  }

  lemma EvictAdvances(w: World, a: Actor, c: Choice)
    requires Reachable(With(w, a)) && a.prog == [Evict] && !c.fault
    requires EvictsTo(w.db, w.budget, c.removed) && Orphans(w.db, ToSet(c.removed), c.orphaned)
    ensures Reachable(With(w.(db := Without(w.db, ToSet(c.removed))), a.(prog := FinishedCommitCode(a, c.orphaned))))
  {
    AdvanceBy(With(w, a), 1, c,
              With(w.(db := Without(w.db, ToSet(c.removed))), a.(prog := FinishedCommitCode(a, c.orphaned))));
  }

  lemma EvictedItself()
    ensures Reachable(With(FULL, SHOWN.(prog := [DropThumb] + (SweepCode([PICTURE.digest, THUMB.digest]) + ASKED))))
  {
    NotYetEvicted();
    var orphaned := [PICTURE.digest, THUMB.digest];
    var rest := [DropThumb] + (SweepCode(orphaned) + ASKED);
    var w := FULL.(lock := Some(1));
    EvictsItself();
    OrphansItself();
    assert ToSet([1]) == {1};
    EvictAdvances(w.(db := RECORDED), SHOWN.(prog := [Evict]), CHOICE.(removed := [1], orphaned := orphaned));
    NothingIsLeft();
    FinishedProgram(orphaned);
    assert w.(lock := None) == FULL;
    Locking(w, SHOWN.(prog := [Release] + rest), rest);
  }

  lemma CheckFirst(d: string, ds: seq<string>, rest: seq<Instr>)
    ensures SweepCode([d] + ds) + rest == [Acquire] + ([Check(d)] + (Checks(ds) + ([Release] + rest)))
  {
    assert Checks([d] + ds) == [Check(d)] + Checks(ds);
  }

  /** The sweep of what eviction orphaned takes the thumbnail and leaves the picture, which the draft still holds. */
  lemma ThumbnailSwept()
    ensures Reachable(With(LEFT, DRAFT.(parts := [PICTURE], prog := ASKED)))
  {
    EvictedItself();
    DigestsDiffer();
    var a := DRAFT.(parts := [PICTURE]);
    var p, t := PICTURE.digest, THUMB.digest;
    var after := [Check(t)] + ([Release] + ASKED);
    var sweep := [Acquire] + ([Check(p)] + after);
    CheckFirst(p, [t], ASKED);
    assert [p] + [t] == [p, t] && Checks([t]) == [Check(t)];
    assert ([DropThumb] + sweep)[1..] == sweep;
    var w := FULL.(leases := LEFT.leases);
    assert Unleased(FULL.leases, t) == LEFT.leases;
    AdvanceBy(With(FULL, SHOWN.(prog := [DropThumb] + sweep)), 1, CHOICE, With(w, a.(prog := sweep)));
    Locking(w, a.(prog := sweep), [Check(p)] + after);
    var held := w.(lock := Some(1));
    Looked(held, a.(prog := [Check(p)] + after), p, after);
    Looked(held, a.(prog := after), t, [Release] + ASKED);
    var left := held.(files := held.files - {t}, synced := held.synced - {t});
    assert left.(lock := None) == LEFT;
    Locking(left, a.(prog := [Release] + ASKED), ASKED);
  }

  lemma AskedForReply()
    ensures Reachable(With(LEFT, DRAFT.(parts := [PICTURE], prog := [Reply])))
  {
    ThumbnailSwept();
    DigestsDiffer();
    var a, t := DRAFT.(parts := [PICTURE]), THUMB.digest;
    CheckFirst(t, [], [Reply]);
    assert [t] + [] == [t] && Checks([]) + ([Release] + [Reply]) == [Release] + [Reply];
    Locking(LEFT, a.(prog := ASKED), [Check(t)] + ([Release] + [Reply]));
    var held := LEFT.(lock := Some(1));
    Looked(held, a.(prog := [Check(t)] + ([Release] + [Reply])), t, [Release] + [Reply]);
    assert held.(files := held.files - {t}, synced := held.synced - {t}) == held && held.(lock := None) == LEFT;
    Locking(held, a.(prog := [Release] + [Reply]), [Reply]);
  }

  const GONE := DRAFT.(parts := [])

  /** The peer has gone before it is told that its entry was not kept: the picture stays on the disk. */
  lemma ALostReplyStrandsADraft()
    ensures Reachable(With(LEFT.(leases := map[]), GONE)) && Quiet(With(LEFT.(leases := map[]), GONE))
    ensures !NoLeak(With(LEFT.(leases := map[]), GONE))
  {
    AskedForReply();
    var a := DRAFT.(parts := [PICTURE]);
    assert DropLeases(1) == [DropPart] && [DropPart][1..] == [] && [PICTURE][1..] == [];
    AdvanceBy(With(LEFT, a.(prog := [Reply])), 1, CHOICE.(unheard := true), With(LEFT, a.(prog := [DropPart])));
    assert Unleased(LEFT.leases, PICTURE.digest) == map[];
    var s := With(LEFT.(leases := map[]), GONE);
    AdvanceBy(With(LEFT, a.(prog := [DropPart])), 1, CHOICE, s);
    assert PICTURE.digest in s.w.files && !Kept(s.w.db, s.actors, PICTURE.digest);
  }
}
