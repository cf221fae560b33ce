/**
  Nothing leaks: while no call fails, every blob file is named by a row, held
  by a lease, or listed in a sweep some actor still has to finish.

  Two paths of a commit break this though no file or database call fails. An
  insert refused for a repeated mime drops the thumbnail's lease and sweeps
  only the representations. A reply to a commit that the peer is no longer
  there for drops the draft's leases and sweeps nothing. `RefusedInsertLeaks`
  and `LostReplyLeaks` say exactly when they leave a file behind.
*/
module ArchiveLeaks {
  import opened Wrappers
  import opened Tables
  import opened TableLemmas
  import opened Ages
  import opened Secrets
  import opened Archive
  import opened ArchiveSafety
  import opened ArchiveSteps
  import opened ArchiveRuns

  /** The actor's program will still look at `d`, or at every file there is. */
  predicate Pending(a: Actor, d: string) {
    Check(d) in a.prog || Unlink(d) in a.prog || Scan in a.prog
  }

  ghost predicate Kept(db: Db, actors: seq<Actor>, d: string) {
    d in db.blobs || exists j | 0 <= j < |actors| :: HeldBy(actors[j], d) > 0 || Pending(actors[j], d)
  }

  ghost predicate NoLeak(s: State) {
    forall d <- s.w.files :: Kept(s.w.db, s.actors, d)
  }

  /** What follows the last `mark` in a program. */
  function Past(prog: seq<Instr>, mark: Instr): seq<Instr> {
    if mark in prog then Past(prog[1..], mark) else prog
  }

  /** Whatever a program gives up, it sweeps afterwards. */
  predicate SweepsAfter(a: Actor) {
    && a.failed.None?
    && (DropPart in a.prog ==> forall p <- a.parts :: Check(p.digest) in Past(a.prog, DropPart))
    && (a.thumb.Some? && DropThumb in a.prog ==> Check(a.thumb.value.digest) in Past(a.prog, DropThumb))
  }

  ghost predicate LeakFree(s: State) {
    NoLeak(s) && forall i | 0 <= i < |s.actors| :: SweepsAfter(s.actors[i])
  }

  // ------------------------------------------------------------- programs

  lemma {:induction false} PastKeeps(pre: seq<Instr>, tail: seq<Instr>, mark: Instr, x: Instr)
    requires mark !in tail && x in tail
    ensures x in Past(pre + tail, mark)
  {
    if pre == [] {
      assert pre + tail == tail;
    } else {
      PastKeeps(pre[1..], tail, mark, x);
      assert (pre + tail)[1..] == pre[1..] + tail;
      if mark !in pre + tail {
        assert x in pre + tail;
      }
    }
  }

  lemma {:induction false} PastIsTail(prog: seq<Instr>, mark: Instr, x: Instr)
    requires x in Past(prog, mark)
    ensures x in prog && (mark in prog ==> x in prog[1..])
  {
    if mark in prog {
      PastIsTail(prog[1..], mark, x);
    }
  }

  /** Running the head of a program never loses a sweep the actor still owes. */
  lemma PoppedSweeps(a: Actor, b: Actor)
    requires SweepsAfter(a) && a.prog != []
    requires b.prog == a.prog[1..] && b.failed.None?
    requires forall p <- b.parts :: p in a.parts
    requires b.thumb == a.thumb || b.thumb.None?
    ensures SweepsAfter(b)
  {
    assert a.prog == [a.prog[0]] + a.prog[1..];
  }

  lemma SweepHolds(ds: seq<string>, d: string)
    requires d in ds
    ensures Check(d) in SweepCode(ds)
  {
    var k :| 0 <= k < |ds| && ds[k] == d;
    assert SweepCode(ds)[k + 1] == Checks(ds)[k];
  }

  lemma DigestListed(parts: seq<Part>, p: Part)
    requires p in parts
    ensures p.digest in DigestsOfParts(parts)
  {
    var k :| 0 <= k < |parts| && parts[k] == p;
    assert DigestsOfParts(parts)[k] == p.digest;
  }

  /** Any program that ends by discarding the draft sweeps every representation it drops. */
  lemma DiscardSweeps(pre: seq<Instr>, a: Actor)
    requires a.prog == pre + DiscardCode(a.parts)
    ensures forall p <- a.parts :: Check(p.digest) in Past(a.prog, DropPart)
  {
    var tail := SweepCode(DigestsOfParts(a.parts));
    assert a.prog == (pre + DropLeases(|a.parts|)) + tail;
    forall p <- a.parts
      ensures Check(p.digest) in Past(a.prog, DropPart)
    {
      DigestListed(a.parts, p);
      SweepHolds(DigestsOfParts(a.parts), p.digest);
      PastKeeps(pre + DropLeases(|a.parts|), tail, DropPart, Check(p.digest));
    }
  }

  lemma DiscardingSweeps(pre: seq<Instr>, a: Actor)
    requires a.prog == pre + DiscardCode(a.parts) && DropThumb !in pre
    requires a.failed.None?
    ensures SweepsAfter(a)
  {
    DiscardSweeps(pre, a);
  }

  lemma FinishedSweeps(a: Actor, orphaned: seq<string>)
    requires a.failed.None?
    ensures SweepsAfter(a.(prog := FinishedCommitCode(a, orphaned)))
  {
    var b := a.(prog := FinishedCommitCode(a, orphaned));
    var tail := SweepThumbCode(a.thumb) + [Reply];
    var pre := [Release] + DropThumbCode(a.thumb) + SweepCode(orphaned);
    assert b.prog == pre + SweepThumbCode(a.thumb) + [Reply];
    assert DropPart !in b.prog;
    if a.thumb.Some? {
      var d := a.thumb.value.digest;
      assert b.prog == pre + tail;
      SweepHolds([d], d);
      PastKeeps(pre, tail, DropThumb, Check(d));
    }
  }

  lemma OrphanChecked(ds: seq<string>, pre: seq<Instr>, post: seq<Instr>, d: string)
    requires d in ds
    ensures Check(d) in pre + SweepCode(ds) + post
  {
    SweepHolds(ds, d);
  }

  // ---------------------------------------------------------------- steps

  /** A step of actor `i` leaves nothing behind when its own holdings, sweeps and rows are accounted for. */
  lemma StepKeeps(s: State, i: nat, w: World, b: Actor)
    requires LeakFree(s) && i < |s.actors| && SweepsAfter(b)
    requires forall d <- w.files :: d in s.w.files || HeldBy(b, d) > 0
    requires forall d <- w.files | d in s.w.db.blobs :: d in w.db.blobs || Pending(b, d)
    requires forall d <- w.files | HeldBy(s.actors[i], d) > 0 :: HeldBy(b, d) > 0 || Pending(b, d)
    requires forall d <- w.files | Pending(s.actors[i], d) :: Kept(w.db, s.actors[i := b], d)
    ensures LeakFree(State(w, s.actors[i := b]))
  {
    var actors := s.actors[i := b];
    forall d <- w.files
      ensures Kept(w.db, actors, d)
    {
      assert actors[i] == b;
      if d in s.w.files && d !in s.w.db.blobs {
        assert Kept(s.w.db, s.actors, d);
        var j :| 0 <= j < |s.actors| && (HeldBy(s.actors[j], d) > 0 || Pending(s.actors[j], d));
        assert j != i ==> actors[j] == s.actors[j];
      }
    }
  }

  /** A step that keeps files, rows and holdings, and drops no sweep. */
  lemma PlainStep(s: State, i: nat, w: World, b: Actor)
    requires LeakFree(s) && i < |s.actors| && SweepsAfter(b)
    requires w.files == s.w.files && w.db.blobs.Keys >= s.w.db.blobs.Keys
    requires b.parts == s.actors[i].parts && b.thumb == s.actors[i].thumb && b.failed == s.actors[i].failed
    requires forall d: string | Pending(s.actors[i], d) :: Pending(b, d)
    ensures LeakFree(State(w, s.actors[i := b]))
  {
    var actors := s.actors[i := b];
    forall d <- w.files | Pending(s.actors[i], d)
      ensures Kept(w.db, actors, d)
    {
      assert actors[i] == b;
    }
    StepKeeps(s, i, w, b);
  }

  /** No call of the step fails, its reply is heard, and it is not an insert refused with a thumbnail in hand. */
  predicate Clean(a: Actor, c: Choice)
    requires a.prog != []
  {
    && !c.fault && !c.unpublished
    && (a.prog[0].Reply? ==> !c.unheard)
    && (a.prog[0].InsertRow? && !DistinctMimes(a.parts) ==>
          a.thumb.None? || a.thumb.value.digest in DigestsOfParts(a.parts))
  }

  ghost predicate CleanRun(s: State, i: nat, c: Choice, s': State) {
    Run(s, i, c, s') && Clean(s.actors[i], c)
  }

  lemma AloneHead(a: Actor)
    requires |a.prog| == 1 && !a.prog[0].Check? && !a.prog[0].Unlink? && !a.prog[0].Scan?
    ensures forall d: string :: !Pending(a, d)
  {
  }

  lemma PoppedPending(a: Actor, d: string)
    requires a.prog != [] && Pending(a, d)
    requires !a.prog[0].Check? && !a.prog[0].Unlink? && !a.prog[0].Scan?
    ensures Pending(a.(prog := a.prog[1..]), d)
  {
    assert a.prog == [a.prog[0]] + a.prog[1..];
  }

  /** Moving past an instruction that is no part of a sweep or a hand-over. */
  lemma MovedOn(s: State, i: nat, w: World)
    requires LeakFree(s) && i < |s.actors| && s.actors[i].prog != []
    requires w.files == s.w.files && w.db.blobs == s.w.db.blobs
    requires var h := s.actors[i].prog[0]; !h.Check? && !h.Unlink? && !h.Scan?
    ensures LeakFree(State(w, s.actors[i := s.actors[i].(prog := s.actors[i].prog[1..])]))
  {
    var a := s.actors[i];
    var b := a.(prog := a.prog[1..]);
    assert SweepsAfter(a);
    PoppedSweeps(a, b);
    forall d: string | Pending(a, d)
      ensures Pending(b, d)
    {
      PoppedPending(a, d);
    }
    PlainStep(s, i, w, b);
  }

  lemma {:induction false} PinningSweepsNothing(db: Db, synced: set<string>, prog: seq<Instr>)
    requires Pinning(db, synced, prog)
    ensures forall d: string :: Check(d) !in prog && Unlink(d) !in prog
    ensures Scan !in prog
    decreases |prog|
  {
    assert prog == [prog[0]] + prog[1..];
    if prog[0].Sync? {
      PinningSweepsNothing(db, synced + {prog[0].digest}, prog[1..]);
    }
  }

  lemma SyncMissing(s: State, i: nat, c: Choice, s': State)
    requires Inv(s) && LeakFree(s) && CleanRun(s, i, c, s')
    requires s.actors[i].prog[0].Sync? && s.actors[i].prog[0].digest !in s.w.files
    ensures LeakFree(s')
  {
    PinningAlone(s, i);
    PinningSweepsNothing(s.w.db, s.w.synced, s.actors[i].prog);
    PlainStep(s, i, s'.w, s'.actors[i]);
  }

  /** The last instruction decides what comes next, and gives up nothing that is not swept. */
  lemma Replaced(s: State, i: nat, w: World, prog: seq<Instr>)
    requires LeakFree(s) && i < |s.actors|
    requires |s.actors[i].prog| == 1
    requires var h := s.actors[i].prog[0]; !h.Check? && !h.Unlink? && !h.Scan?
    requires w.files == s.w.files && w.db.blobs.Keys >= s.w.db.blobs.Keys
    requires SweepsAfter(s.actors[i].(prog := prog))
    ensures LeakFree(State(w, s.actors[i := s.actors[i].(prog := prog)]))
  {
    AloneHead(s.actors[i]);
    PlainStep(s, i, w, s.actors[i].(prog := prog));
  }

  lemma PinStarted(s: State, i: nat, c: Choice, s': State)
    requires LeakFree(s) && CleanRun(s, i, c, s')
    requires |s.actors[i].prog| == 1 && s.actors[i].failed.None?
    requires s.actors[i].prog[0].StartPin?
    ensures LeakFree(s')
  {
    var a := s.actors[i];
    var h := a.prog[0];
    assert SweepsAfter(a);
    if h.on && Find(s.w.db.entries, h.id).None? {
      Replaced(s, i, s.w, [Release]);
    } else {
      var prog := (if h.on then Syncs(DigestsOf(s.w.db, h.id)) else []) + [SetPin(h.id, h.on), Release];
      PinDropsNothing(DigestsOf(s.w.db, h.id), [SetPin(h.id, h.on), Release]);
      Replaced(s, i, s.w, prog);
    }
  }

  lemma PinDropsNothing(ds: seq<string>, tail: seq<Instr>)
    requires DropPart !in tail && DropThumb !in tail
    ensures DropPart !in Syncs(ds) + tail && DropThumb !in Syncs(ds) + tail
    ensures DropPart !in [] + tail && DropThumb !in [] + tail
  {
    assert [] + tail == tail;
  }

  lemma Taken(a: Actor, b: Actor, p: Part)
    requires b == a.(parts := a.parts + [p], writing := b.writing, prog := b.prog)
      || (a.thumb.None? && b == a.(thumb := Some(p), writing := b.writing, prog := b.prog))
    ensures forall d: string | HeldBy(a, d) > 0 || d == p.digest :: HeldBy(b, d) > 0
  {
    if b.parts == a.parts + [p] {
      TakenPart(a, p, b);
    }
  }

  lemma PublishedKeeps(s: State, i: nat, w: World, b: Actor, p: Part)
    requires LeakFree(s) && i < |s.actors| && |s.actors[i].prog| == 1
    requires s.actors[i].prog[0].FinishPart? || s.actors[i].prog[0].FinishThumb?
    requires w.files == s.w.files + {p.digest} && w.db == s.w.db
    requires forall d: string | HeldBy(s.actors[i], d) > 0 || d == p.digest :: HeldBy(b, d) > 0
    requires SweepsAfter(b)
    ensures LeakFree(State(w, s.actors[i := b]))
  {
    AloneHead(s.actors[i]);
    StepKeeps(s, i, w, b);
  }

  lemma Writing(s: State, i: nat)
    requires Inv(s) && i < |s.actors| && s.actors[i].prog != []
    requires s.actors[i].prog[0].FinishPart? || s.actors[i].prog[0].FinishThumb?
    ensures |s.actors[i].prog| == 1 && s.actors[i].thumb.None? && s.actors[i].failed.None?
  {
    assert ActorOk(s.w, i, s.actors[i]);
  }

  lemma PartPublished(s: State, i: nat, c: Choice, s': State)
    requires Inv(s) && LeakFree(s) && CleanRun(s, i, c, s')
    requires s.actors[i].prog[0].FinishPart?
    ensures LeakFree(s')
  {
    Writing(s, i);
    var a := s.actors[i];
    var b := a.(parts := a.parts + [c.part], writing := false, prog := []);
    Taken(a, b, c.part);
    PublishedKeeps(s, i, Published(s.w, c.part.digest, c.unremoved), b, c.part);
  }

  lemma ThumbPublished(s: State, i: nat, c: Choice, s': State)
    requires Inv(s) && LeakFree(s) && CleanRun(s, i, c, s')
    requires s.actors[i].prog[0].FinishThumb?
    ensures LeakFree(s')
  {
    Writing(s, i);
    var a := s.actors[i];
    var b := a.(thumb := Some(c.part), writing := false,
                prog := [Acquire, TouchAgain(a.prog[0].at, c.facts.(thumb := Some(c.part)))]);
    Taken(a, b, c.part);
    PublishedKeeps(s, i, Published(s.w, c.part.digest, c.unremoved), b, c.part);
  }

  lemma FoundFirst(s: State, i: nat, c: Choice, s': State)
    requires LeakFree(s) && CleanRun(s, i, c, s')
    requires |s.actors[i].prog| == 1 && s.actors[i].failed.None?
    requires s.actors[i].prog[0].TouchFirst?
    ensures LeakFree(s')
  {
    var a := s.actors[i];
    var at := a.prog[0].at;
    if FindIdentity(s.w.db.entries, IdentityOf(a)).Some? {
      assert Touched(s.w.db, IdentityOf(a), at).blobs == s.w.db.blobs;
      Replaced(s, i, s.w.(db := Touched(s.w.db, IdentityOf(a), at)), [Release, Reply]);
    } else {
      Replaced(s, i, s.w, [Release, Derive(at)]);
    }
  }

  lemma Derived(s: State, i: nat, c: Choice, s': State)
    requires LeakFree(s) && CleanRun(s, i, c, s')
    requires |s.actors[i].prog| == 1 && s.actors[i].failed.None?
    requires s.actors[i].prog[0].Derive?
    ensures LeakFree(s')
  {
    AloneHead(s.actors[i]);
    PlainStep(s, i, s'.w, s'.actors[i]);
  }

  lemma FoundAgain(s: State, i: nat, c: Choice, s': State)
    requires LeakFree(s) && CleanRun(s, i, c, s')
    requires |s.actors[i].prog| == 1 && s.actors[i].failed.None?
    requires s.actors[i].prog[0].TouchAgain?
    ensures LeakFree(s')
  {
    var a := s.actors[i];
    var h := a.prog[0];
    if FindIdentity(s.w.db.entries, IdentityOf(a)).Some? {
      assert Touched(s.w.db, IdentityOf(a), h.at).blobs == s.w.db.blobs;
      Replaced(s, i, s.w.(db := Touched(s.w.db, IdentityOf(a), h.at)), [Evict]);
    } else {
      Replaced(s, i, s.w, [InsertRow(h.at, h.facts)]);
    }
  }

  lemma {:induction false} ReferencingKeeps(blobs: map<string, BlobRow>, parts: seq<Part>)
    ensures ReferenceAll(blobs, parts).Keys >= blobs.Keys
  {
    if parts != [] {
      ReferencingKeeps(blobs, parts[..|parts| - 1]);
    }
  }

  /** A commit that failed sweeps what it drops exactly when the thumbnail is among its representations. */
  lemma FailedSweeps(a: Actor)
    requires a.failed.None?
    ensures SweepsAfter(a.(prog := FailedCommitCode(a))) <==>
      a.thumb.None? || a.thumb.value.digest in DigestsOfParts(a.parts)
  {
    var b := a.(prog := FailedCommitCode(a));
    DiscardSweeps([Release] + DropThumbCode(a.thumb), b);
    if a.thumb.Some? {
      assert b.prog == [Release, DropThumb] + DiscardCode(a.parts);
      PastTwo(Release, DropThumb, DiscardCode(a.parts));
      DiscardChecks(a.parts, a.thumb.value.digest);
    }
  }

  lemma PastTwo(first: Instr, mark: Instr, tail: seq<Instr>)
    requires mark !in tail
    ensures mark in [first, mark] + tail && Past([first, mark] + tail, mark) == tail
  {
    var whole := [first, mark] + tail;
    var rest := whole[1..];
    assert whole[1] == mark && rest[0] == mark && rest[1..] == tail;
    assert Past(whole, mark) == Past(rest, mark) == Past(rest[1..], mark);
  }

  lemma DiscardChecks(parts: seq<Part>, d: string)
    ensures Check(d) in DiscardCode(parts) <==> d in DigestsOfParts(parts)
    ensures DropThumb !in DiscardCode(parts)
  {
    var tail, ds := DiscardCode(parts), DigestsOfParts(parts);
    if d in ds {
      SweepHolds(ds, d);
    }
    if Check(d) in tail {
      var k :| 0 <= k < |tail| && tail[k] == Check(d);
      assert tail[k] == Checks(ds)[k - |parts| - 1];
    }
  }

  lemma Recorded(s: State, i: nat, c: Choice, s': State)
    requires LeakFree(s) && CleanRun(s, i, c, s')
    requires |s.actors[i].prog| == 1 && s.actors[i].failed.None?
    requires s.actors[i].prog[0].InsertRow?
    ensures LeakFree(s')
  {
    var a := s.actors[i];
    AloneHead(a);
    FailedSweeps(a);
    ReferencingKeeps(s.w.db.blobs, a.parts + ThumbParts(a.prog[0].facts));
    PlainStep(s, i, s'.w, s'.actors[i]);
  }

  /** Rows went, and everything only they named is in the sweep that follows. */
  lemma Collected(s: State, i: nat, gone: set<int>, orphaned: seq<string>, post: seq<Instr>, pre: seq<Instr>)
    requires LeakFree(s) && i < |s.actors|
    requires |s.actors[i].prog| == 1 && !s.actors[i].prog[0].Check?
      && !s.actors[i].prog[0].Unlink? && !s.actors[i].prog[0].Scan?
    requires Orphans(s.w.db, gone, orphaned)
    requires SweepsAfter(s.actors[i].(prog := pre + SweepCode(orphaned) + post))
    ensures LeakFree(State(s.w.(db := Without(s.w.db, gone)),
                           s.actors[i := s.actors[i].(prog := pre + SweepCode(orphaned) + post)]))
  {
    var b := s.actors[i].(prog := pre + SweepCode(orphaned) + post);
    AloneHead(s.actors[i]);
    forall d <- s.w.files | d in s.w.db.blobs
      ensures d in Without(s.w.db, gone).blobs || Pending(b, d)
    {
      if d !in Without(s.w.db, gone).blobs {
        assert d in ToSet(orphaned);
        OrphanChecked(orphaned, pre, post, d);
      }
    }
    StepKeeps(s, i, s.w.(db := Without(s.w.db, gone)), b);
  }

  lemma Evicted(s: State, i: nat, c: Choice, s': State)
    requires LeakFree(s) && CleanRun(s, i, c, s')
    requires |s.actors[i].prog| == 1 && s.actors[i].failed.None?
    requires s.actors[i].prog[0].Evict?
    ensures LeakFree(s')
  {
    var a := s.actors[i];
    var pre, post := [Release] + DropThumbCode(a.thumb), SweepThumbCode(a.thumb) + [Reply];
    FinishedSweeps(a, c.orphaned);
    assert FinishedCommitCode(a, c.orphaned) == pre + SweepCode(c.orphaned) + post;
    Collected(s, i, ToSet(c.removed), c.orphaned, post, pre);
  }

  lemma Answered(s: State, i: nat, c: Choice, s': State)
    requires Inv(s) && LeakFree(s) && CleanRun(s, i, c, s')
    requires s.actors[i].prog[0].Reply?
    ensures LeakFree(s')
  {
    var a := s.actors[i];
    AnswersAlone(s.w, i, a);
    var b := a.(prog := DiscardCode(a.parts));
    assert b.prog == [] + DiscardCode(b.parts);
    assert SweepsAfter(a);
    DiscardingSweeps([], b);
    Replaced(s, i, s.w, b.prog);
  }

  lemma AnswersAlone(w: World, i: nat, a: Actor)
    requires ActorOk(w, i, a) && a.prog != [] && a.prog[0].Reply?
    ensures |a.prog| == 1 && a.thumb.None? && a.failed.None?
  {
  }

  lemma RemovedRows(s: State, i: nat, gone: set<int>, orphaned: seq<string>)
    requires LeakFree(s) && i < |s.actors|
    requires |s.actors[i].prog| == 1 && !s.actors[i].prog[0].Check?
      && !s.actors[i].prog[0].Unlink? && !s.actors[i].prog[0].Scan?
    requires Orphans(s.w.db, gone, orphaned)
    ensures LeakFree(State(s.w.(db := Without(s.w.db, gone)),
                           s.actors[i := s.actors[i].(prog := [Release] + SweepCode(orphaned))]))
  {
    var prog := [Release] + SweepCode(orphaned);
    assert prog == [Release] + SweepCode(orphaned) + [];
    assert DropPart !in prog && DropThumb !in prog;
    assert SweepsAfter(s.actors[i]);
    Collected(s, i, gone, orphaned, [], [Release]);
  }

  lemma DeletedRows(s: State, i: nat, c: Choice, s': State)
    requires LeakFree(s) && CleanRun(s, i, c, s')
    requires |s.actors[i].prog| == 1 && s.actors[i].failed.None?
    requires var h := s.actors[i].prog[0]; h.RemoveRow? || h.ClearRows? || h.ExpireRows?
    ensures LeakFree(s')
  {
    var h := s.actors[i].prog[0];
    if h.RemoveRow? && Find(s.w.db.entries, h.id).None? {
      AloneHead(s.actors[i]);
      PlainStep(s, i, s'.w, s'.actors[i]);
    } else if h.RemoveRow? {
      RemovedRows(s, i, {h.id}, c.orphaned);
    } else if h.ClearRows? {
      RemovedRows(s, i, EligibleIds(s.w.db.entries, None), c.orphaned);
    } else {
      RemovedRows(s, i, ToSet(c.removed), c.orphaned);
    }
  }

  lemma DroppedIsSwept(a: Actor, d: string)
    requires SweepsAfter(a) && a.prog != []
    requires (a.prog[0].DropPart? && a.parts != [] && d == a.parts[0].digest)
      || (a.prog[0].DropThumb? && a.thumb.Some? && d == a.thumb.value.digest)
    ensures Check(d) in a.prog[1..]
  {
    if a.prog[0].DropPart? {
      PastIsTail(a.prog, DropPart, Check(d));
    } else {
      PastIsTail(a.prog, DropThumb, Check(d));
    }
  }

  /** A lease on `d` goes; the sweep that follows looks at `d` again. */
  lemma LeaseGone(s: State, i: nat, w: World, b: Actor, d: string)
    requires LeakFree(s) && i < |s.actors| && s.actors[i].prog != []
    requires w.files == s.w.files && w.db == s.w.db
    requires s.actors[i].prog[0].DropPart? || s.actors[i].prog[0].DropThumb?
    requires b.prog == s.actors[i].prog[1..] && SweepsAfter(b) && Check(d) in b.prog
    requires forall x: string | HeldBy(s.actors[i], x) > 0 && x != d :: HeldBy(b, x) > 0
    ensures LeakFree(State(w, s.actors[i := b]))
  {
    var a := s.actors[i];
    forall x <- s.w.files | Pending(a, x)
      ensures Kept(w.db, s.actors[i := b], x)
    {
      PoppedPending(a, x);
      assert s.actors[i := b][i] == b;
    }
    StepKeeps(s, i, w, b);
  }

  lemma PartGone(s: State, i: nat, c: Choice, s': State)
    requires LeakFree(s) && CleanRun(s, i, c, s')
    requires s.actors[i].prog[0].DropPart?
    ensures LeakFree(s')
  {
    var a, b := s.actors[i], s'.actors[i];
    assert SweepsAfter(a);
    if a.parts == [] {
      MovedOn(s, i, s.w);
    } else {
      PoppedSweeps(a, b);
      DroppedIsSwept(a, a.parts[0].digest);
      FirstPartDropped(a, b);
      LeaseGone(s, i, s'.w, b, a.parts[0].digest);
    }
  }

  lemma ThumbGone(s: State, i: nat, c: Choice, s': State)
    requires LeakFree(s) && CleanRun(s, i, c, s')
    requires s.actors[i].prog[0].DropThumb?
    ensures LeakFree(s')
  {
    var a, b := s.actors[i], s'.actors[i];
    assert SweepsAfter(a);
    if a.thumb.None? {
      MovedOn(s, i, s.w);
    } else {
      PoppedSweeps(a, b);
      DroppedIsSwept(a, a.thumb.value.digest);
      LeaseGone(s, i, s'.w, b, a.thumb.value.digest);
    }
  }

  lemma CheckSkipped(s: State, i: nat)
    requires LeakFree(s) && i < |s.actors| && s.actors[i].prog != [] && s.actors[i].prog[0].Check?
    requires s.actors[i].prog[0].digest in s.w.db.blobs
    ensures LeakFree(State(s.w, s.actors[i := s.actors[i].(prog := s.actors[i].prog[1..])]))
  {
    var a := s.actors[i];
    var b := a.(prog := a.prog[1..]);
    assert a.prog == [a.prog[0]] + a.prog[1..];
    assert SweepsAfter(a);
    PoppedSweeps(a, b);
    forall x <- s.w.files | Pending(a, x)
      ensures Kept(s.w.db, s.actors[i := b], x)
    {
      assert s.actors[i := b][i] == b;
      if x != a.prog[0].digest {
        assert Pending(b, x);
      }
    }
    StepKeeps(s, i, s.w, b);
  }

  lemma CheckCondemned(s: State, i: nat)
    requires LeakFree(s) && i < |s.actors| && s.actors[i].prog != [] && s.actors[i].prog[0].Check?
    ensures var a := s.actors[i];
      LeakFree(State(s.w, s.actors[i := a.(prog := [Unlink(a.prog[0].digest)] + a.prog[1..])]))
  {
    var a := s.actors[i];
    var d, rest := a.prog[0].digest, a.prog[1..];
    var b := a.(prog := [Unlink(d)] + rest);
    assert a.prog == [Check(d)] + rest;
    assert SweepsAfter(a);
    PoppedSweeps(a, a.(prog := rest));
    assert b.prog[1..] == rest;
    assert Past(b.prog, DropPart) == if DropPart in b.prog then Past(rest, DropPart) else b.prog;
    assert Past(b.prog, DropThumb) == if DropThumb in b.prog then Past(rest, DropThumb) else b.prog;
    assert SweepsAfter(b);
    forall x: string | Pending(a, x)
      ensures Pending(b, x)
    {
      assert x == d || Pending(a.(prog := rest), x);
      assert b.prog[0] == Unlink(d);
    }
    PlainStep(s, i, s.w, b);
  }

  lemma Checked(s: State, i: nat, c: Choice, s': State)
    requires LeakFree(s) && CleanRun(s, i, c, s')
    requires s.actors[i].prog[0].Check?
    ensures LeakFree(s')
  {
    var d := s.actors[i].prog[0].digest;
    if d in s.w.db.blobs && s.w.db.blobs[d].refs > 0 {
      CheckSkipped(s, i);
    } else {
      CheckCondemned(s, i);
    }
  }

  /** A file is skipped only because it is leased, and whoever holds the lease still accounts for it. */
  lemma LeasedIsKept(s: State, i: nat, b: Actor, d: string)
    requires LeasesExact(s.w.leases, s.actors) && i < |s.actors| && d in s.w.leases
    requires b.parts == s.actors[i].parts && b.thumb == s.actors[i].thumb && b.failed == s.actors[i].failed
    ensures Kept(s.w.db, s.actors[i := b], d)
  {
    HeldMeans(s.actors, d);
    var j :| 0 <= j < |s.actors| && HeldBy(s.actors[j], d) > 0;
    assert HeldBy(s.actors[i := b][j], d) > 0;
  }

  lemma UnlinkRan(s: State, i: nat, w: World)
    requires LeakFree(s) && LeasesExact(s.w.leases, s.actors) && i < |s.actors|
    requires s.actors[i].prog != [] && s.actors[i].prog[0].Unlink?
    requires w.db == s.w.db && w.files <= s.w.files
    requires s.actors[i].prog[0].digest in w.files ==> s.actors[i].prog[0].digest in s.w.leases
    ensures LeakFree(State(w, s.actors[i := s.actors[i].(prog := s.actors[i].prog[1..])]))
  {
    var a := s.actors[i];
    var b := a.(prog := a.prog[1..]);
    assert a.prog == [a.prog[0]] + a.prog[1..];
    assert SweepsAfter(a);
    PoppedSweeps(a, b);
    forall x <- w.files | Pending(a, x)
      ensures Kept(w.db, s.actors[i := b], x)
    {
      assert s.actors[i := b][i] == b;
      if x == a.prog[0].digest {
        LeasedIsKept(s, i, b, x);
      } else {
        assert Pending(b, x);
      }
    }
    StepKeeps(s, i, w, b);
  }

  lemma Unlinked(s: State, i: nat, c: Choice, s': State)
    requires Inv(s) && LeakFree(s) && CleanRun(s, i, c, s')
    requires s.actors[i].prog[0].Unlink?
    ensures LeakFree(s')
  {
    UnlinkRan(s, i, s'.w);
  }

  /** Startup condemns every file no row names. */
  lemma Scanned(s: State, i: nat, listing: seq<string>)
    requires LeakFree(s) && i < |s.actors| && ToSet(listing) == s.w.files
    ensures LeakFree(State(s.w,
                           s.actors[i := s.actors[i].(prog := Unlinks(Unknown(listing, s.w.db.blobs)) + [Release])]))
  {
    ListingComplete(s.w.files, s.w.db.blobs, listing);
    ScanRan(s, i, s.w, Unknown(listing, s.w.db.blobs));
  }

  lemma ListingComplete(files: set<string>, blobs: map<string, BlobRow>, listing: seq<string>)
    requires ToSet(listing) == files
    ensures forall d <- files | d !in blobs :: d in Unknown(listing, blobs)
  {
    assert forall d <- files :: d in ToSet(listing);
  }

  lemma ScanRan(s: State, i: nat, w: World, stale: seq<string>)
    requires LeakFree(s) && i < |s.actors| && w.files == s.w.files && w.db == s.w.db
    requires forall d <- s.w.files | d !in s.w.db.blobs :: d in stale
    ensures LeakFree(State(w, s.actors[i := s.actors[i].(prog := Unlinks(stale) + [Release])]))
  {
    var b := s.actors[i].(prog := Unlinks(stale) + [Release]);
    assert SweepsAfter(s.actors[i]);
    forall d <- s.w.files | d !in s.w.db.blobs
      ensures Pending(b, d)
    {
      var k :| 0 <= k < |stale| && stale[k] == d;
      assert b.prog[k] == Unlink(d);
    }
    assert DropPart !in b.prog && DropThumb !in b.prog;
    var after := s.actors[i := b];
    forall d <- w.files
      ensures Kept(w.db, after, d)
    {
      assert after[i] == b;
    }
    forall j | 0 <= j < |after|
      ensures SweepsAfter(after[j])
    {
      assert j != i ==> after[j] == s.actors[j];
    }
  }

  lemma NothingFailed(s: State, i: nat, c: Choice, s': State)
    requires LeakFree(s) && CleanRun(s, i, c, s')
    requires s.actors[i].prog[0].DropFailed?
    ensures LeakFree(s')
  {
    var a := s.actors[i];
    assert SweepsAfter(a);
    var b := s'.actors[i];
    PoppedSweeps(a, b);
    forall d: string | Pending(a, d)
      ensures Pending(b, d)
    {
      PoppedPending(a, d);
    }
    PlainStep(s, i, s'.w, b);
  }

  lemma CleanRunKeeps(s: State, i: nat, c: Choice, s': State)
    requires Inv(s) && LeakFree(s) && CleanRun(s, i, c, s')
    ensures LeakFree(s')
  {
    match s.actors[i].prog[0]
    case Acquire => MovedOn(s, i, s'.w);
    case Release => MovedOn(s, i, s'.w);
    case SweepIncoming => MovedOn(s, i, s'.w);
    case SetPin(_, _) => MovedOn(s, i, s'.w);
    case Sync(d) => if d in s.w.files { MovedOn(s, i, s'.w); } else { SyncMissing(s, i, c, s'); }
    case StartPin(_, _) => Deciding(s, i); PinStarted(s, i, c, s');
    case FinishPart(_) => PartPublished(s, i, c, s');
    case FinishThumb(_) => ThumbPublished(s, i, c, s');
    case DropFailed => NothingFailed(s, i, c, s');
    case TouchFirst(_) => Deciding(s, i); FoundFirst(s, i, c, s');
    case Derive(_) => assert ActorOk(s.w, i, s.actors[i]); Derived(s, i, c, s');
    case TouchAgain(_, _) => Deciding(s, i); FoundAgain(s, i, c, s');
    case InsertRow(_, _) => Deciding(s, i); Recorded(s, i, c, s');
    case Evict => Deciding(s, i); Evicted(s, i, c, s');
    case Reply => Answered(s, i, c, s');
    case DropThumb => ThumbGone(s, i, c, s');
    case DropPart => PartGone(s, i, c, s');
    case Check(_) => Checked(s, i, c, s');
    case Unlink(_) => Unlinked(s, i, c, s');
    case RemoveRow(_) => Deciding(s, i); DeletedRows(s, i, c, s');
    case ClearRows => Deciding(s, i); DeletedRows(s, i, c, s');
    case ExpireRows(_, _) => Deciding(s, i); DeletedRows(s, i, c, s');
    case Scan => Scanned(s, i, c.listing);
  }

  // ----------------------------------------------------------------- runs

  /** Any step in which no call fails and no commit's reply is lost. */
  ghost predicate CleanNext(s: State, s': State) {
    || (exists i: nat, c: Choice :: CleanRun(s, i, c, s'))
    || (exists i: nat, mime: string :: BeginPart(s, i, mime, s'))
    || (exists i: nat, at: int :: BeginCommit(s, i, at, s'))
    || (exists i: nat :: Abandon(s, i, s'))
    || (exists a: Actor :: Spawn(s, a, s'))
  }

  lemma CleanIsNext(s: State, s': State)
    requires CleanNext(s, s')
    ensures Next(s, s')
  {
    if i: nat, c: Choice :| CleanRun(s, i, c, s') {
      assert Run(s, i, c, s');
    }
  }

  /** A session's decision about an idle draft gives up nothing it does not sweep. */
  lemma Decided(s: State, i: nat, temps: Temps, writing: bool, prog: seq<Instr>)
    requires LeakFree(s) && i < |s.actors| && s.actors[i].prog == []
    requires SweepsAfter(s.actors[i].(writing := writing, prog := prog))
    ensures LeakFree(State(s.w.(temps := temps), s.actors[i := s.actors[i].(writing := writing, prog := prog)]))
  {
    PlainStep(s, i, s.w.(temps := temps), s.actors[i].(writing := writing, prog := prog));
  }

  lemma DiscardDecided(s: State, i: nat)
    requires LeakFree(s) && Idle(s, i)
    ensures LeakFree(State(s.w, s.actors[i := s.actors[i].(prog := DiscardCode(s.actors[i].parts))]))
  {
    var a := s.actors[i];
    var b := a.(prog := DiscardCode(a.parts));
    assert b.prog == [] + DiscardCode(b.parts);
    assert SweepsAfter(a);
    DiscardingSweeps([], b);
    Decided(s, i, s.w.temps, false, b.prog);
    assert s.w.(temps := s.w.temps) == s.w && a.(writing := false) == a;
  }

  lemma CommitDecided(s: State, i: nat, at: int)
    requires LeakFree(s) && Idle(s, i)
    ensures LeakFree(State(s.w, s.actors[i := s.actors[i].(prog := [Acquire, TouchFirst(at)])]))
  {
    var a := s.actors[i];
    assert SweepsAfter(a);
    Decided(s, i, s.w.temps, false, [Acquire, TouchFirst(at)]);
    assert s.w.(temps := s.w.temps) == s.w && a.(writing := false) == a;
  }

  lemma SpawnKeeps(s: State, a: Actor, s': State)
    requires LeakFree(s) && Spawn(s, a, s')
    ensures LeakFree(s')
  {
    assert a.parts == [] && a.thumb.None? && a.failed.None?;
    assert DropPart !in a.prog && DropThumb !in a.prog;
    forall j | 0 <= j < |s'.actors|
      ensures SweepsAfter(s'.actors[j])
    {
      assert j < |s.actors| ==> s'.actors[j] == s.actors[j];
    }
    forall d <- s'.w.files
      ensures Kept(s'.w.db, s'.actors, d)
    {
      assert Kept(s.w.db, s.actors, d);
      if d !in s.w.db.blobs {
        var j :| 0 <= j < |s.actors| && (HeldBy(s.actors[j], d) > 0 || Pending(s.actors[j], d));
        assert s'.actors[j] == s.actors[j];
      }
    }
  }

  lemma CleanKeeps(s: State, s': State)
    requires Inv(s) && LeakFree(s) && CleanNext(s, s')
    ensures LeakFree(s')
  {
    if i: nat, c: Choice :| CleanRun(s, i, c, s') {
      CleanRunKeeps(s, i, c, s');
    } else if i: nat, mime: string :| BeginPart(s, i, mime, s') {
      assert SweepsAfter(s.actors[i]);
      Decided(s, i, Opened(s.w.temps), true, [FinishPart(mime)]);
    } else if i: nat, at: int :| BeginCommit(s, i, at, s') {
      var a := s.actors[i];
      if a.parts == [] || AnySensitive(a.parts) || TotalOf(a.parts) > Room(s.w.budget) {
        DiscardDecided(s, i);
      } else {
        CommitDecided(s, i, at);
      }
    } else if i: nat :| Abandon(s, i, s') {
      DiscardDecided(s, i);
    } else if a: Actor :| Spawn(s, a, s') {
      SpawnKeeps(s, a, s');
    }
  }

  /** A start of the daemon, whatever state a crash left the disk in, then only clean steps. */
  ghost predicate IsCleanRun(states: seq<State>) {
    && states != [] && Reachable(states[0]) && states[0].actors == [STARTUP]
    && forall k | 0 < k < |states| :: CleanNext(states[k - 1], states[k])
  }

  lemma {:induction false} CleanRunOk(states: seq<State>)
    requires IsCleanRun(states)
    ensures Inv(states[|states| - 1]) && LeakFree(states[|states| - 1])
  {
    if |states| == 1 {
      ReachableOk(states[0]);
      assert states[0].actors[0] == STARTUP && Scan in STARTUP.prog;
      assert forall d: string :: Pending(states[0].actors[0], d);
    } else {
      var n := |states| - 1;
      assert IsCleanRun(states[..n]);
      CleanRunOk(states[..n]);
      CleanIsNext(states[n - 1], states[n]);
      NextKeepsInv(states[n - 1], states[n]);
      CleanKeeps(states[n - 1], states[n]);
    }
  }

  /**
    From any start, after any crash, and in every interleaving of calls that
    succeed and replies that are heard: a file on the disk is named by a row,
    leased, or listed in a sweep that has not run yet.
  */
  lemma EveryFileIsAccountedFor(states: seq<State>)
    requires IsCleanRun(states)
    ensures NoLeak(states[|states| - 1])
  {
    CleanRunOk(states);
  }

  predicate Quiet(s: State) {
    forall a <- s.actors :: a.prog == []
  }

  /**
    Once every program has run to its end the disk is exact: the files are the
    blob rows and what open drafts hold. With no draft open they are the blob
    rows, so a restart also recovers whatever an earlier crash had stranded.
  */
  lemma QuietArchiveIsExact(states: seq<State>)
    requires IsCleanRun(states)
    requires Quiet(states[|states| - 1])
    ensures var w := states[|states| - 1].w; w.files == w.db.blobs.Keys + w.leases.Keys
  {
    CleanRunOk(states);
    QuietIsExact(states[|states| - 1]);
  }

  lemma QuietIsExact(s: State)
    requires Inv(s) && NoLeak(s) && Quiet(s)
    ensures s.w.files == s.w.db.blobs.Keys + s.w.leases.Keys
  {
    forall d <- s.w.files
      ensures d in s.w.db.blobs || d in s.w.leases
    {
      assert Kept(s.w.db, s.actors, d);
      HeldMeans(s.actors, d);
    }
    forall d <- s.w.leases
      ensures d in s.w.files
    {
      HeldMeans(s.actors, d);
      var j :| 0 <= j < |s.actors| && HeldBy(s.actors[j], d) > 0;
      HasItsFiles(s.w, j, s.actors[j]);
      IdleHasNoFailed(s.w, j, s.actors[j]);
      HeldHere(s.actors[j], d);
    }
  }

  lemma IdleHasNoFailed(w: World, j: nat, a: Actor)
    requires ActorOk(w, j, a) && a.prog == []
    ensures a.failed.None?
  {
  }

  lemma HeldHere(a: Actor, d: string)
    requires HeldBy(a, d) > 0 && a.failed.None?
    ensures (a.thumb.Some? && a.thumb.value.digest == d) || exists p <- a.parts :: p.digest == d
  {
    CountInMeans(DigestsOfParts(a.parts), d);
    if !(a.thumb.Some? && a.thumb.value.digest == d) {
      var k :| 0 <= k < |DigestsOfParts(a.parts)| && DigestsOfParts(a.parts)[k] == d;
      assert a.parts[k].digest == d;
    }
  }

  // ------------------------------------------------------- the exceptions

  /** A row names `d`, or someone other than actor `i` has it in hand. */
  ghost predicate KeptElsewhere(s: State, i: nat, d: string) {
    || d in s.w.db.blobs
    || exists j | 0 <= j < |s.actors| && j != i :: HeldBy(s.actors[j], d) > 0 || Pending(s.actors[j], d)
  }

  lemma KeptSplits(s: State, i: nat, a: Actor, d: string)
    requires i < |s.actors|
    ensures Kept(s.w.db, s.actors[i := a], d) <==> HeldBy(a, d) > 0 || Pending(a, d) || KeptElsewhere(s, i, d)
  {
    var after := s.actors[i := a];
    assert after[i] == a;
    assert forall j | 0 <= j < |s.actors| && j != i :: after[j] == s.actors[j];
  }

  /** An actor with nothing in its program accounts only for what it holds. */
  lemma IdleHolds(a: Actor, d: string)
    requires a.thumb.None? && a.failed.None? && forall x <- a.prog :: x.DropPart? || x.Reply?
    ensures HeldBy(a, d) > 0 || Pending(a, d) <==> d in DigestsOfParts(a.parts)
  {
    CountInMeans(DigestsOfParts(a.parts), d);
  }

  /**
    A draft's lease that goes with no sweep to follow, wherever in a run that
    is: nothing is left behind if and only if the draft holds the same content
    once more, or a row names it, or it is in some other actor's hands.
  */
  lemma UnsweptDropLeaks(s: State, i: nat, c: Choice, s': State)
    requires Inv(s) && NoLeak(s) && Run(s, i, c, s')
    requires s.actors[i].parts != [] && s.actors[i].thumb.None? && s.actors[i].failed.None?
    requires s.actors[i].prog == DropLeases(|s.actors[i].parts|)
    ensures var a := s.actors[i];
      NoLeak(s') <==> a.parts[0].digest in DigestsOfParts(a.parts[1..]) || KeptElsewhere(s, i, a.parts[0].digest)
  {
    var a, b := s.actors[i], s'.actors[i];
    var d := a.parts[0].digest;
    FirstPartDropped(a, b);
    forall x <- s.w.files
      ensures x != d ==> Kept(s'.w.db, s'.actors, x)
      ensures Kept(s'.w.db, s'.actors, d) <==> d in DigestsOfParts(b.parts) || KeptElsewhere(s, i, d)
    {
      assert Kept(s.w.db, s.actors, x);
      assert s.actors[i := a] == s.actors;
      KeptSplits(s, i, a, x);
      KeptSplits(s, i, b, x);
      KeptSplits(s, i, b, d);
      IdleHolds(a, x);
      IdleHolds(b, x);
      IdleHolds(b, d);
      CountInMeans(DigestsOfParts(a.parts), x);
      CountInMeans(DigestsOfParts(b.parts), x);
    }
    assert d in s.w.files by {
      HasItsFiles(s.w, i, a);
      assert a.parts[0] in a.parts;
    }
  }

  /** The steps of one actor, nothing in between. */
  ghost predicate RunsAlone(states: seq<State>, i: nat, cs: seq<Choice>) {
    && |states| == |cs| + 1
    && forall k | 0 <= k < |cs| :: Run(states[k], i, cs[k], states[k + 1])
  }

  /** What a draft looks like `k` drops after its reply was lost. */
  function Dropping(a: Actor, k: nat): Actor
    requires k <= |a.parts|
  {
    a.(parts := a.parts[k..], prog := DropLeases(|a.parts| - k))
  }

  lemma OneMoreDropped(w: World, i: nat, a: Actor, k: nat, c: Choice)
    requires k < |a.parts|
    ensures var r := Exec(w, i, Dropping(a, k), c);
      r.1 == Dropping(a, k + 1) && r.0 == w.(leases := r.0.leases)
  {
    assert a.parts[k..][1..] == a.parts[k + 1..];
    assert DropLeases(|a.parts| - k)[1..] == DropLeases(|a.parts| - k - 1);
  }

  lemma {:induction false} DropsRun(states: seq<State>, i: nat, cs: seq<Choice>, k: nat)
    requires RunsAlone(states, i, cs) && i < |states[0].actors|
    requires k < |cs| == |states[0].actors[i].parts| + 1
    requires states[0].actors[i].prog == [Reply] && cs[0].unheard
    ensures var s := states[0];
      && states[k + 1].actors == s.actors[i := Dropping(s.actors[i], k)]
      && states[k + 1].w == s.w.(leases := states[k + 1].w.leases)
  {
    var s, a := states[0], states[0].actors[i];
    assert Run(states[k], i, cs[k], states[k + 1]);
    if k > 0 {
      DropsRun(states, i, cs, k - 1);
      OneMoreDropped(states[k].w, i, a, k - 1, cs[k]);
    } else {
      assert a.parts[0..] == a.parts;
    }
  }

  /**
    The other exception, exactly. After a reply that is lost the draft's leases
    go and that is all. Then nothing is left behind if and only if each of its
    representations is named by a row or in some other actor's hands.
  */
  lemma LostReplyLeaks(states: seq<State>, i: nat, cs: seq<Choice>)
    requires RunsAlone(states, i, cs) && Inv(states[0]) && LeakFree(states[0])
    requires i < |states[0].actors| && states[0].actors[i].prog != [] && states[0].actors[i].prog[0].Reply?
    requires |cs| == |states[0].actors[i].parts| + 1 && cs[0].unheard
    ensures var s := states[0];
      NoLeak(states[|cs|]) <==> forall p <- s.actors[i].parts :: KeptElsewhere(s, i, p.digest)
  {
    var s := states[0];
    AnswersAlone(s.w, i, s.actors[i]);
    HasItsFiles(s.w, i, s.actors[i]);
    DropsRun(states, i, cs, |s.actors[i].parts|);
    DraftDropped(s, i, states[|cs|]);
  }

  lemma DraftDropped(s: State, i: nat, last: State)
    requires NoLeak(s) && i < |s.actors| && s.actors[i].prog == [Reply] && HoldsFiles(s.w.files, s.actors[i])
    requires s.actors[i].thumb.None? && s.actors[i].failed.None?
    requires last.actors == s.actors[i := Dropping(s.actors[i], |s.actors[i].parts|)]
    requires last.w == s.w.(leases := last.w.leases)
    ensures NoLeak(last) <==> forall p <- s.actors[i].parts :: KeptElsewhere(s, i, p.digest)
  {
    forall x <- s.w.files
      ensures Kept(last.w.db, last.actors, x) <==> KeptElsewhere(s, i, x)
      ensures KeptElsewhere(s, i, x) || exists p <- s.actors[i].parts :: p.digest == x
    {
      AllDropped(s, i, Dropping(s.actors[i], |s.actors[i].parts|), x);
    }
  }

  lemma AllDropped(s: State, i: nat, b: Actor, x: string)
    requires i < |s.actors| && s.actors[i].prog == [Reply]
    requires s.actors[i].thumb.None? && s.actors[i].failed.None? && b == Dropping(s.actors[i], |s.actors[i].parts|)
    ensures Kept(s.w.db, s.actors[i := b], x) <==> KeptElsewhere(s, i, x)
    ensures Kept(s.w.db, s.actors, x) ==> KeptElsewhere(s, i, x) || exists p <- s.actors[i].parts :: p.digest == x
  {
    var a := s.actors[i];
    assert s.actors[i := a] == s.actors;
    KeptSplits(s, i, b, x);
    KeptSplits(s, i, a, x);
    IdleHolds(a, x);
    IdleHolds(b, x);
    if x in DigestsOfParts(a.parts) {
      var k :| 0 <= k < |a.parts| && DigestsOfParts(a.parts)[k] == x;
      assert a.parts[k].digest == x;
    }
  }

  /**
    The first exception, exactly. An insert refused for a repeated mime goes on
    to release the lock and drop the thumbnail. Then nothing is left behind if
    and only if the thumbnail's content is also a representation of the same
    draft, or is named by a row, or is in some other actor's hands.
  */
  lemma RefusedInsertLeaks(s: State, i: nat, c: Choice, s1: State, c1: Choice, s2: State, c2: Choice, s3: State)
    requires Inv(s) && LeakFree(s)
    requires Run(s, i, c, s1) && Run(s1, i, c1, s2) && Run(s2, i, c2, s3)
    requires s.actors[i].prog[0].InsertRow? && !DistinctMimes(s.actors[i].parts) && s.actors[i].thumb.Some?
    ensures var a, d := s.actors[i], s.actors[i].thumb.value.digest;
      NoLeak(s3) <==> d in DigestsOfParts(a.parts) || KeptElsewhere(s, i, d)
  {
    var a := s.actors[i];
    HasItsFiles(s.w, i, a);
    RefusedInsertRuns(s, i, c, s1, c1, s2, c2, s3);
    ThumbKept(s, i, s3);
    if Kept(s3.w.db, s3.actors, a.thumb.value.digest) {
      OthersKept(s, i, s3.actors[i], s3);
    }
  }

  lemma InsertRefused(w: World, i: nat, a: Actor, c: Choice)
    requires |a.prog| == 1 && a.prog[0].InsertRow? && !DistinctMimes(a.parts) && a.thumb.Some?
    ensures Exec(w, i, a, c) == (w, a.(prog := [Release] + ([DropThumb] + DiscardCode(a.parts))))
  {
    Regroup([Release], [DropThumb], DiscardCode(a.parts));
  }

  lemma LockReleased(w: World, i: nat, a: Actor, rest: seq<Instr>, c: Choice)
    requires a.prog == [Release] + rest
    ensures Exec(w, i, a, c) == (w.(lock := None), a.(prog := rest))
  {
  }

  lemma ThumbDropped(w: World, i: nat, a: Actor, rest: seq<Instr>, c: Choice)
    requires a.prog == [DropThumb] + rest && a.thumb.Some?
    ensures var r := Exec(w, i, a, c);
      r.0 == w.(leases := r.0.leases) && r.1 == a.(thumb := None, prog := rest)
  {
  }

  lemma RefusedInsertRuns(s: State, i: nat, c: Choice, s1: State, c1: Choice, s2: State, c2: Choice, s3: State)
    requires Inv(s)
    requires Run(s, i, c, s1) && Run(s1, i, c1, s2) && Run(s2, i, c2, s3)
    requires s.actors[i].prog[0].InsertRow? && !DistinctMimes(s.actors[i].parts) && s.actors[i].thumb.Some?
    ensures s3.actors == s.actors[i := s.actors[i].(thumb := None, prog := DiscardCode(s.actors[i].parts))]
    ensures s3.w.files == s.w.files && s3.w.db == s.w.db
    ensures |s.actors[i].prog| == 1 && s.actors[i].failed.None?
  {
    var a := s.actors[i];
    Deciding(s, i);
    InsertRefused(s.w, i, a, c);
    LockReleased(s1.w, i, s1.actors[i], [DropThumb] + DiscardCode(a.parts), c1);
    ThumbDropped(s2.w, i, s2.actors[i], DiscardCode(a.parts), c2);
  }

  /** After the lease is dropped the thumbnail is accounted for only by what the condition lists. */
  lemma ThumbKept(s: State, i: nat, s3: State)
    requires i < |s.actors| && s.actors[i].thumb.Some? && s.actors[i].failed.None?
    requires s3.actors == s.actors[i := s.actors[i].(thumb := None, prog := DiscardCode(s.actors[i].parts))]
    requires s3.w.db == s.w.db
    ensures var a, d := s.actors[i], s.actors[i].thumb.value.digest;
      Kept(s3.w.db, s3.actors, d) <==> d in DigestsOfParts(a.parts) || KeptElsewhere(s, i, d)
  {
    var a, d, b := s.actors[i], s.actors[i].thumb.value.digest, s3.actors[i];
    DiscardChecks(a.parts, d);
    DiscardOnlyChecks(a.parts);
    CountInMeans(DigestsOfParts(a.parts), d);
    KeptSplits(s, i, b, d);
  }

  lemma DiscardOnlyChecks(parts: seq<Part>)
    ensures forall d: string :: Unlink(d) !in DiscardCode(parts)
    ensures Scan !in DiscardCode(parts)
  {
  }

  /** Dropping the thumbnail matters to no other file. */
  lemma OthersKept(s: State, i: nat, b: Actor, s3: State)
    requires LeakFree(s) && i < |s.actors| && s.actors[i].thumb.Some?
    requires |s.actors[i].prog| == 1 && s.actors[i].prog[0].InsertRow?
    requires b == s.actors[i].(thumb := None, prog := b.prog)
    requires s3.actors == s.actors[i := b] && s3.w.files == s.w.files && s3.w.db == s.w.db
    requires Kept(s3.w.db, s3.actors, s.actors[i].thumb.value.digest)
    ensures NoLeak(s3)
  {
    AloneHead(s.actors[i]);
    forall x <- s3.w.files
      ensures Kept(s3.w.db, s3.actors, x)
    {
      assert Kept(s.w.db, s.actors, x);
      if x !in s.w.db.blobs && x != s.actors[i].thumb.value.digest {
        var j :| 0 <= j < |s.actors| && (HeldBy(s.actors[j], x) > 0 || Pending(s.actors[j], x));
        assert HeldBy(s3.actors[j], x) > 0 || Pending(s3.actors[j], x);
      }
    }
  }
}
