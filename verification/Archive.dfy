/**
  The running archive as a concurrent protocol.

  Any number of actors share the index, the blob files and the lease registry.
  An actor is one draft, or one remove, clear, expiry, pin or startup pass; it
  carries the rest of its program as a list of instructions and what it holds.
  One step is one instruction: everything the daemon does in one statement
  under the index lock, under the lease gate, or on the disk. Between any two
  steps any other actor may run, and the process may die.

  `fault` makes a step fail the way its call can fail: a database error rolls
  the transaction back, a file operation leaves the file as it was. Removing a
  temporary has a fault of its own, because the daemon ignores it, and so has
  the reply to a commit, because losing it cuts the commit's tail short.
*/
module Archive {
  import opened Wrappers
  import opened Tables
  import opened Ages
  import opened Identity
  import opened Secrets

  datatype Instr =
    // the index mutex
    | Acquire
    | Release
    // one representation, and the thumbnail, being streamed into `incoming`
    | FinishPart(mime: string)
    | FinishThumb(at: int)
    | DropFailed
    // commit
    | TouchFirst(at: int)
    | Derive(at: int)
    | TouchAgain(at: int, facts: Facts)
    | InsertRow(at: int, facts: Facts)
    | Evict
    | Reply
    // leases going out of scope
    | DropThumb
    | DropPart
    // collection
    | Check(digest: string)
    | Unlink(digest: string)
    // the other mutators
    | RemoveRow(id: int)
    | ClearRows
    | ExpireRows(cutoff: int, batch: nat)
    | StartPin(id: int, on: bool)
    | Sync(digest: string)
    | SetPin(id: int, on: bool)
    // startup
    | SweepIncoming
    | Scan

  /**
    `parts` and `thumb` are accepted content with a live lease each; `failed`
    is the lease of a publication that did not happen, about to be dropped;
    `writing` means a temporary file is open.
  */
  datatype Actor = Actor(
    parts: seq<Part>,
    thumb: Option<Part>,
    failed: Option<string>,
    writing: bool,
    prog: seq<Instr>)

  /**
    The `incoming` directory: how many files it holds, and how many of them no
    write owns any more, because removing them failed.
  */
  datatype Temps = Temps(count: nat, stray: nat)

  datatype World = World(
    db: Db,
    files: set<string>,
    synced: set<string>,
    temps: Temps,
    leases: map<string, nat>,
    lock: Option<nat>,
    budget: int)

  datatype State = State(w: World, actors: seq<Actor>)

  /**
    What the environment decides about one step. `unpublished` is a rename
    that fails, `unremoved` a temporary that cannot be deleted, `left` how many
    startup cannot delete, `unheard` a reply the peer is no longer there for.
  */
  datatype Choice = Choice(
    fault: bool,
    unpublished: bool,
    unremoved: bool,
    left: nat,
    unheard: bool,
    thumbed: bool,
    part: Part,
    facts: Facts,
    removed: seq<int>,
    orphaned: seq<string>,
    listing: seq<string>)

  // ------------------------------------------------------------ programs

  function DigestsOfParts(parts: seq<Part>): seq<string> {
    seq(|parts|, i requires 0 <= i < |parts| => parts[i].digest)
  }

  function Checks(ds: seq<string>): seq<Instr> {
    seq(|ds|, i requires 0 <= i < |ds| => Check(ds[i]))
  }

  /** `Store::sweep`: one lock hold over the whole list. */
  function SweepCode(ds: seq<string>): seq<Instr> {
    [Acquire] + Checks(ds) + [Release]
  }

  function DropLeases(n: nat): seq<Instr> {
    seq(n, i => DropPart)
  }

  /** `Store::discard`: every lease goes, then the same digests are swept. */
  function DiscardCode(parts: seq<Part>): seq<Instr> {
    DropLeases(|parts|) + SweepCode(DigestsOfParts(parts))
  }

  function DropThumbCode(thumb: Option<Part>): seq<Instr> {
    if thumb.Some? then [DropThumb] else []
  }

  function SweepThumbCode(thumb: Option<Part>): seq<Instr> {
    if thumb.Some? then SweepCode([thumb.value.digest]) else []
  }

  /** An early `?` return from the second lock hold: the thumbnail's lease goes, and nothing sweeps it. */
  function FailedCommitCode(a: Actor): seq<Instr> {
    [Release] + DropThumbCode(a.thumb) + DiscardCode(a.parts)
  }

  /** The tail of a commit that got as far as evicting; the draft is discarded once the peer has its answer. */
  function FinishedCommitCode(a: Actor, orphaned: seq<string>): seq<Instr> {
    [Release] + DropThumbCode(a.thumb) + SweepCode(orphaned) + SweepThumbCode(a.thumb) + [Reply]
  }

  function Unlinks(ds: seq<string>): seq<Instr> {
    seq(|ds|, i requires 0 <= i < |ds| => Unlink(ds[i]))
  }

  function Syncs(ds: seq<string>): seq<Instr> {
    seq(|ds|, i requires 0 <= i < |ds| => Sync(ds[i]))
  }

  function Unknown(listing: seq<string>, blobs: map<string, BlobRow>): (r: seq<string>)
    ensures forall d :: d in r <==> d in listing && d !in blobs
  {
    if listing == [] then []
    else
      var rest := Unknown(listing[..|listing| - 1], blobs);
      var last := listing[|listing| - 1];
      if last in blobs then rest else rest + [last]
  }

  const STARTUP := Actor([], None, None, false, [SweepIncoming, Acquire, Scan])
  const DRAFT := Actor([], None, None, false, [])

  datatype Op = Remove(id: int) | Clear | Expire(cutoff: int) | Pin(id: int, on: bool)

  function OpCode(op: Op): Instr {
    match op
    case Remove(id) => RemoveRow(id)
    case Clear => ClearRows
    case Expire(cutoff) => ExpireRows(cutoff, 256)
    case Pin(id, on) => StartPin(id, on)
  }

  function OpActor(op: Op): Actor {
    Actor([], None, None, false, [Acquire, OpCode(op)])
  }

  // ------------------------------------------------------ shared effects

  function Leased(leases: map<string, nat>, d: string): map<string, nat> {
    leases[d := (if d in leases then leases[d] else 0) + 1]
  }

  function Unleased(leases: map<string, nat>, d: string): map<string, nat> {
    if d !in leases then leases
    else if leases[d] <= 1 then leases - {d}
    else leases[d := leases[d] - 1]
  }

  function Pred(n: nat): nat {
    if n == 0 then 0 else n - 1
  }

  function Opened(t: Temps): Temps {
    t.(count := t.count + 1)
  }

  /** A write is over: its temporary goes, unless removing it fails, which no one hears about. */
  function Closed(t: Temps, unremoved: bool): Temps {
    if unremoved then t.(stray := t.stray + 1) else t.(count := Pred(t.count))
  }

  /** What startup could not remove is left for the next start. */
  function Swept(t: Temps, left: nat): Temps {
    var n := if left < t.count then left else t.count;
    Temps(n, n)
  }

  /**
    Under the lease gate: take the lease, then rename onto the file's place, or
    remove the temporary if that content is already there.
  */
  function Published(w: World, d: string, unremoved: bool): World {
    w.(files := w.files + {d}, leases := Leased(w.leases, d), temps := Closed(w.temps, unremoved && d in w.files))
  }

  /** Digests whose last row went with the entries `gone`. */
  ghost predicate Orphans(db: Db, gone: set<int>, orphaned: seq<string>) {
    NoRepeats(orphaned) && ToSet(orphaned) == db.blobs.Keys - Without(db, gone).blobs.Keys
  }

  function IdentityOf(a: Actor): string {
    Encoded(a.parts)
  }

  // --------------------------------------------------------------- steps

  /** What a finished write may turn out to be. */
  predicate Acceptable(p: Part) {
    ValidMime(p.mime) && IsDigest(p.digest)
  }

  ghost predicate Enabled(w: World, a: Actor, c: Choice)
    requires a.prog != []
  {
    match a.prog[0]
    case Acquire => w.lock.None?
    case FinishPart(mime) => c.part.mime == mime && Acceptable(c.part)
    case FinishThumb(at) => c.part.mime == "image/png" && IsDigest(c.part.digest)
    case Evict =>
      c.fault || (EvictsTo(w.db, w.budget, c.removed) && Orphans(w.db, ToSet(c.removed), c.orphaned))
    case RemoveRow(id) => c.fault || Orphans(w.db, {id}, c.orphaned)
    case ClearRows => c.fault || Orphans(w.db, EligibleIds(w.db.entries, None), c.orphaned)
    case ExpireRows(cutoff, batch) =>
      c.fault || (ExpiresTo(w.db, cutoff, batch, c.removed) && Orphans(w.db, ToSet(c.removed), c.orphaned))
    case Scan => ToSet(c.listing) == w.files
    case _ => true
  }

  /** One instruction of actor `me`. */
  ghost function Exec(w: World, me: nat, a: Actor, c: Choice): (r: (World, Actor))
    requires a.prog != []
  {
    var rest := a.prog[1..];
    match a.prog[0]
    case Acquire => (w.(lock := Some(me)), a.(prog := rest))
    case Release => (w.(lock := None), a.(prog := rest))

    case FinishPart(mime) =>
      if c.fault then
        (w.(temps := Closed(w.temps, c.unremoved)), a.(writing := false, prog := []))
      else if c.unpublished then
        (w.(leases := Leased(w.leases, c.part.digest)), a.(failed := Some(c.part.digest), prog := [DropFailed]))
      else
        (Published(w, c.part.digest, c.unremoved), a.(parts := a.parts + [c.part], writing := false, prog := []))
    case FinishThumb(at) =>
      if c.fault then
        (w.(temps := Closed(w.temps, c.unremoved)), a.(writing := false, prog := DiscardCode(a.parts)))
      else if c.unpublished then
        (w.(leases := Leased(w.leases, c.part.digest)),
         a.(failed := Some(c.part.digest), prog := [DropFailed] + DiscardCode(a.parts)))
      else
        (Published(w, c.part.digest, c.unremoved),
         a.(thumb := Some(c.part), writing := false,
            prog := [Acquire, TouchAgain(at, c.facts.(thumb := Some(c.part)))]))
    case DropFailed =>
      (w.(leases := if a.failed.Some? then Unleased(w.leases, a.failed.value) else w.leases,
          temps := Closed(w.temps, c.unremoved)),
       a.(failed := None, writing := false, prog := rest))

    case TouchFirst(at) =>
      if c.fault then (w, a.(prog := [Release] + DiscardCode(a.parts)))
      else if FindIdentity(w.db.entries, IdentityOf(a)).Some? then
        (w.(db := Touched(w.db, IdentityOf(a), at)), a.(prog := [Release, Reply]))
      else (w, a.(prog := [Release, Derive(at)]))
    case Derive(at) =>
      if c.fault then (w, a.(prog := DiscardCode(a.parts)))
      else if c.thumbed then
        (w.(temps := Opened(w.temps)), a.(writing := true, prog := [FinishThumb(at)]))
      else (w, a.(prog := [Acquire, TouchAgain(at, c.facts.(thumb := None))]))
    case TouchAgain(at, facts) =>
      if c.fault then (w, a.(prog := FailedCommitCode(a)))
      else if FindIdentity(w.db.entries, IdentityOf(a)).Some? then
        (w.(db := Touched(w.db, IdentityOf(a), at)), a.(prog := [Evict]))
      else (w, a.(prog := [InsertRow(at, facts)]))
    case InsertRow(at, facts) =>
      if c.fault || !DistinctMimes(a.parts) then (w, a.(prog := FailedCommitCode(a)))
      else (w.(db := Inserted(w.db, IdentityOf(a), a.parts, facts, at)), a.(prog := [Evict]))
    case Evict =>
      if c.fault then (w, a.(prog := FailedCommitCode(a)))
      else (w.(db := Without(w.db, ToSet(c.removed))), a.(prog := FinishedCommitCode(a, c.orphaned)))
    case Reply =>
      (w, a.(prog := if c.unheard then DropLeases(|a.parts|) else DiscardCode(a.parts)))

    case DropThumb =>
      if a.thumb.None? then (w, a.(prog := rest))
      else (w.(leases := Unleased(w.leases, a.thumb.value.digest)), a.(thumb := None, prog := rest))
    case DropPart =>
      if a.parts == [] then (w, a.(prog := rest))
      else (w.(leases := Unleased(w.leases, a.parts[0].digest)), a.(parts := a.parts[1..], prog := rest))

    case Check(d) =>
      if c.fault || (d in w.db.blobs && w.db.blobs[d].refs > 0) then (w, a.(prog := rest))
      else (w, a.(prog := [Unlink(d)] + rest))
    case Unlink(d) =>
      if c.fault || d in w.leases then (w, a.(prog := rest))
      else (w.(files := w.files - {d}, synced := w.synced - {d}), a.(prog := rest))

    case RemoveRow(id) =>
      if c.fault || Find(w.db.entries, id).None? then (w, a.(prog := [Release]))
      else (w.(db := Without(w.db, {id})), a.(prog := [Release] + SweepCode(c.orphaned)))
    case ClearRows =>
      if c.fault then (w, a.(prog := [Release]))
      else (w.(db := Without(w.db, EligibleIds(w.db.entries, None))),
            a.(prog := [Release] + SweepCode(c.orphaned)))
    case ExpireRows(cutoff, batch) =>
      if c.fault then (w, a.(prog := [Release]))
      else (w.(db := Without(w.db, ToSet(c.removed))), a.(prog := [Release] + SweepCode(c.orphaned)))

    case StartPin(id, on) =>
      if c.fault || (on && Find(w.db.entries, id).None?) then (w, a.(prog := [Release]))
      else (w, a.(prog := (if on then Syncs(DigestsOf(w.db, id)) else []) + [SetPin(id, on), Release]))
    case Sync(d) =>
      if c.fault || d !in w.files then (w, a.(prog := [Release]))
      else (w.(synced := w.synced + {d}), a.(prog := rest))
    case SetPin(id, on) =>
      if c.fault then (w, a.(prog := rest))
      else (w.(db := Pinned(w.db, id, on)), a.(prog := rest))

    case SweepIncoming =>
      (w.(temps := Swept(w.temps, c.left)), if c.fault then a else a.(prog := rest))
    case Scan =>
      if c.fault then (w, a.(prog := [Release]))
      else (w, a.(prog := Unlinks(Unknown(c.listing, w.db.blobs)) + [Release]))
  }

  ghost predicate Run(s: State, i: nat, c: Choice, s': State) {
    && i < |s.actors| && s.actors[i].prog != []
    && Enabled(s.w, s.actors[i], c)
    && s' == (var r := Exec(s.w, i, s.actors[i], c); State(r.0, s.actors[i := r.1]))
  }

  // An idle draft: the session has answered its last frame and waits for the next.
  ghost predicate Idle(s: State, i: nat) {
    i < |s.actors| && s.actors[i].prog == [] && !s.actors[i].writing
  }

  /** A part frame opens a temporary, once its mime has been checked. */
  ghost predicate BeginPart(s: State, i: nat, mime: string, s': State) {
    && Idle(s, i) && i > 0 && ValidMime(mime)
    && s' == State(s.w.(temps := Opened(s.w.temps)),
                   s.actors[i := s.actors[i].(writing := true, prog := [FinishPart(mime)])])
  }

  /** A commit frame; a draft that is empty, a secret or larger than the budget commits to nothing. */
  ghost predicate BeginCommit(s: State, i: nat, at: int, s': State) {
    && Idle(s, i) && i > 0
    && var a := s.actors[i];
    s' == State(s.w, s.actors[i := a.(prog :=
      if a.parts == [] || AnySensitive(a.parts) || TotalOf(a.parts) > Room(s.w.budget)
      then DiscardCode(a.parts)
      else [Acquire, TouchFirst(at)])])
  }

  /** An abort frame, or the connection closing. */
  ghost predicate Abandon(s: State, i: nat, s': State) {
    Idle(s, i) && i > 0 && s' == State(s.w, s.actors[i := s.actors[i].(prog := DiscardCode(s.actors[i].parts))])
  }

  /** Sessions and maintenance start only after startup has reconciled. */
  ghost predicate Spawn(s: State, a: Actor, s': State) {
    && |s.actors| > 0 && s.actors[0].prog == []
    && (a == DRAFT || exists op: Op :: a == OpActor(op))
    && s' == State(s.w, s.actors + [a])
  }

  /** The process dies and the daemon is started again. */
  ghost predicate Crash(s: State, s': State) {
    s' == State(s.w.(leases := map[], lock := None), [STARTUP])
  }

  ghost predicate Next(s: State, s': State) {
    || (exists i: nat, c: Choice :: Run(s, i, c, s'))
    || (exists i: nat, mime: string :: BeginPart(s, i, mime, s'))
    || (exists i: nat, at: int :: BeginCommit(s, i, at, s'))
    || (exists i: nat :: Abandon(s, i, s'))
    || (exists a: Actor :: Spawn(s, a, s'))
    || Crash(s, s')
  }

  ghost function Boot(budget: int): State {
    State(World(EMPTY, {}, {}, Temps(0, 0), map[], None, budget), [STARTUP])
  }

  /** A run is a sequence of states from a first start; `Reachable` is a state some run ends in. */
  ghost predicate IsRun(states: seq<State>, budget: int) {
    && states != [] && states[0] == Boot(budget)
    && forall k | 0 < k < |states| :: Next(states[k - 1], states[k])
  }

  ghost predicate Reachable(s: State) {
    exists states: seq<State>, budget: int :: IsRun(states, budget) && states[|states| - 1] == s
  }
}
