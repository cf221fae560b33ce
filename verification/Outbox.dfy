/**
  What leaves the daemon: framed writes behind one lock per connection, and a
  bounded queue of events per watching connection.
*/
module Outbox {
  import opened Wrappers
  import opened Wire
  import opened Blobs

  const QUEUE := 64

  // --------------------------------------------------------- notifications

  /**
    One watching connection: its queue and the event its worker has in hand,
    what it was sent, whether it is still subscribed, whether its worker runs,
    and whether its socket is open.
  */
  datatype Watcher<E> = Watcher(
    queue: seq<E>,
    inHand: Option<E>,
    delivered: seq<E>,
    subscribed: bool,
    working: bool,
    open: bool)

  function Subscribed<E>(): Watcher<E> {
    Watcher([], None, [], true, true, true)
  }

  /** `broadcast` at one subscriber: queued if there is room, otherwise cut off for good. */
  function Offer<E>(w: Watcher<E>, event: E): Watcher<E> {
    if !w.subscribed then w
    else if !w.open then w.(subscribed := false)
    else if !w.working || |w.queue| >= QUEUE then w.(subscribed := false, open := false)
    else w.(queue := w.queue + [event])
  }

  /** The worker receives the next event; with none left and no sender, it ends. */
  function Receive<E>(w: Watcher<E>): Watcher<E> {
    if !w.working || w.inHand.Some? then w
    else if w.queue != [] then w.(queue := w.queue[1..], inHand := Some(w.queue[0]))
    else if !w.subscribed then w.(working := false)
    else w
  }

  /** The worker writes the event it has; a failed write closes the connection and ends the worker. */
  function Write<E>(w: Watcher<E>, fails: bool): Watcher<E> {
    if w.inHand.None? then w
    else if fails || !w.open then w.(queue := [], inHand := None, working := false, open := false)
    else w.(inHand := None, delivered := w.delivered + [w.inHand.value])
  }

  /** The session drops its subscription; what is queued may still be delivered. */
  function Leave<E>(w: Watcher<E>): Watcher<E> {
    w.(subscribed := false)
  }

  /** The socket goes: with the session's last hold on it, or because the peer left. */
  function Close<E>(w: Watcher<E>): Watcher<E> {
    w.(open := false)
  }

  function Ahead<E>(w: Watcher<E>): seq<E> {
    (if w.inHand.Some? then [w.inHand.value] else []) + w.queue
  }

  /** Everything this watcher has been or may still be sent. */
  function Segment<E>(w: Watcher<E>): seq<E> {
    w.delivered + Ahead(w)
  }

  /** `since` is what was broadcast after this watcher subscribed. */
  predicate NoGaps<E(==)>(w: Watcher<E>, since: seq<E>) {
    && |w.queue| <= QUEUE
    && Segment(w) <= since
    && (w.subscribed && w.working ==> Segment(w) == since)
    && (!w.working ==> Ahead(w) == [])
  }

  lemma OfferKeepsNoGaps<E>(w: Watcher<E>, since: seq<E>, event: E)
    requires NoGaps(w, since)
    ensures NoGaps(Offer(w, event), since + [event])
    ensures !w.subscribed ==> Offer(w, event) == w
  {
    if w.subscribed && w.open && w.working && |w.queue| < QUEUE {
      assert Ahead(Offer(w, event)) == Ahead(w) + [event];
      assert Segment(Offer(w, event)) == Segment(w) + [event];
    } else {
      assert Segment(Offer(w, event)) == Segment(w);
    }
  }

  lemma WorkKeepsNoGaps<E>(w: Watcher<E>, since: seq<E>, fails: bool)
    requires NoGaps(w, since)
    ensures NoGaps(Receive(w), since) && Segment(Receive(w)) == Segment(w)
    ensures NoGaps(Write(w, fails), since) && Segment(Write(w, fails)) <= Segment(w)
    ensures NoGaps(Leave(w), since) && Segment(Leave(w)) == Segment(w)
    ensures NoGaps(Close(w), since) && Segment(Close(w)) == Segment(w)
  {
    if w.working && w.inHand.None? && w.queue != [] {
      assert w.queue == [w.queue[0]] + w.queue[1..];
      assert Ahead(Receive(w)) == Ahead(w);
    }
    if w.inHand.Some? {
      assert w.delivered + ([w.inHand.value] + w.queue) == (w.delivered + [w.inHand.value]) + w.queue;
      assert Ahead(Write(w, fails)) == if fails || !w.open then [] else w.queue;
      assert w.delivered + [] == w.delivered;
      assert w.delivered <= Segment(w);
    }
    assert Segment(Leave(w)) == Segment(w) && Segment(Close(w)) == Segment(w);
  }

  ghost predicate AllNoGaps<E>(watchers: map<nat, Watcher<E>>, log: seq<E>, joined: map<nat, nat>) {
    && watchers.Keys == joined.Keys
    && forall i <- watchers :: joined[i] <= |log| && NoGaps(watchers[i], log[joined[i]..])
  }

  /** The registry while a broadcast has still to visit `left`. */
  ghost function Visiting<E>(before: map<nat, Watcher<E>>, left: set<nat>, event: E): map<nat, Watcher<E>> {
    map i | i in before :: if i in left then before[i] else Offer(before[i], event)
  }

  lemma VisitOne<E>(before: map<nat, Watcher<E>>, left: set<nat>, event: E, i: nat)
    requires i in left && i in before
    ensures Visiting(before, left, event)[i := Offer(before[i], event)] == Visiting(before, left - {i}, event)
  {
  }

  lemma OfferedToAll<E>(before: map<nat, Watcher<E>>, after: map<nat, Watcher<E>>, log: seq<E>,
                        joined: map<nat, nat>, event: E)
    requires AllNoGaps(before, log, joined) && after.Keys == before.Keys
    requires forall i <- before :: after[i] == Offer(before[i], event)
    ensures AllNoGaps(after, log + [event], joined)
  {
    forall i <- after
      ensures NoGaps(after[i], (log + [event])[joined[i]..])
    {
      OfferKeepsNoGaps(before[i], log[joined[i]..], event);
      assert (log + [event])[joined[i]..] == log[joined[i]..] + [event];
    }
  }

  lemma OneChanged<E>(watchers: map<nat, Watcher<E>>, log: seq<E>, joined: map<nat, nat>, id: nat, w: Watcher<E>)
    requires AllNoGaps(watchers, log, joined) && id in watchers && NoGaps(w, log[joined[id]..])
    ensures AllNoGaps(watchers[id := w], log, joined)
  {
  }

  /** Every subscription ever made, by number; the registry's entries are the subscribed ones. */
  class Watchers<E(==)> {
    var watchers: map<nat, Watcher<E>>
    var next: nat
    /** All events broadcast so far, and how many there were when each watcher subscribed. */
    ghost var log: seq<E>
    ghost var joined: map<nat, nat>

    ghost predicate Valid()
      reads this
    {
      AllNoGaps(watchers, log, joined) && forall i <- watchers :: i < next
    }

    constructor ()
      ensures Valid() && log == [] && watchers == map[]
    {
      watchers, next, log, joined := map[], 0, [], map[];
    }

    method Add() returns (id: nat)
      requires Valid()
      modifies this
      ensures Valid() && log == old(log)
      ensures id !in old(watchers) && watchers == old(watchers)[id := Subscribed()]
        && joined == old(joined)[id := |log|]
    {
      id := next;
      next := next + 1;
      watchers, joined := watchers[id := Subscribed()], joined[id := |log|];
    }

    /** Visits every registered watcher once, keeping those that could take the event. */
    method Retain(event: E)
      modifies this`watchers
      ensures watchers == Visiting(old(watchers), {}, event)
    {
      ghost var before := watchers;
      var todo := watchers.Keys;
      assert watchers == Visiting(before, todo, event);
      while todo != {}
        invariant todo <= before.Keys && watchers == Visiting(before, todo, event)
        decreases |todo|
      {
        var i :| i in todo;
        VisitOne(before, todo, event, i);
        watchers := watchers[i := Offer(watchers[i], event)];
        todo := todo - {i};
      }
    }

    /** Offers the event to every registered watcher, keeping those that could take it. */
    method Broadcast(event: E)
      requires Valid()
      modifies this`watchers, this`log
      ensures Valid() && log == old(log) + [event]
      ensures watchers.Keys == old(watchers).Keys
      ensures forall i <- watchers :: watchers[i] == Offer(old(watchers)[i], event)
    {
      ghost var before := watchers;
      Retain(event);
      OfferedToAll(before, watchers, log, joined, event);
      log := log + [event];
    }

    /** One step of a watcher's worker thread. */
    method Work(id: nat, writes: bool, fails: bool)
      requires Valid() && id in watchers
      modifies this`watchers
      ensures Valid() && watchers.Keys == old(watchers).Keys
      ensures watchers[id] == if writes then Write(old(watchers)[id], fails) else Receive(old(watchers)[id])
      ensures forall i <- watchers | i != id :: watchers[i] == old(watchers)[i]
    {
      var w := if writes then Write(watchers[id], fails) else Receive(watchers[id]);
      WorkKeepsNoGaps(watchers[id], log[joined[id]..], fails);
      OneChanged(watchers, log, joined, id, w);
      watchers := watchers[id := w];
    }

    /** A subscription is dropped with its session. */
    method Drop(id: nat)
      requires Valid() && id in watchers
      modifies this`watchers
      ensures Valid() && watchers.Keys == old(watchers).Keys
      ensures watchers[id] == Leave(old(watchers)[id])
      ensures forall i <- watchers | i != id :: watchers[i] == old(watchers)[i]
    {
      WorkKeepsNoGaps(watchers[id], log[joined[id]..], false);
      OneChanged(watchers, log, joined, id, Leave(watchers[id]));
      watchers := watchers[id := Leave(watchers[id])];
    }
  }

  // ------------------------------------------------- one watcher, any order

  datatype Step<E> = Broadcast(event: E) | Receives | Writes(fails: bool) | Leaves | Closes

  function StepOne<E>(w: Watcher<E>, step: Step<E>): Watcher<E> {
    match step
    case Broadcast(event) => Offer(w, event)
    case Receives => Receive(w)
    case Writes(fails) => Write(w, fails)
    case Leaves => Leave(w)
    case Closes => Close(w)
  }

  function RunSteps<E>(w: Watcher<E>, steps: seq<Step<E>>): Watcher<E> {
    if steps == [] then w else StepOne(RunSteps(w, steps[..|steps| - 1]), steps[|steps| - 1])
  }

  function Broadcasts<E>(steps: seq<Step<E>>): seq<E> {
    if steps == [] then []
    else
      var before, last := Broadcasts(steps[..|steps| - 1]), steps[|steps| - 1];
      if last.Broadcast? then before + [last.event] else before
  }

  lemma {:induction false} AnyOrder<E>(steps: seq<Step<E>>)
    ensures NoGaps(RunSteps(Subscribed(), steps), Broadcasts(steps))
  {
    if steps != [] {
      var front, last := steps[..|steps| - 1], steps[|steps| - 1];
      var w := RunSteps(Subscribed(), front);
      AnyOrder(front);
      if last.Broadcast? {
        OfferKeepsNoGaps(w, Broadcasts(front), last.event);
      } else {
        WorkKeepsNoGaps(w, Broadcasts(front), last.Writes? && last.fails);
      }
    }
  }

  /**
    However broadcasts, the worker and the session's end interleave: what was
    delivered, then what is in hand and queued, are the first events broadcast
    since the subscription, none skipped, and all of them while it lives. The
    queue never holds more than 64.
  */
  lemma SubscriberSeesASegment<E>(steps: seq<Step<E>>)
    ensures var w := RunSteps(Subscribed(), steps);
      && w.delivered <= Segment(w) <= Broadcasts(steps)
      && (w.subscribed && w.working ==> Segment(w) == Broadcasts(steps))
      && |w.queue| <= QUEUE
  {
    AnyOrder(steps);
  }

  /** A watcher that is subscribed and up to date was sent exactly what was broadcast. */
  lemma UpToDate<E>(steps: seq<Step<E>>)
    requires var w := RunSteps(Subscribed(), steps); w.subscribed && w.working && Ahead(w) == []
    ensures RunSteps(Subscribed(), steps).delivered == Broadcasts(steps)
  {
    SubscriberSeesASegment(steps);
    var delivered := RunSteps(Subscribed(), steps).delivered;
    assert delivered + [] == delivered;
  }

  /** Once cut off, a watcher is never sent anything that was not already on its way. */
  lemma {:induction false} CutOffIsFinal<E>(w: Watcher<E>, since: seq<E>, steps: seq<Step<E>>)
    requires NoGaps(w, since) && !w.subscribed
    ensures !RunSteps(w, steps).subscribed && Segment(RunSteps(w, steps)) <= Segment(w)
    ensures NoGaps(RunSteps(w, steps), since)
  {
    if steps != [] {
      var front, last := steps[..|steps| - 1], steps[|steps| - 1];
      var v := RunSteps(w, front);
      CutOffIsFinal(w, since, front);
      WorkKeepsNoGaps(v, since, last.Writes? && last.fails);
    }
  }

  // ------------------------------------------------------------ the socket

  /**
    One connection's socket behind its lock: what has been written, the units
    written whole, and the unit the lock holder is part way through. A unit is
    an answer or event line, or a line with its payload.
  */
  datatype Pipe = Pipe(wire: seq<byte>, whole: seq<seq<byte>>, held: Option<(seq<byte>, nat)>)

  datatype PipeStep = Lock(unit: seq<byte>) | Put(n: nat) | Unlock | GiveUp

  predicate CanStep(p: Pipe, step: PipeStep) {
    match step
    case Lock(_) => p.held.None?
    case Put(n) => p.held.Some? && p.held.value.1 + n <= |p.held.value.0|
    case Unlock => p.held.Some? && p.held.value.1 == |p.held.value.0|
    case GiveUp => p.held.Some?
  }

  /** `GiveUp` is a write or a content file that failed: the lock is released where the unit stands. */
  function StepPipe(p: Pipe, step: PipeStep): Pipe
    requires CanStep(p, step)
  {
    match step
    case Lock(unit) => p.(held := Some((unit, 0)))
    case Put(n) =>
      var (unit, sent) := p.held.value;
      p.(wire := p.wire + unit[sent..sent + n], held := Some((unit, sent + n)))
    case Unlock => p.(held := None, whole := p.whole + [p.held.value.0])
    case GiveUp => p.(held := None)
  }

  /** The socket carries whole units, and then a beginning of the one being written. */
  predicate Whole(p: Pipe) {
    match p.held
    case None => p.wire == Concat(p.whole)
    case Some((unit, sent)) => sent <= |unit| && p.wire == Concat(p.whole) + unit[..sent]
  }

  /**
    No unit is ever interleaved with another, whichever threads write; giving
    up is harmless exactly before the first byte.
  */
  lemma StepsKeepWhole(p: Pipe, step: PipeStep)
    requires Whole(p) && CanStep(p, step)
    ensures Whole(StepPipe(p, step)) <==> (step.GiveUp? ==> p.held.value.1 == 0)
  {
    match step
    case Lock(unit) => assert unit[..0] == [] && p.wire + [] == p.wire;
    case Put(n) =>
      var (unit, sent) := p.held.value;
      assert unit[..sent] + unit[sent..sent + n] == unit[..sent + n];
      assert Concat(p.whole) + (unit[..sent] + unit[sent..sent + n])
        == Concat(p.whole) + unit[..sent] + unit[sent..sent + n];
    case Unlock =>
      var (unit, sent) := p.held.value;
      assert unit[..sent] == unit && (p.whole + [unit])[..|p.whole|] == p.whole;
    case GiveUp =>
      var (unit, sent) := p.held.value;
      assert |p.wire| == |Concat(p.whole)| + sent;
      assert sent == 0 ==> unit[..sent] == [] && p.wire == Concat(p.whole);
  }

  // ------------------------------------------------------ the socket, runs

  /** Any interleaving of the threads that write to one connection. */
  ghost predicate IsPiping(pipes: seq<Pipe>, steps: seq<PipeStep>) {
    && |pipes| == |steps| + 1 && pipes[0] == Pipe([], [], None)
    && forall k | 0 <= k < |steps| :: CanStep(pipes[k], steps[k]) && pipes[k + 1] == StepPipe(pipes[k], steps[k])
  }

  function Sent(p: Pipe): nat {
    if p.held.Some? then p.held.value.1 else 0
  }

  /** Bytes of units that were given up. */
  function Torn(pipes: seq<Pipe>, steps: seq<PipeStep>): nat
    requires |pipes| == |steps| + 1
  {
    if steps == [] then 0
    else
      var n := |steps| - 1;
      Torn(pipes[..n + 1], steps[..n]) + if steps[n].GiveUp? then Sent(pipes[n]) else 0
  }

  lemma LengthStep(p: Pipe, step: PipeStep)
    requires CanStep(p, step)
    ensures var q := StepPipe(p, step);
      |q.wire| - |Concat(q.whole)| - Sent(q)
      == |p.wire| - |Concat(p.whole)| - Sent(p) + if step.GiveUp? then Sent(p) else 0
  {
    if step.Unlock? {
      assert (p.whole + [p.held.value.0])[..|p.whole|] == p.whole;
    }
  }

  lemma {:induction false} LengthsAddUp(pipes: seq<Pipe>, steps: seq<PipeStep>)
    requires IsPiping(pipes, steps)
    ensures var p := pipes[|steps|]; |p.wire| == |Concat(p.whole)| + Sent(p) + Torn(pipes, steps)
    decreases |steps|
  {
    if steps != [] {
      var n := |steps| - 1;
      assert pipes[..n + 1][n] == pipes[n];
      LengthsAddUp(pipes[..n + 1], steps[..n]);
      LengthStep(pipes[n], steps[n]);
    }
  }

  lemma {:induction false} TornMeans(pipes: seq<Pipe>, steps: seq<PipeStep>)
    requires |pipes| == |steps| + 1
    ensures Torn(pipes, steps) == 0 <==> forall k | 0 <= k < |steps| && steps[k].GiveUp? :: Sent(pipes[k]) == 0
    decreases |steps|
  {
    if steps != [] {
      var n := |steps| - 1;
      TornMeans(pipes[..n + 1], steps[..n]);
      assert forall k | 0 <= k < n :: steps[..n][k] == steps[k] && pipes[..n + 1][k] == pipes[k];
    }
  }

  lemma {:induction false} HarmlessStaysWhole(pipes: seq<Pipe>, steps: seq<PipeStep>)
    requires IsPiping(pipes, steps) && forall k | 0 <= k < |steps| && steps[k].GiveUp? :: Sent(pipes[k]) == 0
    ensures Whole(pipes[|steps|])
    decreases |steps|
  {
    if steps != [] {
      var n := |steps| - 1;
      assert forall k | 0 <= k < n :: steps[..n][k] == steps[k] && pipes[..n + 1][k] == pipes[k];
      assert pipes[..n + 1][n] == pipes[n];
      HarmlessStaysWhole(pipes[..n + 1], steps[..n]);
      StepsKeepWhole(pipes[n], steps[n]);
    }
  }

  /**
    However many threads answer, send blobs and deliver events on one
    connection: what it carries is units one after another, and a beginning of
    the next, if and only if no unit was ever given up after its first byte.
    One that was is never made good.
  */
  lemma ConnectionStaysWhole(pipes: seq<Pipe>, steps: seq<PipeStep>)
    requires IsPiping(pipes, steps)
    ensures Whole(pipes[|steps|]) <==> forall k | 0 <= k < |steps| && steps[k].GiveUp? :: Sent(pipes[k]) == 0
  {
    LengthsAddUp(pipes, steps);
    TornMeans(pipes, steps);
    if forall k | 0 <= k < |steps| && steps[k].GiveUp? :: Sent(pipes[k]) == 0 {
      HarmlessStaysWhole(pipes, steps);
    }
  }

  /** Why a blob that ends early ends the session: an event written next lands where its payload was promised. */
  lemma EventInsideAPayload(p: Pipe, event: seq<byte>)
    requires Whole(p) && p.held.Some? && p.held.value.1 < |p.held.value.0|
    ensures var (unit, sent) := p.held.value;
      var torn := StepPipe(StepPipe(StepPipe(p, GiveUp), Lock(event)), Put(|event|));
      torn.wire == Concat(p.whole) + unit[..sent] + event
  {
    assert event[0..0 + |event|] == event;
  }
}
