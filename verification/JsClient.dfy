/**
  How the shell extension's client shares one connection between calls.

  Every call's writes go through one promise chain, so at most one call is
  writing; between any two writes, and in the middle of one, other calls may
  queue up. A call is one request, or one part streamed in chunks.
*/
module JsClient {
  import opened Wrappers
  import opened Wire
  import PythonClient

  datatype Task = Say(request: Request) | Stream(req: nat, draft: nat, mime: string)

  /** The call whose turn it is: the chunks it has begun, and what is left of the buffer it is writing. */
  datatype Running = Running(task: Task, chunks: seq<seq<byte>>, pending: seq<byte>, stopping: bool)

  /** `said` are the calls that were written out whole. */
  datatype Sender = Sender(wire: seq<byte>, queue: seq<Task>, now: Option<Running>, said: seq<Heard>)

  datatype Step =
    | Enqueue(task: Task)
    | Start
    | Push(n: nat)
    | ReadChunk(c: seq<byte>)
    | StopPart
    | Settle
    | WriteFails

  function FirstLine(task: Task): Request {
    match task
    case Say(request) => request
    case Stream(req, draft, mime) => Part(req, draft, mime, None)
  }

  function ChunkBytes(codec: Codec, c: seq<byte>): seq<byte> {
    LineOf(codec, Chunk(|c|)) + c
  }

  /** The buffer the running call is in the middle of. */
  function Buffer(codec: Codec, r: Running): seq<byte> {
    if r.stopping then LineOf(codec, Chunk(0))
    else if r.chunks == [] then LineOf(codec, FirstLine(r.task))
    else ChunkBytes(codec, r.chunks[|r.chunks| - 1])
  }

  predicate Enabled(s: Sender, step: Step) {
    match step
    case Enqueue(task) => task.Say? ==> !task.request.Part? && !task.request.Chunk?
    case Start => s.now.None? && s.queue != []
    case Push(n) => s.now.Some? && 0 < n <= |s.now.value.pending|
    case ReadChunk(c) => s.now.Some? && s.now.value.task.Stream? && !s.now.value.stopping
      && s.now.value.pending == [] && c != []
    case StopPart => s.now.Some? && s.now.value.task.Stream? && !s.now.value.stopping && s.now.value.pending == []
    case Settle => s.now.Some? && s.now.value.pending == [] && (s.now.value.task.Say? || s.now.value.stopping)
    case WriteFails => s.now.Some? && s.now.value.pending != []
  }

  function UnitOf(r: Running): Heard {
    match r.task
    case Say(request) => Asked(request)
    case Stream(req, draft, mime) => Chunked(req, draft, mime, r.chunks)
  }

  function Front<T>(s: seq<T>): seq<T> {
    if s == [] then [] else s[..|s| - 1]
  }

  function Apply(codec: Codec, s: Sender, step: Step): Sender
    requires Enabled(s, step)
  {
    match step
    case Enqueue(task) => s.(queue := s.queue + [task])
    case Start =>
      s.(queue := s.queue[1..], now := Some(Running(s.queue[0], [], LineOf(codec, FirstLine(s.queue[0])), false)))
    case Push(n) =>
      var r := s.now.value;
      s.(wire := s.wire + r.pending[..n], now := Some(r.(pending := r.pending[n..])))
    case ReadChunk(c) =>
      s.(now := Some(s.now.value.(chunks := s.now.value.chunks + [c], pending := ChunkBytes(codec, c))))
    // The source ended, or raised: the terminator is written either way.
    case StopPart => s.(now := Some(s.now.value.(stopping := true, pending := LineOf(codec, Chunk(0)))))
    case Settle => s.(now := None, said := s.said + [UnitOf(s.now.value)])
    case WriteFails =>
      var r := s.now.value;
      if r.task.Say? || r.chunks == [] || r.stopping then s.(now := None)
      else s.(now := Some(r.(chunks := Front(r.chunks), stopping := true, pending := LineOf(codec, Chunk(0)))))
  }

  // ------------------------------------------------------------- invariant

  /** All the bytes of the running call up to the end of its current buffer. */
  function Intended(codec: Codec, r: Running): seq<byte> {
    LineOf(codec, FirstLine(r.task)) + EncodeChunks(codec, r.chunks)
    + if r.stopping then LineOf(codec, Chunk(0)) else []
  }

  predicate RunningOk(codec: Codec, r: Running) {
    && (r.task.Say? ==> r.chunks == [] && !r.stopping && !r.task.request.Part? && !r.task.request.Chunk?)
    && (forall c <- r.chunks :: c != [])
    && |r.pending| <= |Buffer(codec, r)| && r.pending == Buffer(codec, r)[|Buffer(codec, r)| - |r.pending|..]
  }

  /** The wire is whole requests, and then a beginning of the one being written. */
  predicate Framed(codec: Codec, s: Sender) {
    && (forall h <- s.said :: Proper(h))
    && (forall t <- s.queue :: t.Say? ==> !t.request.Part? && !t.request.Chunk?)
    && match s.now
       case None => s.wire == EncodeAll(codec, s.said)
       case Some(r) => RunningOk(codec, r) && s.wire + r.pending == EncodeAll(codec, s.said) + Intended(codec, r)
  }

  /** A write that failed did no harm: not a byte of its buffer went out, and it was no terminator. */
  predicate Harmless(codec: Codec, s: Sender) {
    s.now.Some? && |s.now.value.pending| == |Buffer(codec, s.now.value)| && !s.now.value.stopping
  }

  lemma Fresh(codec: Codec, hello: Request)
    requires hello.Hello?
    ensures Framed(codec, Sender(LineOf(codec, hello), [], None, [Asked(hello)]))
  {
    assert [Asked(hello)][1..] == [];
    assert LineOf(codec, hello) + [] == LineOf(codec, hello);
  }

  lemma StartKeeps(codec: Codec, s: Sender)
    requires Framed(codec, s) && Enabled(s, Start)
    ensures Framed(codec, Apply(codec, s, Start))
  {
    var t := s.queue[0];
    var line := LineOf(codec, FirstLine(t));
    assert t in s.queue;
    assert line + EncodeChunks(codec, []) + [] == line;
  }

  lemma PushKeeps(codec: Codec, s: Sender, n: nat)
    requires Framed(codec, s) && Enabled(s, Push(n))
    ensures Framed(codec, Apply(codec, s, Push(n)))
  {
    MovedAlong(s.wire, s.now.value.pending, n);
    PushedOk(codec, s.now.value, n);
  }

  lemma PushedOk(codec: Codec, r: Running, n: nat)
    requires RunningOk(codec, r) && n <= |r.pending|
    ensures RunningOk(codec, r.(pending := r.pending[n..]))
    ensures Intended(codec, r.(pending := r.pending[n..])) == Intended(codec, r)
  {
    StillATail(Buffer(codec, r), r.pending, n);
  }

  lemma MovedAlong(wire: seq<byte>, pending: seq<byte>, n: nat)
    requires n <= |pending|
    ensures wire + pending[..n] + pending[n..] == wire + pending
  {
    Regroup(wire, pending[..n], pending[n..]);
    assert pending[..n] + pending[n..] == pending;
  }

  lemma StillATail(buffer: seq<byte>, pending: seq<byte>, n: nat)
    requires n <= |pending| <= |buffer| && pending == buffer[|buffer| - |pending|..]
    ensures pending[n..] == buffer[|buffer| - |pending[n..]|..]
  {
  }

  lemma ReadChunkKeeps(codec: Codec, s: Sender, c: seq<byte>)
    requires Framed(codec, s) && Enabled(s, ReadChunk(c))
    ensures Framed(codec, Apply(codec, s, ReadChunk(c)))
  {
    var r := s.now.value;
    var after := Apply(codec, s, ReadChunk(c)).now.value;
    PythonClient.ChunkedOneMore(codec, r.chunks, c);
    var head, body, more := LineOf(codec, FirstLine(r.task)), EncodeChunks(codec, r.chunks), ChunkBytes(codec, c);
    assert s.wire + [] == s.wire && head + body + [] == head + body
      && head + (body + more) + [] == head + (body + more);
    Regroup(head, body, more);
    Regroup(EncodeAll(codec, s.said), head + body, more);
    assert Intended(codec, after) == head + body + more;
  }

  lemma StopKeeps(codec: Codec, s: Sender)
    requires Framed(codec, s) && Enabled(s, StopPart)
    ensures Framed(codec, Apply(codec, s, StopPart))
  {
    var r := s.now.value;
    var stop := LineOf(codec, Chunk(0));
    var sofar := LineOf(codec, FirstLine(r.task)) + EncodeChunks(codec, r.chunks);
    assert s.wire + [] == s.wire && sofar + [] == sofar;
    Regroup(EncodeAll(codec, s.said), sofar, stop);
  }

  lemma SettleKeeps(codec: Codec, s: Sender)
    requires Framed(codec, s) && Enabled(s, Settle)
    ensures Framed(codec, Apply(codec, s, Settle))
  {
    var r := s.now.value;
    PythonClient.EncodedOneMore(codec, s.said, UnitOf(r));
    assert s.wire + [] == s.wire;
    var line := LineOf(codec, FirstLine(r.task));
    assert line + EncodeChunks(codec, []) + [] == line;
  }

  /** As long as no write fails, whatever calls are made and however short the writes are, the wire stays framed. */
  lemma StepsStayFramed(codec: Codec, s: Sender, step: Step)
    requires Framed(codec, s) && Enabled(s, step) && !step.WriteFails?
    ensures Framed(codec, Apply(codec, s, step))
  {
    match step
    case Enqueue(_) =>
    case Start => StartKeeps(codec, s);
    case Push(n) => PushKeeps(codec, s, n);
    case ReadChunk(c) => ReadChunkKeeps(codec, s, c);
    case StopPart => StopKeeps(codec, s);
    case Settle => SettleKeeps(codec, s);
  }

  lemma LongerDiffers(a: seq<byte>, b: seq<byte>)
    requires |a| != |b|
    ensures a != b
  {
  }

  /** A failed write keeps the connection framed exactly when it was harmless. */
  lemma FailedWriteKeepsFraming(codec: Codec, s: Sender)
    requires Framed(codec, s) && Enabled(s, WriteFails)
    ensures Framed(codec, Apply(codec, s, WriteFails)) <==> Harmless(codec, s)
  {
    var r := s.now.value;
    if r.task.Say? || r.chunks == [] || r.stopping {
      if r.stopping {
        TerminatorFails(codec, s);
      } else {
        LineFails(codec, s);
      }
    } else {
      ChunkFails(codec, s);
    }
  }

  /** The call ends with the terminator missing, all of it or a part, so its unit is torn either way. */
  lemma TerminatorFails(codec: Codec, s: Sender)
    requires Framed(codec, s) && Enabled(s, WriteFails) && s.now.value.stopping
    ensures !Framed(codec, s.(now := None))
  {
    var r := s.now.value;
    var all, head, body := EncodeAll(codec, s.said), LineOf(codec, FirstLine(r.task)), EncodeChunks(codec, r.chunks);
    assert |s.wire| + |r.pending| == |all| + (|head| + |body| + |LineOf(codec, Chunk(0))|);
    LongerDiffers(s.wire, all);
  }

  lemma LineFails(codec: Codec, s: Sender)
    requires Framed(codec, s) && Enabled(s, WriteFails) && !s.now.value.stopping && s.now.value.chunks == []
    ensures Framed(codec, s.(now := None)) <==> |s.now.value.pending| == |Buffer(codec, s.now.value)|
  {
    var r := s.now.value;
    var all, head := EncodeAll(codec, s.said), LineOf(codec, FirstLine(r.task));
    LineAlone(codec, r);
    assert |s.wire| + |r.pending| == |all| + |head|;
    if |r.pending| < |head| {
      LongerDiffers(s.wire, all);
    } else {
      SameTail(s.wire, all, head);
    }
  }

  lemma LineAlone(codec: Codec, r: Running)
    requires RunningOk(codec, r) && !r.stopping && r.chunks == []
    ensures Intended(codec, r) == Buffer(codec, r) == LineOf(codec, FirstLine(r.task))
    ensures |r.pending| == |Buffer(codec, r)| ==> r.pending == Buffer(codec, r)
  {
    var head := LineOf(codec, FirstLine(r.task));
    assert EncodeChunks(codec, []) == [] && head + [] + [] == head;
  }

  lemma SameTail(a: seq<byte>, b: seq<byte>, tail: seq<byte>)
    requires a + tail == b + tail
    ensures a == b
  {
    TakeDrop(a, tail);
    TakeDrop(b, tail);
  }

  lemma ChunkFails(codec: Codec, s: Sender)
    requires Framed(codec, s) && Enabled(s, WriteFails)
    requires s.now.value.task.Stream? && s.now.value.chunks != [] && !s.now.value.stopping
    ensures Framed(codec, Apply(codec, s, WriteFails)) <==> Harmless(codec, s)
  {
    var r := s.now.value;
    var after := Apply(codec, s, WriteFails).now.value;
    var front, last := Front(r.chunks), r.chunks[|r.chunks| - 1];
    var sofar := LineOf(codec, FirstLine(r.task)) + EncodeChunks(codec, front);
    IntendedChunk(codec, r);
    BufferTorn(s.wire, r.pending, EncodeAll(codec, s.said), sofar, ChunkBytes(codec, last), LineOf(codec, Chunk(0)));
    StoppedOk(codec, r);
  }

  lemma StoppedOk(codec: Codec, r: Running)
    requires RunningOk(codec, r) && r.task.Stream?
    ensures RunningOk(codec, r.(chunks := Front(r.chunks), stopping := true, pending := LineOf(codec, Chunk(0))))
  {
    assert forall c <- Front(r.chunks) :: c in r.chunks;
  }

  /** What the call would have sent with its last chunk, and what it sends after giving that chunk up. */
  lemma IntendedChunk(codec: Codec, r: Running)
    requires r.task.Stream? && r.chunks != [] && !r.stopping
    ensures var sofar := LineOf(codec, FirstLine(r.task)) + EncodeChunks(codec, Front(r.chunks));
      && Intended(codec, r) == sofar + ChunkBytes(codec, r.chunks[|r.chunks| - 1])
      && Intended(codec, r.(chunks := Front(r.chunks), stopping := true, pending := LineOf(codec, Chunk(0))))
         == sofar + LineOf(codec, Chunk(0))
  {
    var front, last := Front(r.chunks), r.chunks[|r.chunks| - 1];
    assert r.chunks == front + [last];
    PythonClient.ChunkedOneMore(codec, front, last);
    Regroup(LineOf(codec, FirstLine(r.task)), EncodeChunks(codec, front), ChunkBytes(codec, last));
    assert Intended(codec, r) + [] == Intended(codec, r);
  }

  /** With a buffer cut short, what follows is in place exactly when none of the buffer went out. */
  lemma BufferTorn(wire: seq<byte>, pending: seq<byte>, all: seq<byte>, sofar: seq<byte>, buffer: seq<byte>,
                   stop: seq<byte>)
    requires wire + pending == all + (sofar + buffer)
    requires |pending| <= |buffer| && pending == buffer[|buffer| - |pending|..]
    ensures wire + stop == all + (sofar + stop) <==> |pending| == |buffer|
  {
    assert |wire| + |pending| == |all| + (|sofar| + |buffer|);
    if |pending| < |buffer| {
      LongerDiffers(wire + stop, all + (sofar + stop));
    } else {
      assert pending == buffer;
      Regroup(all, sofar, buffer);
      SameTail(wire, all + sofar, buffer);
      Regroup(all, sofar, stop);
    }
  }

  // ------------------------------------------------------------------ runs

  /** Any interleaving of calls from a finished handshake, whatever writes fail. */
  ghost predicate IsRun(codec: Codec, states: seq<Sender>, steps: seq<Step>, hello: Request) {
    && hello.Hello? && |states| == |steps| + 1
    && states[0] == Sender(LineOf(codec, hello), [], None, [Asked(hello)])
    && forall k | 0 <= k < |steps| ::
         Enabled(states[k], steps[k]) && states[k + 1] == Apply(codec, states[k], steps[k])
  }

  /** Every write that failed was harmless. */
  ghost predicate Unharmed(codec: Codec, states: seq<Sender>, steps: seq<Step>)
    requires |states| == |steps| + 1
  {
    forall k | 0 <= k < |steps| && steps[k].WriteFails? :: Harmless(codec, states[k])
  }

  lemma UnharmedFront(codec: Codec, states: seq<Sender>, steps: seq<Step>, n: nat)
    requires |states| == |steps| + 1 && |steps| == n + 1
    ensures Unharmed(codec, states, steps) <==>
      Unharmed(codec, states[..n + 1], steps[..n]) && (steps[n].WriteFails? ==> Harmless(codec, states[n]))
  {
    assert forall k | 0 <= k < n :: steps[..n][k] == steps[k] && states[..n + 1][k] == states[k];
  }

  lemma FrontRuns(codec: Codec, states: seq<Sender>, steps: seq<Step>, hello: Request, n: nat)
    requires IsRun(codec, states, steps, hello) && |steps| == n + 1
    ensures IsRun(codec, states[..n + 1], steps[..n], hello) && states[..n + 1][n] == states[n]
    ensures Enabled(states[n], steps[n]) && states[n + 1] == Apply(codec, states[n], steps[n])
  {
  }

  // Bytes the calls made so far still owe the wire: none while it is framed, and fewer than none once a unit is torn.

  /** The calls are in order, wherever the wire stands. */
  predicate Shaped(codec: Codec, s: Sender) {
    && (forall h <- s.said :: Proper(h))
    && (forall t <- s.queue :: t.Say? ==> !t.request.Part? && !t.request.Chunk?)
    && (s.now.Some? ==> RunningOk(codec, s.now.value))
  }

  function Owed(codec: Codec, s: Sender): int {
    |EncodeAll(codec, s.said)| - |s.wire|
    + match s.now
      case None => 0
      case Some(r) => |Intended(codec, r)| - |r.pending|
  }

  /** What a failed write leaves on the wire that its call no longer answers for. */
  function Lost(codec: Codec, r: Running): int {
    if r.task.Say? || r.chunks == [] || r.stopping then |Intended(codec, r)| - |r.pending|
    else |Buffer(codec, r)| - |r.pending|
  }

  lemma LostMeans(codec: Codec, s: Sender)
    requires Shaped(codec, s) && Enabled(s, WriteFails)
    ensures Lost(codec, s.now.value) >= 0
    ensures Lost(codec, s.now.value) == 0 <==> Harmless(codec, s)
  {
    var r := s.now.value;
    if !r.stopping && r.chunks == [] {
      LineAlone(codec, r);
    }
  }

  lemma OwedOnFailure(codec: Codec, s: Sender)
    requires Shaped(codec, s) && Enabled(s, WriteFails)
    ensures Shaped(codec, Apply(codec, s, WriteFails))
    ensures Owed(codec, Apply(codec, s, WriteFails)) == Owed(codec, s) - Lost(codec, s.now.value)
  {
    var r := s.now.value;
    if !(r.task.Say? || r.chunks == [] || r.stopping) {
      IntendedChunk(codec, r);
      StoppedOk(codec, r);
    }
  }

  lemma OwedOnStart(codec: Codec, s: Sender)
    requires Shaped(codec, s) && Enabled(s, Start)
    ensures Shaped(codec, Apply(codec, s, Start)) && Owed(codec, Apply(codec, s, Start)) == Owed(codec, s)
  {
    assert s.queue[0] in s.queue && forall t <- s.queue[1..] :: t in s.queue;
    LineAlone(codec, Apply(codec, s, Start).now.value);
  }

  lemma OwedOnChunk(codec: Codec, s: Sender, c: seq<byte>)
    requires Shaped(codec, s) && Enabled(s, ReadChunk(c))
    ensures Shaped(codec, Apply(codec, s, ReadChunk(c))) && Owed(codec, Apply(codec, s, ReadChunk(c))) == Owed(codec, s)
  {
    PythonClient.ChunkedOneMore(codec, s.now.value.chunks, c);
  }

  lemma OwedOnSettle(codec: Codec, s: Sender)
    requires Shaped(codec, s) && Enabled(s, Settle)
    ensures Shaped(codec, Apply(codec, s, Settle)) && Owed(codec, Apply(codec, s, Settle)) == Owed(codec, s)
  {
    PythonClient.EncodedOneMore(codec, s.said, UnitOf(s.now.value));
  }

  lemma OwedStep(codec: Codec, s: Sender, step: Step)
    requires Shaped(codec, s) && Enabled(s, step)
    ensures Shaped(codec, Apply(codec, s, step))
    ensures Owed(codec, Apply(codec, s, step)) == Owed(codec, s)
      - if step.WriteFails? then Lost(codec, s.now.value) else 0
  {
    match step
    case Enqueue(_) =>
    case Start => OwedOnStart(codec, s);
    case Push(n) => PushedOk(codec, s.now.value, n);
    case ReadChunk(c) => OwedOnChunk(codec, s, c);
    case StopPart =>
    case Settle => OwedOnSettle(codec, s);
    case WriteFails => OwedOnFailure(codec, s);
  }

  lemma {:induction false} RunsOwe(codec: Codec, states: seq<Sender>, steps: seq<Step>, hello: Request)
    requires IsRun(codec, states, steps, hello)
    ensures var s := states[|steps|];
      && Shaped(codec, s) && Owed(codec, s) <= 0
      && (Owed(codec, s) == 0 <==> Unharmed(codec, states, steps))
    decreases |steps|
  {
    if steps == [] {
      Fresh(codec, hello);
    } else {
      var n := |steps| - 1;
      FrontRuns(codec, states, steps, hello, n);
      RunsOwe(codec, states[..n + 1], steps[..n], hello);
      UnharmedFront(codec, states, steps, n);
      OwedStep(codec, states[n], steps[n]);
      if steps[n].WriteFails? {
        LostMeans(codec, states[n]);
      }
    }
  }

  lemma FramedOwesNothing(codec: Codec, s: Sender)
    requires Framed(codec, s)
    ensures Owed(codec, s) == 0
  {
    if s.now.Some? {
      var r := s.now.value;
      assert |s.wire + r.pending| == |EncodeAll(codec, s.said) + Intended(codec, r)|;
    }
  }

  lemma {:induction false} RunsStayFramed(codec: Codec, states: seq<Sender>, steps: seq<Step>, hello: Request)
    requires IsRun(codec, states, steps, hello) && Unharmed(codec, states, steps)
    ensures Framed(codec, states[|steps|])
    decreases |steps|
  {
    if steps == [] {
      Fresh(codec, hello);
    } else {
      var n := |steps| - 1;
      FrontRuns(codec, states, steps, hello, n);
      UnharmedFront(codec, states, steps, n);
      RunsStayFramed(codec, states[..n + 1], steps[..n], hello);
      if steps[n].WriteFails? {
        FailedWriteKeepsFraming(codec, states[n]);
      } else {
        StepsStayFramed(codec, states[n], steps[n]);
      }
    }
  }

  /**
    Over any run, however calls interleave and writes are cut: what went out is
    whole requests and a beginning of the one being written, if and only if
    every write that failed was harmless. A connection once torn stays torn.
  */
  lemma ConnectionStaysFramed(codec: Codec, states: seq<Sender>, steps: seq<Step>, hello: Request)
    requires IsRun(codec, states, steps, hello)
    ensures Framed(codec, states[|steps|]) <==> Unharmed(codec, states, steps)
  {
    RunsOwe(codec, states, steps, hello);
    if Unharmed(codec, states, steps) {
      RunsStayFramed(codec, states, steps, hello);
    }
    if Framed(codec, states[|steps|]) {
      FramedOwesNothing(codec, states[|steps|]);
    }
  }

  /**
    Whenever no call is writing, the daemon has been told a sequence of whole
    requests and hears exactly those: nothing ever landed between a part and
    its terminator.
  */
  lemma CallsNeverInterleave(codec: Codec, states: seq<Sender>, steps: seq<Step>, hello: Request)
    requires IsRun(codec, states, steps, hello) && Unharmed(codec, states, steps) && states[|steps|].now.None?
    requires forall h <- states[|steps|].said :: Spoken(codec, h)
    ensures Hear(codec, states[|steps|].wire) == Script(states[|steps|].said, Closed)
  {
    var s := states[|steps|];
    RunsStayFramed(codec, states, steps, hello);
    assert WellSpoken(codec, s.said);
    RoundTrip(codec, s.said, []);
    assert EncodeAll(codec, s.said) + [] == EncodeAll(codec, s.said);
    assert Hear(codec, []) == Script([], Closed) && s.said + [] == s.said;
  }

  /**
    What a harmful failure does: the rest of the torn line never comes, so the
    next call's line is read as its end, and neither request is heard.
  */
  lemma TornLineSwallowsTheNext(codec: Codec, torn: Request, sent: nat, next: Request)
    requires Speaks(codec, torn) && Speaks(codec, next) && 0 < sent <= |codec.encode(torn)|
    requires sent + |codec.encode(next)| <= MAX_FRAME
    ensures NextFrame(LineOf(codec, torn)[..sent] + LineOf(codec, next))
         == Line(codec.encode(torn)[..sent] + codec.encode(next), [])
  {
    var a, b := codec.encode(torn)[..sent], codec.encode(next);
    assert LineOf(codec, torn)[..sent] == a;
    var s := a + b;
    assert NewlineAt(s) == |s| by {
      assert forall i | 0 <= i < |a| :: a[i] == codec.encode(torn)[i];
      assert forall i | 0 <= i < |s| :: s[i] != NEWLINE;
    }
    assert a + (b + [NEWLINE]) == s + [NEWLINE] + [];
    NewlineFound(s, []);
    var whole := s + [NEWLINE] + [];
    assert whole[..|s|] == s && whole[|s| + 1..] == [];
  }
}
