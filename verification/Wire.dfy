/**
  One direction of a connection: control frames, one JSON object a line, each
  followed by the payload it declares.

  `Hear` reads a byte stream the way the protocol defines it, with no buffer
  and no archive in sight. The daemon's reader is measured against it, and the
  clients' writers produce streams it takes apart again.
*/
module Wire {
  import opened Wrappers

  type byte = n: nat | n < 256

  const NEWLINE: byte := 10
  const MAX_FRAME := 65536

  datatype Verb =
    | List
    | Fetch(entry: int)
    | Thumb(entry: int)
    | Pin(entry: int, pinned: bool)
    | Remove(entry: int)
    | Clear
    | Stats

  datatype Request =
    | Hello(v: nat)
    | Begin(req: nat, source: Option<string>)
    | Part(req: nat, draft: nat, mime: string, bytes: Option<nat>)
    | Chunk(size: nat)
    | Commit(req: nat, draft: nat)
    | Abort(req: nat, draft: nat)
    | Ask(req: nat, verb: Verb)

  /** JSON and UTF-8, as far as this model looks into them. */
  datatype Codec = Codec(
    encode: Request -> seq<byte>,
    decode: seq<byte> -> Option<Request>,
    isText: seq<byte> -> bool)

  // --------------------------------------------------------------- frames

  function NewlineAt(s: seq<byte>): (n: nat)
    ensures n <= |s| && (n < |s| ==> s[n] == NEWLINE)
    ensures forall i | 0 <= i < n :: s[i] != NEWLINE
  {
    if s == [] || s[0] == NEWLINE then 0 else 1 + NewlineAt(s[1..])
  }

  datatype Framed = Line(line: seq<byte>, rest: seq<byte>) | Ended | TooLong

  /** Splitting the whole stream at its first newline, with the frame limit. */
  function NextFrame(s: seq<byte>): Framed {
    var end := NewlineAt(s);
    if end > MAX_FRAME then TooLong
    else if end == |s| then Ended
    else Line(s[..end], s[end + 1..])
  }

  function Shorter(a: nat, b: nat): nat {
    if a < b then a else b
  }

  // ------------------------------------------------------------- listening

  /** One request with everything that came with it. */
  datatype Heard =
    | Asked(request: Request)
    | Whole(req: nat, draft: nat, mime: string, declared: nat, content: seq<byte>)
    | Chunked(req: nat, draft: nat, mime: string, chunks: seq<seq<byte>>)
    | Stray(declared: nat, content: seq<byte>)

  /** The stream ran out, a line was no request, or it cannot be brought back to a frame boundary. */
  datatype Ending = Closed | BadFrame | Broken

  datatype Script = Script(heard: seq<Heard>, ending: Ending)

  function Then(first: Heard, more: Script): Script {
    Script([first] + more.heard, more.ending)
  }

  /** The chunks of a part that declared no length, up to its terminator, and the stream after it. */
  function HearChunks(codec: Codec, s: seq<byte>): (r: Option<(seq<seq<byte>>, seq<byte>)>)
    ensures r.Some? ==> |r.value.1| < |s|
    decreases |s|
  {
    match NextFrame(s)
    case Line(line, rest) =>
      if !codec.isText(line) then None
      else (
        match codec.decode(line)
        case Some(Chunk(n)) =>
          if n == 0 then Some(([], rest))
          else
            var k := Shorter(n, |rest|);
            var more := HearChunks(codec, rest[k..]);
            if more.None? then None else Some(([rest[..k]] + more.value.0, more.value.1))
        case _ => None)
    case _ => None
  }

  /** A decoded request with its payload, and the stream behind it; none when its chunks never end. */
  function HearOne(codec: Codec, r: Request, rest: seq<byte>): (h: Option<(Heard, seq<byte>)>)
    ensures h.Some? ==> |h.value.1| <= |rest|
  {
    match r
    case Part(req, draft, mime, Some(n)) =>
      var k := Shorter(n, |rest|);
      Some((Whole(req, draft, mime, n, rest[..k]), rest[k..]))
    case Part(req, draft, mime, None) =>
      var chunks := HearChunks(codec, rest);
      if chunks.None? then None else Some((Chunked(req, draft, mime, chunks.value.0), chunks.value.1))
    case Chunk(n) =>
      var k := Shorter(n, |rest|);
      Some((Stray(n, rest[..k]), rest[k..]))
    case _ => Some((Asked(r), rest))
  }

  function Hear(codec: Codec, s: seq<byte>): Script
    decreases |s|
  {
    match NextFrame(s)
    case Ended => Script([], Closed)
    case TooLong => Script([], Broken)
    case Line(line, rest) =>
      if !codec.isText(line) then Script([], Broken)
      else if codec.decode(line).None? then Script([], BadFrame)
      else
        var one := HearOne(codec, codec.decode(line).value, rest);
        if one.None? then Script([], Broken) else Then(one.value.0, Hear(codec, one.value.1))
  }

  // -------------------------------------------------------------- speaking

  /** The codec prints this request as one short line of text and reads it back. */
  predicate Speaks(codec: Codec, r: Request) {
    var line := codec.encode(r);
    && NewlineAt(line) == |line| <= MAX_FRAME
    && codec.isText(line)
    && codec.decode(line) == Some(r)
  }

  function LineOf(codec: Codec, r: Request): seq<byte> {
    codec.encode(r) + [NEWLINE]
  }

  function EncodeChunks(codec: Codec, chunks: seq<seq<byte>>): seq<byte> {
    if chunks == [] then []
    else LineOf(codec, Chunk(|chunks[0]|)) + chunks[0] + EncodeChunks(codec, chunks[1..])
  }

  /** What a peer writes for one request. */
  function Encode(codec: Codec, h: Heard): seq<byte> {
    match h
    case Asked(request) => LineOf(codec, request)
    case Whole(req, draft, mime, declared, content) =>
      LineOf(codec, Part(req, draft, mime, Some(declared))) + content
    case Chunked(req, draft, mime, chunks) =>
      LineOf(codec, Part(req, draft, mime, None)) + EncodeChunks(codec, chunks) + LineOf(codec, Chunk(0))
    case Stray(declared, content) => LineOf(codec, Chunk(declared)) + content
  }

  function EncodeAll(codec: Codec, hs: seq<Heard>): seq<byte> {
    if hs == [] then [] else Encode(codec, hs[0]) + EncodeAll(codec, hs[1..])
  }

  /** A request as the protocol allows it: a payload has its declared length, and no chunk is empty. */
  predicate Proper(h: Heard) {
    match h
    case Asked(request) => !request.Part? && !request.Chunk?
    case Whole(_, _, _, declared, content) => |content| == declared
    case Chunked(_, _, _, chunks) => forall c <- chunks :: c != []
    case Stray(declared, content) => |content| == declared
  }

  predicate Spoken(codec: Codec, h: Heard) {
    match h
    case Asked(request) => Speaks(codec, request)
    case Whole(req, draft, mime, declared, _) => Speaks(codec, Part(req, draft, mime, Some(declared)))
    case Chunked(req, draft, mime, chunks) =>
      && Speaks(codec, Part(req, draft, mime, None)) && Speaks(codec, Chunk(0))
      && forall c <- chunks :: Speaks(codec, Chunk(|c|))
    case Stray(declared, _) => Speaks(codec, Chunk(declared))
  }

  // ------------------------------------------------------------ round trip

  lemma {:induction false} NewlineFound(line: seq<byte>, rest: seq<byte>)
    requires NewlineAt(line) == |line|
    ensures NewlineAt(line + [NEWLINE] + rest) == |line|
  {
    var s := line + [NEWLINE] + rest;
    var n := NewlineAt(s);
    assert s[|line|] == NEWLINE;
    assert forall i | 0 <= i < |line| :: s[i] == line[i] && line[i] != NEWLINE;
    assert n >= |line|;
  }

  /** A printed line is read back as that line, whatever follows it. */
  lemma LineIsNext(codec: Codec, r: Request, rest: seq<byte>)
    requires Speaks(codec, r)
    ensures NextFrame(LineOf(codec, r) + rest) == Line(codec.encode(r), rest)
  {
    var line := codec.encode(r);
    NewlineFound(line, rest);
    var s := line + [NEWLINE] + rest;
    assert s[..|line|] == line && s[|line| + 1..] == rest;
  }

  lemma TakeDrop(a: seq<byte>, b: seq<byte>)
    ensures (a + b)[..|a|] == a && (a + b)[|a|..] == b
  {
  }

  lemma NoMoreChunks(codec: Codec, tail: seq<byte>)
    requires Speaks(codec, Chunk(0))
    ensures HearChunks(codec, LineOf(codec, Chunk(0)) + tail) == Some(([], tail))
  {
    LineIsNext(codec, Chunk(0), tail);
  }

  lemma HearOneChunk(codec: Codec, c: seq<byte>, more: seq<byte>)
    requires c != [] && Speaks(codec, Chunk(|c|)) && HearChunks(codec, more).Some?
    ensures HearChunks(codec, LineOf(codec, Chunk(|c|)) + (c + more))
         == Some(([c] + HearChunks(codec, more).value.0, HearChunks(codec, more).value.1))
  {
    LineIsNext(codec, Chunk(|c|), c + more);
    TakeDrop(c, more);
  }

  lemma EncodedFirst(codec: Codec, chunks: seq<seq<byte>>, stop: seq<byte>)
    requires chunks != []
    ensures EncodeChunks(codec, chunks) + stop
         == LineOf(codec, Chunk(|chunks[0]|)) + (chunks[0] + (EncodeChunks(codec, chunks[1..]) + stop))
  {
    RegroupFour(LineOf(codec, Chunk(|chunks[0]|)), chunks[0], EncodeChunks(codec, chunks[1..]), stop);
  }

  predicate ChunksSpoken(codec: Codec, chunks: seq<seq<byte>>) {
    forall c <- chunks :: c != [] && Speaks(codec, Chunk(|c|))
  }

  lemma {:induction false} ChunksRoundTrip(codec: Codec, chunks: seq<seq<byte>>, tail: seq<byte>)
    requires ChunksSpoken(codec, chunks) && Speaks(codec, Chunk(0))
    ensures HearChunks(codec, EncodeChunks(codec, chunks) + (LineOf(codec, Chunk(0)) + tail)) == Some((chunks, tail))
    decreases |chunks|
  {
    var stop := LineOf(codec, Chunk(0)) + tail;
    if chunks == [] {
      assert EncodeChunks(codec, chunks) + stop == stop;
      NoMoreChunks(codec, tail);
    } else {
      assert chunks[0] in chunks && chunks == [chunks[0]] + chunks[1..];
      assert ChunksSpoken(codec, chunks[1..]);
      EncodedFirst(codec, chunks, stop);
      ChunksRoundTrip(codec, chunks[1..], tail);
      HearOneChunk(codec, chunks[0], EncodeChunks(codec, chunks[1..]) + stop);
    }
  }

  lemma PayloadRoundTrip(codec: Codec, r: Request, content: seq<byte>, tail: seq<byte>)
    requires Speaks(codec, r) && (r.Part? || r.Chunk?)
    requires r.Part? ==> r.bytes == Some(|content|)
    requires r.Chunk? ==> r.size == |content|
    ensures Hear(codec, LineOf(codec, r) + (content + tail))
         == Then(if r.Part? then Whole(r.req, r.draft, r.mime, |content|, content) else Stray(|content|, content),
                 Hear(codec, tail))
  {
    LineIsNext(codec, r, content + tail);
    TakeDrop(content, tail);
  }

  /** One request and its payload is heard as that request, and listening goes on right behind it. */
  lemma OneRoundTrip(codec: Codec, h: Heard, tail: seq<byte>)
    requires Proper(h) && Spoken(codec, h)
    ensures Hear(codec, Encode(codec, h) + tail) == Then(h, Hear(codec, tail))
  {
    match h
    case Asked(request) => LineIsNext(codec, request, tail);
    case Whole(req, draft, mime, declared, content) =>
      var r := Part(req, draft, mime, Some(declared));
      Regroup(LineOf(codec, r), content, tail);
      PayloadRoundTrip(codec, r, content, tail);
    case Chunked(req, draft, mime, chunks) =>
      var r := Part(req, draft, mime, None);
      RegroupFour(LineOf(codec, r), EncodeChunks(codec, chunks), LineOf(codec, Chunk(0)), tail);
      ChunkedRoundTrip(codec, r, chunks, tail);
    case Stray(declared, content) =>
      Regroup(LineOf(codec, Chunk(declared)), content, tail);
      PayloadRoundTrip(codec, Chunk(declared), content, tail);
  }

  lemma HearChunkedPart(codec: Codec, r: Request, rest: seq<byte>)
    requires r.Part? && r.bytes.None? && Speaks(codec, r) && HearChunks(codec, rest).Some?
    ensures Hear(codec, LineOf(codec, r) + rest)
         == Then(Chunked(r.req, r.draft, r.mime, HearChunks(codec, rest).value.0),
                 Hear(codec, HearChunks(codec, rest).value.1))
  {
    LineIsNext(codec, r, rest);
  }

  lemma ChunkedRoundTrip(codec: Codec, r: Request, chunks: seq<seq<byte>>, tail: seq<byte>)
    requires r.Part? && r.bytes.None? && Speaks(codec, r) && Speaks(codec, Chunk(0))
    requires ChunksSpoken(codec, chunks)
    ensures Hear(codec, LineOf(codec, r) + (EncodeChunks(codec, chunks) + (LineOf(codec, Chunk(0)) + tail)))
         == Then(Chunked(r.req, r.draft, r.mime, chunks), Hear(codec, tail))
  {
    ChunksRoundTrip(codec, chunks, tail);
    HearChunkedPart(codec, r, EncodeChunks(codec, chunks) + (LineOf(codec, Chunk(0)) + tail));
  }

  lemma RegroupFour(a: seq<byte>, b: seq<byte>, c: seq<byte>, d: seq<byte>)
    ensures a + b + c + d == a + (b + (c + d))
  {
    Regroup(a + b, c, d);
    Regroup(a, b, c + d);
  }

  predicate WellSpoken(codec: Codec, hs: seq<Heard>) {
    forall h <- hs :: Proper(h) && Spoken(codec, h)
  }

  lemma FirstWellSpoken(codec: Codec, hs: seq<Heard>)
    requires WellSpoken(codec, hs) && hs != []
    ensures Proper(hs[0]) && Spoken(codec, hs[0]) && WellSpoken(codec, hs[1..])
    ensures hs == [hs[0]] + hs[1..]
  {
    assert hs[0] in hs;
    assert forall h <- hs[1..] :: h in hs;
  }

  lemma ThenMore(first: Heard, hs: seq<Heard>, last: Script)
    ensures Then(first, Script(hs + last.heard, last.ending)) == Script(([first] + hs) + last.heard, last.ending)
  {
    assert [first] + (hs + last.heard) == ([first] + hs) + last.heard;
  }

  /**
    Any sequence of requests, with payloads of any content, newlines and all,
    is heard exactly as it was spoken, and whatever follows is heard afresh.
  */
  lemma {:induction false} RoundTrip(codec: Codec, hs: seq<Heard>, tail: seq<byte>)
    requires WellSpoken(codec, hs)
    ensures Hear(codec, EncodeAll(codec, hs) + tail)
         == Script(hs + Hear(codec, tail).heard, Hear(codec, tail).ending)
    decreases |hs|
  {
    var last := Hear(codec, tail);
    if hs == [] {
      assert EncodeAll(codec, hs) + tail == tail;
      assert hs + last.heard == last.heard;
    } else {
      FirstWellSpoken(codec, hs);
      RoundTrip(codec, hs[1..], tail);
      OneMoreSpoken(codec, hs[0], EncodeAll(codec, hs[1..]), tail);
      ThenMore(hs[0], hs[1..], last);
    }
  }

  lemma OneMoreSpoken(codec: Codec, first: Heard, rest: seq<byte>, tail: seq<byte>)
    requires Proper(first) && Spoken(codec, first)
    ensures Hear(codec, Encode(codec, first) + rest + tail) == Then(first, Hear(codec, rest + tail))
  {
    Regroup(Encode(codec, first), rest, tail);
    OneRoundTrip(codec, first, rest + tail);
  }

  // ------------------------------------------------------------ truncation

  lemma {:induction false} FrameOfPrefix(s: seq<byte>, p: seq<byte>)
    requires p <= s
    ensures NextFrame(p).Line? ==>
      NextFrame(s).Line? && NextFrame(s).line == NextFrame(p).line && NextFrame(p).rest <= NextFrame(s).rest
  {
    var n, m := NewlineAt(p), NewlineAt(s);
    if n < |p| {
      assert s[n] == NEWLINE && forall i | 0 <= i < n :: s[i] == p[i];
      assert m >= n;
      assert p[..n] == s[..n] && p[n + 1..] <= s[n + 1..];
    }
  }

  lemma {:induction false} ChunksOfPrefix(codec: Codec, s: seq<byte>, p: seq<byte>)
    requires p <= s && HearChunks(codec, p).Some?
    ensures HearChunks(codec, s).Some?
    ensures HearChunks(codec, s).value.0 == HearChunks(codec, p).value.0
    ensures HearChunks(codec, p).value.1 <= HearChunks(codec, s).value.1
    decreases |p|
  {
    FrameOfPrefix(s, p);
    var rest, longer := NextFrame(p).rest, NextFrame(s).rest;
    var n := codec.decode(NextFrame(p).line).value.size;
    if n > 0 {
      if n > |rest| {
        assert rest[|rest|..] == [];
        assert HearChunks(codec, []).None?;
      }
      assert rest[..n] == longer[..n] && rest[n..] <= longer[n..];
      ChunksOfPrefix(codec, longer[n..], rest[n..]);
    }
  }

  /** A payload the stream ended in the middle of. */
  predicate CutOff(h: Heard) {
    (h.Whole? || h.Stray?) && |h.content| < h.declared
  }

  /** `short` is a beginning of `long`, but for at most one last request whose payload is visibly short. */
  predicate CutShort(short: seq<Heard>, long: seq<Heard>) {
    short <= long
    || (short != [] && CutOff(short[|short| - 1]) && short[..|short| - 1] <= long)
  }

  lemma SameFirst(h: Heard, short: seq<Heard>, long: seq<Heard>)
    requires CutShort(short, long)
    ensures CutShort([h] + short, [h] + long)
  {
    if short != [] {
      var both := [h] + short;
      assert both[..|both| - 1] == [h] + short[..|short| - 1];
    }
  }

  /** The payload of one request, in a conversation and in a beginning of it. */
  lemma CutPayload(codec: Codec, s: seq<byte>, p: seq<byte>, r: Request, n: nat)
    requires NextFrame(p).Line? && NextFrame(s).Line? && NextFrame(s).line == NextFrame(p).line
    requires NextFrame(p).rest <= NextFrame(s).rest
    requires codec.isText(NextFrame(p).line) && codec.decode(NextFrame(p).line) == Some(r)
    requires (r.Part? && r.bytes == Some(n)) || r == Chunk(n)
    requires n <= |NextFrame(p).rest| ==>
      CutShort(Hear(codec, NextFrame(p).rest[n..]).heard, Hear(codec, NextFrame(s).rest[n..]).heard)
    ensures CutShort(Hear(codec, p).heard, Hear(codec, s).heard)
  {
    var short, long := NextFrame(p).rest, NextFrame(s).rest;
    if n > |short| {
      CutAtEnd(codec, p, r, n);
    } else {
      assert short[..n] == long[..n];
      PayloadHeard(codec, p, r, n);
      PayloadHeard(codec, s, r, n);
      SameFirst(WithPayload(r, n, short[..n]), Hear(codec, short[n..]).heard, Hear(codec, long[n..]).heard);
    }
  }

  function WithPayload(r: Request, n: nat, content: seq<byte>): Heard
    requires r.Part? || r.Chunk?
  {
    if r.Part? then Whole(r.req, r.draft, r.mime, n, content) else Stray(n, content)
  }

  /** A request whose payload is all there. */
  lemma PayloadHeard(codec: Codec, s: seq<byte>, r: Request, n: nat)
    requires NextFrame(s).Line? && codec.isText(NextFrame(s).line) && codec.decode(NextFrame(s).line) == Some(r)
    requires (r.Part? && r.bytes == Some(n)) || r == Chunk(n)
    requires n <= |NextFrame(s).rest|
    ensures var rest := NextFrame(s).rest;
      Hear(codec, s).heard == [WithPayload(r, n, rest[..n])] + Hear(codec, rest[n..]).heard
  {
  }

  lemma CutAtEnd(codec: Codec, p: seq<byte>, r: Request, n: nat)
    requires NextFrame(p).Line? && codec.isText(NextFrame(p).line) && codec.decode(NextFrame(p).line) == Some(r)
    requires (r.Part? && r.bytes == Some(n)) || r == Chunk(n)
    requires n > |NextFrame(p).rest|
    ensures |Hear(codec, p).heard| == 1 && CutOff(Hear(codec, p).heard[0])
  {
    var short := NextFrame(p).rest;
    assert short[|short|..] == [];
    assert Hear(codec, []).heard == [];
  }

  lemma CutChunks(codec: Codec, s: seq<byte>, p: seq<byte>, r: Request)
    requires NextFrame(p).Line? && NextFrame(s).Line? && NextFrame(s).line == NextFrame(p).line
    requires codec.isText(NextFrame(p).line) && codec.decode(NextFrame(p).line) == Some(r)
    requires r.Part? && r.bytes.None?
    requires var short, long := HearChunks(codec, NextFrame(p).rest), HearChunks(codec, NextFrame(s).rest);
      short.Some? ==>
        && long.Some? && short.value.0 == long.value.0
        && CutShort(Hear(codec, short.value.1).heard, Hear(codec, long.value.1).heard)
    ensures CutShort(Hear(codec, p).heard, Hear(codec, s).heard)
  {
    var short, long := HearChunks(codec, NextFrame(p).rest), HearChunks(codec, NextFrame(s).rest);
    if short.Some? {
      SameFirst(Chunked(r.req, r.draft, r.mime, short.value.0),
                Hear(codec, short.value.1).heard, Hear(codec, long.value.1).heard);
    }
  }

  lemma CutRequest(codec: Codec, s: seq<byte>, p: seq<byte>, r: Request)
    requires NextFrame(p).Line? && NextFrame(s).Line? && NextFrame(s).line == NextFrame(p).line
    requires codec.isText(NextFrame(p).line) && codec.decode(NextFrame(p).line) == Some(r)
    requires !r.Part? && !r.Chunk?
    requires CutShort(Hear(codec, NextFrame(p).rest).heard, Hear(codec, NextFrame(s).rest).heard)
    ensures CutShort(Hear(codec, p).heard, Hear(codec, s).heard)
  {
    SameFirst(Asked(r), Hear(codec, NextFrame(p).rest).heard, Hear(codec, NextFrame(s).rest).heard);
  }

  /**
    A connection that dies at any byte never makes the daemon hear something
    that was not said: what is heard is a beginning of the conversation,
    followed at most by one request whose payload is visibly short.
  */
  lemma {:induction false} CutConversation(codec: Codec, s: seq<byte>, p: seq<byte>)
    requires p <= s
    ensures CutShort(Hear(codec, p).heard, Hear(codec, s).heard)
    decreases |p|
  {
    FrameOfPrefix(s, p);
    if NextFrame(p).Line? && codec.isText(NextFrame(p).line) && codec.decode(NextFrame(p).line).Some? {
      var short, long := NextFrame(p).rest, NextFrame(s).rest;
      var r := codec.decode(NextFrame(p).line).value;
      if r.Part? && r.bytes.None? {
        if HearChunks(codec, short).Some? {
          ChunksOfPrefix(codec, long, short);
          CutConversation(codec, HearChunks(codec, long).value.1, HearChunks(codec, short).value.1);
        }
        CutChunks(codec, s, p, r);
      } else if r.Part? || r.Chunk? {
        var n := if r.Part? then r.bytes.value else r.size;
        if n <= |short| {
          CutConversation(codec, long[n..], short[n..]);
        }
        CutPayload(codec, s, p, r, n);
      } else {
        CutConversation(codec, long, short);
        CutRequest(codec, s, p, r);
      }
    } else {
      NothingActedOn(codec, p);
    }
  }

  lemma NothingActedOn(codec: Codec, p: seq<byte>)
    requires NextFrame(p).Line? && codec.isText(NextFrame(p).line) ==> codec.decode(NextFrame(p).line).None?
    ensures Hear(codec, p).heard == []
  {
  }
}
