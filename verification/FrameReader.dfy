/**
  The shell extension's reading side: control lines and binary payloads share
  one buffered input.

  A read yields any number of bytes up to what was asked for, and none only at
  the end of the stream.
*/
module FrameReader {
  import opened Wrappers
  import opened Wire
  import opened Reader

  const READ := 4096
  const CHUNK := 65536
  const MAX_PAYLOAD := 512 * 1024 * 1024
  const IN_MEMORY := 1024 * 1024

  /** What a control object is to the client: whose answer it is, and how many bytes follow it. */
  datatype Frame = Frame(req: Option<nat>, payload: Option<nat>, text: seq<byte>)

  /** The client's JSON: `parse` fails on anything that is not an object. */
  datatype Ear = Ear(parse: seq<byte> -> Option<Frame>, line: Frame -> seq<byte>)

  datatype Told = Told(frame: Frame, payload: Option<seq<byte>>)

  datatype Failure = Oversized | Unterminated | Truncated | NotAnObject | TooLarge | EndedEarly | FileFull

  // ----------------------------------------------------------- what is said

  /** Everything the stream says, and whether it ended at a frame boundary. */
  function Listen(ear: Ear, s: seq<byte>): (r: (seq<Told>, bool))
    decreases |s|
  {
    match NextFrame(s)
    case TooLong => ([], false)
    case Ended => ([], s == [])
    case Line(line, rest) =>
      if ear.parse(line).None? then ([], false)
      else
        var f := ear.parse(line).value;
        if f.payload.None? then
          var more := Listen(ear, rest);
          ([Told(f, None)] + more.0, more.1)
        else
          var n := f.payload.value;
          if n > MAX_PAYLOAD || n > |rest| then ([], false)
          else
            var more := Listen(ear, rest[n..]);
            ([Told(f, Some(rest[..n]))] + more.0, more.1)
  }

  /** What the daemon writes for one answer or event. */
  function Tell(ear: Ear, t: Told): seq<byte> {
    ear.line(t.frame) + [NEWLINE] + if t.payload.Some? then t.payload.value else []
  }

  function TellAll(ear: Ear, ts: seq<Told>): seq<byte> {
    if ts == [] then [] else Tell(ear, ts[0]) + TellAll(ear, ts[1..])
  }

  /** A unit the client can take: one short line it parses back, and as many payload bytes as it declares. */
  predicate Fair(ear: Ear, t: Told) {
    var line := ear.line(t.frame);
    && NewlineAt(line) == |line| <= MAX_FRAME && ear.parse(line) == Some(t.frame)
    && match t.payload
       case None => t.frame.payload.None?
       case Some(p) => t.frame.payload == Some(|p|) && |p| <= MAX_PAYLOAD
  }

  lemma LineNext(line: seq<byte>, rest: seq<byte>)
    requires NewlineAt(line) == |line| <= MAX_FRAME
    ensures NextFrame(line + [NEWLINE] + rest) == Line(line, rest)
  {
    NewlineFound(line, rest);
    var s := line + [NEWLINE] + rest;
    assert s[..|line|] == line && s[|line| + 1..] == rest;
  }

  lemma OneTold(ear: Ear, t: Told, tail: seq<byte>)
    requires Fair(ear, t)
    ensures Listen(ear, Tell(ear, t) + tail) == ([t] + Listen(ear, tail).0, Listen(ear, tail).1)
  {
    var line := ear.line(t.frame);
    var payload := if t.payload.Some? then t.payload.value else [];
    Regroup(line + [NEWLINE], payload, tail);
    LineNext(line, payload + tail);
    TakeDrop(payload, tail);
    assert [] + tail == tail;
  }

  /** Whatever the daemon says in whole units, events between answers included, is understood as said. */
  lemma {:induction false} UnitsAreUnderstood(ear: Ear, ts: seq<Told>)
    requires forall t <- ts :: Fair(ear, t)
    ensures Listen(ear, TellAll(ear, ts)) == (ts, true)
    decreases |ts|
  {
    if ts != [] {
      assert ts[0] in ts && ts == [ts[0]] + ts[1..];
      UnitsAreUnderstood(ear, ts[1..]);
      OneTold(ear, ts[0], TellAll(ear, ts[1..]));
    }
  }

  // ---------------------------------------------------------------- reading

  class FrameReader {
    const ear: Ear
    const stream: seq<byte>
    /** Transfer files never fill up. */
    const roomy: bool
    var pos: nat
    var buffer: seq<byte>

    ghost predicate Valid()
      reads this
    {
      pos <= |stream|
    }

    /** What has not been taken yet: the buffer, and then the stream. */
    ghost function Rest(): seq<byte>
      requires Valid()
      reads this
    {
      buffer + stream[pos..]
    }

    constructor (e: Ear, s: seq<byte>, room: bool)
      ensures Valid() && Rest() == s && ear == e && buffer == [] && roomy == room
    {
      ear, stream, pos, buffer, roomy := e, s, 0, [], room;
    }

    method ReadBytes(most: nat) returns (got: seq<byte>)
      requires Valid() && most > 0
      modifies this`pos
      ensures Valid() && |got| <= most && old(stream[pos..]) == got + stream[pos..]
      ensures got == [] <==> old(stream[pos..]) == []
    {
      var left := Shorter(most, |stream| - pos);
      if left == 0 {
        return [];
      }
      var n :| 1 <= n <= left;
      got := stream[pos..pos + n];
      pos := pos + n;
    }

    /** One control object, none at a clean end, and an error for anything that is neither. */
    method NextObject() returns (r: Result<Option<Frame>, Failure>)
      requires Valid()
      modifies this
      ensures Valid() && r != Err(FileFull)
      ensures Heeds(ear, old(Rest()), r, Rest())
    {
      ghost var s := Rest();
      while true
        invariant Valid() && Rest() == s
        decreases |stream| - pos
      {
        BeginningDecides(s, buffer);
        var end := NewlineAt(buffer);
        if end < |buffer| {
          if end > MAX_FRAME {
            return Err(Oversized);
          }
          var value := ear.parse(buffer[..end]);
          CutLine(s, buffer, end);
          if value.None? {
            return Err(NotAnObject);
          }
          ghost var tail := stream[pos..];
          assert s[end + 1..] == buffer[end + 1..] + tail;
          buffer := buffer[end + 1..];
          return Ok(value);
        }
        if |buffer| > MAX_FRAME {
          return Err(Unterminated);
        }
        var chunk := ReadBytes(Shorter(READ, MAX_FRAME + 1 - |buffer|));
        if chunk == [] {
          assert s == buffer;
          return if buffer != [] then Err(Truncated) else Ok(None);
        }
        Regroup(buffer, chunk, stream[pos..]);
        buffer := buffer + chunk;
      }
    }

    /** A payload of `count` bytes: first what is buffered, then straight from the stream. */
    method Payload(count: nat) returns (r: Result<seq<byte>, Failure>)
      requires Valid()
      modifies this
      ensures Valid()
      ensures count > MAX_PAYLOAD ==> r == Err(TooLarge)
      ensures r == Err(FileFull) ==> !roomy
      ensures r.Ok? ==> count <= |old(Rest())| && r.value == old(Rest())[..count] && Rest() == old(Rest())[count..]
      ensures count <= MAX_PAYLOAD && r.Err? ==> 
        count > |old(Rest())| || (count > IN_MEMORY && r.error == FileFull && !roomy)
    {
      if count > MAX_PAYLOAD {
        return Err(TooLarge);
      }
      ghost var s := Rest();
      var take := Shorter(count, |buffer|);
      ghost var tail := stream[pos..];
      var result := [];
      if count > IN_MEMORY {
        var written := WriteOut([], buffer[..take], roomy);
        if written.Err? {
          return written;
        }
        result := written.value;
      } else {
        result := buffer[..take];
      }
      buffer := buffer[take..];
      assert result == s[..take] && buffer + tail == s[take..];
      while |result| < count
        invariant Valid() && |result| <= count && |result| <= |s|
        invariant result == s[..|result|] && Rest() == s[|result|..]
        invariant |result| < count ==> buffer == []
        decreases count - |result|
      {
        ghost var had := result;
        var bytes := ReadBytes(Shorter(CHUNK, count - |result|));
        if bytes == [] {
          assert |s| == |result|;
          return Err(EndedEarly);
        }
        assert s[|had|..] == bytes + stream[pos..];
        MovedOn(s, had, bytes, stream[pos..]);
        if count > IN_MEMORY {
          var written := WriteOut(result, bytes, roomy);
          if written.Err? {
            return written;
          }
          result := written.value;
        } else {
          result := result + bytes;
        }
        assert buffer + stream[pos..] == stream[pos..];
      }
      r := Ok(result);
    }

    /** Appends to the transfer file in as many short writes as it takes. */
    static method WriteOut(file: seq<byte>, bytes: seq<byte>, roomy: bool) returns (r: Result<seq<byte>, Failure>)
      ensures r.Ok? ==> r.value == file + bytes
      ensures r.Err? ==> r.error == FileFull && !roomy
    {
      var offset, written := 0, file;
      assert bytes[..0] == [];
      while offset < |bytes|
        invariant 0 <= offset <= |bytes| && written == file + bytes[..offset]
      {
        var full: bool := *;
        if full && !roomy {
          return Err(FileFull);
        }
        var n :| 1 <= n <= |bytes| - offset;
        assert bytes[..offset] + bytes[offset..offset + n] == bytes[..offset + n];
        written := written + bytes[offset..offset + n];
        offset := offset + n;
      }
      assert bytes[..offset] == bytes;
      r := Ok(written);
    }

    /**
      Reads answers and events until the connection ends. However the bytes
      arrive, what is handed on is what the stream says, and it fails exactly
      when the stream does not end at a boundary; only a full transfer file can
      cut it shorter.
    */
    method Dispatch() returns (got: seq<Told>, failed: Option<Failure>)
      requires Valid()
      modifies this
      ensures Valid()
      ensures got <= Listen(ear, old(Rest())).0
      ensures roomy ==> failed != Some(FileFull)
      ensures failed != Some(FileFull) ==>
        got == Listen(ear, old(Rest())).0 && (failed.None? <==> Listen(ear, old(Rest())).1)
    {
      ghost var s := Rest();
      got := [];
      NothingGot(ear, s);
      while true
        invariant Valid() && Ongoing(ear, s, got, Rest())
        decreases |Rest()|
      {
        ghost var left := Rest();
        var next := NextObject();
        if next.Err? {
          LastOfIt(ear, s, got, left);
          return got, Some(next.error);
        }
        if next.value.None? {
          LastOfIt(ear, s, got, left);
          return got, None;
        }
        var f := next.value.value;
        ghost var rest := Rest();
        var payload: Option<seq<byte>> := None;
        if f.payload.Some? {
          var p := Payload(f.payload.value);
          if p.Err? {
            LastOfIt(ear, s, got, left);
            return got, Some(p.error);
          }
          payload := Some(p.value);
        }
        OneMoreTold(ear, s, got, left, Told(f, payload), rest, Rest());
        got := got + [Told(f, payload)];
      }
    }
  }

  /** What reading one object may give, and what is left. */
  predicate Heeds(ear: Ear, s: seq<byte>, r: Result<Option<Frame>, Failure>, rest: seq<byte>) {
    match NextFrame(s)
    case TooLong => r.Err?
    case Ended => if s == [] then r == Ok(None) else r.Err?
    case Line(line, more) => if ear.parse(line).Some? then r == Ok(ear.parse(line)) && rest == more else r.Err?
  }

  lemma CutLine(s: seq<byte>, buffer: seq<byte>, end: nat)
    requires buffer <= s && end < |buffer|
    ensures s[..end] == buffer[..end]
  {
  }

  lemma MovedOn(s: seq<byte>, had: seq<byte>, bytes: seq<byte>, more: seq<byte>)
    requires |had| <= |s| && had == s[..|had|] && s[|had|..] == bytes + more
    ensures |had + bytes| <= |s| && had + bytes == s[..|had + bytes|] && more == s[|had + bytes|..]
  {
    assert s == had + (bytes + more);
  }

  /** Of everything `s` says, `got` has been handed on and `left` has not been read. */
  predicate Ongoing(ear: Ear, s: seq<byte>, got: seq<Told>, left: seq<byte>) {
    var more := Listen(ear, left);
    Listen(ear, s) == (got + more.0, more.1)
  }

  lemma NothingGot(ear: Ear, s: seq<byte>)
    ensures Ongoing(ear, s, [], s)
  {
    assert [] + Listen(ear, s).0 == Listen(ear, s).0;
  }

  lemma LastOfIt(ear: Ear, s: seq<byte>, got: seq<Told>, left: seq<byte>)
    requires Ongoing(ear, s, got, left)
    ensures Listen(ear, left).0 == [] ==> Listen(ear, s) == (got, Listen(ear, left).1)
    ensures got <= Listen(ear, s).0
  {
    assert got + [] == got;
  }

  lemma OneMoreTold(ear: Ear, s: seq<byte>, got: seq<Told>, left: seq<byte>, t: Told, rest: seq<byte>, after: seq<byte>)
    requires Ongoing(ear, s, got, left)
    requires NextFrame(left).Line? && NextFrame(left).rest == rest && ear.parse(NextFrame(left).line) == Some(t.frame)
    requires match t.frame.payload {
      case None => t.payload.None? && after == rest
      case Some(n) => n <= MAX_PAYLOAD && n <= |rest| && t.payload == Some(rest[..n]) && after == rest[n..]
    }
    ensures Ongoing(ear, s, got + [t], after) && |after| < |left|
  {
    var more := Listen(ear, after);
    assert Listen(ear, left) == ([t] + more.0, more.1);
    assert got + ([t] + more.0) == got + [t] + more.0;
  }
}
