/**
  The daemon's end of a byte stream: one buffered reader that both frames and
  payloads come from.

  How many bytes a read or a buffer fill yields is up to the socket, so it is
  arbitrary here; only end-of-stream yields none.
*/
module Reader {
  import opened Wrappers
  import opened Wire

  datatype ReadError = TooLongFrame | NotText | CutOffPart | Interrupted | ReplyLost

  class Input {
    const stream: seq<byte>
    var pos: nat

    ghost predicate Valid()
      reads this
    {
      pos <= |stream|
    }

    ghost function Rest(): seq<byte>
      requires Valid()
      reads this
    {
      stream[pos..]
    }

    constructor (s: seq<byte>)
      ensures Valid() && Rest() == s
    {
      stream, pos := s, 0;
    }

    /** Some bytes of what is left, without taking them. */
    method FillBuf() returns (available: seq<byte>)
      requires Valid()
      ensures available <= Rest()
      ensures available == [] <==> Rest() == []
    {
      var left := |stream| - pos;
      if left == 0 {
        return [];
      }
      var n :| 1 <= n <= left;
      available := stream[pos..pos + n];
      assert available == Rest()[..n];
    }

    method Consume(n: nat)
      requires Valid() && n <= |Rest()|
      modifies this
      ensures Valid() && Rest() == old(Rest())[n..]
    {
      pos := pos + n;
    }

    /** Takes between one and `want` bytes, or none at the end of the stream. */
    method Read(want: nat) returns (got: seq<byte>)
      requires Valid()
      modifies this
      ensures Valid() && |got| <= want && got <= old(Rest()) && Rest() == old(Rest())[|got|..]
      ensures got == [] <==> want == 0 || old(Rest()) == []
    {
      var left := Shorter(want, |stream| - pos);
      if left == 0 {
        return [];
      }
      var n :| 1 <= n <= left;
      got := stream[pos..pos + n];
      assert got == Rest()[..n];
      pos := pos + n;
    }
  }

  /** Limits a transfer to `limit` bytes and remembers how many it handed out. */
  class Counted {
    const inner: Input
    const limit: nat
    var read: nat

    ghost predicate Valid()
      reads this, inner
    {
      inner.Valid() && read <= limit
    }

    constructor (input: Input, n: nat)
      requires input.Valid()
      ensures Valid() && inner == input && limit == n && read == 0
    {
      inner, limit, read := input, n, 0;
    }

    method Read(want: nat) returns (got: seq<byte>)
      requires Valid()
      modifies this, inner
      ensures Valid() && |got| <= want && got <= old(inner.Rest()) && inner.Rest() == old(inner.Rest())[|got|..]
      ensures read == old(read) + |got|
      ensures got == [] <==> Shorter(want, limit - old(read)) == 0 || old(inner.Rest()) == []
    {
      got := inner.Read(Shorter(want, limit - read));
      read := read + |got|;
    }
  }

  /** How one look at the buffer ends. */
  datatype Fill = NoMore | OverLong | LineEnd(piece: seq<byte>) | More(piece: seq<byte>)

  /** One turn of the frame loop: looks at what is buffered and takes up to and with the newline, or all of it. */
  method TakePiece(input: Input, have: nat) returns (f: Fill)
    requires input.Valid()
    modifies input
    ensures input.Valid()
    ensures f.NoMore? <==> old(input.Rest()) == []
    ensures f.OverLong? ==> have + NewlineAt(old(input.Rest())) > MAX_FRAME
    ensures f.LineEnd? ==>
      && |f.piece| == NewlineAt(old(input.Rest())) < |old(input.Rest())| && have + |f.piece| <= MAX_FRAME
      && f.piece == old(input.Rest())[..|f.piece|] && input.Rest() == old(input.Rest())[|f.piece| + 1..]
    ensures f.More? ==>
      && 0 < |f.piece| <= NewlineAt(old(input.Rest()))
      && f.piece == old(input.Rest())[..|f.piece|] && input.Rest() == old(input.Rest())[|f.piece|..]
  {
    var available := input.FillBuf();
    if available == [] {
      return NoMore;
    }
    BeginningDecides(input.Rest(), available);
    var end := NewlineAt(available);
    if end < |available| {
      if have + end > MAX_FRAME {
        return OverLong;
      }
      input.Consume(end + 1);
      return LineEnd(available[..end]);
    }
    input.Consume(|available|);
    f := More(available);
  }

  /** A newline in a beginning of the stream is the stream's first; without one, the first is further on. */
  lemma BeginningDecides(s: seq<byte>, p: seq<byte>)
    requires p <= s
    ensures if NewlineAt(p) < |p| then NewlineAt(s) == NewlineAt(p) else NewlineAt(s) >= |p|
  {
    var end, first := NewlineAt(p), NewlineAt(s);
    assert first >= end by {
      assert forall i | 0 <= i < end :: s[i] == p[i];
    }
    if end < |p| {
      assert s[end] == NEWLINE;
    }
  }

  lemma NewlineFurtherOn(s: seq<byte>, n: nat)
    requires n <= NewlineAt(s)
    ensures NewlineAt(s) == n + NewlineAt(s[n..])
  {
    var rest := s[n..];
    assert forall i | 0 <= i < |rest| :: rest[i] == s[n + i];
  }

  /** `frame` is what was taken of `s` so far, none of it a newline, and `left` is the rest. */
  predicate Taken(s: seq<byte>, frame: seq<byte>, left: seq<byte>) {
    && |frame| <= NewlineAt(s) && |frame| <= |s|
    && frame == s[..|frame|] && left == s[|frame|..]
  }

  lemma TakenMore(s: seq<byte>, frame: seq<byte>, left: seq<byte>, piece: seq<byte>)
    requires Taken(s, frame, left) && |piece| <= NewlineAt(left) && piece == left[..|piece|]
    ensures Taken(s, frame + piece, left[|piece|..])
  {
    NewlineFurtherOn(s, |frame|);
  }

  lemma TakenLine(s: seq<byte>, frame: seq<byte>, left: seq<byte>, piece: seq<byte>)
    requires Taken(s, frame, left) && |piece| == NewlineAt(left) < |left| && piece == left[..|piece|]
    ensures |frame + piece| == NewlineAt(s) < |s|
    ensures frame + piece == s[..|frame + piece|] && left[|piece| + 1..] == s[|frame + piece| + 1..]
  {
    NewlineFurtherOn(s, |frame|);
  }

  /** `r` is the next frame of `s`, and `rest` is what is left behind it. */
  predicate Delivers(isText: seq<byte> -> bool, s: seq<byte>, r: Result<Option<seq<byte>>, ReadError>,
                     rest: seq<byte>) {
    match NextFrame(s)
    case Line(line, more) => if isText(line) then r == Ok(Some(line)) && rest == more else r == Err(NotText)
    case Ended => r == Ok(None)
    case TooLong => r == Err(TooLongFrame)
  }

  lemma LineDelivered(isText: seq<byte> -> bool, s: seq<byte>, n: nat)
    requires n == NewlineAt(s) <= MAX_FRAME && n < |s|
    ensures Delivers(isText, s, if isText(s[..n]) then Ok(Some(s[..n])) else Err(NotText), s[n + 1..])
  {
  }

  lemma NoLineDelivered(isText: seq<byte> -> bool, s: seq<byte>, rest: seq<byte>)
    ensures NewlineAt(s) > MAX_FRAME ==> Delivers(isText, s, Err(TooLongFrame), rest)
    ensures NewlineAt(s) == |s| <= MAX_FRAME ==> Delivers(isText, s, Ok(None), rest)
  {
  }

  /**
    Reads one control frame from whatever pieces the stream arrives in. The
    answer is the whole stream split at its first newline, and afterwards the
    stream is right behind that newline.
  */
  method ReadFrame(input: Input, isText: seq<byte> -> bool) returns (r: Result<Option<seq<byte>>, ReadError>)
    requires input.Valid()
    modifies input
    ensures input.Valid()
    ensures Delivers(isText, old(input.Rest()), r, input.Rest())
  {
    ghost var s := input.Rest();
    var frame: seq<byte> := [];
    while true
      invariant input.Valid() && |frame| <= MAX_FRAME
      invariant Taken(s, frame, input.Rest())
      decreases |input.Rest()|
    {
      ghost var left := input.Rest();
      var f := TakePiece(input, |frame|);
      match f {
        case NoMore =>
          NoLineDelivered(isText, s, input.Rest());
          return Ok(None);
        case OverLong =>
          NewlineFurtherOn(s, |frame|);
          NoLineDelivered(isText, s, input.Rest());
          return Err(TooLongFrame);
        case LineEnd(piece) =>
          TakenLine(s, frame, left, piece);
          frame := frame + piece;
          LineDelivered(isText, s, |frame|);
          return if isText(frame) then Ok(Some(frame)) else Err(NotText);
        case More(piece) =>
          TakenMore(s, frame, left, piece);
          frame := frame + piece;
          if |frame| > MAX_FRAME {
            NoLineDelivered(isText, s, input.Rest());
            return Err(TooLongFrame);
          }
      }
    }
  }

  /** Reads bytes that cannot be used but must not be left in the stream. */
  method Drain(input: Input, bytes: nat)
    requires input.Valid()
    modifies input
    ensures input.Valid()
    ensures input.Rest() == old(input.Rest())[Shorter(bytes, |old(input.Rest())|)..]
  {
    ghost var s := input.Rest();
    var left := bytes;
    while left > 0
      invariant input.Valid() && 0 <= left <= bytes && bytes - left <= |s|
      invariant input.Rest() == s[bytes - left..]
    {
      var want :| 1 <= want <= left;
      var got := input.Read(want);
      if got == [] {
        assert |s| == bytes - left;
        return;
      }
      left := left - |got|;
    }
  }
}
