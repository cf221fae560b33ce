/**
  The Python client's recorder: one draft, its parts whole or as an iterable
  of pieces, and then a commit or an abort.

  `said` is what the client has told the daemon; the bytes on the socket are
  its encoding, whatever happened on the way.
*/
module PythonClient {
  import opened Wrappers
  import T = Tables
  import opened Wire
  import opened Blobs
  import opened Session
  import opened Conversation

  /** What a caller hands over: bytes of known length, or an iterable that may raise after some pieces. */
  datatype Source = Bytes(content: seq<byte>) | Pieces(pieces: seq<seq<byte>>, raises: bool)

  datatype Offer = Offer(mime: string, source: Source)

  datatype Failure = Rejected(code: string) | TruncatedPart(mime: string)

  /** A zero-length chunk is the terminator, so empty pieces are skipped. */
  function NonEmpty(pieces: seq<seq<byte>>): (r: seq<seq<byte>>)
    ensures forall p <- r :: p != []
  {
    if pieces == [] then []
    else
      var front := NonEmpty(pieces[..|pieces| - 1]);
      if pieces[|pieces| - 1] == [] then front else front + [pieces[|pieces| - 1]]
  }

  lemma {:induction false} EmptyPiecesAddNothing(pieces: seq<seq<byte>>)
    ensures Concat(NonEmpty(pieces)) == Concat(pieces)
  {
    if pieces != [] {
      var last := pieces[|pieces| - 1];
      EmptyPiecesAddNothing(pieces[..|pieces| - 1]);
      if last != [] {
        ConcatOne(NonEmpty(pieces[..|pieces| - 1]), last);
      }
    }
  }

  /** The request one part becomes. */
  function UnitOf(req: nat, draft: nat, offer: Offer): (h: Heard)
    ensures IsPartOf(h, draft) && h.mime == offer.mime
  {
    match offer.source
    case Bytes(content) => Whole(req, draft, offer.mime, |content|, content)
    case Pieces(pieces, _) => Chunked(req, draft, offer.mime, NonEmpty(pieces))
  }

  function UnitsOf(req: nat, draft: nat, offers: seq<Offer>): (hs: seq<Heard>)
    ensures |hs| == |offers| && forall h <- hs :: IsPartOf(h, draft)
  {
    seq(|offers|, i requires 0 <= i < |offers| => UnitOf(req + i, draft, offers[i]))
  }

  /** All of the content, in one piece. */
  function Flat(source: Source): seq<byte> {
    match source
    case Bytes(content) => content
    case Pieces(pieces, _) => Concat(pieces)
  }

  /** The same content is the same blob, whole or in pieces, empty pieces or not. */
  lemma SameBlobWholeOrPieced(cfg: Settings, req: nat, draft: nat, offer: Offer)
    ensures Sealed(cfg, UnitOf(req, draft, offer))
         == T.Part(offer.mime, cfg.sha(Flat(offer.source)), |Flat(offer.source)|)
  {
    if offer.source.Pieces? {
      EmptyPiecesAddNothing(offer.source.pieces);
    }
  }

  lemma {:induction false} EncodedOneMore(codec: Codec, hs: seq<Heard>, h: Heard)
    ensures EncodeAll(codec, hs + [h]) == EncodeAll(codec, hs) + Encode(codec, h)
    decreases |hs|
  {
    if hs == [] {
      assert [h][1..] == [];
      assert hs + [h] == [h];
    } else {
      EncodedOneMore(codec, hs[1..], h);
      assert (hs + [h])[1..] == hs[1..] + [h];
      Regroup(Encode(codec, hs[0]), EncodeAll(codec, hs[1..]), Encode(codec, h));
    }
  }

  lemma {:induction false} ChunkedOneMore(codec: Codec, chunks: seq<seq<byte>>, c: seq<byte>)
    ensures EncodeChunks(codec, chunks + [c]) == EncodeChunks(codec, chunks) + (LineOf(codec, Chunk(|c|)) + c)
    decreases |chunks|
  {
    if chunks == [] {
      assert [c][1..] == [];
      assert chunks + [c] == [c];
    } else {
      ChunkedOneMore(codec, chunks[1..], c);
      assert (chunks + [c])[1..] == chunks[1..] + [c];
      Regroup(LineOf(codec, Chunk(|chunks[0]|)) + chunks[0], EncodeChunks(codec, chunks[1..]),
              LineOf(codec, Chunk(|c|)) + c);
    }
  }

  /** How a recording closes, if it got a draft at all. */
  datatype Closing = Unopened | Aborting | Committing

  /**
    Everything one `record` call says: it begins, sends the first `n` parts in
    order, and closes, each request with the next number.
  */
  function Told(req: nat, source: Option<string>, draft: nat, offers: seq<Offer>, n: nat, closing: Closing): seq<Heard>
    requires n <= |offers|
  {
    [Asked(Begin(req, source))] +
    match closing
    case Unopened => []
    case Aborting => UnitsOf(req + 1, draft, offers[..n]) + [Asked(Abort(req + 1 + n, draft))]
    case Committing => UnitsOf(req + 1, draft, offers[..n]) + [Asked(Commit(req + 1 + n, draft))]
  }

  predicate Raises(offer: Offer) {
    offer.source.Pieces? && offer.source.raises
  }

  class Client {
    const codec: Codec
    var nextReq: nat
    /** The bytes written to the socket so far. */
    var wire: seq<byte>
    ghost var said: seq<Heard>

    ghost predicate Valid()
      reads this
    {
      wire == EncodeAll(codec, said)
    }

    constructor (c: Codec)
      ensures Valid() && codec == c && said == []
    {
      codec, nextReq, wire, said := c, 1, [], [];
    }

    /** One send for the frame and its payload. */
    method Send(frame: Request, payload: seq<byte>)
      modifies this`wire
      ensures wire == old(wire) + (LineOf(codec, frame) + payload)
    {
      wire := wire + (LineOf(codec, frame) + payload);
    }

    /** Skips broadcasts until the answer with this number arrives; what it says is up to the daemon. */
    method Await(req: nat) returns (r: Result<Verdict, Failure>)
      ensures r.Err? ==> r.error.Rejected?
    {
      var answer: Verdict := *;
      if answer.Refused? {
        return Err(Rejected(answer.code));
      }
      r := Ok(answer);
    }

    method Ask(request: Request) returns (r: Result<Verdict, Failure>)
      requires Valid() && (request.Begin? || request.Commit? || request.Abort?) && request.req == nextReq
      modifies this
      ensures Valid() && said == old(said) + [Asked(request)] && nextReq == old(nextReq) + 1
    {
      EncodedOneMore(codec, said, Asked(request));
      nextReq := nextReq + 1;
      Send(request, []);
      assert LineOf(codec, request) + [] == LineOf(codec, request);
      said := said + [Asked(request)];
      r := Await(request.req);
    }

    method WholePart(draft: nat, mime: string, content: seq<byte>) returns (r: Result<Verdict, Failure>)
      requires Valid()
      modifies this
      ensures Valid() && said == old(said) + [UnitOf(old(nextReq), draft, Offer(mime, Bytes(content)))]
      ensures nextReq == old(nextReq) + 1
    {
      var req := nextReq;
      ghost var h := Whole(req, draft, mime, |content|, content);
      EncodedOneMore(codec, said, h);
      nextReq := nextReq + 1;
      Send(Part(req, draft, mime, Some(|content|)), content);
      said := said + [h];
      r := Await(req);
    }

    /** Streams a part; the terminator is sent even when the source raises, and then the part counts as truncated. */
    method ChunkedPart(draft: nat, mime: string, pieces: seq<seq<byte>>, raises: bool) returns (r: Result<Verdict,
                       Failure>)
      requires Valid()
      modifies this
      ensures Valid() && said == old(said) + [UnitOf(old(nextReq), draft, Offer(mime, Pieces(pieces, raises)))]
      ensures nextReq == old(nextReq) + 1
      ensures raises ==> r == Err(TruncatedPart(mime))
    {
      var req := nextReq;
      nextReq := nextReq + 1;
      ghost var before := wire;
      ghost var head := LineOf(codec, Part(req, draft, mime, None));
      Send(Part(req, draft, mime, None), []);
      assert head + [] == head && EncodeChunks(codec, NonEmpty(pieces[..0])) == [];
      assert before + head + [] == before + head;
      for i := 0 to |pieces|
        invariant nextReq == req + 1 && said == old(said)
        invariant wire == before + head + EncodeChunks(codec, NonEmpty(pieces[..i]))
      {
        assert pieces[..i + 1][..i] == pieces[..i];
        if pieces[i] == [] {
          continue;
        }
        ChunkedOneMore(codec, NonEmpty(pieces[..i]), pieces[i]);
        Regroup(before + head, EncodeChunks(codec, NonEmpty(pieces[..i])),
                LineOf(codec, Chunk(|pieces[i]|)) + pieces[i]);
        Send(Chunk(|pieces[i]|), pieces[i]);
      }
      assert pieces[..|pieces|] == pieces;
      ghost var body := EncodeChunks(codec, NonEmpty(pieces));
      ghost var h := Chunked(req, draft, mime, NonEmpty(pieces));
      Send(Chunk(0), []);
      assert LineOf(codec, Chunk(0)) + [] == LineOf(codec, Chunk(0));
      RegroupFour(before, head, body, LineOf(codec, Chunk(0)));
      Regroup(head, body, LineOf(codec, Chunk(0)));
      EncodedOneMore(codec, said, h);
      said := said + [h];
      if raises {
        return Err(TruncatedPart(mime));
      }
      r := Await(req);
    }

    method SendPart(draft: nat, offer: Offer) returns (r: Result<Verdict, Failure>)
      requires Valid()
      modifies this
      ensures Valid() && said == old(said) + [UnitOf(old(nextReq), draft, offer)]
      ensures nextReq == old(nextReq) + 1
      ensures Raises(offer) ==> r.Err?
    {
      match offer.source {
        case Bytes(content) => r := WholePart(draft, offer.mime, content);
        case Pieces(pieces, raises) => r := ChunkedPart(draft, offer.mime, pieces, raises);
      }
    }

    /** Sends the parts one by one, each after the one before was acknowledged, and stops at the first that fails. */
    method SendParts(draft: nat, offers: seq<Offer>, ghost q: nat, ghost before: seq<Heard>,
                     ghost source: Option<string>)
      returns (failure: Option<Failure>, ghost n: nat)
      requires Valid() && nextReq == q + 1 && said == SentSoFar(before, q, source, draft, offers, 0)
      modifies this
      ensures Valid() && n <= |offers| && nextReq == q + 1 + n
      ensures said == SentSoFar(before, q, source, draft, offers, n)
      ensures failure.Some? ==> n > 0
      ensures failure.None? ==> n == |offers| && forall k | 0 <= k < n :: !Raises(offers[k])
    {
      n := 0;
      for i := 0 to |offers|
        invariant Valid() && nextReq == q + 1 + i && n == i
        invariant said == SentSoFar(before, q, source, draft, offers, i)
        invariant forall k | 0 <= k < i :: !Raises(offers[k])
      {
        var taken := SendPart(draft, offers[i]);
        n := i + 1;
        SentOneMore(before, q, source, draft, offers, i);
        if taken.Err? {
          return Some(taken.error), n;
        }
      }
      failure := None;
    }

    /**
      Records one clipboard event. A draft that was opened is committed only
      after every part was sent whole and acknowledged, and is aborted
      otherwise.
    */
    method Record(offers: seq<Offer>, source: Option<string>)
      returns (r: Result<Verdict, Failure>, ghost draft: nat, ghost n: nat, ghost closing: Closing)
      requires Valid()
      modifies this
      ensures Valid() && n <= |offers|
      ensures said == old(said) + Told(old(nextReq), source, draft, offers, n, closing)
      ensures r.Ok? ==> closing == Committing
      ensures closing == Committing ==> n == |offers| && forall k | 0 <= k < n :: !Raises(offers[k])
      ensures closing == Aborting ==> r.Err? && n > 0
      ensures closing == Unopened ==> r.Err? && n == 0
    {
      ghost var q, before := nextReq, said;
      n, draft, closing := 0, 0, Unopened;
      ToldUnopened(before, q, source, offers);
      var begun := Ask(Begin(nextReq, source));
      if begun.Err? {
        return Err(begun.error), draft, n, closing;
      }
      if !begun.value.Begun? {
        return Err(Rejected(BAD_FRAME)), draft, n, closing;
      }
      var d := begun.value.draft;
      draft := d;
      SentNone(before, q, source, d, offers);
      var failure;
      failure, n := SendParts(d, offers, q, before, source);
      closing := if failure.Some? then Aborting else Committing;
      ToldClosed(before, q, source, d, offers, n, closing);
      if failure.Some? {
        var _ := Ask(Abort(nextReq, d));
        return Err(failure.value), draft, n, closing;
      }
      r := Ask(Commit(nextReq, d));
    }
  }

  /** Everything said while the first `i` parts have been sent. */
  ghost function SentSoFar(before: seq<Heard>, req: nat, source: Option<string>, draft: nat, offers: seq<Offer>, i: nat)
    : seq<Heard>
    requires i <= |offers|
  {
    before + [Asked(Begin(req, source))] + UnitsOf(req + 1, draft, offers[..i])
  }

  lemma ToldUnopened(before: seq<Heard>, req: nat, source: Option<string>, offers: seq<Offer>)
    ensures before + Told(req, source, 0, offers, 0, Unopened) == before + [Asked(Begin(req, source))]
  {
  }

  lemma SentNone(before: seq<Heard>, req: nat, source: Option<string>, draft: nat, offers: seq<Offer>)
    ensures SentSoFar(before, req, source, draft, offers, 0) == before + [Asked(Begin(req, source))]
  {
  }

  lemma SentOneMore(before: seq<Heard>, req: nat, source: Option<string>, draft: nat, offers: seq<Offer>, i: nat)
    requires i < |offers|
    ensures SentSoFar(before, req, source, draft, offers, i + 1)
         == SentSoFar(before, req, source, draft, offers, i) + [UnitOf(req + 1 + i, draft, offers[i])]
  {
    assert UnitsOf(req + 1, draft, offers[..i + 1])
        == UnitsOf(req + 1, draft, offers[..i]) + [UnitOf(req + 1 + i, draft, offers[i])];
  }

  lemma ToldClosed(before: seq<Heard>, req: nat, source: Option<string>, draft: nat, offers: seq<Offer>, n: nat,
                   closing: Closing)
    requires n <= |offers| && closing != Unopened
    ensures before + Told(req, source, draft, offers, n, closing)
         == SentSoFar(before, req, source, draft, offers, n)
          + [Asked(if closing == Aborting then Abort(req + 1 + n, draft) else Commit(req + 1 + n, draft))]
  {
  }

  // ------------------------------------------------------------ end to end

  /** The bytes one recording puts on the wire are heard as that recording, whatever its contents. */
  lemma RecordIsHeard(codec: Codec, req: nat, source: Option<string>, draft: nat, offers: seq<Offer>, n: nat,
                      closing: Closing)
    requires n <= |offers|
    requires forall h <- Told(req, source, draft, offers, n, closing) :: Spoken(codec, h)
    ensures var told := Told(req, source, draft, offers, n, closing);
      Hear(codec, EncodeAll(codec, told)) == Script(told, Closed)
  {
    var told := Told(req, source, draft, offers, n, closing);
    forall h <- told
      ensures Proper(h)
    {
      assert h in UnitsOf(req + 1, draft, offers[..n]) ==> IsPartOf(h, draft);
    }
    WholeConversation(codec, told);
  }

  /** What the archive keeps of an offer. */
  function Kept(cfg: Settings, offers: seq<Offer>): seq<T.Part> {
    seq(|offers|, i requires 0 <= i < |offers| =>
      T.Part(offers[i].mime, cfg.sha(Flat(offers[i].source)), |Flat(offers[i].source)|))
  }

  /**
    From the caller's parts to the daemon's draft: when the client's bytes
    reach a session, and every part was acknowledged, the draft it is about to
    commit holds exactly the offered contents, and that is what is committed.
  */
  lemma RecordReachesTheDraft(cfg: Settings, req: nat, source: Option<string>, draft: nat, offers: seq<Offer>,
                              opens: seq<Open>, answers: seq<Answer>)
    requires IsPlay(cfg, opens, Told(req, source, draft, offers, |offers|, Committing), answers)
    requires answers[0].verdict == Begun(draft)
    requires forall k | 1 <= k <= |offers| :: answers[k].verdict == Done
    ensures var before := opens[|offers| + 1];
      draft in before.drafts && before.drafts[draft].parts == Kept(cfg, offers)
    ensures CommitEnds(cfg, Kept(cfg, offers), answers[|offers| + 1].verdict)
  {
    var n := |offers|;
    var begin := Begin(req, source);
    var units := UnitsOf(req + 1, draft, offers);
    var heard := Told(req, source, draft, offers, n, Committing);
    assert offers[..n] == offers;
    assert heard[..n + 1] == [Asked(begin)] + units;
    PlayPrefix(cfg, opens, heard, answers, n + 1);
    assert forall a <- answers[..n + 1][1..] :: a.verdict == Done;
    DraftHoldsWhatWasSent(cfg, opens[..n + 2], begin, units, answers[..n + 1], draft);
    SealedIsKept(cfg, req, draft, offers);
    assert heard[n + 1] == Asked(Commit(req + 1 + n, draft));
    assert Fits(cfg, opens[n + 1], heard[n + 1], answers[n + 1], opens[n + 2]);
    CommitFindsItsDraft(cfg, opens[n + 1], req + 1 + n, draft, answers[n + 1], opens[n + 2]);
  }

  lemma SealedIsKept(cfg: Settings, req: nat, draft: nat, offers: seq<Offer>)
    ensures SealedAll(cfg, draft, UnitsOf(req + 1, draft, offers)) == Kept(cfg, offers)
  {
    var units := UnitsOf(req + 1, draft, offers);
    forall i | 0 <= i < |offers|
      ensures Sealed(cfg, units[i]) == Kept(cfg, offers)[i]
    {
      SameBlobWholeOrPieced(cfg, req + 1 + i, draft, offers[i]);
    }
  }

  lemma CommitFindsItsDraft(cfg: Settings, before: Open, req: nat, draft: nat, a: Answer, after: Open)
    requires Fits(cfg, before, Asked(Commit(req, draft)), a, after) && draft in before.drafts
    ensures CommitEnds(cfg, before.drafts[draft].parts, a.verdict)
  {
  }
}
