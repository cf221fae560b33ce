/**
  One connection's conversation with the daemon.

  The archive may refuse a part up front, fail after any number of bytes, or
  find a chunk over budget only after taking all of it. None of that may move
  the stream: what a session performs is fixed by the bytes it was sent, and
  `Wire.Hear` says what that is.
*/
module Session {
  import opened Wrappers
  import T = Tables
  import opened Identity
  import opened Secrets
  import opened Wire
  import opened Reader
  import opened Blobs

  const MAX_REPRESENTATIONS := 8
  const MAX_DRAFTS := 4
  const MAX_SOURCE := 128

  const BAD_FRAME := "bad-frame"
  const NO_SUCH_DRAFT := "no-such-draft"
  const TOO_LARGE := "too-large"
  const STORAGE := "storage"

  datatype Draft = Draft(source: Option<string>, parts: seq<T.Part>)

  /** The drafts a session has open, by the number it gave them. */
  datatype Open = Open(drafts: map<nat, Draft>, next: nat)

  const FRESH := Open(map[], 1)

  /** `sound`: no file operation of the archive fails. `listening`: the peer takes every answer. */
  datatype Settings = Settings(
    codec: Codec,
    sha: seq<byte> -> string,
    budget: int,
    records: bool,
    sound: bool,
    listening: bool)

  datatype Verdict = Done | Begun(draft: nat) | Committed(entry: int, created: bool) | Served | Refused(code: string)

  datatype Answer = Answer(req: Option<nat>, verdict: Verdict)

  // ------------------------------------------------------ what is promised

  predicate Known(open: Open, draft: nat) {
    draft in open.drafts && |open.drafts[draft].parts| < MAX_REPRESENTATIONS
  }

  function WithPart(open: Open, draft: nat, part: T.Part): Open
    requires draft in open.drafts
  {
    var d := open.drafts[draft];
    open.(drafts := open.drafts[draft := d.(parts := d.parts + [part])])
  }

  function Clipped(source: Option<string>): Option<string> {
    match source
    case Some(text) => Some(if |text| > MAX_SOURCE then text[..MAX_SOURCE] else text)
    case None => None
  }

  /** Why a part that reaches an open draft is not recorded, when the disk is not to blame. */
  function Objection(cfg: Settings, mime: string, size: nat, complete: bool): Option<string> {
    if !ValidMime(mime) then Some(STORAGE)
    else if size > T.Room(cfg.budget) then Some(TOO_LARGE)
    else if !complete then Some(STORAGE)
    else None
  }

  /** The one outcome of a part on a sound disk; otherwise it may also fail, and then nothing is recorded. */
  predicate PartFits(cfg: Settings, before: Open, req: nat, draft: nat, mime: string,
                     size: nat, content: Option<seq<byte>>, a: Answer, after: Open)
  {
    var objection := Objection(cfg, mime, size, content.Some?);
    && a.req == Some(req)
    && if !Known(before, draft) then
         a.verdict == Refused(NO_SUCH_DRAFT) && after == before
       else if a.verdict == Done then
         objection.None? && content.Some?
         && after == WithPart(before, draft, T.Part(mime, cfg.sha(content.value), |content.value|))
       else
         && after == before && a.verdict in {Refused(STORAGE), Refused(TOO_LARGE)}
         && (a.verdict == Refused(TOO_LARGE) ==> objection == Some(TOO_LARGE))
         && (cfg.sound ==> objection.Some? && a.verdict == Refused(objection.value))
  }

  /**
    How committing a draft may end. One that is empty or offers a secret makes
    no entry, one larger than the budget is refused, and any other is recorded
    or moved to the top unless it offers a mime twice or the archive fails.
  */
  predicate CommitEnds(cfg: Settings, parts: seq<T.Part>, verdict: Verdict) {
    if parts == [] || AnySensitive(parts) then verdict == Committed(0, false)
    else if T.TotalOf(parts) > T.Room(cfg.budget) then verdict == Refused(TOO_LARGE)
    else verdict.Committed? || (verdict == Refused(STORAGE) && !(cfg.sound && T.DistinctMimes(parts)))
  }

  /** What performing one request does to the open drafts, and the one answer it gets. */
  predicate Fits(cfg: Settings, before: Open, h: Heard, a: Answer, after: Open) {
    match h
    case Asked(Hello(_)) => a == Answer(Some(0), Refused(BAD_FRAME)) && after == before
    case Asked(Begin(req, source)) =>
      a.req == Some(req) &&
      if !cfg.records || |before.drafts| >= MAX_DRAFTS then
        a.verdict == Refused(BAD_FRAME) && after == before
      else
        && a.verdict == Begun(before.next)
        && after == Open(before.drafts[before.next := Draft(Clipped(source), [])], before.next + 1)
    case Asked(Commit(req, draft)) =>
      a.req == Some(req) &&
      if draft !in before.drafts then
        a.verdict == Refused(NO_SUCH_DRAFT) && after == before
      else
        && after == before.(drafts := before.drafts - {draft})
        && CommitEnds(cfg, before.drafts[draft].parts, a.verdict)
    case Asked(Abort(req, draft)) =>
      a == Answer(Some(req), Done) && after == before.(drafts := before.drafts - {draft})
    case Asked(Ask(req, _)) => a.req == Some(req) && after == before && (a.verdict.Served? || a.verdict.Refused?)
    case Asked(_) => false
    case Whole(req, draft, mime, declared, content) =>
      PartFits(cfg, before, req, draft, mime, declared,
               if |content| == declared then Some(content) else None, a, after)
    case Chunked(req, draft, mime, chunks) =>
      PartFits(cfg, before, req, draft, mime, |Concat(chunks)|, Some(Concat(chunks)), a, after)
    case Stray(_, _) => a == Answer(None, Refused(BAD_FRAME)) && after == before
  }

  /** A whole conversation: the drafts before, between and after the requests, one answer for each. */
  ghost predicate IsPlay(cfg: Settings, opens: seq<Open>, heard: seq<Heard>, answers: seq<Answer>) {
    && |opens| == |heard| + 1 && |answers| == |heard|
    && forall k | 0 <= k < |heard| :: Fits(cfg, opens[k], heard[k], answers[k], opens[k + 1])
  }

  // ------------------------------------------------------------ the session

  datatype PartOutcome = Recorded(part: T.Part) | NoDraft | Failed(error: StoreError)

  function CodeOf(error: StoreError): string {
    if error.TooLarge? then TOO_LARGE else STORAGE
  }

  /** How taking a part may end, given its content when all of it arrived. */
  predicate Ends(cfg: Settings, mime: string, known: bool, size: nat, content: Option<seq<byte>>, r: PartOutcome) {
    var objection := Objection(cfg, mime, size, content.Some?);
    match r
    case NoDraft => !known
    case Recorded(part) =>
      known && objection.None? && content.Some? && part == T.Part(mime, cfg.sha(content.value), |content.value|)
    case Failed(error) =>
      known && (error.TooLarge? || cfg.sound ==> objection == Some(CodeOf(error)))
  }

  /** The same of a part as it was heard. */
  predicate EndsPart(cfg: Settings, h: Heard, known: bool, r: PartOutcome) {
    match h
    case Whole(_, _, mime, declared, content) =>
      Ends(cfg, mime, known, declared, if |content| == declared then Some(content) else None, r)
    case Chunked(_, _, mime, chunks) => Ends(cfg, mime, known, |Concat(chunks)|, Some(Concat(chunks)), r)
    case _ => false
  }

  function VerdictOf(r: PartOutcome): Verdict {
    match r
    case Recorded(_) => Done
    case NoDraft => Refused(NO_SUCH_DRAFT)
    case Failed(error) => Refused(CodeOf(error))
  }

  /** An outcome the content deserves, entered into the draft, is the request performed. */
  lemma PartPerformed(cfg: Settings, before: Open, h: Heard, req: nat, draft: nat, known: bool, r: PartOutcome,
                      after: Open)
    requires (h.Whole? || h.Chunked?) && h.req == req && h.draft == draft
    requires known == Known(before, draft) && EndsPart(cfg, h, known, r)
    requires after == if r.Recorded? then WithPart(before, draft, r.part) else before
    ensures Fits(cfg, before, h, Answer(Some(req), VerdictOf(r)), after)
  {
  }

  /** What `s` holds for a chunked part of which `taken` has been read and `left` has not. */
  predicate ChunksSoFar(codec: Codec, s: seq<byte>, taken: seq<seq<byte>>, left: seq<byte>) {
    HearChunks(codec, s) ==
      match HearChunks(codec, left)
      case Some((more, rest)) => Some((taken + more, rest))
      case None => None
  }

  predicate IsChunk(codec: Codec, left: seq<byte>, n: nat, rest: seq<byte>) {
    && NextFrame(left).Line? && NextFrame(left).rest == rest
    && codec.isText(NextFrame(left).line) && codec.decode(NextFrame(left).line) == Some(Chunk(n))
  }

  lemma NoneYet(codec: Codec, s: seq<byte>)
    ensures ChunksSoFar(codec, s, [], s)
  {
    var all := HearChunks(codec, s);
    assert all.Some? ==> [] + all.value.0 == all.value.0;
  }

  lemma LastChunk(codec: Codec, s: seq<byte>, taken: seq<seq<byte>>, left: seq<byte>, rest: seq<byte>)
    requires ChunksSoFar(codec, s, taken, left) && IsChunk(codec, left, 0, rest)
    ensures HearChunks(codec, s) == Some((taken, rest))
  {
    assert taken + [] == taken;
  }

  lemma OneMoreChunk(codec: Codec, s: seq<byte>, taken: seq<seq<byte>>, left: seq<byte>, n: nat, rest: seq<byte>)
    requires ChunksSoFar(codec, s, taken, left) && n > 0 && IsChunk(codec, left, n, rest)
    ensures var k := Shorter(n, |rest|); ChunksSoFar(codec, s, taken + [rest[..k]], rest[k..])
  {
    var k := Shorter(n, |rest|);
    var more := HearChunks(codec, rest[k..]);
    if more.Some? {
      assert taken + ([rest[..k]] + more.value.0) == taken + [rest[..k]] + more.value.0;
    }
  }

  lemma NoChunk(codec: Codec, s: seq<byte>, taken: seq<seq<byte>>, left: seq<byte>)
    requires ChunksSoFar(codec, s, taken, left)
    requires forall n: nat, rest: seq<byte> :: !IsChunk(codec, left, n, rest)
    ensures HearChunks(codec, s).None?
  {
    if NextFrame(left).Line? && codec.decode(NextFrame(left).line).Some?
      && codec.decode(NextFrame(left).line).value.Chunk? {
      assert !IsChunk(codec, left, codec.decode(NextFrame(left).line).value.size, NextFrame(left).rest);
    }
  }

  lemma ConcatOne(taken: seq<seq<byte>>, piece: seq<byte>)
    ensures Concat(taken + [piece]) == Concat(taken) + piece
  {
    assert (taken + [piece])[..|taken|] == taken;
  }

  /**
    A reply can be lost when the peer is gone, and a fetch can break off when
    reading the file fails after its frame went out.
  */
  predicate MayLose(cfg: Settings, r: Request) {
    !cfg.listening || (!cfg.sound && r.Ask? && r.verb.Fetch?)
  }

  /**
    The stream behind a request, and the request with its payload; none when
    it cannot be brought back to a boundary.
  */
  predicate Performed(cfg: Settings, r: Request, s: seq<byte>, rest: seq<byte>, h: Option<Heard>,
                      ended: Option<ReadError>) {
    match HearOne(cfg.codec, r, s)
    case Some((one, more)) =>
      h == Some(one) && rest == more && (ended.None? || (ended == Some(ReplyLost) && MayLose(cfg, r)))
    case None => h.None? && ended.Some? && ended != Some(ReplyLost)
  }

  /**
    One connection. The leases `blobs` takes for the parts of a draft are not
    given back here when the draft is committed or aborted: what discarding does
    to leases and files is `Archive.DiscardCode`, and nothing a session answers
    depends on it.
  */
  class Session {
    const cfg: Settings
    const blobs: Blobs
    var drafts: map<nat, Draft>
    var next: nat
    /** What has been written to the peer. */
    var answers: seq<Answer>
    /** What has been performed and answered, and the drafts before and after each. */
    ghost var heard: seq<Heard>
    ghost var opens: seq<Open>

    function Drafts(): Open
      reads this
    {
      Open(drafts, next)
    }

    ghost predicate Valid()
      reads this, blobs
    {
      blobs.Valid() && blobs.sha == cfg.sha
    }

    ghost predicate Playing()
      reads this
    {
      && IsPlay(cfg, opens, heard, answers)
      && opens[|heard|] == Drafts()
    }

    constructor (settings: Settings)
      ensures Valid() && Playing() && cfg == settings && heard == [] && Drafts() == FRESH
      ensures fresh(blobs)
    {
      cfg := settings;
      blobs := new Blobs(settings.sha);
      drafts, next, answers := map[], 1, [];
      heard, opens := [], [FRESH];
    }

    /** Writes one answer; a peer that is gone loses it. */
    method Send(a: Answer) returns (sent: bool)
      modifies this`answers
      ensures answers == if sent then old(answers) + [a] else old(answers)
      ensures cfg.listening ==> sent
    {
      sent := *;
      sent := sent || cfg.listening;
      if sent {
        answers := answers + [a];
      }
    }

    /** `Store::accept`: checks first, then takes exactly the declared bytes or fails on the way. */
    method Accept(mime: string, source: Counted, declared: nat) returns (r: Result<T.Part, StoreError>)
      requires Valid() && source.Valid() && source.read == 0 && source.limit == declared
      modifies source, source.inner, blobs
      ensures Valid() && source.Valid() && source.read <= declared
      ensures source.read <= |old(source.inner.Rest())|
      ensures source.inner.Rest() == old(source.inner.Rest())[source.read..]
      ensures r.Ok? ==>
        && source.read == declared <= |old(source.inner.Rest())|
        && r.value == T.Part(mime, cfg.sha(old(source.inner.Rest())[..declared]), declared)
        && Objection(cfg, mime, declared, true).None?
      ensures r.Err? && (r.error.TooLarge? || cfg.sound) ==>
        Objection(cfg, mime, declared, declared <= |old(source.inner.Rest())|) == Some(CodeOf(r.error))
    {
      if !ValidMime(mime) {
        return Err(Io);
      }
      if declared > T.Room(cfg.budget) {
        return Err(TooLarge);
      }
      var fails: bool := *;
      if fails && !cfg.sound {
        return Err(Io);
      }
      var writer := new Writer();
      var ok := writer.Absorb(source, declared, cfg.sound);
      if !ok {
        return Err(Io);
      }
      var written := blobs.Finish(writer, cfg.sound);
      if written.Err? {
        return Err(Io);
      }
      assert writer.file == old(source.inner.Rest())[..declared];
      r := Ok(T.Part(mime, written.value.digest, written.value.bytes));
    }

    /** Takes a part that declared its length. */
    method WholePart(mime: string, known: bool, declared: nat, input: Input) returns (r: PartOutcome)
      requires Valid() && input.Valid()
      modifies input, blobs
      ensures Valid() && input.Valid()
      ensures var s := old(input.Rest()); var k := Shorter(declared, |s|);
        && input.Rest() == s[k..]
        && Ends(cfg, mime, known, declared, if k == declared then Some(s[..k]) else None, r)
    {
      if !known {
        Drain(input, declared);
        return NoDraft;
      }
      ghost var s := input.Rest();
      var counted := new Counted(input, declared);
      var result := Accept(mime, counted, declared);
      var consumed := counted.read;
      match result {
        case Ok(part) =>
          r := Recorded(part);
        case Err(error) =>
          DrainedRest(s, consumed, declared);
          Drain(input, declared - consumed);
          r := Failed(error);
      }
    }

    /** `Store::incoming`. */
    method Incoming(mime: string) returns (writer: Option<Writer>, failure: Option<StoreError>)
      ensures Collecting(mime, true, cfg.sound, writer, failure, [])
      ensures writer.Some? ==> fresh(writer.value)
    {
      if !ValidMime(mime) {
        return None, Some(Io);
      }
      var fails: bool := *;
      if fails && !cfg.sound {
        return None, Some(Io);
      }
      var w := new Writer();
      return Some(w), None;
    }

    /** Part way through the chunks: what the writer holds, or what went wrong. */
    ghost predicate Collecting(mime: string, known: bool, sound: bool, incoming: Option<Writer>,
                               failure: Option<StoreError>, content: seq<byte>)
      reads if incoming.Some? then {incoming.value} else {}
    {
      && (incoming.Some? ==>
            && known && failure.None? && ValidMime(mime)
            && incoming.value.Valid() && incoming.value.file == content && |content| <= T.Room(cfg.budget))
      && (failure.Some? ==>
            && known && incoming.None?
            && (failure.value.TooLarge? || sound ==>
                  Objection(cfg, mime, |content|, true) == Some(CodeOf(failure.value))))
      && (incoming.None? && failure.None? ==> !known)
    }

    /** One chunk: into the writer while there is one, and out of the stream in any case. */
    method TakeChunk(mime: string, known: bool, input: Input, n: nat, writer: Option<Writer>,
                     failed: Option<StoreError>,
                     ghost sound: bool, ghost content: seq<byte>)
      returns (incoming: Option<Writer>, failure: Option<StoreError>)
      requires Valid() && input.Valid() && (sound ==> cfg.sound)
      requires Collecting(mime, known, sound, writer, failed, content)
      modifies input, if writer.Some? then {writer.value} else {}
      ensures Valid() && input.Valid()
      ensures var s := old(input.Rest()); var k := Shorter(n, |s|);
        && input.Rest() == s[k..]
        && Collecting(mime, known, sound && k == n, incoming, failure, content + s[..k])
      ensures incoming.Some? ==> incoming == writer
    {
      ghost var s := input.Rest();
      if writer.None? {
        Drain(input, n);
        return None, failed;
      }
      var counted := new Counted(input, n);
      var ok := writer.value.Absorb(counted, n, cfg.sound);
      var consumed := counted.read;
      if ok && writer.value.bytes <= T.Room(cfg.budget) {
        return writer, None;
      }
      DrainedRest(s, consumed, n);
      Drain(input, n - consumed);
      return None, Some(if ok then TooLarge else Io);
    }

    /** The next frame, which inside a chunked part can only be a chunk. */
    method NextChunk(input: Input) returns (r: Result<nat, ReadError>)
      requires input.Valid()
      modifies input
      ensures input.Valid()
      ensures r.Ok? ==> IsChunk(cfg.codec, old(input.Rest()), r.value, input.Rest())
      ensures r.Err? ==> r.error != ReplyLost
      ensures r.Err? ==> forall n: nat, rest: seq<byte> :: !IsChunk(cfg.codec, old(input.Rest()), n, rest)
    {
      var frame := ReadFrame(input, cfg.codec.isText);
      if frame.Err? {
        return Err(frame.error);
      }
      if frame.value.None? {
        return Err(CutOffPart);
      }
      var request := cfg.codec.decode(frame.value.value);
      if request.None? || !request.value.Chunk? {
        return Err(Interrupted);
      }
      r := Ok(request.value.size);
    }

    /** The terminator has been read: whatever was collected is sealed. */
    method Seal(mime: string, known: bool, incoming: Option<Writer>, failure: Option<StoreError>,
                ghost content: seq<byte>)
      returns (r: PartOutcome)
      requires Valid() && Collecting(mime, known, cfg.sound, incoming, failure, content)
      modifies blobs
      ensures Valid() && Ends(cfg, mime, known, |content|, Some(content), r)
    {
      match (incoming, failure) {
        case (_, Some(error)) => r := Failed(error);
        case (Some(writer), None) =>
          var written := blobs.Finish(writer, cfg.sound);
          r := if written.Ok? then Recorded(T.Part(mime, written.value.digest, written.value.bytes))
               else Failed(Io);
        case (None, None) => r := NoDraft;
      }
    }

    /** One turn of the chunk loop: the terminator, one more chunk, or the end of the stream. */
    method OneChunk(mime: string, known: bool, input: Input, writer: Option<Writer>, failed: Option<StoreError>,
                    ghost s: seq<byte>, ghost had: seq<seq<byte>>, ghost wasCut: bool)
      returns (more: Result<bool, ReadError>, incoming: Option<Writer>, failure: Option<StoreError>,
               ghost taken: seq<seq<byte>>, ghost cut: bool)
      requires Valid() && input.Valid() && ChunksSoFar(cfg.codec, s, had, input.Rest())
      requires wasCut ==> input.Rest() == []
      requires Collecting(mime, known, cfg.sound && !wasCut, writer, failed, Concat(had))
      modifies input, if writer.Some? then {writer.value} else {}
      ensures Valid() && input.Valid()
      ensures more.Err? ==> more.error != ReplyLost && HearChunks(cfg.codec, s).None?
      ensures more.Ok? ==> |input.Rest()| < |old(input.Rest())|
      ensures more == Ok(false) ==>
        && HearChunks(cfg.codec, s) == Some((taken, input.Rest()))
        && Collecting(mime, known, cfg.sound, incoming, failure, Concat(taken))
      ensures more == Ok(true) ==>
        && ChunksSoFar(cfg.codec, s, taken, input.Rest()) && (cut ==> input.Rest() == [])
        && Collecting(mime, known, cfg.sound && !cut, incoming, failure, Concat(taken))
      ensures incoming.Some? ==> incoming == writer
    {
      incoming, failure, taken, cut := writer, failed, had, wasCut;
      ghost var left := input.Rest();
      var next := NextChunk(input);
      if next.Err? {
        NoChunk(cfg.codec, s, had, left);
        return Err(next.error), incoming, failure, taken, cut;
      }
      var n := next.value;
      ghost var rest := input.Rest();
      if n == 0 {
        LastChunk(cfg.codec, s, had, left, rest);
        return Ok(false), incoming, failure, taken, cut;
      }
      OneMoreChunk(cfg.codec, s, had, left, n, rest);
      ConcatOne(had, rest[..Shorter(n, |rest|)]);
      incoming, failure := TakeChunk(mime, known, input, n, writer, failed, cfg.sound, Concat(had));
      taken, cut, more := had + [rest[..Shorter(n, |rest|)]], n > |rest|, Ok(true);
    }

    /**
      Takes a part that declared no length, reading chunks to the terminator.
      Every chunk is consumed even once the content is known to be unusable.
    */
    method ChunkedPart(mime: string, known: bool, input: Input) returns (r: Result<PartOutcome, ReadError>)
      requires Valid() && input.Valid()
      modifies input, blobs
      ensures Valid() && input.Valid()
      ensures match HearChunks(cfg.codec, old(input.Rest())) {
        case None => r.Err? && r.error != ReplyLost
        case Some((chunks, rest)) =>
          && r.Ok? && input.Rest() == rest
          && Ends(cfg, mime, known, |Concat(chunks)|, Some(Concat(chunks)), r.value)
      }
    {
      ghost var s := input.Rest();
      ghost var taken: seq<seq<byte>> := [];
      ghost var cut := false;
      var incoming: Option<Writer> := None;
      var failure: Option<StoreError> := None;
      if known {
        incoming, failure := Incoming(mime);
      }
      NoneYet(cfg.codec, s);
      while true
        invariant Valid() && input.Valid()
        invariant ChunksSoFar(cfg.codec, s, taken, input.Rest())
        invariant cut ==> input.Rest() == []
        invariant incoming.Some? ==> fresh(incoming.value)
        invariant Collecting(mime, known, cfg.sound && !cut, incoming, failure, Concat(taken))
        decreases |input.Rest()|
      {
        var more;
        more, incoming, failure, taken, cut := OneChunk(mime, known, input, incoming, failure, s, taken, cut);
        if more.Err? {
          return Err(more.error);
        }
        if !more.value {
          break;
        }
      }
      var outcome := Seal(mime, known, incoming, failure, Concat(taken));
      r := Ok(outcome);
    }

    /** A part frame's payload, taken one way or the other; none when a chunked part does not come to its end. */
    method TakePayload(req: nat, draft: nat, mime: string, bytes: Option<nat>, known: bool, input: Input)
      returns (r: Result<PartOutcome, ReadError>, ghost h: Option<Heard>)
      requires Valid() && input.Valid()
      modifies input, blobs
      ensures Valid() && input.Valid()
      ensures match HearOne(cfg.codec, Part(req, draft, mime, bytes), old(input.Rest())) {
        case None => r.Err? && r.error != ReplyLost && h.None?
        case Some((one, rest)) => r.Ok? && h == Some(one) && input.Rest() == rest && EndsPart(cfg, one, known, r.value)
      }
    {
      ghost var s := input.Rest();
      match bytes {
        case Some(declared) =>
          h := Some(Whole(req, draft, mime, declared, s[..Shorter(declared, |s|)]));
          var outcome := WholePart(mime, known, declared, input);
          r := Ok(outcome);
        case None =>
          r := ChunkedPart(mime, known, input);
          h := if r.Err? then None else Some(Chunked(req, draft, mime, HearChunks(cfg.codec, s).value.0));
      }
    }

    /** What became of the payload, entered into its draft. */
    method Enter(draft: nat, outcome: PartOutcome) returns (verdict: Verdict)
      requires outcome.Recorded? ==> draft in drafts
      modifies this`drafts
      ensures Drafts() == if outcome.Recorded? then WithPart(old(Drafts()), draft, outcome.part) else old(Drafts())
      ensures verdict == VerdictOf(outcome)
    {
      match outcome {
        case Recorded(part) =>
          drafts := drafts[draft := drafts[draft].(parts := drafts[draft].parts + [part])];
          verdict := Done;
        case NoDraft => verdict := Refused(NO_SUCH_DRAFT);
        case Failed(error) => verdict := Refused(CodeOf(error));
      }
    }

    /** A part frame, its payload and its answer. */
    method TakePart(req: nat, draft: nat, mime: string, bytes: Option<nat>, input: Input)
      returns (ended: Option<ReadError>, ghost h: Option<Heard>)
      requires Valid() && input.Valid()
      modifies this`drafts, this`answers, input, blobs
      ensures Valid() && input.Valid()
      ensures Performed(cfg, Part(req, draft, mime, bytes), old(input.Rest()), input.Rest(), h, ended)
      ensures Stepped(old(Drafts()), old(answers), h, ended)
    {
      ghost var before := Drafts();
      var known := draft in drafts && |drafts[draft].parts| < MAX_REPRESENTATIONS;
      var taken;
      taken, h := TakePayload(req, draft, mime, bytes, known, input);
      if taken.Err? {
        return Some(taken.error), h;
      }
      var verdict := Enter(draft, taken.value);
      PartPerformed(cfg, before, h.value, req, draft, known, taken.value, Drafts());
      var sent := Send(Answer(Some(req), verdict));
      ended := if sent then None else Some(ReplyLost);
    }

    /** The part of a step every request shares: one answer, or the peer is gone. */
    ghost predicate Stepped(before: Open, sent: seq<Answer>, h: Option<Heard>, ended: Option<ReadError>)
      reads this
    {
      && (ended.None? ==>
            && |answers| == |sent| + 1 && answers[..|sent|] == sent
            && h.Some? && Fits(cfg, before, h.value, answers[|sent|], Drafts()))
      && (ended.Some? ==> answers == sent)
      && (h.None? ==> Drafts() == before)
    }

    /** `Store::commit` as the session sees it: its own checks, and then what the archive makes of the draft. */
    method CommitDraft(parts: seq<T.Part>) returns (verdict: Verdict)
      ensures CommitEnds(cfg, parts, verdict)
    {
      if parts == [] || AnySensitive(parts) {
        return Committed(0, false);
      }
      if T.TotalOf(parts) > T.Room(cfg.budget) {
        return Refused(TOO_LARGE);
      }
      var fails: bool := *;
      if fails && !(cfg.sound && T.DistinctMimes(parts)) {
        return Refused(STORAGE);
      }
      var entry: int, created: bool := *, *;
      verdict := Committed(entry, created);
    }

    /** Any request but a part: what it does to the drafts, and its answer. */
    method Reply(request: Request) returns (ended: Option<ReadError>)
      requires !request.Part? && !request.Chunk?
      modifies this`drafts, this`next, this`answers
      ensures ended.None? || (ended == Some(ReplyLost) && MayLose(cfg, request))
      ensures Stepped(old(Drafts()), old(answers), Some(Asked(request)), ended)
    {
      var verdict;
      match request {
        case Hello(_) => verdict := Refused(BAD_FRAME);
        case Begin(_, source) =>
          if !cfg.records || |drafts| >= MAX_DRAFTS {
            verdict := Refused(BAD_FRAME);
          } else {
            verdict := Begun(next);
            drafts, next := drafts[next := Draft(Clipped(source), [])], next + 1;
          }
        case Commit(_, draft) =>
          if draft !in drafts {
            verdict := Refused(NO_SUCH_DRAFT);
          } else {
            verdict := CommitDraft(drafts[draft].parts);
            drafts := drafts - {draft};
          }
        case Abort(_, draft) =>
          drafts := drafts - {draft};
          verdict := Done;
        case Ask(_, verb) =>
          var fails: bool := *;
          if fails && !cfg.sound && verb.Fetch? {
            return Some(ReplyLost);
          }
          verdict := *;
          if !verdict.Served? && !verdict.Refused? {
            verdict := Served;
          }
      }
      var sent := Send(Answer(Some(if request.Hello? then 0 else request.req), verdict));
      ended := if sent then None else Some(ReplyLost);
    }

    method Perform(request: Request, input: Input) returns (ended: Option<ReadError>, ghost h: Option<Heard>)
      requires Valid() && input.Valid()
      modifies this`drafts, this`next, this`answers, input, blobs
      ensures Valid() && input.Valid()
      ensures Performed(cfg, request, old(input.Rest()), input.Rest(), h, ended)
      ensures Stepped(old(Drafts()), old(answers), h, ended)
    {
      match request {
        case Part(req, draft, mime, bytes) =>
          ended, h := TakePart(req, draft, mime, bytes, input);
        case Chunk(bytes) =>
          ghost var s := input.Rest();
          h := Some(Stray(bytes, s[..Shorter(bytes, |s|)]));
          Drain(input, bytes);
          var sent := Send(Answer(None, Refused(BAD_FRAME)));
          ended := if sent then None else Some(ReplyLost);
        case _ =>
          h := Some(Asked(request));
          ended := Reply(request);
      }
    }

    /** One turn: the next frame performed, or the end of the session and its reason. */
    method Turn(input: Input) returns (over: Option<Result<(), ReadError>>)
      requires Valid() && Playing() && input.Valid()
      modifies this, input, blobs
      ensures Valid() && input.Valid()
      ensures over.None? ==>
        && Playing() && |input.Rest()| < |old(input.Rest())|
        && |heard| == |old(heard)| + 1 && heard[..|old(heard)|] == old(heard)
        && Hear(cfg.codec, old(input.Rest())) == Then(heard[|old(heard)|], Hear(cfg.codec, input.Rest()))
      ensures over.Some? ==> heard == old(heard) && opens == old(opens)
      ensures over == Some(Err(ReplyLost)) ==> answers == old(answers) && !(cfg.listening && cfg.sound)
      ensures over.Some? && over.value != Err(ReplyLost) ==>
        var script := Hear(cfg.codec, old(input.Rest()));
        && script.heard == [] && (over.value.Ok? <==> script.ending != Broken)
        && Drafts() == old(Drafts()) && answers == old(answers) + Farewell(script.ending)
    {
      ghost var sent, open, left := answers, Drafts(), input.Rest();
      var frame := ReadFrame(input, cfg.codec.isText);
      if frame.Err? {
        return Some(Err(frame.error));
      }
      if frame.value.None? {
        return Some(Ok(()));
      }
      var request := cfg.codec.decode(frame.value.value);
      if request.None? {
        var told := Send(Answer(None, Refused(BAD_FRAME)));
        return Some(if told then Ok(()) else Err(ReplyLost));
      }
      ghost var h;
      var ended;
      ended, h := Perform(request.value, input);
      if ended.Some? {
        return Some(Err(ended.value));
      }
      PlayMore(cfg, opens, heard, sent, open, h.value, answers, Drafts());
      heard, opens := heard + [h.value], opens + [Drafts()];
      over := None;
    }

    /**
      Performs frames until the client goes away. Whatever the archive makes of
      the parts, the requests performed are the ones the stream holds, in
      order, and each gets its one answer.
    */
    method Run(input: Input) returns (r: Result<(), ReadError>)
      requires Valid() && Playing() && input.Valid()
      modifies this, input, blobs
      ensures Valid() && input.Valid()
      ensures Conversed(cfg, opens, heard, answers, Drafts(), old(heard), Hear(cfg.codec, old(input.Rest())), r)
    {
      ghost var s, before := input.Rest(), heard;
      NothingYet(cfg.codec, s, before);
      while true
        invariant Valid() && Playing() && input.Valid()
        invariant Underway(cfg.codec, s, before, heard, input.Rest())
        decreases |input.Rest()|
      {
        ghost var left, sent, open, was := input.Rest(), answers, Drafts(), heard;
        var over := Turn(input);
        if over.Some? {
          Concluded(cfg, opens, heard, sent, answers, open, before, s, left, over.value);
          return over.value;
        }
        OneMoreHeard(cfg.codec, s, before, was, left, heard, input.Rest());
      }
    }
  }

  /** A line that is no request is the last thing answered. */
  function Farewell(ending: Ending): seq<Answer> {
    if ending == BadFrame then [Answer(None, Refused(BAD_FRAME))] else []
  }

  /**
    How a session ends that had performed `before` and was then sent `script`:
    all of it performed and answered, unless an answer could not be delivered
    whole.
  */
  ghost predicate Conversed(cfg: Settings, opens: seq<Open>, heard: seq<Heard>, answers: seq<Answer>, open: Open,
                            before: seq<Heard>, script: Script, r: Result<(), ReadError>) {
    && |heard| <= |answers| && IsPlay(cfg, opens, heard, answers[..|heard|])
    && (if r == Err(ReplyLost) then heard <= before + script.heard && !(cfg.listening && cfg.sound)
        else
          && heard == before + script.heard
          && opens[|heard|] == open
          && (r.Ok? <==> script.ending != Broken)
          && answers == answers[..|heard|] + Farewell(script.ending))
  }

  lemma Concluded(cfg: Settings, opens: seq<Open>, heard: seq<Heard>, sent: seq<Answer>, answers: seq<Answer>,
                  open: Open, before: seq<Heard>, s: seq<byte>, left: seq<byte>, r: Result<(), ReadError>)
    requires IsPlay(cfg, opens, heard, sent) && opens[|heard|] == open
    requires Underway(cfg.codec, s, before, heard, left)
    requires r == Err(ReplyLost) ==> answers == sent && !(cfg.listening && cfg.sound)
    requires r != Err(ReplyLost) ==>
      && Hear(cfg.codec, left).heard == [] && (r.Ok? <==> Hear(cfg.codec, left).ending != Broken)
      && answers == sent + Farewell(Hear(cfg.codec, left).ending)
    ensures Conversed(cfg, opens, heard, answers, open, before, Hear(cfg.codec, s), r)
  {
    WithTheRest(cfg.codec, s, before, heard, left);
    assert answers[..|heard|] == sent;
    if r != Err(ReplyLost) {
      assert heard + [] == heard;
    }
  }

  lemma WithTheRest(codec: Codec, s: seq<byte>, before: seq<Heard>, heard: seq<Heard>, left: seq<byte>)
    requires Underway(codec, s, before, heard, left)
    ensures before + Hear(codec, s).heard == heard + Hear(codec, left).heard
    ensures Hear(codec, s).ending == Hear(codec, left).ending
  {
    var done, more := heard[|before|..], Hear(codec, left);
    assert heard == before + done;
    Regroup(before, done, more.heard);
  }

  lemma PlayMore(cfg: Settings, opens: seq<Open>, heard: seq<Heard>, sent: seq<Answer>, open: Open,
                 h: Heard, answers: seq<Answer>, after: Open)
    requires IsPlay(cfg, opens, heard, sent) && opens[|heard|] == open
    requires |answers| == |sent| + 1 && answers[..|sent|] == sent && Fits(cfg, open, h, answers[|sent|], after)
    ensures IsPlay(cfg, opens + [after], heard + [h], answers)
  {
    var hs, os := heard + [h], opens + [after];
    forall k | 0 <= k < |hs|
      ensures Fits(cfg, os[k], hs[k], answers[k], os[k + 1])
    {
      if k < |heard| {
        assert answers[k] == answers[..|sent|][k];
        assert Fits(cfg, opens[k], heard[k], sent[k], opens[k + 1]);
      }
    }
  }

  /** What `s` says, of which everything after `before` has been performed and `left` has not been read. */
  predicate Underway(codec: Codec, s: seq<byte>, before: seq<Heard>, heard: seq<Heard>, left: seq<byte>) {
    var more := Hear(codec, left);
    before <= heard && Hear(codec, s) == Script(heard[|before|..] + more.heard, more.ending)
  }

  lemma NothingYet(codec: Codec, s: seq<byte>, before: seq<Heard>)
    ensures Underway(codec, s, before, before, s)
  {
    assert before[|before|..] + Hear(codec, s).heard == Hear(codec, s).heard;
  }

  lemma OneMoreHeard(codec: Codec, s: seq<byte>, before: seq<Heard>, was: seq<Heard>, left: seq<byte>,
                     heard: seq<Heard>, rest: seq<byte>)
    requires Underway(codec, s, before, was, left)
    requires |heard| == |was| + 1 && heard[..|was|] == was
    requires Hear(codec, left) == Then(heard[|was|], Hear(codec, rest))
    ensures Underway(codec, s, before, heard, rest)
  {
    DoneGrows(before, was, heard);
    Onward(was[|before|..], heard[|was|], Hear(codec, rest).heard);
  }

  lemma DoneGrows(before: seq<Heard>, was: seq<Heard>, heard: seq<Heard>)
    requires before <= was && |heard| == |was| + 1 && heard[..|was|] == was
    ensures before <= heard && heard[|before|..] == was[|before|..] + [heard[|was|]]
  {
    assert forall k | 0 <= k < |was| :: heard[k] == heard[..|was|][k];
  }

  lemma Onward(done: seq<Heard>, h: Heard, more: seq<Heard>)
    ensures done + ([h] + more) == (done + [h]) + more
  {
  }

  lemma DrainedRest(s: seq<byte>, consumed: nat, n: nat)
    requires consumed <= n && consumed <= |s|
    ensures s[consumed..][Shorter(n - consumed, |s| - consumed)..] == s[Shorter(n, |s|)..]
  {
  }
}
