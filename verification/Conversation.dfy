/**
  What a whole conversation promises: bounds on what a session holds, one
  answer to each request, and drafts that hold exactly what was sent.
*/
module Conversation {
  import opened Wrappers
  import T = Tables
  import opened Identity
  import opened Wire
  import opened Blobs
  import opened Session

  /** A stream that is nothing but whole requests is performed as exactly those requests. */
  lemma WholeConversation(codec: Codec, hs: seq<Heard>)
    requires WellSpoken(codec, hs)
    ensures Hear(codec, EncodeAll(codec, hs)) == Script(hs, Closed)
  {
    RoundTrip(codec, hs, []);
    assert EncodeAll(codec, hs) + [] == EncodeAll(codec, hs);
    assert Hear(codec, []) == Script([], Closed);
    assert hs + [] == hs;
  }

  // --------------------------------------------------------------- bounds

  /** What one session can make the daemon hold. */
  ghost predicate Bounded(cfg: Settings, open: Open) {
    && |open.drafts| <= MAX_DRAFTS
    && (forall d <- open.drafts :: d < open.next && DraftOk(cfg, open.drafts[d]))
  }

  predicate DraftOk(cfg: Settings, d: Draft) {
    && |d.parts| <= MAX_REPRESENTATIONS
    && (d.source.Some? ==> |d.source.value| <= MAX_SOURCE)
    && forall p <- d.parts :: ValidMime(p.mime) && p.bytes <= T.Room(cfg.budget)
  }

  lemma StepStaysBounded(cfg: Settings, before: Open, h: Heard, a: Answer, after: Open)
    requires Bounded(cfg, before) && Fits(cfg, before, h, a, after)
    ensures Bounded(cfg, after) && before.next <= after.next
  {
    if h.Asked? && h.request.Begin? {
      BegunStaysBounded(cfg, before, h.request.source, after);
    } else if h.Asked? {
      ClosedStaysBounded(cfg, before, after);
    } else if h.Whole? || h.Chunked? {
      PartStaysBounded(cfg, before, h.draft, after);
    }
  }

  lemma BegunStaysBounded(cfg: Settings, before: Open, source: Option<string>, after: Open)
    requires Bounded(cfg, before)
    requires after == before || (|before.drafts| < MAX_DRAFTS
      && after == Open(before.drafts[before.next := Draft(Clipped(source), [])], before.next + 1))
    ensures Bounded(cfg, after) && before.next <= after.next
  {
    if after != before {
      assert after.drafts.Keys == before.drafts.Keys + {before.next};
    }
  }

  lemma ClosedStaysBounded(cfg: Settings, before: Open, after: Open)
    requires Bounded(cfg, before)
    requires after == before || exists d: nat :: after == before.(drafts := before.drafts - {d})
    ensures Bounded(cfg, after) && before.next <= after.next
  {
    if after != before {
      var d: nat :| after == before.(drafts := before.drafts - {d});
      FewerDrafts(before.drafts, d);
    }
  }

  lemma FewerDrafts(drafts: map<nat, Draft>, d: nat)
    ensures |drafts - {d}| <= |drafts|
  {
    if d in drafts {
      assert drafts.Keys == (drafts - {d}).Keys + {d};
    } else {
      assert drafts - {d} == drafts;
    }
  }

  lemma PartStaysBounded(cfg: Settings, before: Open, draft: nat, after: Open)
    requires Bounded(cfg, before)
    requires after == before || exists p: T.Part ::
      Known(before, draft) && ValidMime(p.mime) && p.bytes <= T.Room(cfg.budget) && after == WithPart(before, draft, p)
    ensures Bounded(cfg, after)
  {
    if after != before {
      assert after.drafts.Keys == before.drafts.Keys;
    }
  }

  /** However a peer behaves, a session never holds more than four drafts of eight parts within the budget. */
  lemma {:induction false} SessionStaysBounded(cfg: Settings, opens: seq<Open>, heard: seq<Heard>, answers: seq<Answer>)
    requires IsPlay(cfg, opens, heard, answers) && opens[0] == FRESH
    ensures forall k | 0 <= k < |opens| :: Bounded(cfg, opens[k])
    ensures forall i, j | 0 <= i <= j < |opens| :: opens[i].next <= opens[j].next
    decreases |heard|
  {
    if heard != [] {
      var n := |heard| - 1;
      PlayPrefix(cfg, opens, heard, answers, n);
      SessionStaysBounded(cfg, opens[..n + 1], heard[..n], answers[..n]);
      assert Bounded(cfg, opens[..n + 1][n]);
      StepStaysBounded(cfg, opens[n], heard[n], answers[n], opens[n + 1]);
      forall k | 0 <= k < |opens|
        ensures Bounded(cfg, opens[k])
      {
        assert k <= n ==> opens[k] == opens[..n + 1][k];
      }
      forall i, j | 0 <= i <= j < |opens|
        ensures opens[i].next <= opens[j].next
      {
        assert i <= n ==> opens[i] == opens[..n + 1][i];
        assert j <= n ==> opens[j] == opens[..n + 1][j];
        assert opens[n] == opens[..n + 1][n];
      }
    }
  }

  lemma PlayPrefix(cfg: Settings, opens: seq<Open>, heard: seq<Heard>, answers: seq<Answer>, n: nat)
    requires IsPlay(cfg, opens, heard, answers) && n <= |heard|
    ensures IsPlay(cfg, opens[..n + 1], heard[..n], answers[..n])
  {
    forall k | 0 <= k < n
      ensures Fits(cfg, opens[..n + 1][k], heard[..n][k], answers[..n][k], opens[..n + 1][k + 1])
    {
      assert Fits(cfg, opens[k], heard[k], answers[k], opens[k + 1]);
    }
  }

  /** A draft number is given out once: a client holding an old one can never reach a newer draft. */
  lemma DraftNumbersAreNew(cfg: Settings, opens: seq<Open>, heard: seq<Heard>, answers: seq<Answer>, i: nat, j: nat)
    requires IsPlay(cfg, opens, heard, answers) && opens[0] == FRESH && i < j < |heard|
    requires answers[i].verdict.Begun? && answers[j].verdict.Begun?
    ensures answers[i].verdict.draft < answers[j].verdict.draft
  {
    SessionStaysBounded(cfg, opens, heard, answers);
    assert Fits(cfg, opens[i], heard[i], answers[i], opens[i + 1]);
    assert Fits(cfg, opens[j], heard[j], answers[j], opens[j + 1]);
    assert opens[i + 1].next <= opens[j].next;
  }

  /** The request number an answer has to quote. */
  function Quoted(h: Heard): Option<nat> {
    match h
    case Asked(Hello(_)) => Some(0)
    case Asked(Chunk(_)) => None
    case Asked(request) => Some(request.req)
    case Whole(req, _, _, _, _) => Some(req)
    case Chunked(req, _, _, _) => Some(req)
    case Stray(_, _) => None
  }

  /** One answer per request, in the order of the requests, each quoting its own. */
  lemma AnswersAreInOrder(cfg: Settings, opens: seq<Open>, heard: seq<Heard>, answers: seq<Answer>)
    requires IsPlay(cfg, opens, heard, answers)
    ensures |answers| == |heard| && forall k | 0 <= k < |heard| :: answers[k].req == Quoted(heard[k])
  {
    forall k | 0 <= k < |heard|
      ensures answers[k].req == Quoted(heard[k])
    {
      assert Fits(cfg, opens[k], heard[k], answers[k], opens[k + 1]);
    }
  }

  // ------------------------------------------------------------- recording

  /** What one recorded part is, however it was sent. */
  function Content(h: Heard): seq<byte>
    requires h.Whole? || h.Chunked?
  {
    if h.Whole? then h.content else Concat(h.chunks)
  }

  predicate IsPartOf(h: Heard, draft: nat) {
    (h.Whole? || h.Chunked?) && h.draft == draft && Proper(h)
  }

  function Sealed(cfg: Settings, h: Heard): T.Part
    requires h.Whole? || h.Chunked?
  {
    T.Part(h.mime, cfg.sha(Content(h)), |Content(h)|)
  }

  function SealedAll(cfg: Settings, draft: nat, hs: seq<Heard>): seq<T.Part>
    requires forall h <- hs :: IsPartOf(h, draft)
  {
    seq(|hs|, i requires 0 <= i < |hs| => assert IsPartOf(hs[i], draft); Sealed(cfg, hs[i]))
  }

  /** A part that was acknowledged was appended to its draft, whole, and nothing else changed. */
  lemma AcknowledgedPart(cfg: Settings, before: Open, h: Heard, a: Answer, after: Open, draft: nat)
    requires Fits(cfg, before, h, a, after) && IsPartOf(h, draft)
    ensures a.verdict == Done <==> (draft in before.drafts && after == WithPart(before, draft, Sealed(cfg, h)))
    ensures a.verdict != Done ==> after == before
  {
    if a.verdict != Done && draft in before.drafts {
      var grown := WithPart(before, draft, Sealed(cfg, h)).drafts[draft].parts;
      assert |grown| == |before.drafts[draft].parts| + 1;
    }
  }

  /**
    On a sound disk a part is acknowledged exactly when its draft is open with
    room, its mime is valid and its size is within the budget.
  */
  lemma PartIsTaken(cfg: Settings, before: Open, h: Heard, a: Answer, after: Open, draft: nat)
    requires Fits(cfg, before, h, a, after) && IsPartOf(h, draft) && cfg.sound
    ensures a.verdict == Done <==>
      Known(before, draft) && ValidMime(h.mime) && |Content(h)| <= T.Room(cfg.budget)
  {
  }

  // ---------------------------------------------------- any conversation

  /** The request is a part sent to `draft`, and it was acknowledged. */
  predicate Acknowledged(h: Heard, a: Answer, draft: nat) {
    (h.Whole? || h.Chunked?) && h.draft == draft && a.verdict == Done
  }

  /** The parts of `draft` that were acknowledged, in the order they were sent. */
  function Gathered(cfg: Settings, heard: seq<Heard>, answers: seq<Answer>, draft: nat): seq<T.Part>
    requires |heard| == |answers|
  {
    if heard == [] then []
    else
      var n := |heard| - 1;
      var before := Gathered(cfg, heard[..n], answers[..n], draft);
      if Acknowledged(heard[n], answers[n], draft) then before + [Sealed(cfg, heard[n])] else before
  }

  /** One request: only an acknowledged part changes a draft that is open, and only its own. */
  lemma DraftAfter(cfg: Settings, before: Open, h: Heard, a: Answer, after: Open, draft: nat)
    requires Fits(cfg, before, h, a, after) && draft in after.drafts && draft in before.drafts
    requires draft < before.next
    ensures after.drafts[draft].parts
         == before.drafts[draft].parts + if Acknowledged(h, a, draft) then [Sealed(cfg, h)] else []
  {
    assert before.drafts[draft].parts + [] == before.drafts[draft].parts;
  }

  /** A draft that was not open before is the one just begun, and no part was ever sent to its number. */
  lemma DraftBegun(cfg: Settings, before: Open, h: Heard, a: Answer, after: Open, draft: nat)
    requires Fits(cfg, before, h, a, after) && draft in after.drafts && draft !in before.drafts
    ensures draft == before.next && after.drafts[draft].parts == [] && !Acknowledged(h, a, draft)
  {
  }

  lemma {:induction false} NoneGatheredYet(cfg: Settings, opens: seq<Open>, heard: seq<Heard>, answers: seq<Answer>,
                                           draft: nat)
    requires IsPlay(cfg, opens, heard, answers) && opens[0] == FRESH && draft >= opens[|heard|].next
    ensures Gathered(cfg, heard, answers, draft) == []
    decreases |heard|
  {
    if heard != [] {
      var n := |heard| - 1;
      PlayPrefix(cfg, opens, heard, answers, n);
      SessionStaysBounded(cfg, opens, heard, answers);
      assert opens[..n + 1][n] == opens[n] && opens[n].next <= opens[n + 1].next;
      NoneGatheredYet(cfg, opens[..n + 1], heard[..n], answers[..n], draft);
      assert Fits(cfg, opens[n], heard[n], answers[n], opens[n + 1]);
      assert Bounded(cfg, opens[n]);
    }
  }

  /**
    Whatever else happens on the connection — other drafts, refused parts,
    aborts, requests in between — an open draft holds exactly the parts that
    were acknowledged to it, whole, in order, and nothing else.
  */
  lemma {:induction false} DraftHoldsWhatWasAcknowledged(cfg: Settings, opens: seq<Open>, heard: seq<Heard>,
                                                         answers: seq<Answer>, draft: nat)
    requires IsPlay(cfg, opens, heard, answers) && opens[0] == FRESH
    requires draft in opens[|heard|].drafts
    ensures opens[|heard|].drafts[draft].parts == Gathered(cfg, heard, answers, draft)
    decreases |heard|
  {
    if heard != [] {
      var n := |heard| - 1;
      PlayPrefix(cfg, opens, heard, answers, n);
      SessionStaysBounded(cfg, opens, heard, answers);
      assert opens[..n + 1][n] == opens[n] && Bounded(cfg, opens[n]);
      assert Fits(cfg, opens[n], heard[n], answers[n], opens[n + 1]);
      if draft in opens[n].drafts {
        DraftHoldsWhatWasAcknowledged(cfg, opens[..n + 1], heard[..n], answers[..n], draft);
        DraftAfter(cfg, opens[n], heard[n], answers[n], opens[n + 1], draft);
      } else {
        DraftBegun(cfg, opens[n], heard[n], answers[n], opens[n + 1], draft);
        NoneGatheredYet(cfg, opens[..n + 1], heard[..n], answers[..n], draft);
      }
    }
  }

  /**
    A client that begins a draft, sends parts to it and sees each of them
    acknowledged: the draft then holds exactly those contents, in that order.
  */
  lemma {:induction false} DraftHoldsWhatWasSent(cfg: Settings, opens: seq<Open>, begin: Request, parts: seq<Heard>,
                                                 answers: seq<Answer>, draft: nat)
    requires begin.Begin? && IsPlay(cfg, opens, [Asked(begin)] + parts, answers)
    requires answers[0].verdict == Begun(draft)
    requires forall p <- parts :: IsPartOf(p, draft)
    requires forall a <- answers[1..] :: a.verdict == Done
    ensures draft in opens[|parts| + 1].drafts
    ensures opens[|parts| + 1].drafts[draft].parts == SealedAll(cfg, draft, parts)
    decreases |parts|
  {
    var heard := [Asked(begin)] + parts;
    if parts == [] {
      assert Fits(cfg, opens[0], heard[0], answers[0], opens[1]);
    } else {
      var n := |parts| - 1;
      assert Fits(cfg, opens[n + 1], heard[n + 1], answers[n + 1], opens[n + 2]);
      assert heard[..n + 1] == [Asked(begin)] + parts[..n];
      PlayPrefix(cfg, opens, heard, answers, n + 1);
      assert answers[..n + 1][1..] <= answers[1..] && answers[n + 1] == answers[1..][n];
      DraftHoldsWhatWasSent(cfg, opens[..n + 2], begin, parts[..n], answers[..n + 1], draft);
      AcknowledgedPart(cfg, opens[n + 1], parts[n], answers[n + 1], opens[n + 2], draft);
      assert SealedAll(cfg, draft, parts) == SealedAll(cfg, draft, parts[..n]) + [Sealed(cfg, parts[n])];
    }
  }
}
