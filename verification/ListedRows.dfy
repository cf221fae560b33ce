/**
  The rows a list can ever hold: whatever sessions record, the texts of every
  row stay within the bounds a list frame is reckoned with.
*/
module ListedRows {
  import opened Wrappers
  import opened Tables
  import opened TableLemmas
  import opened Ages
  import opened Identity
  import opened ListFrame
  import opened ArchiveSafety
  import opened Feed
  import Preview
  import Session
  import Conversation
  import Wire

  // ---------------------------------------------------------- what arrives

  /** What a commit may record: eight representations with valid mimes, and facts with a short preview and source. */
  predicate Offered(parts: seq<Part>, facts: Facts) {
    && |parts| <= Session.MAX_REPRESENTATIONS && (forall p <- parts :: ValidMime(p.mime))
    && (facts.preview.Some? ==> |facts.preview.value| <= Preview.PREVIEW_CHARS + 2)
    && (facts.source.Some? ==> |facts.source.value| <= Session.MAX_SOURCE)
  }

  /** The facts of a draft: its own source, and as preview the one line its text gives, if it has any text. */
  ghost predicate Describes(facts: Facts, d: Session.Draft) {
    && facts.source == d.source
    && (facts.preview.Some? ==>
          exists text: string :: facts.preview.value == Preview.Cut(Preview.Collapsed(Preview.IsSpace, text)))
  }

  /** Every draft a session can hold is fit to be recorded. */
  lemma DraftsAreOffered(cfg: Session.Settings, open: Session.Open, draft: nat, facts: Facts)
    requires Conversation.Bounded(cfg, open) && draft in open.drafts && Describes(facts, open.drafts[draft])
    ensures Offered(open.drafts[draft].parts, facts)
  {
    assert Conversation.DraftOk(cfg, open.drafts[draft]);
    if facts.preview.Some? {
      var text: string :| facts.preview.value == Preview.Cut(Preview.Collapsed(Preview.IsSpace, text));
      Preview.PreviewIsShort(Preview.Collapsed(Preview.IsSpace, text));
    }
  }

  // -------------------------------------------------------- what is stored

  ghost predicate AllBrief(held: map<int, Summary>) {
    forall id <- held :: Brief(held[id])
  }

  lemma UpsertStaysBrief(held: map<int, Summary>, id: int, s: Summary)
    requires AllBrief(held) && Brief(s)
    ensures AllBrief(held[id := s])
  {
  }

  lemma FewerStayBrief(held: map<int, Summary>, gone: set<int>)
    requires AllBrief(held)
    ensures AllBrief(held - gone)
  {
  }

  lemma OldRowIsBrief(db: Db, id: int)
    requires AllBrief(Replica(db)) && Find(db.entries, id).Some?
    ensures Brief(SummaryIn(db, id))
  {
    Listed(db.entries, db.parts, id);
  }

  lemma TouchStaysBrief(db: Db, identity: string, at: int)
    requires AllBrief(Replica(db))
    ensures AllBrief(Replica(Touched(db, identity, at)))
  {
    var found := FindIdentity(db.entries, identity);
    if found.Some? {
      ReplicaTouched(db, identity, at);
      FindWithAt(db.entries, found.value, at, found.value);
      OldRowIsBrief(db, found.value);
      UpsertStaysBrief(Replica(db), found.value, SummaryIn(Touched(db, identity, at), found.value));
    }
  }

  lemma PinStaysBrief(db: Db, id: int, on: bool)
    requires AllBrief(Replica(db))
    ensures AllBrief(Replica(Pinned(db, id, on)))
  {
    ReplicaPinned(db, id, on);
    if Find(db.entries, id).Some? {
      FindWithPinned(db.entries, id, on, id);
      OldRowIsBrief(db, id);
      UpsertStaysBrief(Replica(db), id, SummaryIn(Pinned(db, id, on), id));
    }
  }

  lemma MimesOfRows(id: int, parts: seq<Part>)
    requires forall p <- parts :: ValidMime(p.mime)
    ensures |Mimes(PartRows(id, parts))| == |parts| && forall m <- Mimes(PartRows(id, parts)) :: ValidMime(m)
  {
    assert forall i | 0 <= i < |parts| :: Mimes(PartRows(id, parts))[i] == parts[i].mime;
  }

  lemma InsertStaysBrief(db: Db, identity: string, parts: seq<Part>, facts: Facts, at: int)
    requires Valid(db) && AllBrief(Replica(db)) && Offered(parts, facts)
    ensures AllBrief(Replica(Inserted(db, identity, parts, facts, at)))
  {
    var id, after := NextId(db.entries), Inserted(db, identity, parts, facts, at);
    NextIdIsFresh(db);
    ReplicaInserted(db, identity, parts, facts, at);
    InsertedItself(db, id, PartRows(id, parts));
    MimesOfRows(id, parts);
    UpsertStaysBrief(Replica(db), id, SummaryIn(after, id));
  }

  lemma RemovalStaysBrief(db: Db, gone: set<int>)
    requires AllBrief(Replica(db))
    ensures AllBrief(Replica(Without(db, gone)))
  {
    ReplicaWithout(db, gone);
    FewerStayBrief(Replica(db), gone);
  }

  lemma RecordStaysBrief(budget: int, db: Db, identity: string, parts: seq<Part>, facts: Facts, at: int, after: Db,
                         sent: seq<Event>)
    requires Valid(db) && AllBrief(Replica(db)) && Records(budget, db, identity, parts, facts, at, after, sent)
    requires Offered(parts, facts)
    ensures AllBrief(Replica(after))
  {
    if FindIdentity(db.entries, identity).Some? {
      TouchStaysBrief(db, identity, at);
    } else if DistinctMimes(parts) {
      var mid, id := Inserted(db, identity, parts, facts, at), NextId(db.entries);
      var gone :| EvictsTo(mid, budget, gone) && after == Without(mid, ToSet(gone))
        && sent == Announced(SummaryIn(mid, id), gone);
      InsertStaysBrief(db, identity, parts, facts, at);
      RemovalStaysBrief(mid, ToSet(gone));
    }
  }

  lemma MutationStaysBrief(budget: int, db: Db, op: Mutation, after: Db, sent: seq<Event>)
    requires Valid(db) && AllBrief(Replica(db)) && Mutates(budget, db, op, after, sent)
    requires op.Record? ==> Offered(op.parts, op.facts)
    ensures AllBrief(Replica(after))
  {
    match op
    case Record(identity, parts, facts, at) => RecordStaysBrief(budget, db, identity, parts, facts, at, after, sent);
    case SetPin(id, on) => PinStaysBrief(db, id, on);
    case Drop(id) => RemovalStaysBrief(db, {id});
    case Empty => RemovalStaysBrief(db, EligibleIds(db.entries, None));
    case Retire(retention, now) =>
      var removed: seq<int> :| Retires(db, retention, now, removed)
        && after == Without(db, ToSet(removed)) && sent == Removals(removed);
      RemovalStaysBrief(db, ToSet(removed));
  }

  lemma {:induction false} HistoryStaysBrief(budget: int, dbs: seq<Db>, ops: seq<Mutation>,
                                           sent: seq<seq<Event>>, k: nat)
    requires IsHistory(budget, dbs, ops, sent) && k <= |ops| && dbs[0] == EMPTY
    requires forall op <- ops | op.Record? :: Offered(op.parts, op.facts)
    ensures AllBrief(Replica(dbs[k]))
  {
    if k > 0 {
      HistoryStaysBrief(budget, dbs, ops, sent, k - 1);
      HistoryFolds(budget, dbs, ops, sent, k - 1);
      StepOfHistory(budget, dbs, ops, sent, k - 1);
      MutationStaysBrief(budget, dbs[k - 1], ops[k - 1], dbs[k], sent[k - 1]);
    }
  }

  /**
    In an archive that started empty and recorded only drafts of bounded
    sessions, every page trimmed to a frame keeps ten rows or all of them.
  */
  lemma EveryPageMakesProgress(budget: int, dbs: seq<Db>, ops: seq<Mutation>, sent: seq<seq<Event>>, k: nat,
                               rows: seq<Summary>, fits: nat)
    requires IsHistory(budget, dbs, ops, sent) && k <= |ops| && dbs[0] == EMPTY
    requires forall op <- ops | op.Record? :: Offered(op.parts, op.facts)
    requires forall s <- rows :: s.id in Replica(dbs[k]) && Replica(dbs[k])[s.id] == s && Wide(s)
    requires fits <= |rows|
    requires fits < |rows| ==> Reckoned(Lengths(rows), fits + 1) > Wire.MAX_FRAME
    ensures forall s <- rows :: Stored(s)
    ensures fits >= 10 || fits == |rows|
  {
    HistoryStaysBrief(budget, dbs, ops, sent, k);
    TrimmedPageHasRows(rows, fits);
  }
}
