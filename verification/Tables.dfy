/**
  The four tables of the archive's index as values: `entry`, `part`, `blob`
  and the full-text `entry_fts`.

  Row tables are sequences in rowid order, so an `INSERT` appends and a
  `DELETE` filters; `blob` is keyed by digest and `entry_fts` by rowid.
  `Without` is the one meaning every deletion is measured against: whatever
  order a statement walks its rows in, what is left is the tables recomputed
  from the surviving rows.
*/
module Tables {
  import opened Wrappers

  datatype Kind = Text | Link | Color | Image | Files

  /** A representation about to be recorded. */
  datatype Part = Part(mime: string, digest: string, bytes: nat)

  /** Everything an entry needs beyond its parts. */
  datatype Facts = Facts(
    kind: Kind,
    preview: Option<string>,
    width: Option<nat>,
    height: Option<nat>,
    thumb: Option<Part>,
    source: Option<string>,
    body: Option<string>)

  datatype EntryRow = EntryRow(
    id: int,
    identity: string,
    kind: Kind,
    bytes: nat,
    preview: Option<string>,
    width: Option<nat>,
    height: Option<nat>,
    thumb: Option<string>,
    pinned: bool,
    source: Option<string>,
    at: int)

  datatype PartRow = PartRow(entry: int, mime: string, digest: string, bytes: nat)

  datatype BlobRow = BlobRow(bytes: nat, refs: int)

  datatype Db = Db(
    entries: seq<EntryRow>,
    parts: seq<PartRow>,
    blobs: map<string, BlobRow>,
    bodies: map<int, string>)

  const EMPTY := Db([], [], map[], map[])

  // ---------------------------------------------------------------- rows

  ghost function Ids(es: seq<EntryRow>): set<int> {
    set e <- es :: e.id
  }

  ghost predicate Increasing(es: seq<EntryRow>) {
    forall i, j :: 0 <= i < j < |es| ==> es[i].id < es[j].id
  }

  /** `DELETE FROM entry WHERE id IN gone`. */
  function DropEntries(es: seq<EntryRow>, gone: set<int>): (r: seq<EntryRow>)
    ensures forall e :: e in r <==> e in es && e.id !in gone
  {
    if es == [] then []
    else
      var rest := DropEntries(es[..|es| - 1], gone);
      if es[|es| - 1].id in gone then rest else rest + [es[|es| - 1]]
  }

  /** The cascade of the same statement into `part`. */
  function DropParts(ps: seq<PartRow>, gone: set<int>): (r: seq<PartRow>)
    ensures forall p :: p in r <==> p in ps && p.entry !in gone
  {
    if ps == [] then []
    else
      var rest := DropParts(ps[..|ps| - 1], gone);
      if ps[|ps| - 1].entry in gone then rest else rest + [ps[|ps| - 1]]
  }

  /** `SELECT * FROM part WHERE entry = id`. */
  function PartsOf(ps: seq<PartRow>, id: int): seq<PartRow> {
    if ps == [] then []
    else
      var rest := PartsOf(ps[..|ps| - 1], id);
      if ps[|ps| - 1].entry == id then rest + [ps[|ps| - 1]] else rest
  }

  function TotalBytes(ps: seq<PartRow>): nat {
    if ps == [] then 0 else TotalBytes(ps[..|ps| - 1]) + ps[|ps| - 1].bytes
  }

  // ---------------------------------------------------------- references

  function CountParts(ps: seq<PartRow>, d: string): nat {
    if ps == [] then 0
    else CountParts(ps[..|ps| - 1], d) + if ps[|ps| - 1].digest == d then 1 else 0
  }

  function CountThumbs(es: seq<EntryRow>, d: string): nat {
    if es == [] then 0
    else CountThumbs(es[..|es| - 1], d) + if es[|es| - 1].thumb == Some(d) then 1 else 0
  }

  function CountIn(ds: seq<string>, d: string): nat {
    if ds == [] then 0
    else CountIn(ds[..|ds| - 1], d) + if ds[|ds| - 1] == d then 1 else 0
  }

  /** How many rows name `d`, counted with multiplicity. */
  function Refs(es: seq<EntryRow>, ps: seq<PartRow>, d: string): nat {
    CountParts(ps, d) + CountThumbs(es, d)
  }

  /** `blob` says exactly how often each digest is named, and lists no other. */
  ghost predicate RefsExact(blobs: map<string, BlobRow>, es: seq<EntryRow>, ps: seq<PartRow>) {
    forall d: string :: (d in blobs <==> Refs(es, ps, d) > 0)
                     && (d in blobs ==> blobs[d].refs == Refs(es, ps, d))
  }

  /** The digests one entry names, a thumbnail last, in the order they are released. */
  function DigestsOf(db: Db, id: int): seq<string> {
    Digests(PartsOf(db.parts, id)) +
    match Find(db.entries, id) {
      case Some(e) => if e.thumb.Some? then [e.thumb.value] else []
      case None => []
    }
  }

  function Digests(ps: seq<PartRow>): seq<string> {
    seq(|ps|, i requires 0 <= i < |ps| => ps[i].digest)
  }

  function Find(es: seq<EntryRow>, id: int): (r: Option<EntryRow>)
    ensures r.Some? ==> r.value in es && r.value.id == id
    ensures r.None? ==> forall e <- es :: e.id != id
  {
    if es == [] then None
    else if es[|es| - 1].id == id then Some(es[|es| - 1])
    else Find(es[..|es| - 1], id)
  }

  function FindIdentity(es: seq<EntryRow>, identity: string): (r: Option<int>)
    ensures r.Some? ==> exists e <- es :: e.id == r.value && e.identity == identity
    ensures r.None? ==> forall e <- es :: e.identity != identity
  {
    if es == [] then None
    else if es[|es| - 1].identity == identity then Some(es[|es| - 1].id)
    else FindIdentity(es[..|es| - 1], identity)
  }

  // --------------------------------------------------------------- bytes

  /** `SELECT SUM(bytes) FROM blob`. */
  ghost function SumBytes(blobs: map<string, BlobRow>): nat {
    if blobs == map[] then 0
    else
      var d :| d in blobs;
      blobs[d].bytes + SumBytes(blobs - {d})
  }

  ghost function Used(db: Db): nat {
    SumBytes(db.blobs)
  }

  // ---------------------------------------------------------- invariant

  /**
    What every operation on the index keeps.

    Identities are unique, an entry's size is the sum of its parts, every part
    and every indexed body belongs to a live entry, one entry never holds a
    mime twice, and reference counts are exact.
  */
  ghost predicate Valid(db: Db) {
    && Increasing(db.entries)
    && PositiveIds(db.entries)
    && UniqueIdentities(db.entries)
    && OwnedRows(db)
    && DistinctRows(db.parts)
    && SizesAgree(db.entries, db.parts)
    && RefsExact(db.blobs, db.entries, db.parts)
  }

  ghost predicate PositiveIds(es: seq<EntryRow>) {
    forall e <- es :: e.id > 0
  }

  ghost predicate UniqueIdentities(es: seq<EntryRow>) {
    forall i, j | 0 <= i < j < |es| :: es[i].identity != es[j].identity
  }

  ghost predicate OwnedRows(db: Db) {
    && (forall p <- db.parts :: p.entry in Ids(db.entries))
    && db.bodies.Keys <= Ids(db.entries)
  }

  ghost predicate DistinctRows(ps: seq<PartRow>) {
    forall i, j | 0 <= i < j < |ps| && ps[i].entry == ps[j].entry :: ps[i].mime != ps[j].mime
  }

  ghost predicate SizesAgree(es: seq<EntryRow>, ps: seq<PartRow>) {
    forall e <- es :: e.bytes == TotalBytes(PartsOf(ps, e.id))
  }

  // ---------------------------------------------------------- operations

  /** The tables with the entries `gone`, and everything only they named, deleted. */
  ghost function Without(db: Db, gone: set<int>): Db {
    var es := DropEntries(db.entries, gone);
    var ps := DropParts(db.parts, gone);
    Db(es, ps,
       map d | d in db.blobs && Refs(es, ps, d) > 0 :: BlobRow(db.blobs[d].bytes, Refs(es, ps, d)),
       map id | id in db.bodies && id !in gone :: db.bodies[id])
  }

  function WithAt(es: seq<EntryRow>, id: int, at: int): (r: seq<EntryRow>)
    ensures |r| == |es|
  {
    seq(|es|, i requires 0 <= i < |es| => if es[i].id == id then es[i].(at := at) else es[i])
  }

  function WithPinned(es: seq<EntryRow>, id: int, pinned: bool): (r: seq<EntryRow>)
    ensures |r| == |es|
  {
    seq(|es|, i requires 0 <= i < |es| => if es[i].id == id then es[i].(pinned := pinned) else es[i])
  }

  /** `UPDATE entry SET at` for the entry with this identity, when there is one. */
  function Touched(db: Db, identity: string, at: int): Db {
    match FindIdentity(db.entries, identity)
    case Some(id) => db.(entries := WithAt(db.entries, id, at))
    case None => db
  }

  function Pinned(db: Db, id: int, pinned: bool): Db {
    db.(entries := WithPinned(db.entries, id, pinned))
  }

  /** The rowid SQLite assigns without AUTOINCREMENT: one above the largest in use. */
  function NextId(es: seq<EntryRow>): int {
    if es == [] then 1 else es[|es| - 1].id + 1
  }

  predicate DistinctMimes(parts: seq<Part>) {
    forall i, j | 0 <= i < j < |parts| :: parts[i].mime != parts[j].mime
  }

  function RowOf(id: int, identity: string, parts: seq<Part>, facts: Facts, at: int): EntryRow {
    EntryRow(id, identity, facts.kind, TotalOf(parts), facts.preview, facts.width, facts.height,
             if facts.thumb.Some? then Some(facts.thumb.value.digest) else None,
             false, facts.source, at)
  }

  function TotalOf(parts: seq<Part>): nat {
    if parts == [] then 0 else TotalOf(parts[..|parts| - 1]) + parts[|parts| - 1].bytes
  }

  /** The bytes a budget leaves room for. */
  function Room(budget: int): nat {
    if budget < 0 then 0 else budget
  }

  function PartRows(id: int, parts: seq<Part>): (r: seq<PartRow>)
    ensures |r| == |parts|
  {
    seq(|parts|, i requires 0 <= i < |parts| =>
      PartRow(id, parts[i].mime, parts[i].digest, parts[i].bytes))
  }

  /** One `INSERT ... ON CONFLICT(digest) DO UPDATE SET refs = refs + 1`. */
  function Reference(blobs: map<string, BlobRow>, d: string, bytes: nat): map<string, BlobRow> {
    blobs[d := if d in blobs then BlobRow(blobs[d].bytes, blobs[d].refs + 1) else BlobRow(bytes, 1)]
  }

  function ReferenceAll(blobs: map<string, BlobRow>, parts: seq<Part>): map<string, BlobRow> {
    if parts == [] then blobs
    else
      var last := parts[|parts| - 1];
      Reference(ReferenceAll(blobs, parts[..|parts| - 1]), last.digest, last.bytes)
  }

  function ThumbParts(facts: Facts): seq<Part> {
    if facts.thumb.Some? then [facts.thumb.value] else []
  }

  /** The tables after a new entry's transaction commits. */
  function Inserted(db: Db, identity: string, parts: seq<Part>, facts: Facts, at: int): Db {
    var id := NextId(db.entries);
    Db(db.entries + [RowOf(id, identity, parts, facts, at)],
       db.parts + PartRows(id, parts),
       ReferenceAll(db.blobs, parts + ThumbParts(facts)),
       if facts.body.Some? then db.bodies[id := facts.body.value] else db.bodies)
  }
}
