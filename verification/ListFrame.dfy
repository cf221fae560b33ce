/**
  A list answer and the 64 KiB control frame it has to fit in.

  JSON is modelled by how long it prints: what every value of a row costs, and
  what the frame around the rows costs.
*/
module ListFrame {
  import opened Wrappers
  import opened Tables
  import opened Identity
  import opened Wire
  import opened Preview
  import Session

  const ALLOWANCE := 128

  /**
    What a row prints besides its eleven values:
    `{"id":,"kind":,"mimes":,"bytes":,"preview":,"width":,"height":,"thumb":,"pinned":,"source":,"at":}`.
  */
  const ROW_NAMES := 98

  /**
    What the answer prints besides its request number, rows and flag:
    `{"ev":"list","req":,"items":,"more":}` and the newline.
  */
  const LIST_NAMES := 38

  const MAX_U64 := 0xffff_ffff_ffff_ffff
  const MAX_I64 := 0x7fff_ffff_ffff_ffff

  // --------------------------------------------------------------- lengths

  function Digits(n: nat): nat {
    if n < 10 then 1 else 1 + Digits(n / 10)
  }

  function IntLength(n: int): nat {
    if n < 0 then 1 + Digits(-n) else Digits(n)
  }

  /** One character inside a JSON string, in bytes: escapes first, then its UTF-8 form. */
  function CharLength(c: char): nat {
    if c == '"' || c == '\\' then 2
    else if c == '\n' || c == '\r' || c == '\t' || c == '\U{0008}' || c == '\U{000C}' then 2
    else if c < '\U{0020}' then 6
    else if c < '\U{0080}' then 1
    else if c < '\U{0800}' then 2
    else if c < '\U{10000}' then 3
    else 4
  }

  function TextLength(s: string): nat {
    if s == [] then 0 else TextLength(s[..|s| - 1]) + CharLength(s[|s| - 1])
  }

  /** A quoted string. */
  function StringLength(s: string): nat {
    2 + TextLength(s)
  }

  function StringsLength(ss: seq<string>): nat {
    if ss == [] then 0 else StringsLength(ss[..|ss| - 1]) + StringLength(ss[|ss| - 1])
  }

  /** An array: its brackets, its values, and a comma between neighbours. */
  function ArrayLength(values: nat, count: nat): nat {
    2 + values + if count == 0 then 0 else count - 1
  }

  function OrNull(value: Option<nat>): nat {
    if value.Some? then IntLength(value.value) else |"null"|
  }

  function StringOrNull(value: Option<string>): nat {
    if value.Some? then StringLength(value.value) else |"null"|
  }

  function BoolLength(b: bool): nat {
    if b then |"true"| else |"false"|
  }

  /** What a list row carries. */
  datatype Summary = Summary(
    id: int, kind: string, mimes: seq<string>, bytes: nat, preview: Option<string>,
    width: Option<nat>, height: Option<nat>, thumb: bool, pinned: bool, source: Option<string>, at: int)

  /** One row's JSON: every field's name and punctuation, and its value. */
  function RowLength(s: Summary): nat {
    ROW_NAMES
    + IntLength(s.id) + StringLength(s.kind) + ArrayLength(StringsLength(s.mimes), |s.mimes|)
    + IntLength(s.bytes) + StringOrNull(s.preview) + OrNull(s.width) + OrNull(s.height)
    + BoolLength(s.thumb) + BoolLength(s.pinned) + StringOrNull(s.source) + IntLength(s.at)
  }

  function Sum(lengths: seq<nat>): nat {
    if lengths == [] then 0 else Sum(lengths[..|lengths| - 1]) + lengths[|lengths| - 1]
  }

  /** The whole answer line, newline included. */
  function FrameLength(req: nat, lengths: seq<nat>, more: bool): nat {
    LIST_NAMES
    + IntLength(req) + ArrayLength(Sum(lengths), |lengths|) + BoolLength(more)
  }

  // -------------------------------------------------------------- trimming

  /** The bytes the session reckons for the first `n` rows. */
  function Reckoned(lengths: seq<nat>, n: nat): nat
    requires n <= |lengths|
  {
    ALLOWANCE + Sum(lengths[..n]) + n
  }

  /**
    How many rows stay: counts from the 128-byte allowance and stops at the
    first row that would pass the limit. The answer is the largest count whose
    reckoning fits.
  */
  method Fits(lengths: seq<nat>) returns (fits: nat)
    ensures fits <= |lengths| && Reckoned(lengths, fits) <= MAX_FRAME
    ensures fits < |lengths| ==> Reckoned(lengths, fits + 1) > MAX_FRAME
  {
    var bytes := ALLOWANCE;
    fits := 0;
    assert lengths[..0] == [];
    for i := 0 to |lengths|
      invariant fits == i && bytes == Reckoned(lengths, i) <= MAX_FRAME
    {
      assert lengths[..i + 1][..i] == lengths[..i];
      bytes := bytes + lengths[i] + 1;
      if bytes > MAX_FRAME {
        return;
      }
      fits := fits + 1;
    }
  }

  // ---------------------------------------------------------------- bounds

  function Power10(k: nat): nat {
    if k == 0 then 1 else 10 * Power10(k - 1)
  }

  lemma {:induction false} FewDigits(n: nat, k: nat)
    requires k > 0 && n < Power10(k)
    ensures Digits(n) <= k
    decreases k
  {
    if n >= 10 {
      assert k > 1;
      FewDigits(n / 10, k - 1);
    }
  }

  lemma WideIntegers(n: int)
    ensures 0 <= n <= MAX_U64 ==> IntLength(n) <= 20
    ensures -MAX_I64 - 1 <= n <= MAX_I64 ==> IntLength(n) <= 20
  {
    assert Power10(5) == 100000;
    assert Power10(10) == 10000000000;
    assert Power10(15) == 1000000000000000;
    assert Power10(19) == 10000000000000000000;
    if 0 <= n <= MAX_U64 {
      FewDigits(n, 20);
    }
    if -MAX_I64 - 1 <= n < 0 {
      FewDigits(-n, 19);
    }
  }

  /** The allowance covers the frame around the rows, so a trimmed answer is never refused on the way out. */
  lemma AllowanceCovers(req: nat, lengths: seq<nat>, fits: nat, more: bool)
    requires req <= MAX_U64 && fits <= |lengths| && Reckoned(lengths, fits) <= MAX_FRAME
    ensures FrameLength(req, lengths[..fits], more) <= MAX_FRAME
  {
    WideIntegers(req);
  }

  lemma {:induction false} AnyText(s: string)
    ensures TextLength(s) <= 6 * |s|
  {
    if s != [] {
      AnyText(s[..|s| - 1]);
    }
  }

  lemma {:induction false} PrintableText(s: string)
    requires forall i | 0 <= i < |s| :: Printable(s[i])
    ensures TextLength(s) <= 2 * |s|
  {
    if s != [] {
      PrintableText(s[..|s| - 1]);
    }
  }

  lemma MimeText(mime: string)
    requires ValidMime(mime)
    ensures StringLength(mime) <= 514
  {
    PrintableText(mime);
  }

  lemma {:induction false} MimesText(mimes: seq<string>)
    requires forall m <- mimes :: ValidMime(m)
    ensures StringsLength(mimes) <= 514 * |mimes|
  {
    if mimes != [] {
      MimesText(mimes[..|mimes| - 1]);
      MimeText(mimes[|mimes| - 1]);
    }
  }

  /** The numbers of a row, in the widths the daemon gives them. */
  predicate Wide(s: Summary) {
    && -MAX_I64 - 1 <= s.id <= MAX_I64 && -MAX_I64 - 1 <= s.at <= MAX_I64 && s.bytes <= MAX_I64
    && (s.width.Some? ==> s.width.value <= 0xffff_ffff) && (s.height.Some? ==> s.height.value <= 0xffff_ffff)
  }

  /** The texts of a row, as bounded sessions and the preview leave them: `ListedRows` proves that they do. */
  predicate Brief(s: Summary) {
    && |s.kind| <= 5
    && |s.mimes| <= Session.MAX_REPRESENTATIONS && (forall m <- s.mimes :: ValidMime(m))
    && (s.preview.Some? ==> |s.preview.value| <= PREVIEW_CHARS + 2)
    && (s.source.Some? ==> |s.source.value| <= Session.MAX_SOURCE)
  }

  /** A row as the daemon ever stores one: eight valid mimes, a preview cut at 162, a source cut at 128. */
  predicate Stored(s: Summary) {
    Wide(s) && Brief(s)
  }

  lemma NumbersAreShort(s: Summary)
    requires Stored(s)
    ensures IntLength(s.id) <= 20 && IntLength(s.at) <= 20 && IntLength(s.bytes) <= 20
    ensures OrNull(s.width) <= 20 && OrNull(s.height) <= 20
  {
    WideIntegers(s.id);
    WideIntegers(s.at);
    WideIntegers(s.bytes);
    WideIntegers(if s.width.Some? then s.width.value else 0);
    WideIntegers(if s.height.Some? then s.height.value else 0);
  }

  lemma TextsAreShort(s: Summary)
    requires Stored(s)
    ensures StringLength(s.kind) <= 32
    ensures ArrayLength(StringsLength(s.mimes), |s.mimes|) <= 4121
    ensures StringOrNull(s.preview) <= 974 && StringOrNull(s.source) <= 770
  {
    AnyText(s.kind);
    MimesText(s.mimes);
    AnyText(if s.preview.Some? then s.preview.value else "");
    AnyText(if s.source.Some? then s.source.value else "");
  }

  /** Whatever is in it, one stored row takes less than a tenth of a frame. */
  lemma RowIsSmall(s: Summary)
    requires Stored(s)
    ensures RowLength(s) <= 6400
  {
    NumbersAreShort(s);
    TextsAreShort(s);
  }

  function Lengths(rows: seq<Summary>): seq<nat> {
    seq(|rows|, i requires 0 <= i < |rows| => RowLength(rows[i]))
  }

  lemma {:induction false} SmallRows(lengths: seq<nat>)
    requires forall i | 0 <= i < |lengths| :: lengths[i] <= 6400
    ensures Sum(lengths) <= 6400 * |lengths|
  {
    if lengths != [] {
      SmallRows(lengths[..|lengths| - 1]);
    }
  }

  /** So every page makes progress: trimming keeps ten rows, or all of them. */
  lemma TrimmedPageHasRows(rows: seq<Summary>, fits: nat)
    requires forall s <- rows :: Stored(s)
    requires fits <= |rows|
    requires fits < |rows| ==> Reckoned(Lengths(rows), fits + 1) > MAX_FRAME
    ensures fits >= 10 || fits == |rows|
  {
    if fits < |rows| {
      var kept := Lengths(rows)[..fits + 1];
      forall i | 0 <= i < |kept|
        ensures kept[i] <= 6400
      {
        RowIsSmall(rows[i]);
      }
      SmallRows(kept);
    }
  }
}
