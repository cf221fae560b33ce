/**
  An entry's identity: the text hashed over its sorted `(mime, digest)` pairs.

  The outer SHA-256 is not modelled; what is proved is about the bytes it is
  given. They do not depend on the order representations arrived in, and no
  two different collections of representations produce the same ones.
*/
module Identity {
  import opened Wrappers
  import opened Tables

  const SEPARATOR := '\0'
  const TERMINATOR := '\n'

  predicate Printable(c: char) {
    32 <= c as int <= 126
  }

  /** What `validate_mime` lets into a draft. */
  predicate ValidMime(mime: string) {
    0 < |mime| <= 256 && forall c <- mime :: Printable(c)
  }

  predicate HexDigit(c: char) {
    '0' <= c <= '9' || 'a' <= c <= 'f'
  }

  predicate IsDigest(d: string) {
    |d| == 64 && forall c <- d :: HexDigit(c)
  }

  /** Every representation a draft can hold once its mime was validated and its content hashed. */
  ghost predicate WellFormed(parts: seq<Part>) {
    forall p <- parts :: ValidMime(p.mime) && IsDigest(p.digest)
  }

  // ---------------------------------------------------------- the encoding

  function Pair(p: Part): string {
    p.mime + [SEPARATOR] + p.digest
  }

  function Pairs(parts: seq<Part>): seq<string> {
    if parts == [] then [] else Pairs(parts[..|parts| - 1]) + [Pair(parts[|parts| - 1])]
  }

  function Joined(pairs: seq<string>): string {
    if pairs == [] then "" else Joined(pairs[..|pairs| - 1]) + pairs[|pairs| - 1] + [TERMINATOR]
  }

  /** The bytes the identity hash is taken over. */
  function Encoded(parts: seq<Part>): string {
    Joined(Sort(Pairs(parts)))
  }

  /** The representations themselves, without sizes, order or source. */
  ghost function Representations(parts: seq<Part>): multiset<(string, string)> {
    if parts == [] then multiset{}
    else
      var last := parts[|parts| - 1];
      Representations(parts[..|parts| - 1]) + multiset{(last.mime, last.digest)}
  }

  /** The identity as the store computes it: format, sort, then feed pair after pair. */
  method Compute(parts: seq<Part>) returns (text: string)
    ensures text == Encoded(parts)
  {
    var pairs: seq<string> := [];
    for i := 0 to |parts|
      invariant pairs == Pairs(parts[..i])
    {
      assert parts[..i + 1][..i] == parts[..i];
      pairs := pairs + [parts[i].mime + [SEPARATOR] + parts[i].digest];
    }
    assert parts[..|parts|] == parts;
    pairs := Sort(pairs);
    text := "";
    for i := 0 to |pairs|
      invariant text == Joined(pairs[..i])
    {
      assert pairs[..i + 1][..i] == pairs[..i];
      text := text + pairs[i] + [TERMINATOR];
    }
    assert pairs[..|pairs|] == pairs;
  }

  // ------------------------------------------------------------- sorting

  predicate Leq(a: string, b: string) {
    a == "" || (b != "" && (a[0] < b[0] || (a[0] == b[0] && Leq(a[1..], b[1..]))))
  }

  ghost predicate Sorted(xs: seq<string>) {
    forall i, j | 0 <= i <= j < |xs| :: Leq(xs[i], xs[j])
  }

  function Insert(x: string, xs: seq<string>): (r: seq<string>)
    ensures multiset(r) == multiset(xs) + multiset{x}
  {
    if xs == [] || Leq(x, xs[0]) then [x] + xs
    else
      assert xs == [xs[0]] + xs[1..];
      [xs[0]] + Insert(x, xs[1..])
  }

  function Sort(xs: seq<string>): (r: seq<string>)
    ensures multiset(r) == multiset(xs)
  {
    if xs == [] then []
    else
      assert xs == [xs[0]] + xs[1..];
      Insert(xs[0], Sort(xs[1..]))
  }

  lemma {:induction false} LeqTotal(a: string, b: string)
    ensures Leq(a, b) || Leq(b, a)
    ensures Leq(a, b) && Leq(b, a) ==> a == b
  {
    if a != "" && b != "" && a[0] == b[0] {
      LeqTotal(a[1..], b[1..]);
      assert a == [a[0]] + a[1..] && b == [b[0]] + b[1..];
    }
  }

  lemma {:induction false} LeqTransitive(a: string, b: string, c: string)
    requires Leq(a, b) && Leq(b, c)
    ensures Leq(a, c)
  {
    if a != "" && a[0] == b[0] == c[0] {
      LeqTransitive(a[1..], b[1..], c[1..]);
    }
  }

  lemma {:induction false} InsertSorted(x: string, xs: seq<string>)
    requires Sorted(xs)
    ensures Sorted(Insert(x, xs))
  {
    if xs == [] {
      LeqTotal(x, x);
    } else if Leq(x, xs[0]) {
      LeqTotal(x, x);
      forall i | 0 <= i < |xs|
        ensures Leq(x, xs[i])
      {
        LeqTransitive(x, xs[0], xs[i]);
      }
    } else {
      LeqTotal(x, xs[0]);
      LeqTotal(xs[0], xs[0]);
      InsertSorted(x, xs[1..]);
      var rest := Insert(x, xs[1..]);
      forall y <- rest
        ensures Leq(xs[0], y)
      {
        assert y in multiset(rest);
        if y != x {
          assert y in multiset(xs[1..]);
        }
      }
    }
  }

  lemma {:induction false} SortSorts(xs: seq<string>)
    ensures Sorted(Sort(xs))
  {
    if xs != [] {
      SortSorts(xs[1..]);
      InsertSorted(xs[0], Sort(xs[1..]));
    }
  }

  lemma SortedHead(a: seq<string>, b: seq<string>)
    requires Sorted(a) && Sorted(b) && multiset(a) == multiset(b) && a != [] && b != []
    ensures a[0] == b[0]
  {
    assert a[0] in multiset(b) && b[0] in multiset(a);
    var i :| 0 <= i < |b| && b[i] == a[0];
    var j :| 0 <= j < |a| && a[j] == b[0];
    assert Leq(a[0], a[j]) && Leq(b[0], b[i]);
    LeqTotal(a[0], b[0]);
  }

  lemma TailMultiset(a: seq<string>)
    requires a != []
    ensures multiset(a[1..]) == multiset(a) - multiset{a[0]}
  {
    assert a == [a[0]] + a[1..];
  }

  /** A sorted sequence is determined by its elements. */
  lemma {:induction false} SortedUnique(a: seq<string>, b: seq<string>)
    requires Sorted(a) && Sorted(b) && multiset(a) == multiset(b)
    ensures a == b
    decreases |a|
  {
    assert |a| == |multiset(a)| == |multiset(b)| == |b|;
    if a != [] {
      SortedHead(a, b);
      TailMultiset(a);
      TailMultiset(b);
      SortedUnique(a[1..], b[1..]);
      assert a == [a[0]] + a[1..] && b == [b[0]] + b[1..];
    }
  }

  // --------------------------------------------------------- injectivity

  ghost predicate Lacks(s: string, c: char) {
    forall i | 0 <= i < |s| :: s[i] != c
  }

  /** A string ends at the first separator, so what follows it cannot be mistaken for part of it. */
  lemma {:induction false} SplitAtFirst(a: string, b: string, x: string, y: string, c: char)
    requires Lacks(a, c) && Lacks(b, c)
    requires a + [c] + x == b + [c] + y
    ensures a == b && x == y
  {
    var s, t := a + [c] + x, b + [c] + y;
    assert s[0] == t[0];
    if a == "" || b == "" {
      assert s[|a| + 1..] == x && t[|b| + 1..] == y;
    } else {
      assert a[1..] + [c] + x == s[1..] == t[1..] == b[1..] + [c] + y;
      SplitAtFirst(a[1..], b[1..], x, y, c);
      assert a == [a[0]] + a[1..] && b == [b[0]] + b[1..];
    }
  }

  /** The text of the pairs in reading order, first pair first. */
  lemma {:induction false} JoinedFirst(pairs: seq<string>)
    requires pairs != []
    ensures Joined(pairs) == pairs[0] + [TERMINATOR] + Joined(pairs[1..])
  {
    if |pairs| == 1 {
      assert Joined(pairs[..0]) == "";
    } else {
      var front, last := pairs[..|pairs| - 1], pairs[|pairs| - 1] + [TERMINATOR];
      JoinedFirst(front);
      var rest := pairs[1..];
      assert rest[..|rest| - 1] == front[1..] && rest[|rest| - 1] == pairs[|pairs| - 1];
      assert Joined(rest) == Joined(front[1..]) + last;
      assert Joined(pairs) == Joined(front) + last;
      Regroup(pairs[0] + [TERMINATOR], Joined(front[1..]), last);
    }
  }

  lemma {:induction false} JoinedInjective(a: seq<string>, b: seq<string>)
    requires forall s <- a :: Lacks(s, TERMINATOR)
    requires forall s <- b :: Lacks(s, TERMINATOR)
    requires Joined(a) == Joined(b)
    ensures a == b
    decreases |a|
  {
    if a == [] {
      if b != [] {
        JoinedFirst(b);
      }
    } else {
      JoinedFirst(a);
      if b != [] {
        JoinedFirst(b);
        SplitAtFirst(a[0], b[0], Joined(a[1..]), Joined(b[1..]), TERMINATOR);
        JoinedInjective(a[1..], b[1..]);
        assert a == [a[0]] + a[1..] && b == [b[0]] + b[1..];
      }
    }
  }

  lemma PairClean(p: Part)
    requires ValidMime(p.mime) && IsDigest(p.digest)
    ensures Lacks(p.mime, SEPARATOR) && Lacks(Pair(p), TERMINATOR)
  {
    forall i | 0 <= i < |p.mime|
      ensures p.mime[i] != SEPARATOR && p.mime[i] != TERMINATOR
    {
      assert Printable(p.mime[i]);
    }
    forall i | 0 <= i < |p.digest|
      ensures p.digest[i] != TERMINATOR
    {
      assert HexDigit(p.digest[i]);
    }
  }

  lemma {:induction false} PairsClean(parts: seq<Part>)
    requires WellFormed(parts)
    ensures forall s <- Pairs(parts) :: Lacks(s, TERMINATOR)
  {
    if parts != [] {
      PairsClean(parts[..|parts| - 1]);
      PairClean(parts[|parts| - 1]);
    }
  }

  /** Equal pair texts come from equal representations, multiplicities included. */
  lemma PairsDetermine(a: seq<Part>, b: seq<Part>)
    requires WellFormed(a) && WellFormed(b)
    requires multiset(Pairs(a)) == multiset(Pairs(b))
    ensures Representations(a) == Representations(b)
  {
    RepresentationsWellFormed(a);
    RepresentationsWellFormed(b);
    forall r: (string, string)
      ensures Representations(a)[r] == Representations(b)[r]
    {
      if r in Representations(a) || r in Representations(b) {
        SameCount(a, r.0, r.1);
        SameCount(b, r.0, r.1);
      }
    }
  }

  lemma PairsDetermined(a: seq<Part>, b: seq<Part>)
    requires WellFormed(a) && WellFormed(b)
    requires Representations(a) == Representations(b)
    ensures multiset(Pairs(a)) == multiset(Pairs(b))
  {
    forall s: string
      ensures multiset(Pairs(a))[s] == multiset(Pairs(b))[s]
    {
      if s in Pairs(a) || s in Pairs(b) {
        var p := SomePart(if s in Pairs(a) then a else b, s);
        SameCount(a, p.mime, p.digest);
        SameCount(b, p.mime, p.digest);
      }
    }
  }

  lemma {:induction false} SameCount(parts: seq<Part>, mime: string, digest: string)
    requires WellFormed(parts) && ValidMime(mime) && IsDigest(digest)
    ensures multiset(Pairs(parts))[mime + [SEPARATOR] + digest] == Representations(parts)[(mime, digest)]
  {
    if parts != [] {
      var last := parts[|parts| - 1];
      SameCount(parts[..|parts| - 1], mime, digest);
      if Pair(last) == mime + [SEPARATOR] + digest {
        PairClean(last);
        PairClean(Part(mime, digest, 0));
        SplitAtFirst(last.mime, mime, last.digest, digest, SEPARATOR);
      }
    }
  }

  lemma {:induction false} RepresentationsWellFormed(parts: seq<Part>)
    requires WellFormed(parts)
    ensures forall r <- Representations(parts) :: ValidMime(r.0) && IsDigest(r.1)
  {
    if parts != [] {
      RepresentationsWellFormed(parts[..|parts| - 1]);
    }
  }

  lemma {:induction false} SomePart(parts: seq<Part>, s: string) returns (p: Part)
    requires s in Pairs(parts)
    ensures p in parts && Pair(p) == s
  {
    if s in Pairs(parts[..|parts| - 1]) {
      p := SomePart(parts[..|parts| - 1], s);
    } else {
      p := parts[|parts| - 1];
    }
  }

  /**
    Two drafts are hashed over the same bytes exactly when they offer the same
    representations with the same content, in whatever order and however often
    each was sent.
  */
  lemma EncodedIdentifies(a: seq<Part>, b: seq<Part>)
    requires WellFormed(a) && WellFormed(b)
    ensures Encoded(a) == Encoded(b) <==> Representations(a) == Representations(b)
  {
    SortSorts(Pairs(a));
    SortSorts(Pairs(b));
    if Representations(a) == Representations(b) {
      PairsDetermined(a, b);
      SortedUnique(Sort(Pairs(a)), Sort(Pairs(b)));
    }
    if Encoded(a) == Encoded(b) {
      SortedClean(a);
      SortedClean(b);
      JoinedInjective(Sort(Pairs(a)), Sort(Pairs(b)));
      assert multiset(Pairs(a)) == multiset(Sort(Pairs(a))) == multiset(Pairs(b));
      PairsDetermine(a, b);
    }
  }

  lemma SortedClean(parts: seq<Part>)
    requires WellFormed(parts)
    ensures forall s <- Sort(Pairs(parts)) :: Lacks(s, TERMINATOR)
  {
    PairsClean(parts);
    forall s <- Sort(Pairs(parts))
      ensures Lacks(s, TERMINATOR)
    {
      assert s in multiset(Sort(Pairs(parts)));
      assert s in multiset(Pairs(parts));
    }
  }
}
