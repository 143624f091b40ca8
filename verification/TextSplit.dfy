/**
 `String.prototype.split` with a regular expression, for any pattern, and the loop of a reader that
 gets a text in pieces: it appends each piece to what it kept, splits, and keeps the last element.
 */
module TextSplit {

  /** `m(s, i)` is the length of the match that starts at position `i` of `s`, 0 if there is none. */
  type Matcher = (string, nat) -> nat

  /**
   A match lies inside the text, and once a match at `j` fits into `a`, more text after `a` changes
   nothing up to `j`.
   */
  ghost predicate Lawful(m: Matcher)
  {
    && (forall s: string, i: nat :: m(s, i) > 0 ==> i + m(s, i) <= |s|)
    && (forall a: string, b: string, k: nat, j: nat {:trigger m(a + b, k), m(a, j)} ::
          k <= j && m(a, j) > 0 ==> m(a + b, k) == m(a, k))
  }

  /** The leftmost position at or after `i` where a match starts, or |s|. */
  function Find(m: Matcher, s: string, i: nat): (j: nat)
    requires i <= |s|
    ensures i <= j <= |s|
    decreases |s| - i
  {
    if i == |s| || m(s, i) > 0 then i else Find(m, s, i + 1)
  }

  lemma {:induction false} FindIs(m: Matcher, s: string, i: nat, j: nat)
    requires i <= j <= |s|
    requires forall k :: i <= k < j ==> m(s, k) == 0
    requires j == |s| || m(s, j) > 0
    ensures Find(m, s, i) == j
    decreases j - i
  {
    if i < j { FindIs(m, s, i + 1, j); }
  }

  lemma {:induction false} FindLeast(m: Matcher, s: string, i: nat)
    requires i <= |s|
    ensures forall k :: i <= k < Find(m, s, i) ==> m(s, k) == 0
    ensures Find(m, s, i) < |s| ==> m(s, Find(m, s, i)) > 0
    decreases |s| - i
  {
    if i < |s| && m(s, i) == 0 { FindLeast(m, s, i + 1); }
  }

  /** The elements of a split but the last, and the last. */
  datatype Pieces = Pieces(parts: seq<string>, rest: string)

  function Split(m: Matcher, s: string): Pieces
    decreases |s|
  {
    var j := Find(m, s, 0);
    var n := m(s, j);
    if n == 0 || j + n > |s| then Pieces([], s)
    else
      var tail := Split(m, s[j + n..]);
      Pieces([s[..j]] + tail.parts, tail.rest)
  }

  /** The first piece of a split, when there is one. */
  lemma SplitHead(m: Matcher, s: string, j: nat, n: nat, tail: string)
    requires j == Find(m, s, 0) && n == m(s, j) > 0 && j + n <= |s| && tail == s[j + n..]
    ensures Split(m, s).parts == [s[..j]] + Split(m, tail).parts
    ensures Split(m, s).rest == Split(m, tail).rest
  {
  }

  /** A match that fits into `a` is the leftmost one of `a + b` too. */
  lemma FindStable(m: Matcher, a: string, b: string)
    requires Lawful(m) && Find(m, a, 0) < |a|
    ensures Find(m, a + b, 0) == Find(m, a, 0)
    ensures m(a + b, Find(m, a, 0)) == m(a, Find(m, a, 0)) > 0
  {
    FindLeast(m, a, 0);
    FindIs(m, a + b, 0, Find(m, a, 0));
  }

  /** The reader after one more chunk: the pieces completed so far, and the text it keeps. */
  function Feed(m: Matcher, before: Pieces, chunk: string): Pieces
  {
    var cut := Split(m, before.rest + chunk);
    Pieces(before.parts + cut.parts, cut.rest)
  }

  /** Pure bookkeeping: what `Feed` finds behind a first piece. */
  lemma FeedAfterHead(m: Matcher, head: string, x: Pieces, whole: Pieces, b: string)
    requires whole.parts == [head] + x.parts && whole.rest == x.rest
    ensures Feed(m, whole, b).parts == [head] + Feed(m, x, b).parts
    ensures Feed(m, whole, b).rest == Feed(m, x, b).rest
  {
    var cut := Split(m, x.rest + b);
    assert ([head] + x.parts) + cut.parts == [head] + (x.parts + cut.parts);
  }

  /** Splitting after a further chunk arrived resumes from the text that was kept. */
  lemma {:induction false} SplitResumes(m: Matcher, a: string, b: string)
    requires Lawful(m)
    ensures Split(m, a + b) == Feed(m, Split(m, a), b)
    decreases |a|
  {
    var j := Find(m, a, 0);
    if j == |a| {
      var cut := Split(m, a + b);
      assert [] + cut.parts == cut.parts;
    } else {
      FindStable(m, a, b);
      var n := m(a, j);
      var c := a[j + n..];
      assert (a + b)[j + n..] == c + b && (a + b)[..j] == a[..j];
      SplitHead(m, a + b, j, n, c + b);
      SplitHead(m, a, j, n, c);
      SplitResumes(m, c, b);
      FeedAfterHead(m, a[..j], Split(m, c), Split(m, a), b);
    }
  }

  function Concat(chunks: seq<string>): string
  {
    if chunks == [] then "" else Concat(chunks[..|chunks| - 1]) + chunks[|chunks| - 1]
  }

  function FeedAll(m: Matcher, chunks: seq<string>): Pieces
  {
    if chunks == [] then Pieces([], "")
    else Feed(m, FeedAll(m, chunks[..|chunks| - 1]), chunks[|chunks| - 1])
  }

  /** However a text, any text, is cut into chunks, the reader finds the same pieces in it. */
  lemma {:induction false} ChunkingIsIrrelevant(m: Matcher, chunks: seq<string>)
    requires Lawful(m)
    ensures FeedAll(m, chunks) == Split(m, Concat(chunks))
  {
    if chunks != [] {
      var n := |chunks| - 1;
      ChunkingIsIrrelevant(m, chunks[..n]);
      SplitResumes(m, Concat(chunks[..n]), chunks[n]);
    }
  }

  // ---------------------------------------------------------------- records

  /** A text that splits off as `body`: `body` itself, and the match `gap` that ends it. */
  datatype Record = Record(body: string, gap: string)
  {
    function Text(): string { body + gap }
  }

  ghost predicate Framed(m: Matcher, r: Record)
  {
    && r.gap != ""
    && forall rest: string {:trigger r.Text() + rest} ::
         Find(m, r.Text() + rest, 0) == |r.body| && m(r.Text() + rest, |r.body|) == |r.gap|
  }

  lemma RecordComesOff(m: Matcher, r: Record, rest: string)
    requires Framed(m, r)
    ensures Split(m, r.Text() + rest).parts == [r.body] + Split(m, rest).parts
    ensures Split(m, r.Text() + rest).rest == Split(m, rest).rest
  {
    var s := r.Text() + rest;
    assert s[|r.body| + |r.gap|..] == rest && s[..|r.body|] == r.body;
    SplitHead(m, s, |r.body|, |r.gap|, rest);
  }

  /** Part of a record is no piece yet. */
  lemma PartialRecordStays(m: Matcher, r: Record, p: string, q: string)
    requires Lawful(m) && Framed(m, r) && p + q == r.Text() && q != ""
    ensures Split(m, p) == Pieces([], p)
  {
    assert r.Text() + "" == p + q;
    FindLeast(m, p + q, 0);
    forall k: nat | k < |p| ensures m(p, k) == 0 {
      assert m(p, k) > 0 ==> m(p + q, k) == m(p, k);
    }
    FindIs(m, p, 0, |p|);
  }

  function Stream(rs: seq<Record>): string
  {
    if rs == [] then "" else rs[0].Text() + Stream(rs[1..])
  }

  function Bodies(rs: seq<Record>): (bodies: seq<string>)
    ensures |bodies| == |rs| && forall i :: 0 <= i < |rs| ==> bodies[i] == rs[i].body
  {
    seq(|rs|, i requires 0 <= i < |rs| => rs[i].body)
  }

  /** Of the first `n` characters of the stream, how many records lie in them whole. */
  function Whole(rs: seq<Record>, n: nat): (k: nat)
    ensures k <= |rs|
  {
    if rs == [] || n < |rs[0].Text()| then 0
    else 1 + Whole(rs[1..], n - |rs[0].Text()|)
  }

  /**
   Whatever prefix `p` of a stream of records has arrived, splitting it gives exactly the bodies of
   the records that lie in it whole, and keeps a part of the next record only.
   */
  lemma {:induction false} PrefixSplits(m: Matcher, rs: seq<Record>, p: string, q: string)
    requires Lawful(m) && forall r | r in rs :: Framed(m, r)
    requires p + q == Stream(rs)
    ensures Split(m, p).parts == Bodies(rs)[..Whole(rs, |p|)]
    ensures Split(m, p).rest + q == Stream(rs[Whole(rs, |p|)..])
    ensures Whole(rs, |p|) < |rs| ==> |Split(m, p).rest| < |rs[Whole(rs, |p|)].Text()|
  {
    if rs == [] {
      assert p == "";
      assert Split(m, p) == Pieces([], "");
    } else {
      var r, tail := rs[0], rs[1..];
      var size := |r.Text()|;
      assert Stream(rs)[..size] == r.Text() && Stream(rs)[size..] == Stream(tail);
      if |p| < size {
        assert r.Text() == p + q[..size - |p|];
        PartialRecordStays(m, r, p, q[..size - |p|]);
        assert rs[0..] == rs;
      } else {
        var p' := p[size..];
        assert p[..size] == r.Text() && p' + q == Stream(tail) && p == r.Text() + p';
        PrefixSplits(m, tail, p', q);
        RecordComesOff(m, r, p');
        OneMore(rs, Whole(tail, |p'|));
      }
    }
  }

  lemma OneMore(rs: seq<Record>, k: nat)
    requires k < |rs|
    ensures Bodies(rs)[..k + 1] == [rs[0].body] + Bodies(rs[1..])[..k]
    ensures rs[k + 1..] == rs[1..][k..]
  {
  }

  /** The same for a reader that gets the prefix in chunks. */
  lemma ChunksReadBack(m: Matcher, rs: seq<Record>, chunks: seq<string>, lost: string)
    requires Lawful(m) && forall r | r in rs :: Framed(m, r)
    requires Concat(chunks) + lost == Stream(rs)
    ensures var k := Whole(rs, |Concat(chunks)|);
            && FeedAll(m, chunks).parts == Bodies(rs)[..k]
            && FeedAll(m, chunks).rest + lost == Stream(rs[k..])
            && (k < |rs| ==> |FeedAll(m, chunks).rest| < |rs[k].Text()|)
  {
    ChunkingIsIrrelevant(m, chunks);
    PrefixSplits(m, rs, Concat(chunks), lost);
  }
}
