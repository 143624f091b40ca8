/**
 The text stream of a session: agent text is published up to the last white space before a tail that
 might be the beginning of a secret. White space and the tail are parameters; nothing is assumed of them.
 */
module TextStream {

  /** `tail` is where the protected tail of a text starts, its length if there is none. */
  datatype Rules = Rules(space: char -> bool, tail: string -> nat)

  /** A published chunk; `flushed` says that it was `flush` that published it. */
  datatype Chunk = Chunk(text: string, flushed: bool)

  datatype Stream = Stream(published: seq<Chunk>, pending: string)

  const EMPTY := Stream([], "")

  /** One past the last white space before `limit`, or 0. */
  function Boundary(space: char -> bool, text: string, limit: nat): (b: nat)
    ensures b <= |text|
  {
    if text == [] then 0
    else if |text| <= limit && space(text[|text| - 1]) then |text|
    else Boundary(space, text[..|text| - 1], limit)
  }

  function Appended(r: Rules, s: Stream, text: string): Stream
  {
    var all := s.pending + text;
    var b := Boundary(r.space, all, r.tail(all));
    if b == 0 then s.(pending := all)
    else Stream(s.published + [Chunk(all[..b], false)], all[b..])
  }

  function Flushed(s: Stream): Stream
  {
    if s.pending == "" then s else Stream(s.published + [Chunk(s.pending, true)], "")
  }

  datatype Op = Append(text: string) | Flush

  function Did(r: Rules, s: Stream, op: Op): Stream
  {
    match op
    case Append(text) => Appended(r, s, text)
    case Flush => Flushed(s)
  }

  function Run(r: Rules, ops: seq<Op>): Stream
  {
    if ops == [] then EMPTY else Did(r, Run(r, ops[..|ops| - 1]), ops[|ops| - 1])
  }

  function Input(ops: seq<Op>): string
  {
    if ops == [] then ""
    else Input(ops[..|ops| - 1]) + (match ops[|ops| - 1] case Append(text) => text case Flush => "")
  }

  function Output(published: seq<Chunk>): string
  {
    if published == [] then "" else Output(published[..|published| - 1]) + published[|published| - 1].text
  }

  /** The cut is after white space, not inside the protected tail, and as late as that allows. */
  lemma {:induction false} BoundaryIsLast(space: char -> bool, text: string, limit: nat)
    ensures var b := Boundary(space, text, limit);
            && (b > 0 ==> b <= limit && space(text[b - 1]))
            && forall k :: b <= k < |text| && k < limit ==> !space(text[k])
  {
    if text != [] && !(|text| <= limit && space(text[|text| - 1])) {
      BoundaryIsLast(space, text[..|text| - 1], limit);
    }
  }

  ghost predicate EndsInSpace(r: Rules, c: Chunk)
  {
    c.text != "" && (!c.flushed ==> r.space(c.text[|c.text| - 1]))
  }

  lemma OneMore(published: seq<Chunk>, c: Chunk)
    ensures Output(published + [c]) == Output(published) + c.text
  {
    assert (published + [c])[..|published|] == published;
  }

  lemma CutAndJoined(out: string, pending: string, text: string, b: nat)
    requires b <= |pending + text|
    ensures out + (pending + text)[..b] + (pending + text)[b..] == out + pending + text
    ensures out + pending + "" == out + pending
  {
    var all := pending + text;
    assert all == all[..b] + all[b..];
    assert out + all[..b] + all[b..] == out + all;
  }

  lemma DidKeeps(r: Rules, s: Stream, op: Op)
    ensures var s' := Did(r, s, op);
            && Output(s'.published) + s'.pending ==
               Output(s.published) + s.pending + (match op case Append(text) => text case Flush => "")
            && forall c :: c in s'.published && c !in s.published ==> EndsInSpace(r, c)
  {
    hide Output, Boundary;
    match op
    case Flush =>
      OneMore(s.published, Chunk(s.pending, true));
      CutAndJoined(Output(s.published), s.pending, "", 0);
    case Append(text) =>
      var all := s.pending + text;
      var b := Boundary(r.space, all, r.tail(all));
      BoundaryIsLast(r.space, all, r.tail(all));
      OneMore(s.published, Chunk(all[..b], false));
      CutAndJoined(Output(s.published), s.pending, text, b);
  }

  /** Nothing is lost, added or moved, and chunks are only cut after white space. */
  lemma {:induction false} NothingIsLost(r: Rules, ops: seq<Op>)
    ensures var s := Run(r, ops);
            && Output(s.published) + s.pending == Input(ops)
            && forall c :: c in s.published ==> EndsInSpace(r, c)
  {
    hide Did, EndsInSpace;
    if ops != [] {
      NothingIsLost(r, ops[..|ops| - 1]);
      DidKeeps(r, Run(r, ops[..|ops| - 1]), ops[|ops| - 1]);
    }
  }

  /** After a flush the published chunks are the input. */
  lemma FlushedIsInput(r: Rules, ops: seq<Op>)
    ensures Output(Run(r, ops + [Flush]).published) == Input(ops) && Run(r, ops + [Flush]).pending == ""
  {
    assert (ops + [Flush])[..|ops|] == ops;
    NothingIsLost(r, ops);
    NothingIsLost(r, ops + [Flush]);
  }

  /** What an append keeps back begins at its protected tail or before, and before the tail it holds
      no white space, so a word in progress stays whole. */
  lemma TailIsKept(r: Rules, s: Stream, text: string)
    ensures var all := s.pending + text;
            var kept := Appended(r, s, text).pending;
            && |kept| <= |all| && kept == all[|all| - |kept|..]
            && (r.tail(all) <= |all| ==> |all| - |kept| <= r.tail(all))
            && forall k :: 0 <= k < |kept| && k + (|all| - |kept|) < r.tail(all) ==> !r.space(kept[k])
  {
    var all := s.pending + text;
    BoundaryIsLast(r.space, all, r.tail(all));
  }

  class DesktopTextStream {
    const rules: Rules
    var published: seq<Chunk>
    var pending: string

    constructor (rules: Rules)
      ensures Now() == EMPTY && this.rules == rules
    {
      this.rules := rules;
      published, pending := [], "";
    }

    function Now(): Stream
      reads this
    {
      Stream(published, pending)
    }

    method Append(text: string)
      modifies this
      ensures Now() == Appended(rules, old(Now()), text)
    {
      pending := pending + text;
      var protectedStart := rules.tail(pending);
      var boundary, index := 0, 0;
      while index < |pending|
        invariant 0 <= index <= |pending|
        invariant boundary == Boundary(rules.space, pending[..index], protectedStart)
      {
        if index < protectedStart && rules.space(pending[index]) { boundary := index + 1; }
        assert pending[..index + 1][..index] == pending[..index];
        index := index + 1;
      }
      assert pending[..index] == pending;
      if boundary == 0 { return; }
      published := published + [Chunk(pending[..boundary], false)];
      pending := pending[boundary..];
    }

    method Flush()
      modifies this
      ensures Now() == Flushed(old(Now()))
    {
      if pending == "" { return; }
      published := published + [Chunk(pending, true)];
      pending := "";
    }
  }
}
