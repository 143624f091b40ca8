/** Merging lists of cycle records, as the inspector does when new ones come in. */
module CycleRecords {

  import opened Prelude

  datatype Record = Record(id: string, body: string)

  // ---------------------------------------------------------------- ids in order

  /** The non-empty ids, each once, in the order of first occurrence. */
  function First(ids: seq<string>): seq<string>
  {
    if ids == [] then []
    else
      var rest, id := First(ids[..|ids| - 1]), ids[|ids| - 1];
      if id == "" || id in rest then rest else rest + [id]
  }

  function IdsOf(records: seq<Record>): (ids: seq<string>)
    ensures |ids| == |records|
  {
    seq(|records|, i requires 0 <= i < |records| => records[i].id)
  }

  predicate Clean(ids: seq<string>)
  {
    (forall i, j :: 0 <= i < j < |ids| ==> ids[i] != ids[j]) && "" !in ids
  }

  lemma {:induction false} FirstIsClean(ids: seq<string>)
    ensures Clean(First(ids)) && forall id :: id in First(ids) <==> id in ids && id != ""
  {
    if ids != [] {
      FirstIsClean(ids[..|ids| - 1]);
      assert ids == ids[..|ids| - 1] + [ids[|ids| - 1]];
    }
  }

  lemma {:induction false} CleanIsFirst(ids: seq<string>)
    requires Clean(ids)
    ensures First(ids) == ids
  {
    if ids != [] {
      CleanIsFirst(ids[..|ids| - 1]);
      assert ids == ids[..|ids| - 1] + [ids[|ids| - 1]];
    }
  }

  lemma {:induction false} FirstOfFirstLeft(xs: seq<string>, ys: seq<string>)
    ensures First(First(xs) + ys) == First(xs + ys)
  {
    if ys == [] {
      FirstIsClean(xs);
      CleanIsFirst(First(xs));
      assert First(xs) + ys == First(xs) && xs + ys == xs;
    } else {
      var n := |ys| - 1;
      FirstOfFirstLeft(xs, ys[..n]);
      assert (First(xs) + ys)[..|First(xs)| + n] == First(xs) + ys[..n];
      assert (xs + ys)[..|xs| + n] == xs + ys[..n];
    }
  }

  lemma FirstRightSnoc(xs: seq<string>, zs: seq<string>, y: string)
    requires First(xs + First(zs)) == First(xs + zs)
    ensures First(xs + First(zs + [y])) == First((xs + zs) + [y])
  {
    FirstIsClean(xs + zs);
    FirstIsClean(zs);
    hide First, Clean;
    FirstSnoc(zs, y);
    FirstSnoc(xs + zs, y);
    var f := First(zs);
    if y != "" && y !in f {
      FirstSnoc(xs + f, y);
      assert xs + (f + [y]) == (xs + f) + [y];
    }
  }

  lemma {:induction false} FirstOfFirstRight(xs: seq<string>, ys: seq<string>)
    ensures First(xs + First(ys)) == First(xs + ys)
    decreases |ys|
  {
    hide First;
    if ys == [] {
      NoIds();
    } else {
      var zs, y := ys[..|ys| - 1], ys[|ys| - 1];
      FirstOfFirstRight(xs, zs);
      FirstRightSnoc(xs, zs, y);
      assert ys == zs + [y] && xs + ys == (xs + zs) + [y];
    }
  }

  lemma NoIds()
    ensures First([]) == []
  {
  }

  lemma FirstSnoc(ids: seq<string>, id: string)
    ensures First(ids + [id]) == if id == "" || id in First(ids) then First(ids) else First(ids) + [id]
  {
    assert (ids + [id])[..|ids|] == ids;
  }

  // ---------------------------------------------------------------- records by id

  /** The last record with this id. */
  function Latest(records: seq<Record>, id: string): (r: Option<Record>)
    ensures r.Some? ==> r.value.id == id
  {
    if records == [] || id == "" then None
    else if records[|records| - 1].id == id then Some(records[|records| - 1])
    else Latest(records[..|records| - 1], id)
  }

  /** The first record if there is one, otherwise the second. */
  function Either(first: Option<Record>, second: Option<Record>): Option<Record>
  {
    if first.Some? then first else second
  }

  lemma {:induction false} LatestOfBoth(xs: seq<Record>, ys: seq<Record>, id: string)
    ensures Latest(xs + ys, id) == Either(Latest(ys, id), Latest(xs, id))
  {
    if ys == [] {
      assert xs + ys == xs;
    } else {
      var n := |ys| - 1;
      assert (xs + ys)[..|xs| + n] == xs + ys[..n];
      LatestOfBoth(xs, ys[..n], id);
    }
  }

  lemma {:induction false} LatestExists(records: seq<Record>, id: string)
    ensures Latest(records, id).Some? <==> id != "" && id in IdsOf(records)
  {
    if records != [] && id != "" {
      var n := |records| - 1;
      LatestExists(records[..n], id);
      assert IdsOf(records) == IdsOf(records[..n]) + [records[n].id];
    }
  }

  /** The records for these ids. */
  function Chosen(ids: seq<string>, records: seq<Record>): seq<Record>
  {
    if ids == [] then []
    else
      var rest, latest := Chosen(ids[..|ids| - 1], records), Latest(records, ids[|ids| - 1]);
      if latest.None? then rest else rest + [latest.value]
  }

  function Merged(current: seq<Record>, incoming: seq<Record>): seq<Record>
  {
    Chosen(First(IdsOf(incoming + current)), current + incoming)
  }

  lemma {:induction false} ChosenAt(ids: seq<string>, records: seq<Record>)
    requires forall id :: id in ids ==> Latest(records, id).Some?
    ensures var r := Chosen(ids, records);
            && |r| == |ids| && IdsOf(r) == ids
            && forall i :: 0 <= i < |ids| ==> Some(r[i]) == Latest(records, ids[i])
  {
    if ids != [] {
      var n := |ids| - 1;
      ChosenAt(ids[..n], records);
      assert ids == ids[..n] + [ids[n]];
      assert ids[n] in ids;
    }
  }

  lemma {:induction false} LatestIsAt(records: seq<Record>, i: nat)
    requires i < |records| && Clean(IdsOf(records))
    ensures Latest(records, records[i].id) == Some(records[i])
  {
    var n := |records| - 1;
    assert IdsOf(records)[i] == records[i].id && records[i].id in IdsOf(records);
    if i < n {
      assert IdsOf(records[..n]) == IdsOf(records)[..n];
      assert IdsOf(records)[n] == records[n].id;
      LatestIsAt(records[..n], i);
    }
  }

  /** The merge has the ids of both lists, each once, those of `incoming` first; and for each id the
      last record of `incoming`, or if it has none, the last of `current`. */
  lemma MergeIs(current: seq<Record>, incoming: seq<Record>)
    ensures var r := Merged(current, incoming);
            && IdsOf(r) == First(IdsOf(incoming) + IdsOf(current)) && Clean(IdsOf(r))
            && (forall id :: id in IdsOf(r) <==> id != "" && (id in IdsOf(incoming) || id in IdsOf(current)))
            && (forall id :: Latest(r, id) == Either(Latest(incoming, id), Latest(current, id)))
  {
    var all := current + incoming;
    var ids := First(IdsOf(incoming + current));
    var r := Merged(current, incoming);
    assert IdsOf(incoming + current) == IdsOf(incoming) + IdsOf(current);
    assert IdsOf(all) == IdsOf(current) + IdsOf(incoming);
    FirstIsClean(IdsOf(incoming + current));
    forall id ensures Latest(all, id).Some? <==> id in ids { LatestExists(all, id); }
    ChosenAt(ids, all);
    forall id ensures Latest(r, id) == Either(Latest(incoming, id), Latest(current, id)) {
      LatestOfBoth(current, incoming, id);
      LatestExists(r, id);
      if id in ids {
        var i :| 0 <= i < |ids| && ids[i] == id;
        LatestIsAt(r, i);
        assert IdsOf(r)[i] == r[i].id;
      }
    }
  }

  /** Records with distinct ids are determined by the ids and the record of each. */
  lemma SameRecords(xs: seq<Record>, ys: seq<Record>)
    requires IdsOf(xs) == IdsOf(ys) && Clean(IdsOf(xs))
    requires forall id :: Latest(xs, id) == Latest(ys, id)
    ensures xs == ys
  {
    forall i | 0 <= i < |xs| ensures xs[i] == ys[i] {
      LatestIsAt(xs, i);
      LatestIsAt(ys, i);
      assert IdsOf(xs)[i] == xs[i].id && IdsOf(ys)[i] == ys[i].id;
    }
  }

  lemma MergedThrice(a: seq<Record>, b: seq<Record>, c: seq<Record>)
    ensures IdsOf(Merged(Merged(a, b), c)) == IdsOf(Merged(a, Merged(b, c)))
    ensures forall id :: Latest(Merged(Merged(a, b), c), id) == Latest(Merged(a, Merged(b, c)), id)
  {
    hide Merged, Latest, IdsOf, First, Clean;
    MergeIs(a, b);
    MergeIs(b, c);
    MergeIs(Merged(a, b), c);
    MergeIs(a, Merged(b, c));
    var ia, ib, ic := IdsOf(a), IdsOf(b), IdsOf(c);
    FirstOfFirstRight(ic, ib + ia);
    FirstOfFirstLeft(ic + ib, ia);
    assert ic + (ib + ia) == (ic + ib) + ia;
  }

  lemma MergeIsAssociative(a: seq<Record>, b: seq<Record>, c: seq<Record>)
    ensures Merged(Merged(a, b), c) == Merged(a, Merged(b, c))
  {
    hide Merged, Latest, IdsOf, First, Clean;
    MergedThrice(a, b, c);
    MergeIs(Merged(a, b), c);
    SameRecords(Merged(Merged(a, b), c), Merged(a, Merged(b, c)));
  }

  /** Merging again what was merged changes nothing. */
  lemma MergeIsIdempotent(current: seq<Record>, incoming: seq<Record>)
    ensures var r := Merged(current, incoming);
            Merged(r, r) == r && Merged(r, []) == r && Merged([], r) == r && Merged(current, r) == r
  {
    hide Merged;
    var r := Merged(current, incoming);
    MergeIs(current, incoming);
    var ids := IdsOf(r);
    assert IdsOf([]) == [] && ids + [] == ids && [] + ids == ids;
    CleanIsFirst(ids);
    FirstAgain(ids, ids);
    MergeIs(r, r);
    SameRecords(Merged(r, r), r);
    MergeIs(r, []);
    SameRecords(Merged(r, []), r);
    MergeIs([], r);
    SameRecords(Merged([], r), r);
    FirstAgain(ids, IdsOf(current));
    MergeIs(current, r);
    SameRecords(Merged(current, r), r);
  }

  /** Ids that are there already add nothing. */
  lemma {:induction false} FirstAgain(ids: seq<string>, more: seq<string>)
    requires Clean(ids) && forall id :: id in more && id != "" ==> id in ids
    ensures First(ids + more) == ids
  {
    if more == [] {
      CleanIsFirst(ids);
      assert ids + more == ids;
    } else {
      var n := |more| - 1;
      assert (ids + more)[..|ids| + n] == ids + more[..n];
      FirstAgain(ids, more[..n]);
    }
  }

  method MergeCycleRecords(current: seq<Record>, incoming: seq<Record>) returns (out: seq<Record>)
    ensures out == Merged(current, incoming)
  {
    var byId: map<string, Record> := map[];
    var all := current + incoming;
    for i := 0 to |all|
      invariant forall id :: (if id in byId then Some(byId[id]) else None) == Latest(all[..i], id)
    {
      assert all[..i + 1][..i] == all[..i];
      if all[i].id != "" { byId := byId[all[i].id := all[i]]; }
    }
    assert all[..|all|] == all;
    var seen: set<string> := {};
    var order := incoming + current;
    out := [];
    for i := 0 to |order|
      invariant forall id :: id in seen <==> id in First(IdsOf(order[..i]))
      invariant out == Chosen(First(IdsOf(order[..i])), all)
    {
      var id := order[i].id;
      assert IdsOf(order[..i + 1])[..i] == IdsOf(order[..i]);
      if id == "" || id in seen { continue; }
      seen := seen + {id};
      ghost var ids := First(IdsOf(order[..i]));
      assert First(IdsOf(order[..i + 1])) == ids + [id] && (ids + [id])[..|ids|] == ids;
      if id in byId { out := out + [byId[id]]; }
    }
    assert order[..|order|] == order;
  }
}
