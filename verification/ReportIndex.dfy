/**
 The verify and intelligence report indexes: a bounded cache of per-directory indexes that must answer
 every lookup as a scan of the directory would. What a directory holds under a given signature is a
 parameter: equal signatures mean equal contents.
 */
module ReportIndex {

  import opened Prelude

  const LIMIT := 8

  // ---------------------------------------------------------------- one index

  /** Something that can be looked up under several keys. */
  datatype Item<T> = Item(keys: seq<string>, value: T)

  /** The scan that the index stands for: the first item with this key. */
  function Find<T>(items: seq<Item<T>>, key: string): Option<T>
  {
    if items == [] then None
    else if key in items[0].keys then Some(items[0].value)
    else Find(items[1..], key)
  }

  function Get<T>(index: map<string, T>, key: string): Option<T>
  {
    if key in index then Some(index[key]) else None
  }

  ghost predicate Indexes<T(!new)>(index: map<string, T>, items: seq<Item<T>>)
  {
    forall key :: Get(index, key) == Find(items, key)
  }

  lemma {:induction false} FindAppended<T>(items: seq<Item<T>>, item: Item<T>, key: string)
    ensures Find(items + [item], key) ==
            if Find(items, key).Some? then Find(items, key)
            else if key in item.keys then Some(item.value) else None
  {
    if items == [] {
      assert items + [item] == [item] && [item][1..] == [];
    } else {
      assert (items + [item])[1..] == items[1..] + [item];
      FindAppended(items[1..], item, key);
    }
  }

  /** Earlier items keep their keys. */
  method Build<T(!new)>(items: seq<Item<T>>) returns (index: map<string, T>)
    ensures Indexes(index, items)
  {
    index := map[];
    for i := 0 to |items|
      invariant Indexes(index, items[..i])
    {
      var item := items[i];
      ghost var before := index;
      for k := 0 to |item.keys|
        invariant forall key :: Get(index, key) ==
                                if key in before then Some(before[key])
                                else if key in item.keys[..k] then Some(item.value) else None
      {
        if item.keys[k] !in index { index := index[item.keys[k] := item.value]; }
      }
      assert item.keys[..|item.keys|] == item.keys;
      assert items[..i + 1] == items[..i] + [item];
      forall key ensures Get(index, key) == Find(items[..i + 1], key) {
        FindAppended(items[..i], item, key);
        assert Get(before, key) == Find(items[..i], key);
      }
    }
    assert items[..|items|] == items;
  }

  // ---------------------------------------------------------------- verify reports

  datatype View = Unavailable | Available(semantic: Option<string>, verified: Option<nat>, pending: Option<nat>)

  /** A parsed report with its ids as trimmed strings, empty if absent; `view` is `Unavailable` for a
      report that is no object. */
  datatype Report = Report(cycleId: string, execCycleId: string, view: View)

  /** A file of the directory; `report` is absent when it cannot be read. `stem` is its name without
      the extension, trimmed. */
  datatype File = File(stem: string, report: Option<Report>)

  function NonEmpty(keys: seq<string>): seq<string>
  {
    if keys == [] then []
    else (if keys[0] == "" then [] else [keys[0]]) + NonEmpty(keys[1..])
  }

  function Keys(report: Report, stem: string): seq<string>
  {
    NonEmpty([report.cycleId, report.execCycleId, stem])
  }

  function Items(files: seq<File>): seq<Item<View>>
  {
    if files == [] then []
    else
      (if files[0].report.None? then []
       else [Item(Keys(files[0].report.value, files[0].stem), files[0].report.value.view)])
      + Items(files[1..])
  }

  predicate MatchesCycle(file: File, id: string)
  {
    && file.report.Some? && id != ""
    && (id == file.report.value.cycleId || id == file.report.value.execCycleId || id == file.stem)
  }

  /** What a lookup promises: the view of the first readable file that matches, or no view. */
  function Scan(files: seq<File>, id: string): View
  {
    if files == [] then Unavailable
    else if MatchesCycle(files[0], id) then files[0].report.value.view
    else Scan(files[1..], id)
  }

  lemma {:induction false} NonEmptyKeys(keys: seq<string>, key: string)
    ensures key in NonEmpty(keys) <==> key in keys && key != ""
  {
    if keys != [] { NonEmptyKeys(keys[1..], key); }
  }

  lemma KeysMatch(file: File, id: string)
    requires file.report.Some?
    ensures MatchesCycle(file, id) <==> id in Keys(file.report.value, file.stem)
  {
    var report := file.report.value;
    var keys := [report.cycleId, report.execCycleId, file.stem];
    NonEmptyKeys(keys, id);
    assert keys[0] == report.cycleId && keys[1] == report.execCycleId && keys[2] == file.stem;
  }

  lemma {:induction false} ScanIsFind(files: seq<File>, id: string)
    ensures Scan(files, id) == match Find(Items(files), id) case None => Unavailable case Some(view) => view
  {
    if files != [] {
      ScanIsFind(files[1..], id);
      if files[0].report.Some? {
        KeysMatch(files[0], id);
        var item := Item(Keys(files[0].report.value, files[0].stem), files[0].report.value.view);
        assert Items(files) == [item] + Items(files[1..]);
        assert Items(files)[0] == item && Items(files)[1..] == Items(files[1..]);
      } else {
        assert Items(files) == Items(files[1..]);
      }
    }
  }

  // ---------------------------------------------------------------- intelligence reports

  /** A record of the intelligence store, with its trimmed cycle id, empty if it has none. */
  datatype Record = Record(cycleId: string, body: string)

  function RecordItems(records: seq<Record>): seq<Item<Record>>
  {
    seq(|records|, i requires 0 <= i < |records| => Item(NonEmpty([records[i].cycleId]), records[i]))
  }

  function ScanRecords(records: seq<Record>, id: string): Option<Record>
  {
    if records == [] || id == "" then None
    else if records[0].cycleId == id then Some(records[0])
    else ScanRecords(records[1..], id)
  }

  lemma {:induction false} ScanRecordsIsFind(records: seq<Record>, id: string)
    ensures id != "" ==> ScanRecords(records, id) == Find(RecordItems(records), id)
  {
    if records != [] {
      ScanRecordsIsFind(records[1..], id);
      NonEmptyKeys([records[0].cycleId], id);
      assert RecordItems(records)[1..] == RecordItems(records[1..]);
    }
  }

  // ---------------------------------------------------------------- the cache

  datatype Entry<T> = Entry(key: string, signature: string, index: map<string, T>)

  function Position<T>(cache: seq<Entry<T>>, key: string): (p: nat)
    ensures p <= |cache|
    ensures p < |cache| ==> cache[p].key == key
    ensures forall i :: 0 <= i < p ==> cache[i].key != key
  {
    if cache == [] || cache[0].key == key then 0 else 1 + Position(cache[1..], key)
  }

  function Dropped<T>(cache: seq<Entry<T>>, key: string): seq<Entry<T>>
  {
    var p := Position(cache, key);
    if p < |cache| then cache[..p] + cache[p + 1..] else cache
  }

  function Trimmed<T>(cache: seq<Entry<T>>): seq<Entry<T>>
  {
    if |cache| <= LIMIT then cache else cache[|cache| - LIMIT..]
  }

  function Remembered<T>(cache: seq<Entry<T>>, entry: Entry<T>): seq<Entry<T>>
  {
    Trimmed(Dropped(cache, entry.key) + [entry])
  }

  predicate Unique<T>(cache: seq<Entry<T>>)
  {
    forall i, j :: 0 <= i < j < |cache| ==> cache[i].key != cache[j].key
  }

  /** Every index in the cache belongs to what its directory held under the recorded signature. */
  ghost predicate Honest<T(!new)>(cache: seq<Entry<T>>, contents: (string, string) -> seq<Item<T>>)
  {
    forall e :: e in cache ==> Indexes(e.index, contents(e.key, e.signature))
  }

  ghost predicate CacheOk<T(!new)>(cache: seq<Entry<T>>, contents: (string, string) -> seq<Item<T>>)
  {
    |cache| <= LIMIT && Unique(cache) && Honest(cache, contents)
  }

  lemma DroppedKeeps<T>(cache: seq<Entry<T>>, key: string)
    requires Unique(cache)
    ensures var r := Dropped(cache, key);
            Unique(r) && |r| <= |cache| && forall i :: 0 <= i < |r| ==> r[i] in cache && r[i].key != key
  {
  }

  /** The entry just stored is there, last; the others keep their order; and nothing goes unless there
      are more than eight, and then the oldest. */
  lemma RememberedKeeps<T(!new)>(cache: seq<Entry<T>>, entry: Entry<T>, contents: (string, string) -> seq<Item<T>>)
    requires CacheOk(cache, contents) && Indexes(entry.index, contents(entry.key, entry.signature))
    ensures var r, others := Remembered(cache, entry), Dropped(cache, entry.key);
            && CacheOk(r, contents) && r != [] && r[|r| - 1] == entry
            && r == (if |others| < 8 then others else others[1..]) + [entry]
  {
    hide Dropped, Indexes;
    DroppedKeeps(cache, entry.key);
  }

  // ---------------------------------------------------------------- the code

  class ReportCache<T(!new)> {
    ghost const contents: (string, string) -> seq<Item<T>>
    var entries: seq<Entry<T>>

    constructor (ghost contents: (string, string) -> seq<Item<T>>)
      ensures Valid() && this.contents == contents
    {
      this.contents := contents;
      entries := [];
    }

    ghost predicate Valid()
      reads this
    {
      CacheOk(entries, contents)
    }

    method Remember(entry: Entry<T>)
      requires Valid() && Indexes(entry.index, contents(entry.key, entry.signature))
      modifies this`entries
      ensures Valid() && entries == Remembered(old(entries), entry) && entry in entries
    {
      RememberedKeeps(entries, entry, contents);
      entries := Dropped(entries, entry.key) + [entry];
      while |entries| > LIMIT
        invariant entries != [] && Trimmed(entries) == Remembered(old(entries), entry)
        decreases |entries|
      {
        entries := entries[1..];
      }
    }

    /** `items` is what reading the directory now gives. */
    method Lookup(key: string, signature: string, items: seq<Item<T>>, id: string) returns (found: Option<T>)
      requires Valid() && items == contents(key, signature)
      modifies this`entries
      ensures Valid() && found == Find(contents(key, signature), id)
      ensures Looked(old(entries), Look(key, signature, id), entries, found, contents)
    {
      var p := Position(entries, key);
      if p < |entries| && entries[p].signature == signature {
        assert entries[p] in entries;
        found := Get(entries[p].index, id);
      } else {
        var index := Build(items);
        Remember(Entry(key, signature, index));
        found := Get(index, id);
      }
    }

    method Reset()
      requires Valid()
      modifies this`entries
      ensures Valid() && Looked(old(entries), Forget, entries, None, contents)
    {
      entries := [];
    }
  }

  /** `lookupVerifyReport`: `files` is what the directory holds now. */
  method LookupVerifyReport(cache: ReportCache<View>, dir: string, signature: string, files: seq<File>, id: string)
    returns (view: View)
    requires cache.Valid() && Items(files) == cache.contents(dir, signature)
    modifies cache`entries
    ensures cache.Valid() && view == if dir == "" then Unavailable else Scan(files, id)
  {
    ScanIsFind(files, id);
    EmptyIdFindsNothing(files);
    if id == "" || dir == "" { return Unavailable; }
    var found := cache.Lookup(dir, signature, Items(files), id);
    view := match found case None => Unavailable case Some(v) => v;
  }

  lemma {:induction false} EmptyIdFindsNothing(files: seq<File>)
    ensures Scan(files, "") == Unavailable
  {
    if files != [] { EmptyIdFindsNothing(files[1..]); }
  }

  /** `lookupIntelReport`: `records` are the latest records of the store. */
  method LookupIntelReport(cache: ReportCache<Record>, dir: string, signature: string, records: seq<Record>, id: string)
    returns (record: Option<Record>)
    requires cache.Valid() && RecordItems(records) == cache.contents(dir, signature)
    modifies cache`entries
    ensures cache.Valid() && record == if dir == "" then None else ScanRecords(records, id)
  {
    if id == "" || dir == "" { return None; }
    ScanRecordsIsFind(records, id);
    record := cache.Lookup(dir, signature, RecordItems(records), id);
  }

  // ---------------------------------------------------------------- any number of lookups

  datatype Op = Look(dir: string, signature: string, id: string) | Forget

  /** The cache as a function, for whole runs: what was there before decides only whether to read. */
  ghost predicate Looked<T(!new)>(cache: seq<Entry<T>>, op: Op, cache': seq<Entry<T>>, answer: Option<T>,
                                  contents: (string, string) -> seq<Item<T>>)
  {
    match op
    case Forget => cache' == [] && answer.None?
    case Look(dir, signature, id) =>
      var p := Position(cache, dir);
      if p < |cache| && cache[p].signature == signature
      then cache' == cache && answer == Get(cache[p].index, id)
      else exists index :: && Indexes(index, contents(dir, signature))
                           && cache' == Remembered(cache, Entry(dir, signature, index)) && answer == Get(index, id)
  }

  ghost predicate History<T(!new)>(ops: seq<Op>, caches: seq<seq<Entry<T>>>, answers: seq<Option<T>>,
                                   contents: (string, string) -> seq<Item<T>>)
  {
    && |caches| == |ops| + 1 && |answers| == |ops| && caches[0] == []
    && forall k :: 0 <= k < |ops| ==> Looked(caches[k], ops[k], caches[k + 1], answers[k], contents)
  }

  lemma LookedKeeps<T(!new)>(cache: seq<Entry<T>>, op: Op, cache': seq<Entry<T>>, answer: Option<T>,
                             contents: (string, string) -> seq<Item<T>>)
    requires CacheOk(cache, contents) && Looked(cache, op, cache', answer, contents)
    ensures CacheOk(cache', contents)
    ensures op.Look? ==> answer == Find(contents(op.dir, op.signature), op.id)
  {
    if op.Look? {
      var p := Position(cache, op.dir);
      if p < |cache| && cache[p].signature == op.signature {
        assert cache[p] in cache;
      } else {
        var index :| && Indexes(index, contents(op.dir, op.signature))
                     && cache' == Remembered(cache, Entry(op.dir, op.signature, index)) && answer == Get(index, op.id);
        RememberedKeeps(cache, Entry(op.dir, op.signature, index), contents);
      }
    }
  }

  /** However lookups, changed directories, evictions and resets interleave, every lookup answers as a
      scan of what the directory holds then, and the cache never has more than eight entries. */
  lemma {:induction false} EveryLookupIsAScan<T(!new)>(
      ops: seq<Op>, caches: seq<seq<Entry<T>>>, answers: seq<Option<T>>,
      contents: (string, string) -> seq<Item<T>>, n: nat)
    requires History(ops, caches, answers, contents) && n <= |ops|
    ensures CacheOk(caches[n], contents) && |caches[n]| <= 8
    ensures forall k :: 0 <= k < n && ops[k].Look? ==>
              answers[k] == Find(contents(ops[k].dir, ops[k].signature), ops[k].id)
  {
    if n > 0 {
      EveryLookupIsAScan(ops, caches, answers, contents, n - 1);
      LookedKeeps(caches[n - 1], ops[n - 1], caches[n], answers[n - 1], contents);
    }
  }
}
