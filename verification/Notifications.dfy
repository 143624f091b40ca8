/**
 The memory of the notification service: what was noted when, so that the same item does not notify
 again within the cooldown. `order` is the insertion order of the memory, `log` its history.
 */
module Notifications {

  import opened Prelude

  const MAX_SEEN := 256

  datatype Mark = Mark(signature: string, at: int)

  datatype Entry = Noted(key: string, signature: string, at: int, shown: bool) | Forgot(key: string)

  datatype State = State(memory: map<string, Mark>, order: seq<string>, log: seq<Entry>)

  const INITIAL := State(map[], [], [])

  /** A candidate of a snapshot, and the time when its turn comes. */
  datatype Item = Item(id: string, signature: string, now: int)

  function KeyOf(subject: string, id: string): string
  {
    subject + ":" + id
  }

  predicate BelongsTo(key: string, subject: string)
  {
    subject + ":" <= key
  }

  // ---------------------------------------------------------------- operations

  function Without(order: seq<string>, key: string): seq<string>
  {
    if order == [] then []
    else (if order[0] == key then [] else [order[0]]) + Without(order[1..], key)
  }

  function Forgotten(s: State, key: string): State
  {
    State(s.memory - {key}, Without(s.order, key), s.log + [Forgot(key)])
  }

  /** Forgets the keys of the subject that the snapshot no longer has, looking at the first `n`. */
  function Pruned(s: State, order: seq<string>, n: nat, subject: string, current: set<string>): State
    requires n <= |order|
  {
    if n == 0 then s
    else
      var s' := Pruned(s, order, n - 1, subject, current);
      if BelongsTo(order[n - 1], subject) && order[n - 1] !in current then Forgotten(s', order[n - 1]) else s'
  }

  predicate Quiet(s: State, key: string, signature: string, now: int, cooldown: nat)
  {
    key in s.memory && s.memory[key].signature == signature && now - s.memory[key].at < cooldown
  }

  function Noticed(s: State, key: string, signature: string, now: int, enabled: bool): State
  {
    State(s.memory[key := Mark(signature, now)], if key in s.memory then s.order else s.order + [key],
          s.log + [Noted(key, signature, now, enabled)])
  }

  function OfferedKey(s: State, key: string, signature: string, now: int, cooldown: nat, enabled: bool): State
  {
    if Quiet(s, key, signature, now, cooldown) then s
    else
      var s' := Noticed(s, key, signature, now, enabled);
      if |s'.order| > MAX_SEEN then Forgotten(s', s'.order[0]) else s'
  }

  function Offered(s: State, subject: string, item: Item, cooldown: nat, enabled: bool): State
  {
    OfferedKey(s, KeyOf(subject, item.id), item.signature, item.now, cooldown, enabled)
  }

  function OfferedAll(s: State, subject: string, items: seq<Item>, cooldown: nat, enabled: bool): State
  {
    if items == [] then s
    else Offered(OfferedAll(s, subject, items[..|items| - 1], cooldown, enabled), subject, items[|items| - 1],
                 cooldown, enabled)
  }

  function CurrentKeys(subject: string, items: seq<Item>): set<string>
  {
    set i | i in items :: KeyOf(subject, i.id)
  }

  /** `handleSnapshot`. */
  function Handled(s: State, subject: string, items: seq<Item>, cooldown: nat, enabled: bool): State
  {
    OfferedAll(Pruned(s, s.order, |s.order|, subject, CurrentKeys(subject, items)), subject, items, cooldown, enabled)
  }

  datatype Snapshot = Snapshot(subject: string, items: seq<Item>, enabled: bool)

  function Run(snapshots: seq<Snapshot>, cooldown: nat): State
  {
    if snapshots == [] then INITIAL
    else
      var last := snapshots[|snapshots| - 1];
      Handled(Run(snapshots[..|snapshots| - 1], cooldown), last.subject, last.items, cooldown, last.enabled)
  }

  // ---------------------------------------------------------------- history

  ghost predicate About(log: seq<Entry>, i: int, key: string)
  {
    0 <= i < |log| && log[i].key == key
  }

  /** The last entry about `key` is the `i`-th. */
  ghost predicate LastAbout(log: seq<Entry>, i: int, key: string)
  {
    About(log, i, key) && forall j :: i < j ==> !About(log, j, key)
  }

  /** The memory of a key is its last entry, unless that forgot it. */
  ghost predicate Remembers(s: State, key: string)
  {
    && (key in s.memory ==>
          exists i :: LastAbout(s.log, i, key) && s.log[i].Noted?
                      && s.memory[key] == Mark(s.log[i].signature, s.log[i].at))
    && (forall i :: LastAbout(s.log, i, key) && s.log[i].Noted? ==> key in s.memory)
  }

  /** From entry `i` to entry `j`, the item kept its signature and was not forgotten. */
  ghost predicate Unbroken(log: seq<Entry>, i: int, j: int)
  {
    && 0 <= i < j < |log| && log[i].Noted? && log[j].Noted?
    && forall m :: i <= m <= j && log[m].key == log[i].key ==> log[m].Noted? && log[m].signature == log[i].signature
  }

  ghost predicate Spaced(log: seq<Entry>, cooldown: nat)
  {
    forall i, j :: Unbroken(log, i, j) && log[i].key == log[j].key ==> log[j].at - log[i].at >= cooldown
  }

  ghost predicate UpTo(log: seq<Entry>, clock: int)
  {
    && (forall i :: 0 <= i < |log| && log[i].Noted? ==> log[i].at <= clock)
    && (forall i, j :: 0 <= i < j < |log| && log[i].Noted? && log[j].Noted? ==> log[i].at <= log[j].at)
  }

  predicate Distinct(order: seq<string>)
  {
    forall i, j :: 0 <= i < j < |order| ==> order[i] != order[j]
  }

  ghost predicate OrderOk(s: State)
  {
    |s.order| <= MAX_SEEN && Distinct(s.order) && forall key :: key in s.memory <==> key in s.order
  }

  ghost predicate Inv(s: State, cooldown: nat, clock: int)
  {
    && OrderOk(s) && UpTo(s.log, clock) && Spaced(s.log, cooldown)
    && forall key :: Remembers(s, key)
  }

  // ---------------------------------------------------------------- every operation keeps it

  lemma {:induction false} WithoutKeeps(order: seq<string>, key: string)
    requires Distinct(order)
    ensures var r := Without(order, key);
            && Distinct(r) && |r| == |order| - (if key in order then 1 else 0)
            && forall k :: k in r <==> k in order && k != key
  {
    if order != [] {
      WithoutKeeps(order[1..], key);
      assert order[0] !in order[1..];
      assert order == [order[0]] + order[1..];
    }
  }

  lemma SpacedStill(log: seq<Entry>, entry: Entry, cooldown: nat)
    requires Spaced(log, cooldown)
    requires forall i | 0 <= i < |log| && log[i].Noted? && entry.Noted? && log[i].key == entry.key ::
               Unbroken(log + [entry], i, |log|) ==> entry.at - log[i].at >= cooldown
    ensures Spaced(log + [entry], cooldown)
  {
    var log' := log + [entry];
    forall i, j | Unbroken(log', i, j) && log'[i].key == log'[j].key ensures log'[j].at - log'[i].at >= cooldown {
      if j < |log| {
        assert forall m :: i <= m <= j ==> log'[m] == log[m];
        assert Unbroken(log, i, j);
      }
    }
  }

  lemma LastAboutLater(log: seq<Entry>, entry: Entry, key: string)
    ensures key == entry.key ==> LastAbout(log + [entry], |log|, key)
    ensures key == entry.key ==> forall i :: LastAbout(log + [entry], i, key) ==> i == |log|
    ensures key != entry.key ==> forall i :: LastAbout(log + [entry], i, key) <==> LastAbout(log, i, key)
    ensures forall i :: LastAbout(log, i, key) ==> 0 <= i < |log|
  {
    var log' := log + [entry];
    assert About(log', |log|, entry.key);
    if key != entry.key {
      forall i ensures About(log', i, key) <==> About(log, i, key) {}
    }
  }

  lemma ForgottenKeeps(s: State, key: string, cooldown: nat, clock: int)
    requires Distinct(s.order) && (forall k :: k in s.memory <==> k in s.order)
    requires UpTo(s.log, clock) && Spaced(s.log, cooldown) && forall k :: Remembers(s, k)
    ensures var s' := Forgotten(s, key);
            && Distinct(s'.order) && (forall k :: k in s'.memory <==> k in s'.order)
            && |s'.order| == |s.order| - (if key in s.order then 1 else 0)
            && UpTo(s'.log, clock) && Spaced(s'.log, cooldown) && forall k :: Remembers(s', k)
  {
    hide Spaced, LastAbout;
    var s' := Forgotten(s, key);
    WithoutKeeps(s.order, key);
    SpacedStill(s.log, Forgot(key), cooldown);
    forall k ensures Remembers(s', k) {
      LastAboutLater(s.log, Forgot(key), k);
      assert Remembers(s, k);
    }
  }

  lemma NoticedKeeps(s: State, key: string, signature: string, now: int, enabled: bool, cooldown: nat, clock: int)
    requires Inv(s, cooldown, clock) && clock <= now && !Quiet(s, key, signature, now, cooldown)
    ensures var s' := Noticed(s, key, signature, now, enabled);
            && Distinct(s'.order) && (forall k :: k in s'.memory <==> k in s'.order) && |s'.order| <= MAX_SEEN + 1
            && UpTo(s'.log, now) && Spaced(s'.log, cooldown) && forall k :: Remembers(s', k)
  {
    hide Spaced, LastAbout, Unbroken;
    var entry := Noted(key, signature, now, enabled);
    var s' := Noticed(s, key, signature, now, enabled);
    assert Remembers(s, key);
    forall i | 0 <= i < |s.log| && s.log[i].Noted? && s.log[i].key == key && Unbroken(s'.log, i, |s.log|)
      ensures now - s.log[i].at >= cooldown {
      GapIsLong(s, entry, cooldown, i);
    }
    SpacedStill(s.log, entry, cooldown);
    forall k ensures Remembers(s', k) {
      LastAboutLater(s.log, entry, k);
      assert Remembers(s, k);
    }
  }

  lemma GapIsLong(s: State, entry: Entry, cooldown: nat, i: int)
    requires entry.Noted? && !Quiet(s, entry.key, entry.signature, entry.at, cooldown)
    requires Remembers(s, entry.key) && UpTo(s.log, entry.at)
    requires Unbroken(s.log + [entry], i, |s.log|) && s.log[i].key == entry.key
    ensures s.log[i].Noted? && entry.at - s.log[i].at >= cooldown
  {
    hide LastAbout, Remembers;
    var log' := s.log + [entry];
    assert forall m :: 0 <= m < |s.log| ==> log'[m] == s.log[m];
    assert log'[|s.log|] == entry;
    LastIsNoted(s, entry.key, i);
  }

  lemma {:induction false} FindLast(log: seq<Entry>, i: int, key: string) returns (last: int)
    requires About(log, i, key)
    ensures i <= last && LastAbout(log, last, key)
    decreases |log| - i
  {
    if next :| i < next && About(log, next, key) {
      last := FindLast(log, next, key);
    } else {
      last := i;
    }
  }

  /** What the memory holds of a key is no older than any of its entries. */
  lemma LastIsNoted(s: State, key: string, i: int)
    requires Remembers(s, key) && About(s.log, i, key) && s.log[i].Noted?
    requires forall m :: i <= m < |s.log| && s.log[m].key == key ==>
               s.log[m].Noted? && s.log[m].signature == s.log[i].signature
    requires forall a, b :: 0 <= a < b < |s.log| && s.log[a].Noted? && s.log[b].Noted? ==> s.log[a].at <= s.log[b].at
    ensures key in s.memory && s.memory[key].signature == s.log[i].signature && s.log[i].at <= s.memory[key].at
  {
    var last := FindLast(s.log, i, key);
    assert s.log[last].Noted?;
    var j :| LastAbout(s.log, j, key) && s.log[j].Noted? && s.memory[key] == Mark(s.log[j].signature, s.log[j].at);
    assert j == last;
  }

  lemma OfferedKeeps(s: State, subject: string, item: Item, cooldown: nat, enabled: bool, clock: int)
    requires Inv(s, cooldown, clock) && clock <= item.now
    ensures Inv(Offered(s, subject, item, cooldown, enabled), cooldown, item.now)
  {
    hide Spaced, Remembers, Distinct, KeyOf;
    var key := KeyOf(subject, item.id);
    if !Quiet(s, key, item.signature, item.now, cooldown) {
      NoticedKeeps(s, key, item.signature, item.now, enabled, cooldown, clock);
      var s' := Noticed(s, key, item.signature, item.now, enabled);
      if |s'.order| > MAX_SEEN { ForgottenKeeps(s', s'.order[0], cooldown, item.now); }
    }
  }

  predicate Timely(items: seq<Item>, clock: int)
  {
    && (forall i :: 0 <= i < |items| ==> clock <= items[i].now)
    && (forall i, j :: 0 <= i < j < |items| ==> items[i].now <= items[j].now)
  }

  function ClockAfter(items: seq<Item>, clock: int): int
  {
    if items == [] then clock else items[|items| - 1].now
  }

  lemma {:induction false} OfferedAllKeeps(s: State, subject: string, items: seq<Item>, cooldown: nat, enabled: bool,
                                           clock: int)
    requires Inv(s, cooldown, clock) && Timely(items, clock)
    ensures Inv(OfferedAll(s, subject, items, cooldown, enabled), cooldown, ClockAfter(items, clock))
  {
    hide Inv, Offered;
    if items != [] {
      var n := |items| - 1;
      OfferedAllKeeps(s, subject, items[..n], cooldown, enabled, clock);
      OfferedKeeps(OfferedAll(s, subject, items[..n], cooldown, enabled), subject, items[n], cooldown, enabled,
                   ClockAfter(items[..n], clock));
    }
  }

  lemma {:induction false} PrunedKeeps(s: State, order: seq<string>, n: nat, subject: string, current: set<string>,
                                       cooldown: nat, clock: int)
    requires n <= |order| && Inv(s, cooldown, clock)
    ensures Inv(Pruned(s, order, n, subject, current), cooldown, clock)
  {
    hide Spaced, Remembers, Distinct, UpTo, BelongsTo, Forgotten;
    if n > 0 {
      PrunedKeeps(s, order, n - 1, subject, current, cooldown, clock);
      ForgottenKeeps(Pruned(s, order, n - 1, subject, current), order[n - 1], cooldown, clock);
    }
  }

  lemma HandledKeeps(s: State, subject: string, items: seq<Item>, cooldown: nat, enabled: bool, clock: int)
    requires Inv(s, cooldown, clock) && Timely(items, clock)
    ensures Inv(Handled(s, subject, items, cooldown, enabled), cooldown, ClockAfter(items, clock))
  {
    hide Inv, Pruned, OfferedAll, CurrentKeys;
    var current := CurrentKeys(subject, items);
    PrunedKeeps(s, s.order, |s.order|, subject, current, cooldown, clock);
    OfferedAllKeeps(Pruned(s, s.order, |s.order|, subject, current), subject, items, cooldown, enabled, clock);
  }

  // ---------------------------------------------------------------- every run

  function ClockOf(snapshots: seq<Snapshot>, start: int): int
  {
    if snapshots == [] then start
    else ClockAfter(snapshots[|snapshots| - 1].items, ClockOf(snapshots[..|snapshots| - 1], start))
  }

  ghost predicate ClockRuns(snapshots: seq<Snapshot>, start: int)
  {
    forall k :: 0 <= k < |snapshots| ==> Timely(snapshots[k].items, ClockOf(snapshots[..k], start))
  }

  lemma {:induction false} RunKeeps(snapshots: seq<Snapshot>, cooldown: nat, start: int)
    requires ClockRuns(snapshots, start)
    ensures Inv(Run(snapshots, cooldown), cooldown, ClockOf(snapshots, start))
  {
    hide Inv, Handled, Timely, ClockAfter;
    if snapshots == [] {
      NothingYet(cooldown, start);
    } else {
      var n := |snapshots| - 1;
      forall k | 0 <= k < n ensures Timely(snapshots[..n][k].items, ClockOf(snapshots[..n][..k], start)) {
        assert snapshots[..n][..k] == snapshots[..k];
      }
      RunKeeps(snapshots[..n], cooldown, start);
      var last := snapshots[n];
      HandledKeeps(Run(snapshots[..n], cooldown), last.subject, last.items, cooldown, last.enabled,
                   ClockOf(snapshots[..n], start));
    }
  }

  lemma NothingYet(cooldown: nat, start: int)
    ensures Inv(INITIAL, cooldown, start)
  {
  }

  /** With a clock that does not run back, an item that was neither forgotten nor changed in between is
      noted again only after the cooldown. */
  lemma CooldownHolds(snapshots: seq<Snapshot>, cooldown: nat, start: int, i: int, j: int)
    requires ClockRuns(snapshots, start)
    requires var log := Run(snapshots, cooldown).log; Unbroken(log, i, j) && log[i].key == log[j].key
    ensures var log := Run(snapshots, cooldown).log; log[j].at - log[i].at >= cooldown
  {
    hide Run, ClockRuns;
    RunKeeps(snapshots, cooldown, start);
  }

  // ---------------------------------------------------------------- the memory is bounded

  /** The memory and its insertion order hold the same keys. */
  ghost predicate Listed(s: State)
  {
    Distinct(s.order) && forall key :: key in s.memory <==> key in s.order
  }

  lemma ForgottenListed(s: State, key: string)
    requires Listed(s)
    ensures Listed(Forgotten(s, key)) && |Forgotten(s, key).order| == |s.order| - (if key in s.order then 1 else 0)
  {
    WithoutKeeps(s.order, key);
  }

  lemma OfferedKeyListed(s: State, key: string, signature: string, now: int, cooldown: nat, enabled: bool)
    requires Listed(s) && |s.order| <= MAX_SEEN
    ensures var s' := OfferedKey(s, key, signature, now, cooldown, enabled); Listed(s') && |s'.order| <= MAX_SEEN
  {
    if !Quiet(s, key, signature, now, cooldown) {
      var s' := Noticed(s, key, signature, now, enabled);
      assert Listed(s');
      if |s'.order| > MAX_SEEN { ForgottenListed(s', s'.order[0]); }
    }
  }

  lemma {:induction false} OfferedAllListed(s: State, subject: string, items: seq<Item>, cooldown: nat, enabled: bool)
    requires Listed(s) && |s.order| <= MAX_SEEN
    ensures var s' := OfferedAll(s, subject, items, cooldown, enabled); Listed(s') && |s'.order| <= MAX_SEEN
  {
    hide Listed, OfferedKey, KeyOf;
    if items != [] {
      var n := |items| - 1;
      OfferedAllListed(s, subject, items[..n], cooldown, enabled);
      OfferedKeyListed(OfferedAll(s, subject, items[..n], cooldown, enabled), KeyOf(subject, items[n].id),
                       items[n].signature, items[n].now, cooldown, enabled);
    }
  }

  lemma {:induction false} PrunedListed(s: State, order: seq<string>, n: nat, subject: string, current: set<string>)
    requires n <= |order| && Listed(s) && |s.order| <= MAX_SEEN
    ensures var s' := Pruned(s, order, n, subject, current); Listed(s') && |s'.order| <= MAX_SEEN
  {
    hide Listed, Forgotten, BelongsTo;
    if n > 0 {
      PrunedListed(s, order, n - 1, subject, current);
      ForgottenListed(Pruned(s, order, n - 1, subject, current), order[n - 1]);
    }
  }

  lemma {:induction false} RunListed(snapshots: seq<Snapshot>, cooldown: nat)
    ensures var s := Run(snapshots, cooldown); Listed(s) && |s.order| <= MAX_SEEN
  {
    if snapshots != [] {
      var n := |snapshots| - 1;
      var s, last := Run(snapshots[..n], cooldown), snapshots[n];
      RunListed(snapshots[..n], cooldown);
      hide Listed, Pruned, OfferedAll, CurrentKeys;
      var current := CurrentKeys(last.subject, last.items);
      PrunedListed(s, s.order, |s.order|, last.subject, current);
      OfferedAllListed(Pruned(s, s.order, |s.order|, last.subject, current), last.subject, last.items, cooldown,
                       last.enabled);
    }
  }

  /** After any snapshots, whatever the clock did, at most 256 items are remembered. */
  lemma MemoryIsBounded(snapshots: seq<Snapshot>, cooldown: nat)
    ensures |Run(snapshots, cooldown).memory| <= 256
  {
    hide Run;
    RunListed(snapshots, cooldown);
    var s := Run(snapshots, cooldown);
    MemoryIsOrder(s.memory.Keys, s.order);
    assert |s.memory| == |s.memory.Keys|;
  }

  lemma {:induction false} MemoryIsOrder(keys: set<string>, order: seq<string>)
    requires Distinct(order) && forall k :: k in keys <==> k in order
    ensures |keys| == |order|
  {
    if order == [] {
      assert keys == {};
    } else {
      var n := |order| - 1;
      assert order == order[..n] + [order[n]];
      MemoryIsOrder(keys - {order[n]}, order[..n]);
    }
  }

  // ---------------------------------------------------------------- when an item is noted

  lemma ForgottenRemembers(s: State, key: string)
    requires forall k :: Remembers(s, k)
    ensures forall k :: Remembers(Forgotten(s, key), k)
  {
    hide LastAbout;
    forall k ensures Remembers(Forgotten(s, key), k) {
      LastAboutLater(s.log, Forgot(key), k);
      assert Remembers(s, k);
    }
  }

  lemma OfferedKeyRemembers(s: State, key: string, signature: string, now: int, cooldown: nat, enabled: bool)
    requires forall k :: Remembers(s, k)
    ensures forall k :: Remembers(OfferedKey(s, key, signature, now, cooldown, enabled), k)
  {
    hide LastAbout;
    if !Quiet(s, key, signature, now, cooldown) {
      var s' := Noticed(s, key, signature, now, enabled);
      forall k ensures Remembers(s', k) {
        LastAboutLater(s.log, Noted(key, signature, now, enabled), k);
        assert Remembers(s, k);
      }
      if |s'.order| > MAX_SEEN { ForgottenRemembers(s', s'.order[0]); }
    }
  }

  lemma {:induction false} OfferedAllRemembers(s: State, subject: string, items: seq<Item>, cooldown: nat,
                                               enabled: bool)
    requires forall k :: Remembers(s, k)
    ensures forall k :: Remembers(OfferedAll(s, subject, items, cooldown, enabled), k)
  {
    hide Remembers, OfferedKey, KeyOf;
    if items != [] {
      var n := |items| - 1;
      OfferedAllRemembers(s, subject, items[..n], cooldown, enabled);
      OfferedKeyRemembers(OfferedAll(s, subject, items[..n], cooldown, enabled), KeyOf(subject, items[n].id),
                          items[n].signature, items[n].now, cooldown, enabled);
    }
  }

  lemma {:induction false} PrunedRemembers(s: State, order: seq<string>, n: nat, subject: string, current: set<string>)
    requires n <= |order| && forall k :: Remembers(s, k)
    ensures forall k :: Remembers(Pruned(s, order, n, subject, current), k)
  {
    hide Remembers, Forgotten, BelongsTo;
    if n > 0 {
      PrunedRemembers(s, order, n - 1, subject, current);
      ForgottenRemembers(Pruned(s, order, n - 1, subject, current), order[n - 1]);
    }
  }

  /** The memory is the history's last word on every key, after any snapshots and whatever the clock did. */
  lemma {:induction false} RunRemembers(snapshots: seq<Snapshot>, cooldown: nat)
    ensures forall k :: Remembers(Run(snapshots, cooldown), k)
  {
    if snapshots != [] {
      var n := |snapshots| - 1;
      var s, last := Run(snapshots[..n], cooldown), snapshots[n];
      RunRemembers(snapshots[..n], cooldown);
      hide Remembers, Pruned, OfferedAll, CurrentKeys;
      var current := CurrentKeys(last.subject, last.items);
      PrunedRemembers(s, s.order, |s.order|, last.subject, current);
      OfferedAllRemembers(Pruned(s, s.order, |s.order|, last.subject, current), last.subject, last.items, cooldown,
                          last.enabled);
    }
  }

  /** An item that is offered is noted if and only if its last entry is not one with the same signature and
      less than the cooldown old: it is new, was forgotten, has changed, or its time has come. */
  lemma NotedExactly(s: State, subject: string, item: Item, cooldown: nat, enabled: bool)
    requires forall k :: Remembers(s, k)
    ensures var s' := Offered(s, subject, item, cooldown, enabled);
            var key := subject + ":" + item.id;
            var quiet := exists i :: LastAbout(s.log, i, key) && s.log[i].Noted? && s.log[i].signature == item.signature
                                     && item.now - s.log[i].at < cooldown;
            && (quiet ==> s' == s)
            && (!quiet ==> |s'.log| > |s.log| && s'.log[..|s.log|] == s.log
                           && s'.log[|s.log|] == Noted(key, item.signature, item.now, enabled))
  {
    hide LastAbout;
    var key := KeyOf(subject, item.id);
    assert Remembers(s, key);
    LastIsOne(s.log, key);
  }

  lemma LastIsOne(log: seq<Entry>, key: string)
    ensures forall i, j :: LastAbout(log, i, key) && LastAbout(log, j, key) ==> i == j
    ensures forall i :: LastAbout(log, i, key) ==> 0 <= i < |log|
  {
    forall i, j | LastAbout(log, i, key) && LastAbout(log, j, key) ensures i == j {
      assert About(log, i, key) && About(log, j, key);
    }
  }

  /** For subjects without a colon these are the items of that subject. */
  lemma OwnItems(subject: string, other: string, id: string)
    requires ':' !in subject && ':' !in other
    ensures BelongsTo(KeyOf(other, id), subject) <==> other == subject
  {
    var key := KeyOf(other, id);
    assert forall i :: 0 <= i < |other| ==> key[i] == other[i];
    assert key[|other|] == ':';
    if subject + ":" <= key {
      assert key[|subject|] == (subject + ":")[|subject|] == ':';
      assert forall i :: 0 <= i < |subject| ==> key[i] == (subject + ":")[i] == subject[i];
      assert |subject| == |other|;
    }
    assert other == subject ==> key == (subject + ":") + id;
  }

  /** A snapshot forgets exactly the items of its subject that it no longer has. */
  lemma {:induction false} PrunedExactly(s: State, order: seq<string>, n: nat, subject: string, current: set<string>)
    requires n <= |order|
    ensures var s' := Pruned(s, order, n, subject, current);
            forall key :: key in s'.memory <==>
                          key in s.memory && !(subject + ":" <= key && key !in current && key in order[..n])
    ensures forall key :: key in Pruned(s, order, n, subject, current).memory ==>
              Pruned(s, order, n, subject, current).memory[key] == s.memory[key]
  {
    if n > 0 {
      PrunedExactly(s, order, n - 1, subject, current);
      assert order[..n] == order[..n - 1] + [order[n - 1]];
    }
  }

  /** When the memory is full, a new item takes the place of the one that has been there longest. */
  lemma OldestGoes(s: State, key: string, signature: string, now: int, cooldown: nat, enabled: bool)
    requires Listed(s) && |s.order| == 256 && key !in s.memory
    ensures var s' := OfferedKey(s, key, signature, now, cooldown, enabled);
            && s'.order == s.order[1..] + [key]
            && s'.memory == (s.memory - {s.order[0]})[key := Mark(signature, now)]
  {
    var all := s.order + [key];
    assert all[0] == s.order[0] && all[1..] == s.order[1..] + [key];
    assert all[0] !in all[1..];
    NothingToDrop(all[1..], all[0]);
  }

  lemma {:induction false} NothingToDrop(order: seq<string>, key: string)
    requires key !in order
    ensures Without(order, key) == order
  {
    if order != [] { NothingToDrop(order[1..], key); }
  }

  // ---------------------------------------------------------------- the code

  /** The keys for which a notification was shown. */
  function ShownIn(log: seq<Entry>): seq<string>
  {
    if log == [] then []
    else
      var entry := log[|log| - 1];
      ShownIn(log[..|log| - 1]) + (if entry.Noted? && entry.shown then [entry.key] else [])
  }

  lemma OneMoreEntry(log: seq<Entry>, entry: Entry)
    ensures ShownIn(log + [entry]) == ShownIn(log) + (if entry.Noted? && entry.shown then [entry.key] else [])
  {
    assert (log + [entry])[..|log|] == log;
  }

  class NotificationService {
    const cooldownMs: nat
    var enabled: bool
    var seen: map<string, Mark>
    var order: seq<string>
    ghost var log: seq<Entry>

    constructor (cooldownMs: nat, enabled: bool)
      ensures Now() == INITIAL && this.cooldownMs == cooldownMs && this.enabled == enabled
    {
      this.cooldownMs, this.enabled := cooldownMs, enabled;
      seen, order, log := map[], [], [];
    }

    ghost function Now(): State
      reads this
    {
      State(seen, order, log)
    }

    method Forget(key: string)
      modifies this`seen, this`order, this`log
      ensures Now() == Forgotten(old(Now()), key) && ShownIn(log) == ShownIn(old(log))
    {
      OneMoreEntry(log, Forgot(key));
      seen := seen - {key};
      order := Without(order, key);
      log := log + [Forgot(key)];
    }

    method Prune(subject: string, current: set<string>)
      modifies this`seen, this`order, this`log
      ensures Now() == Pruned(old(Now()), old(order), |old(order)|, subject, current)
      ensures ShownIn(log) == ShownIn(old(log))
    {
      var before := order;
      for i := 0 to |before|
        invariant Now() == Pruned(old(Now()), before, i, subject, current) && ShownIn(log) == ShownIn(old(log))
      {
        if BelongsTo(before[i], subject) && before[i] !in current { Forget(before[i]); }
      }
    }

    /** Whether the item gets past the cooldown, and whether a notification is shown for it. */
    method Offer(key: string, signature: string, now: int) returns (shown: bool)
      modifies this`seen, this`order, this`log
      ensures Now() == OfferedKey(old(Now()), key, signature, now, cooldownMs, enabled)
      ensures ShownIn(log) == ShownIn(old(log)) + (if shown then [key] else [])
      ensures shown <==> enabled && !Quiet(old(Now()), key, signature, now, cooldownMs)
    {
      if key in seen && seen[key].signature == signature && now - seen[key].at < cooldownMs { return false; }
      if key !in seen { order := order + [key]; }
      seen := seen[key := Mark(signature, now)];
      OneMoreEntry(log, Noted(key, signature, now, enabled));
      log := log + [Noted(key, signature, now, enabled)];
      if |order| > MAX_SEEN { Forget(order[0]); }
      return enabled;
    }

    /** Returns the keys for which a notification is shown. */
    method HandleSnapshot(subject: string, items: seq<Item>) returns (shown: seq<string>)
      modifies this`seen, this`order, this`log
      ensures Now() == Handled(old(Now()), subject, items, cooldownMs, enabled)
      ensures ShownIn(log) == ShownIn(old(log)) + shown
    {
      hide Pruned, OfferedKey, Quiet, ShownIn, KeyOf;
      Prune(subject, CurrentKeys(subject, items));
      ghost var pruned := Now();
      shown := [];
      for i := 0 to |items|
        invariant Now() == OfferedAll(pruned, subject, items[..i], cooldownMs, enabled)
        invariant ShownIn(log) == ShownIn(old(log)) + shown
      {
        assert items[..i + 1][..i] == items[..i];
        var key := KeyOf(subject, items[i].id);
        var now := Offer(key, items[i].signature, items[i].now);
        if now { shown := shown + [key]; }
      }
      assert items[..|items|] == items;
    }
  }
}
