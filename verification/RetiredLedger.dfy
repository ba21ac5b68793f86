/**
 The bounded ledger of tombstones: what remains known about the control
 operations of actors that have been fenced, removed or retired.
 */
module RetiredLedger {
  import opened Common
  import opened ControlRegistry

  const RETIRED_CAPACITY: nat := 4_096

  datatype Key = Key(threadId: string, id: OpId)

  datatype Ledger = Ledger(capacity: nat, entries: map<Key, Status>, order: seq<Key>)

  function NewLedger(capacity: nat): Ledger { Ledger(Max(capacity, 1), map[], []) }

  ghost predicate Consistent(l: Ledger) {
    && 1 <= l.capacity
    && NoDup(l.order)
    && (forall k :: k in l.order <==> k in l.entries)
    && |l.entries| <= l.capacity
  }

  /** Tombstones are dropped oldest first until there is a free place. */
  function DropOldest(l: Ledger): Ledger
    decreases |l.order|
  {
    if |l.entries| < l.capacity || l.order == [] then l
    else DropOldest(l.(entries := l.entries - {l.order[0]}, order := l.order[1..]))
  }

  /** A tombstone that is already present only leaves the order before the eviction. */
  function Unlisted(l: Ledger, key: Key): Ledger {
    if key in l.entries then l.(order := Without(l.order, key)) else l
  }

  function RecordOne(l: Ledger, key: Key, status: Status): Ledger {
    var room := DropOldest(Unlisted(l, key));
    room.(entries := room.entries[key := status], order := room.order + [key])
  }

  function Record(l: Ledger, threadId: string, snapshot: seq<(OpId, Status)>): Ledger
    decreases |snapshot|
  {
    if snapshot == [] then l
    else
      var last := |snapshot| - 1;
      RecordOne(Record(l, threadId, snapshot[..last]), Key(threadId, snapshot[last].0), snapshot[last].1)
  }

  class RetiredControlOperationRegistry {
    const capacity: nat
    var entries: map<Key, Status>
    var order: seq<Key>

    function View(): Ledger
      reads this
    {
      Ledger(capacity, entries, order)
    }

    constructor (capacity: nat)
      ensures View() == NewLedger(capacity) && Consistent(View())
    {
      this.capacity := Max(capacity, 1);
      this.entries := map[];
      this.order := [];
    }

    method RecordSnapshot(threadId: string, snapshot: seq<(OpId, Status)>)
      modifies this
      ensures View() == Record(old(View()), threadId, snapshot)
    {
      var i := 0;
      while i < |snapshot|
        invariant 0 <= i <= |snapshot|
        invariant View() == Record(old(View()), threadId, snapshot[..i])
      {
        var key := Key(threadId, snapshot[i].0);
        ghost var before := View();
        if key in entries {
          order := Without(order, key);
        }
        ghost var unlisted := View();
        while |entries| >= capacity && order != []
          invariant DropOldest(View()) == DropOldest(unlisted)
          decreases |order|
        {
          entries := entries - {order[0]};
          order := order[1..];
        }
        order := order + [key];
        entries := entries[key := snapshot[i].1];
        assert View() == RecordOne(before, key, snapshot[i].1);
        assert snapshot[..i + 1][..i] == snapshot[..i];
        i := i + 1;
      }
      assert snapshot[..i] == snapshot;
    }

    method StatusOf(threadId: string, id: OpId) returns (status: Option<Status>)
      ensures status == if Key(threadId, id) in entries then Some(entries[Key(threadId, id)]) else None
    {
      var key := Key(threadId, id);
      if key in entries { return Some(entries[key]); }
      return None;
    }
  }

  // ------------------------------------------------------------------ what recording does

  /** One recording on a consistent ledger: the oldest other tombstone makes room when full. */
  ghost predicate RecordedOne(l: Ledger, r: Ledger, key: Key, status: Status) {
    var rest := Without(l.order, key);
    && r.capacity == l.capacity
    && if |l.entries| < l.capacity || rest == []
       then r.entries == l.entries[key := status] && r.order == rest + [key]
       else r.entries == (l.entries - {rest[0]})[key := status] && r.order == rest[1..] + [key]
  }

  lemma DropsOne(l: Ledger)
    requires |l.entries| == l.capacity && l.order != [] && l.order[0] in l.entries
    ensures DropOldest(l) == l.(entries := l.entries - {l.order[0]}, order := l.order[1..])
  {
    var v := l.(entries := l.entries - {l.order[0]}, order := l.order[1..]);
    assert v.entries.Keys == l.entries.Keys - {l.order[0]};
    assert |v.entries| < v.capacity;
    assert DropOldest(v) == v;
  }

  lemma RecordOneShape(l: Ledger, key: Key, status: Status)
    requires Consistent(l)
    ensures RecordedOne(l, RecordOne(l, key, status), key, status)
  {
    hide Without, NoDup;
    var u := Unlisted(l, key);
    assert u == l.(order := Without(l.order, key));
    if |l.entries| >= l.capacity && u.order != [] {
      hide DropOldest;
      assert u.order[0] in u.order;
      DropsOne(u);
    }
  }

  lemma LedgerCounts(l: Ledger)
    requires Consistent(l)
    ensures |l.order| == |l.entries|
  {
    NoDupCardinality(l.order, l.entries.Keys);
  }

  lemma RecordOneKeepsConsistent(l: Ledger, key: Key, status: Status)
    requires Consistent(l)
    ensures Consistent(RecordOne(l, key, status))
  {
    hide RecordOne, Without, NoDup;
    RecordOneShape(l, key, status);
    if |l.entries| < l.capacity || Without(l.order, key) == [] {
      GrowingKeepsConsistent(l, RecordOne(l, key, status), key, status);
    } else {
      EvictingKeepsConsistent(l, RecordOne(l, key, status), key, status);
    }
  }

  lemma GrowingKeepsConsistent(l: Ledger, r: Ledger, key: Key, status: Status)
    requires Consistent(l) && RecordedOne(l, r, key, status)
    requires |l.entries| < l.capacity || Without(l.order, key) == []
    ensures Consistent(r)
  {
    hide Without, NoDup;
    LedgerCounts(l);
    WithoutNoDup(l.order, key);
    var rest := Without(l.order, key);
    assert forall k :: k in r.order <==> k in rest || k == key;
    assert r.entries.Keys == l.entries.Keys + {key};
    if rest == [] {
      assert l.entries.Keys + {key} == {key};
    }
    AppendNoDup(rest, key);
  }

  lemma EvictingKeepsConsistent(l: Ledger, r: Ledger, key: Key, status: Status)
    requires Consistent(l) && RecordedOne(l, r, key, status)
    requires |l.entries| >= l.capacity && Without(l.order, key) != []
    ensures Consistent(r)
  {
    hide Without, NoDup;
    LedgerCounts(l);
    WithoutNoDup(l.order, key);
    var rest := Without(l.order, key);
    var v := rest[0];
    assert v in rest;
    assert forall k :: k in rest <==> k == v || k in rest[1..];
    TailNoDup(rest);
    assert forall k :: k in r.order <==> k in rest[1..] || k == key;
    assert r.entries.Keys == l.entries.Keys - {v} + {key};
    AppendNoDup(rest[1..], key);
  }

  lemma TailNoDup(xs: seq<Key>)
    requires NoDup(xs) && xs != []
    ensures NoDup(xs[1..]) && xs[0] !in xs[1..]
  {
  }

  lemma AppendNoDup(xs: seq<Key>, x: Key)
    requires NoDup(xs) && x !in xs
    ensures NoDup(xs + [x])
  {
  }

  lemma {:induction false} RecordKeepsConsistent(l: Ledger, threadId: string, snapshot: seq<(OpId, Status)>)
    requires Consistent(l)
    ensures Consistent(Record(l, threadId, snapshot))
    ensures Record(l, threadId, snapshot).capacity == l.capacity
    decreases |snapshot|
  {
    hide Consistent, RecordOne;
    if snapshot != [] {
      var last := |snapshot| - 1;
      var prefix := Record(l, threadId, snapshot[..last]);
      RecordKeepsConsistent(l, threadId, snapshot[..last]);
      RecordOneKeepsConsistent(prefix, Key(threadId, snapshot[last].0), snapshot[last].1);
      RecordOneShape(prefix, Key(threadId, snapshot[last].0), snapshot[last].1);
    }
  }

  // -------------------------------------------------------------- what recording leaves alone

  /** The listed tombstones other than those of some keys, oldest first. */
  function Others(order: seq<Key>, keys: seq<Key>): seq<Key> {
    if order == [] then [] else (if order[0] in keys then [] else [order[0]]) + Others(order[1..], keys)
  }

  predicate IsSuffix(xs: seq<Key>, ys: seq<Key>) { |xs| <= |ys| && xs == ys[|ys| - |xs|..] }

  lemma {:induction false} OthersAppend(order: seq<Key>, key: Key, keys: seq<Key>)
    requires key in keys
    ensures Others(order + [key], keys) == Others(order, keys)
  {
    if order == [] {
      assert order + [key] == [key] && [key][1..] == [];
    } else {
      OthersAppend(order[1..], key, keys);
      assert (order + [key])[1..] == order[1..] + [key];
    }
  }

  lemma {:induction false} OthersWithout(order: seq<Key>, key: Key, keys: seq<Key>)
    requires key in keys
    ensures Others(Without(order, key), keys) == Others(order, keys)
  {
    if order != [] {
      OthersWithout(order[1..], key, keys);
      WithoutHead(order, key);
      var rest := Without(order[1..], key);
      if order[0] == key {
        assert Without(order, key) == rest;
      } else {
        assert Without(order, key) == [order[0]] + rest && ([order[0]] + rest)[1..] == rest;
      }
    }
  }

  lemma OneOthersOnlyAge(l: Ledger, key: Key, status: Status, keys: seq<Key>)
    requires Consistent(l) && key in keys
    ensures var r := RecordOne(l, key, status);
      && (forall k :: k in r.entries && k !in keys ==> k in l.entries && r.entries[k] == l.entries[k])
      && IsSuffix(Others(r.order, keys), Others(l.order, keys))
  {
    hide RecordOne, Consistent, Without;
    RecordOneShape(l, key, status);
    OthersWithout(l.order, key, keys);
    var rest := Without(l.order, key);
    OthersAppend(rest, key, keys);
    if rest != [] {
      OthersAppend(rest[1..], key, keys);
    }
  }

  /** Recording a snapshot leaves every other tombstone as it was, and drops those oldest first. */
  lemma {:induction false} OthersOnlyAge(l: Ledger, threadId: string, snapshot: seq<(OpId, Status)>, keys: seq<Key>)
    requires Consistent(l)
    requires forall i :: 0 <= i < |snapshot| ==> Key(threadId, snapshot[i].0) in keys
    ensures var r := Record(l, threadId, snapshot);
      && (forall k :: k in r.entries && k !in keys ==> k in l.entries && r.entries[k] == l.entries[k])
      && IsSuffix(Others(r.order, keys), Others(l.order, keys))
    decreases |snapshot|
  {
    hide RecordOne, Consistent, Others;
    if snapshot != [] {
      var last := |snapshot| - 1;
      var prefix := Record(l, threadId, snapshot[..last]);
      OthersOnlyAge(l, threadId, snapshot[..last], keys);
      RecordKeepsConsistent(l, threadId, snapshot[..last]);
      OneOthersOnlyAge(prefix, Key(threadId, snapshot[last].0), snapshot[last].1, keys);
    }
  }

  // ------------------------------------------------- which snapshots survive their own recording

  function Keys(threadId: string, snapshot: seq<(OpId, Status)>): (r: seq<Key>)
    ensures |r| == |snapshot| && forall i :: 0 <= i < |r| ==> r[i] == Key(threadId, snapshot[i].0)
  {
    seq(|snapshot|, i requires 0 <= i < |snapshot| => Key(threadId, snapshot[i].0))
  }

  ghost predicate DistinctIds(snapshot: seq<(OpId, Status)>) {
    forall i, j :: 0 <= i < j < |snapshot| ==> snapshot[i].0 != snapshot[j].0
  }

  ghost predicate Holds(l: Ledger, threadId: string, snapshot: seq<(OpId, Status)>) {
    forall i :: 0 <= i < |snapshot| ==>
      Key(threadId, snapshot[i].0) in l.entries && l.entries[Key(threadId, snapshot[i].0)] == snapshot[i].1
  }

  /** The recorded tombstones are the newest ones, in recording order. */
  ghost predicate Newest(l: Ledger, keys: seq<Key>) {
    |keys| <= |l.order| && l.order[|l.order| - |keys|..] == keys
  }

  /** Recording one more key cannot push out the newest ones if an older one can go instead. */
  lemma RecordOneExtends(l: Ledger, keys: seq<Key>, key: Key, status: Status)
    requires Consistent(l) && Newest(l, keys) && key !in keys
    requires |keys| + 1 < l.capacity || (key !in l.entries && |keys| < l.capacity)
    ensures Newest(RecordOne(l, key, status), keys + [key])
    ensures key in RecordOne(l, key, status).entries && RecordOne(l, key, status).entries[key] == status
    ensures forall k :: k in keys ==> k in RecordOne(l, key, status).entries && RecordOne(l, key, status).entries[k] == l.entries[k]
  {
    hide RecordOne, Without, NoDup, Newest, Consistent;
    SplitNewest(l, keys);
    var older := l.order[..|l.order| - |keys|];
    RecordOneShape(l, key, status);
    WithoutConcat(older, keys, key);
    var r := RecordOne(l, key, status);
    var spare := Without(older, key);
    var rest := Without(l.order, key);
    assert rest == spare + keys;
    if |l.entries| < l.capacity || rest == [] {
      assert r.order == spare + (keys + [key]);
      JoinNewest(r, spare, keys + [key]);
    } else {
      FitsCapacity(l);
      SpareIsOlder(l, older, keys, key);
      assert rest[0] == spare[0];
      assert rest[1..] == spare[1..] + keys;
      assert r.order == spare[1..] + (keys + [key]);
      JoinNewest(r, spare[1..], keys + [key]);
    }
  }

  lemma FitsCapacity(l: Ledger)
    requires Consistent(l)
    ensures 1 <= l.capacity && |l.entries| <= l.capacity
  {
  }

  lemma SplitNewest(l: Ledger, keys: seq<Key>)
    requires Consistent(l) && Newest(l, keys)
    ensures |keys| <= |l.order| && l.order == l.order[..|l.order| - |keys|] + keys
    ensures forall k :: k in keys ==> k in l.entries
  {
    assert forall k :: k in keys ==> k in l.order;
  }

  lemma JoinNewest(l: Ledger, older: seq<Key>, keys: seq<Key>)
    requires l.order == older + keys
    ensures Newest(l, keys)
  {
  }

  lemma PartsDisjoint(a: seq<Key>, b: seq<Key>)
    requires NoDup(a + b)
    ensures NoDup(a)
    ensures forall x :: x in a ==> x !in b
  {
    var ab := a + b;
    assert forall i :: 0 <= i < |a| ==> ab[i] == a[i];
    forall i, j | 0 <= i < |a| && 0 <= j < |b|
      ensures a[i] != b[j]
    {
      assert ab[|a| + j] == b[j];
    }
  }

  /** In a full ledger there is an older tombstone to sacrifice. */
  lemma SpareIsOlder(l: Ledger, older: seq<Key>, keys: seq<Key>, key: Key)
    requires Consistent(l) && l.order == older + keys && key !in keys && |l.entries| == l.capacity
    requires |keys| + 1 < l.capacity || (key !in l.entries && |keys| < l.capacity)
    ensures Without(older, key) != [] && Without(older, key)[0] !in keys
  {
    hide NoDup;
    LedgerCounts(l);
    PartsDisjoint(older, keys);
    var spare := Without(older, key);
    assert forall k :: k in l.order <==> k in older || k in keys;
    if key in l.entries {
      var i :| 0 <= i < |older| && older[i] == key;
      WithoutAt(older, i);
    }
    assert spare[0] in spare;
  }

  lemma NothingWithout(x: Key)
    ensures Without([], x) == []
  {
  }

  lemma WithoutHead(xs: seq<Key>, x: Key)
    requires xs != []
    ensures Without(xs, x) == (if xs[0] == x then [] else [xs[0]]) + Without(xs[1..], x)
  {
  }

  lemma {:induction false} WithoutConcat(a: seq<Key>, b: seq<Key>, x: Key)
    requires x !in b
    ensures Without(a + b, x) == Without(a, x) + b
  {
    hide Without;
    if a == [] {
      assert Without(a, x) == [] by { NothingWithout(x); }
      assert a + b == b;
    } else {
      WithoutConcat(a[1..], b, x);
      var head := if a[0] == x then [] else [a[0]];
      assert (a + b)[1..] == a[1..] + b && (a + b)[0] == a[0];
      WithoutHead(a + b, x);
      WithoutHead(a, x);
      assert head + (Without(a[1..], x) + b) == (head + Without(a[1..], x)) + b;
    }
  }

  /** A snapshot of distinct operations, smaller than the ledger, is never evicted by its own recording. */
  lemma {:induction false} SmallSnapshotSurvives(l: Ledger, threadId: string, snapshot: seq<(OpId, Status)>)
    requires Consistent(l) && DistinctIds(snapshot) && |snapshot| < l.capacity
    ensures Holds(Record(l, threadId, snapshot), threadId, snapshot)
    ensures Newest(Record(l, threadId, snapshot), Keys(threadId, snapshot))
    decreases |snapshot|
  {
    if snapshot == [] {
      assert l.order[|l.order|..] == [];
    } else {
      var last := |snapshot| - 1;
      var head := snapshot[..last];
      SmallSnapshotSurvives(l, threadId, head);
      RecordKeepsConsistent(l, threadId, head);
      ExtendSnapshot(Record(l, threadId, head), threadId, snapshot);
    }
  }

  /** Appending the last item of a snapshot to a ledger that already holds the others. */
  lemma ExtendSnapshot(l: Ledger, threadId: string, snapshot: seq<(OpId, Status)>)
    requires Consistent(l) && DistinctIds(snapshot) && snapshot != []
    requires Holds(l, threadId, snapshot[..|snapshot| - 1])
    requires Newest(l, Keys(threadId, snapshot[..|snapshot| - 1]))
    requires |snapshot| < l.capacity || (|snapshot| == l.capacity && Key(threadId, snapshot[|snapshot| - 1].0) !in l.entries)
    ensures var last := snapshot[|snapshot| - 1];
      var r := RecordOne(l, Key(threadId, last.0), last.1);
      Holds(r, threadId, snapshot) && Newest(r, Keys(threadId, snapshot))
  {
    hide RecordOne, Consistent;
    var n := |snapshot| - 1;
    var head := snapshot[..n];
    var key := Key(threadId, snapshot[n].0);
    assert key !in Keys(threadId, head);
    RecordOneExtends(l, Keys(threadId, head), key, snapshot[n].1);
    assert Keys(threadId, snapshot) == Keys(threadId, head) + [key];
    var r := RecordOne(l, key, snapshot[n].1);
    forall i | 0 <= i < |snapshot|
      ensures Key(threadId, snapshot[i].0) in r.entries && r.entries[Key(threadId, snapshot[i].0)] == snapshot[i].1
    {
      if i < n {
        assert head[i] == snapshot[i];
        assert Keys(threadId, head)[i] in Keys(threadId, head);
      }
    }
  }

  /** Exactly which snapshots of distinct operations survive their own recording: those smaller
      than the ledger, a single operation, and one that fills the ledger exactly provided that
      its last operation has no tombstone by the time it is recorded. */
  lemma SnapshotSurvivesExactly(l: Ledger, threadId: string, snapshot: seq<(OpId, Status)>)
    requires Consistent(l) && DistinctIds(snapshot)
    ensures Holds(Record(l, threadId, snapshot), threadId, snapshot) <==>
      || |snapshot| < l.capacity
      || |snapshot| == 1
      || (|snapshot| == l.capacity
          && Key(threadId, snapshot[|snapshot| - 1].0) !in Record(l, threadId, snapshot[..|snapshot| - 1]).entries)
  {
    hide RecordOne, NoDup;
    if |snapshot| < l.capacity {
      SmallSnapshotSurvives(l, threadId, snapshot);
    } else if |snapshot| == l.capacity {
      var last := |snapshot| - 1;
      var head := snapshot[..last];
      var key := Key(threadId, snapshot[last].0);
      var before := Record(l, threadId, head);
      if 0 < last { SmallSnapshotSurvives(l, threadId, head); } else { assert before == l; }
      RecordKeepsConsistent(l, threadId, head);
      if last == 0 {
        RecordOneShape(before, key, snapshot[last].1);
      } else if key !in before.entries {
        ExtendSnapshot(before, threadId, snapshot);
      } else {
        LosesFirst(before, threadId, snapshot);
      }
    } else {
      RecordKeepsConsistent(l, threadId, snapshot);
      TooManyToHold(Record(l, threadId, snapshot), threadId, snapshot);
    }
  }

  /** Operations without a tombstone so far all get one exactly when they fit in the ledger. */
  lemma FreshSnapshotSurvivesExactly(l: Ledger, threadId: string, snapshot: seq<(OpId, Status)>)
    requires Consistent(l) && DistinctIds(snapshot)
    requires forall k :: k in Keys(threadId, snapshot) ==> k !in l.entries
    ensures Holds(Record(l, threadId, snapshot), threadId, snapshot) <==> |snapshot| <= l.capacity
  {
    hide Record, RecordOne, NoDup, Holds, Consistent;
    SnapshotSurvivesExactly(l, threadId, snapshot);
    CapacityIsPositive(l);
    if snapshot != [] {
      var last := |snapshot| - 1;
      var head, all := snapshot[..last], Keys(threadId, snapshot);
      var key := all[last];
      assert key in all && key !in Keys(threadId, head);
      OthersOnlyAge(l, threadId, head, Keys(threadId, head));
    }
  }

  lemma CapacityIsPositive(l: Ledger)
    requires Consistent(l)
    ensures 1 <= l.capacity
  {
  }

  /** Refreshing the last operation of a snapshot that fills the ledger drops its first one. */
  lemma LosesFirst(l: Ledger, threadId: string, snapshot: seq<(OpId, Status)>)
    requires Consistent(l) && DistinctIds(snapshot) && |snapshot| == l.capacity && 2 <= l.capacity
    requires Newest(l, Keys(threadId, snapshot[..|snapshot| - 1]))
    requires Key(threadId, snapshot[|snapshot| - 1].0) in l.entries
    ensures var last := snapshot[|snapshot| - 1];
      Key(threadId, snapshot[0].0) !in RecordOne(l, Key(threadId, last.0), last.1).entries
  {
    hide RecordOne, NoDup, Newest;
    var n := |snapshot| - 1;
    var keys := Keys(threadId, snapshot[..n]);
    var key := Key(threadId, snapshot[n].0);
    SplitNewest(l, keys);
    var older := l.order[..|l.order| - |keys|];
    LedgerCounts(l);
    assert key !in keys;
    assert key in l.order && (forall k :: k in l.order <==> k in older || k in keys);
    assert older == [key];
    assert Without(older, key) == [];
    WithoutConcat(older, keys, key);
    assert Without(l.order, key) == keys;
    RecordOneShape(l, key, snapshot[n].1);
  }

  lemma TooManyToHold(l: Ledger, threadId: string, snapshot: seq<(OpId, Status)>)
    requires Consistent(l) && DistinctIds(snapshot) && l.capacity < |snapshot|
    ensures !Holds(l, threadId, snapshot)
  {
    var keys := Keys(threadId, snapshot);
    var s := set k | k in keys;
    NoDupCardinality(keys, s);
    if s <= l.entries.Keys { SubsetSize(s, l.entries.Keys); }
  }

  lemma FillThree(ka: Key, kb: Key, kc: Key, s: Status)
    requires ka != kb && kb != kc && ka != kc
    ensures var l := RecordOne(RecordOne(RecordOne(NewLedger(3), ka, s), kb, s), kc, s);
      Consistent(l) && l.capacity == 3 && l.order == [ka, kb, kc]
  {
    hide RecordOne, NoDup, Consistent, Without;
    EmptyConsistent();
    var l1 := Recorded(NewLedger(3), ka, s);
    assert l1.order == [ka];
    var l2 := Recorded(l1, kb, s);
    assert l2.order == [ka, kb];
    var l3 := Recorded(l2, kc, s);
    assert l3.order == [ka, kb, kc];
  }

  lemma RefreshThree(l: Ledger, ka: Key, kb: Key, kc: Key, s: Status)
    requires ka != kb && kb != kc && ka != kc
    requires Consistent(l) && l.capacity == 3 && l.order == [ka, kb, kc]
    ensures ka !in RecordOne(RecordOne(RecordOne(l, ka, s), kb, s), kc, s).entries
  {
    hide RecordOne, NoDup, Consistent, Without;
    LedgerCounts(l);
    assert l.order == [ka] + [kb, kc];
    DropHead(ka, [kb, kc]);
    var l4 := Recorded(l, ka, s);
    assert l4.order == [kc, ka];
    var l5 := Recorded(l4, kb, s);
    assert kb !in l4.order;
    assert l5.order == [kc, ka, kb];
    assert l5.order == [kc] + [ka, kb];
    DropHead(kc, [ka, kb]);
    var l6 := Recorded(l5, kc, s);
  }

  lemma DropHead(k: Key, rest: seq<Key>)
    requires k !in rest
    ensures Without([k] + rest, k) == rest
  {
  }

  /** Recording the same three operations twice in a ledger of three loses the first one. */
  lemma RefreshCanLoseTombstone(a: OpId, b: OpId, c: OpId, s: Status)
    requires a != b && b != c && a != c
    ensures var snapshot := [(a, s), (b, s), (c, s)];
      Key("t", a) !in Record(Record(NewLedger(3), "t", snapshot), "t", snapshot).entries
  {
    hide RecordOne, Record;
    var snapshot := [(a, s), (b, s), (c, s)];
    ThreeSteps(NewLedger(3), snapshot);
    FillThree(Key("t", a), Key("t", b), Key("t", c), s);
    var l := Record(NewLedger(3), "t", snapshot);
    ThreeSteps(l, snapshot);
    RefreshThree(l, Key("t", a), Key("t", b), Key("t", c), s);
  }

  lemma EmptyConsistent()
    ensures Consistent(NewLedger(3))
  {
  }

  lemma Recorded(l: Ledger, key: Key, s: Status) returns (r: Ledger)
    requires Consistent(l)
    ensures r == RecordOne(l, key, s) && Consistent(r) && RecordedOne(l, r, key, s) && |r.entries| == |r.order|
  {
    r := RecordOne(l, key, s);
    RecordOneKeepsConsistent(l, key, s);
    RecordOneShape(l, key, s);
    LedgerCounts(r);
  }

  lemma ThreeSteps(l: Ledger, snapshot: seq<(OpId, Status)>)
    requires |snapshot| == 3
    ensures Record(l, "t", snapshot) == RecordOne(RecordOne(RecordOne(l, Key("t", snapshot[0].0), snapshot[0].1),
                                          Key("t", snapshot[1].0), snapshot[1].1), Key("t", snapshot[2].0), snapshot[2].1)
  {
    hide RecordOne;
    var two := snapshot[..2];
    var one := two[..1];
    assert two[1] == snapshot[1] && one[0] == snapshot[0] && one[..0] == [];
    assert Record(l, "t", []) == l;
    assert Record(l, "t", one) == RecordOne(l, Key("t", snapshot[0].0), snapshot[0].1);
    assert Record(l, "t", two) == RecordOne(Record(l, "t", one), Key("t", snapshot[1].0), snapshot[1].1);
  }
}
