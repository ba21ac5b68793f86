/**
 What one call on the control-operation table promises: exactly when an
 admission is refused, what a fresh one may evict, that refusals change
 nothing, and that every operation keeps the table consistent.
 */
module RegistryLaws {
  import opened Common
  import opened ControlRegistry

  lemma OrderCounts(s: Registry)
    requires Valid(s)
    ensures |s.order| == |s.entries|
  {
    NoDupCardinality(s.order, s.entries.Keys);
  }

  lemma RemoveKeepsValid(s: Registry, id: OpId)
    requires Valid(s)
    ensures Valid(Remove(s, id))
    ensures id !in s.entries ==> Remove(s, id) == s
    ensures id in s.entries ==> |Remove(s, id).entries| == |s.entries| - 1
  {
    hide Without, NoDup;
    WithoutNoDup(s.order, id);
    if id in s.entries {
      assert Remove(s, id).entries.Keys == s.entries.Keys - {id};
    } else {
      assert s.entries - {id} == s.entries;
    }
  }

  lemma EvictIsRemove(s: Registry, i: nat)
    requires Valid(s) && i < |s.order|
    ensures EvictAt(s, i) == Remove(s, s.order[i])
  {
    WithoutAt(s.order, i);
  }

  lemma NoneSatisfies(s: Registry, now: nat)
    requires Valid(s)
    ensures FirstExpired(s, now) == |s.order| <==> forall k :: k in s.entries ==> !s.Expired(k, now)
    ensures FirstEvictable(s, now) == |s.order| <==> forall k :: k in s.entries ==> !s.CanEvict(k, now)
  {
    if FirstExpired(s, now) < |s.order| { assert s.order[FirstExpired(s, now)] in s.entries; }
    if FirstEvictable(s, now) < |s.order| { assert s.order[FirstEvictable(s, now)] in s.entries; }
    forall k | k in s.entries
      ensures FirstExpired(s, now) == |s.order| ==> !s.Expired(k, now)
      ensures FirstEvictable(s, now) == |s.order| ==> !s.CanEvict(k, now)
    {
      var i :| 0 <= i < |s.order| && s.order[i] == k;
    }
  }

  ghost predicate Full(s: Registry) { |s.entries| == s.config.capacity }

  ghost predicate SomeExpired(s: Registry, now: nat) { exists k :: k in s.entries && s.Expired(k, now) }

  ghost predicate SomeEvictable(s: Registry, now: nat) { exists k :: k in s.entries && s.CanEvict(k, now) }

  /** In a consistent table the eviction loop runs at most once. */
  lemma MakeRoomOnce(s: Registry, now: nat)
    requires Valid(s)
    ensures !Full(s) ==> MakeRoom(s, now) == (s, None)
    ensures Full(s) && SomeExpired(s, now) ==>
      var i := FirstExpired(s, now);
      i < |s.order| && s.order[i] in s.entries &&
      MakeRoom(s, now) == (s, Some(AcceptedDeadlineExceeded(s.order[i].Operation(), s.entries[s.order[i]].generation)))
    ensures Full(s) && !SomeExpired(s, now) && !SomeEvictable(s, now) ==> MakeRoom(s, now) == (s, Some(Saturated))
    ensures Full(s) && !SomeExpired(s, now) && SomeEvictable(s, now) ==>
      FirstEvictable(s, now) < |s.order| &&
      MakeRoom(s, now) == (Remove(s, s.order[FirstEvictable(s, now)]), None)
  {
    NoneSatisfies(s, now);
    if Full(s) && !SomeExpired(s, now) && SomeEvictable(s, now) {
      var i := FirstEvictable(s, now);
      EvictIsRemove(s, i);
      RemoveKeepsValid(s, s.order[i]);
    }
  }

  /** The operation already has a live answer of its own. */
  ghost predicate Answered(s: Registry, id: OpId, generation: nat, now: nat) {
    && id in s.entries && s.entries[id].generation == generation
    && match s.entries[id].state
       case Completed(o) => !o.Rejected()
       case Dispatching(d) => now < d
       case Enqueued(_) => true
  }

  /** What each refusal says about the whole table. */
  ghost predicate Explains(s: Registry, id: OpId, generation: nat, now: nat, a: Admission) {
    && (a.AlreadyCompleted? <==>
         CompletedOutcome(s, id, generation).Some? && !CompletedOutcome(s, id, generation).value.Rejected())
    && (a.AlreadyCompleted? ==> Some(a.outcome) == CompletedOutcome(s, id, generation))
    && (a.AlreadyPending? <==>
         id in s.entries && s.entries[id].generation == generation && s.entries[id].Pending()
         && now < s.entries[id].state.deadline)
    && (a.Saturated? <==>
         id !in s.entries && Full(s) && forall k :: k in s.entries ==> s.entries[k].Pending() && now < s.entries[k].state.deadline)
    && (a.AcceptedDeadlineExceeded? <==>
         || (id in s.entries && s.entries[id].generation == generation && s.Expired(id, now))
         || (id !in s.entries && Full(s) && SomeExpired(s, now)))
    && (a.AcceptedDeadlineExceeded? ==>
         exists k :: && k in s.entries && s.Expired(k, now)
                     && a.operation == k.Operation() && a.generation == s.entries[k].generation)
  }

  /** Exactly when each answer is given, in terms of the whole table. */
  lemma AdmissionDecision(s: Registry, id: OpId, generation: nat, now: nat)
    requires Valid(s)
    ensures Explains(s, id, generation, now, Begin(s, id, generation, now).1)
  {
    hide Explains, Begin, Valid;
    if Answered(s, id, generation, now) {
      AnsweredDecision(s, id, generation, now);
    } else {
      UnansweredDecision(s, id, generation, now);
    }
  }

  lemma AnsweredDecision(s: Registry, id: OpId, generation: nat, now: nat)
    requires Valid(s) && Answered(s, id, generation, now)
    ensures Explains(s, id, generation, now, Begin(s, id, generation, now).1)
  {
    hide MakeRoom, FirstIndex, Without, Valid, SomeExpired, Full;
    assert Begin(s, id, generation, now).1 == Retained(id, s.entries[id], now).value;
  }

  lemma UnansweredDecision(s: Registry, id: OpId, generation: nat, now: nat)
    requires Valid(s) && !Answered(s, id, generation, now)
    ensures Explains(s, id, generation, now, Begin(s, id, generation, now).1)
  {
    hide Begin, Valid;
    if id in s.entries || !Full(s) {
      FreeSlotAdmits(s, id, generation, now);
    } else {
      FullTableDecides(s, id, generation, now);
    }
  }

  /** An operation with a slot of its own, or a free one, is admitted. */
  lemma FreeSlotAdmits(s: Registry, id: OpId, generation: nat, now: nat)
    requires Valid(s) && !Answered(s, id, generation, now) && (id in s.entries || !Full(s))
    ensures Begin(s, id, generation, now).1.Fresh?
  {
    hide MakeRoom, FirstIndex, Without, NoDup, SomeExpired, SomeEvictable;
    RemoveKeepsValid(s, id);
    MakeRoomOnce(Remove(s, id), now);
  }

  /** A full table names an expired accepted entry, else saturates if every entry is live, else admits. */
  lemma FullTableDecides(s: Registry, id: OpId, generation: nat, now: nat)
    requires Valid(s) && id !in s.entries && Full(s)
    ensures var a := Begin(s, id, generation, now).1;
      && (SomeExpired(s, now) ==>
            && a.AcceptedDeadlineExceeded?
            && exists k :: && k in s.entries && s.Expired(k, now)
                           && a.operation == k.Operation() && a.generation == s.entries[k].generation)
      && (!SomeExpired(s, now) ==> a.Saturated? || a.Fresh?)
      && (a.Saturated? <==> forall k :: k in s.entries ==> s.entries[k].Pending() && now < s.entries[k].state.deadline)
  {
    hide MakeRoom, FirstIndex, Without, NoDup;
    RemoveKeepsValid(s, id);
    MakeRoomOnce(s, now);
    assert forall k :: k in s.entries ==>
      (s.Expired(k, now) || s.CanEvict(k, now) <==> !(s.entries[k].Pending() && now < s.entries[k].state.deadline));
  }

  lemma CompletedIsOnRecord(s: Registry, id: OpId, generation: nat, now: nat)
    requires Valid(s) && Begin(s, id, generation, now).1.AlreadyCompleted?
    ensures CompletedOutcome(s, id, generation) == Some(Begin(s, id, generation, now).1.outcome)
  {
    hide Begin, Valid, CompletedOutcome, SomeExpired, Full;
    AdmissionDecision(s, id, generation, now);
  }

  /** A refused admission leaves the table exactly as it was. */
  lemma RefusalChangesNothing(s: Registry, id: OpId, generation: nat, now: nat)
    requires Valid(s)
    requires !Begin(s, id, generation, now).1.Fresh?
    ensures Begin(s, id, generation, now).0 == s
  {
    RemoveKeepsValid(s, id);
    if !Answered(s, id, generation, now) {
      MakeRoomOnce(Remove(s, id), now);
    }
  }

  /** The only entry an admission may push out: completed or never accepted, and oldest such. */
  ghost predicate OldestEvictable(s: Registry, victim: OpId, now: nat) {
    exists i :: 0 <= i < |s.order| && s.order[i] == victim && s.CanEvict(victim, now)
      && forall j :: 0 <= j < i ==> !s.CanEvict(s.order[j], now)
  }

  /** A fresh admission evicts at most one other entry, and only from a full table. */
  lemma FreshAdmission(s: Registry, id: OpId, generation: nat, now: nat) returns (victim: Option<OpId>)
    requires Valid(s)
    requires Begin(s, id, generation, now).1.Fresh?
    ensures victim.Some? ==> Full(s) && id !in s.entries && victim.value != id
                             && OldestEvictable(s, victim.value, now) && !SomeExpired(s, now)
    ensures var base := if victim.Some? then Remove(s, victim.value) else Remove(s, id);
      Begin(s, id, generation, now).0 == Reserve(base, id, generation, now)
    ensures forall k :: k in s.entries && k != id && Some(k) != victim ==>
      k in Begin(s, id, generation, now).0.entries && Begin(s, id, generation, now).0.entries[k] == s.entries[k]
  {
    hide MakeRoom, FirstIndex, Without;
    RemoveKeepsValid(s, id);
    var base := Remove(s, id);
    MakeRoomOnce(base, now);
    victim := None;
    if Full(base) {
      assert id !in s.entries;
      var i := FirstEvictable(s, now);
      victim := Some(s.order[i]);
      assert s.CanEvict(s.order[i], now);
    }
  }

  // ------------------------------------------------ every operation keeps the table consistent

  lemma BeginKeepsValid(s: Registry, id: OpId, generation: nat, now: nat)
    requires Valid(s)
    ensures Valid(Begin(s, id, generation, now).0)
  {
    hide MakeRoom, FirstIndex, Without, NoDup, Reserve;
    if Begin(s, id, generation, now).1.Fresh? {
      RemoveKeepsValid(s, id);
      var base := Remove(s, id);
      MakeRoomOnce(base, now);
      if Full(base) {
        var v := base.order[FirstEvictable(base, now)];
        RemoveKeepsValid(base, v);
        ReserveKeepsValid(Remove(base, v), id, generation, now);
      } else {
        ReserveKeepsValid(base, id, generation, now);
      }
    } else {
      RefusalChangesNothing(s, id, generation, now);
    }
  }

  lemma ReserveKeepsValid(s: Registry, id: OpId, generation: nat, now: nat)
    requires Valid(s) && id !in s.entries && |s.entries| < s.config.capacity
    ensures Valid(Reserve(s, id, generation, now))
  {
    var r := Reserve(s, id, generation, now);
    assert r.entries.Keys == s.entries.Keys + {id};
  }

  lemma UpdateKeepsSize<K, V>(m: map<K, V>, k: K, v: V)
    requires k in m
    ensures |m[k := v]| == |m|
  {
    assert m[k := v].Keys == m.Keys;
  }

  lemma MarkKeepsValid(s: Registry, id: OpId, generation: nat, now: nat)
    requires Valid(s)
    ensures Valid(MarkEnqueued(s, id, generation, now))
  {
    if id in s.entries { UpdateKeepsSize(s.entries, id, Entry(generation, Enqueued(DeadlineAfter(now, s.config.ackTimeout, s.clockMax)))); }
  }

  lemma AbandonKeepsValid(s: Registry, id: OpId, generation: nat)
    requires Valid(s)
    ensures Valid(Abandon(s, id, generation))
  {
    RemoveKeepsValid(s, id);
  }

  lemma CompleteKeepsValid(s: Registry, id: OpId, generation: nat, attempted: Outcome)
    requires Valid(s)
    ensures Valid(CompleteWith(s, id, generation, attempted).0)
  {
    WithoutNoDup(s.order, id);
    if id in s.entries { UpdateKeepsSize(s.entries, id, Entry(generation, Completed(attempted))); }
  }

  /** The first recorded outcome answers every later completion of that operation. */
  lemma FirstOutcomeWins(s: Registry, id: OpId, generation: nat, first: Outcome, later: Outcome)
    requires id in s.entries && s.entries[id].generation == generation
    ensures var (s1, canonical) := CompleteWith(s, id, generation, first);
      && CompletedOutcome(s1, id, generation) == Some(canonical)
      && CompleteWith(s1, id, generation, later) == (s1, canonical)
  {
  }

  /** Calls that carry another actor generation are inert, at any time. */
  lemma OtherGenerationIsInert(s: Registry, id: OpId, generation: nat, attempted: Outcome, now: nat)
    requires id in s.entries && s.entries[id].generation != generation
    ensures CompleteWith(s, id, generation, attempted) == (s, attempted)
    ensures CompletedOutcome(s, id, generation) == None
    ensures MarkEnqueued(s, id, generation, now) == s && Abandon(s, id, generation) == s
  {
  }

  /** The whole effect of a fresh admission, entry by entry. */
  ghost predicate FreshEffect(s: Registry, r: Registry, id: OpId, generation: nat, now: nat) {
    && r.config == s.config && r.clockMax == s.clockMax
    && !Answered(s, id, generation, now)
    && id in r.entries
    && r.entries[id] == Entry(generation, Dispatching(DeadlineAfter(now, s.config.enqueueTimeout, s.clockMax)))
    && (forall k :: k in r.entries && k != id ==> k in s.entries && r.entries[k] == s.entries[k])
    && (forall k :: k in s.entries && k !in r.entries ==> s.CanEvict(k, now))
  }

  lemma BeginEffect(s: Registry, id: OpId, generation: nat, now: nat)
    requires Valid(s)
    ensures Valid(Begin(s, id, generation, now).0)
    ensures !Begin(s, id, generation, now).1.Fresh? ==> Begin(s, id, generation, now).0 == s
    ensures Begin(s, id, generation, now).1.Fresh? ==> FreshEffect(s, Begin(s, id, generation, now).0, id, generation, now)
    ensures Begin(s, id, generation, now).1.AlreadyCompleted? ==>
      CompletedOutcome(s, id, generation) == Some(Begin(s, id, generation, now).1.outcome)
  {
    hide *;
    if Begin(s, id, generation, now).1.AlreadyCompleted? {
      CompletedIsOnRecord(s, id, generation, now);
    }
    BeginKeepsValid(s, id, generation, now);
    if Begin(s, id, generation, now).1.Fresh? {
      FreshShape(s, id, generation, now);
    } else {
      RefusalChangesNothing(s, id, generation, now);
    }
  }

  lemma FreshShape(s: Registry, id: OpId, generation: nat, now: nat)
    requires Valid(s)
    requires Begin(s, id, generation, now).1.Fresh?
    ensures FreshEffect(s, Begin(s, id, generation, now).0, id, generation, now)
  {
    hide Begin, NoDup, Without, SomeExpired, Full, Answered, Valid;
    FreshIsUnanswered(s, id, generation, now);
    var v := FreshAdmission(s, id, generation, now);
    var base := if v.Some? then Remove(s, v.value) else Remove(s, id);
    assert v.Some? ==> s.CanEvict(v.value, now);
    ReserveEffect(s, base, if v.Some? then v.value else id, id, generation, now);
  }

  lemma ReserveEffect(s: Registry, base: Registry, gone: OpId, id: OpId, generation: nat, now: nat)
    requires base == Remove(s, gone)
    requires gone == id || s.CanEvict(gone, now)
    requires !Answered(s, id, generation, now)
    ensures FreshEffect(s, Reserve(base, id, generation, now), id, generation, now)
  {
    hide Answered, Without;
  }

  lemma FreshIsUnanswered(s: Registry, id: OpId, generation: nat, now: nat)
    requires Begin(s, id, generation, now).1.Fresh?
    ensures !Answered(s, id, generation, now)
  {
  }
}
