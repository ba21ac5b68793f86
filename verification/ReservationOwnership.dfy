/**
 Reservations carry no owner token. Here: exactly which acts of a dispatcher keep
 records and commands in step, exactly which success goes unrecorded, and that
 acting before the reservation's own deadline is enough.
 */
module ReservationOwnership {
  import opened Common
  import opened ControlRegistry
  import opened RegistryLaws
  import opened ControlProtocol
  import opened ControlDelivery

  /** The caller's reservation is the one on record. */
  predicate Owns(w: World, c: nat) {
    && c in w.callers && w.callers[c].Reserving?
    && var id := w.callers[c].id;
       && id in w.reg.entries && w.reg.entries[id].state.Dispatching?
       && id in w.holder && w.holder[id] == c
  }

  /** The caller's reservation has not reached its own deadline; a caller can check this. */
  predicate OnTime(w: World, c: nat) {
    && c in w.callers && w.callers[c].Reserving?
    && w.now < DeadlineAfter(w.callers[c].since, w.reg.config.enqueueTimeout, w.reg.clockMax)
  }

  /** What a dispatcher can look up in the registry before it acts: it hands a command to the
      mailbox only while the operation is reserved, and gives up only what is not accepted. */
  predicate Clear(w: World, step: Step)
    requires Enabled(w, step)
  {
    match step
    case Accept(c) => IsReserved(w.reg, w.callers[c].id)
    case GiveUp(c) => !IsAccepted(w.reg, w.callers[c].id)
    case _ => true
  }

  predicate IsReserved(s: Registry, id: OpId) { id in s.entries && s.entries[id].state.Dispatching? }

  ghost predicate ClearRun(w: World, steps: seq<Step>)
    decreases |steps|
  {
    steps != [] ==>
      Enabled(w, steps[0]) && Clear(w, steps[0]) && ClearRun(Next(w, steps[0]), steps[1..])
  }

  ghost predicate OnTimeRun(w: World, steps: seq<Step>)
    decreases |steps|
  {
    steps != [] ==>
      && Enabled(w, steps[0])
      && (steps[0].Accept? || steps[0].GiveUp? ==> OnTime(w, steps[0].caller))
      && OnTimeRun(Next(w, steps[0]), steps[1..])
  }

  // ------------------------------------------------ exactly which effects go unrecorded

  /** The actor succeeds at an operation that has no entry to record it in. */
  predicate Unrecorded(w: World, step: Step, id: OpId)
    requires Enabled(w, step)
  {
    step.Finish? && !step.outcome.Rejected() && w.actor.message.id == id && id !in w.reg.entries
  }

  /** Effects beyond those on record and those whose record was evicted. */
  function Excess(w: World, id: OpId): int {
    Count(w.total, id) - Count(w.forgotten, id) - if Succeeded(w.reg, id) then 1 else 0
  }

  ghost function UnrecordedCount(w: World, steps: seq<Step>, id: OpId): nat
    requires Runs(w, steps)
    decreases |steps|
  {
    if steps == [] then 0
    else (if Unrecorded(w, steps[0], id) then 1 else 0) + UnrecordedCount(Next(w, steps[0]), steps[1..], id)
  }

  /** Whatever dispatchers do, one action adds an unaccounted effect exactly when it is an unrecorded success. */
  lemma ExcessGrowsExactly(w: World, step: Step, id: OpId)
    requires Inv(w) && Enabled(w, step)
    ensures Excess(Next(w, step), id) == Excess(w, id) + if Unrecorded(w, step, id) then 1 else 0
  {
    hide Settle, Valid, Inv, DoCall, DoAccept, DoDeliver, DoFinish, Acknowledge, Pruned, Abandon, Excess;
    match step
    case Tick(_) => SameExcess(w, Next(w, step), id);
    case Call(called) => CallKeepsExcess(w, called, id);
    case Accept(c) => AcceptKeepsExcess(w, c, id);
    case GiveUp(c) => GiveUpKeepsExcess(w, c, id);
    case Vanish(_) => SameExcess(w, Next(w, step), id);
    case Deliver => DeliverKeepsExcess(w, id);
    case RefuseStaleRun => RefuseKeepsExcess(w, id);
    case Finish(o) => FinishExcess(w, o, id);
    case Sweep => SweepKeepsExcess(w, id);
  }

  lemma SameExcess(w: World, u: World, id: OpId)
    requires u.reg == w.reg && u.total == w.total && u.forgotten == w.forgotten
    ensures Excess(u, id) == Excess(w, id)
  {
  }

  lemma AcceptKeepsExcess(w: World, c: nat, id: OpId)
    requires Inv(w) && Enabled(w, Accept(c))
    ensures Excess(DoAccept(w, c), id) == Excess(w, id)
  {
    hide Settle, Valid, Inv;
    InvParts(w, w.callers[c].id);
    SettleFacts(w, MarkEnqueued(w.reg, w.callers[c].id, w.generation, w.now));
  }

  lemma GiveUpKeepsExcess(w: World, c: nat, id: OpId)
    requires Inv(w) && Enabled(w, GiveUp(c))
    ensures Excess(Next(w, GiveUp(c)), id) == Excess(w, id)
  {
    hide Settle, Valid, Inv, Without;
    InvParts(w, w.callers[c].id);
    SettleFacts(w, Abandon(w.reg, w.callers[c].id, w.generation));
  }

  lemma RefuseKeepsExcess(w: World, id: OpId)
    requires Inv(w) && Enabled(w, RefuseStaleRun)
    ensures Excess(Next(w, RefuseStaleRun), id) == Excess(w, id)
  {
    hide Settle, Valid, Inv, Acknowledge;
    var rest := w.(mailbox := w.mailbox[1..]);
    FramesInv(w, rest);
    AcknowledgeExcess(rest, w.mailbox[0].id, ControlOutcome(Err(TurnMismatch)), id);
  }

  lemma CallKeepsExcess(w: World, called: OpId, id: OpId)
    requires Inv(w)
    ensures Excess(DoCall(w, called), id) == Excess(w, id)
  {
    hide Settle, Valid, Begin, Inv;
    InvParts(w, called);
    InvParts(w, id);
    BeginEffect(w.reg, called, w.generation, w.now);
    SettleFacts(w, Begin(w.reg, called, w.generation, w.now).0);
  }

  lemma SweepKeepsExcess(w: World, id: OpId)
    requires Inv(w)
    ensures Excess(Settle(w, Pruned(w.reg, w.now)), id) == Excess(w, id)
  {
    hide Settle, Valid, Filter, Without;
    SettleFacts(w, Pruned(w.reg, w.now));
  }

  /** Acknowledging records the outcome of a pending entry and changes no other account. */
  lemma AcknowledgeExcess(w: World, acked: OpId, o: Outcome, id: OpId)
    requires Inv(w) && w.actor.Idle? && KindMatches(acked, o)
    ensures var recorded := id == acked && !o.Rejected() && id in w.reg.entries && w.reg.entries[id].Pending();
      Excess(Acknowledge(w, acked, o), id) == Excess(w, id) - if recorded then 1 else 0
    ensures Acknowledge(w, acked, o).total == w.total
  {
    hide Settle, Valid, Inv, CompleteWith;
    InvParts(w, acked);
    AcknowledgeKeepsInv(w, acked, o);
    SettleFacts(w, CompleteWith(w.reg, acked, w.generation, o).0);
  }

  lemma DeliverKeepsExcess(w: World, id: OpId)
    requires Inv(w) && Enabled(w, Deliver)
    ensures Excess(DoDeliver(w), id) == Excess(w, id)
  {
    hide Settle, Valid, Inv, Acknowledge;
    var m := w.mailbox[0];
    var rest := w.(mailbox := w.mailbox[1..]);
    FramesInv(w, rest);
    var cached := Cached(w.reg, m.id, w.generation);
    if cached.Some? {
      AcknowledgeExcess(rest, m.id, cached.value, id);
    }
  }

  lemma FinishExcess(w: World, o: Outcome, id: OpId)
    requires Inv(w) && Enabled(w, Finish(o))
    ensures Excess(DoFinish(w, o), id) == Excess(w, id) + if Unrecorded(w, Finish(o), id) then 1 else 0
  {
    hide Settle, Valid, Inv, Acknowledge;
    IdleKeepsInv(w);
    InvParts(w, w.actor.message.id);
    AcknowledgeExcess(w.(actor := Idle), w.actor.message.id, o, id);
  }

  /** Conservation, over every run: each effect is on record, was evicted, or was an unrecorded success. */
  lemma {:induction false} EffectsAreAccountedFor(w: World, steps: seq<Step>, id: OpId)
    requires Inv(w) && Runs(w, steps)
    ensures Excess(End(w, steps), id) == Excess(w, id) + UnrecordedCount(w, steps, id)
    decreases |steps|
  {
    hide Next, Inv, Enabled, Excess, Unrecorded;
    if steps != [] {
      StepKeepsInv(w, steps[0]);
      ExcessGrowsExactly(w, steps[0], id);
      EffectsAreAccountedFor(Next(w, steps[0]), steps[1..], id);
    }
  }

  /** So every effect of a run is on record or was evicted if and only if no success of it went unrecorded. */
  lemma AccountedExactly(config: Config, clockMax: nat, generation: nat, steps: seq<Step>, id: OpId)
    requires Runs(Start(config, clockMax, generation), steps)
    ensures var w := End(Start(config, clockMax, generation), steps);
      && Count(w.total, id) == Count(w.forgotten, id) + (if Succeeded(w.reg, id) then 1 else 0)
                               + UnrecordedCount(Start(config, clockMax, generation), steps, id)
      && (Count(w.total, id) == Count(w.forgotten, id) + (if Succeeded(w.reg, id) then 1 else 0)
          <==> UnrecordedCount(Start(config, clockMax, generation), steps, id) == 0)
  {
    hide Next, Inv, Enabled;
    StartInv(config, clockMax, generation);
    EffectsAreAccountedFor(Start(config, clockMax, generation), steps, id);
  }

  // ------------------------------------------------------ records and commands in step

  function Ids(ms: seq<Message>): (r: seq<OpId>)
    ensures |r| == |ms| && forall i :: 0 <= i < |ms| ==> r[i] == ms[i].id
  {
    seq(|ms|, i requires 0 <= i < |ms| => ms[i].id)
  }

  /** Commands the actor has accepted but not answered, oldest first. */
  function Outstanding(w: World): seq<OpId> {
    (if w.actor.Busy? then [w.actor.message.id] else []) + Ids(w.mailbox)
  }

  /** Accepted entries and unanswered commands correspond one to one. */
  ghost predicate Matched(s: Registry, ids: seq<OpId>) {
    && NoDup(ids)
    && (forall k :: k in ids <==> IsAccepted(s, k))
  }

  ghost predicate Balanced(w: World) { forall k :: Excess(w, k) == 0 }

  /** Every command has its record, and every effect is on record or had its record evicted. */
  ghost predicate Owned(w: World) { Inv(w) && Matched(w.reg, Outstanding(w)) && Balanced(w) }

  lemma MatchedAdd(s: Registry, r: Registry, ids: seq<OpId>, id: OpId)
    requires Matched(s, ids) && !IsAccepted(s, id) && IsAccepted(r, id)
    requires forall k :: k != id ==> (IsAccepted(s, k) <==> IsAccepted(r, k))
    ensures Matched(r, ids + [id])
  {
    assert id !in ids;
  }

  lemma MatchedDrop(s: Registry, r: Registry, ids: seq<OpId>)
    requires Matched(s, ids) && ids != [] && !IsAccepted(r, ids[0])
    requires forall k :: k != ids[0] ==> (IsAccepted(s, k) <==> IsAccepted(r, k))
    ensures Matched(r, ids[1..])
  {
    assert forall k :: k in ids <==> k == ids[0] || k in ids[1..];
    assert ids[0] !in ids[1..];
  }

  lemma CallKeepsMatched(w: World, id: OpId)
    requires Inv(w) && Matched(w.reg, Outstanding(w))
    ensures Matched(DoCall(w, id).reg, Outstanding(DoCall(w, id)))
  {
    hide Settle, Valid, Begin, Inv, NoDup;
    var u := DoCall(w, id);
    InvParts(w, id);
    BeginEffect(w.reg, id, w.generation, w.now);
    SettleFacts(w, Begin(w.reg, id, w.generation, w.now).0);
    assert Outstanding(u) == Outstanding(w);
    forall k
      ensures IsAccepted(u.reg, k) <==> IsAccepted(w.reg, k)
    {
      InvParts(w, k);
    }
  }

  /** Handing over a command keeps them in step if and only if the operation is reserved. */
  lemma AcceptMatchedExactly(w: World, c: nat)
    requires Inv(w) && Matched(w.reg, Outstanding(w)) && Enabled(w, Accept(c))
    ensures Matched(DoAccept(w, c).reg, Outstanding(DoAccept(w, c))) <==> IsReserved(w.reg, w.callers[c].id)
  {
    hide Settle, Valid, Inv;
    var id := w.callers[c].id;
    var u := DoAccept(w, c);
    InvParts(w, id);
    SettleFacts(w, MarkEnqueued(w.reg, id, w.generation, w.now));
    var before, after := Outstanding(w), Outstanding(u);
    assert after == before + [id] && after[|before|] == id;
    if IsReserved(w.reg, id) {
      MatchedAdd(w.reg, u.reg, before, id);
    } else if IsAccepted(w.reg, id) {
      assert id in before;
      var i :| 0 <= i < |before| && before[i] == id;
      assert after[i] == after[|before|];
    }
  }

  /** Giving up keeps them in step if and only if the entry on record is not an accepted one. */
  lemma GiveUpMatchedExactly(w: World, c: nat)
    requires Inv(w) && Matched(w.reg, Outstanding(w)) && Enabled(w, GiveUp(c))
    ensures Matched(Next(w, GiveUp(c)).reg, Outstanding(Next(w, GiveUp(c)))) <==> !IsAccepted(w.reg, w.callers[c].id)
  {
    hide Settle, Valid, Inv, NoDup, Filter, Without;
    var id := w.callers[c].id;
    var u := Next(w, GiveUp(c));
    InvParts(w, id);
    SettleFacts(w, Abandon(w.reg, id, w.generation));
    assert Outstanding(u) == Outstanding(w);
    if IsAccepted(w.reg, id) {
      assert id in Outstanding(w) && !IsAccepted(u.reg, id);
    }
  }

  lemma SweepKeepsMatched(w: World)
    requires Inv(w) && Matched(w.reg, Outstanding(w))
    ensures Matched(Next(w, Sweep).reg, Outstanding(Next(w, Sweep)))
  {
    hide Settle, Valid, Inv, NoDup, Filter, Without;
    SettleFacts(w, Pruned(w.reg, w.now));
    assert Outstanding(Next(w, Sweep)) == Outstanding(w);
  }

  lemma DeliverKeepsMatched(w: World)
    requires Inv(w) && Matched(w.reg, Outstanding(w)) && Enabled(w, Deliver)
    ensures Matched(DoDeliver(w).reg, Outstanding(DoDeliver(w)))
  {
    hide Settle, Valid, Inv, NoDup, Acknowledge;
    var m := w.mailbox[0];
    assert Outstanding(w)[0] == m.id;
    assert m.id in Outstanding(w);
    assert Outstanding(DoDeliver(w)) == Outstanding(w);
  }

  /** Answering the oldest unanswered command. */
  lemma AnswerKeepsMatched(w: World, rest: World, o: Outcome)
    requires Inv(w) && Matched(w.reg, Outstanding(w)) && Outstanding(w) != []
    requires Inv(rest) && rest.actor.Idle? && rest.reg == w.reg && rest.generation == w.generation
    requires Outstanding(rest) == Outstanding(w)[1..]
    requires KindMatches(Outstanding(w)[0], o)
    ensures var u := Acknowledge(rest, Outstanding(w)[0], o);
      Matched(u.reg, Outstanding(rest)) && Outstanding(u) == Outstanding(rest)
  {
    hide Settle, Valid, Inv, NoDup, CompleteWith;
    var id := Outstanding(w)[0];
    assert id in Outstanding(w);
    InvParts(w, id);
    AcknowledgeKeepsInv(rest, id, o);
    SettleFacts(rest, CompleteWith(w.reg, id, w.generation, o).0);
    var u := Acknowledge(rest, id, o);
    MatchedDrop(w.reg, u.reg, Outstanding(w));
    assert Outstanding(u) == Outstanding(rest);
  }

  lemma FinishKeepsMatched(w: World, o: Outcome)
    requires Inv(w) && Matched(w.reg, Outstanding(w)) && Enabled(w, Finish(o))
    ensures Matched(DoFinish(w, o).reg, Outstanding(DoFinish(w, o)))
  {
    hide Settle, Valid, Inv, NoDup, Acknowledge, Matched;
    var rest := w.(actor := Idle);
    IdleKeepsInv(w);
    assert Outstanding(rest) == Outstanding(w)[1..];
    AnswerKeepsMatched(w, rest, o);
    assert Outstanding(DoFinish(w, o)) == Outstanding(Acknowledge(rest, w.actor.message.id, o));
  }

  /** Commands and records stay matched over one action exactly when that action was clear. */
  lemma MatchedExactly(w: World, step: Step)
    requires Inv(w) && Matched(w.reg, Outstanding(w)) && Enabled(w, step)
    ensures Matched(Next(w, step).reg, Outstanding(Next(w, step))) <==> Clear(w, step)
  {
    hide Settle, Valid, Inv, Matched, DoCall, DoAccept, DoDeliver, DoFinish, Acknowledge, Abandon, Pruned;
    match step
    case Tick(_) => assert Outstanding(Next(w, step)) == Outstanding(w);
    case Call(id) => CallKeepsMatched(w, id);
    case Accept(c) => AcceptMatchedExactly(w, c);
    case GiveUp(c) => GiveUpMatchedExactly(w, c);
    case Vanish(_) => assert Outstanding(Next(w, step)) == Outstanding(w);
    case Deliver => DeliverKeepsMatched(w);
    case RefuseStaleRun =>
      var rest := w.(mailbox := w.mailbox[1..]);
      FramesInv(w, rest);
      assert Outstanding(rest) == Outstanding(w)[1..];
      AnswerKeepsMatched(w, rest, ControlOutcome(Err(TurnMismatch)));
    case Finish(o) => FinishKeepsMatched(w, o);
    case Sweep => SweepKeepsMatched(w);
  }

  /** With every command on record no success can go unrecorded. */
  lemma MatchedRecordsEverySuccess(w: World, step: Step, id: OpId)
    requires Matched(w.reg, Outstanding(w)) && Enabled(w, step)
    ensures !Unrecorded(w, step, id)
  {
    hide NoDup;
    if step.Finish? {
      assert Outstanding(w)[0] == w.actor.message.id;
      assert w.actor.message.id in Outstanding(w);
    }
  }

  /** So records, commands and effects stay in step over one action exactly when it was clear. */
  lemma OwnedExactly(w: World, step: Step)
    requires Owned(w) && Enabled(w, step)
    ensures Owned(Next(w, step)) <==> Clear(w, step)
  {
    hide Next, Inv, Matched, Clear, Excess, Unrecorded;
    StepKeepsInv(w, step);
    MatchedExactly(w, step);
    forall k
      ensures Excess(Next(w, step), k) == 0
    {
      MatchedRecordsEverySuccess(w, step, k);
      ExcessGrowsExactly(w, step, k);
    }
  }

  /** They are in step before and after every action of a run. */
  ghost predicate AlwaysOwned(w: World, steps: seq<Step>)
    requires Runs(w, steps)
    decreases |steps|
  {
    Owned(w) && (steps != [] ==> AlwaysOwned(Next(w, steps[0]), steps[1..]))
  }

  /** They stay in step over a whole run if and only if every action of it is clear. */
  lemma {:induction false} AlwaysOwnedExactly(w: World, steps: seq<Step>)
    requires Owned(w) && Runs(w, steps)
    ensures AlwaysOwned(w, steps) <==> ClearRun(w, steps)
    decreases |steps|
  {
    hide Next, Owned, Enabled, Clear;
    if steps != [] {
      OwnedExactly(w, steps[0]);
      if Clear(w, steps[0]) {
        AlwaysOwnedExactly(Next(w, steps[0]), steps[1..]);
      } else {
        assert !AlwaysOwned(Next(w, steps[0]), steps[1..]);
      }
    }
  }

  lemma {:induction false} ClearRunKeepsOwned(w: World, steps: seq<Step>)
    requires Owned(w) && ClearRun(w, steps)
    ensures Runs(w, steps) && Owned(End(w, steps))
    decreases |steps|
  {
    hide Next, Owned, Enabled, Clear;
    if steps != [] {
      OwnedExactly(w, steps[0]);
      ClearRunKeepsOwned(Next(w, steps[0]), steps[1..]);
    }
  }

  lemma StartOwned(config: Config, clockMax: nat, generation: nat)
    ensures Owned(Start(config, clockMax, generation))
  {
    StartInv(config, clockMax, generation);
  }

  /** When every action is clear, an operation takes effect at most once more than its recorded
      success was evicted, accepted entries and unanswered commands correspond one to one, and
      nothing that was accepted has been lost. */
  lemma ClearDispatchAppliesOnce(config: Config, clockMax: nat, generation: nat, steps: seq<Step>, id: OpId)
    requires ClearRun(Start(config, clockMax, generation), steps)
    ensures Runs(Start(config, clockMax, generation), steps)
    ensures var w := End(Start(config, clockMax, generation), steps);
      && Count(w.total, id) == Count(w.forgotten, id) + (if Succeeded(w.reg, id) then 1 else 0)
      && NoDup(Outstanding(w))
      && (id in Outstanding(w) <==> IsAccepted(w.reg, id))
  {
    hide ClearRun, Inv, Start;
    StartOwned(config, clockMax, generation);
    ClearRunKeepsOwned(Start(config, clockMax, generation), steps);
    assert Excess(End(Start(config, clockMax, generation), steps), id) == 0;
  }

  /** Then an accepted command leaves that state only by being completed. */
  lemma ClearDispatchKeepsAccepted(w: World, step: Step, id: OpId)
    requires Inv(w) && Enabled(w, step) && Clear(w, step) && IsAccepted(w.reg, id)
    ensures id in Next(w, step).reg.entries
    ensures Next(w, step).reg.entries[id] != w.reg.entries[id] ==> Completes(w, step, id)
  {
    hide Next, Inv;
    AcceptedLeavesExactlyBy(w, step, id);
  }

  /** Giving up discards a command the mailbox already owns exactly when the entry on record for
      that operation is an accepted one, which is something the caller can look up first. */
  lemma GiveUpLosesExactly(w: World, c: nat)
    requires Inv(w) && Enabled(w, GiveUp(c))
    ensures (exists id :: IsAccepted(w.reg, id) && id !in Next(w, GiveUp(c)).reg.entries)
       <==> IsAccepted(w.reg, w.callers[c].id)
    ensures Owns(w, c) ==> !IsAccepted(w.reg, w.callers[c].id)
  {
    hide Next, Inv;
    forall id | IsAccepted(w.reg, id)
      ensures id !in Next(w, GiveUp(c)).reg.entries <==> w.callers[c].id == id
    {
      AcceptedLeavesExactlyBy(w, GiveUp(c), id);
    }
  }

  // ----------------------------------------- acting before the deadline keeps ownership

  ghost predicate Kept(w: World, c: nat) {
    && Owns(w, c)
    && w.reg.entries[w.callers[c].id].state.deadline
       == DeadlineAfter(w.callers[c].since, w.reg.config.enqueueTimeout, w.reg.clockMax)
  }

  ghost predicate Punctual(w: World) {
    && (forall c :: c in w.callers ==> c < w.nextCaller)
    && (forall c :: OnTime(w, c) ==> Kept(w, c))
  }

  ghost predicate OnTimeStep(w: World, step: Step) {
    && Enabled(w, step)
    && (step.Accept? || step.GiveUp? ==> OnTime(w, step.caller))
  }

  /** The unexpired reservation `id` of caller `c` after someone else's step. */
  ghost predicate Undisturbed(w: World, u: World, c: nat)
    requires c in w.callers
  {
    var id := w.callers[c].id;
    && c in u.callers && u.callers[c] == w.callers[c]
    && id in w.reg.entries && id in u.reg.entries && u.reg.entries[id] == w.reg.entries[id]
    && id in w.holder && id in u.holder && u.holder[id] == w.holder[id]
  }

  lemma CallUndisturbed(w: World, called: OpId, c: nat)
    requires Owned(w) && Punctual(w) && OnTime(w, c)
    ensures Undisturbed(w, DoCall(w, called), c)
    ensures DoCall(w, called).reg.config == w.reg.config && DoCall(w, called).reg.clockMax == w.reg.clockMax
  {
    hide Settle, Valid, Begin, Inv, Matched, Balanced;
    assert Kept(w, c);
    InvParts(w, w.callers[c].id);
    BeginEffect(w.reg, called, w.generation, w.now);
    SettleFacts(w, Begin(w.reg, called, w.generation, w.now).0);
  }

  lemma CallKeepsPunctual(w: World, called: OpId)
    requires Owned(w) && Punctual(w)
    ensures Punctual(DoCall(w, called))
  {
    hide Settle, Valid, Begin, Inv, Matched, Balanced;
    InvParts(w, called);
    BeginEffect(w.reg, called, w.generation, w.now);
    SettleFacts(w, Begin(w.reg, called, w.generation, w.now).0);
    var u := DoCall(w, called);
    forall c | OnTime(u, c)
      ensures Kept(u, c)
    {
      if c in w.callers {
        assert OnTime(w, c);
        CallUndisturbed(w, called, c);
        assert Kept(w, c);
      }
    }
  }

  lemma ActKeepsPunctual(w: World, step: Step)
    requires Owned(w) && Punctual(w) && OnTimeStep(w, step) && (step.Accept? || step.GiveUp?)
    ensures Punctual(Next(w, step))
  {
    hide Settle, Valid, Inv, Matched, Balanced, Filter, Without;
    var actor := step.caller;
    assert Kept(w, actor);
    var id := w.callers[actor].id;
    InvParts(w, id);
    SettleFacts(w, MarkEnqueued(w.reg, id, w.generation, w.now));
    SettleFacts(w, Abandon(w.reg, id, w.generation));
    var u := Next(w, step);
    forall c | OnTime(u, c)
      ensures Kept(u, c)
    {
      assert OnTime(w, c);
      assert Kept(w, c);
      assert w.callers[c].id != id;
    }
  }

  predicate Live(s: Registry, k: OpId, now: nat) {
    k in s.entries && s.entries[k].state.Dispatching? && now < s.entries[k].state.deadline
  }

  /** Answers and sweeps leave unexpired reservations alone. */
  lemma OtherKeepsPunctual(w: World, u: World)
    requires Punctual(w)
    requires u.nextCaller == w.nextCaller && u.holder == w.holder && w.now <= u.now
    requires u.reg.config == w.reg.config && u.reg.clockMax == w.reg.clockMax
    requires forall c :: c in u.callers ==> c in w.callers && u.callers[c] == w.callers[c]
    requires forall k :: Live(w.reg, k, u.now) ==> k in u.reg.entries && u.reg.entries[k] == w.reg.entries[k]
    ensures Punctual(u)
  {
    forall c | OnTime(u, c)
      ensures Kept(u, c)
    {
      assert OnTime(w, c);
      assert Kept(w, c);
    }
  }

  lemma AnswerKeepsPunctual(w: World, rest: World, o: Outcome)
    requires Owned(w) && Punctual(w) && Outstanding(w) != [] && KindMatches(Outstanding(w)[0], o)
    requires Inv(rest) && rest.actor.Idle? && rest.reg == w.reg && rest.generation == w.generation && rest.now == w.now
    requires rest.callers == w.callers && rest.nextCaller == w.nextCaller && rest.holder == w.holder
    ensures Punctual(Acknowledge(rest, Outstanding(w)[0], o))
  {
    hide Settle, Valid, Inv, NoDup, CompleteWith, Punctual;
    var id := Outstanding(w)[0];
    assert id in Outstanding(w);
    AcknowledgeKeepsInv(rest, id, o);
    SettleFacts(rest, CompleteWith(w.reg, id, w.generation, o).0);
    OtherKeepsPunctual(w, Acknowledge(rest, id, o));
  }

  lemma PunctualReads(w: World, u: World)
    requires Punctual(w) && u.callers == w.callers && u.nextCaller == w.nextCaller && u.holder == w.holder
    requires u.now == w.now && u.reg == w.reg
    ensures Punctual(u)
  {
    forall c | OnTime(u, c) ensures Kept(u, c) { assert OnTime(w, c); assert Kept(w, c); }
  }

  lemma StepKeepsPunctual(w: World, step: Step)
    requires Owned(w) && Punctual(w) && OnTimeStep(w, step)
    ensures Punctual(Next(w, step))
  {
    hide Settle, Valid, Inv, Matched, Balanced, DoCall, Acknowledge, Abandon, Filter, Punctual, Outstanding;
    match step
    case Tick(_) => OtherKeepsPunctual(w, Next(w, step));
    case Call(id) => CallKeepsPunctual(w, id);
    case Accept(_) => ActKeepsPunctual(w, step);
    case GiveUp(_) => ActKeepsPunctual(w, step);
    case Vanish(_) => OtherKeepsPunctual(w, Next(w, step));
    case Deliver => DeliverKeepsPunctual(w);
    case RefuseStaleRun =>
      var rest := w.(mailbox := w.mailbox[1..]);
      FramesInv(w, rest);
      HeadIsOutstanding(w);
      AnswerKeepsPunctual(w, rest, ControlOutcome(Err(TurnMismatch)));
    case Finish(o) =>
      IdleKeepsInv(w);
      HeadIsOutstanding(w);
      AnswerKeepsPunctual(w, w.(actor := Idle), o);
      PunctualReads(Acknowledge(w.(actor := Idle), w.actor.message.id, o), Next(w, step));
    case Sweep =>
      SettleFacts(w, Pruned(w.reg, w.now));
      OtherKeepsPunctual(w, Next(w, step));
  }

  lemma HeadIsOutstanding(w: World)
    ensures w.actor.Busy? ==> Outstanding(w) != [] && Outstanding(w)[0] == w.actor.message.id
    ensures w.actor.Idle? && w.mailbox != [] ==> Outstanding(w) != [] && Outstanding(w)[0] == w.mailbox[0].id
  {
  }

  lemma DeliverKeepsPunctual(w: World)
    requires Owned(w) && Punctual(w) && Enabled(w, Deliver)
    ensures Punctual(DoDeliver(w))
  {
    hide Settle, Valid, Inv, NoDup, Acknowledge, Punctual;
    HeadIsOutstanding(w);
    assert Outstanding(w)[0] in Outstanding(w);
    PunctualReads(w, DoDeliver(w));
  }

  /** A run in which everyone acts before their own deadline is clear throughout. */
  lemma {:induction false} OnTimeRunsAreClear(w: World, steps: seq<Step>)
    requires Owned(w) && Punctual(w) && OnTimeRun(w, steps)
    ensures ClearRun(w, steps)
    decreases |steps|
  {
    hide Next, Owned, Enabled, Kept;
    if steps != [] {
      if steps[0].Accept? || steps[0].GiveUp? { KeptIsClear(w, steps[0]); }
      OwnedExactly(w, steps[0]);
      StepKeepsPunctual(w, steps[0]);
      OnTimeRunsAreClear(Next(w, steps[0]), steps[1..]);
    }
  }

  lemma KeptIsClear(w: World, step: Step)
    requires Punctual(w) && OnTimeStep(w, step) && (step.Accept? || step.GiveUp?)
    ensures Clear(w, step)
  {
    assert Kept(w, step.caller);
  }

  /** Dispatchers that act before their reservation expires never apply an operation twice
      without its recorded success having been evicted in between. */
  lemma PunctualDispatchAppliesOnce(config: Config, clockMax: nat, generation: nat, steps: seq<Step>, id: OpId)
    requires OnTimeRun(Start(config, clockMax, generation), steps)
    ensures Runs(Start(config, clockMax, generation), steps)
    ensures var w := End(Start(config, clockMax, generation), steps);
      Count(w.total, id) <= Count(w.forgotten, id) + 1
  {
    StartOwned(config, clockMax, generation);
    OnTimeRunsAreClear(Start(config, clockMax, generation), steps);
    ClearDispatchAppliesOnce(config, clockMax, generation, steps, id);
  }
}
