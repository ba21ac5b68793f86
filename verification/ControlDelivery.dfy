/**
 Whole-run guarantees of the dispatch protocol: the first recorded outcome is
 final, an accepted command leaves its state only by being completed, and what
 happens when a dispatcher acts on a reservation it no longer holds.
 */
module ControlDelivery {
  import opened Common
  import opened ControlRegistry
  import opened RegistryLaws
  import opened ControlProtocol

  // ----------------------------------------------------------- first outcome is final

  predicate Readmits(w: World, step: Step, id: OpId) {
    step == Call(id) && Begin(w.reg, id, w.generation, w.now).1.Fresh?
  }

  /** The entry is present after every step, and a rejected one is not re-admitted. */
  ghost predicate Stays(w: World, steps: seq<Step>, id: OpId)
    requires Runs(w, steps)
    decreases |steps|
  {
    && id in w.reg.entries
    && (steps != [] ==> !(Readmits(w, steps[0], id) && !Succeeded(w.reg, id)) && Stays(Next(w, steps[0]), steps[1..], id))
  }

  ghost predicate AnswersFrom(before: seq<Answer>, after: seq<Answer>, id: OpId, o: Outcome) {
    && |before| <= |after| && after[..|before|] == before
    && (forall i :: |before| <= i < |after| && after[i].id == id ==> after[i].outcome == o)
  }

  lemma SuccessIsNeverReadmitted(w: World, id: OpId)
    requires Inv(w) && Succeeded(w.reg, id)
    ensures Begin(w.reg, id, w.generation, w.now) == (w.reg, AlreadyCompleted(w.reg.entries[id].state.outcome))
  {
    assert EntryOk(w, id);
  }

  lemma CallKeepsOutcome(w: World, called: OpId, id: OpId, o: Outcome)
    requires Inv(w) && CompletedOutcome(w.reg, id, w.generation) == Some(o)
    requires !(Readmits(w, Call(called), id) && !Succeeded(w.reg, id))
    ensures var u := DoCall(w, called);
      && (id in u.reg.entries ==> CompletedOutcome(u.reg, id, u.generation) == Some(o))
      && Count(u.total, id) == Count(w.total, id)
      && AnswersFrom(w.answers, u.answers, id, o)
  {
    hide Settle, Valid, Begin, Inv, CompletedOutcome;
    CallKeepsEntry(w, called, id);
    CallAnswers(w, called);
  }

  /** A call of any operation keeps or evicts a recorded outcome. */
  lemma CallKeepsEntry(w: World, called: OpId, id: OpId)
    requires Inv(w) && CompletedOutcome(w.reg, id, w.generation).Some?
    requires !(Readmits(w, Call(called), id) && !Succeeded(w.reg, id))
    ensures var u := DoCall(w, called);
      && u.generation == w.generation && u.total == w.total
      && (id in u.reg.entries ==>
            CompletedOutcome(u.reg, id, w.generation) == CompletedOutcome(w.reg, id, w.generation))
  {
    hide Settle, Valid, Begin, Inv;
    if Succeeded(w.reg, id) && called == id { SuccessIsNeverReadmitted(w, id); }
    InvParts(w, id);
    BeginEffect(w.reg, called, w.generation, w.now);
    SettleFacts(w, Begin(w.reg, called, w.generation, w.now).0);
  }

  /** A call is answered at once only with the outcome on record. */
  lemma CallAnswers(w: World, called: OpId)
    requires Inv(w)
    ensures var u := DoCall(w, called);
      || u.answers == w.answers
      || (CompletedOutcome(w.reg, called, w.generation).Some?
          && u.answers == w.answers + [Answer(called, CompletedOutcome(w.reg, called, w.generation).value)])
  {
    hide Settle, Valid, Begin, Inv;
    InvParts(w, called);
    BeginEffect(w.reg, called, w.generation, w.now);
    SettleFacts(w, Begin(w.reg, called, w.generation, w.now).0);
  }

  lemma InvParts(w: World, id: OpId)
    requires Inv(w)
    ensures Valid(w.reg)
    ensures id in w.reg.entries ==> EntryOk(w, id)
    ensures w.actor.Busy? ==> CompletedOutcome(w.reg, w.actor.message.id, w.generation) == None
  {
  }

  lemma AcknowledgeKeepsOutcome(w: World, acked: OpId, attempted: Outcome, id: OpId, o: Outcome)
    requires Inv(w) && w.actor.Idle? && KindMatches(acked, attempted)
    requires CompletedOutcome(w.reg, id, w.generation) == Some(o)
    ensures var u := Acknowledge(w, acked, attempted);
      && CompletedOutcome(u.reg, id, u.generation) == Some(o)
      && u.total == w.total
      && AnswersFrom(w.answers, u.answers, id, o)
  {
    hide Settle, Valid, CompleteWith;
    AcknowledgeKeepsInv(w, acked, attempted);
    SettleFacts(w, CompleteWith(w.reg, acked, w.generation, attempted).0);
  }

  lemma StepKeepsOutcome(w: World, step: Step, id: OpId, o: Outcome)
    requires Inv(w) && Enabled(w, step)
    requires CompletedOutcome(w.reg, id, w.generation) == Some(o)
    requires !(Readmits(w, step, id) && !Succeeded(w.reg, id))
    ensures var u := Next(w, step);
      && (id in u.reg.entries ==> CompletedOutcome(u.reg, id, u.generation) == Some(o))
      && Count(u.total, id) == Count(w.total, id)
      && AnswersFrom(w.answers, u.answers, id, o)
  {
    hide Settle, Valid, Begin, Acknowledge, Without, DoCall, DoDeliver, DoFinish, Inv, Pruned;
    match step
    case Tick(_) =>
    case Call(called) => CallKeepsOutcome(w, called, id, o);
    case Accept(c) => SettleFacts(w, MarkEnqueued(w.reg, w.callers[c].id, w.generation, w.now));
    case GiveUp(c) => SettleFacts(w, Abandon(w.reg, w.callers[c].id, w.generation));
    case Vanish(_) =>
    case Deliver => DeliverKeepsOutcome(w, id, o);
    case RefuseStaleRun =>
      var rest := w.(mailbox := w.mailbox[1..]);
      FramesInv(w, rest);
      AcknowledgeKeepsOutcome(rest, w.mailbox[0].id, ControlOutcome(Err(TurnMismatch)), id, o);
    case Finish(result) => FinishKeepsOutcome(w, result, id, o);
    case Sweep => SweepKeepsOutcome(w, id);
  }

  lemma DeliverKeepsOutcome(w: World, id: OpId, o: Outcome)
    requires Inv(w) && Enabled(w, Deliver) && CompletedOutcome(w.reg, id, w.generation) == Some(o)
    ensures var u := DoDeliver(w);
      && CompletedOutcome(u.reg, id, u.generation) == Some(o)
      && u.total == w.total
      && AnswersFrom(w.answers, u.answers, id, o)
  {
    hide Settle, Valid, Acknowledge, Inv;
    var m := w.mailbox[0];
    var rest := w.(mailbox := w.mailbox[1..]);
    FramesInv(w, rest);
    if Cached(w.reg, m.id, w.generation).Some? {
      AcknowledgeKeepsOutcome(rest, m.id, Cached(w.reg, m.id, w.generation).value, id, o);
    }
  }

  lemma FinishKeepsOutcome(w: World, result: Outcome, id: OpId, o: Outcome)
    requires Inv(w) && Enabled(w, Finish(result)) && CompletedOutcome(w.reg, id, w.generation) == Some(o)
    ensures var u := DoFinish(w, result);
      && CompletedOutcome(u.reg, id, u.generation) == Some(o)
      && Count(u.total, id) == Count(w.total, id)
      && AnswersFrom(w.answers, u.answers, id, o)
  {
    hide Settle, Valid, Acknowledge, Inv;
    IdleKeepsInv(w);
    InvParts(w, id);
    AcknowledgeKeepsOutcome(w.(actor := Idle), w.actor.message.id, result, id, o);
  }

  lemma SweepKeepsOutcome(w: World, id: OpId)
    requires CompletedOutcome(w.reg, id, w.generation).Some?
    ensures var u := Settle(w, Pruned(w.reg, w.now));
      && CompletedOutcome(u.reg, id, u.generation) == CompletedOutcome(w.reg, id, w.generation)
      && u.total == w.total && u.answers == w.answers
  {
    hide Settle, SurvivingOrder;
    SettleFacts(w, Pruned(w.reg, w.now));
  }

  /** Once an outcome is on record, every later delivery or retry of that operation is answered
      with it and the operation is not applied again, for as long as its entry is present. */
  lemma {:induction false} FirstOutcomeIsFinal(w: World, steps: seq<Step>, id: OpId, o: Outcome)
    requires Inv(w) && Runs(w, steps) && Stays(w, steps, id)
    requires CompletedOutcome(w.reg, id, w.generation) == Some(o)
    ensures var e := End(w, steps);
      && CompletedOutcome(e.reg, id, e.generation) == Some(o)
      && Count(e.total, id) == Count(w.total, id)
      && AnswersFrom(w.answers, e.answers, id, o)
    decreases |steps|
  {
    hide Next, Inv, Enabled, Succeeded, Readmits;
    if steps != [] {
      var u := Next(w, steps[0]);
      StepKeepsInv(w, steps[0]);
      StepKeepsOutcome(w, steps[0], id, o);
      FirstOutcomeIsFinal(u, steps[1..], id, o);
      var e := End(w, steps);
      assert e.answers[..|w.answers|] == e.answers[..|u.answers|][..|w.answers|];
      assert forall i :: |w.answers| <= i < |u.answers| ==> e.answers[i] == e.answers[..|u.answers|][i];
    }
  }

  // ---------------------------------------------------------- who is answered, and with what

  predicate IsRecorded(s: Registry, id: OpId) { id in s.entries && s.entries[id].state.Completed? }

  /** The answers a step gives, read off the outcomes on record. */
  function AnswersOf(w: World, step: Step): seq<Answer>
    requires Enabled(w, step)
  {
    match step
    case Call(id) =>
      if IsRecorded(w.reg, id) && !w.reg.entries[id].state.outcome.Rejected()
      then [Answer(id, w.reg.entries[id].state.outcome)] else []
    case Deliver =>
      var id := w.mailbox[0].id;
      if IsRecorded(w.reg, id) then [Answer(id, w.reg.entries[id].state.outcome)] else []
    case RefuseStaleRun =>
      var id := w.mailbox[0].id;
      [Answer(id, if IsRecorded(w.reg, id) then w.reg.entries[id].state.outcome else ControlOutcome(Err(TurnMismatch)))]
    case Finish(o) => [Answer(w.actor.message.id, o)]
    case _ => []
  }

  /** Every step answers exactly what the record or the actor's own result says; and a delivered command is
      executed exactly when its operation has no outcome on record. */
  lemma StepAnswersExactly(w: World, step: Step, u: World)
    requires Inv(w) && Enabled(w, step) && u == Next(w, step)
    ensures u.answers == w.answers + AnswersOf(w, step)
    ensures step.Deliver? ==>
              u.actor == (if IsRecorded(w.reg, w.mailbox[0].id) then Idle else Busy(w.mailbox[0])) && u.total == w.total
  {
    hide Settle, Valid, Begin, Acknowledge, Inv, Pruned;
    match step
    case Call(id) => CallAnswersExactly(w, id);
    case Deliver => DeliveryAnswersExactly(w);
    case RefuseStaleRun =>
      var rest := w.(mailbox := w.mailbox[1..]);
      FramesInv(w, rest);
      InvParts(w, w.mailbox[0].id);
      AcknowledgeKeepsInv(rest, w.mailbox[0].id, ControlOutcome(Err(TurnMismatch)));
    case Finish(o) =>
      IdleKeepsInv(w);
      InvParts(w, w.actor.message.id);
      AcknowledgeKeepsInv(w.(actor := Idle), w.actor.message.id, o);
    case _ => QuietStepAnswersNothing(w, step);
  }

  lemma CallAnswersExactly(w: World, id: OpId)
    requires Inv(w)
    ensures DoCall(w, id).answers == w.answers + AnswersOf(w, Call(id))
  {
    hide Settle, Valid, Begin, Inv, Full, SomeExpired;
    InvParts(w, id);
    AdmissionDecision(w.reg, id, w.generation, w.now);
    SettleFacts(w, Begin(w.reg, id, w.generation, w.now).0);
  }

  lemma DeliveryAnswersExactly(w: World)
    requires Inv(w) && Enabled(w, Deliver)
    ensures var u := DoDeliver(w);
            && u.answers == w.answers + AnswersOf(w, Deliver)
            && u.actor == (if IsRecorded(w.reg, w.mailbox[0].id) then Idle else Busy(w.mailbox[0]))
            && u.total == w.total
  {
    hide Settle, Valid, Acknowledge, Inv;
    var m := w.mailbox[0];
    var rest := w.(mailbox := w.mailbox[1..]);
    FramesInv(w, rest);
    InvParts(w, m.id);
    if Cached(w.reg, m.id, w.generation).Some? {
      AcknowledgeKeepsInv(rest, m.id, Cached(w.reg, m.id, w.generation).value);
      AcknowledgeKeepsTotal(rest, m.id, Cached(w.reg, m.id, w.generation).value);
    }
  }

  lemma AcknowledgeKeepsTotal(w: World, id: OpId, o: Outcome)
    ensures Acknowledge(w, id, o).total == w.total
  {
    SettleFacts(w, CompleteWith(w.reg, id, w.generation, o).0);
  }

  lemma QuietStepAnswersNothing(w: World, step: Step)
    requires Enabled(w, step)
    requires step.Tick? || step.Accept? || step.GiveUp? || step.Vanish? || step.Sweep?
    ensures Next(w, step).answers == w.answers
  {
    hide Settle;
    match step
    case Accept(c) => SettleFacts(w, MarkEnqueued(w.reg, w.callers[c].id, w.generation, w.now));
    case GiveUp(c) => SettleFacts(w, Abandon(w.reg, w.callers[c].id, w.generation));
    case Sweep => SettleFacts(w, Pruned(w.reg, w.now));
    case _ =>
  }

  /** Whatever is on record, a caller gets an answer of the kind it asked for: the recorded one if that is
      of its kind, and otherwise a rejection. */
  lemma AnswerHasItsKind(id: OpId, o: Outcome)
    ensures KindMatches(id, KindChecked(id, o))
    ensures KindMatches(id, o) ==> KindChecked(id, o) == o
    ensures !KindMatches(id, o) ==> KindChecked(id, o).Rejected()
  {
  }

  // ----------------------------------------------- how an accepted command can leave

  predicate IsAccepted(s: Registry, id: OpId) { id in s.entries && s.entries[id].state.Enqueued? }

  predicate Completes(w: World, step: Step, id: OpId)
    requires Enabled(w, step)
  {
    || (step.Finish? && w.actor.message.id == id)
    || (step.RefuseStaleRun? && w.mailbox[0].id == id)
  }

  predicate AbandonsFor(w: World, step: Step, id: OpId)
    requires Enabled(w, step)
  {
    step.GiveUp? && w.callers[step.caller].id == id
  }

  /** Exactly how an accepted command leaves that state in one step: it is completed, or some
      dispatcher of the same operation gives up. Nothing else touches it. */
  lemma AcceptedLeavesExactlyBy(w: World, step: Step, id: OpId)
    requires Inv(w) && Enabled(w, step) && IsAccepted(w.reg, id)
    ensures var r := Next(w, step).reg;
      && (id !in r.entries <==> AbandonsFor(w, step, id))
      && (id in r.entries && r.entries[id].state.Completed? <==> Completes(w, step, id))
      && (id in r.entries && !r.entries[id].state.Completed? ==> r.entries[id] == w.reg.entries[id])
  {
    hide Settle, Valid, Begin, Acknowledge, Without, Inv, DoCall;
    InvParts(w, id);
    match step
    case Tick(_) =>
    case Call(called) => CallLeavesAccepted(w, called, id);
    case Accept(c) => SettleFacts(w, MarkEnqueued(w.reg, w.callers[c].id, w.generation, w.now));
    case GiveUp(c) => SettleFacts(w, Abandon(w.reg, w.callers[c].id, w.generation));
    case Vanish(_) =>
    case Deliver => DeliverLeavesAccepted(w, id);
    case RefuseStaleRun =>
      var rest := w.(mailbox := w.mailbox[1..]);
      FramesInv(w, rest);
      AcknowledgeKeepsInv(rest, w.mailbox[0].id, ControlOutcome(Err(TurnMismatch)));
    case Finish(result) =>
      IdleKeepsInv(w);
      AcknowledgeKeepsInv(w.(actor := Idle), w.actor.message.id, result);
    case Sweep => SettleFacts(w, Pruned(w.reg, w.now));
  }

  lemma CallLeavesAccepted(w: World, called: OpId, id: OpId)
    requires Inv(w) && IsAccepted(w.reg, id)
    ensures id in DoCall(w, called).reg.entries && DoCall(w, called).reg.entries[id] == w.reg.entries[id]
  {
    hide Settle, Valid, Begin, Inv;
    InvParts(w, id);
    BeginEffect(w.reg, called, w.generation, w.now);
    SettleFacts(w, Begin(w.reg, called, w.generation, w.now).0);
  }

  lemma DeliverLeavesAccepted(w: World, id: OpId)
    requires Inv(w) && Enabled(w, Deliver) && IsAccepted(w.reg, id)
    ensures id in DoDeliver(w).reg.entries && DoDeliver(w).reg.entries[id] == w.reg.entries[id]
  {
    hide Settle, Valid, Acknowledge, Inv;
    var m := w.mailbox[0];
    var rest := w.(mailbox := w.mailbox[1..]);
    InvParts(w, id);
    FramesInv(w, rest);
    if Cached(w.reg, m.id, w.generation).Some? {
      AcknowledgeKeepsInv(rest, m.id, Cached(w.reg, m.id, w.generation).value);
    }
  }
}
