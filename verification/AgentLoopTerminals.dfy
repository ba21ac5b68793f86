/** Which terminal event a command commits: each one has the delivery that calls for it, and no other. */
module AgentLoopTerminals {
  import opened Common
  import opened ExecutionWindows
  import opened AgentLoop
  import opened AgentLoopLaws
  import O = AgentLoopOutcomes

  // ---- What a command calls for ----

  /** Some limit of the turn's budget has been reached. */
  ghost predicate Exhausted(usage: Counters, b: Budget) { exists kind :: Reached(usage, Normalized(b), kind) }

  /** A Stop of the active turn that neither a recorded outcome, another run nor the fence answers. */
  predicate StopReaches(s: LoopState, cmd: Command, env: Env) {
    && cmd.CancelTurn? && s.turn == Some(cmd.turn)
    && (cmd.expectedRun.None? || cmd.expectedRun == s.run)
    && s.fence != Some(cmd.turn)
    && !env.outcomeRecorded
  }

  /** A recovery of the active turn whose window cannot be announced: it is admitted and has a provider,
      but carries a checkpoint that cannot be handed over. */
  ghost predicate HandoffFails(s: LoopState, cmd: Command, env: Env) {
    && cmd.StartRecovery? && s.turn == Some(cmd.request.turn) && !cmd.isToolItem
    && !env.outcomeRecorded && env.providerOk && !env.handoffOk
    && s.snapshot.Some? && cmd.request.context.Some?
    && !Exhausted(cmd.request.context.value.usage, s.snapshot.value.budget)
  }

  /** How the task of the current run ends its turn, if it does. */
  ghost function TaskVerdict(s: LoopState, result: TaskResult, env: Env): Option<Event>
    requires s.request.Some? && s.snapshot.Some?
  {
    match result
    case Finished => Some(TurnCompleted)
    case TerminalFailure => Some(TurnFailed)
    case BlockedFailure => Some(TurnBlocked)
    case ProviderFailure => Some(ProviderFailureDetected)
    case NeedsContinuation(payload, _) =>
      if Exhausted(Observe(s.request.value.usage, payload), s.snapshot.value.budget) then Some(TurnBlocked)
      else if !env.providerOk then Some(TurnFailed)
      else None
  }

  /** The terminal event a command calls for in a state. */
  ghost function Verdict(s: LoopState, cmd: Command, env: Env): Option<Event>
    requires Whole(s)
  {
    if s.exit != Running then None
    else if cmd.TurnTaskFinished? && s.turn == Some(cmd.turn) && s.run == Some(cmd.run) then
      TaskVerdict(s, cmd.result, env)
    else if StopReaches(s, cmd, env) && (cmd.hasOwner || !env.durableStop) then Some(TurnInterrupted)
    else if HandoffFails(s, cmd, env) then Some(TurnFailed)
    else None
  }

  function StatusOf(event: Event): Option<Status> {
    match event
    case TurnCompleted => Some(Completed)
    case TurnFailed => Some(Failed)
    case TurnBlocked => Some(Blocked)
    case TurnInterrupted => Some(Interrupted)
    case _ => None
  }

  /** Every publication is accepted, and none races with a cancellation. */
  predicate AllAccepted(env: Env) {
    && env.window.Accept? && env.prepare.Accept? && env.terminal.Accept? && env.recovered.Accept?
    && !env.windowRace.cancelled && !env.recoveredRace.cancelled
  }

  // ---- What a step adds to the log ----

  predicate OfTurn(e: Entry, s: LoopState) { Some(e.turn) == s.turn && e.run == s.run }

  /** The log grows, by at most one terminal entry, which is the one called for, of the turn and run that
      were current. */
  ghost predicate Tells(s: LoopState, t: LoopState, due: Option<Event>) {
    && s.log <= t.log
    && (forall i :: |s.log| <= i < |t.log| && IsTerminal(t.log[i].event) ==>
          Some(t.log[i].event) == due && OfTurn(t.log[i], s))
    && (forall i, j :: |s.log| <= i < j < |t.log| ==> !IsTerminal(t.log[i].event) || !IsTerminal(t.log[j].event))
  }

  /** It does grow by the one called for, and an observer learns its status. */
  ghost predicate Told(s: LoopState, t: LoopState, event: Event) {
    && (exists i :: |s.log| <= i < |t.log| && t.log[i].event == event && OfTurn(t.log[i], s))
    && t.turn.None?
    && t.observation == (if StatusOf(event).Some? && s.turn.Some?
                         then Some((s.turn.value, StatusOf(event).value)) else s.observation)
  }

  lemma TellsNothing(s: LoopState, t: LoopState, due: Option<Event>)
    requires t.log == s.log || (|t.log| == |s.log| + 1 && s.log <= t.log && !IsTerminal(t.log[|s.log|].event))
    ensures Tells(s, t, due)
  {
  }

  /** Plain entries before a terminal one, or after it, change nothing. */
  lemma PlainBefore(s: LoopState, m: LoopState, t: LoopState, due: Option<Event>)
    requires m.turn == s.turn && m.run == s.run && s.log <= m.log && Tells(m, t, due)
    requires forall i :: |s.log| <= i < |m.log| ==> !IsTerminal(m.log[i].event)
    ensures Tells(s, t, due)
  {
    forall i | |s.log| <= i < |m.log|
      ensures !IsTerminal(t.log[i].event)
    {
      assert t.log[i] == m.log[i];
    }
  }

  lemma PlainAfter(s: LoopState, m: LoopState, t: LoopState, due: Option<Event>)
    requires Tells(s, m, due) && m.log <= t.log
    requires forall i :: |m.log| <= i < |t.log| ==> !IsTerminal(t.log[i].event)
    ensures Tells(s, t, due)
  {
    assert forall i :: 0 <= i < |m.log| ==> t.log[i] == m.log[i];
  }

  // ---- Building blocks ----

  lemma CommitAdds(s: LoopState, turn: Turn, event: Event, answer: Answer)
    ensures Commit(s, turn, event, answer).Go? <==> answer.Accept?
    ensures Commit(s, turn, event, answer).Go? ==> Commit(s, turn, event, answer).state == Logged(s, turn, event)
    ensures Commit(s, turn, event, answer).Over? ==> Commit(s, turn, event, answer).state.log == s.log
  {
  }

  lemma CommitUnlessCancelledAdds(s: LoopState, turn: Turn, event: Event, answer: Answer, race: Race)
    ensures var flow := CommitUnlessCancelled(s, turn, event, answer, race);
            && (flow.Go? ==> flow.state == Logged(s, turn, event))
            && (flow.Over? ==> flow.state.log == s.log)
            && (answer.Accept? && !race.cancelled ==> flow.Go?)
  {
  }

  lemma CommitTerminalTells(
      s: LoopState, turn: Turn, run: RunId, snapshot: Option<Snapshot>, event: Event, env: Env)
    requires s.turn == Some(turn) && snapshot.Some?
    ensures var flow := CommitTerminal(s, turn, run, snapshot, event, env);
            && Tells(s, flow.state, Some(event))
            && (flow.Go? ==> flow.state == s.(log := flow.state.log) && |flow.state.log| == |s.log| + 2)
            && (flow.Go? ==> flow.state.log[|s.log| + 1] == Entry(event, turn, s.run, s.activations))
            && (env.prepare.Accept? && env.terminal.Accept? ==> flow.Go?)
  {
    hide Commit;
    var preparation := TerminalEffectsPrepared(run, snapshot.value.generation);
    CommitAdds(s, turn, preparation, env.prepare);
    CommitAdds(Logged(s, turn, preparation), turn, event, env.terminal);
  }

  lemma EndTurnTells(
      s: LoopState, turn: Turn, run: RunId, snapshot: Option<Snapshot>, event: Event, env: Env)
    requires s.turn == Some(turn) && snapshot.Some?
    ensures var t := EndTurn(s, turn, run, snapshot, event, StatusOf(event), env);
            && Tells(s, t, Some(event))
            && (env.prepare.Accept? && env.terminal.Accept? ==> Told(s, t, event))
  {
    hide CommitTerminal;
    CommitTerminalTells(s, turn, run, snapshot, event, env);
  }

  // ---- The commands ----

  lemma CompletedTells(s: LoopState, turn: Turn, run: RunId, contextSession: bool, env: Env)
    requires s.turn == Some(turn) && s.snapshot.Some?
    ensures var t := HandleCompleted(s, turn, run, contextSession, env);
            && Tells(s, t, Some(TurnCompleted))
            && (AllAccepted(env) ==> Told(s, t, TurnCompleted))
  {
    hide CommitTerminal, Commit, Tells;
    CommitTerminalTells(s, turn, run, s.snapshot, TurnCompleted, env);
    var flow := CommitTerminal(s, turn, run, s.snapshot, TurnCompleted, env);
    var t := HandleCompleted(s, turn, run, contextSession, env);
    if flow.Go? {
      if s.recovery.Some? {
        CommitAdds(flow.state, turn, RecoverySucceeded(s.recovery.value.serial), env.recovered);
      }
      PlainAfter(s, flow.state, t, Some(TurnCompleted));
      assert t.log[|s.log| + 1] == flow.state.log[|s.log| + 1];
    }
  }

  lemma ExhaustionBlocks(r: Request, p: Payload, history: seq<string>, b: Budget)
    ensures Continued(r, p, history, b).Err? <==> Exhausted(Observe(r.usage, p), b)
  {
    hide Decide, Observe, Reached;
    DecisionNamesFirstReachedLimit(Observe(r.usage, p), Normalized(b));
  }

  lemma BlockedTells(s: LoopState, turn: Turn, run: RunId, env: Env)
    requires s.turn == Some(turn) && s.snapshot.Some?
    ensures var flow := CommitUnlessCancelled(s, turn, WindowBlocked(false), env.window, env.windowRace);
            var t := if flow.Over? then flow.state
                     else EndTurn(flow.state, turn, run, s.snapshot, TurnBlocked, Some(Blocked), env);
            && Tells(s, t, Some(TurnBlocked))
            && (AllAccepted(env) ==> Told(s, t, TurnBlocked))
  {
    hide CommitUnlessCancelled, EndTurn, Tells;
    CommitUnlessCancelledAdds(s, turn, WindowBlocked(false), env.window, env.windowRace);
    var flow := CommitUnlessCancelled(s, turn, WindowBlocked(false), env.window, env.windowRace);
    if flow.Over? {
      TellsNothing(s, flow.state, Some(TurnBlocked));
    } else {
      EndTurnTells(flow.state, turn, run, s.snapshot, TurnBlocked, env);
      PlainBefore(s, flow.state, EndTurn(flow.state, turn, run, s.snapshot, TurnBlocked, Some(Blocked), env), Some(TurnBlocked));
    }
  }

  lemma OpenNextWindowTells(s: LoopState, turn: Turn, newRun: RunId, next: Request, snapshot: Snapshot, env: Env)
    ensures Tells(s, OpenNextWindow(s, turn, newRun, next, snapshot, env), None)
  {
    hide CommitUnlessCancelled;
    var continued := WindowContinued(next.windowIndex);
    CommitUnlessCancelledAdds(s, turn, continued, env.window, env.windowRace);
    if s.recovery.Some? {
      CommitUnlessCancelledAdds(
        Logged(s, turn, continued), turn, RecoverySucceeded(s.recovery.value.serial), env.recovered, env.recoveredRace);
    }
  }

  lemma ContinuationTells(s: LoopState, turn: Turn, run: RunId, payload: Payload, history: seq<string>, env: Env)
    requires s.turn == Some(turn) && s.request.Some? && s.snapshot.Some?
    ensures var due := TaskVerdict(s, NeedsContinuation(payload, history), env);
            var t := HandleContinuation(s, turn, run, payload, history, env);
            && Tells(s, t, due)
            && (AllAccepted(env) && due.Some? ==> Told(s, t, due.value))
  {
    hide CommitUnlessCancelled, EndTurn, OpenNextWindow, Tells, Told, Continued, Exhausted;
    ExhaustionBlocks(s.request.value, payload, history, s.snapshot.value.budget);
    match Continued(s.request.value, payload, history, s.snapshot.value.budget)
    case Err(_) => BlockedTells(s, turn, run, env);
    case Ok(next) =>
      if env.providerOk {
        OpenNextWindowTells(IssueRun(s), turn, s.nextRun, next, s.snapshot.value, env);
        PlainBefore(s, IssueRun(s), OpenNextWindow(IssueRun(s), turn, s.nextRun, next, s.snapshot.value, env), None);
      } else {
        EndTurnTells(s, turn, run, s.snapshot, TurnFailed, env);
      }
  }

  lemma FinishedTells(s: LoopState, turn: Turn, run: RunId, result: TaskResult, contextSession: bool, env: Env)
    requires Whole(s) && s.turn == Some(turn) && s.run == Some(run)
    ensures var due := TaskVerdict(s, result, env);
            var t := HandleFinished(s, turn, run, result, contextSession, env);
            && Tells(s, t, due)
            && (AllAccepted(env) && due.Some? ==> Told(s, t, due.value))
  {
    hide HandleCompleted, HandleContinuation, EndTurn, Exhausted, Observe;
    var t := s.(task := None);
    match result
    case Finished => CompletedTells(t, turn, run, contextSession, env);
    case NeedsContinuation(payload, history) => ContinuationTells(t, turn, run, payload, history, env);
    case TerminalFailure => EndTurnTells(t, turn, run, t.snapshot, TurnFailed, env);
    case BlockedFailure => EndTurnTells(t, turn, run, t.snapshot, TurnBlocked, env);
    case ProviderFailure => EndTurnTells(t.(lastRequest := t.request), turn, run, t.snapshot, ProviderFailureDetected, env);
  }

  lemma InterruptionTells(s: LoopState, turn: Turn, durable: bool, hasOwner: bool, env: Env)
    requires s.turn == Some(turn) && s.snapshot.Some?
    ensures var flow := PublishInterruption(s, turn, durable, hasOwner, env);
            && Tells(s, flow.state, if hasOwner || !durable then Some(TurnInterrupted) else None)
            && (flow.Go? ==> flow.state == s.(log := flow.state.log))
            && (AllAccepted(env) ==> flow.Go?)
            && (flow.Go? && (hasOwner || !durable) ==>
                  && |flow.state.log| > |s.log|
                  && flow.state.log[|flow.state.log| - 1] == Entry(TurnInterrupted, turn, s.run, s.activations))
  {
    hide Commit;
    CommitAdds(s, turn, TurnInterrupted, env.terminal);
    CommitAdds(s, turn, CancellationContextPrepared, env.prepare);
    CommitAdds(Logged(s, turn, CancellationContextPrepared), turn, TurnInterrupted, env.terminal);
  }

  lemma CancelTells(s: LoopState, cmd: Command, env: Env)
    requires Whole(s) && s.exit == Running && cmd.CancelTurn? && (cmd.expectedRun.None? || cmd.expectedRun == s.run)
    ensures var due := Verdict(s, cmd, env);
            var t := HandleCancel(s, cmd.turn, cmd.hasOwner, StopsFence(s, cmd), env);
            && Tells(s, t, due)
            && (AllAccepted(env) && due.Some? ==> Told(s, t, due.value))
            && (AllAccepted(env) && StopReaches(s, cmd, env) ==> t.turn.None? && t.observation == Some((cmd.turn, Interrupted)))
  {
    hide PublishInterruption;
    if StopReaches(s, cmd, env) {
      InterruptionTells(Joined(s.(reply := Accepted)), cmd.turn, env.durableStop, cmd.hasOwner, env);
    }
  }

  lemma AnnouncesPlainly(s: LoopState, request: Request, env: Env)
    ensures Announce(s, request, env).None? <==> request.context.Some? && !env.handoffOk
    ensures Announce(s, request, env).Some? ==>
              var t := Announce(s, request, env).value;
              && s.log <= t.log && |t.log| <= |s.log| + 1
              && (|t.log| > |s.log| ==> !IsTerminal(t.log[|s.log|].event))
  {
  }

  lemma AdmittedExactly(r: Request, q: RecoveryRequest, b: Budget)
    ensures Adjusted(r, q).context == q.context
    ensures q.context.Some? ==>
              (AdmissionError(Adjusted(r, q), b).None? <==> !Exhausted(q.context.value.usage, b))
  {
    hide Decide, Reached, Filter, IsBlank;
    if q.context.Some? {
      DecisionNamesFirstReachedLimit(q.context.value.usage, Normalized(b));
    }
  }

  lemma RestartActiveTells(s: LoopState, cmd: Command, env: Env)
    requires Whole(s) && s.exit == Running && cmd.StartRecovery? && !cmd.isToolItem && !env.outcomeRecorded
    requires s.turn == Some(cmd.request.turn)
    ensures var due := if HandoffFails(s, cmd, env) then Some(TurnFailed) else None;
            var t := RestartActive(s, Adjusted(s.request.value, cmd.request), s.snapshot.value, cmd.request.turn, cmd.attempt, env);
            && Tells(s, t, due)
            && (AllAccepted(env) && due.Some? ==> Told(s, t, due.value))
  {
    hide Announce, EndTurn, AdmissionError, Adjusted, Exhausted;
    var request := Adjusted(s.request.value, cmd.request);
    var joined := Joined(s.(reply := Accepted));
    AnnouncesPlainly(joined, request, env);
    AdmittedExactly(s.request.value, cmd.request, s.snapshot.value.budget);
    EndTurnTells(joined, cmd.request.turn, s.run.value, s.snapshot, TurnFailed, env);
  }

  lemma RecoveryTells(s: LoopState, cmd: Command, env: Env)
    requires Whole(s) && s.exit == Running && cmd.StartRecovery?
    ensures var due := Verdict(s, cmd, env);
            var t := HandleRecovery(s, cmd.request, cmd.attempt, cmd.isToolItem, env);
            && Tells(s, t, due)
            && (AllAccepted(env) && due.Some? ==> Told(s, t, due.value))
  {
    hide RestartActive, Adjusted, AdmissionError, Announce, Exhausted;
    if s.turn == Some(cmd.request.turn) {
      if !cmd.isToolItem && !env.outcomeRecorded {
        RestartActiveTells(s, cmd, env);
      }
    } else if s.turn.None? && s.lastRequest.Some? {
      AnnouncesPlainly(s, Adjusted(s.lastRequest.value, cmd.request), env);
    }
  }

  lemma StartsTell(s: LoopState, cmd: Command, env: Env)
    requires cmd.StartTurn? || cmd.StartRestored?
    ensures Tells(s, Dispatch(s, cmd, false, env), None)
  {
    hide Announce, AdmissionError, Adjusted;
    match cmd
    case StartTurn(spec) => AnnouncesPlainly(s, StartRequest(spec), env);
    case StartRestored(spec, q, _) => AnnouncesPlainly(s, Adjusted(RestoredRequest(spec), q), env);
  }

  lemma RecoverySucceededTells(s: LoopState, turn: Turn, run: RunId, attempt: Attempt, env: Env)
    ensures Tells(s, HandleRecoverySucceeded(s, turn, run, attempt, env), None)
  {
    hide CommitUnlessCancelled;
    if s.recovery.Some? {
      CommitUnlessCancelledAdds(s, turn, RecoverySucceeded(s.recovery.value.serial), env.recovered, env.recoveredRace);
    }
  }

  lemma OtherTells(s: LoopState, cmd: Command, env: Env)
    requires Whole(s)
    requires cmd.CancelAttempt? || cmd.ObserveTurn? || cmd.DurableStartRejected? || cmd.Shutdown?
    ensures Tells(s, Dispatch(s, cmd, false, env), None)
  {
  }

  lemma DispatchTells(s: LoopState, cmd: Command, env: Env)
    requires Whole(s) && s.exit == Running && !BoundToAnotherRun(s, cmd)
    ensures var due := Verdict(s, cmd, env);
            var t := Dispatch(s, cmd, StopsFence(s, cmd), env);
            && Tells(s, t, due)
            && (AllAccepted(env) && due.Some? ==> Told(s, t, due.value))
            && (AllAccepted(env) && StopReaches(s, cmd, env) ==> t.turn.None? && t.observation == Some((cmd.turn, Interrupted)))
  {
    hide HandleFinished, HandleRecoverySucceeded, HandleCancel, HandleRecovery, TaskVerdict, Told, Exhausted;
    match cmd
    case StartTurn(_) => StartsTell(s, cmd, env);
    case TurnTaskFinished(turn, run, result, session) =>
      if s.turn == Some(turn) && s.run == Some(run) {
        FinishedTells(s, turn, run, result, session, env);
      } else {
        StaleIsKept(s, turn, run, result, session, env);
      }
    case RecoveryAttemptSucceeded(turn, run, attempt) => RecoverySucceededTells(s, turn, run, attempt, env);
    case CancelAttempt(_) => OtherTells(s, cmd, env);
    case CancelTurn(_, _, _) => CancelTells(s, cmd, env);
    case ObserveTurn(_) => OtherTells(s, cmd, env);
    case StartRecovery(_, _, _) => RecoveryTells(s, cmd, env);
    case StartRestored(_, _, _) => StartsTell(s, cmd, env);
    case DurableStartRejected(_, _) => OtherTells(s, cmd, env);
    case Shutdown => OtherTells(s, cmd, env);
  }

  lemma StaleIsKept(s: LoopState, turn: Turn, run: RunId, result: TaskResult, session: bool, env: Env)
    requires s.turn != Some(turn) || s.run != Some(run)
    ensures HandleFinished(s, turn, run, result, session, env) == s
  {
  }

  /** A command commits the terminal event it calls for and no other, for the turn and run that are
      current; when every publication is accepted it commits it, ends the turn and its status is observed. */
  lemma HandleTells(s: LoopState, cmd: Command, env: Env)
    requires Whole(s)
    ensures var due := Verdict(s, cmd, env);
            var t := Handle(s, cmd, env);
            && Tells(s, t, due)
            && (AllAccepted(env) && due.Some? ==> Told(s, t, due.value))
            && (s.exit == Running && AllAccepted(env) && StopReaches(s, cmd, env) ==>
                  t.turn.None? && t.observation == Some((cmd.turn, Interrupted)))
  {
    hide Dispatch, TaskVerdict, Exhausted;
    if s.exit == Running && !BoundToAnotherRun(s, cmd) {
      var received := s.(reply := Silent, fence := if TakesFence(s, cmd) then None else s.fence);
      if StopsFence(s, cmd) {
        FencedTells(received, cmd, env);
      } else {
        DispatchTells(received, cmd, env);
        VerdictIgnoresAnswers(s, received, cmd, env);
      }
    }
  }

  lemma FencedTells(s: LoopState, cmd: Command, env: Env)
    requires cmd.CancelTurn?
    ensures Tells(s, Dispatch(s, cmd, true, env), None)
  {
  }

  lemma VerdictIgnoresAnswers(s: LoopState, r: LoopState, cmd: Command, env: Env)
    requires Whole(s) && !StopsFence(s, cmd)
    requires r == s.(reply := Silent, fence := if TakesFence(s, cmd) then None else s.fence)
    ensures Whole(r) && Verdict(r, cmd, env) == Verdict(s, cmd, env)
    ensures StopReaches(r, cmd, env) <==> StopReaches(s, cmd, env)
  {
    hide Exhausted, Observe;
  }

  // ---- Whole runs ----

  predicate EndsIts(cmd: Command, e: Entry) {
    cmd.TurnTaskFinished? && cmd.turn == e.turn && Some(cmd.run) == e.run
  }

  /** The delivery that a terminal entry comes from, event by event. */
  ghost predicate Warrants(s: LoopState, d: Delivery, e: Entry) {
    var (cmd, env) := (d.command, d.env);
    && OfTurn(e, s)
    && match e.event
       case TurnCompleted => EndsIts(cmd, e) && cmd.result.Finished?
       case ProviderFailureDetected => EndsIts(cmd, e) && cmd.result.ProviderFailure?
       case TurnBlocked => EndsIts(cmd, e) && (cmd.result.BlockedFailure? || (cmd.result.NeedsContinuation? && OutOfBudget(s, cmd)))
       case TurnFailed =>
         || (EndsIts(cmd, e) && cmd.result.TerminalFailure?)
         || (EndsIts(cmd, e) && cmd.result.NeedsContinuation? && !OutOfBudget(s, cmd) && !env.providerOk)
         || HandoffFails(s, cmd, env)
       case TurnInterrupted => StopReaches(s, cmd, env) && cmd.turn == e.turn && (cmd.hasOwner || !env.durableStop)
       case _ => false
  }

  /** The window a continuation reports has used up its turn's budget. */
  ghost predicate OutOfBudget(s: LoopState, cmd: Command)
    requires cmd.TurnTaskFinished? && cmd.result.NeedsContinuation?
  {
    s.request.Some? && s.snapshot.Some? && Exhausted(Observe(s.request.value.usage, cmd.result.payload), s.snapshot.value.budget)
  }

  lemma VerdictWarrants(s: LoopState, d: Delivery, e: Entry)
    requires Whole(s) && OfTurn(e, s) && IsTerminal(e.event)
    ensures Verdict(s, d.command, d.env) == Some(e.event) <==> s.exit == Running && Warrants(s, d, e)
  {
    hide Exhausted, Observe;
  }

  ghost predicate HasDelivery(mailbox: seq<Delivery>, e: Entry) {
    exists j :: 0 <= j < |mailbox| && Warrants(HandleAll(START, mailbox[..j]), mailbox[j], e)
  }

  lemma DeliveryStays(mailbox: seq<Delivery>, d: Delivery, e: Entry)
    requires HasDelivery(mailbox, e)
    ensures HasDelivery(mailbox + [d], e)
  {
    hide HandleAll, Warrants;
    var j :| 0 <= j < |mailbox| && Warrants(HandleAll(START, mailbox[..j]), mailbox[j], e);
    var all := mailbox + [d];
    assert all[..j] == mailbox[..j] && all[j] == mailbox[j];
  }

  /** Over any run of the loop every terminal entry of the log comes from a delivery for its own turn and
      run that calls for exactly that event. */
  lemma {:induction false} EveryTerminalHasItsDelivery(mailbox: seq<Delivery>, i: nat)
    requires i < |HandleAll(START, mailbox).log| && IsTerminal(HandleAll(START, mailbox).log[i].event)
    ensures HasDelivery(mailbox, HandleAll(START, mailbox).log[i])
  {
    hide Handle, Inv, Warrants, Verdict, HasDelivery, IsTerminal;
    if mailbox != [] {
      var last := |mailbox| - 1;
      var init, d := mailbox[..last], mailbox[last];
      var s := HandleAll(START, init);
      var e := HandleAll(START, mailbox).log[i];
      WholeAfter(init);
      HandleTells(s, d.command, d.env);
      assert mailbox == init + [d];
      if i < |s.log| {
        EveryTerminalHasItsDelivery(init, i);
        DeliveryStays(init, d, e);
      } else {
        VerdictWarrants(s, d, e);
        LastDelivery(init, d, e);
      }
    }
  }

  lemma LastDelivery(mailbox: seq<Delivery>, d: Delivery, e: Entry)
    requires Warrants(HandleAll(START, mailbox), d, e)
    ensures HasDelivery(mailbox + [d], e)
  {
    hide HandleAll, Warrants;
    var all := mailbox + [d];
    assert all[..|mailbox|] == mailbox && all[|mailbox|] == d;
  }

  lemma WholeAfter(mailbox: seq<Delivery>)
    ensures Whole(HandleAll(START, mailbox))
  {
    hide HandleAll;
    EveryRunKeepsInv(mailbox);
  }

  /** The other way round: a delivery that calls for a terminal event puts it in the log for good, when
      every publication it makes is accepted. */
  lemma {:induction false} EveryVerdictIsLogged(mailbox: seq<Delivery>, j: nat)
    requires j < |mailbox| && AllAccepted(mailbox[j].env)
    requires (WholeAfter(mailbox[..j]); Verdict(HandleAll(START, mailbox[..j]), mailbox[j].command, mailbox[j].env).Some?)
    ensures (WholeAfter(mailbox[..j]);
             var s := HandleAll(START, mailbox[..j]);
             var event := Verdict(s, mailbox[j].command, mailbox[j].env).value;
             exists i :: 0 <= i < |HandleAll(START, mailbox).log|
                         && HandleAll(START, mailbox).log[i].event == event && OfTurn(HandleAll(START, mailbox).log[i], s))
  {
    hide Handle, Inv, Verdict, IsTerminal, Whole;
    var last := |mailbox| - 1;
    var init, d := mailbox[..last], mailbox[last];
    var u := HandleAll(START, init);
    var s := HandleAll(START, mailbox[..j]);
    WholeAfter(init);
    WholeAfter(mailbox[..j]);
    HandleTells(u, d.command, d.env);
    var t := HandleAll(START, mailbox);
    if j < last {
      assert init[..j] == mailbox[..j];
      EveryVerdictIsLogged(init, j);
      var event := Verdict(s, mailbox[j].command, mailbox[j].env).value;
      var i :| 0 <= i < |u.log| && u.log[i].event == event && OfTurn(u.log[i], s);
      assert t.log[i] == u.log[i];
    }
  }

  // ---- When a command launches a run ----

  /** A checkpoint can be handed over and leaves its budget unexhausted. */
  ghost predicate Admits(context: Option<CheckpointContext>, b: Budget, env: Env) {
    context.Some? ==> env.handoffOk && !Exhausted(context.value.usage, b)
  }

  /** The commands that start a run of a turn. */
  ghost predicate Launches(s: LoopState, cmd: Command, env: Env) {
    match cmd
    case StartTurn(spec) =>
      s.turn.None? && !env.outcomeRecorded && env.providerOk && (spec.context.Some? ==> env.handoffOk)
    case StartRestored(spec, q, _) =>
      && s.turn.None? && !env.outcomeRecorded && env.providerOk && spec.turn == q.turn
      && Admits(q.context, env.snapshot.budget, env)
    case StartRecovery(q, _, isToolItem) =>
      && (s.turn.None? || s.turn == Some(q.turn)) && !env.outcomeRecorded && env.providerOk && !isToolItem
      && s.lastRequest.Some? && s.lastRequest.value.turn == q.turn && s.lastSnapshot.Some?
      && Admits(q.context, s.lastSnapshot.value.budget, env)
    case TurnTaskFinished(turn, run, result, _) =>
      && s.turn == Some(turn) && s.run == Some(run) && result.NeedsContinuation?
      && !OutOfBudget(s, cmd) && env.providerOk
    case _ => false
  }

  lemma WithoutCheckpointAdmitted(r: Request, q: RecoveryRequest, b: Budget)
    ensures q.context.None? ==> AdmissionError(Adjusted(r, q), b).None?
  {
  }

  lemma StartLaunches(s: LoopState, cmd: Command, env: Env)
    requires Whole(s) && s.exit == Running && (cmd.StartTurn? || cmd.StartRestored?)
    ensures Dispatch(s, cmd, false, env).issued == s.issued + (if Launches(s, cmd, env) then [s.nextRun] else [])
  {
    hide AdmissionError, Adjusted, Exhausted;
    if cmd.StartRestored? {
      AdmittedExactly(RestoredRequest(cmd.restored), cmd.request, env.snapshot.budget);
      WithoutCheckpointAdmitted(RestoredRequest(cmd.restored), cmd.request, env.snapshot.budget);
    }
  }

  lemma EndTurnIssues(s: LoopState, turn: Turn, run: RunId, snapshot: Option<Snapshot>, event: Event, status: Option<Status>, env: Env)
    ensures EndTurn(s, turn, run, snapshot, event, status, env).issued == s.issued
  {
  }

  lemma RecoveryLaunches(s: LoopState, cmd: Command, env: Env)
    requires Whole(s) && s.exit == Running && cmd.StartRecovery?
    ensures Dispatch(s, cmd, false, env).issued == s.issued + (if Launches(s, cmd, env) then [s.nextRun] else [])
  {
    hide AdmissionError, Adjusted, Exhausted, EndTurn;
    if s.lastRequest.Some? {
      AdmittedExactly(s.lastRequest.value, cmd.request, s.lastSnapshot.value.budget);
      WithoutCheckpointAdmitted(s.lastRequest.value, cmd.request, s.lastSnapshot.value.budget);
    }
    if s.turn.Some? {
      EndTurnIssues(Joined(s.(reply := Accepted)), cmd.request.turn, s.run.value, s.snapshot, TurnFailed, Some(Failed), env);
    }
  }

  lemma OpenNextWindowInstalls(s: LoopState, turn: Turn, newRun: RunId, next: Request, snapshot: Snapshot, env: Env)
    requires AllAccepted(env)
    ensures var t := OpenNextWindow(s, turn, newRun, next, snapshot, env); t.turn == Some(turn) && t.issued == s.issued
  {
    hide CommitUnlessCancelled;
    var continued := WindowContinued(next.windowIndex);
    CommitUnlessCancelledAdds(s, turn, continued, env.window, env.windowRace);
    if s.recovery.Some? {
      CommitUnlessCancelledAdds(
        Logged(s, turn, continued), turn, RecoverySucceeded(s.recovery.value.serial), env.recovered, env.recoveredRace);
    }
  }

  lemma ContinuationLaunches(s: LoopState, turn: Turn, run: RunId, payload: Payload, history: seq<string>, env: Env)
    requires s.turn == Some(turn) && s.request.Some? && s.snapshot.Some? && AllAccepted(env)
    ensures var t := HandleContinuation(s, turn, run, payload, history, env);
            if !Exhausted(Observe(s.request.value.usage, payload), s.snapshot.value.budget) && env.providerOk
            then t.turn == Some(turn) && t.issued == s.issued + [s.nextRun]
            else t.issued == s.issued
  {
    hide CommitUnlessCancelled, EndTurn, OpenNextWindow, Continued, Exhausted;
    ExhaustionBlocks(s.request.value, payload, history, s.snapshot.value.budget);
    CommitUnlessCancelledAdds(s, turn, WindowBlocked(false), env.window, env.windowRace);
    EndTurnIssues(Logged(s, turn, WindowBlocked(false)), turn, run, s.snapshot, TurnBlocked, Some(Blocked), env);
    EndTurnIssues(s, turn, run, s.snapshot, TurnFailed, Some(Failed), env);
    if Continued(s.request.value, payload, history, s.snapshot.value.budget).Ok? {
      var next := Continued(s.request.value, payload, history, s.snapshot.value.budget).value;
      OpenNextWindowInstalls(IssueRun(s), turn, s.nextRun, next, s.snapshot.value, env);
    }
  }

  lemma FinishedLaunches(s: LoopState, cmd: Command, env: Env)
    requires Whole(s) && s.exit == Running && AllAccepted(env) && cmd.TurnTaskFinished? && cmd.result.NeedsContinuation?
    ensures var t := Dispatch(s, cmd, false, env);
            if Launches(s, cmd, env) then t.turn.Some? && t.issued == s.issued + [s.nextRun] else t.issued == s.issued
  {
    hide HandleContinuation, Exhausted, Observe;
    if s.turn == Some(cmd.turn) && s.run == Some(cmd.run) {
      ContinuationLaunches(s.(task := None), cmd.turn, cmd.run, cmd.result.payload, cmd.result.history, env);
    }
  }

  /** When every publication is accepted a run is launched exactly by the commands that start one: no
      start, recovery or continuation that meets its conditions is turned away. */
  lemma CommandLaunchesExactly(s: LoopState, cmd: Command, env: Env)
    requires Whole(s) && s.exit == Running && AllAccepted(env)
    ensures O.Launched(s, cmd, env, Handle(s, cmd, env)) <==> Launches(s, cmd, env)
  {
    hide Dispatch, Launches, Whole;
    O.HandleOutcome(s, cmd, env);
    var received := s.(reply := Silent, fence := if TakesFence(s, cmd) then None else s.fence);
    ReceivedLaunches(s, received, cmd, env);
    if cmd.StartTurn? || cmd.StartRestored? {
      StartLaunches(received, cmd, env);
    } else if cmd.StartRecovery? {
      RecoveryLaunches(received, cmd, env);
    } else if cmd.TurnTaskFinished? && cmd.result.NeedsContinuation? {
      FinishedLaunches(received, cmd, env);
    } else {
      NothingElseLaunches(s, cmd, env);
    }
  }

  lemma ReceivedLaunches(s: LoopState, r: LoopState, cmd: Command, env: Env)
    requires Whole(s) && r == s.(reply := Silent, fence := if TakesFence(s, cmd) then None else s.fence)
    ensures Whole(r) && (Launches(r, cmd, env) <==> Launches(s, cmd, env))
  {
    hide Exhausted, Observe;
  }

  lemma NothingElseLaunches(s: LoopState, cmd: Command, env: Env)
    requires !cmd.StartTurn? && !cmd.StartRestored? && !cmd.StartRecovery?
    requires cmd.TurnTaskFinished? ==> !cmd.result.NeedsContinuation?
    ensures !Launches(s, cmd, env) && O.LaunchedRequest(s, cmd, env).None?
  {
  }
}
