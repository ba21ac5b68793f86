/** What the loop tells its callers, observers and the durable log, and that it is true. */
module AgentLoopAnswers {
  import opened Common
  import opened ExecutionWindows
  import opened AgentLoop
  import opened AgentLoopLaws
  import opened AgentLoopTerminals

  function Received(s: LoopState, cmd: Command): LoopState {
    s.(reply := Silent, fence := if TakesFence(s, cmd) then None else s.fence)
  }

  /** The commands whose caller waits for an answer and may repeat them. */
  predicate Repeatable(cmd: Command) {
    cmd.StartTurn? || cmd.CancelAttempt? || cmd.CancelTurn? || cmd.StartRecovery? || cmd.StartRestored?
  }

  predicate Declined(reply: Reply) { reply.Refused? || reply.Recorded? }

  // ---- Success and refusal ----

  /** When a caller is told that its command succeeded. */
  ghost predicate Succeeds(s: LoopState, cmd: Command, env: Env) {
    match cmd
    case StartTurn(_) => Launches(s, cmd, env)
    case StartRestored(_, _, _) => Launches(s, cmd, env)
    case StartRecovery(q, _, isToolItem) =>
      if isToolItem then s.turn == Some(q.turn) && env.attemptRunning && !env.outcomeRecorded
      else Launches(s, cmd, env) || HandoffFails(s, cmd, env)
    case CancelAttempt(turn) => s.turn == Some(turn) && env.attemptRunning && !env.outcomeRecorded
    case CancelTurn(turn, expectedRun, _) =>
      && (expectedRun.None? || expectedRun == s.run) && !env.outcomeRecorded
      && if s.fence == Some(turn) then !env.fenceStopFails else s.turn == Some(turn)
    case _ => false
  }

  /** What each answer to a repeatable command says about the state it found. */
  ghost predicate Truthful(s: LoopState, cmd: Command, env: Env, t: LoopState) {
    && (t.reply.Recorded? <==> env.outcomeRecorded && !BoundToAnotherRun(s, cmd))
    && (t.reply.Started? || t.reply.Accepted? <==> Succeeds(s, cmd, env))
    && (t.reply.Started? <==> cmd.StartTurn? && Succeeds(s, cmd, env))
    && (t.reply.Started? ==> t.run == Some(s.nextRun) && t.reply == Started(s.nextRun) && t.observation.None?)
    && (t.reply == Refused(TurnAlreadyRunning) <==>
          (cmd.StartTurn? || cmd.StartRestored?) && s.turn.Some? && !env.outcomeRecorded)
    && (t.reply.Accepted? && t.turn.Some? && (cmd.StartRestored? || cmd.StartRecovery?) ==>
          t.recovery == Some(Installed(cmd.attempt, s.installs)) && t.installs == s.installs + 1)
    && (Declined(t.reply) ==> t == s.(reply := t.reply, fence := t.fence))
  }

  lemma StartIsTruthful(s: LoopState, cmd: Command, env: Env)
    requires Whole(s) && s.exit == Running && s.reply.Silent? && (cmd.StartTurn? || cmd.StartRestored?)
    ensures Truthful(s, cmd, env, Dispatch(s, cmd, false, env))
  {
    hide AdmissionError, Adjusted, Exhausted;
    if cmd.StartRestored? {
      AdmittedExactly(RestoredRequest(cmd.restored), cmd.request, env.snapshot.budget);
      WithoutCheckpointAdmitted(RestoredRequest(cmd.restored), cmd.request, env.snapshot.budget);
    }
  }

  lemma CancelIsTruthful(s: LoopState, cmd: Command, fenced: bool, env: Env)
    requires Whole(s) && s.exit == Running && s.reply.Silent? && cmd.CancelTurn? && !BoundToAnotherRun(s, cmd)
    requires fenced <==> StopsFence(s, cmd)
    ensures Truthful(s, cmd, env, Dispatch(s, cmd, fenced, env))
  {
    hide PublishInterruption;
    if !fenced && s.turn == Some(cmd.turn) {
      InterruptionKeepsReply(Joined(s.(reply := Accepted)), cmd.turn, s.control.Some? && env.durableStop, cmd.hasOwner, env);
    }
  }

  lemma InterruptionKeepsReply(s: LoopState, turn: Turn, durable: bool, hasOwner: bool, env: Env)
    ensures PublishInterruption(s, turn, durable, hasOwner, env).state.reply == s.reply
  {
  }

  lemma EndTurnKeepsReply(
      s: LoopState, turn: Turn, run: RunId, snapshot: Option<Snapshot>, event: Event, status: Option<Status>, env: Env)
    ensures EndTurn(s, turn, run, snapshot, event, status, env).reply == s.reply
    ensures EndTurn(s, turn, run, snapshot, event, status, env).turn.None?
  {
  }

  lemma RecoveryIsTruthful(s: LoopState, cmd: Command, env: Env)
    requires Whole(s) && s.exit == Running && s.reply.Silent? && cmd.StartRecovery?
    ensures Truthful(s, cmd, env, Dispatch(s, cmd, false, env))
  {
    hide AdmissionError, Adjusted, Exhausted, EndTurn;
    if s.lastRequest.Some? {
      AdmittedExactly(s.lastRequest.value, cmd.request, s.lastSnapshot.value.budget);
      WithoutCheckpointAdmitted(s.lastRequest.value, cmd.request, s.lastSnapshot.value.budget);
    }
    if s.turn.Some? {
      EndTurnKeepsReply(Joined(s.(reply := Accepted)), cmd.request.turn, s.run.value, s.snapshot, TurnFailed, Some(Failed), env);
    }
  }

  lemma CancelAttemptIsTruthful(s: LoopState, cmd: Command, env: Env)
    requires Whole(s) && s.exit == Running && cmd.CancelAttempt?
    ensures Truthful(s, cmd, env, Dispatch(s, cmd, false, env))
  {
  }

  /** A caller is told of success exactly when its command took effect, of a start with the run it started;
      and whatever is refused, or answered from the record, changed nothing. */
  lemma AnswersAreTruthful(s: LoopState, cmd: Command, env: Env)
    requires Whole(s) && s.exit == Running && Repeatable(cmd)
    ensures Truthful(s, cmd, env, Handle(s, cmd, env))
  {
    hide Dispatch, Launches, HandoffFails;
    if BoundToAnotherRun(s, cmd) {
    } else {
      var r := Received(s, cmd);
      if !cmd.CancelTurn? {
        SuccessIgnoresAnswers(s, cmd, env);
      }
      match cmd
      case StartTurn(_) => StartIsTruthful(r, cmd, env);
      case StartRestored(_, _, _) => StartIsTruthful(r, cmd, env);
      case StartRecovery(_, _, _) => RecoveryIsTruthful(r, cmd, env);
      case CancelAttempt(_) => CancelAttemptIsTruthful(r, cmd, env);
      case CancelTurn(_, _, _) => StopIsTruthful(s, cmd, env);
    }
  }

  lemma StopIsTruthful(s: LoopState, cmd: Command, env: Env)
    requires Whole(s) && s.exit == Running && cmd.CancelTurn? && !BoundToAnotherRun(s, cmd)
    ensures Truthful(s, cmd, env, Handle(s, cmd, env))
  {
    hide PublishInterruption;
    var r := Received(s, cmd);
    if !StopsFence(s, cmd) {
      CancelIsTruthful(r, cmd, false, env);
    }
  }

  lemma SuccessIgnoresAnswers(s: LoopState, cmd: Command, env: Env)
    requires Whole(s) && !cmd.CancelTurn?
    ensures Whole(Received(s, cmd)) && (Succeeds(Received(s, cmd), cmd, env) <==> Succeeds(s, cmd, env))
  {
    hide Exhausted, Observe;
  }

  // ---- Reasons ----

  function TurnOf(cmd: Command): Option<Turn> {
    match cmd
    case CancelAttempt(turn) => Some(turn)
    case CancelTurn(turn, _, _) => Some(turn)
    case StartRecovery(q, _, _) => Some(q.turn)
    case _ => None
  }

  /** The last request of an idle loop can be run again for this recovery. */
  predicate Remembered(s: LoopState, cmd: Command) {
    cmd.StartRecovery? && !cmd.isToolItem && s.lastRequest.Some? && s.lastRequest.value.turn == cmd.request.turn
  }

  /** Why a repeatable command was refused. */
  ghost predicate Explained(s: LoopState, cmd: Command, env: Env, t: LoopState) {
    && (t.reply == Refused(NoActiveTurn) <==>
          && s.turn.None? && TurnOf(cmd).Some? && !env.outcomeRecorded && !BoundToAnotherRun(s, cmd)
          && !StopsFence(s, cmd) && !Remembered(s, cmd))
    && (t.reply == Refused(TurnMismatch) <==>
          || BoundToAnotherRun(s, cmd)
          || (!env.outcomeRecorded && s.turn.Some? && TurnOf(cmd).Some? && TurnOf(cmd) != s.turn)
          || (!env.outcomeRecorded && s.turn.None? && cmd.StartRestored? && cmd.restored.turn != cmd.request.turn))
    && (t.reply == Refused(AttemptNotRunning) <==>
          && s.turn.Some? && TurnOf(cmd) == s.turn && !env.outcomeRecorded && !env.attemptRunning
          && (cmd.CancelAttempt? || (cmd.StartRecovery? && cmd.isToolItem)))
    && (t.reply.Refused? && t.reply.error.WindowsExhausted? ==>
          && (cmd.StartRecovery? || cmd.StartRestored?) && cmd.request.context.Some?
          && exists b :: FirstLimit(cmd.request.context.value.usage, b, t.reply.error.kind))
  }

  ghost predicate FirstLimit(usage: Counters, b: Budget, kind: BlockKind) {
    Reached(usage, Normalized(b), kind)
    && forall other :: Reached(usage, Normalized(b), other) ==> Priority(kind) <= Priority(other)
  }

  lemma RefusalNamesLimit(r: Request, q: RecoveryRequest, b: Budget)
    ensures AdmissionError(Adjusted(r, q), b).Some? ==>
              q.context.Some? && FirstLimit(q.context.value.usage, b, AdmissionError(Adjusted(r, q), b).value)
  {
    hide AdmissionError, Reached, Filter, IsBlank;
    RefusalNamesFirstReachedLimit(Adjusted(r, q), b);
  }

  lemma StartIsExplained(s: LoopState, cmd: Command, env: Env)
    requires Whole(s) && s.exit == Running && s.reply.Silent? && (cmd.StartTurn? || cmd.StartRestored?)
    ensures Explained(s, cmd, env, Dispatch(s, cmd, false, env))
  {
    hide AdmissionError, Adjusted, FirstLimit, Announce;
    if cmd.StartRestored? {
      RefusalNamesLimit(RestoredRequest(cmd.restored), cmd.request, env.snapshot.budget);
    }
  }

  lemma RecoveryIsExplained(s: LoopState, cmd: Command, env: Env)
    requires Whole(s) && s.exit == Running && s.reply.Silent? && cmd.StartRecovery?
    ensures Explained(s, cmd, env, Dispatch(s, cmd, false, env))
  {
    hide AdmissionError, Adjusted, FirstLimit, EndTurn;
    if s.lastRequest.Some? {
      RefusalNamesLimit(s.lastRequest.value, cmd.request, s.lastSnapshot.value.budget);
    }
    if s.turn.Some? {
      EndTurnKeepsReply(Joined(s.(reply := Accepted)), cmd.request.turn, s.run.value, s.snapshot, TurnFailed, Some(Failed), env);
    }
  }

  lemma StopIsExplained(s: LoopState, cmd: Command, env: Env)
    requires Whole(s) && s.exit == Running && (cmd.CancelTurn? || cmd.CancelAttempt?)
    ensures Explained(s, cmd, env, Handle(s, cmd, env))
  {
    hide PublishInterruption;
    var r := Received(s, cmd);
    if cmd.CancelTurn? {
      InterruptionKeepsReply(Joined(r.(reply := Accepted)), cmd.turn, s.control.Some? && env.durableStop, cmd.hasOwner, env);
    }
  }

  /** Each refusal is given exactly for its reason: no active turn, another turn, an attempt that is not
      running; and a budget refusal names the first limit the checkpoint has reached. */
  lemma RefusalsAreExplained(s: LoopState, cmd: Command, env: Env)
    requires Whole(s) && s.exit == Running && Repeatable(cmd)
    ensures Explained(s, cmd, env, Handle(s, cmd, env))
  {
    hide Dispatch, FirstLimit;
    if cmd.CancelTurn? || cmd.CancelAttempt? {
      StopIsExplained(s, cmd, env);
    } else if cmd.StartRecovery? {
      RecoveryIsExplained(Received(s, cmd), cmd, env);
    } else {
      StartIsExplained(Received(s, cmd), cmd, env);
    }
  }

  // ---- Observers ----

  /** An observer learns that its turn is running, or how it ended if it was the last to end. */
  lemma ObserverLearnsTheState(s: LoopState, turn: Turn, env: Env)
    requires s.exit == Running
    ensures var t := Handle(s, ObserveTurn(turn), env);
            && t == s.(reply := t.reply) && t.reply.Observed?
            && (t.reply.status == Some(InProgress) <==> s.turn == Some(turn))
            && forall status ::
                 t.reply.status == Some(Ended(status)) <==> s.turn != Some(turn) && s.observation == Some((turn, status))
  {
  }

  /** Whatever status a command leaves for observers was there before, or is an interruption, or is the status
      of a terminal entry it has just committed for the turn. */
  ghost predicate Witnessed(s: LoopState, t: LoopState) {
    || t.observation == s.observation || t.observation.None?
    || (&& s.turn == Some(t.observation.value.0)
        && (t.observation.value.1 == Interrupted
            || exists i :: |s.log| <= i < |t.log| && Logs(t.log[i], t.observation.value)))
  }

  predicate Logs(e: Entry, observed: (Turn, Status)) { e.turn == observed.0 && StatusOf(e.event) == Some(observed.1) }

  lemma EndTurnIsWitnessed(s: LoopState, turn: Turn, run: RunId, snapshot: Option<Snapshot>, event: Event, env: Env)
    requires s.turn == Some(turn) && snapshot.Some?
    ensures Witnessed(s, EndTurn(s, turn, run, snapshot, event, StatusOf(event), env))
    ensures s.log <= EndTurn(s, turn, run, snapshot, event, StatusOf(event), env).log
  {
    hide CommitTerminal;
    CommitTerminalTells(s, turn, run, snapshot, event, env);
    var flow := CommitTerminal(s, turn, run, snapshot, event, env);
    CommitTerminalInterrupts(s, turn, run, snapshot, event, env);
    if flow.Go? && StatusOf(event).Some? {
      assert Logs(flow.state.log[|s.log| + 1], (turn, StatusOf(event).value));
    }
  }

  /** A publication that is cut short leaves an interruption, nothing, or what was there. */
  predicate CutShort(s: LoopState, t: LoopState) {
    || t.observation == s.observation || t.observation.None?
    || (s.turn.Some? && t.observation == Some((s.turn.value, Interrupted)))
  }

  lemma CommitTerminalInterrupts(s: LoopState, turn: Turn, run: RunId, snapshot: Option<Snapshot>, event: Event, env: Env)
    ensures var flow := CommitTerminal(s, turn, run, snapshot, event, env); CutShort(s, flow.state)
  {
  }

  lemma CommitInterrupts(s: LoopState, turn: Turn, event: Event, answer: Answer)
    ensures CutShort(s, Commit(s, turn, event, answer).state)
  {
  }

  lemma CommitUnlessCancelledInterrupts(s: LoopState, turn: Turn, event: Event, answer: Answer, race: Race)
    ensures CutShort(s, CommitUnlessCancelled(s, turn, event, answer, race).state)
  {
  }

  lemma CutShortIsWitnessed(s: LoopState, m: LoopState, t: LoopState)
    requires m.turn == s.turn && m.observation == s.observation && |s.log| <= |m.log|
    ensures CutShort(m, t) || Witnessed(m, t) ==> Witnessed(s, t)
  {
  }

  lemma CompletedIsWitnessed(s: LoopState, turn: Turn, run: RunId, contextSession: bool, env: Env)
    requires s.turn == Some(turn) && s.snapshot.Some?
    ensures Witnessed(s, HandleCompleted(s, turn, run, contextSession, env))
  {
    hide CommitTerminal, Commit;
    CommitTerminalTells(s, turn, run, s.snapshot, TurnCompleted, env);
    CommitTerminalInterrupts(s, turn, run, s.snapshot, TurnCompleted, env);
    var flow := CommitTerminal(s, turn, run, s.snapshot, TurnCompleted, env);
    if flow.Go? {
      assert Logs(flow.state.log[|s.log| + 1], (turn, Completed));
      if s.recovery.Some? {
        CommitInterrupts(flow.state, turn, RecoverySucceeded(s.recovery.value.serial), env.recovered);
        CommitAdds(flow.state, turn, RecoverySucceeded(s.recovery.value.serial), env.recovered);
      }
      var t := HandleCompleted(s, turn, run, contextSession, env);
      assert t.log[|s.log| + 1] == flow.state.log[|s.log| + 1];
    }
  }

  lemma OpenNextWindowIsWitnessed(s: LoopState, turn: Turn, newRun: RunId, next: Request, snapshot: Snapshot, env: Env)
    ensures Witnessed(s, OpenNextWindow(s, turn, newRun, next, snapshot, env))
  {
    hide CommitUnlessCancelled;
    var continued := WindowContinued(next.windowIndex);
    CommitUnlessCancelledAdds(s, turn, continued, env.window, env.windowRace);
    CommitUnlessCancelledInterrupts(s, turn, continued, env.window, env.windowRace);
    if s.recovery.Some? {
      var t, success := Logged(s, turn, continued), RecoverySucceeded(s.recovery.value.serial);
      CommitUnlessCancelledAdds(t, turn, success, env.recovered, env.recoveredRace);
      CommitUnlessCancelledInterrupts(t, turn, success, env.recovered, env.recoveredRace);
    }
  }

  lemma ContinuationIsWitnessed(s: LoopState, turn: Turn, run: RunId, payload: Payload, history: seq<string>, env: Env)
    requires s.turn == Some(turn) && s.request.Some? && s.snapshot.Some?
    ensures Witnessed(s, HandleContinuation(s, turn, run, payload, history, env))
  {
    hide CommitUnlessCancelled, EndTurn, OpenNextWindow, Continued, Witnessed;
    match Continued(s.request.value, payload, history, s.snapshot.value.budget)
    case Err(_) =>
      var flow := CommitUnlessCancelled(s, turn, WindowBlocked(false), env.window, env.windowRace);
      CommitUnlessCancelledAdds(s, turn, WindowBlocked(false), env.window, env.windowRace);
      CommitUnlessCancelledInterrupts(s, turn, WindowBlocked(false), env.window, env.windowRace);
      CutShortIsWitnessed(s, s, flow.state);
      if flow.Go? {
        EndTurnIsWitnessed(flow.state, turn, run, s.snapshot, TurnBlocked, env);
        CutShortIsWitnessed(s, flow.state, EndTurn(flow.state, turn, run, s.snapshot, TurnBlocked, Some(Blocked), env));
      }
    case Ok(next) =>
      if env.providerOk {
        OpenNextWindowIsWitnessed(IssueRun(s), turn, s.nextRun, next, s.snapshot.value, env);
        CutShortIsWitnessed(s, IssueRun(s), OpenNextWindow(IssueRun(s), turn, s.nextRun, next, s.snapshot.value, env));
      } else {
        EndTurnIsWitnessed(s, turn, run, s.snapshot, TurnFailed, env);
      }
  }

  lemma FinishedIsWitnessed(s: LoopState, turn: Turn, run: RunId, result: TaskResult, contextSession: bool, env: Env)
    requires Whole(s)
    ensures Witnessed(s, HandleFinished(s, turn, run, result, contextSession, env))
  {
    hide HandleCompleted, HandleContinuation, EndTurn, Witnessed;
    var t := s.(task := None);
    var u := HandleFinished(s, turn, run, result, contextSession, env);
    CutShortIsWitnessed(s, t, u);
    if s.turn == Some(turn) && s.run == Some(run) {
      match result
      case Finished => CompletedIsWitnessed(t, turn, run, contextSession, env);
      case NeedsContinuation(payload, history) => ContinuationIsWitnessed(t, turn, run, payload, history, env);
      case TerminalFailure => EndTurnIsWitnessed(t, turn, run, t.snapshot, TurnFailed, env);
      case BlockedFailure => EndTurnIsWitnessed(t, turn, run, t.snapshot, TurnBlocked, env);
      case ProviderFailure =>
        var m := t.(lastRequest := t.request);
        EndTurnIsWitnessed(m, turn, run, t.snapshot, ProviderFailureDetected, env);
        CutShortIsWitnessed(s, m, u);
    }
  }

  lemma RecoveryIsWitnessed(s: LoopState, cmd: Command, env: Env)
    requires Whole(s) && s.exit == Running && cmd.StartRecovery?
    ensures Witnessed(s, HandleRecovery(s, cmd.request, cmd.attempt, cmd.isToolItem, env))
  {
    hide AdmissionError, Adjusted, EndTurn;
    if s.turn.Some? {
      var joined := Joined(s.(reply := Accepted));
      EndTurnIsWitnessed(joined, s.turn.value, s.run.value, s.snapshot, TurnFailed, env);
      CutShortIsWitnessed(s, joined, EndTurn(joined, s.turn.value, s.run.value, s.snapshot, TurnFailed, Some(Failed), env));
    }
  }

  lemma StopIsWitnessed(s: LoopState, turn: Turn, hasOwner: bool, fenced: bool, env: Env)
    ensures Witnessed(s, HandleCancel(s, turn, hasOwner, fenced, env))
  {
    hide Commit;
    var j := Joined(s.(reply := Accepted));
    CommitInterrupts(j, turn, TurnInterrupted, env.terminal);
    CommitInterrupts(j, turn, CancellationContextPrepared, env.prepare);
    CommitAdds(j, turn, CancellationContextPrepared, env.prepare);
    CommitInterrupts(Logged(j, turn, CancellationContextPrepared), turn, TurnInterrupted, env.terminal);
  }

  lemma SuccessIsWitnessed(s: LoopState, turn: Turn, run: RunId, attempt: Attempt, env: Env)
    ensures Witnessed(s, HandleRecoverySucceeded(s, turn, run, attempt, env))
  {
    hide CommitUnlessCancelled;
    if s.recovery.Some? {
      CommitUnlessCancelledInterrupts(s, turn, RecoverySucceeded(s.recovery.value.serial), env.recovered, env.recoveredRace);
    }
  }

  lemma HandleIsWitnessed(s: LoopState, cmd: Command, env: Env)
    requires Whole(s)
    ensures Witnessed(s, Handle(s, cmd, env))
  {
    hide HandleFinished, HandleRecovery, HandleCancel, HandleRecoverySucceeded, AdmissionError, Adjusted;
    var r := Received(s, cmd);
    match cmd
    case TurnTaskFinished(turn, run, result, session) => FinishedIsWitnessed(r, turn, run, result, session, env);
    case StartRecovery(_, _, _) => if s.exit == Running { RecoveryIsWitnessed(r, cmd, env); }
    case CancelTurn(turn, _, hasOwner) => StopIsWitnessed(r, turn, hasOwner, StopsFence(s, cmd), env);
    case RecoveryAttemptSucceeded(turn, run, attempt) => SuccessIsWitnessed(r, turn, run, attempt, env);
    case _ =>
  }

  ghost predicate StatusIsLogged(s: LoopState) {
    s.observation.Some? && s.observation.value.1 != Interrupted ==>
      exists i :: 0 <= i < |s.log| && Logs(s.log[i], s.observation.value)
  }

  lemma WitnessKeepsStatus(s: LoopState, t: LoopState)
    requires StatusIsLogged(s) && Witnessed(s, t) && s.log <= t.log
    ensures StatusIsLogged(t)
  {
    if t.observation == s.observation && s.observation.Some? && s.observation.value.1 != Interrupted {
      var i :| 0 <= i < |s.log| && Logs(s.log[i], s.observation.value);
      assert t.log[i] == s.log[i];
    }
  }

  /** Over any run of the loop, the completed, failed or blocked status an observer is given is that of a
      terminal entry of the log for the same turn. */
  lemma {:induction false} ObservedStatusIsLogged(mailbox: seq<Delivery>)
    ensures StatusIsLogged(HandleAll(START, mailbox))
  {
    hide Handle, StatusIsLogged, Whole;
    if mailbox == [] {
      NothingObserved();
    } else {
      var last := |mailbox| - 1;
      var init, d := mailbox[..last], mailbox[last];
      var s := HandleAll(START, init);
      ObservedStatusIsLogged(init);
      WholeAfter(init);
      HandleIsWitnessed(s, d.command, d.env);
      HandleTells(s, d.command, d.env);
      WitnessKeepsStatus(s, Handle(s, d.command, d.env));
    }
  }

  lemma NothingObserved()
    ensures StatusIsLogged(START)
  {
  }

  // ---- Leaving ----

  /** A shutdown leaves the loop once its task has ended, and the durable rejection of a start leaves it exactly
      when it is about the current turn and run; the log stays. */
  lemma LoopIsLeftExactly(s: LoopState, cmd: Command, env: Env)
    requires Whole(s) && s.exit == Running && (cmd.Shutdown? || cmd.DurableStartRejected?)
    ensures var t := Handle(s, cmd, env);
            && t.log == s.log
            && (t.exit == ShutDown <==> cmd.Shutdown?)
            && (t.exit == StartRejected <==> cmd.DurableStartRejected? && s.turn == Some(cmd.turn) && s.run == Some(cmd.run))
            && (t.exit != Running ==> t.turn.None? && t.plane.None? && t.request.None? && t.lastRequest.None?)
            && (cmd.Shutdown? ==> t.flows == s.flows - (if s.task.Some? then {s.task.value} else {}))
            && (t.exit == Running ==> t == s.(reply := Silent))
  {
  }
}
