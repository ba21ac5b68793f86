/** The three things a command can do to the active turn: keep it, close it, or launch a run of it. */
module AgentLoopOutcomes {
  import opened Common
  import opened ExecutionWindows
  import opened AgentLoop
  import opened AgentLoopLaws

  /** The request a command would launch, in terms of what the loop remembers. */
  function LaunchedRequest(s: LoopState, cmd: Command, env: Env): Option<Request> {
    match cmd
    case StartTurn(spec) => Some(StartRequest(spec))
    case StartRestored(spec, q, _) =>
      var request := Adjusted(RestoredRequest(spec), q);
      if AdmissionError(request, env.snapshot.budget).None? && spec.turn == q.turn then Some(request) else None
    case StartRecovery(q, _, _) =>
      if s.lastRequest.Some? && s.lastSnapshot.Some? && s.lastRequest.value.turn == q.turn
         && AdmissionError(Adjusted(s.lastRequest.value, q), s.lastSnapshot.value.budget).None?
      then Some(Adjusted(s.lastRequest.value, q))
      else None
    case TurnTaskFinished(_, run, NeedsContinuation(payload, history), _) =>
      if s.run == Some(run) && s.lastRequest.Some? && s.lastSnapshot.Some?
         && Continued(s.lastRequest.value, payload, history, s.lastSnapshot.value.budget).Ok?
      then Some(Continued(s.lastRequest.value, payload, history, s.lastSnapshot.value.budget).value)
      else None
    case _ => None
  }

  function LaunchedSnapshot(s: LoopState, cmd: Command, env: Env): Option<Snapshot> {
    if cmd.StartTurn? || cmd.StartRestored? then Some(env.snapshot) else s.lastSnapshot
  }

  function Tasks(s: LoopState): set<RunId> { if s.task.Some? then {s.task.value} else {} }

  /** Only answers, the log, the fence and the installed recovery may differ. */
  predicate Kept(s: LoopState, t: LoopState) {
    t == s.(reply := t.reply, fence := t.fence, log := t.log, recovery := t.recovery, installs := t.installs)
  }

  predicate Remembers(s: LoopState, t: LoopState) {
    || (t.lastRequest == s.lastRequest && t.lastSnapshot == s.lastSnapshot)
    || (t.lastRequest.None? && t.lastSnapshot.None?)
  }

  /** An interruption is observed only by forgetting the turn's request. */
  predicate Interrupts(s: LoopState, t: LoopState) {
    t.observation != s.observation && t.observation.Some? && t.observation.value.1 == Interrupted ==>
      t.lastRequest.None? && s.turn == Some(t.observation.value.0)
  }

  predicate Closed(s: LoopState, cmd: Command, t: LoopState) {
    && t.turn.None? && t.run.None? && t.task.None?
    && (cmd.TurnTaskFinished? ==> s.run == Some(cmd.run))
    && (t.issued == s.issued || (cmd.TurnTaskFinished? && t.issued == s.issued + [s.nextRun]))
    && t.flows <= s.flows
    && (t.exit == Running && !cmd.TurnTaskFinished? ==> t.flows <= s.flows - Tasks(s))
    && Remembers(s, t)
    && Interrupts(s, t)
  }

  predicate Launched(s: LoopState, cmd: Command, env: Env, t: LoopState) {
    && LaunchedRequest(s, cmd, env).Some?
    && t.exit == Running
    && t.lastRequest == LaunchedRequest(s, cmd, env)
    && t.turn == Some(t.lastRequest.value.turn)
    && t.lastSnapshot.Some? && t.lastSnapshot == LaunchedSnapshot(s, cmd, env)
    && t.run == t.task == Some(s.nextRun)
    && t.issued == s.issued + [s.nextRun]
    && t.flows <= (if cmd.TurnTaskFinished? then s.flows else s.flows - Tasks(s)) + {s.nextRun}
    && (t.observation == s.observation || t.observation.None?)
  }

  ghost predicate Outcome(s: LoopState, cmd: Command, env: Env, t: LoopState) {
    Kept(s, t) || (s.exit == Running && (Closed(s, cmd, t) || Launched(s, cmd, env, t)))
  }

  // ---- Building blocks ----

  /** How a publication that does not go on leaves the loop. */
  predicate Cut(s: LoopState, t: LoopState) {
    && t.turn.None? && t.run.None? && t.task.None?
    && t.issued == s.issued
    && t.flows <= s.flows
    && (t.exit == Running ==> t.flows <= s.flows - Tasks(s))
    && Remembers(s, t)
    && Interrupts(s, t)
  }

  lemma CommitCuts(s: LoopState, turn: Turn, event: Event, answer: Answer)
    ensures Commit(s, turn, event, answer).Over? ==> Cut(s, Commit(s, turn, event, answer).state)
    ensures Commit(s, turn, event, answer).Go? ==> Commit(s, turn, event, answer).state == Logged(s, turn, event)
  {
  }

  lemma CommitUnlessCancelledCuts(s: LoopState, turn: Turn, event: Event, answer: Answer, race: Race)
    ensures CommitUnlessCancelled(s, turn, event, answer, race).Over? ==>
              Cut(s, CommitUnlessCancelled(s, turn, event, answer, race).state)
    ensures CommitUnlessCancelled(s, turn, event, answer, race).Go? ==>
              CommitUnlessCancelled(s, turn, event, answer, race).state == Logged(s, turn, event)
  {
    hide Cut;
    CommitCuts(s, turn, event, answer);
    CommitCuts(s, turn, event, Supersede);
    ExitCuts(s, CooperativelyCancelled);
  }

  lemma ExitCuts(s: LoopState, why: Exit)
    requires why != Running
    ensures Cut(s, Exited(s, why))
  {
  }

  lemma CommitTerminalCuts(s: LoopState, turn: Turn, run: RunId, snapshot: Option<Snapshot>, event: Event, env: Env)
    requires snapshot.Some?
    ensures var flow := CommitTerminal(s, turn, run, snapshot, event, env);
            && (flow.Over? ==> Cut(s, flow.state))
            && (flow.Go? ==>
                  flow.state == Logged(Logged(s, turn, TerminalEffectsPrepared(run, snapshot.value.generation)), turn, event))
  {
    hide Commit;
    var preparation := TerminalEffectsPrepared(run, snapshot.value.generation);
    CommitCuts(s, turn, preparation, env.prepare);
    CommitCuts(Logged(s, turn, preparation), turn, event, env.terminal);
  }

  lemma EndTurnCuts(
      s: LoopState, turn: Turn, run: RunId, snapshot: Option<Snapshot>, event: Event, status: Option<Status>, env: Env)
    requires snapshot.Some? && s.task.None? && status != Some(Interrupted)
    ensures Cut(s, EndTurn(s, turn, run, snapshot, event, status, env))
  {
    hide CommitTerminal;
    CommitTerminalCuts(s, turn, run, snapshot, event, env);
  }

  // ---- The commands ----

  /** Announce, take a run id, install: what a start leaves behind. */
  lemma LaunchEffect(
      s: LoopState, request: Request, snapshot: Snapshot, attempt: Option<Attempt>, env: Env)
    requires Announce(s, request, env).Some?
    ensures var t := Announce(s, request, env).value;
            var u := Install(IssueRun(t), request.turn, t.nextRun, request, snapshot, attempt);
            && u.exit == s.exit && u.lastRequest == Some(request) && u.turn == Some(request.turn)
            && u.lastSnapshot == Some(snapshot) && u.run == u.task == Some(s.nextRun)
            && u.issued == s.issued + [s.nextRun] && u.flows == s.flows + {s.nextRun}
            && u.observation == s.observation
  {
  }

  lemma StartOutcome(s: LoopState, cmd: Command, env: Env)
    requires Whole(s) && s.exit == Running && cmd.StartTurn?
    ensures Outcome(s, cmd, env, HandleStart(s, cmd.spec, env))
  {
    hide Announce, Install, IssueRun;
    var request := StartRequest(cmd.spec);
    if Announce(s, request, env).Some? {
      LaunchEffect(s, request, env.snapshot, None, env);
    }
  }

  lemma RestoredOutcome(s: LoopState, cmd: Command, env: Env)
    requires Whole(s) && s.exit == Running && cmd.StartRestored?
    ensures Outcome(s, cmd, env, HandleRestored(s, cmd.restored, cmd.request, cmd.attempt, env))
  {
    hide Announce, Install, IssueRun, AdmissionError, Adjusted;
    var request := Adjusted(RestoredRequest(cmd.restored), cmd.request);
    AdjustedKeepsTurn(RestoredRequest(cmd.restored), cmd.request);
    if Announce(s, request, env).Some? {
      LaunchEffect(s, request, env.snapshot, Some(cmd.attempt), env);
    }
  }

  lemma RestartIdleOutcome(s: LoopState, cmd: Command, env: Env)
    requires Whole(s) && s.exit == Running && cmd.StartRecovery?
    requires s.turn.None? && s.lastRequest.Some? && s.lastRequest.value.turn == cmd.request.turn
    ensures Outcome(s, cmd, env,
                    RestartIdle(s, Adjusted(s.lastRequest.value, cmd.request), s.lastSnapshot.value, cmd.request.turn,
                                cmd.attempt, env))
  {
    hide Announce, Install, IssueRun, AdmissionError, Adjusted;
    var request := Adjusted(s.lastRequest.value, cmd.request);
    AdjustedKeepsTurn(s.lastRequest.value, cmd.request);
    if Announce(s, request, env).Some? {
      LaunchEffect(s, request, s.lastSnapshot.value, Some(cmd.attempt), env);
    }
  }

  lemma RestartActiveOutcome(s: LoopState, cmd: Command, env: Env)
    requires Whole(s) && s.exit == Running && cmd.StartRecovery? && s.turn == Some(cmd.request.turn)
    ensures Outcome(s, cmd, env,
                    RestartActive(s, Adjusted(s.request.value, cmd.request), s.snapshot.value, cmd.request.turn,
                                  cmd.attempt, env))
  {
    hide Announce, Install, IssueRun, AdmissionError, Adjusted, EndTurn;
    var request := Adjusted(s.request.value, cmd.request);
    AdjustedKeepsTurn(s.request.value, cmd.request);
    var joined := Joined(s.(reply := Accepted));
    if Announce(joined, request, env).Some? {
      LaunchEffect(joined, request, s.snapshot.value, Some(cmd.attempt), env);
    } else {
      EndTurnCuts(joined, cmd.request.turn, s.run.value, s.snapshot, TurnFailed, Some(Failed), env);
    }
  }

  lemma RecoveryOutcome(s: LoopState, cmd: Command, env: Env)
    requires Whole(s) && s.exit == Running && cmd.StartRecovery?
    ensures Outcome(s, cmd, env, HandleRecovery(s, cmd.request, cmd.attempt, cmd.isToolItem, env))
  {
    hide RestartIdle, RestartActive, Adjusted, Closed, Launched;
    if s.turn.None? {
      if s.lastRequest.Some? && s.lastRequest.value.turn == cmd.request.turn {
        RestartIdleOutcome(s, cmd, env);
      }
    } else if s.turn == Some(cmd.request.turn) {
      RestartActiveOutcome(s, cmd, env);
    }
  }

  lemma RecoverySucceededOutcome(s: LoopState, cmd: Command, env: Env)
    requires Whole(s) && s.exit == Running && cmd.RecoveryAttemptSucceeded?
    ensures Outcome(s, cmd, env, HandleRecoverySucceeded(s, cmd.turn, cmd.run, cmd.attempt, env))
  {
    hide CommitUnlessCancelled;
    if s.recovery.Some? {
      CommitUnlessCancelledCuts(s, cmd.turn, RecoverySucceeded(s.recovery.value.serial), env.recovered, env.recoveredRace);
    }
  }

  lemma InterruptionCuts(s: LoopState, turn: Turn, durable: bool, hasOwner: bool, env: Env)
    requires s.snapshot.Some?
    ensures var flow := PublishInterruption(s, turn, durable, hasOwner, env);
            && (flow.Over? ==> Cut(s, flow.state))
            && (flow.Go? ==> flow.state == s.(log := flow.state.log))
  {
    hide Commit, Cut;
    CommitCuts(s, turn, TurnInterrupted, env.terminal);
    CommitCuts(s, turn, CancellationContextPrepared, env.prepare);
    var t := Logged(s, turn, CancellationContextPrepared);
    CommitCuts(t, turn, TurnInterrupted, env.terminal);
    CutFromLogged(s, t, Commit(t, turn, TurnInterrupted, env.terminal).state);
  }

  lemma CutFromLogged(s: LoopState, t: LoopState, u: LoopState)
    requires t == s.(log := t.log)
    ensures Cut(t, u) ==> Cut(s, u)
  {
  }

  lemma CancelOutcome(s: LoopState, cmd: Command, fenced: bool, env: Env)
    requires Whole(s) && s.exit == Running && cmd.CancelTurn?
    ensures Outcome(s, cmd, env, HandleCancel(s, cmd.turn, cmd.hasOwner, fenced, env))
    ensures !fenced && HandleCancel(s, cmd.turn, cmd.hasOwner, fenced, env).reply == Accepted ==>
              s.turn == Some(cmd.turn) && HandleCancel(s, cmd.turn, cmd.hasOwner, fenced, env).lastRequest.None?
  {
    hide PublishInterruption;
    if s.turn == Some(cmd.turn) {
      var t := Joined(s.(reply := Accepted));
      var durable := s.control.Some? && env.durableStop;
      InterruptionCuts(t, cmd.turn, durable, cmd.hasOwner, env);
      CutForgets(t, cmd.turn, durable, cmd.hasOwner, env);
    }
  }

  /** A Stop that is cut short forgets the request as well. */
  lemma CutForgets(s: LoopState, turn: Turn, durable: bool, hasOwner: bool, env: Env)
    ensures PublishInterruption(s, turn, durable, hasOwner, env).Over? ==>
              PublishInterruption(s, turn, durable, hasOwner, env).state.lastRequest.None?
  {
  }

  lemma CompletedOutcome(s: LoopState, t: LoopState, cmd: Command, env: Env)
    requires Whole(s) && s.turn.Some? && t == s.(task := None) && cmd.TurnTaskFinished?
    requires s.turn == Some(cmd.turn) && s.run == Some(cmd.run)
    ensures Closed(s, cmd, HandleCompleted(t, cmd.turn, cmd.run, cmd.contextSession, env))
  {
    hide CommitTerminal, Commit;
    CommitTerminalCuts(t, cmd.turn, cmd.run, t.snapshot, TurnCompleted, env);
    var flow := CommitTerminal(t, cmd.turn, cmd.run, t.snapshot, TurnCompleted, env);
    if flow.Go? && t.recovery.Some? {
      CommitCuts(flow.state, cmd.turn, RecoverySucceeded(t.recovery.value.serial), env.recovered);
    }
  }

  lemma OpenNextWindowOutcome(
      s: LoopState, turn: Turn, newRun: RunId, next: Request, snapshot: Snapshot, env: Env)
    ensures var t := OpenNextWindow(s, turn, newRun, next, snapshot, env);
            || Cut(s, t)
            || (&& t.exit == s.exit && t.lastRequest == Some(next) && t.turn == Some(turn)
                && t.lastSnapshot == Some(snapshot) && t.run == t.task == Some(newRun) && t.issued == s.issued
                && t.flows == s.flows + {newRun} && t.observation == s.observation)
  {
    hide CommitUnlessCancelled;
    var continued := WindowContinued(next.windowIndex);
    CommitUnlessCancelledCuts(s, turn, continued, env.window, env.windowRace);
    if s.recovery.Some? {
      var t := Logged(s, turn, continued);
      CommitUnlessCancelledCuts(t, turn, RecoverySucceeded(s.recovery.value.serial), env.recovered, env.recoveredRace);
    }
  }

  lemma ContinuationOutcome(s: LoopState, t: LoopState, cmd: Command, env: Env)
    requires Whole(s) && s.exit == Running && s.turn.Some? && t == s.(task := None)
    requires cmd.TurnTaskFinished? && cmd.result.NeedsContinuation?
    requires s.turn == Some(cmd.turn) && s.run == Some(cmd.run)
    ensures Outcome(s, cmd, env,
                    HandleContinuation(t, cmd.turn, cmd.run, cmd.result.payload, cmd.result.history, env))
  {
    hide CommitUnlessCancelled, EndTurn, OpenNextWindow, Observe, Decide;
    match Continued(s.request.value, cmd.result.payload, cmd.result.history, s.snapshot.value.budget)
    case Err(_) =>
      CommitUnlessCancelledCuts(t, cmd.turn, WindowBlocked(false), env.window, env.windowRace);
      EndTurnCuts(Logged(t, cmd.turn, WindowBlocked(false)), cmd.turn, cmd.run, t.snapshot, TurnBlocked, Some(Blocked), env);
    case Ok(next) =>
      if env.providerOk {
        OpenNextWindowOutcome(IssueRun(t), cmd.turn, t.nextRun, next, s.snapshot.value, env);
      } else {
        EndTurnCuts(t, cmd.turn, cmd.run, t.snapshot, TurnFailed, Some(Failed), env);
      }
  }

  lemma FinishedOutcome(s: LoopState, cmd: Command, env: Env)
    requires Whole(s) && s.exit == Running && cmd.TurnTaskFinished?
    ensures Outcome(s, cmd, env, HandleFinished(s, cmd.turn, cmd.run, cmd.result, cmd.contextSession, env))
  {
    hide HandleCompleted, HandleContinuation, EndTurn, LaunchedRequest;
    if s.turn == Some(cmd.turn) && s.run == Some(cmd.run) {
      var t := s.(task := None);
      match cmd.result
      case Finished => CompletedOutcome(s, t, cmd, env);
      case NeedsContinuation(_, _) => ContinuationOutcome(s, t, cmd, env);
      case TerminalFailure => EndTurnCuts(t, cmd.turn, cmd.run, t.snapshot, TurnFailed, Some(Failed), env);
      case BlockedFailure => EndTurnCuts(t, cmd.turn, cmd.run, t.snapshot, TurnBlocked, Some(Blocked), env);
      case ProviderFailure =>
        EndTurnCuts(t.(lastRequest := t.request), cmd.turn, cmd.run, t.snapshot, ProviderFailureDetected, None, env);
    }
  }

  /** Receiving a command only resets the answer and may take the fence. */
  lemma ReceivedOutcome(s: LoopState, r: LoopState, cmd: Command, env: Env, t: LoopState)
    requires r == s.(reply := r.reply, fence := r.fence)
    requires Outcome(r, cmd, env, t)
    ensures Outcome(s, cmd, env, t)
  {
  }

  lemma DispatchOutcome(s: LoopState, cmd: Command, fenced: bool, env: Env)
    requires Whole(s) && s.exit == Running
    ensures Outcome(s, cmd, env, Dispatch(s, cmd, fenced, env))
  {
    hide HandleStart, HandleFinished, HandleRecoverySucceeded, HandleCancel, HandleRecovery, HandleRestored, Launched;
    match cmd
    case StartTurn(_) => StartOutcome(s, cmd, env);
    case TurnTaskFinished(_, _, _, _) => FinishedOutcome(s, cmd, env);
    case RecoveryAttemptSucceeded(_, _, _) => RecoverySucceededOutcome(s, cmd, env);
    case CancelAttempt(_) =>
    case CancelTurn(_, _, _) => CancelOutcome(s, cmd, fenced, env);
    case ObserveTurn(_) =>
    case StartRecovery(_, _, _) => RecoveryOutcome(s, cmd, env);
    case StartRestored(_, _, _) => RestoredOutcome(s, cmd, env);
    case DurableStartRejected(_, _) =>
    case Shutdown =>
  }

  lemma HandleOutcome(s: LoopState, cmd: Command, env: Env)
    requires Whole(s)
    ensures Outcome(s, cmd, env, Handle(s, cmd, env))
  {
    hide Dispatch, Closed, Launched;
    if s.exit == Running && !BoundToAnotherRun(s, cmd) {
      var r := s.(reply := Silent, fence := if TakesFence(s, cmd) then None else s.fence);
      DispatchOutcome(r, cmd, StopsFence(s, cmd), env);
      ReceivedOutcome(s, r, cmd, env, Handle(s, cmd, env));
    }
  }
}
