/** The command loop as it runs: one object whose fields are the loop's mutable locals. */
module AgentLoopActor {
  import opened Common
  import opened ExecutionWindows
  import opened AgentLoop
  import opened AgentLoopLaws
  import AgentLoopAnswers
  import AgentLoopTotals
  import R = AgentLoopTerminals
  import T = TurnTotals

  class AgentLoopActor {
    var turn: Option<Turn>
    var task: Option<RunId>
    var fence: Option<Turn>
    var control: Option<RunId>
    var request: Option<Request>
    var lastRequest: Option<Request>
    var snapshot: Option<Snapshot>
    var lastSnapshot: Option<Snapshot>
    var run: Option<RunId>
    var recovery: Option<Installed>
    var observation: Option<(Turn, Status)>
    var nextRun: RunId
    // The cell shared with callers of the control plane.
    var plane: Option<(Turn, RunId)>
    var reply: Reply
    var exit: Exit
    var log: seq<Entry>
    // History: which activation an event belongs to, every run id handed out, the flows not yet stopped.
    var installs: nat
    var activations: nat
    ghost var issued: seq<RunId>
    ghost var flows: set<RunId>

    constructor ()
      ensures View() == START && Inv(View())
    {
      turn, task, fence, control, request, lastRequest := None, None, None, None, None, None;
      snapshot, lastSnapshot, run, recovery, observation := None, None, None, None, None;
      nextRun, plane, reply, exit, log, installs := 1, None, Silent, Running, [], 0;
      issued, activations, flows := [], 0, {};
    }

    ghost function View(): LoopState
      reads this
    {
      LoopState(turn, task, fence, control, request, lastRequest, snapshot, lastSnapshot, run, recovery, observation,
                nextRun, plane, reply, exit, log, flows, issued, installs, activations)
    }

    /** Only the turn and run it names are removed from the control plane. */
    method ClearPlane(forTurn: Turn, forRun: RunId)
      modifies this`plane
      ensures plane == if old(plane) == Some((forTurn, forRun)) then None else old(plane)
    {
      if plane.Some? && plane.value.0 == forTurn && plane.value.1 == forRun {
        plane := None;
      }
    }

    method ClearActiveTurnControl()
      modifies this
      ensures View() == ClearControl(old(View()))
    {
      if turn.Some? && run.Some? {
        ClearPlane(turn.value, run.value);
      }
      turn := None;
      run := None;
      control := None;
      snapshot := None;
    }

    method EndActiveTurn()
      modifies this
      ensures View() == Ending(old(View()))
    {
      ClearActiveTurnControl();
      request := None;
      recovery := None;
    }

    method ForgetLastRequest()
      modifies this
      ensures View() == old(View()).(lastRequest := None, lastSnapshot := None)
    {
      lastRequest := None;
      lastSnapshot := None;
    }

    /** Wait for the turn task to stop; afterwards its flow is no longer running. */
    method JoinTask()
      modifies this
      ensures View() == Joined(old(View()))
    {
      if task.Some? {
        flows := flows - {task.value};
        task := None;
      }
    }

    /** A durable interruption already decided the turn: join its task and forget it. */
    method HandleSupersession()
      modifies this
      ensures View() == Superseded(old(View()))
    {
      JoinTask();
      if turn.Some? {
        observation := Some((turn.value, Interrupted));
      }
      EndActiveTurn();
      ForgetLastRequest();
    }

    method LeaveLoop(why: Exit)
      modifies this
      ensures View() == Exited(old(View()), why)
    {
      EndActiveTurn();
      ForgetLastRequest();
      task := None;
      fence := None;
      observation := None;
      plane := None;
      exit := why;
    }

    method CommitEvent(forTurn: Turn, event: Event, answer: Answer) returns (go: bool)
      modifies this
      ensures go == Commit(old(View()), forTurn, event, answer).Go?
      ensures View() == Commit(old(View()), forTurn, event, answer).state
    {
      match answer {
        case Accept =>
          log := log + [Entry(event, forTurn, run, activations)];
          return true;
        case Supersede =>
          HandleSupersession();
          return false;
        case Reject =>
          LeaveLoop(Rejected);
          return false;
      }
    }

    method CommitEventUnlessCancelled(forTurn: Turn, event: Event, answer: Answer, race: Race) returns (go: bool)
      modifies this
      ensures go == CommitUnlessCancelled(old(View()), forTurn, event, answer, race).Go?
      ensures View() == CommitUnlessCancelled(old(View()), forTurn, event, answer, race).state
    {
      if control.Some? && race.cancelled {
        if turn.Some? && race.durable {
          HandleSupersession();
        } else {
          LeaveLoop(CooperativelyCancelled);
        }
        return false;
      }
      go := CommitEvent(forTurn, event, answer);
    }

    method CommitTerminalEvent(forTurn: Turn, forRun: RunId, captured: Option<Snapshot>, event: Event, env: Env)
      returns (go: bool)
      modifies this
      ensures go == CommitTerminal(old(View()), forTurn, forRun, captured, event, env).Go?
      ensures View() == CommitTerminal(old(View()), forTurn, forRun, captured, event, env).state
    {
      if captured.None? {
        LeaveLoop(LostSnapshot);
        return false;
      }
      go := CommitEvent(forTurn, TerminalEffectsPrepared(forRun, captured.value.generation), env.prepare);
      if go {
        go := CommitEvent(forTurn, event, env.terminal);
      }
    }

    method FinishTurn(
        forTurn: Turn, forRun: RunId, captured: Option<Snapshot>, event: Event, status: Option<Status>, env: Env)
      modifies this
      ensures View() == EndTurn(old(View()), forTurn, forRun, captured, event, status, env)
    {
      var go := CommitTerminalEvent(forTurn, forRun, captured, event, env);
      if go {
        if status.Some? {
          observation := Some((forTurn, status.value));
        }
        EndActiveTurn();
      }
    }

    method NextRunId() returns (id: RunId)
      modifies this
      ensures id == old(nextRun)
      ensures View() == IssueRun(old(View()))
    {
      id := nextRun;
      nextRun := if nextRun == U64_MAX then U64_MAX else nextRun + 1;
      issued := issued + [id];
    }

    method SpawnTask(forTurn: Turn, newRun: RunId)
      modifies this
      ensures View() == old(View()).(
                turn := Some(forTurn), run := Some(newRun), control := Some(newRun), task := Some(newRun),
                plane := Some((forTurn, newRun)), flows := old(flows) + {newRun},
                activations := if old(turn).None? then old(activations) + 1 else old(activations))
    {
      activations := if turn.None? then activations + 1 else activations;
      plane := Some((forTurn, newRun));
      flows := flows + {newRun};
      BindRun(forTurn, newRun);
    }

    method BindRun(forTurn: Turn, newRun: RunId)
      modifies this
      ensures View() == old(View()).(
                turn := Some(forTurn), run := Some(newRun), control := Some(newRun), task := Some(newRun))
    {
      turn := Some(forTurn);
      run := Some(newRun);
      control := Some(newRun);
      task := Some(newRun);
    }

    method Activate(
        forTurn: Turn, newRun: RunId, newRequest: Request, captured: Snapshot, attempt: Option<Attempt>)
      modifies this
      ensures View() == Install(old(View()), forTurn, newRun, newRequest, captured, attempt)
    {
      KeepRequest(newRequest, captured);
      InstallRecovery(attempt);
      SpawnTask(forTurn, newRun);
    }

    method KeepRequest(newRequest: Request, captured: Snapshot)
      modifies this
      ensures View() == old(View()).(request := Some(newRequest), lastRequest := Some(newRequest),
                                     snapshot := Some(captured), lastSnapshot := Some(captured))
    {
      request := Some(newRequest);
      lastRequest := Some(newRequest);
      snapshot := Some(captured);
      lastSnapshot := Some(captured);
    }

    method InstallRecovery(attempt: Option<Attempt>)
      modifies this
      ensures View() == old(View()).(
                recovery := if attempt.Some? then Some(Installed(attempt.value, old(installs))) else None,
                installs := if attempt.Some? then old(installs) + 1 else old(installs))
    {
      recovery := None;
      if attempt.Some? {
        recovery := Some(Installed(attempt.value, installs));
        installs := installs + 1;
      }
    }

    method AnnounceWindow(newRequest: Request, env: Env) returns (ok: bool)
      modifies this
      ensures ok == Announce(old(View()), newRequest, env).Some?
      ensures View() == if ok then Announce(old(View()), newRequest, env).value else old(View())
    {
      if newRequest.context.None? {
        return true;
      }
      if !env.handoffOk {
        return false;
      }
      var index := Max(newRequest.windowIndex, NextWindowIndex(newRequest.context.value));
      log := log + [Entry(WindowContinued(index), newRequest.turn, run, activations)];
      return true;
    }

    method OnStartTurn(spec: StartSpec, env: Env)
      modifies this
      ensures View() == HandleStart(old(View()), spec, env)
    {
      if env.outcomeRecorded {
        reply := Recorded;
        return;
      }
      if turn.Some? {
        reply := Refused(TurnAlreadyRunning);
        return;
      }
      var newRequest := StartRequest(spec);
      if !env.providerOk {
        reply := Refused(Internal);
        return;
      }
      var announced := AnnounceWindow(newRequest, env);
      if !announced {
        reply := Refused(Internal);
        return;
      }
      var newRun := NextRunId();
      Activate(spec.turn, newRun, newRequest, env.snapshot, None);
      observation := None;
      reply := Started(newRun);
    }

    method OnCompleted(forTurn: Turn, forRun: RunId, contextSession: bool, env: Env)
      modifies this
      ensures View() == HandleCompleted(old(View()), forTurn, forRun, contextSession, env)
    {
      var closing := recovery;
      var go := CommitTerminalEvent(forTurn, forRun, snapshot, TurnCompleted, env);
      if !go {
        return;
      }
      if closing.Some? {
        go := CommitEvent(forTurn, RecoverySucceeded(closing.value.serial), env.recovered);
        if !go {
          return;
        }
      }
      observation := Some((forTurn, Completed));
      EndActiveTurn();
      if contextSession {
        fence := Some(forTurn);
      }
    }

    method OnContinuation(forTurn: Turn, forRun: RunId, payload: Payload, history: seq<string>, env: Env)
      modifies this
      ensures View() == HandleContinuation(old(View()), forTurn, forRun, payload, history, env)
      ensures turn.Some? && old(request).Some? && old(snapshot).Some? ==>
                && request.Some?
                && T.HandsOver(old(request).value, Continuation(payload, history), request.value)
                && request.value.usage == Observe(old(request).value.usage, payload)
    {
      hide Observe, Decide, T.HandsOver;
      if request.Some? && snapshot.Some? {
        AgentLoopTotals.ContinuationHandsOver(View(), forTurn, forRun, payload, history, env);
      }
      var captured := snapshot;
      if request.None? {
        var go := CommitEventUnlessCancelled(forTurn, WindowBlocked(true), env.window, env.windowRace);
        if go {
          FinishTurn(forTurn, forRun, captured, TurnBlocked, Some(Blocked), env);
        }
        return;
      }
      if captured.None? {
        LeaveLoop(LostSnapshot);
        return;
      }
      var next := Continued(request.value, payload, history, captured.value.budget);
      if next.Err? {
        var go := CommitEventUnlessCancelled(forTurn, WindowBlocked(false), env.window, env.windowRace);
        if go {
          FinishTurn(forTurn, forRun, captured, TurnBlocked, Some(Blocked), env);
        }
        return;
      }
      if !env.providerOk {
        FinishTurn(forTurn, forRun, captured, TurnFailed, Some(Failed), env);
        return;
      }
      var newRun := NextRunId();
      OpenWindow(forTurn, newRun, next.value, captured.value, env);
    }

    method OpenWindow(forTurn: Turn, newRun: RunId, next: Request, captured: Snapshot, env: Env)
      modifies this
      ensures View() == OpenNextWindow(old(View()), forTurn, newRun, next, captured, env)
    {
      var closing := recovery;
      var go := CommitEventUnlessCancelled(forTurn, WindowContinued(next.windowIndex), env.window, env.windowRace);
      if !go {
        return;
      }
      if closing.Some? {
        go := CommitEventUnlessCancelled(
          forTurn, RecoverySucceeded(closing.value.serial), env.recovered, env.recoveredRace);
        if !go {
          return;
        }
      }
      Activate(forTurn, newRun, next, captured, None);
    }

    method OnTaskFinished(forTurn: Turn, forRun: RunId, result: TaskResult, contextSession: bool, env: Env)
      modifies this
      ensures View() == HandleFinished(old(View()), forTurn, forRun, result, contextSession, env)
      ensures Whole(old(View())) && old(turn) == Some(forTurn) && old(run) == Some(forRun) ==>
                && R.Tells(old(View()), View(), R.TaskVerdict(old(View()), result, env))
                && (R.AllAccepted(env) && R.TaskVerdict(old(View()), result, env).Some? ==>
                      R.Told(old(View()), View(), R.TaskVerdict(old(View()), result, env).value))
    {
      hide R.Tells, R.Told, R.TaskVerdict;
      if Whole(View()) && turn == Some(forTurn) && run == Some(forRun) {
        R.FinishedTells(View(), forTurn, forRun, result, contextSession, env);
      }
      if turn != Some(forTurn) {
        return;
      }
      if run != Some(forRun) {
        return;
      }
      task := None;
      match result {
        case Finished => OnCompleted(forTurn, forRun, contextSession, env);
        case NeedsContinuation(payload, history) => OnContinuation(forTurn, forRun, payload, history, env);
        case TerminalFailure => FinishTurn(forTurn, forRun, snapshot, TurnFailed, Some(Failed), env);
        case BlockedFailure => FinishTurn(forTurn, forRun, snapshot, TurnBlocked, Some(Blocked), env);
        case ProviderFailure =>
          lastRequest := request;
          FinishTurn(forTurn, forRun, snapshot, ProviderFailureDetected, None, env);
      }
    }

    method OnRecoverySucceeded(forTurn: Turn, forRun: RunId, attempt: Attempt, env: Env)
      modifies this
      ensures View() == HandleRecoverySucceeded(old(View()), forTurn, forRun, attempt, env)
    {
      if turn != Some(forTurn) || run != Some(forRun) {
        return;
      }
      if recovery.None? || recovery.value.attempt != attempt {
        return;
      }
      var go := CommitEventUnlessCancelled(
        forTurn, RecoverySucceeded(recovery.value.serial), env.recovered, env.recoveredRace);
      if go {
        recovery := None;
      }
    }

    method OnCancelAttempt(forTurn: Turn, env: Env)
      modifies this
      ensures View() == HandleCancelAttempt(old(View()), forTurn, env)
    {
      if env.outcomeRecorded {
        reply := Recorded;
      } else if turn.None? {
        reply := Refused(NoActiveTurn);
      } else if turn != Some(forTurn) {
        reply := Refused(TurnMismatch);
      } else if control.None? {
        reply := Refused(NoActiveTurn);
      } else if env.attemptRunning {
        reply := Accepted;
      } else {
        reply := Refused(AttemptNotRunning);
      }
    }

    method OnCancelTurn(forTurn: Turn, hasOwner: bool, fenced: bool, env: Env)
      modifies this
      ensures View() == HandleCancel(old(View()), forTurn, hasOwner, fenced, env)
    {
      hide Ending, PublishInterruption;
      if env.outcomeRecorded {
        reply := Recorded;
        return;
      }
      if fenced {
        reply := if env.fenceStopFails then Refused(Internal) else Accepted;
        return;
      }
      if turn.None? {
        reply := Refused(NoActiveTurn);
        return;
      }
      if turn != Some(forTurn) {
        reply := Refused(TurnMismatch);
        return;
      }
      var durable := control.Some? && env.durableStop;
      reply := Accepted;
      JoinTask();
      var go := Interrupt(forTurn, durable, hasOwner, env);
      if go {
        observation := Some((forTurn, Interrupted));
        EndActiveTurn();
        ForgetLastRequest();
      }
    }

    method Interrupt(forTurn: Turn, durable: bool, hasOwner: bool, env: Env) returns (go: bool)
      modifies this
      ensures go == PublishInterruption(old(View()), forTurn, durable, hasOwner, env).Go?
      ensures View() == PublishInterruption(old(View()), forTurn, durable, hasOwner, env).state
    {
      if !durable {
        if snapshot.None? {
          LeaveLoop(LostSnapshot);
          return false;
        }
        go := CommitEvent(forTurn, CancellationContextPrepared, env.prepare);
        if !go {
          return;
        }
      }
      if !durable || hasOwner {
        go := CommitEvent(forTurn, TurnInterrupted, env.terminal);
      } else {
        go := true;
      }
    }

    method OnObserveTurn(forTurn: Turn)
      modifies this
      ensures View() == HandleObserve(old(View()), forTurn)
    {
      if turn == Some(forTurn) {
        reply := Observed(Some(InProgress));
      } else if observation.Some? && observation.value.0 == forTurn {
        reply := Observed(Some(Ended(observation.value.1)));
      } else {
        reply := Observed(None);
      }
    }

    method OnStartRecovery(q: RecoveryRequest, attempt: Attempt, isToolItem: bool, env: Env)
      modifies this
      ensures View() == HandleRecovery(old(View()), q, attempt, isToolItem, env)
    {
      if env.outcomeRecorded {
        reply := Recorded;
        return;
      }
      if turn.None? && !isToolItem && lastRequest.Some? && lastSnapshot.Some? && lastRequest.value.turn == q.turn {
        RecoverIdleTurn(lastRequest.value, lastSnapshot.value, q, attempt, env);
        return;
      }
      if turn.None? {
        reply := Refused(NoActiveTurn);
        return;
      }
      if turn != Some(q.turn) {
        reply := Refused(TurnMismatch);
        return;
      }
      if isToolItem {
        if control.None? {
          reply := Refused(NoActiveTurn);
        } else if env.attemptRunning {
          recovery := Some(Installed(attempt, installs));
          installs := installs + 1;
          reply := Accepted;
        } else {
          reply := Refused(AttemptNotRunning);
        }
        return;
      }
      if request.None? {
        reply := Refused(NoActiveTurn);
        return;
      }
      if snapshot.None? {
        reply := Refused(Internal);
        return;
      }
      RestartActiveTurn(request.value, snapshot.value, q, attempt, env);
    }

    method RecoverIdleTurn(
        previous: Request, captured: Snapshot, q: RecoveryRequest, attempt: Attempt, env: Env)
      modifies this
      ensures View() == RestartIdle(old(View()), Adjusted(previous, q), captured, q.turn, attempt, env)
    {
      hide Adjusted, AdmissionError, EndTurn, Install, IssueRun;
      var adjusting := new ActiveTurnRequest(previous);
      adjusting.ApplyRecoveryAdjustments(q);
      var newRequest := adjusting.View();
      var blocked := AdmissionError(newRequest, captured.budget);
      if blocked.Some? {
        reply := Refused(WindowsExhausted(blocked.value));
        return;
      }
      if !env.providerOk {
        reply := Refused(Internal);
        return;
      }
      var announced := AnnounceWindow(newRequest, env);
      if !announced {
        reply := Refused(Internal);
        return;
      }
      var newRun := NextRunId();
      Activate(q.turn, newRun, newRequest, captured, Some(attempt));
      observation := None;
      reply := Accepted;
    }

    method RestartActiveTurn(
        previous: Request, captured: Snapshot, q: RecoveryRequest, attempt: Attempt, env: Env)
      modifies this
      ensures View() == RestartActive(old(View()), Adjusted(previous, q), captured, q.turn, attempt, env)
    {
      hide Adjusted, AdmissionError, EndTurn, Install, IssueRun;
      var adjusting := new ActiveTurnRequest(previous);
      adjusting.ApplyRecoveryAdjustments(q);
      var newRequest := adjusting.View();
      var blocked := AdmissionError(newRequest, captured.budget);
      if blocked.Some? {
        reply := Refused(WindowsExhausted(blocked.value));
        return;
      }
      if !env.providerOk {
        reply := Refused(Internal);
        return;
      }
      reply := Accepted;
      JoinTask();
      var announced := AnnounceWindow(newRequest, env);
      if !announced {
        var owner := if run.Some? then run.value else 0;
        FinishTurn(q.turn, owner, Some(captured), TurnFailed, Some(Failed), env);
        return;
      }
      var newRun := NextRunId();
      Activate(q.turn, newRun, newRequest, captured, Some(attempt));
      observation := None;
    }

    method OnStartRestored(spec: RestoredSpec, q: RecoveryRequest, attempt: Attempt, env: Env)
      modifies this
      ensures View() == HandleRestored(old(View()), spec, q, attempt, env)
    {
      if env.outcomeRecorded {
        reply := Recorded;
        return;
      }
      if turn.Some? {
        reply := Refused(TurnAlreadyRunning);
        return;
      }
      if spec.turn != q.turn {
        reply := Refused(TurnMismatch);
        return;
      }
      hide Adjusted, AdmissionError, Install, IssueRun;
      var adjusting := new ActiveTurnRequest(RestoredRequest(spec));
      adjusting.ApplyRecoveryAdjustments(q);
      var newRequest := adjusting.View();
      var blocked := AdmissionError(newRequest, env.snapshot.budget);
      if blocked.Some? {
        reply := Refused(WindowsExhausted(blocked.value));
        return;
      }
      if !env.providerOk {
        reply := Refused(Internal);
        return;
      }
      var announced := AnnounceWindow(newRequest, env);
      if !announced {
        reply := Refused(Internal);
        return;
      }
      var newRun := NextRunId();
      Activate(spec.turn, newRun, newRequest, env.snapshot, Some(attempt));
      reply := Accepted;
    }

    method OnCommand(cmd: Command, fenced: bool, env: Env)
      modifies this
      ensures View() == Dispatch(old(View()), cmd, fenced, env)
    {
      match cmd {
        case StartTurn(spec) => OnStartTurn(spec, env);
        case TurnTaskFinished(t, r, result, session) => OnTaskFinished(t, r, result, session, env);
        case RecoveryAttemptSucceeded(t, r, attempt) => OnRecoverySucceeded(t, r, attempt, env);
        case CancelAttempt(t) => OnCancelAttempt(t, env);
        case CancelTurn(t, _, hasOwner) => OnCancelTurn(t, hasOwner, fenced, env);
        case ObserveTurn(t) => OnObserveTurn(t);
        case StartRecovery(q, attempt, isToolItem) => OnStartRecovery(q, attempt, isToolItem, env);
        case StartRestored(spec, q, attempt) => OnStartRestored(spec, q, attempt, env);
        case DurableStartRejected(t, r) =>
          if turn == Some(t) && run == Some(r) {
            LeaveLoop(StartRejected);
          }
        case Shutdown =>
          JoinTask();
          LeaveLoop(ShutDown);
      }
    }

    method Receive(cmd: Command, env: Env)
      requires exit == Running
      modifies this
      ensures View() == Handle(old(View()), cmd, env)
      ensures Inv(old(View())) ==> Inv(View())
      ensures Whole(old(View())) ==> R.Tells(old(View()), View(), R.Verdict(old(View()), cmd, env))
    {
      hide Dispatch, Inv, R.Tells, R.Verdict, Whole;
      if Inv(View()) {
        HandleKeepsInv(View(), cmd, env);
      }
      if Whole(View()) {
        R.HandleTells(View(), cmd, env);
      }
      HandleReceived(cmd, env);
    }

    /** A run-bound Stop of another run is refused; a start, a recovery, a shutdown or a Stop of its turn takes the fence. */
    method HandleReceived(cmd: Command, env: Env)
      requires exit == Running
      modifies this
      ensures View() == Handle(old(View()), cmd, env)
    {
      hide Dispatch;
      if cmd.CancelTurn? && cmd.expectedRun.Some? && run != cmd.expectedRun {
        reply := Refused(TurnMismatch);
        return;
      }
      reply := Silent;
      var fenced := cmd.CancelTurn? && fence.Some? && fence.value == cmd.turn;
      if fenced || cmd.StartTurn? || cmd.StartRecovery? || cmd.StartRestored? || cmd.Shutdown? {
        fence := None;
      }
      OnCommand(cmd, fenced, env);
    }

    /** The receive loop: it runs until it leaves or its mailbox is exhausted. */
    method RunLoop(mailbox: seq<Delivery>)
      modifies this
      ensures View() == HandleAll(old(View()), mailbox)
      ensures Inv(old(View())) ==> Inv(View())
    {
      hide Inv, Handle;
      var i := 0;
      assert mailbox[..0] == [];
      while i < |mailbox| && exit == Running
        invariant i <= |mailbox|
        invariant View() == HandleAll(old(View()), mailbox[..i])
        invariant Inv(old(View())) ==> Inv(View())
      {
        assert mailbox[..i + 1][..i] == mailbox[..i];
        Receive(mailbox[i].command, mailbox[i].env);
        i := i + 1;
      }
      if i < |mailbox| {
        NothingAfterExit(old(View()), mailbox[..i], mailbox[i..]);
        assert mailbox[..i] + mailbox[i..] == mailbox;
      } else {
        assert mailbox[..i] == mailbox;
      }
    }
  }

  /** The loop from its first local to its last command. Whatever it is sent, the active turn is
      whole or absent, every terminal event directly follows its own preparation, no activation
      has two of them, no installed recovery succeeds twice, and no branch found a part missing; each terminal event
      comes from a delivery that calls for it, and an observed status is that of such an event. */
  method RunAgentLoop(mailbox: seq<Delivery>) returns (actor: AgentLoopActor)
    ensures fresh(actor) && actor.View() == HandleAll(START, mailbox)
    ensures actor.turn.Some? ==>
              && actor.run.Some? && actor.task == actor.control == actor.run
              && actor.plane == Some((actor.turn.value, actor.run.value))
              && actor.request.Some? && actor.request.value.turn == actor.turn.value && actor.snapshot.Some?
    ensures actor.turn.None? ==>
              && actor.run.None? && actor.task.None? && actor.control.None? && actor.plane.None?
              && actor.request.None? && actor.snapshot.None? && actor.recovery.None?
    ensures EveryTerminalPrepared(actor.log) && OneTerminalPerActivation(actor.log)
    ensures OneSuccessPerInstall(actor.log)
    ensures actor.exit != LostSnapshot && RequestNeverMissing(actor.log)
    ensures forall i :: 0 <= i < |actor.log| && IsTerminal(actor.log[i].event) ==> R.HasDelivery(mailbox, actor.log[i])
    ensures AgentLoopAnswers.StatusIsLogged(actor.View())
  {
    actor := new AgentLoopActor();
    actor.RunLoop(mailbox);
    EveryEntryHasItsDelivery(mailbox);
    AgentLoopAnswers.ObservedStatusIsLogged(mailbox);
  }

  lemma EveryEntryHasItsDelivery(mailbox: seq<Delivery>)
    ensures var log := HandleAll(START, mailbox).log;
            forall i :: 0 <= i < |log| && IsTerminal(log[i].event) ==> R.HasDelivery(mailbox, log[i])
  {
    hide HandleAll, R.HasDelivery, IsTerminal;
    var log := HandleAll(START, mailbox).log;
    forall i | 0 <= i < |log| && IsTerminal(log[i].event)
      ensures R.HasDelivery(mailbox, log[i])
    {
      R.EveryTerminalHasItsDelivery(mailbox, i);
    }
  }
}
