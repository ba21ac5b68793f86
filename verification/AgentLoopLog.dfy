/** The durable log, entry by entry: what a command commits when every publication is accepted. */
module AgentLoopLog {
  import opened Common
  import opened ExecutionWindows
  import opened AgentLoop
  import opened AgentLoopLaws
  import opened AgentLoopTerminals

  /** The recovery a run was restarted by, reported as succeeded. */
  function RecoveryReport(s: LoopState): seq<Event> {
    if s.recovery.Some? then [RecoverySucceeded(s.recovery.value.serial)] else []
  }

  /** What precedes a terminal event. */
  function Preparation(s: LoopState, cmd: Command, env: Env, event: Event): seq<Event> {
    if event.TurnInterrupted? then if env.durableStop then [] else [CancellationContextPrepared]
    else if s.run.None? || s.snapshot.None? then []
    else
      (if event.TurnBlocked? && cmd.TurnTaskFinished? && cmd.result.NeedsContinuation? then [WindowBlocked(false)] else [])
      + [TerminalEffectsPrepared(s.run.value, s.snapshot.value.generation)]
  }

  /** The events a command commits: a launch announces the window of its checkpoint, a terminal event follows
      its preparation, and a recovery is reported once its run has got through. */
  ghost function Committed(s: LoopState, cmd: Command, env: Env, t: LoopState): seq<Event>
    requires Whole(s)
  {
    if Launches(s, cmd, env) then
      (if t.lastRequest.Some? && t.lastRequest.value.context.Some? then [WindowContinued(t.lastRequest.value.windowIndex)] else [])
      + (if cmd.TurnTaskFinished? then RecoveryReport(s) else [])
    else match Verdict(s, cmd, env)
      case Some(event) =>
        Preparation(s, cmd, env, event) + [event] + (if event.TurnCompleted? then RecoveryReport(s) else [])
      case None =>
        if cmd.RecoveryAttemptSucceeded? && s.turn == Some(cmd.turn) && s.run == Some(cmd.run)
           && s.recovery.Some? && s.recovery.value.attempt == cmd.attempt
        then RecoveryReport(s) else []
  }

  /** The log grows by these events, of this turn and of the run and activation that were current. */
  ghost predicate Grows(s: LoopState, t: LoopState, turn: Turn, events: seq<Event>) {
    && |t.log| == |s.log| + |events| && s.log <= t.log
    && forall i :: 0 <= i < |events| ==> t.log[|s.log| + i] == Entry(events[i], turn, s.run, s.activations)
  }

  // ---- Building blocks ----

  lemma Accepts(s: LoopState, turn: Turn, event: Event)
    ensures Commit(s, turn, event, Accept) == Go(Logged(s, turn, event))
  {
  }

  lemma AcceptsUnlessCancelled(s: LoopState, turn: Turn, event: Event, race: Race)
    requires !race.cancelled
    ensures CommitUnlessCancelled(s, turn, event, Accept, race) == Go(Logged(s, turn, event))
  {
  }

  lemma EndTurnGrows(
      s: LoopState, turn: Turn, run: RunId, snapshot: Snapshot, event: Event, status: Option<Status>, env: Env)
    requires AllAccepted(env)
    ensures Grows(s, EndTurn(s, turn, run, Some(snapshot), event, status, env), turn,
                  [TerminalEffectsPrepared(run, snapshot.generation), event])
  {
    hide Commit;
    var preparation := TerminalEffectsPrepared(run, snapshot.generation);
    Accepts(s, turn, preparation);
    Accepts(Logged(s, turn, preparation), turn, event);
  }

  lemma GrowsFrom(s: LoopState, m: LoopState, t: LoopState, turn: Turn, first: seq<Event>, rest: seq<Event>)
    requires Grows(s, m, turn, first) && Grows(m, t, turn, rest) && m.run == s.run && m.activations == s.activations
    ensures Grows(s, t, turn, first + rest)
  {
    forall i | 0 <= i < |first + rest|
      ensures t.log[|s.log| + i] == Entry((first + rest)[i], turn, s.run, s.activations)
    {
      if i < |first| {
        assert t.log[|s.log| + i] == m.log[|s.log| + i];
      } else {
        assert t.log[|m.log| + (i - |first|)] == Entry(rest[i - |first|], turn, m.run, m.activations);
      }
    }
  }

  // ---- The commands ----

  lemma CompletedGrows(s: LoopState, turn: Turn, run: RunId, contextSession: bool, env: Env)
    requires AllAccepted(env) && s.snapshot.Some?
    ensures Grows(s, HandleCompleted(s, turn, run, contextSession, env), turn,
                  [TerminalEffectsPrepared(run, s.snapshot.value.generation), TurnCompleted] + RecoveryReport(s))
  {
    hide Commit;
    var preparation := TerminalEffectsPrepared(run, s.snapshot.value.generation);
    var s1 := Logged(s, turn, preparation);
    var s2 := Logged(s1, turn, TurnCompleted);
    Accepts(s, turn, preparation);
    Accepts(s1, turn, TurnCompleted);
    if s.recovery.Some? {
      Accepts(s2, turn, RecoverySucceeded(s.recovery.value.serial));
    }
  }

  lemma OpenNextWindowGrows(s: LoopState, turn: Turn, newRun: RunId, next: Request, snapshot: Snapshot, env: Env)
    requires AllAccepted(env)
    ensures var t := OpenNextWindow(s, turn, newRun, next, snapshot, env);
            Grows(s, t, turn, [WindowContinued(next.windowIndex)] + RecoveryReport(s)) && t.lastRequest == Some(next)
  {
    hide CommitUnlessCancelled;
    var continued := WindowContinued(next.windowIndex);
    AcceptsUnlessCancelled(s, turn, continued, env.windowRace);
    if s.recovery.Some? {
      AcceptsUnlessCancelled(Logged(s, turn, continued), turn, RecoverySucceeded(s.recovery.value.serial), env.recoveredRace);
    }
  }

  lemma BlockedGrows(s: LoopState, turn: Turn, run: RunId, snapshot: Snapshot, env: Env)
    requires AllAccepted(env)
    ensures var t := EndTurn(Logged(s, turn, WindowBlocked(false)), turn, run, Some(snapshot), TurnBlocked, Some(Blocked), env);
            Grows(s, t, turn, [WindowBlocked(false)] + [TerminalEffectsPrepared(run, snapshot.generation), TurnBlocked])
  {
    hide EndTurn;
    var m := Logged(s, turn, WindowBlocked(false));
    EndTurnGrows(m, turn, run, snapshot, TurnBlocked, Some(Blocked), env);
    GrowsFrom(s, m, EndTurn(m, turn, run, Some(snapshot), TurnBlocked, Some(Blocked), env), turn, [WindowBlocked(false)],
              [TerminalEffectsPrepared(run, snapshot.generation), TurnBlocked]);
  }

  lemma ContinuationGrows(s: LoopState, cmd: Command, env: Env)
    requires Whole(s) && s.exit == Running && AllAccepted(env) && cmd.TurnTaskFinished? && cmd.result.NeedsContinuation?
    requires s.turn == Some(cmd.turn) && s.run == Some(cmd.run)
    ensures var t := HandleContinuation(s.(task := None), cmd.turn, cmd.run, cmd.result.payload, cmd.result.history, env);
            Grows(s, t, cmd.turn, Committed(s, cmd, env, t))
  {
    hide CommitUnlessCancelled, EndTurn, OpenNextWindow, Exhausted, Observe, Decide, Grows;
    var t := s.(task := None);
    var b := s.snapshot.value.budget;
    ExhaustionBlocks(s.request.value, cmd.result.payload, cmd.result.history, b);
    match Continued(s.request.value, cmd.result.payload, cmd.result.history, b)
    case Err(_) =>
      AcceptsUnlessCancelled(t, cmd.turn, WindowBlocked(false), env.windowRace);
      BlockedGrows(t, cmd.turn, cmd.run, s.snapshot.value, env);
      var m := Logged(t, cmd.turn, WindowBlocked(false));
      GrowsAlike(t, s, EndTurn(m, cmd.turn, cmd.run, s.snapshot, TurnBlocked, Some(Blocked), env), cmd.turn,
                 [WindowBlocked(false)] + [TerminalEffectsPrepared(cmd.run, s.snapshot.value.generation), TurnBlocked],
                 Preparation(s, cmd, env, TurnBlocked) + [TurnBlocked] + []);
    case Ok(next) =>
      if env.providerOk {
        var u := OpenNextWindow(IssueRun(t), cmd.turn, t.nextRun, next, s.snapshot.value, env);
        OpenNextWindowGrows(IssueRun(t), cmd.turn, t.nextRun, next, s.snapshot.value, env);
        GrowsAlike(IssueRun(t), s, u, cmd.turn, [WindowContinued(next.windowIndex)] + RecoveryReport(IssueRun(t)),
                   [WindowContinued(next.windowIndex)] + RecoveryReport(s));
      } else {
        var u := EndTurn(t, cmd.turn, cmd.run, s.snapshot, TurnFailed, Some(Failed), env);
        EndTurnGrows(t, cmd.turn, cmd.run, s.snapshot.value, TurnFailed, Some(Failed), env);
        GrowsAlike(t, s, u, cmd.turn, [TerminalEffectsPrepared(cmd.run, s.snapshot.value.generation), TurnFailed],
                   Preparation(s, cmd, env, TurnFailed) + [TurnFailed] + []);
      }
  }

  /** Only the log, the run and the activation count matter. */
  lemma GrowsAlike(m: LoopState, s: LoopState, t: LoopState, turn: Turn, events: seq<Event>, same: seq<Event>)
    requires Grows(m, t, turn, events) && m.log == s.log && m.run == s.run && m.activations == s.activations && events == same
    ensures Grows(s, t, turn, same)
  {
  }

  lemma FailureGrows(s: LoopState, cmd: Command, env: Env, event: Event, m: LoopState)
    requires Whole(s) && s.exit == Running && AllAccepted(env) && cmd.TurnTaskFinished? && !cmd.result.NeedsContinuation?
    requires s.turn == Some(cmd.turn) && s.run == Some(cmd.run)
    requires m == s.(task := None, lastRequest := m.lastRequest)
    requires TaskVerdict(s, cmd.result, env) == Some(event) && !event.TurnCompleted?
    ensures var t := EndTurn(m, cmd.turn, cmd.run, s.snapshot, event, StatusOf(event), env);
            Grows(s, t, cmd.turn, Committed(s, cmd, env, t))
  {
    hide EndTurn, Grows, Exhausted;
    EndTurnGrows(m, cmd.turn, cmd.run, s.snapshot.value, event, StatusOf(event), env);
    GrowsAlike(m, s, EndTurn(m, cmd.turn, cmd.run, s.snapshot, event, StatusOf(event), env), cmd.turn,
               [TerminalEffectsPrepared(cmd.run, s.snapshot.value.generation), event],
               Preparation(s, cmd, env, event) + [event] + []);
  }

  lemma FinishedGrows(s: LoopState, cmd: Command, env: Env)
    requires Whole(s) && s.exit == Running && AllAccepted(env) && cmd.TurnTaskFinished?
    ensures var t := HandleFinished(s, cmd.turn, cmd.run, cmd.result, cmd.contextSession, env);
            Grows(s, t, cmd.turn, Committed(s, cmd, env, t))
  {
    hide HandleCompleted, HandleContinuation, EndTurn, Committed, Grows, Exhausted;
    var m := s.(task := None);
    if s.turn != Some(cmd.turn) || s.run != Some(cmd.run) {
      StaleGrows(s, cmd, env);
    } else {
      match cmd.result
      case Finished => CompletionGrows(s, cmd, env);
      case NeedsContinuation(_, _) => ContinuationGrows(s, cmd, env);
      case TerminalFailure => FailureGrows(s, cmd, env, TurnFailed, m);
      case BlockedFailure => FailureGrows(s, cmd, env, TurnBlocked, m);
      case ProviderFailure => FailureGrows(s, cmd, env, ProviderFailureDetected, m.(lastRequest := m.request));
    }
  }

  lemma StaleGrows(s: LoopState, cmd: Command, env: Env)
    requires Whole(s) && cmd.TurnTaskFinished? && (s.turn != Some(cmd.turn) || s.run != Some(cmd.run))
    ensures Grows(s, s, cmd.turn, Committed(s, cmd, env, s))
  {
  }

  lemma CompletionGrows(s: LoopState, cmd: Command, env: Env)
    requires Whole(s) && s.exit == Running && AllAccepted(env) && cmd.TurnTaskFinished? && cmd.result.Finished?
    requires s.turn == Some(cmd.turn) && s.run == Some(cmd.run)
    ensures var t := HandleCompleted(s.(task := None), cmd.turn, cmd.run, cmd.contextSession, env);
            Grows(s, t, cmd.turn, Committed(s, cmd, env, t))
  {
    hide HandleCompleted, Grows;
    var m := s.(task := None);
    CompletedGrows(m, cmd.turn, cmd.run, cmd.contextSession, env);
    GrowsAlike(m, s, HandleCompleted(m, cmd.turn, cmd.run, cmd.contextSession, env), cmd.turn,
               [TerminalEffectsPrepared(cmd.run, s.snapshot.value.generation), TurnCompleted] + RecoveryReport(m),
               Preparation(s, cmd, env, TurnCompleted) + [TurnCompleted] + RecoveryReport(s));
  }

  /** A request that carries a checkpoint is announced under its own index. */
  predicate AnnouncesItself(r: Request) { r.context.Some? ==> NextWindowIndex(r.context.value) <= r.windowIndex }

  lemma AnnounceGrows(s: LoopState, request: Request, env: Env)
    requires AnnouncesItself(request) && Announce(s, request, env).Some?
    ensures var t := Announce(s, request, env).value;
            && t == s.(log := t.log)
            && Grows(s, t, request.turn, if request.context.Some? then [WindowContinued(request.windowIndex)] else [])
  {
  }

  lemma InstallGrows(
      s: LoopState, t: LoopState, request: Request, snapshot: Snapshot, attempt: Option<Attempt>, events: seq<Event>)
    requires t == s.(log := t.log) && Grows(s, t, request.turn, events)
    ensures var u := Install(IssueRun(t), request.turn, t.nextRun, request, snapshot, attempt);
            Grows(s, u, request.turn, events) && u.lastRequest == Some(request)
  {
  }

  lemma AdjustedAnnouncesItself(r: Request, q: RecoveryRequest)
    ensures AnnouncesItself(Adjusted(r, q)) && Adjusted(r, q).turn == r.turn && Adjusted(r, q).context == q.context
  {
    hide Filter, IsBlank;
  }

  lemma StartGrows(s: LoopState, spec: StartSpec, env: Env)
    requires Whole(s) && s.exit == Running
    ensures var t := HandleStart(s, spec, env); Grows(s, t, spec.turn, Committed(s, StartTurn(spec), env, t))
  {
    hide Announce, Install, IssueRun, Grows;
    var request := StartRequest(spec);
    Unchanged(s, HandleStart(s, spec, env), spec.turn);
    if Launches(s, StartTurn(spec), env) {
      AnnouncesPlainly(s, request, env);
      AnnounceGrows(s, request, env);
      var events := if request.context.Some? then [WindowContinued(request.windowIndex)] else [];
      InstallGrows(s, Announce(s, request, env).value, request, env.snapshot, None, events);
      var a := Announce(s, request, env).value;
      var u := Install(IssueRun(a), spec.turn, a.nextRun, request, env.snapshot, None);
      LogAlike(s, u, HandleStart(s, spec, env), spec.turn, events, events + []);
    } else {
      AnnouncesPlainly(s, request, env);
    }
  }

  lemma Unchanged(s: LoopState, t: LoopState, turn: Turn)
    ensures t.log == s.log ==> Grows(s, t, turn, [])
  {
  }

  lemma LogAlike(s: LoopState, m: LoopState, t: LoopState, turn: Turn, events: seq<Event>, same: seq<Event>)
    requires Grows(s, m, turn, events) && t.log == m.log && events == same
    ensures Grows(s, t, turn, same)
  {
  }

  lemma RestoredGrows(s: LoopState, cmd: Command, env: Env)
    requires Whole(s) && s.exit == Running && cmd.StartRestored?
    ensures var t := HandleRestored(s, cmd.restored, cmd.request, cmd.attempt, env);
            Grows(s, t, cmd.restored.turn, Committed(s, cmd, env, t))
  {
    hide Announce, Install, IssueRun, Grows, AdmissionError, Adjusted, Exhausted;
    var request := Adjusted(RestoredRequest(cmd.restored), cmd.request);
    var t := HandleRestored(s, cmd.restored, cmd.request, cmd.attempt, env);
    AdmittedExactly(RestoredRequest(cmd.restored), cmd.request, env.snapshot.budget);
    WithoutCheckpointAdmitted(RestoredRequest(cmd.restored), cmd.request, env.snapshot.budget);
    AdjustedAnnouncesItself(RestoredRequest(cmd.restored), cmd.request);
    AnnouncesPlainly(s, request, env);
    Unchanged(s, t, cmd.restored.turn);
    if Launches(s, cmd, env) {
      AnnounceGrows(s, request, env);
      var a := Announce(s, request, env).value;
      var events := if request.context.Some? then [WindowContinued(request.windowIndex)] else [];
      InstallGrows(s, a, request, env.snapshot, Some(cmd.attempt), events);
      LogAlike(s, Install(IssueRun(a), cmd.restored.turn, a.nextRun, request, env.snapshot, Some(cmd.attempt)), t,
               cmd.restored.turn, events, events + []);
    }
  }

  lemma RecoveryGrows(s: LoopState, cmd: Command, env: Env)
    requires Whole(s) && s.exit == Running && AllAccepted(env) && cmd.StartRecovery?
    ensures var t := HandleRecovery(s, cmd.request, cmd.attempt, cmd.isToolItem, env);
            Grows(s, t, cmd.request.turn, Committed(s, cmd, env, t))
  {
    hide Announce, Install, IssueRun, Grows, AdmissionError, Adjusted, Exhausted, EndTurn;
    var t := HandleRecovery(s, cmd.request, cmd.attempt, cmd.isToolItem, env);
    Unchanged(s, t, cmd.request.turn);
    if s.lastRequest.Some? {
      var request := Adjusted(s.lastRequest.value, cmd.request);
      AdmittedExactly(s.lastRequest.value, cmd.request, s.lastSnapshot.value.budget);
      WithoutCheckpointAdmitted(s.lastRequest.value, cmd.request, s.lastSnapshot.value.budget);
      AdjustedAnnouncesItself(s.lastRequest.value, cmd.request);
      var from := if s.turn.Some? then Joined(s.(reply := Accepted)) else s;
      AnnouncesPlainly(from, request, env);
      if Launches(s, cmd, env) {
        RestartGrows(s, from, cmd, request, env);
      } else if HandoffFails(s, cmd, env) {
        EndTurnGrows(from, cmd.request.turn, s.run.value, s.snapshot.value, TurnFailed, Some(Failed), env);
        GrowsAlike(from, s, t, cmd.request.turn, [TerminalEffectsPrepared(s.run.value, s.snapshot.value.generation), TurnFailed],
                   Preparation(s, cmd, env, TurnFailed) + [TurnFailed] + []);
      }
    }
  }

  lemma RestartGrows(s: LoopState, from: LoopState, cmd: Command, request: Request, env: Env)
    requires Whole(s) && s.exit == Running && cmd.StartRecovery? && Launches(s, cmd, env)
    requires from == (if s.turn.Some? then Joined(s.(reply := Accepted)) else s)
    requires request == Adjusted(s.lastRequest.value, cmd.request) && AdmissionError(request, s.lastSnapshot.value.budget).None?
    requires Announce(from, request, env).Some?
    ensures var t := HandleRecovery(s, cmd.request, cmd.attempt, cmd.isToolItem, env);
            Grows(s, t, cmd.request.turn, Committed(s, cmd, env, t))
  {
    hide Announce, Install, IssueRun, Grows, AdmissionError, Adjusted, Exhausted, EndTurn;
    var t := HandleRecovery(s, cmd.request, cmd.attempt, cmd.isToolItem, env);
    AdjustedAnnouncesItself(s.lastRequest.value, cmd.request);
    AnnounceGrows(from, request, env);
    var a := Announce(from, request, env).value;
    var events := if request.context.Some? then [WindowContinued(request.windowIndex)] else [];
    InstallGrows(from, a, request, s.lastSnapshot.value, Some(cmd.attempt), events);
    var u := Install(IssueRun(a), cmd.request.turn, a.nextRun, request, s.lastSnapshot.value, Some(cmd.attempt));
    LogAlike(from, u, t, cmd.request.turn, events, events + []);
    GrowsAlike(from, s, t, cmd.request.turn, events + [], events + []);
  }

  lemma CancelGrows(s: LoopState, cmd: Command, fenced: bool, env: Env)
    requires Whole(s) && s.exit == Running && AllAccepted(env) && cmd.CancelTurn? && !BoundToAnotherRun(s, cmd)
    requires fenced <==> StopsFence(s, cmd)
    ensures var t := HandleCancel(s, cmd.turn, cmd.hasOwner, fenced, env); Grows(s, t, cmd.turn, Committed(s, cmd, env, t))
  {
    hide Commit;
    var m := Joined(s.(reply := Accepted));
    Accepts(m, cmd.turn, TurnInterrupted);
    Accepts(m, cmd.turn, CancellationContextPrepared);
    Accepts(Logged(m, cmd.turn, CancellationContextPrepared), cmd.turn, TurnInterrupted);
  }

  lemma SuccessGrows(s: LoopState, cmd: Command, env: Env)
    requires Whole(s) && s.exit == Running && AllAccepted(env) && cmd.RecoveryAttemptSucceeded?
    ensures var t := HandleRecoverySucceeded(s, cmd.turn, cmd.run, cmd.attempt, env);
            Grows(s, t, cmd.turn, Committed(s, cmd, env, t))
  {
    hide CommitUnlessCancelled;
    if s.recovery.Some? {
      AcceptsUnlessCancelled(s, cmd.turn, RecoverySucceeded(s.recovery.value.serial), env.recoveredRace);
    }
  }

  function TurnNamed(cmd: Command): Turn {
    match cmd
    case StartTurn(spec) => spec.turn
    case StartRecovery(q, _, _) => q.turn
    case StartRestored(spec, _, _) => spec.turn
    case Shutdown => ""
    case TurnTaskFinished(turn, _, _, _) => turn
    case RecoveryAttemptSucceeded(turn, _, _) => turn
    case CancelAttempt(turn) => turn
    case CancelTurn(turn, _, _) => turn
    case ObserveTurn(turn) => turn
    case DurableStartRejected(turn, _) => turn
  }

  lemma DispatchGrows(s: LoopState, cmd: Command, env: Env)
    requires Whole(s) && s.exit == Running && AllAccepted(env) && !BoundToAnotherRun(s, cmd)
    ensures var t := Dispatch(s, cmd, StopsFence(s, cmd), env); Grows(s, t, TurnNamed(cmd), Committed(s, cmd, env, t))
  {
    hide HandleStart, HandleFinished, HandleRecoverySucceeded, HandleCancel, HandleRecovery, HandleRestored, Grows, Committed;
    match cmd
    case StartTurn(spec) => StartGrows(s, spec, env);
    case TurnTaskFinished(_, _, _, _) => FinishedGrows(s, cmd, env);
    case RecoveryAttemptSucceeded(_, _, _) => SuccessGrows(s, cmd, env);
    case CancelTurn(_, _, _) => CancelGrows(s, cmd, StopsFence(s, cmd), env);
    case StartRecovery(_, _, _) => RecoveryGrows(s, cmd, env);
    case StartRestored(_, _, _) => RestoredGrows(s, cmd, env);
    case _ => OthersCommitNothing(s, cmd, env);
  }

  lemma OthersCommitNothing(s: LoopState, cmd: Command, env: Env)
    requires Whole(s) && s.exit == Running
    requires cmd.CancelAttempt? || cmd.ObserveTurn? || cmd.DurableStartRejected? || cmd.Shutdown?
    ensures var t := Dispatch(s, cmd, false, env); Grows(s, t, TurnNamed(cmd), Committed(s, cmd, env, t))
  {
  }

  /** When every publication is accepted a command adds to the log exactly the entries it commits, in order,
      for its own turn and for the run and activation that were current. */
  lemma LogGrowsExactly(s: LoopState, cmd: Command, env: Env)
    requires Whole(s) && s.exit == Running && AllAccepted(env)
    ensures var t := Handle(s, cmd, env); Grows(s, t, TurnNamed(cmd), Committed(s, cmd, env, t))
  {
    hide Dispatch, Exhausted, Committed, Grows;
    var r := s.(reply := Silent, fence := if TakesFence(s, cmd) then None else s.fence);
    if BoundToAnotherRun(s, cmd) || StopsFence(s, cmd) {
      FencedCommitsNothing(r, cmd, env);
      NothingCommitted(s, cmd, env, Handle(s, cmd, env));
    } else {
      VerdictIgnoresAnswers(s, r, cmd, env);
      ReceivedLaunches(s, r, cmd, env);
      DispatchGrows(r, cmd, env);
      CommitsAlike(s, r, cmd, env, Handle(s, cmd, env));
      var t := Handle(s, cmd, env);
      GrowsAlike(r, s, t, TurnNamed(cmd), Committed(r, cmd, env, t), Committed(s, cmd, env, t));
    }
  }

  lemma NothingCommitted(s: LoopState, cmd: Command, env: Env, t: LoopState)
    requires Whole(s) && cmd.CancelTurn? && (BoundToAnotherRun(s, cmd) || StopsFence(s, cmd)) && t.log == s.log
    ensures Grows(s, t, TurnNamed(cmd), Committed(s, cmd, env, t))
  {
  }

  lemma FencedCommitsNothing(s: LoopState, cmd: Command, env: Env)
    requires cmd.CancelTurn?
    ensures Dispatch(s, cmd, true, env).log == s.log
  {
  }

  lemma CommitsAlike(s: LoopState, r: LoopState, cmd: Command, env: Env, t: LoopState)
    requires Whole(s) && Whole(r) && r == s.(reply := r.reply, fence := r.fence)
    requires Verdict(r, cmd, env) == Verdict(s, cmd, env) && (Launches(r, cmd, env) <==> Launches(s, cmd, env))
    ensures Committed(r, cmd, env, t) == Committed(s, cmd, env, t)
  {
    hide Verdict, Launches;
  }
}
