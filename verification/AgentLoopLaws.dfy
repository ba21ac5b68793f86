/** What every command of the agent loop keeps true. */
module AgentLoopLaws {
  import opened Common
  import opened ExecutionWindows
  import opened AgentLoop

  // ---- Ownership: everything about the active turn is present, or nothing is ----

  /** The locals that must agree while a turn is active, apart from its spawned task. */
  predicate Owned(s: LoopState) {
    && s.exit == Running
    && s.turn.Some? && s.run.Some?
    && s.control == s.run
    && s.plane == Some((s.turn.value, s.run.value))
    && s.request.Some? && s.request.value.turn == s.turn.value
    && s.snapshot.Some?
    && s.lastRequest == s.request && s.lastSnapshot == s.snapshot
    && s.fence.None?
  }

  predicate Unowned(s: LoopState) {
    && s.turn.None? && s.run.None? && s.control.None? && s.task.None? && s.plane.None?
    && s.request.None? && s.snapshot.None? && s.recovery.None?
    && (s.lastRequest.Some? <==> s.lastSnapshot.Some?)
    && (s.fence.Some? ==> s.lastRequest.Some? && s.lastRequest.value.turn == s.fence.value)
    && s.exit != LostSnapshot
  }

  predicate Whole(s: LoopState) { if s.turn.Some? then Owned(s) && s.task == s.run else Unowned(s) }

  // ---- Run ids ----

  /** Run ids are handed out in order and stop at the last 64-bit value. */
  ghost predicate Numbered(s: LoopState) {
    && s.nextRun == Min(|s.issued| + 1, U64_MAX)
    && (forall i :: 0 <= i < |s.issued| ==> s.issued[i] == Min(i + 1, U64_MAX))
    && (s.run.Some? ==> s.run.value in s.issued)
  }

  // ---- The log ----

  predicate IsTerminal(e: Event) { NeedsPreparation(e) || e.TurnInterrupted? }

  predicate NeedsPreparation(e: Event) {
    e.TurnCompleted? || e.TurnFailed? || e.TurnBlocked? || e.ProviderFailureDetected?
  }

  predicate Prepares(p: Entry, t: Entry) {
    && p.event.TerminalEffectsPrepared?
    && p.turn == t.turn
    && p.run == t.run == Some(p.event.batchRun)
    && p.activation == t.activation
  }

  ghost predicate EveryTerminalPrepared(log: seq<Entry>) {
    forall i :: 0 <= i < |log| && NeedsPreparation(log[i].event) ==> i > 0 && Prepares(log[i - 1], log[i])
  }

  ghost predicate OneTerminalPerActivation(log: seq<Entry>) {
    forall i, j :: 0 <= i < j < |log| && IsTerminal(log[i].event) && IsTerminal(log[j].event) ==>
      log[i].activation < log[j].activation
  }

  ghost predicate TerminalsBelow(log: seq<Entry>, bound: nat) {
    forall i :: 0 <= i < |log| && IsTerminal(log[i].event) ==> log[i].activation < bound
  }

  ghost predicate OneSuccessPerInstall(log: seq<Entry>) {
    forall i, j :: 0 <= i < j < |log| && log[i].event.RecoverySucceeded? && log[j].event.RecoverySucceeded? ==>
      log[i].event.serial != log[j].event.serial
  }

  ghost predicate SuccessesClosed(log: seq<Entry>, installs: nat, pending: Option<nat>) {
    forall i :: 0 <= i < |log| && log[i].event.RecoverySucceeded? ==>
      log[i].event.serial < installs && Some(log[i].event.serial) != pending
  }

  ghost predicate RequestNeverMissing(log: seq<Entry>) {
    forall i :: 0 <= i < |log| ==> log[i].event != WindowBlocked(true)
  }

  ghost predicate LogOk(log: seq<Entry>, bound: nat, installs: nat, pending: Option<nat>) {
    && EveryTerminalPrepared(log)
    && OneTerminalPerActivation(log)
    && TerminalsBelow(log, bound)
    && OneSuccessPerInstall(log)
    && SuccessesClosed(log, installs, pending)
    && RequestNeverMissing(log)
    && (pending.Some? ==> pending.value < installs)
  }

  predicate IsPlain(e: Event) { !IsTerminal(e) && !e.RecoverySucceeded? && e != WindowBlocked(true) }

  lemma AppendPlain(log: seq<Entry>, e: Entry, bound: nat, installs: nat, pending: Option<nat>)
    requires LogOk(log, bound, installs, pending) && IsPlain(e.event)
    ensures LogOk(log + [e], bound, installs, pending)
  {
    var next := log + [e];
    forall i | 0 <= i < |next| && NeedsPreparation(next[i].event)
      ensures i > 0 && Prepares(next[i - 1], next[i])
    {
      assert next[i] == log[i];
    }
  }

  lemma AppendSuccess(log: seq<Entry>, e: Entry, bound: nat, installs: nat, pending: nat)
    requires LogOk(log, bound, installs, Some(pending)) && e.event == RecoverySucceeded(pending)
    ensures LogOk(log + [e], bound, installs, None)
  {
    var next := log + [e];
    forall i | 0 <= i < |next| && NeedsPreparation(next[i].event)
      ensures i > 0 && Prepares(next[i - 1], next[i])
    {
      assert next[i] == log[i];
    }
  }

  lemma AppendTerminal(log: seq<Entry>, e: Entry, bound: nat, installs: nat, pending: Option<nat>)
    requires LogOk(log, bound, installs, pending) && IsTerminal(e.event) && e.activation == bound
    requires NeedsPreparation(e.event) ==> |log| > 0 && Prepares(log[|log| - 1], e)
    ensures LogOk(log + [e], bound + 1, installs, pending)
  {
    var next := log + [e];
    forall i | 0 <= i < |next| && NeedsPreparation(next[i].event)
      ensures i > 0 && Prepares(next[i - 1], next[i])
    {
      if i < |log| {
        assert next[i] == log[i];
      }
    }
  }

  function Pending(s: LoopState): Option<nat> { if s.recovery.Some? then Some(s.recovery.value.serial) else None }

  ghost predicate LogAt(s: LoopState, bound: nat) { LogOk(s.log, bound, s.installs, Pending(s)) }

  /** While a turn is active its activation has no terminal event yet. */
  ghost predicate LogInv(s: LoopState) {
    LogAt(s, if s.turn.Some? then s.activations else s.activations + 1)
  }

  ghost predicate Inv(s: LoopState) { Whole(s) && Numbered(s) && LogInv(s) }

  lemma StartInv()
    ensures Inv(START)
  {
  }

  // ---- Building blocks ----

  lemma SupersededKeeps(s: LoopState)
    requires Owned(s) && Numbered(s) && LogAt(s, s.activations + 1)
    ensures Inv(Superseded(s))
  {
    hide LogOk;
    assert LogOk(Superseded(s).log, s.activations + 1, s.installs, None) by {
      Forget(s.log, s.activations + 1, s.installs, Pending(s));
    }
  }

  lemma ExitedKeeps(s: LoopState, why: Exit)
    requires Numbered(s) && LogAt(s, s.activations + 1) && why != LostSnapshot
    ensures Inv(Exited(s, why))
  {
    hide LogOk;
    Forget(s.log, s.activations + 1, s.installs, Pending(s));
  }

  lemma EndingKeeps(s: LoopState)
    requires Owned(s) && s.task.None? && Numbered(s) && LogAt(s, s.activations + 1)
    ensures Inv(Ending(s))
  {
    hide LogOk;
    Forget(s.log, s.activations + 1, s.installs, Pending(s));
  }

  lemma Forget(log: seq<Entry>, bound: nat, installs: nat, pending: Option<nat>)
    requires LogOk(log, bound, installs, pending)
    ensures LogOk(log, bound, installs, None)
  {
  }

  lemma Widen(log: seq<Entry>, bound: nat, installs: nat, pending: Option<nat>)
    requires LogOk(log, bound, installs, pending)
    ensures LogOk(log, bound + 1, installs, pending)
  {
  }

  lemma Installable(log: seq<Entry>, bound: nat, installs: nat, pending: Option<nat>)
    requires LogOk(log, bound, installs, pending)
    ensures LogOk(log, bound, installs + 1, Some(installs))
  {
  }

  /** Publishing anything that leaves the log in order either ends the command well or goes on. */
  lemma CommitKeeps(s: LoopState, turn: Turn, event: Event, answer: Answer)
    requires Owned(s) && Numbered(s) && LogAt(s, s.activations + 1)
    ensures Commit(s, turn, event, answer).Over? ==> Inv(Commit(s, turn, event, answer).state)
    ensures Commit(s, turn, event, answer).Go? ==> Commit(s, turn, event, answer).state == Logged(s, turn, event)
  {
    hide LogOk, Inv, Numbered;
    match answer
    case Accept =>
    case Supersede => SupersededKeeps(s);
    case Reject => ExitedKeeps(s, Rejected);
  }

  lemma CommitUnlessCancelledKeeps(s: LoopState, turn: Turn, event: Event, answer: Answer, race: Race)
    requires Owned(s) && Numbered(s) && LogAt(s, s.activations + 1)
    ensures CommitUnlessCancelled(s, turn, event, answer, race).Over? ==>
              Inv(CommitUnlessCancelled(s, turn, event, answer, race).state)
    ensures CommitUnlessCancelled(s, turn, event, answer, race).Go? ==>
              CommitUnlessCancelled(s, turn, event, answer, race).state == Logged(s, turn, event)
  {
    hide LogOk, Inv, Numbered, Commit;
    CommitKeeps(s, turn, event, answer);
    SupersededKeeps(s);
    ExitedKeeps(s, CooperativelyCancelled);
  }

  /** The preparation and the terminal event it prepares land next to each other. */
  lemma CommitTerminalKeeps(
      s: LoopState, turn: Turn, run: RunId, snapshot: Option<Snapshot>, event: Event, env: Env)
    requires Owned(s) && Numbered(s) && LogAt(s, s.activations)
    requires s.run == Some(run) && snapshot.Some? && NeedsPreparation(event)
    ensures CommitTerminal(s, turn, run, snapshot, event, env).Over? ==>
              Inv(CommitTerminal(s, turn, run, snapshot, event, env).state)
    ensures CommitTerminal(s, turn, run, snapshot, event, env).Go? ==>
              && CommitTerminal(s, turn, run, snapshot, event, env).state
                 == Logged(Logged(s, turn, TerminalEffectsPrepared(run, snapshot.value.generation)), turn, event)
              && LogAt(CommitTerminal(s, turn, run, snapshot, event, env).state, s.activations + 1)
  {
    hide LogOk, Inv, Numbered, Commit;
    var preparation := TerminalEffectsPrepared(run, snapshot.value.generation);
    var p := Logged(s, turn, preparation);
    Widen(s.log, s.activations, s.installs, Pending(s));
    CommitKeeps(s, turn, preparation, env.prepare);
    assert Numbered(p) by { NumberedFrame(s, p); }
    AppendPlain(s.log, Entry(preparation, turn, s.run, s.activations), s.activations, s.installs, Pending(s));
    Widen(p.log, s.activations, s.installs, Pending(s));
    CommitKeeps(p, turn, event, env.terminal);
    AppendTerminal(p.log, Entry(event, turn, s.run, s.activations), s.activations, s.installs, Pending(s));
  }

  lemma NumberedFrame(s: LoopState, t: LoopState)
    requires Numbered(s) && t.nextRun == s.nextRun && t.issued == s.issued && (t.run == s.run || t.run.None?)
    ensures Numbered(t)
  {
  }

  lemma EndTurnKeeps(
      s: LoopState, turn: Turn, run: RunId, snapshot: Option<Snapshot>, event: Event, status: Option<Status>, env: Env)
    requires Owned(s) && s.task.None? && Numbered(s) && LogAt(s, s.activations)
    requires s.run == Some(run) && snapshot.Some? && NeedsPreparation(event)
    ensures Inv(EndTurn(s, turn, run, snapshot, event, status, env))
  {
    hide LogOk, Inv, Numbered, CommitTerminal, Ending;
    CommitTerminalKeeps(s, turn, run, snapshot, event, env);
    var flow := CommitTerminal(s, turn, run, snapshot, event, env);
    if flow.Go? {
      var t := if status.Some? then flow.state.(observation := Some((turn, status.value))) else flow.state;
      NumberedFrame(s, t);
      EndingKeeps(t);
    }
  }

  /** Handing the turn to a fresh run. */
  lemma InstallKeeps(
      s: LoopState, turn: Turn, run: RunId, request: Request, snapshot: Snapshot, recovery: Option<Attempt>)
    requires s.exit == Running && s.fence.None? && request.turn == turn
    requires Numbered(s) && run in s.issued && LogInv(s)
    ensures Inv(Install(s, turn, run, request, snapshot, recovery))
  {
    hide LogOk;
    var bound := if s.turn.Some? then s.activations else s.activations + 1;
    Installable(s.log, bound, s.installs, Pending(s));
    Forget(s.log, bound, s.installs, Pending(s));
  }

  lemma IssueKeeps(s: LoopState)
    requires Numbered(s)
    ensures Numbered(IssueRun(s)) && s.nextRun in IssueRun(s).issued
  {
    var t := IssueRun(s);
    assert t.issued[|s.issued|] == s.nextRun;
    forall i | 0 <= i < |t.issued|
      ensures t.issued[i] == Min(i + 1, U64_MAX)
    {
    }
    if s.run.Some? {
      var k :| 0 <= k < |s.issued| && s.issued[k] == s.run.value;
      assert t.issued[k] == s.run.value;
    }
  }

  lemma LogPlain(s: LoopState, turn: Turn, event: Event, bound: nat)
    requires LogAt(s, bound) && IsPlain(event)
    ensures LogAt(Logged(s, turn, event), bound)
  {
    AppendPlain(s.log, Entry(event, turn, s.run, s.activations), bound, s.installs, Pending(s));
  }

  /** Acknowledgements and observations are not part of the ownership. */
  lemma AckKeeps(s: LoopState, t: LoopState)
    requires Inv(s) && t == s.(reply := t.reply, observation := t.observation)
    ensures Inv(t)
  {
  }

  // ---- The commands ----

  /** Announce, take a fresh run, install it: the common tail of every start. */
  lemma LaunchKeeps(s: LoopState, turn: Turn, request: Request, snapshot: Snapshot, attempt: Option<Attempt>, env: Env)
    requires s.exit == Running && s.fence.None? && request.turn == turn && Numbered(s) && LogInv(s)
    requires Announce(s, request, env).Some?
    ensures var t := Announce(s, request, env).value;
            Inv(Install(IssueRun(t), turn, t.nextRun, request, snapshot, attempt))
  {
    hide LogOk, Inv, Numbered, Install;
    var t := Announce(s, request, env).value;
    if request.context.Some? {
      var index := Max(request.windowIndex, NextWindowIndex(request.context.value));
      LogPlain(s, request.turn, WindowContinued(index), if s.turn.Some? then s.activations else s.activations + 1);
    }
    NumberedFrame(s, t);
    IssueKeeps(t);
    InstallKeeps(IssueRun(t), turn, t.nextRun, request, snapshot, attempt);
  }

  lemma StartKeeps(s: LoopState, spec: StartSpec, env: Env)
    requires Inv(s) && s.exit == Running && s.fence.None?
    ensures Inv(HandleStart(s, spec, env))
  {
    hide LogOk, Numbered, Install, Announce, IssueRun;
    var request := StartRequest(spec);
    var after := HandleStart(s, spec, env);
    if !env.outcomeRecorded && s.turn.None? && env.providerOk && Announce(s, request, env).Some? {
      LaunchKeeps(s, spec.turn, request, env.snapshot, None, env);
      var t := Announce(s, request, env).value;
      AckKeeps(Install(IssueRun(t), spec.turn, t.nextRun, request, env.snapshot, None), after);
    } else {
      AckKeeps(s, after);
    }
  }

  lemma CompletedKeeps(s: LoopState, turn: Turn, run: RunId, contextSession: bool, env: Env)
    requires Owned(s) && s.task.None? && Numbered(s) && LogAt(s, s.activations)
    requires s.run == Some(run) && s.turn == Some(turn)
    ensures Inv(HandleCompleted(s, turn, run, contextSession, env))
  {
    hide LogOk, Inv, Numbered, CommitTerminal, Commit, Ending;
    CommitTerminalKeeps(s, turn, run, s.snapshot, TurnCompleted, env);
    var flow := CommitTerminal(s, turn, run, s.snapshot, TurnCompleted, env);
    if flow.Go? {
      var t := flow.state;
      NumberedFrame(s, t);
      var u := t;
      if s.recovery.Some? {
        var success := RecoverySucceeded(s.recovery.value.serial);
        CommitKeeps(t, turn, success, env.recovered);
        AppendSuccess(t.log, Entry(success, turn, t.run, t.activations), s.activations + 1, s.installs,
                      s.recovery.value.serial);
        u := Logged(t, turn, success).(recovery := None);
      }
      if !s.recovery.Some? || Commit(t, turn, RecoverySucceeded(s.recovery.value.serial), env.recovered).Go? {
        NumberedFrame(s, u);
        CompletedEnds(u, turn, contextSession);
        RecoveryIsForgotten(u, if s.recovery.Some? then s.recovery else None, turn);
      }
    }
  }

  lemma CompletedEnds(u: LoopState, turn: Turn, contextSession: bool)
    requires Owned(u) && u.task.None? && Numbered(u) && LogAt(u, u.activations + 1) && u.turn == Some(turn)
    ensures Inv(Ending(u.(observation := Some((turn, Completed)))))
    ensures Inv(Ending(u.(observation := Some((turn, Completed)))).(fence := Some(turn)))
  {
    hide LogOk;
    var v := u.(observation := Some((turn, Completed)));
    NumberedFrame(u, v);
    EndingKeeps(v);
  }

  /** Ending a turn forgets its recovery, so it does not matter whether it was still installed. */
  lemma RecoveryIsForgotten(u: LoopState, recovery: Option<Installed>, turn: Turn)
    ensures Ending(u.(observation := Some((turn, Completed))))
            == Ending(u.(recovery := recovery, observation := Some((turn, Completed))))
  {
  }

  lemma OpenNextWindowKeeps(
      s: LoopState, turn: Turn, newRun: RunId, next: Request, snapshot: Snapshot, env: Env)
    requires Owned(s) && Numbered(s) && LogAt(s, s.activations) && newRun in s.issued
    requires s.turn == Some(turn) && next.turn == turn
    ensures Inv(OpenNextWindow(s, turn, newRun, next, snapshot, env))
  {
    hide LogOk, Inv, Numbered, CommitUnlessCancelled, Install;
    var continued := WindowContinued(next.windowIndex);
    Widen(s.log, s.activations, s.installs, Pending(s));
    CommitUnlessCancelledKeeps(s, turn, continued, env.window, env.windowRace);
    if CommitUnlessCancelled(s, turn, continued, env.window, env.windowRace).Go? {
      var t := Logged(s, turn, continued);
      LogPlain(s, turn, continued, s.activations);
      NumberedFrame(s, t);
      if s.recovery.None? {
        InstallKeeps(t, turn, newRun, next, snapshot, None);
      } else {
        var serial := s.recovery.value.serial;
        Widen(t.log, s.activations, s.installs, Pending(t));
        CommitUnlessCancelledKeeps(t, turn, RecoverySucceeded(serial), env.recovered, env.recoveredRace);
        var u := Logged(t, turn, RecoverySucceeded(serial));
        AppendSuccess(t.log, Entry(RecoverySucceeded(serial), turn, t.run, t.activations), s.activations, s.installs, serial);
        var closed := u.(recovery := None);
        NumberedFrame(s, closed);
        InstallKeeps(closed, turn, newRun, next, snapshot, None);
        assert Install(closed, turn, newRun, next, snapshot, None) == Install(u, turn, newRun, next, snapshot, None) by {
          InstallForgets(u, turn, newRun, next, snapshot);
        }
      }
    }
  }

  lemma InstallForgets(u: LoopState, turn: Turn, run: RunId, request: Request, snapshot: Snapshot)
    ensures Install(u.(recovery := None), turn, run, request, snapshot, None)
            == Install(u, turn, run, request, snapshot, None)
  {
  }

  lemma ContinuationKeeps(
      s: LoopState, turn: Turn, run: RunId, payload: Payload, history: seq<string>, env: Env)
    requires Owned(s) && s.task.None? && Numbered(s) && LogAt(s, s.activations)
    requires s.run == Some(run) && s.turn == Some(turn)
    ensures Inv(HandleContinuation(s, turn, run, payload, history, env))
  {
    hide LogOk, Inv, Numbered, CommitUnlessCancelled, EndTurn, OpenNextWindow, Decide, Observe;
    match Continued(s.request.value, payload, history, s.snapshot.value.budget)
    case Err(_) =>
      Widen(s.log, s.activations, s.installs, Pending(s));
      CommitUnlessCancelledKeeps(s, turn, WindowBlocked(false), env.window, env.windowRace);
      var t := Logged(s, turn, WindowBlocked(false));
      LogPlain(s, turn, WindowBlocked(false), s.activations);
      NumberedFrame(s, t);
      EndTurnKeeps(t, turn, run, s.snapshot, TurnBlocked, Some(Blocked), env);
    case Ok(next) =>
      EndTurnKeeps(s, turn, run, s.snapshot, TurnFailed, Some(Failed), env);
      IssueKeeps(s);
      OpenNextWindowKeeps(IssueRun(s), turn, s.nextRun, next, s.snapshot.value, env);
  }

  lemma FinishedKeeps(s: LoopState, turn: Turn, run: RunId, result: TaskResult, contextSession: bool, env: Env)
    requires Inv(s) && s.exit == Running
    ensures Inv(HandleFinished(s, turn, run, result, contextSession, env))
  {
    hide LogOk, Numbered, HandleCompleted, HandleContinuation, EndTurn;
    if s.turn == Some(turn) && s.run == Some(run) {
      var t := s.(task := None);
      NumberedFrame(s, t);
      match result
      case Finished => CompletedKeeps(t, turn, run, contextSession, env);
      case NeedsContinuation(payload, history) => ContinuationKeeps(t, turn, run, payload, history, env);
      case TerminalFailure => EndTurnKeeps(t, turn, run, t.snapshot, TurnFailed, Some(Failed), env);
      case BlockedFailure => EndTurnKeeps(t, turn, run, t.snapshot, TurnBlocked, Some(Blocked), env);
      case ProviderFailure => EndTurnKeeps(t, turn, run, t.snapshot, ProviderFailureDetected, None, env);
    }
  }

  lemma RecoverySucceededKeeps(s: LoopState, turn: Turn, run: RunId, attempt: Attempt, env: Env)
    requires Inv(s) && s.exit == Running
    ensures Inv(HandleRecoverySucceeded(s, turn, run, attempt, env))
  {
    hide LogOk, Numbered, CommitUnlessCancelled;
    if s.turn == Some(turn) && s.recovery.Some? {
      var serial := s.recovery.value.serial;
      Widen(s.log, s.activations, s.installs, Pending(s));
      CommitUnlessCancelledKeeps(s, turn, RecoverySucceeded(serial), env.recovered, env.recoveredRace);
      AppendSuccess(s.log, Entry(RecoverySucceeded(serial), turn, s.run, s.activations), s.activations, s.installs, serial);
      NumberedFrame(s, Logged(s, turn, RecoverySucceeded(serial)).(recovery := None));
    }
  }

  lemma InterruptionKeeps(s: LoopState, turn: Turn, durable: bool, hasOwner: bool, env: Env)
    requires Owned(s) && s.task.None? && Numbered(s) && LogAt(s, s.activations) && s.turn == Some(turn)
    ensures var flow := PublishInterruption(s, turn, durable, hasOwner, env);
            && (flow.Over? ==> Inv(flow.state))
            && (flow.Go? ==>
                  && Owned(flow.state) && flow.state.task.None? && Numbered(flow.state)
                  && LogAt(flow.state, flow.state.activations + 1))
  {
    hide LogOk, Inv, Numbered, Commit;
    Widen(s.log, s.activations, s.installs, Pending(s));
    if durable {
      CommitKeeps(s, turn, TurnInterrupted, env.terminal);
      AppendTerminal(s.log, Entry(TurnInterrupted, turn, s.run, s.activations), s.activations, s.installs, Pending(s));
      NumberedFrame(s, Logged(s, turn, TurnInterrupted));
    } else {
      CommitKeeps(s, turn, CancellationContextPrepared, env.prepare);
      var t := Logged(s, turn, CancellationContextPrepared);
      LogPlain(s, turn, CancellationContextPrepared, s.activations);
      Widen(t.log, s.activations, s.installs, Pending(s));
      NumberedFrame(s, t);
      CommitKeeps(t, turn, TurnInterrupted, env.terminal);
      AppendTerminal(t.log, Entry(TurnInterrupted, turn, t.run, t.activations), s.activations, s.installs, Pending(s));
      NumberedFrame(s, Logged(t, turn, TurnInterrupted));
    }
  }

  lemma CancelKeeps(s: LoopState, turn: Turn, hasOwner: bool, fenced: bool, env: Env)
    requires Inv(s) && s.exit == Running
    ensures Inv(HandleCancel(s, turn, hasOwner, fenced, env))
  {
    hide LogOk, Numbered, PublishInterruption;
    if env.outcomeRecorded || fenced || s.turn != Some(turn) {
      AckKeeps(s, HandleCancel(s, turn, hasOwner, fenced, env));
    } else {
      var t := Joined(s.(reply := Accepted));
      NumberedFrame(s, t);
      var durable := s.control.Some? && env.durableStop;
      InterruptionKeeps(t, turn, durable, hasOwner, env);
      var flow := PublishInterruption(t, turn, durable, hasOwner, env);
      if flow.Go? {
        var u := flow.state.(observation := Some((turn, Interrupted)));
        NumberedFrame(flow.state, u);
        EndingKeeps(u);
        ForgettingKeeps(Ending(u));
      }
    }
  }

  lemma ForgettingKeeps(s: LoopState)
    requires Inv(s) && s.turn.None? && s.fence.None?
    ensures Inv(s.(lastRequest := None, lastSnapshot := None))
  {
  }

  lemma RestartIdleKeeps(
      s: LoopState, request: Request, snapshot: Snapshot, turn: Turn, attempt: Attempt, env: Env)
    requires Inv(s) && s.exit == Running && s.turn.None? && s.fence.None? && request.turn == turn
    ensures Inv(RestartIdle(s, request, snapshot, turn, attempt, env))
  {
    hide LogOk, Numbered, Install, Announce, IssueRun, AdmissionError;
    var after := RestartIdle(s, request, snapshot, turn, attempt, env);
    if AdmissionError(request, snapshot.budget).None? && env.providerOk && Announce(s, request, env).Some? {
      LaunchKeeps(s, turn, request, snapshot, Some(attempt), env);
      var t := Announce(s, request, env).value;
      AckKeeps(Install(IssueRun(t), turn, t.nextRun, request, snapshot, Some(attempt)), after);
    } else {
      AckKeeps(s, after);
    }
  }

  lemma RestartActiveKeeps(
      s: LoopState, request: Request, snapshot: Snapshot, turn: Turn, attempt: Attempt, env: Env)
    requires Inv(s) && s.exit == Running && s.turn == Some(turn) && request.turn == turn
    ensures Inv(RestartActive(s, request, snapshot, turn, attempt, env))
  {
    hide LogOk, Numbered, Install, Announce, IssueRun, AdmissionError, EndTurn;
    var after := RestartActive(s, request, snapshot, turn, attempt, env);
    var joined := Joined(s.(reply := Accepted));
    NumberedFrame(s, joined);
    if AdmissionError(request, snapshot.budget).Some? || !env.providerOk {
      AckKeeps(s, after);
    } else if Announce(joined, request, env).Some? {
      LaunchKeeps(joined, turn, request, snapshot, Some(attempt), env);
      var t := Announce(joined, request, env).value;
      AckKeeps(Install(IssueRun(t), turn, t.nextRun, request, snapshot, Some(attempt)), after);
    } else {
      EndTurnKeeps(joined, turn, s.run.value, Some(snapshot), TurnFailed, Some(Failed), env);
    }
  }

  lemma RecoveryKeeps(s: LoopState, q: RecoveryRequest, attempt: Attempt, isToolItem: bool, env: Env)
    requires Inv(s) && s.exit == Running && s.fence.None?
    ensures Inv(HandleRecovery(s, q, attempt, isToolItem, env))
  {
    hide LogOk, Numbered, RestartIdle, RestartActive, Adjusted;
    var after := HandleRecovery(s, q, attempt, isToolItem, env);
    if env.outcomeRecorded {
      AckKeeps(s, after);
    } else if s.turn.None? {
      if !isToolItem && s.lastRequest.Some? && s.lastRequest.value.turn == q.turn {
        AdjustedKeepsTurn(s.lastRequest.value, q);
        RestartIdleKeeps(s, Adjusted(s.lastRequest.value, q), s.lastSnapshot.value, q.turn, attempt, env);
      } else {
        AckKeeps(s, after);
      }
    } else if s.turn != Some(q.turn) {
      AckKeeps(s, after);
    } else if !isToolItem {
      AdjustedKeepsTurn(s.request.value, q);
      RestartActiveKeeps(s, Adjusted(s.request.value, q), s.snapshot.value, q.turn, attempt, env);
    } else {
      Installable(s.log, s.activations, s.installs, Pending(s));
      NumberedFrame(s, after);
    }
  }

  lemma AdjustedKeepsTurn(r: Request, q: RecoveryRequest)
    ensures Adjusted(r, q).turn == r.turn
  {
  }

  lemma RestoredKeeps(s: LoopState, spec: RestoredSpec, q: RecoveryRequest, attempt: Attempt, env: Env)
    requires Inv(s) && s.exit == Running && s.fence.None?
    ensures Inv(HandleRestored(s, spec, q, attempt, env))
  {
    hide LogOk, Numbered, Install, Announce, IssueRun, AdmissionError, Adjusted;
    var request := Adjusted(RestoredRequest(spec), q);
    AdjustedKeepsTurn(RestoredRequest(spec), q);
    var after := HandleRestored(s, spec, q, attempt, env);
    if !env.outcomeRecorded && s.turn.None? && spec.turn == q.turn && env.providerOk
       && AdmissionError(request, env.snapshot.budget).None? && Announce(s, request, env).Some? {
      LaunchKeeps(s, spec.turn, request, env.snapshot, Some(attempt), env);
      var t := Announce(s, request, env).value;
      AckKeeps(Install(IssueRun(t), spec.turn, t.nextRun, request, env.snapshot, Some(attempt)), after);
    } else {
      AckKeeps(s, after);
    }
  }

  lemma ReceivedKeeps(s: LoopState, cmd: Command)
    requires Inv(s)
    ensures Inv(s.(reply := Silent, fence := if TakesFence(s, cmd) then None else s.fence))
  {
  }

  lemma HandleKeepsInv(s: LoopState, cmd: Command, env: Env)
    requires Inv(s)
    ensures Inv(Handle(s, cmd, env))
  {
    hide LogOk, Numbered, HandleStart, HandleFinished, HandleRecoverySucceeded, HandleCancel, HandleRecovery,
         HandleRestored;
    AckKeeps(s, s.(reply := Refused(TurnMismatch)));
    ReceivedKeeps(s, cmd);
    if s.exit == Running && !BoundToAnotherRun(s, cmd) {
      var t := s.(reply := Silent, fence := if TakesFence(s, cmd) then None else s.fence);
      match cmd
      case StartTurn(spec) => StartKeeps(t, spec, env);
      case TurnTaskFinished(turn, run, result, session) => FinishedKeeps(t, turn, run, result, session, env);
      case RecoveryAttemptSucceeded(turn, run, attempt) => RecoverySucceededKeeps(t, turn, run, attempt, env);
      case CancelAttempt(turn) => AckKeeps(t, HandleCancelAttempt(t, turn, env));
      case CancelTurn(turn, _, hasOwner) => CancelKeeps(t, turn, hasOwner, StopsFence(s, cmd), env);
      case ObserveTurn(turn) => AckKeeps(t, HandleObserve(t, turn));
      case StartRecovery(q, attempt, isToolItem) => RecoveryKeeps(t, q, attempt, isToolItem, env);
      case StartRestored(spec, q, attempt) => RestoredKeeps(t, spec, q, attempt, env);
      case DurableStartRejected(turn, run) => LeavingKeeps(t, StartRejected);
      case Shutdown =>
        NumberedFrame(t, Joined(t));
        LeavingKeeps(Joined(t), ShutDown);
    }
  }

  lemma LeavingKeeps(s: LoopState, why: Exit)
    requires Numbered(s) && LogInv(s) && why != LostSnapshot
    ensures Inv(Exited(s, why))
  {
    hide LogOk, Numbered;
    if s.turn.Some? {
      Widen(s.log, s.activations, s.installs, Pending(s));
    }
    ExitedKeeps(s, why);
  }

  /** At every command boundary of every run. */
  lemma {:induction false} EveryRunKeepsInv(mailbox: seq<Delivery>)
    ensures Inv(HandleAll(START, mailbox))
  {
    hide Inv, Handle;
    if mailbox == [] {
      StartInv();
    } else {
      var last := |mailbox| - 1;
      EveryRunKeepsInv(mailbox[..last]);
      HandleKeepsInv(HandleAll(START, mailbox[..last]), mailbox[last].command, mailbox[last].env);
    }
  }
}
