/** What one command does to the agent loop's locals, its control plane and its durable log. */
module AgentLoop {
  import opened Common
  import opened ExecutionWindows

  type Turn = string
  type RunId = n: nat | n <= U64_MAX

  datatype Snapshot = Snapshot(generation: nat, budget: Budget)

  datatype Attempt = Attempt(job: string, attempt: string)

  /** A recovery attempt as installed: two installations of equal attempts have different serials. */
  datatype Installed = Installed(attempt: Attempt, serial: nat)

  datatype Status = Completed | Failed | Blocked | Interrupted

  datatype Event =
    | TerminalEffectsPrepared(batchRun: RunId, generation: nat)
    | CancellationContextPrepared
    | TurnCompleted
    | TurnFailed
    | TurnBlocked
    | ProviderFailureDetected
    | TurnInterrupted
    | WindowBlocked(requestMissing: bool)
    | WindowContinued(windowIndex: U32)
    | RecoverySucceeded(serial: nat)

  /** A committed event with the run and activation that were current when it was committed. */
  datatype Entry = Entry(event: Event, turn: Turn, run: Option<RunId>, activation: nat)

  datatype Exit = Running | ShutDown | Rejected | CooperativelyCancelled | StartRejected | LostSnapshot

  datatype Error =
    | TurnMismatch | NoActiveTurn | TurnAlreadyRunning | AttemptNotRunning | Internal | WindowsExhausted(kind: BlockKind)

  datatype Reply = Silent | Accepted | Started(run: RunId) | Refused(error: Error) | Recorded | Observed(status: Option<Observation>)

  datatype Observation = InProgress | Ended(status: Status)

  /** The loop's locals, its control plane, its log, the turn flows still running, and history. */
  datatype LoopState = LoopState(
    turn: Option<Turn>,
    task: Option<RunId>,
    fence: Option<Turn>,
    control: Option<RunId>,
    request: Option<Request>,
    lastRequest: Option<Request>,
    snapshot: Option<Snapshot>,
    lastSnapshot: Option<Snapshot>,
    run: Option<RunId>,
    recovery: Option<Installed>,
    observation: Option<(Turn, Status)>,
    nextRun: RunId,
    plane: Option<(Turn, RunId)>,
    reply: Reply,
    exit: Exit,
    log: seq<Entry>,
    flows: set<RunId>,
    issued: seq<RunId>,
    installs: nat,
    activations: nat)

  const START := LoopState(
    None, None, None, None, None, None, None, None, None, None, None, 1, None, Silent, Running, [], {}, [], 0, 0)

  datatype StartSpec = StartSpec(
    turn: Turn,
    model: string,
    input: seq<Input>,
    capabilities: seq<Capability>,
    artifacts: seq<Artifact>,
    retainedHistory: seq<string>,
    context: Option<CheckpointContext>)

  datatype RestoredSpec = RestoredSpec(
    turn: Turn,
    windowIndex: U32,
    model: string,
    input: seq<Input>,
    capabilities: seq<Capability>,
    artifacts: seq<Artifact>)

  datatype TaskResult =
    | Finished
    | NeedsContinuation(payload: Payload, history: seq<string>)
    | TerminalFailure
    | BlockedFailure
    | ProviderFailure

  datatype Command =
    | StartTurn(spec: StartSpec)
    | TurnTaskFinished(turn: Turn, run: RunId, result: TaskResult, contextSession: bool)
    | RecoveryAttemptSucceeded(turn: Turn, run: RunId, attempt: Attempt)
    | CancelAttempt(turn: Turn)
    | CancelTurn(turn: Turn, expectedRun: Option<RunId>, hasOwner: bool)
    | ObserveTurn(turn: Turn)
    | StartRecovery(request: RecoveryRequest, attempt: Attempt, isToolItem: bool)
    | StartRestored(restored: RestoredSpec, request: RecoveryRequest, attempt: Attempt)
    | DurableStartRejected(turn: Turn, run: RunId)
    | Shutdown

  /** The hub's eventual answer to one publication. */
  datatype Answer = Accept | Supersede | Reject

  /** Whether the turn's token fires before the hub answers, and whether a durable receipt is then visible. */
  datatype Race = Race(cancelled: bool, durable: bool)

  /** Everything a command handler learns from outside the loop while it runs. */
  datatype Env = Env(
    outcomeRecorded: bool,
    fenceStopFails: bool,
    providerOk: bool,
    handoffOk: bool,
    attemptRunning: bool,
    durableStop: bool,
    snapshot: Snapshot,
    window: Answer,
    windowRace: Race,
    prepare: Answer,
    terminal: Answer,
    recovered: Answer,
    recoveredRace: Race)

  // ---- Building blocks ----

  /** How a publication leaves the handler: going on, or finished with this command. */
  datatype Flow = Go(state: LoopState) | Over(state: LoopState)

  function Logged(s: LoopState, turn: Turn, event: Event): LoopState {
    s.(log := s.log + [Entry(event, turn, s.run, s.activations)])
  }

  function ClearControl(s: LoopState): LoopState {
    s.(plane := if s.turn.Some? && s.run.Some? && s.plane == Some((s.turn.value, s.run.value)) then None else s.plane,
       turn := None, run := None, control := None, snapshot := None)
  }

  function Ending(s: LoopState): LoopState { ClearControl(s).(request := None, recovery := None) }

  /** Waiting for a turn task to end: its flow has stopped when the loop goes on. */
  function Joined(s: LoopState): LoopState {
    if s.task.Some? then s.(task := None, flows := s.flows - {s.task.value}) else s
  }

  function Superseded(s: LoopState): LoopState {
    Ending(Joined(s).(observation := if s.turn.Some? then Some((s.turn.value, Interrupted)) else s.observation))
    .(lastRequest := None, lastSnapshot := None)
  }

  /** Leaving the loop drops every local; the guard clears the control plane. */
  function Exited(s: LoopState, why: Exit): LoopState {
    LoopState(None, None, None, None, None, None, None, None, None, None, None, s.nextRun, None, s.reply, why,
              s.log, s.flows, s.issued, s.installs, s.activations)
  }

  function Commit(s: LoopState, turn: Turn, event: Event, answer: Answer): Flow {
    match answer
    case Accept => Go(Logged(s, turn, event))
    case Supersede => Over(Superseded(s))
    case Reject => Over(Exited(s, Rejected))
  }

  function CommitUnlessCancelled(s: LoopState, turn: Turn, event: Event, answer: Answer, race: Race): Flow {
    if s.control.Some? && race.cancelled then
      if s.turn.Some? && race.durable then Over(Superseded(s)) else Over(Exited(s, CooperativelyCancelled))
    else Commit(s, turn, event, answer)
  }

  /** Terminal effects first, then the terminal event itself. */
  function CommitTerminal(
      s: LoopState, turn: Turn, run: RunId, snapshot: Option<Snapshot>, event: Event, env: Env): Flow
  {
    if snapshot.None? then Over(Exited(s, LostSnapshot))
    else match Commit(s, turn, TerminalEffectsPrepared(run, snapshot.value.generation), env.prepare)
      case Over(t) => Over(t)
      case Go(t) => Commit(t, turn, event, env.terminal)
  }

  function EndTurn(
      s: LoopState, turn: Turn, run: RunId, snapshot: Option<Snapshot>, event: Event, status: Option<Status>,
      env: Env): LoopState
  {
    match CommitTerminal(s, turn, run, snapshot, event, env)
    case Over(t) => t
    case Go(t) => Ending(if status.Some? then t.(observation := Some((turn, status.value))) else t)
  }

  function IssueRun(s: LoopState): LoopState {
    s.(nextRun := Min(s.nextRun + 1, U64_MAX), issued := s.issued + [s.nextRun])
  }

  function Install(
      s: LoopState, turn: Turn, run: RunId, request: Request, snapshot: Snapshot, recovery: Option<Attempt>): LoopState
  {
    s.(turn := Some(turn), run := Some(run), control := Some(run), task := Some(run),
       request := Some(request), lastRequest := Some(request),
       snapshot := Some(snapshot), lastSnapshot := Some(snapshot),
       plane := Some((turn, run)), flows := s.flows + {run},
       recovery := if recovery.Some? then Some(Installed(recovery.value, s.installs)) else None,
       installs := if recovery.Some? then s.installs + 1 else s.installs,
       activations := if s.turn.None? then s.activations + 1 else s.activations)
  }

  /** A request that carries a checkpoint announces its window before it runs. */
  function Announce(s: LoopState, request: Request, env: Env): Option<LoopState> {
    if request.context.None? then Some(s)
    else if !env.handoffOk then None
    else
      var index := Max(request.windowIndex, NextWindowIndex(request.context.value));
      Some(Logged(s, request.turn, WindowContinued(index)))
  }

  // ---- The commands ----

  function StartRequest(spec: StartSpec): Request {
    Request(
      spec.turn,
      if spec.context.Some? then NextWindowIndex(spec.context.value) else 1,
      spec.model, spec.input, spec.capabilities, spec.artifacts, spec.retainedHistory, spec.context,
      if spec.context.Some? then spec.context.value.usage else ZERO,
      DEFAULT_OPTIONS)
  }

  function RestoredRequest(spec: RestoredSpec): Request {
    Request(spec.turn, Max(spec.windowIndex, 1), spec.model, spec.input, spec.capabilities, spec.artifacts, [], None,
            ZERO, DEFAULT_OPTIONS)
  }

  function HandleStart(s: LoopState, spec: StartSpec, env: Env): LoopState {
    if env.outcomeRecorded then s.(reply := Recorded)
    else if s.turn.Some? then s.(reply := Refused(TurnAlreadyRunning))
    else
      var request := StartRequest(spec);
      if !env.providerOk then s.(reply := Refused(Internal))
      else match Announce(s, request, env)
        case None => s.(reply := Refused(Internal))
        case Some(t) =>
          Install(IssueRun(t), spec.turn, t.nextRun, request, env.snapshot, None)
          .(observation := None, reply := Started(t.nextRun))
  }

  function HandleCompleted(s: LoopState, turn: Turn, run: RunId, contextSession: bool, env: Env): LoopState {
    match CommitTerminal(s, turn, run, s.snapshot, TurnCompleted, env)
    case Over(t) => t
    case Go(t) =>
      match (if s.recovery.Some? then Commit(t, turn, RecoverySucceeded(s.recovery.value.serial), env.recovered) else Go(t))
      case Over(u) => u
      case Go(u) =>
        var ended := Ending(u.(observation := Some((turn, Completed))));
        if contextSession then ended.(fence := Some(turn)) else ended
  }

  function HandleContinuation(
      s: LoopState, turn: Turn, run: RunId, payload: Payload, history: seq<string>, env: Env): LoopState
  {
    if s.request.None? then
      match CommitUnlessCancelled(s, turn, WindowBlocked(true), env.window, env.windowRace)
      case Over(t) => t
      case Go(t) => EndTurn(t, turn, run, s.snapshot, TurnBlocked, Some(Blocked), env)
    else if s.snapshot.None? then Exited(s, LostSnapshot)
    else match Continued(s.request.value, payload, history, s.snapshot.value.budget)
      case Err(_) =>
        (match CommitUnlessCancelled(s, turn, WindowBlocked(false), env.window, env.windowRace)
         case Over(t) => t
         case Go(t) => EndTurn(t, turn, run, s.snapshot, TurnBlocked, Some(Blocked), env))
      case Ok(next) =>
        if !env.providerOk then EndTurn(s, turn, run, s.snapshot, TurnFailed, Some(Failed), env)
        else OpenNextWindow(IssueRun(s), turn, s.nextRun, next, s.snapshot.value, env)
  }

  /** The fresh run takes over only after the continuation, and any recovery it closes, are committed. */
  function OpenNextWindow(
      s: LoopState, turn: Turn, newRun: RunId, next: Request, snapshot: Snapshot, env: Env): LoopState
  {
    match CommitUnlessCancelled(s, turn, WindowContinued(next.windowIndex), env.window, env.windowRace)
    case Over(t) => t
    case Go(t) =>
      match (if s.recovery.Some?
             then CommitUnlessCancelled(t, turn, RecoverySucceeded(s.recovery.value.serial), env.recovered, env.recoveredRace)
             else Go(t))
      case Over(u) => u
      case Go(u) => Install(u, turn, newRun, next, snapshot, None)
  }

  function HandleFinished(
      s: LoopState, turn: Turn, run: RunId, result: TaskResult, contextSession: bool, env: Env): LoopState
  {
    if s.turn != Some(turn) || s.run != Some(run) then s
    else
      var t := s.(task := None);
      match result
      case Finished => HandleCompleted(t, turn, run, contextSession, env)
      case NeedsContinuation(payload, history) => HandleContinuation(t, turn, run, payload, history, env)
      case TerminalFailure => EndTurn(t, turn, run, t.snapshot, TurnFailed, Some(Failed), env)
      case BlockedFailure => EndTurn(t, turn, run, t.snapshot, TurnBlocked, Some(Blocked), env)
      case ProviderFailure =>
        EndTurn(t.(lastRequest := t.request), turn, run, t.snapshot, ProviderFailureDetected, None, env)
  }

  function HandleRecoverySucceeded(s: LoopState, turn: Turn, run: RunId, attempt: Attempt, env: Env): LoopState {
    if s.turn != Some(turn) || s.run != Some(run) then s
    else if s.recovery.None? || s.recovery.value.attempt != attempt then s
    else
      match CommitUnlessCancelled(s, turn, RecoverySucceeded(s.recovery.value.serial), env.recovered, env.recoveredRace)
      case Over(t) => t
      case Go(t) => t.(recovery := None)
  }

  function HandleCancelAttempt(s: LoopState, turn: Turn, env: Env): LoopState {
    if env.outcomeRecorded then s.(reply := Recorded)
    else if s.turn.None? then s.(reply := Refused(NoActiveTurn))
    else if s.turn != Some(turn) then s.(reply := Refused(TurnMismatch))
    else if s.control.None? then s.(reply := Refused(NoActiveTurn))
    else s.(reply := if env.attemptRunning then Accepted else Refused(AttemptNotRunning))
  }

  function HandleCancel(s: LoopState, turn: Turn, hasOwner: bool, fenced: bool, env: Env): LoopState {
    if env.outcomeRecorded then s.(reply := Recorded)
    else if fenced then s.(reply := if env.fenceStopFails then Refused(Internal) else Accepted)
    else if s.turn.None? then s.(reply := Refused(NoActiveTurn))
    else if s.turn != Some(turn) then s.(reply := Refused(TurnMismatch))
    else
      var durable := s.control.Some? && env.durableStop;
      match PublishInterruption(Joined(s.(reply := Accepted)), turn, durable, hasOwner, env)
      case Over(t) => t
      case Go(t) =>
        Ending(t.(observation := Some((turn, Interrupted)))).(lastRequest := None, lastSnapshot := None)
  }

  /** Without a durable receipt the actor registers the context itself; an owner always gets its event. */
  function PublishInterruption(s: LoopState, turn: Turn, durable: bool, hasOwner: bool, env: Env): Flow {
    if durable then
      if hasOwner then Commit(s, turn, TurnInterrupted, env.terminal) else Go(s)
    else if s.snapshot.None? then Over(Exited(s, LostSnapshot))
    else match Commit(s, turn, CancellationContextPrepared, env.prepare)
      case Over(t) => Over(t)
      case Go(t) => Commit(t, turn, TurnInterrupted, env.terminal)
  }

  function HandleObserve(s: LoopState, turn: Turn): LoopState {
    s.(reply := Observed(
         if s.turn == Some(turn) then Some(InProgress)
         else if s.observation.Some? && s.observation.value.0 == turn then Some(Ended(s.observation.value.1))
         else None))
  }

  function HandleRecovery(s: LoopState, q: RecoveryRequest, attempt: Attempt, isToolItem: bool, env: Env): LoopState {
    if env.outcomeRecorded then s.(reply := Recorded)
    else if s.turn.None? && !isToolItem && s.lastRequest.Some? && s.lastSnapshot.Some?
            && s.lastRequest.value.turn == q.turn then
      RestartIdle(s, Adjusted(s.lastRequest.value, q), s.lastSnapshot.value, q.turn, attempt, env)
    else if s.turn.None? then s.(reply := Refused(NoActiveTurn))
    else if s.turn != Some(q.turn) then s.(reply := Refused(TurnMismatch))
    else if isToolItem then
      if s.control.None? then s.(reply := Refused(NoActiveTurn))
      else if !env.attemptRunning then s.(reply := Refused(AttemptNotRunning))
      else s.(recovery := Some(Installed(attempt, s.installs)), installs := s.installs + 1, reply := Accepted)
    else if s.request.None? then s.(reply := Refused(NoActiveTurn))
    else if s.snapshot.None? then s.(reply := Refused(Internal))
    else RestartActive(s, Adjusted(s.request.value, q), s.snapshot.value, q.turn, attempt, env)
  }

  function RestartIdle(
      s: LoopState, request: Request, snapshot: Snapshot, turn: Turn, attempt: Attempt, env: Env): LoopState
  {
    var blocked := AdmissionError(request, snapshot.budget);
    if blocked.Some? then s.(reply := Refused(WindowsExhausted(blocked.value)))
    else if !env.providerOk then s.(reply := Refused(Internal))
    else match Announce(s, request, env)
      case None => s.(reply := Refused(Internal))
      case Some(t) =>
        Install(IssueRun(t), turn, t.nextRun, request, snapshot, Some(attempt))
        .(observation := None, reply := Accepted)
  }

  /** The old owner is joined before the hand-off; a failed hand-off fails the turn. */
  function RestartActive(
      s: LoopState, request: Request, snapshot: Snapshot, turn: Turn, attempt: Attempt, env: Env): LoopState
  {
    var blocked := AdmissionError(request, snapshot.budget);
    if blocked.Some? then s.(reply := Refused(WindowsExhausted(blocked.value)))
    else if !env.providerOk then s.(reply := Refused(Internal))
    else
      var joined := Joined(s.(reply := Accepted));
      match Announce(joined, request, env)
      case None =>
        EndTurn(joined, turn, if s.run.Some? then s.run.value else 0, Some(snapshot), TurnFailed, Some(Failed), env)
      case Some(t) =>
        Install(IssueRun(t), turn, t.nextRun, request, snapshot, Some(attempt)).(observation := None)
  }

  function HandleRestored(
      s: LoopState, spec: RestoredSpec, q: RecoveryRequest, attempt: Attempt, env: Env): LoopState
  {
    if env.outcomeRecorded then s.(reply := Recorded)
    else if s.turn.Some? then s.(reply := Refused(TurnAlreadyRunning))
    else if spec.turn != q.turn then s.(reply := Refused(TurnMismatch))
    else
      var request := Adjusted(RestoredRequest(spec), q);
      var blocked := AdmissionError(request, env.snapshot.budget);
      if blocked.Some? then s.(reply := Refused(WindowsExhausted(blocked.value)))
      else if !env.providerOk then s.(reply := Refused(Internal))
      else match Announce(s, request, env)
        case None => s.(reply := Refused(Internal))
        case Some(t) =>
          Install(IssueRun(t), spec.turn, t.nextRun, request, env.snapshot, Some(attempt)).(reply := Accepted)
  }

  /** A Stop bound to a run that is no longer current. */
  predicate BoundToAnotherRun(s: LoopState, cmd: Command) {
    cmd.CancelTurn? && cmd.expectedRun.Some? && s.run != cmd.expectedRun
  }

  /** A Stop that the completed turn's context fence answers. */
  predicate StopsFence(s: LoopState, cmd: Command) { cmd.CancelTurn? && s.fence == Some(cmd.turn) }

  predicate TakesFence(s: LoopState, cmd: Command) {
    cmd.StartTurn? || cmd.StartRecovery? || cmd.StartRestored? || cmd.Shutdown? || StopsFence(s, cmd)
  }

  function Dispatch(s: LoopState, cmd: Command, fenced: bool, env: Env): LoopState {
    match cmd
    case StartTurn(spec) => HandleStart(s, spec, env)
    case TurnTaskFinished(turn, run, result, session) => HandleFinished(s, turn, run, result, session, env)
    case RecoveryAttemptSucceeded(turn, run, attempt) => HandleRecoverySucceeded(s, turn, run, attempt, env)
    case CancelAttempt(turn) => HandleCancelAttempt(s, turn, env)
    case CancelTurn(turn, _, hasOwner) => HandleCancel(s, turn, hasOwner, fenced, env)
    case ObserveTurn(turn) => HandleObserve(s, turn)
    case StartRecovery(q, attempt, isToolItem) => HandleRecovery(s, q, attempt, isToolItem, env)
    case StartRestored(spec, q, attempt) => HandleRestored(s, spec, q, attempt, env)
    case DurableStartRejected(turn, run) =>
      if s.turn == Some(turn) && s.run == Some(run) then Exited(s, StartRejected) else s
    case Shutdown => Exited(Joined(s), ShutDown)
  }

  function Handle(s: LoopState, cmd: Command, env: Env): LoopState {
    if s.exit != Running then s
    else if BoundToAnotherRun(s, cmd) then s.(reply := Refused(TurnMismatch))
    else
      var received := s.(reply := Silent, fence := if TakesFence(s, cmd) then None else s.fence);
      Dispatch(received, cmd, StopsFence(s, cmd), env)
  }

  datatype Delivery = Received(command: Command, env: Env)

  function HandleAll(s: LoopState, inputs: seq<Delivery>): LoopState {
    if inputs == [] then s
    else Handle(HandleAll(s, inputs[..|inputs| - 1]), inputs[|inputs| - 1].command, inputs[|inputs| - 1].env)
  }

  /** A loop that has left handles nothing more. */
  lemma {:induction false} NothingAfterExit(s: LoopState, handled: seq<Delivery>, rest: seq<Delivery>)
    requires HandleAll(s, handled).exit != Running
    ensures HandleAll(s, handled + rest) == HandleAll(s, handled)
  {
    if rest == [] {
      assert handled + rest == handled;
    } else {
      var init := rest[..|rest| - 1];
      NothingAfterExit(s, handled, init);
      assert (handled + rest)[..|handled + rest| - 1] == handled + init;
    }
  }
}
