/** Whole runs of the agent loop, alone and together with the turn flows that post to it. */
module AgentLoopRuns {
  import opened Common
  import opened ExecutionWindows
  import opened AgentLoop
  import opened AgentLoopLaws
  import opened AgentLoopOutcomes

  // ---- At command boundaries ----

  /** All of the active turn's parts are present and agree, or none is; no branch finds one missing. */
  lemma ActiveTurnIsAllOrNothing(mailbox: seq<Delivery>)
    ensures var s := HandleAll(START, mailbox);
            && (s.turn.Some? <==> s.run.Some?) && (s.turn.Some? <==> s.control.Some?)
            && (s.turn.Some? <==> s.request.Some?) && (s.turn.Some? <==> s.snapshot.Some?)
            && (s.turn.Some? <==> s.task.Some?) && (s.turn.Some? <==> s.plane.Some?)
            && (s.turn.Some? ==> s.plane == Some((s.turn.value, s.run.value)) && s.task == s.control == s.run)
            && s.exit != LostSnapshot
            && forall i :: 0 <= i < |s.log| ==> s.log[i].event != WindowBlocked(true)
  {
    EveryRunKeepsInv(mailbox);
  }

  /** Each activation commits at most one terminal event, right after its own preparation. */
  lemma TerminalEventsAreUniqueAndPrepared(mailbox: seq<Delivery>, i: nat)
    requires i < |HandleAll(START, mailbox).log| && IsTerminal(HandleAll(START, mailbox).log[i].event)
    ensures var log := HandleAll(START, mailbox).log;
            && (NeedsPreparation(log[i].event) ==> i > 0 && Prepares(log[i - 1], log[i]))
            && (forall j :: 0 <= j < |log| && j != i && IsTerminal(log[j].event) ==>
                  log[j].activation != log[i].activation)
  {
    EveryRunKeepsInv(mailbox);
  }

  /** Each installed recovery attempt is reported as succeeded at most once. */
  lemma RecoverySucceedsAtMostOnce(mailbox: seq<Delivery>, i: nat, j: nat)
    requires i < |HandleAll(START, mailbox).log| && j < |HandleAll(START, mailbox).log|
    requires HandleAll(START, mailbox).log[i].event.RecoverySucceeded?
    requires HandleAll(START, mailbox).log[i].event == HandleAll(START, mailbox).log[j].event
    ensures i == j
  {
    EveryRunKeepsInv(mailbox);
  }

  /** Run ids are unique exactly until the counter saturates. */
  lemma RunIdsUniqueExactly(mailbox: seq<Delivery>)
    ensures NoDup(HandleAll(START, mailbox).issued) <==> |HandleAll(START, mailbox).issued| <= U64_MAX
  {
    EveryRunKeepsInv(mailbox);
    var issued := HandleAll(START, mailbox).issued;
    if |issued| > U64_MAX {
      assert issued[U64_MAX - 1] == issued[U64_MAX];
    }
  }

  // ---- Run ids only grow ----

  lemma HandleIssuesAtMostOne(s: LoopState, cmd: Command, env: Env)
    requires Inv(s)
    ensures var t := Handle(s, cmd, env);
            && (t.issued == s.issued || t.issued == s.issued + [s.nextRun])
            && (t.run == s.run || t.run.None? || (t.run == Some(s.nextRun) && t.issued == s.issued + [s.nextRun]))
  {
    hide Handle, LogInv, Numbered, Whole, LaunchedRequest;
    HandleOutcome(s, cmd, env);
  }

  /** Once another run has replaced it, a run is never current again. */
  lemma {:induction false} ReplacedRunNeverReturns(s: LoopState, run: RunId, mailbox: seq<Delivery>)
    requires Inv(s) && run in s.issued && s.run != Some(run)
    requires |HandleAll(s, mailbox).issued| <= U64_MAX
    ensures Inv(HandleAll(s, mailbox)) && run in HandleAll(s, mailbox).issued
    ensures HandleAll(s, mailbox).run != Some(run)
  {
    hide Inv, Handle;
    if mailbox != [] {
      var last := |mailbox| - 1;
      var t := HandleAll(s, mailbox[..last]);
      IssuedGrows(s, mailbox[..last]);
      HandleKeepsInv(t, mailbox[last].command, mailbox[last].env);
      HandleIssuesAtMostOne(t, mailbox[last].command, mailbox[last].env);
      ReplacedRunNeverReturns(s, run, mailbox[..last]);
      if HandleAll(s, mailbox).issued == t.issued + [t.nextRun] {
        NextRunIsNew(t);
      }
    }
  }

  lemma {:induction false} IssuedGrows(s: LoopState, mailbox: seq<Delivery>)
    requires Inv(s)
    ensures Inv(HandleAll(s, mailbox)) && s.issued <= HandleAll(s, mailbox).issued
  {
    hide Inv, Handle;
    if mailbox != [] {
      var last := |mailbox| - 1;
      IssuedGrows(s, mailbox[..last]);
      var t := HandleAll(s, mailbox[..last]);
      HandleKeepsInv(t, mailbox[last].command, mailbox[last].env);
      HandleIssuesAtMostOne(t, mailbox[last].command, mailbox[last].env);
    }
  }

  lemma NextRunIsNew(s: LoopState)
    requires Inv(s) && |s.issued| < U64_MAX
    ensures s.nextRun !in s.issued
  {
    hide LogOk, Whole;
  }

  predicate CarriesRun(cmd: Command, run: RunId) {
    || (cmd.TurnTaskFinished? && cmd.run == run)
    || (cmd.RecoveryAttemptSucceeded? && cmd.run == run)
    || (cmd.DurableStartRejected? && cmd.run == run)
    || (cmd.CancelTurn? && cmd.expectedRun == Some(run))
  }

  /** However much later it arrives, a message from a replaced run changes nothing but its own answer. */
  lemma MessageFromReplacedRunIsInert(
      s: LoopState, run: RunId, mailbox: seq<Delivery>, cmd: Command, env: Env)
    requires Inv(s) && run in s.issued && s.run != Some(run) && CarriesRun(cmd, run)
    requires |HandleAll(s, mailbox).issued| <= U64_MAX
    ensures var t := HandleAll(s, mailbox); Handle(t, cmd, env) == t.(reply := Handle(t, cmd, env).reply)
  {
    hide Inv, HandleCancel;
    ReplacedRunNeverReturns(s, run, mailbox);
  }

  // ---- The flows that post to the loop ----

  /** Running flows: only the current task's, and at most one after the loop has left. */
  predicate OneFlow(s: LoopState) {
    |s.flows| <= 1 && (s.exit == Running ==> s.flows <= Tasks(s))
  }

  lemma SmallSets(a: set<RunId>, b: set<RunId>)
    requires a <= b
    ensures |a| <= |b|
  {
    if a != {} {
      var x :| x in a;
      SmallSets(a - {x}, b - {x});
    }
  }

  lemma HandleKeepsOneFlow(s: LoopState, cmd: Command, env: Env)
    requires Inv(s) && OneFlow(s)
    requires cmd.TurnTaskFinished? && s.run == Some(cmd.run) ==> cmd.run !in s.flows
    ensures OneFlow(Handle(s, cmd, env))
  {
    hide Handle, LogInv, Numbered, Adjusted, AdmissionError, Continued, StartRequest, Remembers, Interrupts;
    HandleOutcome(s, cmd, env);
    var t := Handle(s, cmd, env);
    if s.exit == Running && Launched(s, cmd, env, t) {
      if cmd.TurnTaskFinished? {
        assert s.flows == {};
      }
      assert t.flows <= {s.nextRun};
      SmallSets(t.flows, {s.nextRun});
    } else {
      SmallSets(t.flows, s.flows);
    }
  }

  datatype System = System(loop: LoopState, mailbox: seq<Command>)

  /** External callers post commands; a running flow reports, finishes with one last message, or just stops. */
  datatype Step =
    | Post(cmd: Command)
    | FlowReports(turn: Turn, run: RunId, attempt: Attempt)
    | FlowFinishes(turn: Turn, run: RunId, result: TaskResult, contextSession: bool)
    | FlowRejected(turn: Turn, run: RunId)
    | FlowStops(run: RunId)
    | Receive(env: Env)

  predicate External(cmd: Command) {
    !cmd.TurnTaskFinished? && !cmd.RecoveryAttemptSucceeded? && !cmd.DurableStartRejected?
  }

  predicate Enabled(y: System, step: Step) {
    match step
    case Post(cmd) => External(cmd)
    case FlowReports(_, run, _) => run in y.loop.flows
    case FlowFinishes(_, run, _, _) => run in y.loop.flows
    case FlowRejected(_, run) => run in y.loop.flows
    case FlowStops(run) => run in y.loop.flows
    case Receive(_) => y.mailbox != []
  }

  function StoppedFlow(loop: LoopState, run: RunId): LoopState { loop.(flows := loop.flows - {run}) }

  function Next(y: System, step: Step): System
    requires Enabled(y, step)
  {
    match step
    case Post(cmd) => y.(mailbox := y.mailbox + [cmd])
    case FlowReports(turn, run, attempt) => y.(mailbox := y.mailbox + [RecoveryAttemptSucceeded(turn, run, attempt)])
    case FlowFinishes(turn, run, result, session) =>
      System(StoppedFlow(y.loop, run), y.mailbox + [TurnTaskFinished(turn, run, result, session)])
    case FlowRejected(turn, run) => System(StoppedFlow(y.loop, run), y.mailbox + [DurableStartRejected(turn, run)])
    case FlowStops(run) => y.(loop := StoppedFlow(y.loop, run))
    case Receive(env) => System(Handle(y.loop, y.mailbox[0], env), y.mailbox[1..])
  }

  /** A flow whose last message is still in the mailbox is no longer running. */
  ghost predicate MailInv(y: System) {
    && (forall i :: 0 <= i < |y.mailbox| && y.mailbox[i].TurnTaskFinished? ==>
          y.mailbox[i].run in y.loop.issued && y.mailbox[i].run !in y.loop.flows)
    && (forall r :: r in y.loop.flows ==> r in y.loop.issued)
  }

  ghost predicate SystemInv(y: System) { Inv(y.loop) && OneFlow(y.loop) && MailInv(y) }

  lemma FlowEnds(s: LoopState, run: RunId)
    requires Inv(s) && OneFlow(s)
    ensures Inv(StoppedFlow(s, run)) && OneFlow(StoppedFlow(s, run))
  {
    SmallSets(s.flows - {run}, s.flows);
  }

  lemma StepKeepsSystemInv(y: System, step: Step)
    requires SystemInv(y) && Enabled(y, step)
    requires |Next(y, step).loop.issued| <= U64_MAX
    ensures SystemInv(Next(y, step))
  {
    hide Handle, Inv, OneFlow;
    match step
    case Post(_) =>
    case FlowReports(_, _, _) =>
    case FlowFinishes(_, run, _, _) => FlowEnds(y.loop, run);
    case FlowRejected(_, run) => FlowEnds(y.loop, run);
    case FlowStops(run) => FlowEnds(y.loop, run);
    case Receive(env) => ReceiveKeepsSystemInv(y, env);
  }

  lemma ReceiveKeepsSystemInv(y: System, env: Env)
    requires SystemInv(y) && y.mailbox != []
    requires |Handle(y.loop, y.mailbox[0], env).issued| <= U64_MAX
    ensures SystemInv(System(Handle(y.loop, y.mailbox[0], env), y.mailbox[1..]))
  {
    hide Handle, Inv, OneFlow;
    var s := y.loop;
    var t := Handle(s, y.mailbox[0], env);
    HandleKeepsInv(s, y.mailbox[0], env);
    HandleIssuesAtMostOne(s, y.mailbox[0], env);
    HandleKeepsOneFlow(s, y.mailbox[0], env);
    if t.issued != s.issued || s.nextRun in s.issued {
      if |s.issued| < U64_MAX {
        NextRunIsNew(s);
      }
    }
    FlowsAreIssued(s, y.mailbox[0], env);
    var rest := y.mailbox[1..];
    forall i | 0 <= i < |rest| && rest[i].TurnTaskFinished?
      ensures rest[i].run in t.issued && rest[i].run !in t.flows
    {
      assert rest[i] == y.mailbox[i + 1];
    }
  }

  /** The only flow a command can add is that of a run it has just numbered. */
  lemma FlowsAreIssued(s: LoopState, cmd: Command, env: Env)
    requires Inv(s)
    ensures var t := Handle(s, cmd, env);
            t.flows <= s.flows || (t.flows <= s.flows + {s.nextRun} && t.issued == s.issued + [s.nextRun])
  {
    hide Handle, LogInv, Numbered, Whole, LaunchedRequest;
    HandleOutcome(s, cmd, env);
  }

  const BOOT := System(START, [])

  ghost predicate Runs(y: System, steps: seq<Step>)
    decreases |steps|
  {
    steps == [] || (Enabled(y, steps[0]) && Runs(Next(y, steps[0]), steps[1..]))
  }

  ghost function After(y: System, steps: seq<Step>): System
    requires Runs(y, steps)
    decreases |steps|
  {
    if steps == [] then y else After(Next(y, steps[0]), steps[1..])
  }

  lemma StepIssues(y: System, step: Step)
    requires Inv(y.loop) && Enabled(y, step)
    ensures Inv(Next(y, step).loop) && |y.loop.issued| <= |Next(y, step).loop.issued|
  {
    hide Handle, Whole, LogInv;
    if step.Receive? {
      HandleKeepsInv(y.loop, y.mailbox[0], step.env);
      HandleIssuesAtMostOne(y.loop, y.mailbox[0], step.env);
    } else {
      FlowChangesKeepInv(y.loop, Next(y, step).loop);
    }
  }

  lemma FlowChangesKeepInv(s: LoopState, t: LoopState)
    requires Inv(s) && t == s.(flows := t.flows)
    ensures Inv(t)
  {
  }

  lemma {:induction false} RunIssues(y: System, steps: seq<Step>)
    requires Inv(y.loop) && Runs(y, steps)
    ensures |y.loop.issued| <= |After(y, steps).loop.issued|
    decreases |steps|
  {
    hide Next, Inv;
    if steps != [] {
      StepIssues(y, steps[0]);
      RunIssues(Next(y, steps[0]), steps[1..]);
    }
  }

  lemma {:induction false} RunKeepsSystemInv(y: System, steps: seq<Step>)
    requires SystemInv(y) && Runs(y, steps) && |After(y, steps).loop.issued| <= U64_MAX
    ensures SystemInv(After(y, steps))
    decreases |steps|
  {
    hide Next, Inv, OneFlow, MailInv;
    if steps != [] {
      StepIssues(y, steps[0]);
      RunIssues(Next(y, steps[0]), steps[1..]);
      StepKeepsSystemInv(y, steps[0]);
      RunKeepsSystemInv(Next(y, steps[0]), steps[1..]);
    }
  }

  /** In every interleaving of callers, flows and the loop, at most one turn flow is running. */
  lemma AtMostOneFlow(steps: seq<Step>)
    requires Runs(BOOT, steps) && |After(BOOT, steps).loop.issued| <= U64_MAX
    ensures |After(BOOT, steps).loop.flows| <= 1
    ensures After(BOOT, steps).loop.exit == Running ==>
              After(BOOT, steps).loop.flows <= Tasks(After(BOOT, steps).loop)
  {
    hide Next, Inv, MailInv;
    assert SystemInv(BOOT) by { BootInv(); }
    RunKeepsSystemInv(BOOT, steps);
  }

  lemma BootInv()
    ensures SystemInv(BOOT)
  {
    StartInv();
  }
}
