/** Every run of the loop hands each turn's request over as the budget's model describes, and so meters it. */
module AgentLoopTotals {
  import opened Common
  import opened ExecutionWindows
  import opened AgentLoop
  import opened AgentLoopLaws
  import opened AgentLoopOutcomes
  import opened AgentLoopWindows
  import T = TurnTotals

  /** The request the last start launched, and the handovers launched since. */
  datatype Trace = Trace(begun: Option<Request>, budget: Option<Budget>, handovers: seq<Handover>)

  ghost function TraceOf(mailbox: seq<Delivery>): Trace {
    if mailbox == [] then Trace(None, None, [])
    else
      var last := |mailbox| - 1;
      var d := mailbox[last];
      var before := HandleAll(START, mailbox[..last]);
      TraceAfter(TraceOf(mailbox[..last]), before, d.command, d.env, Handle(before, d.command, d.env))
  }

  ghost function TraceAfter(trace: Trace, s: LoopState, cmd: Command, env: Env, t: LoopState): Trace {
    if !Launched(s, cmd, env, t) then trace
    else match HandoverOf(cmd)
      case None => Trace(t.lastRequest, Some(t.lastSnapshot.value.budget), [])
      case Some(h) => trace.(handovers := trace.handovers + [h])
  }

  /** What the loop remembers is what the handovers make of the request it began with. */
  ghost predicate Traced(s: LoopState, trace: Trace) {
    s.lastRequest.Some? && s.lastSnapshot.Some? ==>
      && trace.begun.Some? && trace.budget == Some(s.lastSnapshot.value.budget)
      && WithinWindows(trace.begun.value, trace.budget.value)
      && Run(trace.begun.value, trace.handovers, trace.budget.value) == s.lastRequest
  }

  lemma HandoverNamesTheKind(s: LoopState, cmd: Command, env: Env)
    requires LaunchedRequest(s, cmd, env).Some?
    ensures HandoverOf(cmd).None? <==> BeginsTurn(cmd)
  {
  }

  lemma LaunchIsTraced(s: LoopState, cmd: Command, env: Env, t: LoopState, trace: Trace)
    requires Launched(s, cmd, env, t) && WellFormedCommand(s, cmd, env) && WindowsInv(s) && Traced(s, trace)
    ensures Traced(t, TraceAfter(trace, s, cmd, env, t))
  {
    hide LaunchedRequest, WellFormedCommand, WithinWindows, Handed, WellFormed, HandoverOf, Run;
    HandoverNamesTheKind(s, cmd, env);
    if BeginsTurn(cmd) {
      StartIsWithinWindows(s, cmd, env, t);
      T.EmptyRun(t.lastRequest.value, t.lastSnapshot.value.budget);
    } else {
      LaunchIsHandover(s, cmd, env, t);
      T.RunExtends(trace.begun.value, trace.handovers, HandoverOf(cmd).value, trace.budget.value);
    }
  }

  lemma NoLaunchIsTraced(s: LoopState, cmd: Command, env: Env, trace: Trace)
    requires Inv(s) && Traced(s, trace) && !Launched(s, cmd, env, Handle(s, cmd, env))
    ensures Traced(Handle(s, cmd, env), trace)
  {
    hide Handle, LogInv, Numbered, Launched, Whole, Run, WithinWindows;
    HandleOutcome(s, cmd, env);
  }

  lemma StartIsTraced()
    ensures Traced(START, TraceOf([]))
  {
  }

  lemma {:induction false} EveryRunIsTraced(mailbox: seq<Delivery>)
    requires WellFormedRun(mailbox)
    ensures Traced(HandleAll(START, mailbox), TraceOf(mailbox))
  {
    hide Handle, WindowsInv, Inv, WellFormedCommand, Launched, Traced, TraceAfter;
    if mailbox == [] {
      StartIsTraced();
    } else {
      var last := |mailbox| - 1;
      var init, d := mailbox[..last], mailbox[last];
      PrefixIsWellFormed(mailbox);
      EveryRunIsTraced(init);
      EveryRunStaysWithinWindows(init);
      EveryRunKeepsInv(init);
      var s := HandleAll(START, init);
      if Launched(s, d.command, d.env, Handle(s, d.command, d.env)) {
        LaunchIsTraced(s, d.command, d.env, Handle(s, d.command, d.env), TraceOf(init));
      } else {
        NoLaunchIsTraced(s, d.command, d.env, TraceOf(init));
        UntracedStays(TraceOf(init), s, d.command, d.env, Handle(s, d.command, d.env));
      }
    }
  }

  lemma UntracedStays(trace: Trace, s: LoopState, cmd: Command, env: Env, t: LoopState)
    requires !Launched(s, cmd, env, t)
    ensures TraceAfter(trace, s, cmd, env, t) == trace
  {
  }

  /** Over any run of the loop the remembered request carries what its turn began with, counts every
      window reported since the last restored checkpoint, and stays below the limits it began below. */
  lemma EveryTurnIsMetered(mailbox: seq<Delivery>)
    requires WellFormedRun(mailbox)
    ensures var s, trace := HandleAll(START, mailbox), TraceOf(mailbox);
            s.lastRequest.Some? && s.lastSnapshot.Some? ==>
              && trace.begun.Some? && trace.budget == Some(s.lastSnapshot.value.budget)
              && T.Carries(trace.begun.value, trace.handovers, s.lastRequest.value)
              && T.Accounts(s.lastRequest.value.usage, T.Base(trace.begun.value.usage, trace.handovers), T.Since(trace.handovers))
              && (T.WithinBudget(trace.begun.value.usage, [], trace.budget.value) ==>
                    T.WithinBudget(T.Base(trace.begun.value.usage, trace.handovers), T.Since(trace.handovers), trace.budget.value))
  {
    hide HandleAll, TraceOf, Run, WithinWindows, T.Carries, T.Accounts, T.WithinBudget;
    EveryRunIsTraced(mailbox);
    var s, trace := HandleAll(START, mailbox), TraceOf(mailbox);
    if s.lastRequest.Some? && s.lastSnapshot.Some? {
      T.RunCarriesTheRequest(trace.begun.value, trace.handovers, trace.budget.value);
      T.TurnIsMetered(trace.begun.value, trace.handovers, trace.budget.value);
    }
  }

  /** A launched start begins with what its caller gave, and without a checkpoint with nothing used. */
  lemma StartBeginsWithItsInput(mailbox: seq<Delivery>, spec: StartSpec, env: Env)
    requires WellFormedRun(mailbox + [Received(StartTurn(spec), env)])
    requires Launched(HandleAll(START, mailbox), StartTurn(spec), env, HandleAll(START, mailbox + [Received(StartTurn(spec), env)]))
    ensures var trace := TraceOf(mailbox + [Received(StartTurn(spec), env)]);
            && trace.begun.Some? && trace.handovers == [] && trace.budget == Some(env.snapshot.budget)
            && var r := trace.begun.value;
               && r.turn == spec.turn && r.model == spec.model && r.input == spec.input
               && r.capabilities == spec.capabilities && r.artifacts == spec.artifacts
               && r.retainedHistory == spec.retainedHistory
               && r.context == None && BegunWithoutCheckpoint(r)
               && T.WithinBudget(r.usage, [], env.snapshot.budget)
  {
    hide Handle;
    var all := mailbox + [Received(StartTurn(spec), env)];
    assert all[..|all| - 1] == mailbox;
    PrefixIsWellFormed(all);
  }

  /** A launched restored turn begins with what was stored of it, adjusted as its recovery asks. */
  lemma RestoredBeginsWithItsRecord(
      mailbox: seq<Delivery>, spec: RestoredSpec, q: RecoveryRequest, attempt: Attempt, env: Env)
    requires Launched(HandleAll(START, mailbox), StartRestored(spec, q, attempt), env,
                      HandleAll(START, mailbox + [Received(StartRestored(spec, q, attempt), env)]))
    ensures var trace := TraceOf(mailbox + [Received(StartRestored(spec, q, attempt), env)]);
            && trace.begun.Some? && trace.handovers == [] && trace.budget == Some(env.snapshot.budget)
            && var r := trace.begun.value;
               && r.turn == spec.turn == q.turn && spec.windowIndex <= r.windowIndex
               && r.model == (if q.modelOverride.None? || IsBlank(q.modelOverride.value) then spec.model else q.modelOverride.value)
               && T.Drops(spec.input, r.input, q.disableImageInput, T.IsImage)
               && T.Drops(spec.capabilities, r.capabilities, q.disableToolCalling, T.IsMcp)
               && r.retainedHistory == q.retainedHistory && r.context == q.context
               && r.usage == if q.context.Some? then q.context.value.usage else ZERO
  {
    hide Handle, Filter, IsBlank, Decide;
    var all := mailbox + [Received(StartRestored(spec, q, attempt), env)];
    assert all[..|all| - 1] == mailbox;
    T.FilterDrops(spec.input, q.disableImageInput, NotImage, T.IsImage);
    T.FilterDrops(spec.capabilities, q.disableToolCalling, NotMcp, T.IsMcp);
  }

  // ---- One continuation ----

  lemma OpenNextWindowHands(s: LoopState, turn: Turn, newRun: RunId, next: Request, snapshot: Snapshot, env: Env)
    ensures var t := OpenNextWindow(s, turn, newRun, next, snapshot, env); t.turn.Some? ==> t.request == Some(next)
  {
    hide CommitUnlessCancelled;
    var continued := WindowContinued(next.windowIndex);
    CommitUnlessCancelledCuts(s, turn, continued, env.window, env.windowRace);
    if s.recovery.Some? {
      CommitUnlessCancelledCuts(
        Logged(s, turn, continued), turn, RecoverySucceeded(s.recovery.value.serial), env.recovered, env.recoveredRace);
    }
  }

  lemma EndTurnEnds(
      s: LoopState, turn: Turn, run: RunId, snapshot: Option<Snapshot>, event: Event, status: Option<Status>, env: Env)
    ensures EndTurn(s, turn, run, snapshot, event, status, env).turn.None?
  {
  }

  /** A turn still active after a continuation carries on with the request handed over, all usage counted. */
  lemma ContinuationHandsOver(s: LoopState, turn: Turn, run: RunId, payload: Payload, history: seq<string>, env: Env)
    requires s.request.Some? && s.snapshot.Some?
    ensures var t := HandleContinuation(s, turn, run, payload, history, env);
            t.turn.Some? ==>
              && t.request.Some?
              && T.HandsOver(s.request.value, Continuation(payload, history), t.request.value)
              && t.request.value.usage == Observe(s.request.value.usage, payload)
  {
    hide CommitUnlessCancelled, EndTurn, OpenNextWindow, T.HandsOver, Observe, Decide;
    CommitUnlessCancelledCuts(s, turn, WindowBlocked(false), env.window, env.windowRace);
    EndTurnEnds(Logged(s, turn, WindowBlocked(false)), turn, run, s.snapshot, TurnBlocked, Some(Blocked), env);
    EndTurnEnds(s, turn, run, s.snapshot, TurnFailed, Some(Failed), env);
    match Continued(s.request.value, payload, history, s.snapshot.value.budget)
    case Err(_) =>
    case Ok(next) =>
      T.HandoverChangesOnly(s.request.value, Continuation(payload, history), s.snapshot.value.budget);
      OpenNextWindowHands(IssueRun(s), turn, s.nextRun, next, s.snapshot.value, env);
  }
}
