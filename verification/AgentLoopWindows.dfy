/** The window bound, carried from the budget's handovers to runs of the whole loop. */
module AgentLoopWindows {
  import opened Common
  import opened ExecutionWindows
  import opened AgentLoop
  import opened AgentLoopLaws
  import opened AgentLoopOutcomes

  /** The remembered request is within the windows its snapshot allows. */
  predicate WindowsInv(s: LoopState) {
    s.lastRequest.Some? && s.lastSnapshot.Some? ==> WithinWindows(s.lastRequest.value, s.lastSnapshot.value.budget)
  }

  predicate NamesItsWindow(context: Option<CheckpointContext>) {
    context.Some? ==> context.value.windowIndex == context.value.usage.totalWindows
  }

  /** Fresh starts carry no checkpoint, contexts name the last recorded window, windows report their own index. */
  predicate WellFormedCommand(s: LoopState, cmd: Command, env: Env) {
    match cmd
    case StartTurn(spec) => spec.context.None?
    case StartRestored(spec, q, _) =>
      spec.windowIndex <= WindowLimit(env.snapshot.budget) && NamesItsWindow(q.context)
    case StartRecovery(q, _, _) => NamesItsWindow(q.context)
    case TurnTaskFinished(_, run, NeedsContinuation(payload, _), _) =>
      s.run == Some(run) && s.lastRequest.Some? ==> payload.windowIndex == s.lastRequest.value.windowIndex
    case _ => true
  }

  predicate BeginsTurn(cmd: Command) { cmd.StartTurn? || cmd.StartRestored? }

  /** A launch that is not a start hands the remembered request over as the budget's model describes. */
  function HandoverOf(cmd: Command): Option<Handover> {
    match cmd
    case StartRecovery(q, _, _) => Some(Recovery(q))
    case TurnTaskFinished(_, _, NeedsContinuation(payload, history), _) => Some(Continuation(payload, history))
    case _ => None
  }

  lemma LaunchIsHandover(s: LoopState, cmd: Command, env: Env, t: LoopState)
    requires Launched(s, cmd, env, t) && !BeginsTurn(cmd)
    ensures HandoverOf(cmd).Some? && s.lastRequest.Some? && s.lastSnapshot.Some?
    ensures t.lastSnapshot == s.lastSnapshot
    ensures t.lastRequest == Handed(s.lastRequest.value, HandoverOf(cmd).value, s.lastSnapshot.value.budget)
    ensures WellFormedCommand(s, cmd, env) ==> WellFormed(s.lastRequest.value, HandoverOf(cmd).value)
  {
    hide Continued, Adjusted, AdmissionError;
  }

  lemma StartIsWithinWindows(s: LoopState, cmd: Command, env: Env, t: LoopState)
    requires Launched(s, cmd, env, t) && BeginsTurn(cmd) && WellFormedCommand(s, cmd, env)
    ensures WindowsInv(t)
  {
    hide Decide, Filter, IsBlank;
    if cmd.StartRestored? && cmd.request.context.Some? {
      DecisionNamesFirstReachedLimit(t.lastRequest.value.usage, Normalized(env.snapshot.budget));
      assert !Reached(t.lastRequest.value.usage, Normalized(env.snapshot.budget), MaxWindows);
    }
  }

  lemma HandleKeepsWindows(s: LoopState, cmd: Command, env: Env)
    requires Inv(s) && WindowsInv(s) && WellFormedCommand(s, cmd, env)
    ensures WindowsInv(Handle(s, cmd, env))
    ensures var t := Handle(s, cmd, env);
            s.lastRequest.Some? && t.lastRequest.Some? && !BeginsTurn(cmd) ==>
              s.lastRequest.value.windowIndex <= t.lastRequest.value.windowIndex
  {
    hide Handle, LogInv, Numbered, WithinWindows, LaunchedRequest, WellFormedCommand, Whole;
    HandleOutcome(s, cmd, env);
    var t := Handle(s, cmd, env);
    if s.exit == Running && Launched(s, cmd, env, t) {
      if BeginsTurn(cmd) {
        StartIsWithinWindows(s, cmd, env, t);
      } else {
        LaunchIsHandover(s, cmd, env, t);
        HandoverKeepsBound(s.lastRequest.value, HandoverOf(cmd).value, s.lastSnapshot.value.budget);
      }
    }
  }

  ghost predicate WellFormedRun(mailbox: seq<Delivery>) {
    forall i :: 0 <= i < |mailbox| ==>
      WellFormedCommand(HandleAll(START, mailbox[..i]), mailbox[i].command, mailbox[i].env)
  }

  /** Over any run of the loop, no request ever passes the window limit of its turn. */
  lemma {:induction false} EveryRunStaysWithinWindows(mailbox: seq<Delivery>)
    requires WellFormedRun(mailbox)
    ensures WindowsInv(HandleAll(START, mailbox))
  {
    hide Handle, WindowsInv, Inv, WellFormedCommand;
    if mailbox == [] {
      StartsWithinWindows();
    } else {
      var last := |mailbox| - 1;
      var init := mailbox[..last];
      PrefixIsWellFormed(mailbox);
      EveryRunStaysWithinWindows(init);
      EveryRunKeepsInv(init);
      HandleKeepsWindows(HandleAll(START, init), mailbox[last].command, mailbox[last].env);
    }
  }

  lemma PrefixIsWellFormed(mailbox: seq<Delivery>)
    requires WellFormedRun(mailbox) && mailbox != []
    ensures var last := |mailbox| - 1;
            && WellFormedRun(mailbox[..last])
            && WellFormedCommand(HandleAll(START, mailbox[..last]), mailbox[last].command, mailbox[last].env)
  {
    hide HandleAll, WellFormedCommand;
    var init := mailbox[..|mailbox| - 1];
    forall i | 0 <= i < |init|
      ensures WellFormedCommand(HandleAll(START, init[..i]), init[i].command, init[i].env)
    {
      assert init[..i] == mailbox[..i];
    }
  }

  lemma StartsWithinWindows()
    ensures WindowsInv(START)
  {
  }

  // ---- Windows without progress ----

  predicate IsIdleContinuation(cmd: Command) {
    cmd.TurnTaskFinished? && cmd.result.NeedsContinuation? && NoProgress(cmd.result.payload)
  }

  /** How a launch changes the count of consecutive windows opened after one without progress. */
  function StreakAfter(cmd: Command, streak: nat): nat {
    if IsIdleContinuation(cmd) then streak + 1
    else if cmd.StartRecovery? && cmd.request.context.None? then streak
    else 0
  }

  ghost function IdleStreak(mailbox: seq<Delivery>): nat {
    if mailbox == [] then 0
    else
      var last := |mailbox| - 1;
      var d := mailbox[last];
      var before := HandleAll(START, mailbox[..last]);
      if Launched(before, d.command, d.env, Handle(before, d.command, d.env))
      then StreakAfter(d.command, IdleStreak(mailbox[..last]))
      else IdleStreak(mailbox[..last])
  }

  /** The remembered request has counted the streak, and its budget would still continue. */
  predicate IdleInv(s: LoopState, streak: nat) {
    s.lastRequest.Some? && s.lastSnapshot.Some? ==>
      streak <= s.lastRequest.value.usage.noProgress < Max(s.lastSnapshot.value.budget.maxNoProgress, 1)
  }

  lemma HandoverCounts(r: Request, h: Handover, b: Budget)
    requires WithinWindows(r, b) && WellFormed(r, h) && Handed(r, h, b).Some?
    requires r.usage.noProgress < Max(b.maxNoProgress, 1)
    ensures var next := Handed(r, h, b).value.usage.noProgress;
            && next < Max(b.maxNoProgress, 1)
            && (Idle(h) ==> next == r.usage.noProgress + 1)
            && (h.Recovery? && h.request.context.None? ==> next == r.usage.noProgress)
  {
    hide Decide, Filter, IsBlank, NoProgress;
    match h
    case Continuation(p, _) =>
      DecisionNamesFirstReachedLimit(Observe(r.usage, p), Normalized(b));
      assert !Reached(Observe(r.usage, p), Normalized(b), MaxNoProgress);
    case Recovery(q) =>
      DecisionNamesFirstReachedLimit(Adjusted(r, q).usage, Normalized(b));
      assert q.context.Some? ==> !Reached(Adjusted(r, q).usage, Normalized(b), MaxNoProgress);
  }

  lemma StartCountsNothing(s: LoopState, cmd: Command, env: Env, t: LoopState)
    requires Launched(s, cmd, env, t) && BeginsTurn(cmd) && WellFormedCommand(s, cmd, env)
    ensures IdleInv(t, 0)
  {
    hide Decide, Filter, IsBlank;
    if cmd.StartRestored? && cmd.request.context.Some? {
      DecisionNamesFirstReachedLimit(t.lastRequest.value.usage, Normalized(env.snapshot.budget));
      assert !Reached(t.lastRequest.value.usage, Normalized(env.snapshot.budget), MaxNoProgress);
    }
  }

  lemma LaunchKeepsIdleInv(s: LoopState, cmd: Command, env: Env, t: LoopState, streak: nat)
    requires WindowsInv(s) && IdleInv(s, streak) && WellFormedCommand(s, cmd, env) && Launched(s, cmd, env, t)
    ensures IdleInv(t, StreakAfter(cmd, streak))
  {
    hide LaunchedRequest, WellFormedCommand, WithinWindows, Handed, WellFormed, NoProgress;
    if BeginsTurn(cmd) {
      StartCountsNothing(s, cmd, env, t);
    } else {
      LaunchIsHandover(s, cmd, env, t);
      HandoverCounts(s.lastRequest.value, HandoverOf(cmd).value, s.lastSnapshot.value.budget);
    }
  }

  /** Over any run of the loop, windows without progress never follow each other as often as the limit. */
  lemma {:induction false} IdleStreaksAreShort(mailbox: seq<Delivery>)
    requires WellFormedRun(mailbox)
    ensures IdleInv(HandleAll(START, mailbox), IdleStreak(mailbox))
  {
    hide Handle, WindowsInv, Inv, WellFormedCommand, Launched, IdleInv, StreakAfter;
    if mailbox == [] {
      StartsIdle();
    } else {
      var last := |mailbox| - 1;
      var init, d := mailbox[..last], mailbox[last];
      PrefixIsWellFormed(mailbox);
      IdleStreaksAreShort(init);
      EveryRunStaysWithinWindows(init);
      EveryRunKeepsInv(init);
      var s := HandleAll(START, init);
      if Launched(s, d.command, d.env, Handle(s, d.command, d.env)) {
        LaunchKeepsIdleInv(s, d.command, d.env, Handle(s, d.command, d.env), IdleStreak(init));
      } else {
        NoLaunchKeepsIdleInv(s, d.command, d.env, IdleStreak(init));
      }
    }
  }

  lemma StartsIdle()
    ensures IdleInv(START, 0)
  {
  }

  lemma NoLaunchKeepsIdleInv(s: LoopState, cmd: Command, env: Env, streak: nat)
    requires Inv(s) && IdleInv(s, streak) && !Launched(s, cmd, env, Handle(s, cmd, env))
    ensures IdleInv(Handle(s, cmd, env), streak)
  {
    hide Handle, LogInv, Numbered, Launched, Whole;
    HandleOutcome(s, cmd, env);
  }
}
