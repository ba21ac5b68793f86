/** What a turn has used and what it still carries after any run of continuations and recoveries. */
module TurnTotals {
  import opened Common
  import opened ExecutionWindows

  // ---- One window, measured off its report ----

  function Calls(p: Payload): U64 { p.toolCalls }

  function Elapsed(p: Payload): U64 {
    if p.startedAt.None? || p.completedAt.None? || p.completedAt.value <= p.startedAt.value then 0
    else
      var from: int, to: int := p.startedAt.value, p.completedAt.value;
      Min(to - from, I64_MAX)
  }

  function Billed(p: Payload): U64 {
    match (p.windowTokens, p.budgetTokens)
    case (Some(tokens), _) => tokens
    case (None, Some(tokens)) => tokens
    case (None, None) => 0
  }

  predicate Unbilled(p: Payload) { p.windowTokens == None && p.budgetTokens == None }

  predicate Stalled(p: Payload) {
    && p.agentRounds == p.toolsExecuted == 0
    && p.exhaustion in {Some(ProviderFailureContinuation), Some(RuntimeShutdownContinuation)}
  }

  lemma MeasuresAgree(p: Payload)
    ensures ToolCallsOf(p) == Calls(p) && WallClockOf(p) == Elapsed(p) && TokensOf(p) == Billed(p)
    ensures Tokens(p).None? <==> Unbilled(p)
    ensures NoProgress(p) <==> Stalled(p)
  {
  }

  // ---- Counters as sums ----

  /** The last `n` reports, and no more, made no progress. */
  predicate StalledFor(seen: seq<Payload>, n: nat) {
    && n <= |seen|
    && (forall i :: |seen| - n <= i < |seen| ==> Stalled(seen[i]))
    && (n < |seen| ==> !Stalled(seen[|seen| - n - 1]))
  }

  /** How many windows in a row made no progress, those counted before `seen` included. */
  function Streak(base: Counters, seen: seq<Payload>, n: nat): nat {
    if n == |seen| then base.noProgress + n else n
  }

  predicate Unmetered(base: Counters, seen: seq<Payload>) {
    base.tokensUnknown || exists i :: 0 <= i < |seen| && Unbilled(seen[i])
  }

  /** The counters are what `base` and the reports `seen` add up to. */
  ghost predicate Accounts(c: Counters, base: Counters, seen: seq<Payload>) {
    && c.totalWindows == (if seen == [] then base.totalWindows else seen[|seen| - 1].windowIndex)
    && c.toolCalls == Min(base.toolCalls + Sum(seen, Calls), U64_MAX)
    && c.wallClockMs == Min(base.wallClockMs + Sum(seen, Elapsed), U64_MAX)
    && c.tokens == Min(base.tokens + Sum(seen, Billed), U64_MAX)
    && (c.tokensUnknown <==> Unmetered(base, seen))
    && (forall n :: StalledFor(seen, n) ==> c.noProgress == Min(Streak(base, seen, n), U32_MAX))
  }

  lemma {:induction false} SumsAgree(seen: seq<Payload>, f: Payload -> U64, g: Payload -> U64)
    requires forall p :: f(p) == g(p)
    ensures Sum(seen, f) == Sum(seen, g)
  {
    if seen != [] {
      SumsAgree(seen[..|seen| - 1], f, g);
    }
  }

  lemma StreakIsTrailing(seen: seq<Payload>, n: nat)
    requires StalledFor(seen, n)
    ensures n == TrailingNoProgress(seen)
  {
    hide Stalled, NoProgress;
    var m := TrailingNoProgress(seen);
    if m < n {
      MeasuresAgree(seen[|seen| - m - 1]);
    } else if n < m {
      MeasuresAgree(seen[|seen| - n - 1]);
    }
  }

  lemma UnmeteredAgrees(base: Counters, seen: seq<Payload>)
    ensures Unmetered(base, seen) <==> base.tokensUnknown || HasUnknownTokens(seen)
  {
    hide Tokens, Unbilled;
    forall i | 0 <= i < |seen|
      ensures Tokens(seen[i]).None? <==> Unbilled(seen[i])
    {
      MeasuresAgree(seen[i]);
    }
  }

  lemma TallyAccounts(base: Counters, seen: seq<Payload>)
    ensures Accounts(Tally(base, seen), base, seen)
  {
    hide ToolCallsOf, WallClockOf, TokensOf, Calls, Elapsed, Billed, Sum, Unmetered, HasUnknownTokens, StalledFor;
    hide TrailingNoProgress;
    forall p
      ensures ToolCallsOf(p) == Calls(p) && WallClockOf(p) == Elapsed(p) && TokensOf(p) == Billed(p)
    {
      MeasuresAgree(p);
    }
    SumsAgree(seen, ToolCallsOf, Calls);
    SumsAgree(seen, WallClockOf, Elapsed);
    SumsAgree(seen, TokensOf, Billed);
    UnmeteredAgrees(base, seen);
    forall n | StalledFor(seen, n)
      ensures n == TrailingNoProgress(seen)
    {
      StreakIsTrailing(seen, n);
    }
  }

  /** However checkpoints are delivered, the counters account for the left-to-right maxima and nothing else. */
  lemma DeliveriesAreAccounted(c: Counters, ps: seq<Payload>)
    ensures Accounts(ObserveAll(c, ps), c, Records(ps, c.totalWindows))
  {
    hide Accounts, Tally, ObserveAll, Records;
    CountersAreTheSaturatingFold(c, ps);
    TallyAccounts(c, Records(ps, c.totalWindows));
  }

  // ---- Budgets over sums ----

  /** Neither calls, time nor known tokens have reached their limit; a limit of zero counts as one. */
  ghost predicate WithinBudget(base: Counters, seen: seq<Payload>, b: Budget) {
    && (b.maxToolCalls.Some? ==> base.toolCalls + Sum(seen, Calls) < Max(b.maxToolCalls.value, 1))
    && (b.maxWallClockMs.Some? ==> base.wallClockMs + Sum(seen, Elapsed) < Max(b.maxWallClockMs.value, 1))
    && (b.maxTokens.Some? && !Unmetered(base, seen) ==>
          base.tokens + Sum(seen, Billed) < Max(b.maxTokens.value, 1))
  }

  /** The limits say of the counters what the budget says of the sums. */
  lemma LimitsAreOnSums(c: Counters, base: Counters, seen: seq<Payload>, b: Budget)
    requires Accounts(c, base, seen)
    ensures WithinBudget(base, seen, b) <==>
            && !Reached(c, Normalized(b), MaxToolCalls)
            && !Reached(c, Normalized(b), MaxWallClock)
            && !Reached(c, Normalized(b), MaxTokens)
  {
    hide Sum, Unmetered, StalledFor;
  }

  // ---- Handovers, field by field ----

  predicate IsImage(i: Input) { i.Image? || i.LocalImage? }

  predicate IsMcp(c: Capability) { c.McpServer? || c.McpTool? }

  /** `kept` is `all` without its unwanted elements, or all of it when nothing is to be dropped. */
  ghost predicate Drops<T(!new)>(all: seq<T>, kept: seq<T>, drop: bool, unwanted: T -> bool) {
    && (forall x :: x in kept <==> x in all && (drop ==> !unwanted(x)))
    && (!drop || (forall x :: x in all ==> !unwanted(x)) ==> kept == all)
  }

  /** The request of the next window against the one before it. */
  ghost predicate HandsOver(r: Request, h: Handover, t: Request) {
    match h
    case Continuation(p, history) =>
      && t.turn == r.turn && t.model == r.model
      && t.input == r.input && t.capabilities == r.capabilities && t.artifacts == r.artifacts
      && t.retainedHistory == history
      && t.context == Some(CheckpointContext(p.windowIndex, p, t.usage))
      && t.options.continueGenerationHint
      && t.options == r.options.(continueGenerationHint := t.options.continueGenerationHint)
    case Recovery(q) =>
      && t.turn == r.turn
      && t.model == (if q.modelOverride.None? || IsBlank(q.modelOverride.value) then r.model else q.modelOverride.value)
      && Drops(r.input, t.input, q.disableImageInput, IsImage)
      && Drops(r.artifacts, t.artifacts, q.disableImageInput, (a: Artifact) => a.isImage)
      && Drops(r.capabilities, t.capabilities, q.disableToolCalling, IsMcp)
      && t.retainedHistory == q.retainedHistory
      && t.context == q.context
      && t.usage == (if q.context.Some? then q.context.value.usage else r.usage)
      && t.options.contextOverflowRecovery == q.compactHistory
      && t.options.contextRecoveryDeadlineMs == q.contextRecoveryDeadlineMs
      && t.options.forceNonStream == q.forceNonStream
      && t.options.disableToolCalling == q.disableToolCalling
      && t.options.continueGenerationHint == q.continueGeneration
  }

  lemma FilterDrops<T(!new)>(all: seq<T>, drop: bool, wanted: T -> bool, unwanted: T -> bool)
    requires forall x :: wanted(x) <==> !unwanted(x)
    ensures Drops(all, if drop then Filter(all, wanted) else all, drop, unwanted)
  {
    if forall x :: x in all ==> !unwanted(x) {
      FilterAll(all, wanted);
    }
  }

  /** Every accepted handover changes exactly the fields it is for. */
  lemma HandoverChangesOnly(r: Request, h: Handover, b: Budget)
    requires Handed(r, h, b).Some?
    ensures HandsOver(r, h, Handed(r, h, b).value)
  {
    hide Filter, IsBlank, Observe, Decide, Drops, NoProgress;
    if h.Recovery? {
      var q := h.request;
      FilterDrops(r.input, q.disableImageInput, NotImage, IsImage);
      FilterDrops(r.artifacts, q.disableImageInput, NotImageArtifact, (a: Artifact) => a.isImage);
      FilterDrops(r.capabilities, q.disableToolCalling, NotMcp, IsMcp);
    }
  }

  // ---- Whole runs ----

  /** The usage the last checkpointed recovery restored, or the one the run began with. */
  function Base(c: Counters, hs: seq<Handover>): Counters {
    if hs == [] then c
    else
      var last := hs[|hs| - 1];
      if last.Recovery? && last.request.context.Some? then last.request.context.value.usage
      else Base(c, hs[..|hs| - 1])
  }

  /** The windows reported since then. */
  function Since(hs: seq<Handover>): seq<Payload> {
    if hs == [] then []
    else
      var init := Since(hs[..|hs| - 1]);
      match hs[|hs| - 1]
      case Continuation(p, _) => init + [p]
      case Recovery(q) => if q.context.Some? then [] else init
  }

  /** A run is its prefix and then one more handover. */
  lemma {:induction false} RunExtends(r: Request, hs: seq<Handover>, h: Handover, b: Budget)
    ensures Run(r, hs + [h], b)
            == (if Run(r, hs, b).Some? && WellFormed(Run(r, hs, b).value, h) then Handed(Run(r, hs, b).value, h, b) else None)
    decreases |hs|
  {
    hide Handed, WellFormed;
    var all := hs + [h];
    assert all[0] == if hs == [] then h else hs[0];
    if hs == [] {
      assert all[1..] == [];
    } else {
      assert all[1..] == hs[1..] + [h];
      if WellFormed(r, hs[0]) && Handed(r, hs[0], b).Some? {
        RunExtends(Handed(r, hs[0], b).value, hs[1..], h, b);
      }
    }
  }

  lemma SplitLast(r: Request, hs: seq<Handover>, b: Budget)
    requires hs != [] && Run(r, hs, b).Some?
    ensures var init, h := hs[..|hs| - 1], hs[|hs| - 1];
            && Run(r, init, b).Some?
            && WellFormed(Run(r, init, b).value, h)
            && Run(r, hs, b) == Handed(Run(r, init, b).value, h, b)
  {
    hide Run, Handed, WellFormed;
    var init, h := hs[..|hs| - 1], hs[|hs| - 1];
    assert hs == init + [h];
    RunExtends(r, init, h, b);
  }

  /** The counters after one handover. */
  lemma HandoverTallies(r: Request, h: Handover, b: Budget)
    requires WithinWindows(r, b) && WellFormed(r, h) && Handed(r, h, b).Some?
    ensures var t := Handed(r, h, b).value;
            match h
            case Continuation(p, _) => r.usage.totalWindows < p.windowIndex && t.usage == Observe(r.usage, p)
            case Recovery(q) => t.usage == if q.context.Some? then q.context.value.usage else r.usage
  {
    hide Filter, IsBlank, Observe, Decide;
  }

  lemma {:induction false} RunTallies(r: Request, hs: seq<Handover>, b: Budget)
    requires WithinWindows(r, b) && Run(r, hs, b).Some?
    ensures Run(r, hs, b).value.usage == Tally(Base(r.usage, hs), Since(hs))
    decreases |hs|
  {
    hide Run, Handed, WellFormed, WithinWindows, Tally, Observe;
    if hs == [] {
      NothingTallied(r.usage);
      EmptyRun(r, b);
    } else {
      var init, h := hs[..|hs| - 1], hs[|hs| - 1];
      SplitLast(r, hs, b);
      RunTallies(r, init, b);
      TurnStaysWithinItsWindows(r, init, b);
      HandoverTallies(Run(r, init, b).value, h, b);
      match h
      case Continuation(p, _) => RecordExtendsTally(Base(r.usage, init), Since(init), p);
      case Recovery(q) => if q.context.Some? { NothingTallied(q.context.value.usage); }
    }
  }

  lemma EmptyRun(r: Request, b: Budget)
    ensures Run(r, [], b) == Some(r)
  {
  }

  /** Whatever is accepted leaves no limit reached, or leaves the counters alone. */
  lemma AcceptedUnderLimits(r: Request, h: Handover, b: Budget, kind: BlockKind)
    requires Handed(r, h, b).Some?
    ensures h.Continuation? || h.request.context.Some? ==> !Reached(Handed(r, h, b).value.usage, Normalized(b), kind)
    ensures h.Recovery? && h.request.context.None? ==> Handed(r, h, b).value.usage == r.usage
  {
    hide Filter, IsBlank, Observe, Decide, Reached;
    match h
    case Continuation(p, _) => DecisionNamesFirstReachedLimit(Observe(r.usage, p), Normalized(b));
    case Recovery(q) => DecisionNamesFirstReachedLimit(Adjusted(r, q).usage, Normalized(b));
  }

  lemma {:induction false} RunStaysUnderLimits(r: Request, hs: seq<Handover>, b: Budget, kind: BlockKind)
    requires Run(r, hs, b).Some? && !Reached(r.usage, Normalized(b), kind)
    ensures !Reached(Run(r, hs, b).value.usage, Normalized(b), kind)
    decreases |hs|
  {
    hide Run, Handed, WellFormed, Reached;
    if hs == [] {
      EmptyRun(r, b);
    } else {
      var init, h := hs[..|hs| - 1], hs[|hs| - 1];
      SplitLast(r, hs, b);
      RunStaysUnderLimits(r, init, b, kind);
      AcceptedUnderLimits(Run(r, init, b).value, h, b, kind);
    }
  }

  /** In every accepted run the counters account for every window reported since the last restored
      checkpoint, and the sums behind them stay below every limit they began below. */
  lemma TurnIsMetered(r: Request, hs: seq<Handover>, b: Budget)
    requires WithinWindows(r, b) && Run(r, hs, b).Some?
    ensures Accounts(Run(r, hs, b).value.usage, Base(r.usage, hs), Since(hs))
    ensures WithinBudget(r.usage, [], b) ==> WithinBudget(Base(r.usage, hs), Since(hs), b)
  {
    hide Run, WithinWindows, Accounts, WithinBudget, Tally, Reached;
    RunTallies(r, hs, b);
    TallyAccounts(Base(r.usage, hs), Since(hs));
    LimitsAreOnSums(Run(r, hs, b).value.usage, Base(r.usage, hs), Since(hs), b);
    if WithinBudget(r.usage, [], b) {
      NothingTallied(r.usage);
      TallyAccounts(r.usage, []);
      LimitsAreOnSums(r.usage, r.usage, [], b);
      RunStaysUnderLimits(r, hs, b, MaxToolCalls);
      RunStaysUnderLimits(r, hs, b, MaxWallClock);
      RunStaysUnderLimits(r, hs, b, MaxTokens);
    }
  }

  /** The windows of a run that are reported, whatever recoveries come between. */
  function Reports(hs: seq<Handover>): seq<Payload> {
    if hs == [] then []
    else Reports(hs[..|hs| - 1]) + (if hs[|hs| - 1].Continuation? then [hs[|hs| - 1].payload] else [])
  }

  predicate RestoresNothing(hs: seq<Handover>) {
    forall i :: 0 <= i < |hs| && hs[i].Recovery? ==> hs[i].request.context.None?
  }

  lemma {:induction false} NothingRestored(c: Counters, hs: seq<Handover>)
    requires RestoresNothing(hs)
    ensures Base(c, hs) == c && Since(hs) == Reports(hs)
  {
    if hs != [] {
      var init := hs[..|hs| - 1];
      assert forall i :: 0 <= i < |init| ==> init[i] == hs[i];
      NothingRestored(c, init);
    }
  }

  /** A turn begun without a checkpoint, and restored from none, has used what its windows reported,
      all of it, and that is less than every limit. */
  lemma FreshTurnUsesWhatItReported(r: Request, hs: seq<Handover>, b: Budget)
    requires BegunWithoutCheckpoint(r) && RestoresNothing(hs) && Run(r, hs, b).Some?
    ensures Accounts(Run(r, hs, b).value.usage, ZERO, Reports(hs))
    ensures b.maxToolCalls.Some? ==> Sum(Reports(hs), Calls) < Max(b.maxToolCalls.value, 1)
    ensures b.maxWallClockMs.Some? ==> Sum(Reports(hs), Elapsed) < Max(b.maxWallClockMs.value, 1)
    ensures b.maxTokens.Some? && !Unmetered(ZERO, Reports(hs)) ==> Sum(Reports(hs), Billed) < Max(b.maxTokens.value, 1)
  {
    hide Run, Accounts;
    NothingRestored(r.usage, hs);
    TurnIsMetered(r, hs, b);
  }

  /** One more continuation is accepted exactly when its window is not the last, the sums with its own
      report stay below their limits, and so does the run of windows without progress. */
  lemma ContinuationAcceptedExactly(
      r: Request, hs: seq<Handover>, p: Payload, history: seq<string>, b: Budget, stalled: nat)
    requires WithinWindows(r, b) && Run(r, hs, b).Some?
    requires p.windowIndex == Run(r, hs, b).value.windowIndex
    requires StalledFor(Since(hs) + [p], stalled)
    ensures Run(r, hs + [Continuation(p, history)], b).Some?
            <==>
            && p.windowIndex < WindowLimit(b)
            && WithinBudget(Base(r.usage, hs), Since(hs) + [p], b)
            && Min(Streak(Base(r.usage, hs), Since(hs) + [p], stalled), U32_MAX) < Max(b.maxNoProgress, 1)
  {
    hide Run, Tally, WithinBudget, StalledFor, Streak, Decide, Observe, Sum;
    var t := Run(r, hs, b).value;
    RunExtends(r, hs, Continuation(p, history), b);
    RunTallies(r, hs, b);
    TurnStaysWithinItsWindows(r, hs, b);
    var base, seen := Base(r.usage, hs), Since(hs) + [p];
    RecordExtendsTally(base, Since(hs), p);
    TallyAccounts(base, seen);
    var c := Tally(base, seen);
    LimitsAreOnSums(c, base, seen, b);
    DecisionNamesFirstReachedLimit(c, Normalized(b));
    ContinuesExactly(c, Normalized(b));
  }

  lemma ContinuesExactly(c: Counters, b: Budget)
    ensures Decide(c, b).Continue? <==>
            && !Reached(c, b, MaxWindows) && !Reached(c, b, MaxToolCalls) && !Reached(c, b, MaxWallClock)
            && !Reached(c, b, MaxTokens) && !Reached(c, b, MaxNoProgress)
  {
    hide Reached;
    DecisionNamesFirstReachedLimit(c, b);
    if Decide(c, b).Block? {
      match Decide(c, b).kind case _ =>
    }
  }

  // ---- What a run leaves of the request ----

  predicate DropsImages(hs: seq<Handover>) {
    exists i :: 0 <= i < |hs| && hs[i].Recovery? && hs[i].request.disableImageInput
  }

  predicate DropsTools(hs: seq<Handover>) {
    exists i :: 0 <= i < |hs| && hs[i].Recovery? && hs[i].request.disableToolCalling
  }

  /** The model of the last recovery that names one. */
  function ModelAfter(model: string, hs: seq<Handover>): string {
    if hs == [] then model
    else match hs[|hs| - 1]
      case Recovery(q) =>
        if q.modelOverride.None? || IsBlank(q.modelOverride.value) then ModelAfter(model, hs[..|hs| - 1])
        else q.modelOverride.value
      case _ => ModelAfter(model, hs[..|hs| - 1])
  }

  function HistoryOf(h: Handover): seq<string> {
    match h
    case Continuation(_, history) => history
    case Recovery(q) => q.retainedHistory
  }

  /** What is left of the request `r` after the handovers `hs`. */
  ghost predicate Carries(r: Request, hs: seq<Handover>, t: Request) {
    && t.turn == r.turn
    && t.model == ModelAfter(r.model, hs)
    && t.retainedHistory == (if hs == [] then r.retainedHistory else HistoryOf(hs[|hs| - 1]))
    && (forall x :: x in t.input <==> x in r.input && (DropsImages(hs) ==> !IsImage(x)))
    && (forall x :: x in t.artifacts <==> x in r.artifacts && (DropsImages(hs) ==> !x.isImage))
    && (forall x :: x in t.capabilities <==> x in r.capabilities && (DropsTools(hs) ==> !IsMcp(x)))
    && (!DropsImages(hs) ==> t.input == r.input && t.artifacts == r.artifacts)
    && (!DropsTools(hs) ==> t.capabilities == r.capabilities)
  }

  lemma DroppingExtends(hs: seq<Handover>, h: Handover)
    ensures DropsImages(hs + [h]) <==> DropsImages(hs) || (h.Recovery? && h.request.disableImageInput)
    ensures DropsTools(hs + [h]) <==> DropsTools(hs) || (h.Recovery? && h.request.disableToolCalling)
  {
    var all := hs + [h];
    assert all[|hs|] == h;
    assert forall i :: 0 <= i < |hs| ==> all[i] == hs[i];
  }

  lemma HandoverCarries(r: Request, hs: seq<Handover>, t: Request, h: Handover, u: Request)
    requires Carries(r, hs, t) && HandsOver(t, h, u)
    ensures Carries(r, hs + [h], u)
  {
    hide DropsImages, DropsTools, IsImage, IsMcp, IsBlank;
    DroppingExtends(hs, h);
    assert (hs + [h])[..|hs|] == hs;
  }

  /** Over every accepted run the turn is the same, images and MCP tools are gone exactly when some
      recovery disabled them, nothing else is, and the model and history are the last ones named. */
  lemma {:induction false} RunCarriesTheRequest(r: Request, hs: seq<Handover>, b: Budget)
    requires Run(r, hs, b).Some?
    ensures Carries(r, hs, Run(r, hs, b).value)
    decreases |hs|
  {
    hide Run, Handed, WellFormed, HandsOver;
    if hs == [] {
      EmptyRun(r, b);
    } else {
      hide Carries;
      var init, h := hs[..|hs| - 1], hs[|hs| - 1];
      assert hs == init + [h];
      SplitLast(r, hs, b);
      RunCarriesTheRequest(r, init, b);
      HandoverChangesOnly(Run(r, init, b).value, h, b);
      HandoverCarries(r, init, Run(r, init, b).value, h, Run(r, hs, b).value);
    }
  }

  /** After a continuation the window is the one after the reported window, and the checkpoint is its report. */
  lemma ContinuationOpensTheNextWindow(r: Request, hs: seq<Handover>, b: Budget)
    requires WithinWindows(r, b) && Run(r, hs, b).Some?
    requires hs != [] && hs[|hs| - 1].Continuation?
    ensures var t, p := Run(r, hs, b).value, hs[|hs| - 1].payload;
            && t.windowIndex == p.windowIndex + 1
            && t.context == Some(CheckpointContext(p.windowIndex, p, t.usage))
            && t.options.continueGenerationHint
  {
    hide Run, Decide, Reached, NoProgress;
    var init, h := hs[..|hs| - 1], hs[|hs| - 1];
    SplitLast(r, hs, b);
    TurnStaysWithinItsWindows(r, init, b);
    DecisionNamesFirstReachedLimit(Observe(Run(r, init, b).value.usage, h.payload), Normalized(b));
  }
}
