/** Usage counters, the per-turn budget and the requests a turn passes from window to window. */
module ExecutionWindows {
  import opened Common

  const I64_MAX: int := 0x7FFF_FFFF_FFFF_FFFF
  const I64_MIN: int := -0x8000_0000_0000_0000

  type U32 = n: nat | n <= U32_MAX
  type U64 = n: nat | n <= U64_MAX
  type I64 = n: int | I64_MIN <= n <= I64_MAX

  datatype ExhaustionReason =
    | MaxAgentRoundsPerWindow
    | MaxToolCallsPerWindow
    | MaxWallClockMsPerWindow
    | MaxProviderTokensPerWindow
    | ProviderFailureContinuation
    | RuntimeShutdownContinuation

  datatype Payload = Payload(
    windowIndex: U32,
    startedAt: Option<I64>,
    completedAt: Option<I64>,
    agentRounds: U32,
    toolCalls: U32,
    windowTokens: Option<U64>,
    budgetTokens: Option<U64>,
    toolsExecuted: U32,
    exhaustion: Option<ExhaustionReason>)

  datatype Counters = Counters(
    totalWindows: U32,
    toolCalls: U64,
    wallClockMs: U64,
    tokens: U64,
    tokensUnknown: bool,
    noProgress: U32)

  const ZERO := Counters(0, 0, 0, 0, false, 0)

  function SatAdd32(a: U32, b: U32): U32 { Min(a + b, U32_MAX) }

  function SatAdd64(a: U64, b: U64): U64 { Min(a + b, U64_MAX) }

  function SatSubI64(a: I64, b: I64): I64 { Max(I64_MIN, Min(a - b, I64_MAX)) }

  function Tokens(p: Payload): Option<U64> { if p.windowTokens.Some? then p.windowTokens else p.budgetTokens }

  predicate NoProgress(p: Payload) {
    && p.agentRounds == 0
    && p.toolsExecuted == 0
    && (p.exhaustion == Some(ProviderFailureContinuation) || p.exhaustion == Some(RuntimeShutdownContinuation))
  }

  // What one window contributes to each sum.

  function ToolCallsOf(p: Payload): U64 { p.toolCalls }

  function WallClockOf(p: Payload): U64 {
    if p.startedAt.Some? && p.completedAt.Some?
    then Max(0, SatSubI64(p.completedAt.value, p.startedAt.value))
    else 0
  }

  function TokensOf(p: Payload): U64 { if Tokens(p).Some? then Tokens(p).value else 0 }

  function Observe(c: Counters, p: Payload): Counters {
    if p.windowIndex <= c.totalWindows then c
    else Counters(
      p.windowIndex,
      SatAdd64(c.toolCalls, ToolCallsOf(p)),
      SatAdd64(c.wallClockMs, WallClockOf(p)),
      SatAdd64(c.tokens, TokensOf(p)),
      c.tokensUnknown || Tokens(p).None?,
      if NoProgress(p) then SatAdd32(c.noProgress, 1) else 0)
  }

  function ObserveAll(c: Counters, ps: seq<Payload>): Counters {
    if ps == [] then c else Observe(ObserveAll(c, ps[..|ps| - 1]), ps[|ps| - 1])
  }

  /** The mutable counters a turn request carries. */
  class TurnExecutionUsageCounters {
    var totalWindows: U32
    var toolCalls: U64
    var wallClockMs: U64
    var tokens: U64
    var tokensUnknown: bool
    var noProgress: U32

    function View(): Counters
      reads this
    {
      Counters(totalWindows, toolCalls, wallClockMs, tokens, tokensUnknown, noProgress)
    }

    constructor FromSnapshot(snapshot: Counters)
      ensures View() == snapshot
    {
      totalWindows := snapshot.totalWindows;
      toolCalls := snapshot.toolCalls;
      wallClockMs := snapshot.wallClockMs;
      tokens := snapshot.tokens;
      tokensUnknown := snapshot.tokensUnknown;
      noProgress := snapshot.noProgress;
    }

    method ObserveCheckpointPayload(payload: Payload)
      modifies this
      ensures View() == Observe(old(View()), payload)
    {
      if payload.windowIndex <= totalWindows {
        return;
      }
      totalWindows := payload.windowIndex;
      toolCalls := SatAdd64(toolCalls, payload.toolCalls);
      if payload.startedAt.Some? && payload.completedAt.Some? {
        var duration := SatSubI64(payload.completedAt.value, payload.startedAt.value);
        if duration > 0 {
          wallClockMs := SatAdd64(wallClockMs, duration);
        }
      }
      match Tokens(payload) {
        case Some(count) => tokens := SatAdd64(tokens, count);
        case None => tokensUnknown := true;
      }
      if NoProgress(payload) {
        noProgress := SatAdd32(noProgress, 1);
      } else {
        noProgress := 0;
      }
    }
  }

  // ---- The counters are a fold over the left-to-right maxima ----

  /** Delivery `i` is a record: its index beats the floor and everything delivered before it. */
  predicate IsRecord(ps: seq<Payload>, floor: U32, i: nat)
    requires i < |ps|
  {
    && floor < ps[i].windowIndex
    && forall j :: 0 <= j < i ==> ps[j].windowIndex < ps[i].windowIndex
  }

  /** The left-to-right maxima of a delivery sequence, in delivery order. */
  function Records(ps: seq<Payload>, floor: U32): seq<Payload> {
    if ps == [] then []
    else
      var last := |ps| - 1;
      Records(ps[..last], floor) + (if IsRecord(ps, floor, last) then [ps[last]] else [])
  }

  function Sum(ps: seq<Payload>, f: Payload -> U64): nat {
    if ps == [] then 0 else Sum(ps[..|ps| - 1], f) + f(ps[|ps| - 1])
  }

  /** How many payloads at the end of the sequence made no progress. */
  function TrailingNoProgress(ps: seq<Payload>): (n: nat)
    ensures n <= |ps|
    ensures forall i :: |ps| - n <= i < |ps| ==> NoProgress(ps[i])
    ensures n < |ps| ==> !NoProgress(ps[|ps| - n - 1])
  {
    if ps == [] || !NoProgress(ps[|ps| - 1]) then 0 else TrailingNoProgress(ps[..|ps| - 1]) + 1
  }

  /** The counters a sequence of accepted windows adds up to. */
  ghost function Tally(c: Counters, seen: seq<Payload>): Counters {
    var trailing := TrailingNoProgress(seen);
    Counters(
      if seen == [] then c.totalWindows else seen[|seen| - 1].windowIndex,
      Min(c.toolCalls + Sum(seen, ToolCallsOf), U64_MAX),
      Min(c.wallClockMs + Sum(seen, WallClockOf), U64_MAX),
      Min(c.tokens + Sum(seen, TokensOf), U64_MAX),
      c.tokensUnknown || HasUnknownTokens(seen),
      Min(if trailing == |seen| then c.noProgress + trailing else trailing, U32_MAX))
  }

  predicate HasUnknownTokens(ps: seq<Payload>) { exists i :: 0 <= i < |ps| && Tokens(ps[i]).None? }

  ghost function ClosedForm(c: Counters, ps: seq<Payload>): Counters { Tally(c, Records(ps, c.totalWindows)) }

  /** The running total is the maximum of the floor and every delivered index. */
  lemma {:induction false} TotalIsTheMaximum(c: Counters, ps: seq<Payload>)
    ensures c.totalWindows <= ObserveAll(c, ps).totalWindows
    ensures forall i :: 0 <= i < |ps| ==> ps[i].windowIndex <= ObserveAll(c, ps).totalWindows
    ensures ObserveAll(c, ps).totalWindows == c.totalWindows
            || exists i :: 0 <= i < |ps| && ps[i].windowIndex == ObserveAll(c, ps).totalWindows
  {
    if ps != [] {
      var init := ps[..|ps| - 1];
      TotalIsTheMaximum(c, init);
      var before := ObserveAll(c, init).totalWindows;
      forall i | 0 <= i < |ps|
        ensures ps[i].windowIndex <= ObserveAll(c, ps).totalWindows
      {
        if i < |init| {
          assert init[i] == ps[i];
        }
      }
      if ps[|ps| - 1].windowIndex <= before && before != c.totalWindows {
        var k :| 0 <= k < |init| && init[k].windowIndex == before;
        assert ps[k].windowIndex == before;
      }
    }
  }

  /** A delivery changes the counters exactly when it is a record. */
  lemma RecordsAreFresh(c: Counters, ps: seq<Payload>)
    requires ps != []
    ensures IsRecord(ps, c.totalWindows, |ps| - 1)
            <==> ps[|ps| - 1].windowIndex > ObserveAll(c, ps[..|ps| - 1]).totalWindows
  {
    var init := ps[..|ps| - 1];
    TotalIsTheMaximum(c, init);
    forall j | 0 <= j < |ps| - 1
      ensures ps[j].windowIndex <= ObserveAll(c, init).totalWindows
    {
      assert init[j] == ps[j];
    }
    var total := ObserveAll(c, init).totalWindows;
    if total != c.totalWindows {
      var k :| 0 <= k < |init| && init[k].windowIndex == total;
      assert ps[k].windowIndex == total;
    }
  }

  lemma {:induction false} CountersAreTheSaturatingFold(c: Counters, ps: seq<Payload>)
    ensures ObserveAll(c, ps) == ClosedForm(c, ps)
  {
    hide Tally, Observe;
    if ps == [] {
      NothingTallied(c);
    } else {
      var last := |ps| - 1;
      CountersAreTheSaturatingFold(c, ps[..last]);
      RecordsAreFresh(c, ps);
      if IsRecord(ps, c.totalWindows, last) {
        RecordExtendsTally(c, Records(ps[..last], c.totalWindows), ps[last]);
      } else {
        assert Records(ps, c.totalWindows) == Records(ps[..last], c.totalWindows);
        StaleIsIgnored(ObserveAll(c, ps[..last]), ps[last]);
      }
    }
  }

  lemma NothingTallied(c: Counters)
    ensures Tally(c, []) == c
  {
  }

  lemma StaleIsIgnored(c: Counters, p: Payload)
    requires p.windowIndex <= c.totalWindows
    ensures Observe(c, p) == c
  {
  }

  /** One more record added to the tally, counter by counter. */
  lemma RecordExtendsTally(c: Counters, seen: seq<Payload>, p: Payload)
    requires Tally(c, seen).totalWindows < p.windowIndex
    ensures Observe(Tally(c, seen), p) == Tally(c, seen + [p])
  {
    hide NoProgress, WallClockOf, ToolCallsOf, TokensOf, Tokens, Sum, TrailingNoProgress, HasUnknownTokens;
    SumExtends(seen, p, ToolCallsOf);
    SumExtends(seen, p, WallClockOf);
    SumExtends(seen, p, TokensOf);
    UnknownIsSticky(seen, p);
    TrailingExtends(seen, p);
  }

  lemma SumExtends(seen: seq<Payload>, p: Payload, f: Payload -> U64)
    ensures Sum(seen + [p], f) == Sum(seen, f) + f(p)
  {
    assert (seen + [p])[..|seen|] == seen;
  }

  lemma TrailingExtends(seen: seq<Payload>, p: Payload)
    ensures TrailingNoProgress(seen + [p]) == if NoProgress(p) then TrailingNoProgress(seen) + 1 else 0
  {
    assert (seen + [p])[..|seen|] == seen;
  }

  lemma UnknownIsSticky(seen: seq<Payload>, p: Payload)
    ensures HasUnknownTokens(seen + [p]) <==> HasUnknownTokens(seen) || Tokens(p).None?
  {
    var next := seen + [p];
    if i :| 0 <= i < |seen| && Tokens(seen[i]).None? {
      assert next[i] == seen[i];
    }
    if Tokens(p).None? {
      assert next[|seen|] == p;
    }
  }

  /** A checkpoint delivered again, or one overtaken by a later window, changes nothing. */
  lemma {:induction false} StaleDeliveryIsInert(
      c: Counters, before: seq<Payload>, p: Payload, between: seq<Payload>, stale: Payload, after: seq<Payload>)
    requires stale.windowIndex <= p.windowIndex
    ensures ObserveAll(c, before + [p] + between + [stale] + after) == ObserveAll(c, before + [p] + between + after)
  {
    var seen := before + [p] + between;
    if after == [] {
      TotalIsTheMaximum(c, seen);
      assert seen[|before|] == p;
      assert (seen + [stale] + after)[..|seen|] == seen;
      assert seen + after == seen;
    } else {
      var init := after[..|after| - 1];
      StaleDeliveryIsInert(c, before, p, between, stale, init);
      var long := seen + [stale] + after;
      var short := seen + after;
      assert long[..|long| - 1] == seen + [stale] + init;
      assert short[..|short| - 1] == seen + init;
    }
  }

  // ---- The total budget ----

  datatype Budget = Budget(
    maxWindows: Option<U32>,
    maxToolCalls: Option<U32>,
    maxWallClockMs: Option<U64>,
    maxTokens: Option<U64>,
    maxNoProgress: U32)

  function AtLeastOne(limit: Option<U64>): Option<U64> {
    if limit.Some? then Some(Max(limit.value, 1)) else None
  }

  function AtLeastOne32(limit: Option<U32>): Option<U32> {
    if limit.Some? then Some(Max(limit.value, 1)) else None
  }

  function Normalized(b: Budget): Budget {
    Budget(AtLeastOne32(b.maxWindows), AtLeastOne32(b.maxToolCalls), AtLeastOne(b.maxWallClockMs),
           AtLeastOne(b.maxTokens), Max(b.maxNoProgress, 1))
  }

  datatype Admission = Open(windowIndex: U32) | Full(totalWindows: U32, maxWindows: U32)

  function DecideAdmission(latest: Option<U32>, maxWindows: Option<U32>): Admission {
    var last := if latest.Some? then latest.value else 0;
    if last == 0 then Open(1)
    else if maxWindows.Some? && last >= Max(maxWindows.value, 1) then Full(last, Max(maxWindows.value, 1))
    else if last == U32_MAX then Full(last, U32_MAX)
    else Open(last + 1)
  }

  datatype BlockKind = MaxWindows | MaxToolCalls | MaxWallClock | MaxTokens | MaxNoProgress

  datatype Decision =
    | Continue(nextWindowIndex: U32)
    | Block(kind: BlockKind, totalWindows: U32, totalToolCalls: U32)

  function SaturatingU32(n: U64): U32 { Min(n, U32_MAX) }

  function Decide(c: Counters, b: Budget): Decision {
    var calls := SaturatingU32(c.toolCalls);
    match DecideAdmission(Some(Max(c.totalWindows, 1)), b.maxWindows)
    case Full(total, _) => Block(MaxWindows, total, calls)
    case Open(next) =>
      if b.maxToolCalls.Some? && c.toolCalls >= b.maxToolCalls.value then
        Block(MaxToolCalls, c.totalWindows, calls)
      else if b.maxWallClockMs.Some? && c.wallClockMs >= b.maxWallClockMs.value then
        Block(MaxWallClock, c.totalWindows, calls)
      else if b.maxTokens.Some? && !c.tokensUnknown && c.tokens >= b.maxTokens.value then
        Block(MaxTokens, c.totalWindows, calls)
      else if c.noProgress >= Max(b.maxNoProgress, 1) then
        Block(MaxNoProgress, c.totalWindows, calls)
      else Continue(next)
  }

  /** The number of windows a turn may open. */
  function WindowLimit(b: Budget): (n: U32)
    ensures 1 <= n
  {
    if b.maxWindows.Some? then Max(b.maxWindows.value, 1) else U32_MAX
  }

  /** The limits whose measure has reached them, whatever order they are looked at. */
  predicate Reached(c: Counters, b: Budget, kind: BlockKind) {
    match kind
    case MaxWindows => Max(c.totalWindows, 1) >= WindowLimit(b)
    case MaxToolCalls => b.maxToolCalls.Some? && c.toolCalls >= b.maxToolCalls.value
    case MaxWallClock => b.maxWallClockMs.Some? && c.wallClockMs >= b.maxWallClockMs.value
    case MaxTokens => b.maxTokens.Some? && !c.tokensUnknown && c.tokens >= b.maxTokens.value
    case MaxNoProgress => c.noProgress >= Max(b.maxNoProgress, 1)
  }

  function Priority(kind: BlockKind): nat {
    match kind
    case MaxWindows => 0
    case MaxToolCalls => 1
    case MaxWallClock => 2
    case MaxTokens => 3
    case MaxNoProgress => 4
  }

  /** The decision names the first reached limit; it continues exactly when none is reached. */
  lemma DecisionNamesFirstReachedLimit(c: Counters, b: Budget)
    ensures Decide(c, b).Continue? <==> forall kind :: !Reached(c, b, kind)
    ensures Decide(c, b).Continue? ==> Decide(c, b).nextWindowIndex == Max(c.totalWindows, 1) + 1 <= WindowLimit(b)
    ensures Decide(c, b).Block? ==> Reached(c, b, Decide(c, b).kind)
    ensures Decide(c, b).Block? ==>
              && Decide(c, b).totalWindows == (if Decide(c, b).kind.MaxWindows? then Max(c.totalWindows, 1) else c.totalWindows)
              && Decide(c, b).totalToolCalls == Min(c.toolCalls, U32_MAX)
    ensures Decide(c, b).Block? ==>
              forall kind :: Reached(c, b, kind) ==> Priority(Decide(c, b).kind) <= Priority(kind)
  {
    if Decide(c, b).Continue? {
      forall kind
        ensures !Reached(c, b, kind)
      {
        match kind case _ =>
      }
    } else {
      forall kind | Reached(c, b, kind)
        ensures Priority(Decide(c, b).kind) <= Priority(kind)
      {
        match kind case _ =>
      }
    }
  }

  /** Window, tool-call and wall-clock limits, once reached, stay reached. */
  lemma {:induction false} ReachedLimitStays(c: Counters, b: Budget, ps: seq<Payload>, kind: BlockKind)
    requires kind == MaxWindows || kind == MaxToolCalls || kind == MaxWallClock
    requires Reached(c, b, kind)
    ensures Reached(ObserveAll(c, ps), b, kind)
  {
    if ps != [] {
      ReachedLimitStays(c, b, ps[..|ps| - 1], kind);
    }
  }

  /** Such a block is never lifted: every later decision blocks for one of these three reasons. */
  lemma MonotoneBlockIsNeverLifted(c: Counters, b: Budget, ps: seq<Payload>)
    requires Decide(c, b).Block?
    requires Priority(Decide(c, b).kind) <= Priority(MaxWallClock)
    ensures Decide(ObserveAll(c, ps), b).Block?
    ensures Priority(Decide(ObserveAll(c, ps), b).kind) <= Priority(Decide(c, b).kind)
  {
    DecisionNamesFirstReachedLimit(c, b);
    ReachedLimitStays(c, b, ps, Decide(c, b).kind);
    DecisionNamesFirstReachedLimit(ObserveAll(c, ps), b);
  }

  /** A token or no-progress block is lifted by one more delivery exactly under these conditions. */
  lemma SoftBlockLiftedExactly(c: Counters, b: Budget, p: Payload)
    requires Decide(c, b).Block?
    requires Priority(Decide(c, b).kind) > Priority(MaxWallClock)
    ensures Decide(Observe(c, p), b).Continue?
            <==>
            && c.totalWindows < p.windowIndex < WindowLimit(b)
            && (b.maxToolCalls.Some? ==> c.toolCalls + ToolCallsOf(p) < b.maxToolCalls.value)
            && (b.maxWallClockMs.Some? ==> SatAdd64(c.wallClockMs, WallClockOf(p)) < b.maxWallClockMs.value)
            && (b.maxTokens.Some? ==>
                  || c.tokensUnknown
                  || Tokens(p).None?
                  || SatAdd64(c.tokens, TokensOf(p)) < b.maxTokens.value)
            && (NoProgress(p) ==> SatAdd32(c.noProgress, 1) < Max(b.maxNoProgress, 1))
  {
    DecisionNamesFirstReachedLimit(c, b);
    var after := Observe(c, p);
    DecisionNamesFirstReachedLimit(after, b);
    if p.windowIndex > c.totalWindows {
      assert Decide(after, b).Continue? <==>
        && !Reached(after, b, MaxWindows) && !Reached(after, b, MaxToolCalls) && !Reached(after, b, MaxWallClock)
        && !Reached(after, b, MaxTokens) && !Reached(after, b, MaxNoProgress);
    }
  }

  // ---- Requests handed from window to window ----

  datatype Capability = Skill(id: string) | SkillPack(id: string) | McpServer(name: string) | McpTool(server: string, tool: string)

  datatype Input = Text(text: string) | Image(url: string) | LocalImage(path: string) | OtherInput(reference: string)

  datatype Artifact = Artifact(id: string, isImage: bool)

  datatype CheckpointContext = CheckpointContext(windowIndex: U32, payload: Payload, usage: Counters)

  datatype ExecutionOptions = ExecutionOptions(
    contextOverflowRecovery: bool,
    contextRecoveryDeadlineMs: Option<I64>,
    forceNonStream: bool,
    disableToolCalling: bool,
    continueGenerationHint: bool)

  const DEFAULT_OPTIONS := ExecutionOptions(false, None, false, false, false)

  datatype Request = Request(
    turn: string,
    windowIndex: U32,
    model: string,
    input: seq<Input>,
    capabilities: seq<Capability>,
    artifacts: seq<Artifact>,
    retainedHistory: seq<string>,
    context: Option<CheckpointContext>,
    usage: Counters,
    options: ExecutionOptions)

  datatype RecoveryRequest = RecoveryRequest(
    turn: string,
    modelOverride: Option<string>,
    compactHistory: bool,
    contextRecoveryDeadlineMs: Option<I64>,
    disableToolCalling: bool,
    disableImageInput: bool,
    forceNonStream: bool,
    continueGeneration: bool,
    retainedHistory: seq<string>,
    context: Option<CheckpointContext>)

  function NextWindowIndex(context: CheckpointContext): U32 { Max(SatAdd32(context.windowIndex, 1), 2) }

  predicate IsWhitespace(ch: char) {
    || '\t' <= ch <= '\r' || ch == ' ' || ch == '\U{0085}' || ch == '\U{00A0}' || ch == '\U{1680}'
    || '\U{2000}' <= ch <= '\U{200A}' || ch == '\U{2028}' || ch == '\U{2029}' || ch == '\U{202F}'
    || ch == '\U{205F}' || ch == '\U{3000}'
  }

  predicate IsBlank(s: string) { forall i :: 0 <= i < |s| ==> IsWhitespace(s[i]) }

  predicate NotMcp(c: Capability) { !c.McpServer? && !c.McpTool? }

  predicate NotImage(i: Input) { !i.Image? && !i.LocalImage? }

  predicate NotImageArtifact(a: Artifact) { !a.isImage }

  function Adjusted(r: Request, q: RecoveryRequest): Request {
    Request(
      r.turn,
      if q.context.Some? then Max(r.windowIndex, NextWindowIndex(q.context.value)) else r.windowIndex,
      if q.modelOverride.Some? && !IsBlank(q.modelOverride.value) then q.modelOverride.value else r.model,
      if q.disableImageInput then Filter(r.input, NotImage) else r.input,
      if q.disableToolCalling then Filter(r.capabilities, NotMcp) else r.capabilities,
      if q.disableImageInput then Filter(r.artifacts, NotImageArtifact) else r.artifacts,
      q.retainedHistory,
      q.context,
      if q.context.Some? then q.context.value.usage else r.usage,
      ExecutionOptions(q.compactHistory, q.contextRecoveryDeadlineMs, q.forceNonStream, q.disableToolCalling,
                       q.continueGeneration))
  }

  /** The request object `apply_recovery_adjustments` edits in place. */
  class ActiveTurnRequest {
    const turn: string
    var windowIndex: U32
    var model: string
    var input: seq<Input>
    var capabilities: seq<Capability>
    var artifacts: seq<Artifact>
    var retainedHistory: seq<string>
    var context: Option<CheckpointContext>
    var usage: Counters
    var options: ExecutionOptions

    constructor (request: Request)
      ensures View() == request
    {
      turn := request.turn;
      windowIndex := request.windowIndex;
      model := request.model;
      input := request.input;
      capabilities := request.capabilities;
      artifacts := request.artifacts;
      retainedHistory := request.retainedHistory;
      context := request.context;
      usage := request.usage;
      options := request.options;
    }

    function View(): Request
      reads this
    {
      Request(turn, windowIndex, model, input, capabilities, artifacts, retainedHistory, context, usage, options)
    }

    method ApplyRecoveryAdjustments(q: RecoveryRequest)
      modifies this
      ensures View() == Adjusted(old(View()), q)
    {
      if q.modelOverride.Some? && !IsBlank(q.modelOverride.value) {
        model := q.modelOverride.value;
      }
      options := options.(contextOverflowRecovery := q.compactHistory,
                          contextRecoveryDeadlineMs := q.contextRecoveryDeadlineMs);
      if q.disableToolCalling {
        capabilities := Filter(capabilities, NotMcp);
      }
      if q.disableImageInput {
        input := Filter(input, NotImage);
        artifacts := Filter(artifacts, NotImageArtifact);
      }
      options := options.(forceNonStream := q.forceNonStream, disableToolCalling := q.disableToolCalling,
                          continueGenerationHint := q.continueGeneration);
      retainedHistory := q.retainedHistory;
      context := q.context;
      if q.context.Some? {
        windowIndex := Max(windowIndex, NextWindowIndex(q.context.value));
        usage := q.context.value.usage;
      }
    }
  }

  /** Applying the same recovery twice is applying it once, and it never lowers the window index. */
  lemma AdjustmentIsIdempotent(r: Request, q: RecoveryRequest)
    ensures Adjusted(Adjusted(r, q), q) == Adjusted(r, q)
    ensures r.windowIndex <= Adjusted(r, q).windowIndex
    ensures q.context.Some? ==>
              Max(Adjusted(r, q).windowIndex, NextWindowIndex(q.context.value)) == Adjusted(r, q).windowIndex
  {
    FilterAll(Filter(r.input, NotImage), NotImage);
    FilterAll(Filter(r.capabilities, NotMcp), NotMcp);
    FilterAll(Filter(r.artifacts, NotImageArtifact), NotImageArtifact);
  }

  /** A recovered request is refused only when it carries a checkpoint and the budget blocks. */
  function AdmissionError(r: Request, b: Budget): Option<BlockKind> {
    if r.context.None? then None
    else match Decide(r.usage, Normalized(b))
      case Continue(_) => None
      case Block(kind, _, _) => Some(kind)
  }

  /** A recovery is refused exactly when it carries a checkpoint whose budget is used up, naming the first limit. */
  lemma RefusalNamesFirstReachedLimit(r: Request, b: Budget)
    ensures AdmissionError(r, b).Some? <==> r.context.Some? && exists kind :: Reached(r.usage, Normalized(b), kind)
    ensures AdmissionError(r, b).Some? ==>
              && Reached(r.usage, Normalized(b), AdmissionError(r, b).value)
              && forall kind :: Reached(r.usage, Normalized(b), kind) ==> Priority(AdmissionError(r, b).value) <= Priority(kind)
  {
    hide Decide, Reached;
    DecisionNamesFirstReachedLimit(r.usage, Normalized(b));
  }

  /** The request of the next window, or the block that ends the turn. */
  function Continued(r: Request, p: Payload, history: seq<string>, b: Budget): Result<Request, Decision> {
    var usage := Observe(r.usage, p);
    match Decide(usage, Normalized(b))
    case Block(_, _, _) => Err(Decide(usage, Normalized(b)))
    case Continue(next) =>
      Ok(r.(windowIndex := next, usage := usage, retainedHistory := history,
            options := r.options.(continueGenerationHint := true),
            context := Some(CheckpointContext(p.windowIndex, p, usage))))
  }

  // ---- The bound over whole turns ----

  datatype Handover = Continuation(payload: Payload, history: seq<string>) | Recovery(request: RecoveryRequest)

  /** Contexts name the last recorded window, and a window reports its own index. */
  predicate WellFormed(r: Request, h: Handover) {
    match h
    case Continuation(p, _) => p.windowIndex == r.windowIndex
    case Recovery(q) => q.context.Some? ==> q.context.value.windowIndex == q.context.value.usage.totalWindows
  }

  function Handed(r: Request, h: Handover, b: Budget): Option<Request> {
    match h
    case Continuation(p, history) =>
      var next := Continued(r, p, history, b);
      if next.Ok? then Some(next.value) else None
    case Recovery(q) =>
      if AdmissionError(Adjusted(r, q), b).None? then Some(Adjusted(r, q)) else None
  }

  /** The request after a run of accepted handovers; `None` once one is refused or malformed. */
  function Run(r: Request, hs: seq<Handover>, b: Budget): Option<Request>
    decreases |hs|
  {
    if hs == [] then Some(r)
    else if !WellFormed(r, hs[0]) then None
    else
      var next := Handed(r, hs[0], b);
      if next.None? then None else Run(next.value, hs[1..], b)
  }

  function Continuations(hs: seq<Handover>): nat {
    if hs == [] then 0 else (if hs[0].Continuation? then 1 else 0) + Continuations(hs[1..])
  }

  predicate WithinWindows(r: Request, b: Budget) {
    r.usage.totalWindows < r.windowIndex <= WindowLimit(b)
  }

  predicate BegunWithoutCheckpoint(r: Request) { r.windowIndex == 1 && r.usage == ZERO }

  lemma HandoverKeepsBound(r: Request, h: Handover, b: Budget)
    requires WithinWindows(r, b) && WellFormed(r, h) && Handed(r, h, b).Some?
    ensures WithinWindows(Handed(r, h, b).value, b)
    ensures r.windowIndex <= Handed(r, h, b).value.windowIndex
    ensures h.Continuation? ==>
              && r.windowIndex < Handed(r, h, b).value.windowIndex
              && WindowLimit(b) - Handed(r, h, b).value.usage.totalWindows
                 < WindowLimit(b) - r.usage.totalWindows
  {
    hide Decide, NoProgress, Reached, Filter, IsBlank;
    match h
    case Continuation(p, history) =>
      DecisionNamesFirstReachedLimit(Observe(r.usage, p), Normalized(b));
    case Recovery(q) =>
      DecisionNamesFirstReachedLimit(Adjusted(r, q).usage, Normalized(b));
  }

  /** No run of continuations and recoveries passes the limit, and each continuation uses up a window. */
  lemma {:induction false} TurnStaysWithinItsWindows(r: Request, hs: seq<Handover>, b: Budget)
    requires WithinWindows(r, b) && Run(r, hs, b).Some?
    ensures WithinWindows(Run(r, hs, b).value, b)
    ensures r.windowIndex + Continuations(hs) <= Run(r, hs, b).value.windowIndex
    decreases |hs|
  {
    hide Handed, WithinWindows, WellFormed;
    if hs != [] {
      HandoverKeepsBound(r, hs[0], b);
      TurnStaysWithinItsWindows(Handed(r, hs[0], b).value, hs[1..], b);
    }
  }

  /** A turn begun without a checkpoint is continued fewer times than it has windows. */
  lemma ContinuationsAreBounded(r: Request, hs: seq<Handover>, b: Budget)
    requires BegunWithoutCheckpoint(r) && Run(r, hs, b).Some?
    ensures Continuations(hs) < WindowLimit(b)
    ensures Run(r, hs, b).value.windowIndex <= WindowLimit(b)
  {
    TurnStaysWithinItsWindows(r, hs, b);
  }

  /** After `M` fresh windows without progress the budget blocks, whatever came before. */
  lemma {:induction false} NoProgressAccumulates(c: Counters, ps: seq<Payload>)
    requires forall i :: 0 <= i < |ps| ==> NoProgress(ps[i]) && IsRecord(ps, c.totalWindows, i)
    ensures ObserveAll(c, ps).noProgress == Min(c.noProgress + |ps|, U32_MAX)
  {
    if ps != [] {
      var init := ps[..|ps| - 1];
      forall i | 0 <= i < |init|
        ensures NoProgress(init[i]) && IsRecord(init, c.totalWindows, i)
      {
        assert init[i] == ps[i] && IsRecord(ps, c.totalWindows, i);
        assert forall j :: 0 <= j < i ==> init[j] == ps[j];
      }
      NoProgressAccumulates(c, init);
      assert IsRecord(ps, c.totalWindows, |ps| - 1);
      RecordsAreFresh(c, ps);
    }
  }

  lemma NoProgressEndsInBlock(c: Counters, ps: seq<Payload>, b: Budget)
    requires forall i :: 0 <= i < |ps| ==> NoProgress(ps[i]) && IsRecord(ps, c.totalWindows, i)
    requires |ps| >= Max(b.maxNoProgress, 1)
    ensures Decide(ObserveAll(c, ps), b).Block?
  {
    NoProgressAccumulates(c, ps);
    DecisionNamesFirstReachedLimit(ObserveAll(c, ps), b);
    assert Reached(ObserveAll(c, ps), b, MaxNoProgress);
  }

  predicate Idle(h: Handover) { h.Continuation? && NoProgress(h.payload) }

  /** So no accepted run holds as many consecutive no-progress continuations as the limit. */
  lemma {:induction false} IdleRunsAreShort(r: Request, hs: seq<Handover>, b: Budget)
    requires WithinWindows(r, b) && Run(r, hs, b).Some?
    requires forall i :: 0 <= i < |hs| ==> Idle(hs[i])
    ensures hs != [] ==> r.usage.noProgress + |hs| < Max(b.maxNoProgress, 1)
    decreases |hs|
  {
    if hs != [] {
      assert Idle(hs[0]);
      var next := Handed(r, hs[0], b).value;
      IdleStep(r, hs[0], b);
      HandoverKeepsBound(r, hs[0], b);
      IdleRunsAreShort(next, hs[1..], b);
    }
  }

  lemma IdleStep(r: Request, h: Handover, b: Budget)
    requires WithinWindows(r, b) && WellFormed(r, h) && Idle(h) && Handed(r, h, b).Some?
    ensures Handed(r, h, b).value.usage.noProgress == r.usage.noProgress + 1 < Max(b.maxNoProgress, 1)
  {
    DecisionNamesFirstReachedLimit(Observe(r.usage, h.payload), Normalized(b));
    assert !Reached(Observe(r.usage, h.payload), Normalized(b), MaxNoProgress);
  }
}
