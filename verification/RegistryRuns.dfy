/**
 What the control-operation table promises over any run of calls with a
 non-decreasing clock: its oldest-first list stays sorted by last admission or
 completion, and saturation is bounded in time.
 */
module RegistryRuns {
  import opened Common
  import opened ControlRegistry
  import opened RegistryLaws

  datatype Step =
    | BeginStep(id: OpId, generation: nat, now: nat)
    | MarkStep(id: OpId, generation: nat, now: nat)
    | AbandonStep(id: OpId, generation: nat, now: nat)
    | CompleteStep(id: OpId, generation: nat, outcome: Outcome, now: nat)
    | GateStep(now: nat)

  /** A registry together with when each operation entered its current state and
      with the number of the admission or completion that last moved it. */
  datatype Trace = Trace(reg: Registry, clock: nat, ticks: nat, since: map<OpId, nat>, stamp: map<OpId, nat>)

  function StepRegistry(s: Registry, step: Step): Registry {
    match step
    case BeginStep(id, g, now) => Begin(s, id, g, now).0
    case MarkStep(id, g, now) => MarkEnqueued(s, id, g, now)
    case AbandonStep(id, g, _) => Abandon(s, id, g)
    case CompleteStep(id, g, o, _) => CompleteWith(s, id, g, o).0
    case GateStep(now) => Pruned(s, now)
  }

  predicate Admits(s: Registry, step: Step) {
    step.BeginStep? && Begin(s, step.id, step.generation, step.now).1.Fresh?
  }

  predicate Records(s: Registry, step: Step) {
    && step.CompleteStep? && step.id in s.entries
    && s.entries[step.id].generation == step.generation && s.entries[step.id].Pending()
  }

  predicate Accepts(s: Registry, step: Step) {
    && step.MarkStep? && step.id in s.entries
    && s.entries[step.id].generation == step.generation && s.entries[step.id].state.Dispatching?
  }

  function Next(t: Trace, step: Step): Trace {
    Trace(StepRegistry(t.reg, step),
          step.now,
          t.ticks + 1,
          if Admits(t.reg, step) || Accepts(t.reg, step) || Records(t.reg, step) then t.since[step.id := step.now] else t.since,
          if Admits(t.reg, step) || Records(t.reg, step) then t.stamp[step.id := t.ticks] else t.stamp)
  }

  function Run(t: Trace, steps: seq<Step>): Trace
    decreases |steps|
  {
    if steps == [] then t else Run(Next(t, steps[0]), steps[1..])
  }

  ghost predicate WellTimed(clock: nat, steps: seq<Step>)
    decreases |steps|
  {
    steps != [] ==> clock <= steps[0].now && WellTimed(steps[0].now, steps[1..])
  }

  function Start(config: Config, clockMax: nat): Trace { Trace(New(config, clockMax), 0, 0, map[], map[]) }

  function TimeoutOf(s: Registry, state: OpState): nat
    requires !state.Completed?
  {
    if state.Dispatching? then s.config.enqueueTimeout else s.config.ackTimeout
  }

  ghost predicate Dated(t: Trace, k: OpId)
    requires k in t.reg.entries
  {
    && k in t.since && t.since[k] <= t.clock
    && (t.reg.entries[k].Pending() ==>
          t.reg.entries[k].state.deadline
          == DeadlineAfter(t.since[k], TimeoutOf(t.reg, t.reg.entries[k].state), t.reg.clockMax))
  }

  ghost predicate TraceInv(t: Trace) {
    && Valid(t.reg)
    && SortedBy(t.reg.order, t.stamp)
    && (forall k :: k in t.stamp ==> t.stamp[k] < t.ticks)
    && (forall k :: k in t.reg.entries ==> Dated(t, k))
  }

  lemma StepKeepsValid(s: Registry, step: Step)
    requires Valid(s)
    ensures Valid(StepRegistry(s, step))
    ensures StepRegistry(s, step).config == s.config && StepRegistry(s, step).clockMax == s.clockMax
  {
    hide Begin, Valid, Without, Filter, NoDup;
    match step
    case BeginStep(id, g, now) =>
      BeginKeepsValid(s, id, g, now);
      if Begin(s, id, g, now).1.Fresh? { var v := FreshAdmission(s, id, g, now); }
      else { RefusalChangesNothing(s, id, g, now); }
    case MarkStep(id, g, now) => MarkKeepsValid(s, id, g, now);
    case AbandonStep(id, g, _) => AbandonKeepsValid(s, id, g);
    case CompleteStep(id, g, o, _) => CompleteKeepsValid(s, id, g, o);
    case GateStep(now) => PrunedKeepsValid(s, now);
  }

  /** Only the operation a step names can gain or change an entry. */
  lemma StepIsLocal(s: Registry, step: Step, k: OpId)
    requires Valid(s)
    requires k in StepRegistry(s, step).entries
    ensures k in s.entries || (Admits(s, step) && k == step.id)
    ensures !(k in s.entries && StepRegistry(s, step).entries[k] == s.entries[k]) ==>
      (Admits(s, step) || Accepts(s, step) || Records(s, step)) && k == step.id
  {
    hide Begin, Without, Filter, NoDup;
    match step
    case BeginStep(id, g, now) => BeginEffect(s, id, g, now);
    case MarkStep(_, _, _) =>
    case AbandonStep(_, _, _) =>
    case CompleteStep(_, _, _, _) =>
    case GateStep(_) =>
  }

  lemma StepKeepsOrderSorted(t: Trace, step: Step)
    requires TraceInv(t)
    ensures SortedBy(Next(t, step).reg.order, Next(t, step).stamp)
  {
    hide Begin, Filter, NoDup, Valid, SortedBy, Without;
    var s := t.reg;
    match step
    case BeginStep(id, g, now) => BeginKeepsOrderSorted(t, id, g, now);
    case MarkStep(_, _, _) =>
    case AbandonStep(id, g, _) => WithoutSorted(s.order, id, t.stamp);
    case CompleteStep(id, g, o, _) =>
      WithoutSorted(s.order, id, t.stamp);
      AppendSorted(Without(s.order, id), id, t.stamp, t.ticks);
    case GateStep(now) => FilterSorted(s.order, k => !s.Unaccepted(k, now), t.stamp);
  }

  lemma BeginKeepsOrderSorted(t: Trace, id: OpId, g: nat, now: nat)
    requires TraceInv(t)
    ensures SortedBy(Next(t, BeginStep(id, g, now)).reg.order, Next(t, BeginStep(id, g, now)).stamp)
  {
    hide Begin, Filter, NoDup, SortedBy;
    var s := t.reg;
    if Begin(s, id, g, now).1.Fresh? {
      var v := FreshAdmission(s, id, g, now);
      var gone := if v.Some? then v.value else id;
      WithoutSorted(s.order, gone, t.stamp);
      AppendSorted(Without(s.order, gone), id, t.stamp, t.ticks);
    } else {
      RefusalChangesNothing(s, id, g, now);
    }
  }

  lemma AppendSorted(xs: seq<OpId>, x: OpId, rank: map<OpId, nat>, top: nat)
    requires SortedBy(xs, rank) && x !in xs
    requires forall k :: k in rank ==> rank[k] < top
    ensures SortedBy(xs + [x], rank[x := top])
  {
    var r := rank[x := top];
    assert forall i :: 0 <= i < |xs| ==> xs[i] in xs && r[xs[i]] == rank[xs[i]];
  }

  lemma StepKeepsDates(t: Trace, step: Step, k: OpId)
    requires TraceInv(t) && t.clock <= step.now
    requires k in Next(t, step).reg.entries
    ensures Dated(Next(t, step), k)
  {
    hide Begin, Pruned, NoDup, SortedBy, Valid, StepRegistry, Dated;
    StepKeepsValid(t.reg, step);
    StepIsLocal(t.reg, step, k);
    if (Admits(t.reg, step) || Accepts(t.reg, step) || Records(t.reg, step)) && k == step.id {
      NamedIsDated(t, step);
    } else {
      assert Dated(t, k);
      UnnamedIsDated(t, step, k);
    }
  }

  /** An entry nobody named keeps its date. */
  lemma UnnamedIsDated(t: Trace, step: Step, k: OpId)
    requires t.clock <= step.now && k in t.reg.entries && Dated(t, k)
    requires k in StepRegistry(t.reg, step).entries && StepRegistry(t.reg, step).entries[k] == t.reg.entries[k]
    requires (Admits(t.reg, step) || Accepts(t.reg, step) || Records(t.reg, step)) ==> k != step.id
    requires StepRegistry(t.reg, step).config == t.reg.config && StepRegistry(t.reg, step).clockMax == t.reg.clockMax
    ensures Dated(Next(t, step), k)
  {
    hide StepRegistry, Admits, Accepts, Records;
  }

  /** An entry that was just admitted, accepted or completed is dated now. */
  lemma NamedIsDated(t: Trace, step: Step)
    requires TraceInv(t) && (Admits(t.reg, step) || Accepts(t.reg, step) || Records(t.reg, step))
    requires step.id in Next(t, step).reg.entries
    ensures Dated(Next(t, step), step.id)
  {
    hide Begin, Pruned, NoDup, SortedBy, Without;
    if Admits(t.reg, step) {
      var v := FreshAdmission(t.reg, step.id, step.generation, step.now);
    }
  }

  lemma StepKeepsTrace(t: Trace, step: Step)
    requires TraceInv(t) && t.clock <= step.now
    ensures TraceInv(Next(t, step))
  {
    hide StepRegistry, SortedBy, Valid, Dated;
    StepKeepsValid(t.reg, step);
    StepKeepsOrderSorted(t, step);
    forall k | k in Next(t, step).reg.entries
      ensures Dated(Next(t, step), k)
    {
      StepKeepsDates(t, step, k);
    }
  }

  lemma {:induction false} RunKeepsTrace(t: Trace, steps: seq<Step>)
    requires TraceInv(t) && WellTimed(t.clock, steps)
    ensures TraceInv(Run(t, steps))
    decreases |steps|
  {
    if steps != [] {
      StepKeepsTrace(t, steps[0]);
      RunKeepsTrace(Next(t, steps[0]), steps[1..]);
    }
  }

  /** After any run the list is duplicate-free, matches the table, fits the capacity
      and is sorted by last admission or completion. */
  lemma TableStaysConsistent(config: Config, clockMax: nat, steps: seq<Step>)
    requires WellTimed(0, steps)
    ensures var t := Run(Start(config, clockMax), steps);
      && Valid(t.reg)
      && |t.reg.order| == |t.reg.entries| <= MAX_CAPACITY
      && SortedBy(t.reg.order, t.stamp)
  {
    RunKeepsTrace(Start(config, clockMax), steps);
    StartConfig(config, clockMax, steps);
    OrderCounts(Run(Start(config, clockMax), steps).reg);
  }

  lemma {:induction false} RunConfig(t: Trace, steps: seq<Step>)
    requires TraceInv(t) && WellTimed(t.clock, steps)
    ensures Run(t, steps).reg.config == t.reg.config
    decreases |steps|
  {
    if steps != [] {
      StepKeepsTrace(t, steps[0]);
      StepKeepsValid(t.reg, steps[0]);
      RunConfig(Next(t, steps[0]), steps[1..]);
    }
  }

  lemma StartConfig(config: Config, clockMax: nat, steps: seq<Step>)
    requires WellTimed(0, steps)
    ensures Run(Start(config, clockMax), steps).reg.config == Normalized(config)
  {
    RunConfig(Start(config, clockMax), steps);
  }

  /** Saturation is bounded in time: it means that every slot holds a pending operation
      which entered its present state within the last two minutes. */
  lemma SaturationIsRecent(config: Config, clockMax: nat, steps: seq<Step>, id: OpId, generation: nat, now: nat)
    requires WellTimed(0, steps)
    requires Run(Start(config, clockMax), steps).clock <= now
    requires Begin(Run(Start(config, clockMax), steps).reg, id, generation, now).1.Saturated?
    ensures var t := Run(Start(config, clockMax), steps);
      && |t.reg.entries| == Normalized(config).capacity
      && forall k :: k in t.reg.entries ==>
           t.reg.entries[k].Pending() && k in t.since && t.since[k] <= now < t.since[k] + MAX_ACK_TIMEOUT
  {
    hide Begin, Run, WellTimed;
    var t := Run(Start(config, clockMax), steps);
    RunKeepsTrace(Start(config, clockMax), steps);
    StartConfig(config, clockMax, steps);
    AdmissionDecision(t.reg, id, generation, now);
    forall k | k in t.reg.entries
      ensures t.reg.entries[k].Pending() && k in t.since && t.since[k] <= now < t.since[k] + MAX_ACK_TIMEOUT
    {
      assert Dated(t, k);
    }
  }
}
