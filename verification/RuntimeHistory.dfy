/** Runtime generations: a bounded history that must agree with the full log of past bindings. */
module RuntimeHistory {
  import opened Common

  const HISTORY_LIMIT: nat := 128

  datatype TaskProvider = TaskProvider(id: nat, cleanupContract: string)

  /** Everything a turn snapshot captures; replaced only through `update`. */
  datatype Bindings = Bindings(
    hookRuntime: Option<nat>,
    taskProvider: Option<TaskProvider>,
    dispatchesInterrupted: bool,
    others: map<string, nat>)

  /** What a terminal effect needs from the generation it was prepared under. */
  datatype Terminal = Terminal(
    generation: nat,
    hookRuntime: Option<nat>,
    taskProvider: Option<TaskProvider>,
    cleanupContract: Option<string>)

  datatype Runtime = Runtime(
    generation: nat,
    bindings: Bindings,
    builderInputs: map<string, nat>,
    plan: Option<nat>,
    history: seq<Terminal>)

  datatype TurnSnapshot = TurnSnapshot(generation: nat, bindings: Bindings, plan: Option<nat>)

  function TerminalOf(generation: nat, b: Bindings): Terminal {
    Terminal(generation, b.hookRuntime, b.taskProvider,
             if b.taskProvider.Some? then Some(b.taskProvider.value.cleanupContract) else None)
  }

  /** A terminal view, read field by field off the bindings it stands for. */
  predicate Shows(t: Terminal, generation: nat, b: Bindings) {
    && t.generation == generation
    && t.hookRuntime == b.hookRuntime
    && t.taskProvider == b.taskProvider
    && (t.cleanupContract.Some? <==> b.taskProvider.Some?)
    && (b.taskProvider.Some? ==> t.cleanupContract == Some(b.taskProvider.value.cleanupContract))
  }

  function Fresh(generation: nat, b: Bindings): Runtime { Runtime(generation, b, map[], None, []) }

  function LastOf(xs: seq<Terminal>, n: nat): seq<Terminal> { if |xs| <= n then xs else xs[|xs| - n..] }

  function Updated(s: Runtime, next: Bindings): Runtime {
    var previous := TerminalOf(s.generation, s.bindings);
    var history :=
      if s.history == [] || s.history[|s.history| - 1].generation != previous.generation
      then LastOf(s.history + [previous], HISTORY_LIMIT)
      else s.history;
    s.(generation := Min(s.generation + 1, U64_MAX), bindings := next, plan := None, history := history)
  }

  function BuilderUpdated(s: Runtime, inputs: map<string, nat>): Runtime { s.(builderInputs := inputs) }

  /** The plan is captured at most once per generation, and only if an interrupted turn would dispatch it. */
  function PlanAfter(s: Runtime, captured: nat): Option<nat> {
    if s.plan.None? && s.bindings.dispatchesInterrupted && s.bindings.hookRuntime.Some? then Some(captured) else s.plan
  }

  function SnapshotOf(s: Runtime, captured: nat): TurnSnapshot {
    TurnSnapshot(s.generation, s.bindings, PlanAfter(s, captured))
  }

  /** Where the first entry of a generation is, or the length when there is none. */
  function IndexOf(history: seq<Terminal>, generation: nat): (i: nat)
    ensures i <= |history|
    ensures i < |history| ==> history[i].generation == generation
    ensures forall j :: 0 <= j < i ==> history[j].generation != generation
  {
    if history == [] || history[0].generation == generation then 0 else 1 + IndexOf(history[1..], generation)
  }

  function Lookup(s: Runtime, generation: nat): Terminal {
    if s.generation == generation then TerminalOf(s.generation, s.bindings)
    else
      var i := IndexOf(s.history, generation);
      if i < |s.history| then s.history[i] else TerminalOf(s.generation, s.bindings)
  }

  class NativeRuntimeDependencies {
    var generation: nat
    var bindings: Bindings
    var builderInputs: map<string, nat>
    var plan: Option<nat>
    var history: seq<Terminal>

    constructor (initialGeneration: nat, initial: Bindings)
      ensures View() == Fresh(initialGeneration, initial)
    {
      generation := initialGeneration;
      bindings := initial;
      builderInputs := map[];
      plan := None;
      history := [];
    }

    function View(): Runtime
      reads this
    {
      Runtime(generation, bindings, builderInputs, plan, history)
    }

    method Update(next: Bindings)
      modifies this
      ensures View() == Updated(old(View()), next)
    {
      var previous := TerminalOf(generation, bindings);
      if history == [] || history[|history| - 1].generation != previous.generation {
        history := history + [previous];
        ghost var pushed := history;
        ghost var dropped := 0;
        assert pushed[0..] == history;
        while |history| > HISTORY_LIMIT
          invariant View() == old(View()).(history := history)
          invariant dropped <= |pushed| && history == pushed[dropped..]
          invariant dropped > 0 ==> |history| >= HISTORY_LIMIT
        {
          history := history[1..];
          dropped := dropped + 1;
        }
      }
      bindings := next;
      generation := if generation >= U64_MAX then U64_MAX else generation + 1;
      plan := None;
    }

    method UpdateHookBuilderInput(inputs: map<string, nat>)
      modifies this
      ensures View() == BuilderUpdated(old(View()), inputs)
    {
      builderInputs := inputs;
    }

    method TerminalRuntimeSnapshotFor(wanted: nat) returns (found: Terminal)
      ensures found == Lookup(View(), wanted)
      ensures generation == wanted || (forall j :: 0 <= j < |history| ==> history[j].generation != wanted) ==>
                Shows(found, generation, bindings)
      ensures generation != wanted && (exists j :: 0 <= j < |history| && history[j].generation == wanted) ==>
                found in history && found.generation == wanted
    {
      if generation == wanted {
        return TerminalOf(generation, bindings);
      }
      var i := 0;
      while i < |history| && history[i].generation != wanted
        invariant i <= |history|
        invariant forall j :: 0 <= j < i ==> history[j].generation != wanted
      {
        i := i + 1;
      }
      found := if i < |history| then history[i] else TerminalOf(generation, bindings);
    }

    method Snapshot(captured: nat) returns (taken: TurnSnapshot)
      modifies this
      ensures taken == SnapshotOf(old(View()), captured)
      ensures View() == old(View()).(plan := PlanAfter(old(View()), captured))
    {
      if plan.None? && bindings.dispatchesInterrupted && bindings.hookRuntime.Some? {
        plan := Some(captured);
      }
      taken := TurnSnapshot(generation, bindings, plan);
    }
  }

  // ---- Runs, with the full log they are compared against ----

  datatype Step = Update(next: Bindings) | UpdateBuilder(inputs: map<string, nat>) | Take(captured: nat)

  /** `inForce[k]` is what was bound after `k` updates; `taken` is every snapshot handed out and
      `eras` the number of updates before it. */
  datatype Log = Log(runtime: Runtime, inForce: seq<Bindings>, taken: seq<TurnSnapshot>, eras: seq<nat>)

  function Begin(generation: nat, b: Bindings): Log { Log(Fresh(generation, b), [b], [], []) }

  function Next(l: Log, step: Step): Log
    requires l.inForce != []
  {
    match step
    case Update(next) => l.(runtime := Updated(l.runtime, next), inForce := l.inForce + [next])
    case UpdateBuilder(inputs) => l.(runtime := BuilderUpdated(l.runtime, inputs))
    case Take(captured) =>
      l.(runtime := l.runtime.(plan := PlanAfter(l.runtime, captured)),
         taken := l.taken + [SnapshotOf(l.runtime, captured)],
         eras := l.eras + [|l.inForce| - 1])
  }

  function Run(generation: nat, b: Bindings, steps: seq<Step>): (l: Log)
    ensures l.inForce != []
  {
    if steps == [] then Begin(generation, b)
    else Next(Run(generation, b, steps[..|steps| - 1]), steps[|steps| - 1])
  }

  /** The generation in force after `k` updates: it stops at the largest 64-bit number. */
  function GenerationAfter(first: nat, k: nat): nat { Min(first + k, U64_MAX) }

  /** How many past generations have entered the history: none twice, so a saturated one once. */
  function Pushed(l: Log, first: nat): nat
    requires l.inForce != [] && first <= U64_MAX
  {
    Min(|l.inForce| - 1, U64_MAX - first + 1)
  }

  function Oldest(l: Log, first: nat): nat
    requires l.inForce != [] && first <= U64_MAX
  {
    if Pushed(l, first) <= HISTORY_LIMIT then 0 else Pushed(l, first) - HISTORY_LIMIT
  }

  /** The terminal views of the logged generations from `from` up to but excluding `end`. */
  function Terminals(inForce: seq<Bindings>, first: nat, from: nat, end: nat): (r: seq<Terminal>)
    requires from <= end <= |inForce|
    ensures |r| == end - from
    ensures forall k :: 0 <= k < |r| ==> r[k] == TerminalOf(first + from + k, inForce[from + k])
  {
    seq(end - from, k requires 0 <= k < end - from => TerminalOf(first + from + k, inForce[from + k]))
  }

  predicate Faithful(l: Log, first: nat)
    requires l.inForce != [] && first <= U64_MAX
  {
    && l.runtime.generation == GenerationAfter(first, |l.inForce| - 1)
    && l.runtime.bindings == l.inForce[|l.inForce| - 1]
    && l.runtime.history == Terminals(l.inForce, first, Oldest(l, first), Pushed(l, first))
  }

  /** The history is always the last 128 generations that entered it, as they were bound. */
  lemma {:induction false} HistoryIsTheLogsTail(first: nat, b: Bindings, steps: seq<Step>)
    requires first <= U64_MAX
    ensures Faithful(Run(first, b, steps), first)
  {
    if steps != [] {
      var before := Run(first, b, steps[..|steps| - 1]);
      var step := steps[|steps| - 1];
      HistoryIsTheLogsTail(first, b, steps[..|steps| - 1]);
      if step.Update? {
        UpdateKeepsFaithful(before, first, step.next);
      }
    }
  }

  lemma UpdateKeepsFaithful(l: Log, first: nat, next: Bindings)
    requires l.inForce != [] && first <= U64_MAX && Faithful(l, first)
    ensures Faithful(Next(l, Step.Update(next)), first)
  {
    hide Terminals, Updated, LastOf, TerminalOf;
    var after := Next(l, Step.Update(next));
    var oldest, pushed := Oldest(l, first), Pushed(l, first);
    UpdatedHistory(l.runtime, next);
    if |l.inForce| - 1 <= U64_MAX - first {
      LastGeneration(l, first);
      OneMoreTerminal(l.inForce, next, first, oldest, pushed);
      TrimmedTerminals(after.inForce, first, oldest, pushed + 1);
    } else {
      LastGeneration(l, first);
      SameTerminals(l.inForce, next, first, oldest, pushed);
    }
  }

  /** The newest entry of the history is the generation before the current one, or the saturated one. */
  lemma LastGeneration(l: Log, first: nat)
    requires l.inForce != [] && first <= U64_MAX && Faithful(l, first)
    ensures (l.runtime.history == [] <==> |l.inForce| == 1)
    ensures l.runtime.history != [] ==>
              l.runtime.history[|l.runtime.history| - 1].generation == first + Pushed(l, first) - 1
  {
    hide Terminals;
  }

  /** An update pushes the replaced generation unless the newest entry already has its number. */
  lemma UpdatedHistory(s: Runtime, next: Bindings)
    ensures var u := Updated(s, next);
            && u.generation == Min(s.generation + 1, U64_MAX) && u.bindings == next
            && u.history == if s.history == [] || s.history[|s.history| - 1].generation != s.generation
                            then LastOf(s.history + [TerminalOf(s.generation, s.bindings)], HISTORY_LIMIT)
                            else s.history
  {
    hide LastOf;
  }

  lemma SameTerminals(inForce: seq<Bindings>, next: Bindings, first: nat, from: nat, end: nat)
    requires from <= end <= |inForce|
    ensures Terminals(inForce + [next], first, from, end) == Terminals(inForce, first, from, end)
  {
  }

  lemma OneMoreTerminal(inForce: seq<Bindings>, next: Bindings, first: nat, from: nat, end: nat)
    requires from <= end < |inForce|
    ensures Terminals(inForce + [next], first, from, end + 1)
            == Terminals(inForce, first, from, end) + [TerminalOf(first + end, inForce[end])]
  {
  }

  lemma TrimmedTerminals(inForce: seq<Bindings>, first: nat, from: nat, end: nat)
    requires from <= end <= |inForce| && end - from <= HISTORY_LIMIT + 1
    ensures LastOf(Terminals(inForce, first, from, end), HISTORY_LIMIT)
            == Terminals(inForce, first, if end - from <= HISTORY_LIMIT then from else from + 1, end)
  {
  }

  /** The generation is past and still in the history. */
  predicate Retained(l: Log, first: nat, generation: nat)
    requires l.inForce != [] && first <= U64_MAX
  {
    first + Oldest(l, first) <= generation < l.runtime.generation
  }

  /** In every run a past generation still in the history is looked up exactly as it was bound,
      hooks, task provider and cleanup contract; any other, the saturated one included, gives what is bound now. */
  lemma LookupAgreesWithTheLog(first: nat, b: Bindings, steps: seq<Step>, generation: nat)
    requires first <= U64_MAX
    ensures var l := Run(first, b, steps);
            && l.runtime.generation == GenerationAfter(first, |l.inForce| - 1)
            && (Retained(l, first, generation) ==>
                  && generation - first < |l.inForce|
                  && Shows(Lookup(l.runtime, generation), generation, l.inForce[generation - first]))
            && (!Retained(l, first, generation) ==>
                  Shows(Lookup(l.runtime, generation), l.runtime.generation, l.inForce[|l.inForce| - 1]))
  {
    hide Run;
    HistoryIsTheLogsTail(first, b, steps);
    FaithfulLookup(Run(first, b, steps), first, generation);
  }

  lemma FaithfulLookup(l: Log, first: nat, generation: nat)
    requires l.inForce != [] && first <= U64_MAX && Faithful(l, first)
    ensures Retained(l, first, generation) ==>
              && generation - first < |l.inForce|
              && Lookup(l.runtime, generation) == TerminalOf(generation, l.inForce[generation - first])
    ensures !Retained(l, first, generation) ==>
              Lookup(l.runtime, generation) == TerminalOf(l.runtime.generation, l.inForce[|l.inForce| - 1])
  {
    hide Terminals, IndexOf;
    var history := l.runtime.history;
    var i := IndexOf(history, generation);
    if i < |history| {
      assert history[i].generation == first + Oldest(l, first) + i;
    }
    if Retained(l, first, generation) {
      var k := generation - first - Oldest(l, first);
      assert history[k].generation == generation;
    }
  }

  // ---- Snapshots of one generation agree ----

  ghost predicate Agrees(l: Log, first: nat)
    requires l.inForce != []
  {
    && |l.eras| == |l.taken|
    && (l.runtime.plan.Some? ==> l.runtime.bindings.dispatchesInterrupted && l.runtime.bindings.hookRuntime.Some?)
    && (forall i :: 0 <= i < |l.taken| ==>
          && l.eras[i] <= |l.inForce| - 1
          && l.taken[i].generation == GenerationAfter(first, l.eras[i])
          && (l.taken[i].plan.Some? <==>
                l.taken[i].bindings.dispatchesInterrupted && l.taken[i].bindings.hookRuntime.Some?)
          && (l.eras[i] == |l.inForce| - 1 ==>
                l.taken[i] == TurnSnapshot(l.runtime.generation, l.runtime.bindings, l.runtime.plan)))
    && (forall i, j :: 0 <= i < j < |l.taken| && l.eras[i] == l.eras[j] ==> l.taken[i] == l.taken[j])
  }

  lemma {:induction false} RunAgrees(first: nat, b: Bindings, steps: seq<Step>)
    requires first <= U64_MAX
    ensures Agrees(Run(first, b, steps), first)
  {
    hide Updated, Faithful, Agrees;
    if steps == [] {
      BeginAgrees(first, b);
    } else {
      var before := Run(first, b, steps[..|steps| - 1]);
      HistoryIsTheLogsTail(first, b, steps[..|steps| - 1]);
      RunAgrees(first, b, steps[..|steps| - 1]);
      NextAgrees(before, first, steps[|steps| - 1]);
    }
  }

  lemma BeginAgrees(first: nat, b: Bindings)
    ensures Agrees(Begin(first, b), first)
  {
  }

  lemma NextAgrees(l: Log, first: nat, step: Step)
    requires l.inForce != [] && first <= U64_MAX && Faithful(l, first) && Agrees(l, first)
    ensures Agrees(Next(l, step), first)
  {
    hide Terminals;
    assert l.runtime.generation == GenerationAfter(first, |l.inForce| - 1);
  }

  /** All snapshots between two updates are one snapshot, and so are all snapshots of one
      generation short of the last number; each has a plan exactly if interruption dispatches hooks. */
  lemma SnapshotsOfOneGenerationAgree(first: nat, b: Bindings, steps: seq<Step>, i: nat, j: nat)
    requires first <= U64_MAX
    requires i < |Run(first, b, steps).taken| && j < |Run(first, b, steps).taken|
    ensures var l := Run(first, b, steps);
            && |l.eras| == |l.taken|
            && (l.eras[i] == l.eras[j] ==> l.taken[i] == l.taken[j])
            && (l.taken[i].generation == l.taken[j].generation < U64_MAX ==> l.eras[i] == l.eras[j])
            && (l.taken[i].plan.Some? <==>
                  l.taken[i].bindings.dispatchesInterrupted && l.taken[i].bindings.hookRuntime.Some?)
  {
    RunAgrees(first, b, steps);
  }

  /** Once the generation is saturated one number stands for different bindings. */
  lemma SaturatedGenerationIsShared(first: nat, b: Bindings, steps: seq<Step>, next: Bindings, captured: nat)
    requires first <= U64_MAX && GenerationAfter(first, |Run(first, b, steps).inForce| - 1) == U64_MAX
    requires next != Run(first, b, steps).runtime.bindings
    ensures var l := Run(first, b, steps);
            var u := Next(Next(Next(l, Take(captured)), Step.Update(next)), Take(captured));
            && u == Run(first, b, steps + [Take(captured), Step.Update(next), Take(captured)])
            && u.taken[|l.taken|].generation == u.taken[|l.taken| + 1].generation == U64_MAX
            && u.taken[|l.taken|].bindings != u.taken[|l.taken| + 1].bindings
  {
    hide Run, Updated, Faithful;
    var take, update := Take(captured), Step.Update(next);
    RunThen(first, b, steps, take);
    RunThen(first, b, steps + [take], update);
    RunThen(first, b, steps + [take] + [update], take);
    assert steps + [take, update, take] == steps + [take] + [update] + [take];
    SaturatedUpdate(first, b, steps, next);
  }

  lemma SaturatedUpdate(first: nat, b: Bindings, steps: seq<Step>, next: Bindings)
    requires first <= U64_MAX && GenerationAfter(first, |Run(first, b, steps).inForce| - 1) == U64_MAX
    ensures var l := Run(first, b, steps);
            && l.runtime.generation == U64_MAX
            && forall plan :: Updated(l.runtime.(plan := plan), next).generation == U64_MAX
                              && Updated(l.runtime.(plan := plan), next).bindings == next
  {
    hide Run;
    HistoryIsTheLogsTail(first, b, steps);
  }

  lemma RunThen(first: nat, b: Bindings, steps: seq<Step>, step: Step)
    ensures Run(first, b, steps + [step]) == Next(Run(first, b, steps), step)
  {
    assert (steps + [step])[..|steps|] == steps;
  }
}
