/**
 Actor ownership in the manager: creation, fencing, removal and retirement
 under one creation lock. Each await of a lock holder is a step boundary, and
 between its steps the actors, the callers of every registry and the clock may
 move. Generations are never recycled, a call for an old generation cannot
 touch its replacement, and joined actors leave exact tombstones.
 */
module ActorOwnership {
  import opened Common
  import opened ControlRegistry
  import RegistryLaws
  import Runs = RegistryRuns
  import L = RetiredLedger

  datatype Handle = Handle(workspaceId: string, generation: nat)

  datatype Task = Task(threadId: string, finished: bool, joined: bool)

  /** What the holder of the creation lock does once an old actor is gone. */
  datatype After = Release | ThenSpawn(workspaceId: string)

  datatype Job =
    | EnsureCheck(threadId: string, workspaceId: string)
    | EnsureSpawn(threadId: string, workspaceId: string)
    | EnsureInsert(threadId: string, workspaceId: string, generation: nat)
    | Removing(threadId: string, after: After)
    | FenceCheck(threadId: string, generation: nat)
    | RetireCheck(threadId: string, generation: nat, deadline: nat)
    | Draining(threadId: string, generation: nat, after: After)
    | Joined(threadId: string, generation: nat, after: After)

  /** `aborted` and `atJoin` are history: whose tasks were aborted, and which outcomes an
      actor had recorded when its task was joined. */
  datatype Manager = Manager(
    config: Config, clockMax: nat, now: nat,
    threads: map<string, Handle>, nextGeneration: nat,
    tasks: map<nat, Task>, registries: map<nat, Registry>,
    ledger: L.Ledger, lock: Option<Job>,
    aborted: set<nat>, atJoin: map<nat, map<OpId, Outcome>>)

  datatype Step =
    | Tick(elapsed: nat)
    | ActorEnds(generation: nat)
    | RegistryCall(generation: nat, call: Runs.Step)
    | Acquire(job: Job)
    | Advance(otherTurnActive: bool)

  function Start(config: Config, clockMax: nat): (m: Manager)
    ensures Inv(m)
  {
    Manager(config, clockMax, 0, map[], 1, map[], map[], L.NewLedger(L.RETIRED_CAPACITY), None, {}, map[])
  }

  predicate Callable(job: Job) {
    job.EnsureCheck? || (job.Removing? && job.after.Release?) || job.FenceCheck? || job.RetireCheck?
  }

  predicate Enabled(m: Manager, step: Step) {
    match step
    case Tick(_) => true
    case ActorEnds(g) => g in m.tasks
    case RegistryCall(g, call) =>
      && g in m.registries && g in m.tasks && call.now == m.now
      && (call.CompleteStep? ==> !m.tasks[g].finished)
    case Acquire(job) => m.lock.None? && Callable(job)
    case Advance(_) =>
      m.lock.Some? && (m.lock.value.Draining? ==>
                         m.lock.value.generation in m.tasks && m.tasks[m.lock.value.generation].finished)
  }

  function Unlock(m: Manager): Manager { m.(lock := None) }

  function Goto(m: Manager, job: Job): Manager { m.(lock := Some(job)) }

  /** Prune the registry of an actor and write what is left of it to the ledger. */
  function RecordTombstones(m: Manager, threadId: string, g: nat): Manager
    requires g in m.registries
    requires Valid(m.registries[g])
  {
    var r := Pruned(m.registries[g], m.now);
    PrunedKeepsValid(m.registries[g], m.now);
    m.(registries := m.registries[g := r], ledger := L.Record(m.ledger, threadId, SnapshotOf(r, r.order)))
  }

  /** Take an actor out of the registry of threads, and record its first tombstones. */
  function TakeOut(m: Manager, threadId: string, after: After, abort: bool): Manager
    requires threadId in m.threads && m.threads[threadId].generation in m.registries
    requires Valid(m.registries[m.threads[threadId].generation])
  {
    var g := m.threads[threadId].generation;
    Goto(RecordTombstones(m.(threads := m.threads - {threadId}, aborted := if abort then m.aborted + {g} else m.aborted),
                          threadId, g),
         Draining(threadId, g, after))
  }

  function Continue(m: Manager, threadId: string, after: After): Manager {
    match after
    case Release => Unlock(m)
    case ThenSpawn(ws) => Goto(m, EnsureSpawn(threadId, ws))
  }

  function AdvanceJob(m: Manager, job: Job, otherTurnActive: bool): Manager
    requires Inv(m) && m.lock == Some(job) && Enabled(m, Advance(otherTurnActive))
  {
    match job
    case EnsureCheck(t, ws) =>
      if t !in m.threads then Goto(m, EnsureSpawn(t, ws))
      else if m.threads[t].workspaceId != ws then Unlock(m)
      else if !m.tasks[m.threads[t].generation].finished then Unlock(m)
      else Goto(m, Removing(t, ThenSpawn(ws)))
    case EnsureSpawn(t, ws) =>
      var g := m.nextGeneration;
      Goto(m.(nextGeneration := g + 1, tasks := m.tasks[g := Task(t, false, false)],
              registries := m.registries[g := New(m.config, m.clockMax)]),
           EnsureInsert(t, ws, g))
    case EnsureInsert(t, ws, g) => Unlock(m.(threads := m.threads[t := Handle(ws, g)]))
    case Removing(t, after) =>
      if t !in m.threads then Continue(m, t, after) else TakeOut(m, t, after, false)
    case FenceCheck(t, g) =>
      if t !in m.threads || m.threads[t].generation != g then Unlock(m) else TakeOut(m, t, Release, true)
    case RetireCheck(t, g, deadline) =>
      if t !in m.threads || m.threads[t].generation != g || otherTurnActive then Unlock(m)
      else
        var r := Pruned(m.registries[g], m.now);
        if GateOver(r, r.order, m.now).WaitUntil? && m.now < deadline
        then Unlock(m.(registries := m.registries[g := r]))
        else TakeOut(m, t, Release, true)
    case Draining(t, g, after) =>
      Goto(m.(tasks := m.tasks[g := m.tasks[g].(joined := true)],
              aborted := m.aborted + {g},
              atJoin := m.atJoin[g := Recorded(m.registries[g])]),
           Joined(t, g, after))
    case Joined(t, g, after) => Continue(RecordTombstones(m, t, g), t, after)
  }

  function Recorded(s: Registry): map<OpId, Outcome> {
    map k | k in s.entries && s.entries[k].state.Completed? :: s.entries[k].state.outcome
  }

  function Next(m: Manager, step: Step): Manager
    requires Inv(m) && Enabled(m, step)
  {
    match step
    case Tick(d) => m.(now := m.now + d)
    case ActorEnds(g) => m.(tasks := m.tasks[g := m.tasks[g].(finished := true)])
    case RegistryCall(g, call) => m.(registries := m.registries[g := Runs.StepRegistry(m.registries[g], call)])
    case Acquire(job) => Goto(m, job)
    case Advance(other) => AdvanceJob(m, m.lock.value, other)
  }

  // ------------------------------------------------------------------------- invariant

  /** The generation whose task the lock holder alone is responsible for. */
  function InFlight(job: Job): Option<nat> {
    match job
    case EnsureInsert(_, _, g) => Some(g)
    case Draining(_, g, _) => Some(g)
    case _ => None
  }

  predicate Clearing(job: Job) { job.EnsureSpawn? || job.EnsureInsert? || job.Draining? || job.Joined? }

  ghost predicate JobOk(m: Manager, job: Job) {
    && (Clearing(job) ==> job.threadId !in m.threads)
    && (job.EnsureInsert? || job.Draining? || job.Joined? ==>
          job.generation in m.tasks && m.tasks[job.generation].threadId == job.threadId)
    && (job.EnsureInsert? || job.Draining? ==> !m.tasks[job.generation].joined)
    && (job.Joined? ==> m.tasks[job.generation].joined)
  }

  /** Every outcome on record was already there when the actor was joined. */
  ghost predicate Frozen(s: Registry, atJoin: map<OpId, Outcome>) {
    forall k :: k in s.entries && s.entries[k].state.Completed? ==> k in atJoin && atJoin[k] == s.entries[k].state.outcome
  }

  ghost predicate TaskOk(m: Manager, g: nat)
    requires g in m.tasks
  {
    && g < m.nextGeneration && g in m.registries
    && Valid(m.registries[g]) && m.registries[g].config == Normalized(m.config)
    && (!m.tasks[g].joined ==>
          || (m.tasks[g].threadId in m.threads && m.threads[m.tasks[g].threadId].generation == g)
          || (m.lock.Some? && InFlight(m.lock.value) == Some(g)))
    && (m.tasks[g].joined ==> m.tasks[g].finished && g in m.atJoin && Frozen(m.registries[g], m.atJoin[g]))
  }

  ghost predicate Inv(m: Manager) {
    && L.Consistent(m.ledger) && m.ledger.capacity == L.RETIRED_CAPACITY
    && (forall g :: g in m.tasks ==> TaskOk(m, g))
    && (forall t :: t in m.threads ==>
          m.threads[t].generation in m.tasks && m.tasks[m.threads[t].generation].threadId == t
          && !m.tasks[m.threads[t].generation].joined)
    && (m.lock.Some? ==> JobOk(m, m.lock.value))
  }

  lemma NewIsValid(config: Config, clockMax: nat)
    ensures Valid(New(config, clockMax)) && New(config, clockMax).config == Normalized(config)
  {
  }

  /** After the actor has ended nobody can add an outcome to its registry. */
  lemma CallKeepsFrozen(s: Registry, call: Runs.Step, atJoin: map<OpId, Outcome>)
    requires Valid(s) && Frozen(s, atJoin) && !call.CompleteStep?
    ensures Frozen(Runs.StepRegistry(s, call), atJoin)
  {
    hide Valid, Runs.StepRegistry;
    var r := Runs.StepRegistry(s, call);
    forall k | k in r.entries && r.entries[k].state.Completed?
      ensures k in atJoin && atJoin[k] == r.entries[k].state.outcome
    {
      Runs.StepIsLocal(s, call, k);
      CallNeverCompletes(s, call, k);
    }
  }

  lemma CallNeverCompletes(s: Registry, call: Runs.Step, k: OpId)
    requires Valid(s) && !call.CompleteStep?
    requires k in Runs.StepRegistry(s, call).entries && Runs.StepRegistry(s, call).entries[k].state.Completed?
    ensures k in s.entries && Runs.StepRegistry(s, call).entries[k] == s.entries[k]
  {
    hide Begin, Valid, Without, Filter;
    Runs.StepIsLocal(s, call, k);
    if call.BeginStep? {
      RegistryLaws.BeginEffect(s, call.id, call.generation, call.now);
    }
  }

  lemma RegistryCallKeepsInv(m: Manager, g: nat, call: Runs.Step)
    requires Inv(m) && Enabled(m, RegistryCall(g, call))
    ensures Inv(Next(m, RegistryCall(g, call)))
  {
    hide Valid, Runs.StepRegistry, Frozen, L.Consistent;
    var u := Next(m, RegistryCall(g, call));
    assert TaskOk(m, g);
    Runs.StepKeepsValid(m.registries[g], call);
    if m.tasks[g].joined { CallKeepsFrozen(m.registries[g], call, m.atJoin[g]); }
    forall h | h in u.tasks ensures TaskOk(u, h) { assert TaskOk(m, h); }
  }

  lemma PrunedFacts(m: Manager, g: nat)
    requires Inv(m) && g in m.tasks
    ensures Valid(m.registries[g]) && Valid(Pruned(m.registries[g], m.now))
    ensures Pruned(m.registries[g], m.now).config == Normalized(m.config)
    ensures m.tasks[g].joined ==> Frozen(Pruned(m.registries[g], m.now), m.atJoin[g])
  {
    hide Filter, L.Consistent;
    assert TaskOk(m, g);
    PrunedKeepsValid(m.registries[g], m.now);
  }

  /** Recording tombstones keeps everything the invariant says about the threads and tasks. */
  lemma RecordKeepsInv(m: Manager, threadId: string, g: nat)
    requires Inv(m) && g in m.tasks
    ensures g in m.registries && Valid(m.registries[g]) && Inv(RecordTombstones(m, threadId, g))
  {
    hide Valid, Pruned, Frozen, L.Consistent, L.Record, SnapshotOf;
    PrunedFacts(m, g);
    PrunedKeepsValid(m.registries[g], m.now);
    var r := Pruned(m.registries[g], m.now);
    OrderListed(r);
    L.RecordKeepsConsistent(m.ledger, threadId, SnapshotOf(r, r.order));
    var u := RecordTombstones(m, threadId, g);
    forall h | h in u.tasks ensures TaskOk(u, h) { assert TaskOk(m, h); }
  }

  lemma OrderListed(s: Registry)
    requires Valid(s)
    ensures forall k :: k in s.order <==> k in s.entries
  {
  }

  lemma TakeOutKeepsInv(m: Manager, t: string, after: After, abort: bool)
    requires Inv(m) && t in m.threads
    requires m.lock.Some? && !Clearing(m.lock.value)
    ensures var g := m.threads[t].generation;
      g in m.registries && Valid(m.registries[g]) && Inv(TakeOut(m, t, after, abort))
  {
    hide Valid, Frozen, L.Consistent, RecordTombstones;
    var g := m.threads[t].generation;
    PrunedFacts(m, g);
    assert TaskOk(m, g);
    var m1 := m.(threads := m.threads - {t}, aborted := if abort then m.aborted + {g} else m.aborted,
                 lock := Some(Draining(t, g, after)));
    assert Inv(m1) by {
      forall h | h in m1.tasks ensures TaskOk(m1, h) { assert TaskOk(m, h); }
    }
    RecordKeepsInv(m1, t, g);
    RecordIgnoresLock(m1, t, g, m.lock);
  }

  lemma RecordIgnoresLock(m: Manager, t: string, g: nat, lock: Option<Job>)
    requires g in m.registries && Valid(m.registries[g])
    ensures RecordTombstones(m, t, g) == RecordTombstones(m.(lock := lock), t, g).(lock := m.lock)
  {
    hide Valid, L.Record;
  }

  lemma LockKeepsInv(m: Manager, lock: Option<Job>)
    requires Inv(m)
    requires m.lock.Some? && InFlight(m.lock.value).Some? ==> lock.Some? && InFlight(lock.value) == InFlight(m.lock.value)
    requires lock.Some? ==> JobOk(m, lock.value)
    ensures Inv(m.(lock := lock))
  {
    hide Valid, Frozen, L.Consistent;
    var u := m.(lock := lock);
    forall h | h in u.tasks ensures TaskOk(u, h) { assert TaskOk(m, h); }
  }

  lemma NextIsNew(m: Manager)
    requires Inv(m)
    ensures m.nextGeneration !in m.tasks
  {
    hide Valid, Frozen, L.Consistent;
    forall g | g in m.tasks ensures g < m.nextGeneration { assert TaskOk(m, g); }
  }

  lemma SpawnKeepsInv(m: Manager, t: string, ws: string)
    requires Inv(m) && m.lock == Some(EnsureSpawn(t, ws))
    ensures Inv(AdvanceJob(m, EnsureSpawn(t, ws), false))
  {
    hide Frozen, L.Consistent, Valid, New;
    NewIsValid(m.config, m.clockMax);
    var u := AdvanceJob(m, EnsureSpawn(t, ws), false);
    var g := m.nextGeneration;
    NextIsNew(m);
    forall h | h in u.tasks
      ensures TaskOk(u, h)
    {
      if h != g { assert TaskOk(m, h); }
    }
  }

  lemma InsertKeepsInv(m: Manager, t: string, ws: string, g: nat)
    requires Inv(m) && m.lock == Some(EnsureInsert(t, ws, g))
    ensures Inv(AdvanceJob(m, EnsureInsert(t, ws, g), false))
  {
    hide Valid, Frozen, L.Consistent;
    var u := AdvanceJob(m, EnsureInsert(t, ws, g), false);
    forall h | h in u.tasks ensures TaskOk(u, h) { assert TaskOk(m, h); }
  }

  lemma JoinKeepsInv(m: Manager, t: string, g: nat, after: After)
    requires Inv(m) && m.lock == Some(Draining(t, g, after)) && Enabled(m, Advance(false))
    ensures Inv(AdvanceJob(m, Draining(t, g, after), false))
  {
    hide Valid, L.Consistent;
    var u := AdvanceJob(m, Draining(t, g, after), false);
    assert TaskOk(m, g);
    forall h | h in u.tasks ensures TaskOk(u, h) { assert TaskOk(m, h); }
  }

  lemma RetireKeepsInv(m: Manager, t: string, g: nat, deadline: nat, other: bool)
    requires Inv(m) && m.lock == Some(RetireCheck(t, g, deadline))
    ensures Inv(AdvanceJob(m, RetireCheck(t, g, deadline), other))
  {
    hide Valid, Frozen, L.Consistent, TakeOut, Pruned, GateOver;
    if t !in m.threads || m.threads[t].generation != g || other {
      LockKeepsInv(m, None);
    } else {
      PrunedFacts(m, g);
      TakeOutKeepsInv(m, t, Release, true);
      var u := m.(registries := m.registries[g := Pruned(m.registries[g], m.now)]);
      assert Inv(u) by {
        forall h | h in u.tasks ensures TaskOk(u, h) { assert TaskOk(m, h); }
      }
      LockKeepsInv(u, None);
    }
  }

  lemma ContinueKeepsInv(m: Manager, t: string, after: After)
    requires Inv(m) && t !in m.threads && m.lock.Some? && InFlight(m.lock.value).None?
    ensures Inv(Continue(m, t, after))
  {
    match after
    case Release => LockKeepsInv(m, None);
    case ThenSpawn(ws) => LockKeepsInv(m, Some(EnsureSpawn(t, ws)));
  }

  lemma AdvanceKeepsInv(m: Manager, other: bool)
    requires Inv(m) && Enabled(m, Advance(other))
    ensures Inv(Next(m, Advance(other)))
  {
    hide Inv, TakeOut, RecordTombstones, Continue, Pruned, GateOver;
    var job := m.lock.value;
    match job
    case EnsureCheck(t, ws) =>
      CheckKeepsInv(m, t, ws);
    case EnsureSpawn(t, ws) => SpawnKeepsInv(m, t, ws);
    case EnsureInsert(t, ws, g) => InsertKeepsInv(m, t, ws, g);
    case Removing(t, after) =>
      if t in m.threads { TakeOutKeepsInv(m, t, after, false); } else { ContinueKeepsInv(m, t, after); }
    case FenceCheck(t, g) =>
      if t in m.threads && m.threads[t].generation == g { TakeOutKeepsInv(m, t, Release, true); } else { LockKeepsInv(m, None); }
    case RetireCheck(t, g, deadline) => RetireKeepsInv(m, t, g, deadline, other);
    case Draining(t, g, after) => JoinKeepsInv(m, t, g, after);
    case Joined(t, g, after) =>
      JobIsOk(m);
      RecordKeepsInv(m, t, g);
      RecordFrames(m, t, g);
      ContinueKeepsInv(RecordTombstones(m, t, g), t, after);
  }

  lemma JobIsOk(m: Manager)
    requires Inv(m) && m.lock.Some?
    ensures JobOk(m, m.lock.value)
  {
  }

  lemma RecordFrames(m: Manager, t: string, g: nat)
    requires g in m.registries && Valid(m.registries[g])
    ensures var u := RecordTombstones(m, t, g);
      u == m.(registries := u.registries, ledger := u.ledger) && u.registries.Keys == m.registries.Keys
  {
    hide Valid, L.Record;
  }

  lemma CheckKeepsInv(m: Manager, t: string, ws: string)
    requires Inv(m) && m.lock == Some(EnsureCheck(t, ws))
    ensures Inv(AdvanceJob(m, EnsureCheck(t, ws), false))
  {
    hide Valid, Frozen, L.Consistent;
    if t !in m.threads { LockKeepsInv(m, Some(EnsureSpawn(t, ws))); }
    else if m.threads[t].workspaceId != ws || !m.tasks[m.threads[t].generation].finished { LockKeepsInv(m, None); }
    else { LockKeepsInv(m, Some(Removing(t, ThenSpawn(ws)))); }
  }

  lemma StepKeepsInv(m: Manager, step: Step)
    requires Inv(m) && Enabled(m, step)
    ensures Inv(Next(m, step))
  {
    hide Inv, Valid, Frozen, L.Consistent, AdvanceJob;
    match step
    case Tick(_) => QuietStepKeepsInv(m, Next(m, step));
    case ActorEnds(g) => QuietStepKeepsInv(m, Next(m, step));
    case RegistryCall(g, call) => RegistryCallKeepsInv(m, g, call);
    case Acquire(job) => LockKeepsInv(m, Some(job));
    case Advance(other) => AdvanceKeepsInv(m, other);
  }

  /** Time passing and actors ending touch nothing the invariant ties together. */
  lemma QuietStepKeepsInv(m: Manager, u: Manager)
    requires Inv(m) && u == m.(now := u.now, tasks := u.tasks) && u.tasks.Keys == m.tasks.Keys
    requires forall h :: h in m.tasks ==> u.tasks[h] == m.tasks[h].(finished := u.tasks[h].finished)
    requires forall h :: h in m.tasks && m.tasks[h].finished ==> u.tasks[h].finished
    ensures Inv(u)
  {
    hide Valid, Frozen, L.Consistent;
    forall h | h in u.tasks
      ensures TaskOk(u, h)
    {
      assert TaskOk(m, h);
    }
  }

  // ------------------------------------------------------------------------------ runs

  ghost predicate RunsFrom(m: Manager, steps: seq<Step>)
    requires Inv(m)
    decreases |steps|
  {
    steps != [] ==> Enabled(m, steps[0]) && (StepKeepsInv(m, steps[0]); RunsFrom(Next(m, steps[0]), steps[1..]))
  }

  ghost function End(m: Manager, steps: seq<Step>): Manager
    requires Inv(m) && RunsFrom(m, steps)
    decreases |steps|
  {
    if steps == [] then m else (StepKeepsInv(m, steps[0]); End(Next(m, steps[0]), steps[1..]))
  }

  lemma {:induction false} RunKeepsInv(m: Manager, steps: seq<Step>)
    requires Inv(m) && RunsFrom(m, steps)
    ensures Inv(End(m, steps))
    decreases |steps|
  {
    hide Inv, Next, Enabled;
    if steps != [] {
      StepKeepsInv(m, steps[0]);
      RunKeepsInv(Next(m, steps[0]), steps[1..]);
    }
  }

  ghost predicate Unjoined(m: Manager, g: nat, t: string) {
    g in m.tasks && m.tasks[g].threadId == t && !m.tasks[g].joined
  }

  lemma OneUnjoinedTask(m: Manager, t: string, g: nat, h: nat)
    requires Inv(m) && Unjoined(m, g, t) && Unjoined(m, h, t)
    ensures g == h
  {
    hide Valid, Frozen, L.Consistent;
    assert TaskOk(m, g) && TaskOk(m, h);
  }

  /** In every interleaving at most one actor task per thread is still unjoined. */
  lemma AtMostOneActorPerThread(config: Config, clockMax: nat, steps: seq<Step>, t: string, g: nat, h: nat)
    requires RunsFrom(Start(config, clockMax), steps)
    requires Unjoined(End(Start(config, clockMax), steps), g, t) && Unjoined(End(Start(config, clockMax), steps), h, t)
    ensures g == h
  {
    RunKeepsInv(Start(config, clockMax), steps);
    OneUnjoinedTask(End(Start(config, clockMax), steps), t, g, h);
  }

  /** A generation belongs to one thread for ever, and a joined actor stays joined. */
  ghost predicate Extends(m: Manager, u: Manager) {
    && m.nextGeneration <= u.nextGeneration
    && (forall g :: g in m.tasks ==> g in u.tasks && u.tasks[g].threadId == m.tasks[g].threadId
                                     && (m.tasks[g].joined ==> u.tasks[g].joined))
    && (forall g :: g in u.tasks && g !in m.tasks ==> m.nextGeneration <= g)
  }

  lemma RecordTombstonesFrame(m: Manager, t: string, g: nat)
    requires g in m.registries && Valid(m.registries[g])
    ensures var u := RecordTombstones(m, t, g);
      u.tasks == m.tasks && u.nextGeneration == m.nextGeneration && u.threads == m.threads && u.aborted == m.aborted && u.lock == m.lock
  {
    RecordFrames(m, t, g);
  }

  lemma StepExtends(m: Manager, step: Step)
    requires Inv(m) && Enabled(m, step)
    ensures Extends(m, Next(m, step))
  {
    hide Inv, AdvanceJob;
    if step.Advance? { AdvanceExtends(m, step.otherTurnActive); }
  }

  lemma AdvanceExtends(m: Manager, other: bool)
    requires Inv(m) && Enabled(m, Advance(other))
    ensures Extends(m, AdvanceJob(m, m.lock.value, other))
  {
    hide Inv, RecordTombstones, TakeOut, Pruned, GateOver, Valid, Recorded, JobOk, Extends, AdvanceJob;
    match m.lock.value
    case EnsureCheck(_, _) => CreationExtends(m, other);
    case EnsureSpawn(_, _) => CreationExtends(m, other);
    case EnsureInsert(_, _, _) => CreationExtends(m, other);
    case Removing(_, _) => RemovalExtends(m, other);
    case FenceCheck(_, _) => RemovalExtends(m, other);
    case RetireCheck(_, _, _) => RemovalExtends(m, other);
    case Draining(_, _, _) => JoiningExtends(m, other);
    case Joined(_, _, _) => JoiningExtends(m, other);
  }

  lemma CreationExtends(m: Manager, other: bool)
    requires Inv(m) && Enabled(m, Advance(other))
    requires m.lock.value.EnsureCheck? || m.lock.value.EnsureSpawn? || m.lock.value.EnsureInsert?
    ensures Extends(m, AdvanceJob(m, m.lock.value, other))
  {
    hide Inv, RecordTombstones, TakeOut, Pruned, GateOver, Valid, Recorded, JobOk;
    NextIsNew(m);
  }

  lemma RemovalExtends(m: Manager, other: bool)
    requires Inv(m) && Enabled(m, Advance(other))
    requires m.lock.value.Removing? || m.lock.value.FenceCheck? || m.lock.value.RetireCheck?
    ensures Extends(m, AdvanceJob(m, m.lock.value, other))
  {
    hide Inv, RecordTombstones, TakeOut, Pruned, GateOver, Valid, Recorded, JobOk;
    match m.lock.value
    case Removing(t, after) => if t in m.threads { TakeOutFrame(m, t, after, false); }
    case FenceCheck(t, _) => if t in m.threads { TakeOutFrame(m, t, Release, true); }
    case RetireCheck(t, _, _) => if t in m.threads { TakeOutFrame(m, t, Release, true); }
  }

  lemma JoiningExtends(m: Manager, other: bool)
    requires Inv(m) && Enabled(m, Advance(other))
    requires m.lock.value.Draining? || m.lock.value.Joined?
    ensures Extends(m, AdvanceJob(m, m.lock.value, other))
  {
    hide Inv, RecordTombstones, TakeOut, Pruned, GateOver, Valid, Recorded;
    JobIsOk(m);
    match m.lock.value
    case Draining(_, _, _) =>
    case Joined(t, g, _) =>
      PrunedFacts(m, g);
      KnownRegistry(m, g);
      RecordTombstonesFrame(m, t, g);
  }

  lemma KnownRegistry(m: Manager, g: nat)
    requires Inv(m) && g in m.tasks
    ensures g in m.registries
  {
    assert TaskOk(m, g);
  }

  lemma TakeOutFrame(m: Manager, t: string, after: After, abort: bool)
    requires Inv(m) && t in m.threads
    ensures var g := m.threads[t].generation;
      && g in m.registries && Valid(m.registries[g])
      && var u := TakeOut(m, t, after, abort);
         && u.tasks == m.tasks && u.nextGeneration == m.nextGeneration
         && u.threads == m.threads - {t} && u.aborted <= m.aborted + {g}
         && u.lock == Some(Draining(t, g, after))
  {
    hide Valid, Frozen, L.Consistent, RecordTombstones;
    var g := m.threads[t].generation;
    assert TaskOk(m, g);
    RecordTombstonesFrame(m.(threads := m.threads - {t}, aborted := if abort then m.aborted + {g} else m.aborted), t, g);
  }

  lemma {:induction false} RunExtends(m: Manager, steps: seq<Step>)
    requires Inv(m) && RunsFrom(m, steps)
    ensures Extends(m, End(m, steps))
    decreases |steps|
  {
    hide Inv, Next, Enabled;
    if steps != [] {
      StepKeepsInv(m, steps[0]);
      StepExtends(m, steps[0]);
      RunExtends(Next(m, steps[0]), steps[1..]);
    }
  }

  /** Every actor created after some point carries a generation larger than all earlier ones. */
  lemma GenerationsNeverReused(config: Config, clockMax: nat, before: seq<Step>, after: seq<Step>, g: nat, h: nat)
    requires RunsFrom(Start(config, clockMax), before)
    requires (RunKeepsInv(Start(config, clockMax), before); RunsFrom(End(Start(config, clockMax), before), after))
    requires g in End(Start(config, clockMax), before).tasks
    requires (RunKeepsInv(Start(config, clockMax), before);
              h in End(End(Start(config, clockMax), before), after).tasks && h !in End(Start(config, clockMax), before).tasks)
    ensures g < h
  {
    var m := End(Start(config, clockMax), before);
    RunKeepsInv(Start(config, clockMax), before);
    RunExtends(m, after);
    assert TaskOk(m, g);
  }

  // ---------------------------------------------------- calls that carry a generation

  predicate Carries(lock: Option<Job>, g: nat) {
    && lock.Some?
    && match lock.value
       case FenceCheck(_, h) => h == g
       case RetireCheck(_, h, _) => h == g
       case Draining(_, h, after) => h == g && after.Release?
       case Joined(_, h, after) => h == g && after.Release?
       case _ => false
  }

  /** Actors of other generations keep their handles and are not aborted. */
  ghost predicate Spares(m: Manager, u: Manager, g: nat) {
    && (forall t :: t in m.threads && m.threads[t].generation != g ==> t in u.threads && u.threads[t] == m.threads[t])
    && (forall h :: h in u.aborted && h != g ==> h in m.aborted)
  }

  lemma StepSparesOthers(m: Manager, step: Step, g: nat)
    requires Inv(m) && Enabled(m, step) && Carries(m.lock, g)
    ensures Spares(m, Next(m, step), g)
    ensures Next(m, step).lock.None? || Carries(Next(m, step).lock, g)
  {
    hide Inv, AdvanceJob;
    if step.Advance? {
      AdvanceSparesOthers(m, step.otherTurnActive, g);
    }
  }

  lemma AdvanceSparesOthers(m: Manager, other: bool, g: nat)
    requires Inv(m) && Enabled(m, Advance(other)) && Carries(m.lock, g)
    ensures Spares(m, AdvanceJob(m, m.lock.value, other), g)
    ensures var lock := AdvanceJob(m, m.lock.value, other).lock; lock.None? || Carries(lock, g)
  {
    hide Inv, RecordTombstones, TakeOut, Pruned, GateOver, Valid;
    match m.lock.value
    case FenceCheck(t, _) => if t in m.threads { TakeOutFrame(m, t, Release, true); }
    case RetireCheck(t, _, _) => if t in m.threads { TakeOutFrame(m, t, Release, true); }
    case Joined(t, _, _) =>
      JobIsOk(m);
      PrunedFacts(m, g);
      KnownRegistry(m, g);
      RecordTombstonesFrame(m, t, g);
    case _ =>
  }

  /** The lock is not released before the end of the run. */
  ghost predicate HeldUntilEnd(m: Manager, steps: seq<Step>)
    requires Inv(m) && RunsFrom(m, steps)
    decreases |steps|
  {
    steps != [] ==> m.lock.Some? && (StepKeepsInv(m, steps[0]); HeldUntilEnd(Next(m, steps[0]), steps[1..]))
  }

  /** A fence or a retirement for generation `g`, from taking the lock to giving it back and
      whatever happens in between, never removes or aborts an actor of another generation. */
  lemma {:induction false} OldGenerationIsHarmless(m: Manager, steps: seq<Step>, g: nat)
    requires Inv(m) && RunsFrom(m, steps) && HeldUntilEnd(m, steps) && Carries(m.lock, g)
    ensures Spares(m, End(m, steps), g)
    decreases |steps|
  {
    hide Inv, Next, Enabled;
    if steps != [] {
      var u := Next(m, steps[0]);
      StepKeepsInv(m, steps[0]);
      StepSparesOthers(m, steps[0], g);
      if u.lock.None? {
        assert steps[1..] == [];
      } else {
        OldGenerationIsHarmless(u, steps[1..], g);
      }
    }
  }

  // -------------------------------------------------------------------- tombstones

  /** The tombstone an entry of a joined actor deserves. */
  ghost predicate Deserves(e: ControlRegistry.Entry, k: OpId, atJoin: map<OpId, Outcome>, s: Status) {
    match e.state
    case Completed(o) =>
      && k in atJoin && atJoin[k] == o
      && (if o.Rejected() then s.RejectedStatus? && s.generation == e.generation
                               && (o == StartOutcome(Err(s.failure)) || o == ControlOutcome(Err(s.failure)))
          else s == Applied(e.generation))
    case _ => s == ReconciliationRequired(e.generation)
  }

  lemma SnapshotIsDistinct(s: Registry)
    requires Valid(s)
    ensures forall k :: k in s.order ==> k in s.entries
    ensures L.DistinctIds(SnapshotOf(s, s.order)) && |SnapshotOf(s, s.order)| <= MAX_CAPACITY
  {
    RegistryLaws.OrderCounts(s);
  }

  /** Every operation of a registry has the tombstone it deserves. Every other tombstone, such as
      the demand an earlier recording left for a reservation that has expired since, is as it was
      or gone, and those go oldest first. */
  ghost predicate ExactTombstones(before: L.Ledger, after: L.Ledger, t: string, r: Registry, atJoin: map<OpId, Outcome>) {
    && (forall k :: k in r.entries ==>
         && L.Key(t, k) in after.entries
         && Deserves(r.entries[k], k, atJoin, after.entries[L.Key(t, k)]))
    && (forall key :: key in after.entries && !(key.threadId == t && key.id in r.entries) ==>
         key in before.entries && after.entries[key] == before.entries[key])
    && L.IsSuffix(L.Others(after.order, Buried(t, r.order)), L.Others(before.order, Buried(t, r.order)))
  }

  /** When a fenced, removed or retired actor has been joined and its record refreshed, every
      operation left in its registry has a tombstone: the outcome the actor had recorded by
      join time, or a demand for reconciliation; and no other tombstone has changed. */
  lemma JoinedActorLeavesExactTombstones(m: Manager, t: string, g: nat, after: After)
    requires Inv(m) && m.lock == Some(Joined(t, g, after))
    ensures g in m.registries && Valid(m.registries[g])
    ensures var u := Next(m, Advance(false));
      && g in u.registries && u.registries[g] == Pruned(m.registries[g], m.now)
      && g in m.atJoin
      && ExactTombstones(m.ledger, u.ledger, t, u.registries[g], m.atJoin[g])
  {
    hide Valid, Pruned, L.Consistent, L.Record, ExactTombstones, Frozen;
    assert TaskOk(m, g);
    PrunedFacts(m, g);
    RecordIsExact(m.ledger, t, Pruned(m.registries[g], m.now), m.atJoin[g]);
  }

  lemma RecordIsExact(l: L.Ledger, t: string, r: Registry, atJoin: map<OpId, Outcome>)
    requires L.Consistent(l) && l.capacity == L.RETIRED_CAPACITY && Valid(r) && Frozen(r, atJoin)
    ensures (SnapshotIsDistinct(r); ExactTombstones(l, L.Record(l, t, SnapshotOf(r, r.order)), t, r, atJoin))
  {
    hide Valid, L.Consistent, L.Record, Deserves, Frozen, L.Others, L.IsSuffix;
    SnapshotIsDistinct(r);
    forall k | k in r.entries
      ensures L.Key(t, k) in L.Record(l, t, SnapshotOf(r, r.order)).entries
      ensures Deserves(r.entries[k], k, atJoin, L.Record(l, t, SnapshotOf(r, r.order)).entries[L.Key(t, k)])
    {
      EntryIsBuried(l, t, r, atJoin, k);
    }
    OthersAreLeft(l, t, r);
  }

  function Buried(t: string, ids: seq<OpId>): (r: seq<L.Key>)
    ensures |r| == |ids| && forall i :: 0 <= i < |r| ==> r[i] == L.Key(t, ids[i])
  {
    seq(|ids|, i requires 0 <= i < |ids| => L.Key(t, ids[i]))
  }

  lemma OthersAreLeft(l: L.Ledger, t: string, r: Registry)
    requires L.Consistent(l) && Valid(r)
    ensures (SnapshotIsDistinct(r);
             var u := L.Record(l, t, SnapshotOf(r, r.order));
             && (forall key :: key in u.entries && !(key.threadId == t && key.id in r.entries) ==>
                   key in l.entries && u.entries[key] == l.entries[key])
             && L.IsSuffix(L.Others(u.order, Buried(t, r.order)), L.Others(l.order, Buried(t, r.order))))
  {
    hide Valid, L.Consistent, L.Record, L.DistinctIds, L.Others, L.IsSuffix;
    SnapshotIsDistinct(r);
    OrderListed(r);
    var keys := Buried(t, r.order);
    var snapshot := SnapshotOf(r, r.order);
    forall i | 0 <= i < |snapshot|
      ensures L.Key(t, snapshot[i].0) in keys
    {
      assert keys[i] == L.Key(t, snapshot[i].0);
    }
    L.OthersOnlyAge(l, t, snapshot, keys);
  }

  lemma EntryIsBuried(l: L.Ledger, t: string, r: Registry, atJoin: map<OpId, Outcome>, k: OpId)
    requires L.Consistent(l) && l.capacity == L.RETIRED_CAPACITY && Valid(r) && Frozen(r, atJoin) && k in r.entries
    ensures (SnapshotIsDistinct(r); L.Key(t, k) in L.Record(l, t, SnapshotOf(r, r.order)).entries)
    ensures (SnapshotIsDistinct(r);
             Deserves(r.entries[k], k, atJoin, L.Record(l, t, SnapshotOf(r, r.order)).entries[L.Key(t, k)]))
  {
    hide Valid, L.Consistent, L.Record, L.DistinctIds, L.Newest, Deserves, StatusOf, Frozen;
    SnapshotIsDistinct(r);
    OrderListed(r);
    StatusIsDeserved(r, atJoin, k);
    var snapshot := SnapshotOf(r, r.order);
    L.SmallSnapshotSurvives(l, t, snapshot);
    var i :| 0 <= i < |r.order| && r.order[i] == k;
    assert snapshot[i] == (k, StatusOf(r.entries[k], true));
  }

  lemma StatusIsDeserved(r: Registry, atJoin: map<OpId, Outcome>, k: OpId)
    requires Frozen(r, atJoin) && k in r.entries
    ensures Deserves(r.entries[k], k, atJoin, StatusOf(r.entries[k], true))
  {
  }
}
