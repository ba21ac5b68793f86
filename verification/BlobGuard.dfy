/** Ingests, collectors and cancelled callers racing over one workspace's blobs under the mutation guard. */
module BlobGuard {
  import opened Common

  type Key = string
  type Pid = nat
  type Jid = nat

  /** The shared guard: held while its owner or any dispatched filesystem job still has a clone. */
  datatype Lock = Free | Held(owner: Option<Pid>, clones: set<Jid>)

  datatype Kind = Ingest | Collect

  /** Where a process is; it owns the guard from `Ready` on. */
  datatype Pc =
    | Waiting(kind: Kind, key: Key)
    | Ready(kind: Kind, key: Key)
    | Publishing(key: Key, job: Jid)
    | Published(key: Key, deduplicated: bool)
    | RegistrationFailed(key: Key, deduplicated: bool)
    | Confirmed(key: Key)
    | Unlinking(key: Key, job: Jid)
    | Finished(key: Key)

  /** Filesystem work that outlives the caller who dispatched it. */
  datatype Job =
    | Inspecting(key: Key)
    | Renaming(key: Key)
    | Stored(key: Key, deduplicated: bool)
    | Unlink(key: Key)
    | Unlinked(key: Key)
    | Failed(key: Key)

  datatype World = World(
    files: set<Key>,
    references: multiset<Key>,
    lock: Lock,
    processes: map<Pid, Pc>,
    jobs: map<Jid, Job>)

  datatype Step =
    | Begin(p: Pid, kind: Kind, key: Key)
    | Acquire(p: Pid)
    | DispatchPublish(p: Pid, j: Jid, guarded: bool)
    | Inspect(j: Jid)
    | Rename(j: Jid)
    | ObserveStored(p: Pid)
    | Register(p: Pid)
    | FailRegistration(p: Pid)
    | CheckFailed(p: Pid)
    | Revalidate(p: Pid)
    | DispatchUnlink(p: Pid, j: Jid)
    | RunUnlink(j: Jid)
    | ObserveUnlinked(p: Pid)
    | FailJob(j: Jid)
    | DropClone(j: Jid)
    | Leave(p: Pid)
    | Unbind(key: Key)

  function Dropped(lock: Lock, j: Jid): Lock {
    match lock
    case Free => Free
    case Held(owner, clones) => if owner.None? && clones - {j} == {} then Free else Held(owner, clones - {j})
  }

  function Released(lock: Lock, p: Pid): Lock {
    match lock
    case Free => Free
    case Held(owner, clones) =>
      if owner != Some(p) then lock else if clones == {} then Free else Held(None, clones)
  }

  predicate Owns(w: World, p: Pid) { w.lock.Held? && w.lock.owner == Some(p) }

  predicate Enabled(w: World, step: Step) {
    match step
    case Begin(p, _, _) => p !in w.processes
    case Acquire(p) => p in w.processes && w.processes[p].Waiting? && w.lock.Free?
    case DispatchPublish(p, j, _) =>
      p in w.processes && w.processes[p].Ready? && w.processes[p].kind == Ingest && Owns(w, p) && j !in w.jobs
    case Inspect(j) => j in w.jobs && w.jobs[j].Inspecting?
    case Rename(j) => j in w.jobs && w.jobs[j].Renaming?
    case ObserveStored(p) =>
      p in w.processes && w.processes[p].Publishing?
      && w.processes[p].job in w.jobs && w.jobs[w.processes[p].job].Stored?
    case Register(p) => p in w.processes && w.processes[p].Published?
    case FailRegistration(p) => p in w.processes && w.processes[p].Published?
    case CheckFailed(p) => p in w.processes && w.processes[p].RegistrationFailed?
    case Revalidate(p) => p in w.processes && w.processes[p].Ready? && w.processes[p].kind == Collect
    case DispatchUnlink(p, j) => p in w.processes && w.processes[p].Confirmed? && Owns(w, p) && j !in w.jobs
    case RunUnlink(j) => j in w.jobs && w.jobs[j].Unlink?
    case ObserveUnlinked(p) =>
      p in w.processes && w.processes[p].Unlinking?
      && w.processes[p].job in w.jobs && w.jobs[w.processes[p].job].Unlinked?
    case FailJob(j) => j in w.jobs && (w.jobs[j].Inspecting? || w.jobs[j].Renaming? || w.jobs[j].Unlink?)
    case DropClone(j) => j in w.jobs && (w.jobs[j].Stored? || w.jobs[j].Unlinked? || w.jobs[j].Failed?)
    case Leave(p) => p in w.processes
    case Unbind(key) => key in w.references
  }

  function Next(w: World, step: Step): World
    requires Enabled(w, step)
  {
    match step
    case Begin(p, kind, key) => w.(processes := w.processes[p := Waiting(kind, key)])
    case Acquire(p) =>
      var pc := w.processes[p];
      w.(lock := Held(Some(p), {}), processes := w.processes[p := Ready(pc.kind, pc.key)])
    case DispatchPublish(p, j, guarded) =>
      var key := w.processes[p].key;
      w.(jobs := w.jobs[j := Inspecting(key)],
         processes := w.processes[p := Publishing(key, j)],
         lock := if guarded then Held(Some(p), w.lock.clones + {j}) else w.lock)
    case Inspect(j) =>
      var key := w.jobs[j].key;
      w.(jobs := w.jobs[j := if key in w.files then Stored(key, true) else Renaming(key)])
    case Rename(j) =>
      var key := w.jobs[j].key;
      w.(jobs := w.jobs[j := Stored(key, false)], files := w.files + {key})
    case ObserveStored(p) =>
      var job := w.jobs[w.processes[p].job];
      w.(processes := w.processes[p := Published(w.processes[p].key, job.deduplicated)])
    case Register(p) =>
      var key := w.processes[p].key;
      w.(references := w.references + multiset{key}, processes := w.processes[p := Finished(key)])
    case FailRegistration(p) =>
      var pc := w.processes[p];
      w.(processes := w.processes[p := RegistrationFailed(pc.key, pc.deduplicated)])
    case CheckFailed(p) =>
      var pc := w.processes[p];
      w.(processes := w.processes[p := if pc.key !in w.references && !pc.deduplicated then Confirmed(pc.key)
                                       else Finished(pc.key)])
    case Revalidate(p) =>
      var key := w.processes[p].key;
      w.(processes := w.processes[p := if key !in w.references then Confirmed(key) else Finished(key)])
    case DispatchUnlink(p, j) =>
      var key := w.processes[p].key;
      w.(jobs := w.jobs[j := Unlink(key)],
         processes := w.processes[p := Unlinking(key, j)],
         lock := Held(Some(p), w.lock.clones + {j}))
    case RunUnlink(j) =>
      var key := w.jobs[j].key;
      w.(jobs := w.jobs[j := Unlinked(key)], files := w.files - {key})
    case ObserveUnlinked(p) => w.(processes := w.processes[p := Finished(w.processes[p].key)])
    case FailJob(j) => w.(jobs := w.jobs[j := Job.Failed(w.jobs[j].key)])
    case DropClone(j) => w.(lock := Dropped(w.lock, j))
    case Leave(p) => w.(lock := Released(w.lock, p), processes := w.processes - {p})
    case Unbind(key) => w.(references := w.references - multiset{key})
  }

  // ---- Invariant ----

  predicate NoDangling(w: World) { forall key :: key in w.references ==> key in w.files }

  /** Past `Waiting`, a process owns the guard. */
  predicate GuardedProcesses(w: World) {
    forall p :: p in w.processes && !w.processes[p].Waiting? ==> Owns(w, p)
  }

  /** A pending unlink holds a clone, its key is unreferenced, and whoever still owns the guard waits for it. */
  predicate GuardedUnlink(w: World, j: Jid)
    requires j in w.jobs
  {
    && w.lock.Held? && j in w.lock.clones
    && w.jobs[j].key !in w.references
    && (w.lock.owner.Some? ==>
          && w.lock.owner.value in w.processes
          && w.processes[w.lock.owner.value] == Unlinking(w.jobs[j].key, j))
  }

  predicate GuardedUnlinks(w: World) {
    forall j :: j in w.jobs && w.jobs[j].Unlink? ==> GuardedUnlink(w, j)
  }

  /** What the guard's owner has established stays established while it owns the guard. */
  predicate Knows(w: World, p: Pid)
    requires p in w.processes
  {
    match w.processes[p]
    case Publishing(key, j) =>
      j in w.jobs && w.jobs[j].key == key && !w.jobs[j].Unlink? && !w.jobs[j].Unlinked?
      && (w.jobs[j].Stored? ==> key in w.files)
    case Published(key, _) => key in w.files
    case Confirmed(key) => key !in w.references
    case _ => true
  }

  predicate OwnerKnows(w: World) { forall p :: p in w.processes ==> Knows(w, p) }

  ghost predicate Inv(w: World) { NoDangling(w) && GuardedProcesses(w) && GuardedUnlinks(w) && OwnerKnows(w) }

  lemma StepKeepsNoDangling(w: World, step: Step)
    requires Inv(w) && Enabled(w, step)
    ensures NoDangling(Next(w, step))
  {
  }

  lemma StepKeepsGuardedProcesses(w: World, step: Step)
    requires Inv(w) && Enabled(w, step)
    ensures GuardedProcesses(Next(w, step))
  {
    hide NoDangling, OwnerKnows, GuardedUnlinks;
    forall p | p in Next(w, step).processes && !Next(w, step).processes[p].Waiting?
      ensures Owns(Next(w, step), p)
    {
      if p in w.processes && !w.processes[p].Waiting? {
        assert Owns(w, p);
      }
    }
  }

  lemma StepKeepsGuardedUnlinks(w: World, step: Step)
    requires Inv(w) && Enabled(w, step)
    ensures GuardedUnlinks(Next(w, step))
  {
    hide NoDangling;
    var after := Next(w, step);
    forall j | j in after.jobs && after.jobs[j].Unlink?
      ensures GuardedUnlink(after, j)
    {
      UnlinkStaysGuarded(w, step, j);
    }
  }

  lemma UnlinkStaysGuarded(w: World, step: Step, j: Jid)
    requires Inv(w) && Enabled(w, step)
    requires j in Next(w, step).jobs && Next(w, step).jobs[j].Unlink?
    ensures GuardedUnlink(Next(w, step), j)
  {
    hide NoDangling, GuardedUnlink, OwnerKnows, GuardedProcesses;
    if j in w.jobs && w.jobs[j].Unlink? {
      PendingUnlinkStaysGuarded(w, step, j);
    } else {
      NewUnlinkIsGuarded(w, step, j);
    }
  }

  lemma PendingUnlinkStaysGuarded(w: World, step: Step, j: Jid)
    requires Inv(w) && Enabled(w, step) && j in w.jobs && w.jobs[j].Unlink?
    requires j in Next(w, step).jobs && Next(w, step).jobs[j].Unlink?
    ensures GuardedUnlink(Next(w, step), j)
  {
    hide NoDangling, OwnerKnows;
    assert GuardedUnlink(w, j);
    if step.DropClone? {
      assert j in w.lock.clones - {step.j};
    }
  }

  lemma NewUnlinkIsGuarded(w: World, step: Step, j: Jid)
    requires Inv(w) && Enabled(w, step) && !(j in w.jobs && w.jobs[j].Unlink?)
    requires j in Next(w, step).jobs && Next(w, step).jobs[j].Unlink?
    ensures GuardedUnlink(Next(w, step), j)
  {
    hide NoDangling, GuardedUnlinks, GuardedProcesses;
    assert step.DispatchUnlink? && step.j == j;
  }

  lemma StepKeepsOwnerKnows(w: World, step: Step)
    requires Inv(w) && Enabled(w, step)
    ensures OwnerKnows(Next(w, step))
  {
    hide NoDangling, Knows, GuardedProcesses, GuardedUnlinks;
    forall p | p in Next(w, step).processes
      ensures Knows(Next(w, step), p)
    {
      ProcessStillKnows(w, step, p);
    }
  }

  lemma ProcessStillKnows(w: World, step: Step, p: Pid)
    requires Inv(w) && Enabled(w, step) && p in Next(w, step).processes
    ensures Knows(Next(w, step), p)
  {
    hide NoDangling, GuardedUnlinks, GuardedProcesses, Knows;
    if p in w.processes && Next(w, step).processes[p] == w.processes[p] {
      assert Knows(w, p);
      if !w.processes[p].Waiting? {
        OthersLeaveKnowledge(w, step, p);
      } else {
        WaitingKnowsNothing(Next(w, step), p);
      }
    } else {
      ActingTeaches(w, step, p);
    }
  }

  lemma WaitingKnowsNothing(w: World, p: Pid)
    requires p in w.processes && w.processes[p].Waiting?
    ensures Knows(w, p)
  {
  }

  /** What the guard's owner knows survives everyone else's steps. */
  lemma OthersLeaveKnowledge(w: World, step: Step, p: Pid)
    requires Inv(w) && Enabled(w, step) && p in w.processes && !w.processes[p].Waiting? && Knows(w, p)
    requires p in Next(w, step).processes && Next(w, step).processes[p] == w.processes[p]
    ensures Knows(Next(w, step), p)
  {
    hide NoDangling, OwnerKnows;
    assert Owns(w, p);
    if step.RunUnlink? {
      assert GuardedUnlink(w, step.j);
    }
  }

  /** A process's own step establishes what its next place relies on. */
  lemma ActingTeaches(w: World, step: Step, p: Pid)
    requires Inv(w) && Enabled(w, step) && p in Next(w, step).processes
    requires !(p in w.processes && Next(w, step).processes[p] == w.processes[p])
    ensures Knows(Next(w, step), p)
  {
    hide NoDangling, GuardedUnlinks, GuardedProcesses;
    if p in w.processes {
      assert Knows(w, p);
    }
  }

  lemma StepKeepsInv(w: World, step: Step)
    requires Inv(w) && Enabled(w, step)
    ensures Inv(Next(w, step))
  {
    StepKeepsNoDangling(w, step);
    StepKeepsGuardedProcesses(w, step);
    StepKeepsGuardedUnlinks(w, step);
    StepKeepsOwnerKnows(w, step);
  }

  // ---- Runs ----

  ghost predicate Runs(w: World, steps: seq<Step>)
    decreases |steps|
  {
    steps == [] || (Enabled(w, steps[0]) && Runs(Next(w, steps[0]), steps[1..]))
  }

  ghost function After(w: World, steps: seq<Step>): World
    requires Runs(w, steps)
    decreases |steps|
  {
    if steps == [] then w else After(Next(w, steps[0]), steps[1..])
  }

  predicate Quiet(w: World) { w.lock.Free? && w.processes == map[] && w.jobs == map[] && NoDangling(w) }

  /** In every interleaving, with callers leaving at any point, no committed reference lacks its file. */
  lemma {:induction false} NoReferenceEverDangles(w: World, steps: seq<Step>)
    requires Inv(w) && Runs(w, steps)
    ensures Inv(After(w, steps))
    ensures forall key :: key in After(w, steps).references ==> key in After(w, steps).files
    decreases |steps|
  {
    if steps != [] {
      StepKeepsInv(w, steps[0]);
      NoReferenceEverDangles(Next(w, steps[0]), steps[1..]);
    }
  }

  lemma QuietInv(w: World)
    requires Quiet(w)
    ensures Inv(w)
  {
  }

  /** From a quiet workspace, whoever comes, leaves or fails, every committed reference has its file. */
  lemma QuietWorkspaceStaysSound(w: World, steps: seq<Step>)
    requires Quiet(w) && Runs(w, steps)
    ensures NoDangling(After(w, steps))
  {
    QuietInv(w);
    NoReferenceEverDangles(w, steps);
  }

  /** A file is only ever removed by an unlink whose key nothing references at that moment. */
  lemma OnlyUnreferencedFilesVanish(w: World, step: Step, key: Key)
    requires Inv(w) && Enabled(w, step) && key in w.files && key !in Next(w, step).files
    ensures step.RunUnlink? && w.jobs[step.j] == Unlink(key) && key !in w.references
  {
  }
}
