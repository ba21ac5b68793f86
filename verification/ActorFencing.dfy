/**
 What each call under the creation lock does: which check takes an actor out,
 which one spawns, and where the call has left the actor once it gives the lock
 back, whatever happened in between.
 */
module ActorFencing {
  import opened Common
  import opened ControlRegistry
  import opened ActorOwnership
  import L = RetiredLedger

  // ------------------------------------------------------------------ one step of a call

  /** The handle of generation `g` is gone and its operations have their first tombstones. */
  ghost predicate TakenOut(m: Manager, u: Manager, t: string, g: nat, after: After, abort: bool) {
    && t in m.threads && m.threads[t].generation == g
    && u.threads == m.threads - {t}
    && u.lock == Some(Draining(t, g, after))
    && u.aborted == (if abort then m.aborted + {g} else m.aborted)
    && g in m.registries && g in u.registries
    && u == m.(threads := u.threads, lock := u.lock, aborted := u.aborted, ledger := u.ledger,
               registries := m.registries[g := u.registries[g]])
    && (forall k :: k in u.registries[g].entries <==> k in m.registries[g].entries && !Lapsed(m.registries[g], k, m.now))
    && ExactTombstones(m.ledger, u.ledger, t, u.registries[g], Recorded(m.registries[g]))
  }

  /** A reservation nobody accepted in time. */
  predicate Lapsed(s: Registry, k: OpId, now: nat) {
    k in s.entries && s.entries[k].state.Dispatching? && s.entries[k].state.deadline <= now
  }

  /** Some operation is still within its deadline, and no accepted one has passed its own. */
  ghost predicate Waiting(s: Registry, now: nat) {
    && (exists k :: k in s.entries && s.entries[k].Pending() && now < s.entries[k].state.deadline)
    && (forall k :: k in s.entries && s.entries[k].state.Enqueued? ==> now < s.entries[k].state.deadline)
  }

  lemma PrunedKeepsTheRest(s: Registry, now: nat, k: OpId)
    ensures k in Pruned(s, now).entries <==> k in s.entries && !Lapsed(s, k, now)
    ensures k in Pruned(s, now).entries ==> Pruned(s, now).entries[k] == s.entries[k]
  {
  }

  lemma PrunedIsFrozen(s: Registry, now: nat)
    ensures Frozen(Pruned(s, now), Recorded(s))
  {
  }

  lemma TakeOutTakesOut(m: Manager, t: string, after: After, abort: bool)
    requires Inv(m) && t in m.threads
    ensures var g := m.threads[t].generation;
            g in m.registries && Valid(m.registries[g]) && TakenOut(m, TakeOut(m, t, after, abort), t, g, after, abort)
  {
    hide Valid, Frozen, L.Consistent, L.Record, ExactTombstones, Pruned, Lapsed, Recorded, SnapshotOf;
    var g := m.threads[t].generation;
    assert TaskOk(m, g);
    PrunedFacts(m, g);
    PrunedIsFrozen(m.registries[g], m.now);
    RecordIsExact(m.ledger, t, Pruned(m.registries[g], m.now), Recorded(m.registries[g]));
    forall k
      ensures k in Pruned(m.registries[g], m.now).entries <==> k in m.registries[g].entries && !Lapsed(m.registries[g], k, m.now)
    {
      PrunedKeepsTheRest(m.registries[g], m.now, k);
    }
  }

  predicate Owns(m: Manager, t: string, g: nat) { t in m.threads && m.threads[t].generation == g }

  /** A fence takes its actor out exactly when the thread still runs that generation. */
  lemma FenceTakesOutExactly(m: Manager, t: string, g: nat, other: bool, u: Manager)
    requires Inv(m) && m.lock == Some(FenceCheck(t, g)) && u == Next(m, Advance(other))
    ensures Owns(m, t, g) ==> TakenOut(m, u, t, g, Release, true)
    ensures !Owns(m, t, g) ==> u == m.(lock := None)
  {
    hide Inv, TakeOut, TakenOut;
    if Owns(m, t, g) {
      TakeOutTakesOut(m, t, Release, true);
    }
  }

  /** A removal takes out whatever actor the thread has. */
  lemma RemovalTakesOutExactly(m: Manager, t: string, after: After, other: bool, u: Manager)
    requires Inv(m) && m.lock == Some(Removing(t, after)) && u == Next(m, Advance(other))
    ensures t in m.threads ==> TakenOut(m, u, t, m.threads[t].generation, after, false)
    ensures t !in m.threads ==>
              u == m.(lock := if after.Release? then None else Some(EnsureSpawn(t, after.workspaceId)))
  {
    hide Inv, TakeOut, TakenOut;
    if t in m.threads {
      TakeOutTakesOut(m, t, after, false);
    }
  }

  lemma GateWaitsExactly(s: Registry, now: nat)
    requires Valid(s)
    ensures var r := Pruned(s, now); GateOver(r, r.order, now).WaitUntil? <==> Waiting(s, now)
  {
    hide Valid, GateOver, Pruned;
    var r := Pruned(s, now);
    PrunedKeepsValid(s, now);
    OrderListed(r);
    GateOverMeans(r, r.order, now);
    assert (set k | k in r.order) == r.entries.Keys;
    forall k: OpId
      ensures k in r.entries <==> k in s.entries && !Lapsed(s, k, now)
      ensures k in r.entries ==> r.entries[k] == s.entries[k]
    {
      PrunedKeepsTheRest(s, now, k);
    }
    WaitingIsTheGate(s, r, now, GateOver(r, r.order, now));
  }

  lemma WaitingIsTheGate(s: Registry, r: Registry, now: nat, gate: Gate)
    requires forall k :: k in r.entries <==> k in s.entries && !Lapsed(s, k, now)
    requires forall k :: k in r.entries ==> r.entries[k] == s.entries[k]
    requires GateMeans(r, r.entries.Keys, now, gate)
    ensures gate.WaitUntil? <==> Waiting(s, now)
  {
    match gate
    case FenceExpiredAccepted =>
      var k :| k in r.entries && r.Expired(k, now);
      assert s.entries[k].state.Enqueued? && s.entries[k].state.deadline <= now;
    case Ready =>
      forall k | k in s.entries && s.entries[k].Pending()
        ensures s.entries[k].state.deadline <= now
      {
        assert k !in r.entries;
      }
    case WaitUntil(d) =>
      var k :| k in r.entries && r.entries[k].Pending() && r.entries[k].state.deadline == d;
      assert now < s.entries[k].state.deadline;
      forall j | j in s.entries && s.entries[j].state.Enqueued?
        ensures now < s.entries[j].state.deadline
      {
        assert j in r.entries && !r.Expired(j, now);
      }
  }

  /** A retirement takes its actor out exactly when the thread still runs that generation, no other turn
      is active, and either nothing is worth waiting for or the time to wait is over; while it waits it
      only drops the reservations nobody accepted. */
  lemma RetirementTakesOutExactly(m: Manager, t: string, g: nat, deadline: nat, other: bool, u: Manager)
    requires Inv(m) && m.lock == Some(RetireCheck(t, g, deadline)) && u == Next(m, Advance(other))
    ensures !Owns(m, t, g) || other ==> u == m.(lock := None)
    ensures Owns(m, t, g) && !other ==> g in m.registries
    ensures Owns(m, t, g) && !other ==>
              if Waiting(m.registries[g], m.now) && m.now < deadline then OnlyPrunes(m, u, g)
              else TakenOut(m, u, t, g, Release, true)
  {
    hide Inv, TakeOut, TakenOut, Valid, Pruned, GateOver, Waiting, Lapsed;
    if Owns(m, t, g) {
      OwnedIsKnown(m, t);
      KnownRegistry(m, g);
      PrunedFacts(m, g);
      GateWaitsExactly(m.registries[g], m.now);
      TakeOutTakesOut(m, t, Release, true);
      forall k
        ensures k in Pruned(m.registries[g], m.now).entries <==> k in m.registries[g].entries && !Lapsed(m.registries[g], k, m.now)
      {
        PrunedKeepsTheRest(m.registries[g], m.now, k);
      }
    }
  }

  /** The lock is free again and only lapsed reservations of `g` are gone. */
  ghost predicate OnlyPrunes(m: Manager, u: Manager, g: nat) {
    && g in m.registries && g in u.registries
    && u == m.(lock := None, registries := m.registries[g := u.registries[g]])
    && (forall k :: k in u.registries[g].entries <==> k in m.registries[g].entries && !Lapsed(m.registries[g], k, m.now))
  }

  lemma OwnedIsKnown(m: Manager, t: string)
    requires Inv(m) && t in m.threads
    ensures m.threads[t].generation in m.tasks && m.tasks[m.threads[t].generation].threadId == t
    ensures !m.tasks[m.threads[t].generation].joined
  {
  }

  /** An ensure spawns exactly when the thread has no actor, replaces exactly an actor of the same
      workspace that has ended, and otherwise leaves everything as it is. */
  lemma EnsureSpawnsExactly(m: Manager, t: string, ws: string, other: bool, u: Manager)
    requires Inv(m) && m.lock == Some(EnsureCheck(t, ws)) && u == Next(m, Advance(other))
    ensures t in m.threads ==> m.threads[t].generation in m.tasks
    ensures && u == m.(lock := u.lock)
            && (u.lock == Some(EnsureSpawn(t, ws)) <==> t !in m.threads)
            && (u.lock == Some(Removing(t, ThenSpawn(ws)))
                <==> t in m.threads && m.threads[t].workspaceId == ws && m.tasks[m.threads[t].generation].finished)
            && (u.lock.None?
                <==> t in m.threads && (m.threads[t].workspaceId != ws || !m.tasks[m.threads[t].generation].finished))
  {
    hide Valid, Frozen, L.Consistent;
  }

  /** A spawn takes the next generation, starts its task and gives it an empty registry. */
  lemma SpawnStartsAfresh(m: Manager, t: string, ws: string, other: bool, u: Manager)
    requires Inv(m) && m.lock == Some(EnsureSpawn(t, ws)) && u == Next(m, Advance(other))
    ensures var g := m.nextGeneration;
            && u == m.(nextGeneration := g + 1, tasks := u.tasks, registries := u.registries, lock := u.lock)
            && u.lock == Some(EnsureInsert(t, ws, g))
            && g !in m.tasks && u.tasks.Keys == m.tasks.Keys + {g} && u.registries.Keys == m.registries.Keys + {g}
            && (forall h :: h in m.tasks ==> u.tasks[h] == m.tasks[h])
            && (forall h :: h in m.registries && h != g ==> u.registries[h] == m.registries[h])
            && u.tasks[g].threadId == t && !u.tasks[g].finished && !u.tasks[g].joined
            && u.registries[g].entries == map[] && u.registries[g].order == []
  {
    hide Inv;
    NextIsNew(m);
  }

  // ----------------------------------------------------------------- from taking the lock to giving it back

  /** What every step but the lock holder's own leaves alone. */
  ghost predicate Bystander(m: Manager, u: Manager) {
    && u.lock == m.lock && u.threads == m.threads && u.aborted == m.aborted && u.ledger == m.ledger
    && u.nextGeneration == m.nextGeneration && u.tasks.Keys == m.tasks.Keys
    && (forall g :: g in m.tasks ==> u.tasks[g].joined == m.tasks[g].joined && (m.tasks[g].finished ==> u.tasks[g].finished))
  }

  lemma OthersStandBy(m: Manager, step: Step)
    requires Inv(m) && Enabled(m, step) && m.lock.Some? && !step.Advance?
    ensures Bystander(m, Next(m, step))
  {
    hide Inv;
  }

  /** Generation `g` of thread `t` is aborted and joined, is no longer registered, and each operation
      left in its registry has the tombstone it deserves. */
  ghost predicate Retired(m: Manager, t: string, g: nat) {
    && !Owns(m, t, g)
    && g in m.aborted && g in m.tasks && m.tasks[g].joined
    && g in m.registries && g in m.atJoin
    && forall k :: k in m.registries[g].entries ==>
         L.Key(t, k) in m.ledger.entries && Deserves(m.registries[g].entries[k], k, m.atJoin[g], m.ledger.entries[L.Key(t, k)])
  }

  /** Waiting for the task to end marks it joined and aborted, and moves on to the second recording. */
  lemma DrainingJoins(m: Manager, t: string, g: nat, after: After, other: bool, u: Manager)
    requires Inv(m) && m.lock == Some(Draining(t, g, after)) && Enabled(m, Advance(other)) && u == Next(m, Advance(other))
    ensures u.lock == Some(Joined(t, g, after)) && u.threads == m.threads && u.nextGeneration == m.nextGeneration
    ensures g in u.aborted && g in u.tasks && u.tasks[g].joined
  {
    hide Inv, Recorded;
    JobIsOk(m);
  }

  lemma JoinedRetires(m: Manager, t: string, g: nat, after: After, other: bool, u: Manager)
    requires Inv(m) && m.lock == Some(Joined(t, g, after)) && g in m.aborted && u == Next(m, Advance(other))
    ensures u.lock == (if after.Release? then None else Some(EnsureSpawn(t, after.workspaceId)))
    ensures u.threads == m.threads && u.nextGeneration == m.nextGeneration && u.aborted == m.aborted
    ensures Retired(u, t, g)
  {
    hide Inv, Valid, Pruned, L.Record, Deserves, L.Others, L.IsSuffix;
    JobIsOk(m);
    KnownRegistry(m, g);
    PrunedFacts(m, g);
    RecordFrames(m, t, g);
    JoinedActorLeavesExactTombstones(m, t, g, after);
  }

  predicate Ending(lock: Option<Job>, t: string, g: nat) {
    lock == Some(Draining(t, g, Release)) || lock == Some(Joined(t, g, Release))
  }

  /** Once an actor is taken out the call that did it gives the lock back only when it is retired. */
  lemma {:induction false} TakenOutIsRetired(m: Manager, steps: seq<Step>, t: string, g: nat)
    requires Inv(m) && RunsFrom(m, steps) && HeldUntilEnd(m, steps) && End(m, steps).lock.None?
    requires Ending(m.lock, t, g) && (m.lock.value.Joined? ==> g in m.aborted)
    ensures Retired(End(m, steps), t, g) && End(m, steps).threads == m.threads
    decreases |steps|
  {
    hide Inv, Next, Enabled, Retired;
    if steps != [] {
      var u := Next(m, steps[0]);
      StepKeepsInv(m, steps[0]);
      if steps[0].Advance? {
        match m.lock.value
        case Draining(_, _, _) =>
          DrainingJoins(m, t, g, Release, steps[0].otherTurnActive, u);
          TakenOutIsRetired(u, steps[1..], t, g);
        case Joined(_, _, _) =>
          JoinedRetires(m, t, g, Release, steps[0].otherTurnActive, u);
          assert steps[1..] == [];
      } else {
        OthersStandBy(m, steps[0]);
        TakenOutIsRetired(u, steps[1..], t, g);
      }
    }
  }

  /** A call to fence generation `g` has, by the time it gives the lock back, retired that generation if
      the thread was still running it, and otherwise left every handle as it was. */
  lemma {:induction false} FenceRetiresExactly(m: Manager, steps: seq<Step>, t: string, g: nat)
    requires Inv(m) && RunsFrom(m, steps) && HeldUntilEnd(m, steps) && End(m, steps).lock.None?
    requires m.lock == Some(FenceCheck(t, g))
    ensures Owns(m, t, g) ==> Retired(End(m, steps), t, g) && End(m, steps).threads == m.threads - {t}
    ensures !Owns(m, t, g) ==> End(m, steps).threads == m.threads && End(m, steps).aborted == m.aborted
    decreases |steps|
  {
    hide Inv, Next, Enabled, Retired;
    if steps != [] {
      var u := Next(m, steps[0]);
      StepKeepsInv(m, steps[0]);
      if steps[0].Advance? {
        FenceTakesOutExactly(m, t, g, steps[0].otherTurnActive, u);
        if Owns(m, t, g) {
          TakenOutIsRetired(u, steps[1..], t, g);
        } else {
          assert steps[1..] == [];
        }
      } else {
        OthersStandBy(m, steps[0]);
        FenceRetiresExactly(u, steps[1..], t, g);
      }
    }
  }

  /** A call to remove a thread has retired whatever actor the thread had. */
  lemma {:induction false} RemovalRetiresExactly(m: Manager, steps: seq<Step>, t: string)
    requires Inv(m) && RunsFrom(m, steps) && HeldUntilEnd(m, steps) && End(m, steps).lock.None?
    requires m.lock == Some(Removing(t, Release))
    ensures t in m.threads ==> Retired(End(m, steps), t, m.threads[t].generation)
    ensures End(m, steps).threads == m.threads - {t}
    decreases |steps|
  {
    hide Inv, Next, Enabled, Retired;
    if steps != [] {
      var u := Next(m, steps[0]);
      StepKeepsInv(m, steps[0]);
      if steps[0].Advance? {
        RemovalTakesOutExactly(m, t, Release, steps[0].otherTurnActive, u);
        if t in m.threads {
          TakenOutIsRetired(u, steps[1..], t, m.threads[t].generation);
        } else {
          assert steps[1..] == [];
        }
      } else {
        OthersStandBy(m, steps[0]);
        RemovalRetiresExactly(u, steps[1..], t);
      }
    }
  }

  /** A call to retire a generation either retires it or leaves every handle as it was. */
  lemma {:induction false} RetirementRetiresOrLeaves(m: Manager, steps: seq<Step>, t: string, g: nat, deadline: nat)
    requires Inv(m) && RunsFrom(m, steps) && HeldUntilEnd(m, steps) && End(m, steps).lock.None?
    requires m.lock == Some(RetireCheck(t, g, deadline))
    ensures || (End(m, steps).threads == m.threads && End(m, steps).aborted == m.aborted)
            || (Owns(m, t, g) && Retired(End(m, steps), t, g) && End(m, steps).threads == m.threads - {t})
    decreases |steps|
  {
    hide Inv, Next, Enabled, Retired, Waiting;
    if steps != [] {
      var u := Next(m, steps[0]);
      StepKeepsInv(m, steps[0]);
      if steps[0].Advance? {
        RetirementTakesOutExactly(m, t, g, deadline, steps[0].otherTurnActive, u);
        if u.lock.None? {
          assert steps[1..] == [];
        } else {
          TakenOutIsRetired(u, steps[1..], t, g);
        }
      } else {
        OthersStandBy(m, steps[0]);
        RetirementRetiresOrLeaves(u, steps[1..], t, g, deadline);
      }
    }
  }

  /** From a spawn on, the call ends with a handle of the next generation in the asked workspace. */
  lemma {:induction false} SpawnRegisters(m: Manager, steps: seq<Step>, t: string, ws: string, g: nat)
    requires Inv(m) && RunsFrom(m, steps) && HeldUntilEnd(m, steps) && End(m, steps).lock.None?
    requires (m.lock == Some(EnsureSpawn(t, ws)) && g == m.nextGeneration) || m.lock == Some(EnsureInsert(t, ws, g))
    ensures End(m, steps).threads == m.threads[t := Handle(ws, g)]
    decreases |steps|
  {
    hide Inv, Next, Enabled;
    if steps != [] {
      var u := Next(m, steps[0]);
      StepKeepsInv(m, steps[0]);
      if steps[0].Advance? {
        match m.lock.value
        case EnsureSpawn(_, _) =>
          SpawnStartsAfresh(m, t, ws, steps[0].otherTurnActive, u);
          SpawnRegisters(u, steps[1..], t, ws, g);
        case EnsureInsert(_, _, _) =>
          InsertRegisters(m, t, ws, g, steps[0].otherTurnActive, u);
          assert steps[1..] == [];
      } else {
        OthersStandBy(m, steps[0]);
        SpawnRegisters(u, steps[1..], t, ws, g);
      }
    }
  }

  lemma InsertRegisters(m: Manager, t: string, ws: string, g: nat, other: bool, u: Manager)
    requires Inv(m) && m.lock == Some(EnsureInsert(t, ws, g)) && u == Next(m, Advance(other))
    ensures u == m.(threads := m.threads[t := Handle(ws, g)], lock := None)
  {
    hide Inv;
  }

  predicate Replacing(lock: Option<Job>, t: string, ws: string, g: nat) {
    lock == Some(Draining(t, g, ThenSpawn(ws))) || lock == Some(Joined(t, g, ThenSpawn(ws)))
  }

  /** An actor taken out to be replaced is joined before its successor is registered. */
  lemma {:induction false} ReplacementRegisters(m: Manager, steps: seq<Step>, t: string, ws: string, g: nat)
    requires Inv(m) && RunsFrom(m, steps) && HeldUntilEnd(m, steps) && End(m, steps).lock.None?
    requires Replacing(m.lock, t, ws, g) && (m.lock.value.Joined? ==> g in m.aborted)
    ensures End(m, steps).threads == m.threads[t := Handle(ws, m.nextGeneration)]
    ensures g in End(m, steps).tasks && End(m, steps).tasks[g].joined
    decreases |steps|
  {
    hide Inv, Next, Enabled, Extends;
    if steps != [] {
      var u := Next(m, steps[0]);
      StepKeepsInv(m, steps[0]);
      if steps[0].Advance? {
        match m.lock.value
        case Draining(_, _, _) =>
          DrainingJoins(m, t, g, ThenSpawn(ws), steps[0].otherTurnActive, u);
          ReplacementRegisters(u, steps[1..], t, ws, g);
        case Joined(_, _, _) =>
          JoinedRetires(m, t, g, ThenSpawn(ws), steps[0].otherTurnActive, u);
          SpawnRegisters(u, steps[1..], t, ws, u.nextGeneration);
          JoinedStays(u, steps[1..], g);
      } else {
        OthersStandBy(m, steps[0]);
        ReplacementRegisters(u, steps[1..], t, ws, g);
      }
    }
  }

  lemma JoinedStays(m: Manager, steps: seq<Step>, g: nat)
    requires Inv(m) && RunsFrom(m, steps) && g in m.tasks && m.tasks[g].joined
    ensures g in End(m, steps).tasks && End(m, steps).tasks[g].joined
  {
    hide Inv, Next, Enabled, RunsFrom, End;
    RunExtends(m, steps);
  }

  lemma {:induction false} ReplacingRemovalRegisters(m: Manager, steps: seq<Step>, t: string, ws: string)
    requires Inv(m) && RunsFrom(m, steps) && HeldUntilEnd(m, steps) && End(m, steps).lock.None?
    requires m.lock == Some(Removing(t, ThenSpawn(ws))) && t in m.threads
    ensures End(m, steps).threads == m.threads[t := Handle(ws, m.nextGeneration)]
    ensures var g := m.threads[t].generation; g in End(m, steps).tasks && End(m, steps).tasks[g].joined
    decreases |steps|
  {
    hide Inv, Next, Enabled;
    if steps != [] {
      var u := Next(m, steps[0]);
      StepKeepsInv(m, steps[0]);
      if steps[0].Advance? {
        RemovalTakesOutExactly(m, t, ThenSpawn(ws), steps[0].otherTurnActive, u);
        ReplacementRegisters(u, steps[1..], t, ws, m.threads[t].generation);
      } else {
        OthersStandBy(m, steps[0]);
        ReplacingRemovalRegisters(u, steps[1..], t, ws);
      }
    }
  }

  predicate Ended(m: Manager, t: string) {
    t in m.threads && m.threads[t].generation in m.tasks && m.tasks[m.threads[t].generation].finished
  }

  /** A call to ensure an actor: an absent one is created, an ended one of the same workspace is joined and
      replaced, both under the next generation; an actor of another workspace is left alone, and a live
      one is too unless it ends before it is looked at. */
  lemma {:induction false} EnsureRegistersExactly(m: Manager, steps: seq<Step>, t: string, ws: string)
    requires Inv(m) && RunsFrom(m, steps) && HeldUntilEnd(m, steps) && End(m, steps).lock.None?
    requires m.lock == Some(EnsureCheck(t, ws))
    ensures var renewed := m.threads[t := Handle(ws, m.nextGeneration)];
            && (t !in m.threads ==> End(m, steps).threads == renewed)
            && (t in m.threads && m.threads[t].workspaceId != ws ==> End(m, steps).threads == m.threads)
            && (t in m.threads && m.threads[t].workspaceId == ws ==>
                  || (End(m, steps).threads == m.threads && !Ended(m, t))
                  || (&& End(m, steps).threads == renewed
                      && m.threads[t].generation in End(m, steps).tasks
                      && End(m, steps).tasks[m.threads[t].generation].joined))
    decreases |steps|
  {
    hide Inv, Next, Enabled;
    if steps != [] {
      var u := Next(m, steps[0]);
      StepKeepsInv(m, steps[0]);
      if steps[0].Advance? {
        EnsureSpawnsExactly(m, t, ws, steps[0].otherTurnActive, u);
        if u.lock.None? {
          assert steps[1..] == [];
        } else if t !in m.threads {
          SpawnRegisters(u, steps[1..], t, ws, u.nextGeneration);
        } else {
          ReplacingRemovalRegisters(u, steps[1..], t, ws);
        }
      } else {
        OthersStandBy(m, steps[0]);
        EnsureRegistersExactly(u, steps[1..], t, ws);
      }
    }
  }

  // ------------------------------------------------------------------- asking for an operation's status

  /** `None` in the answer: the thread is known but the operation is not. */
  function StatusQuery(m: Manager, t: string, id: OpId): Result<Option<Status>, ()> {
    var live := t in m.threads && m.threads[t].generation in m.registries;
    if live && id in m.registries[m.threads[t].generation].entries
    then Ok(Some(StatusOf(m.registries[m.threads[t].generation].entries[id], false)))
    else if L.Key(t, id) in m.ledger.entries then Ok(Some(m.ledger.entries[L.Key(t, id)]))
    else if live then Ok(None)
    else Err(())
  }

  /** The status of a live operation: pending until it has an outcome, then applied or rejected for its reason. */
  ghost predicate Reads(e: ControlRegistry.Entry, s: Status) {
    && s.generation == e.generation
    && (s.PendingStatus? <==> e.Pending())
    && (s.Applied? <==> e.state.Completed? && !e.state.outcome.Rejected())
    && (s.RejectedStatus? <==> e.state.Completed? && e.state.outcome.Rejected())
    && (s.RejectedStatus? ==> e.state.outcome in {StartOutcome(Err(s.failure)), ControlOutcome(Err(s.failure))})
  }

  /** A query answers from the live registry, then from the tombstones, and fails exactly when the thread has
      no actor and the operation no tombstone. */
  lemma QueryAnswersExactly(m: Manager, t: string, id: OpId)
    requires Inv(m)
    ensures var r := StatusQuery(m, t, id);
            && (r.Err? <==> t !in m.threads && L.Key(t, id) !in m.ledger.entries)
            && (t in m.threads ==> m.threads[t].generation in m.registries)
            && (t in m.threads && id in m.registries[m.threads[t].generation].entries ==>
                  r.Ok? && r.value.Some? && Reads(m.registries[m.threads[t].generation].entries[id], r.value.value))
            && (!(t in m.threads && id in m.registries[m.threads[t].generation].entries) && r.Ok? ==>
                  (r.value.Some? <==> L.Key(t, id) in m.ledger.entries))
  {
    hide Inv, StatusOf, Reads;
    if t in m.threads {
      var g := m.threads[t].generation;
      OwnedIsKnown(m, t);
      KnownRegistry(m, g);
      if id in m.registries[g].entries {
        StatusReads(m.registries[g].entries[id]);
      }
    }
  }

  lemma StatusReads(e: ControlRegistry.Entry)
    ensures Reads(e, StatusOf(e, false))
  {
  }

  /** Once a fence or removal has given the lock back, a query for any operation left in the retired registry
      is answered with the outcome recorded by join time, or with a demand for reconciliation. */
  lemma RetiredOperationIsAnswered(m: Manager, t: string, g: nat, k: OpId)
    requires Retired(m, t, g) && t !in m.threads && k in m.registries[g].entries
    ensures var r := StatusQuery(m, t, k);
            && r.Ok? && r.value.Some? && !r.value.value.PendingStatus?
            && Deserves(m.registries[g].entries[k], k, m.atJoin[g], r.value.value)
  {
  }
}
