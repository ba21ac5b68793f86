/**
 The bounded per-actor table of control operations.

 A `Registry` value holds what one lock acquisition sees; the class
 `ControlOperationRegistry` is the table updated in place, and each of its
 methods is proved to be the corresponding function on values. Times are
 milliseconds on one clock whose largest representable instant is `clockMax`.
 */
module ControlRegistry {
  import opened Common

  const MAX_ENQUEUE_TIMEOUT: nat := 30_000
  const MAX_ACK_TIMEOUT: nat := 120_000
  const MAX_CAPACITY: nat := 1_024

  datatype Config = Config(enqueueTimeout: nat, ackTimeout: nat, capacity: nat)

  function Clamp(x: nat, lo: nat, hi: nat): nat
    requires lo <= hi
  {
    if x < lo then lo else if x > hi then hi else x
  }

  predicate InBounds(c: Config) {
    && 1 <= c.enqueueTimeout <= MAX_ENQUEUE_TIMEOUT
    && 1 <= c.ackTimeout <= MAX_ACK_TIMEOUT
    && 1 <= c.capacity <= MAX_CAPACITY
  }

  /** Untrusted settings are clamped before any registry is built. */
  function Normalized(c: Config): (r: Config)
    ensures InBounds(r)
    ensures InBounds(c) ==> r == c
  {
    Config(Clamp(c.enqueueTimeout, 1, MAX_ENQUEUE_TIMEOUT),
           Clamp(c.ackTimeout, 1, MAX_ACK_TIMEOUT),
           Clamp(c.capacity, 1, MAX_CAPACITY))
  }

  datatype Operation =
    | StartTurnOp | CancelAttemptOp | CancelTurnOp
    | StartRecoveryAttemptOp | StartRestoredRecoveryTurnOp

  datatype OpId =
    | StartTurn(turnId: string)
    | CancelAttempt(turnId: string, itemId: string)
    | CancelTurn(turnId: string)
    | StartRecoveryAttempt(attemptId: string)
    | StartRestoredRecoveryTurn(attemptId: string)
  {
    function Operation(): Operation {
      match this
      case StartTurn(_) => StartTurnOp
      case CancelAttempt(_, _) => CancelAttemptOp
      case CancelTurn(_) => CancelTurnOp
      case StartRecoveryAttempt(_) => StartRecoveryAttemptOp
      case StartRestoredRecoveryTurn(_) => StartRestoredRecoveryTurnOp
    }
  }

  datatype Failure = TurnAlreadyRunning | NoActiveTurn | TurnMismatch | AttemptNotRunning
                   | WindowContinuationBlocked | Internal(message: string)

  /** A start reports the run it created; every other operation only succeeds or fails. */
  datatype Outcome = StartOutcome(run: Result<nat, Failure>) | ControlOutcome(done: Result<(), Failure>)
  {
    predicate Rejected() {
      match this
      case StartOutcome(r) => r.Err?
      case ControlOutcome(r) => r.Err?
    }
  }

  datatype OpState = Dispatching(deadline: nat) | Enqueued(deadline: nat) | Completed(outcome: Outcome)

  datatype Entry = Entry(generation: nat, state: OpState)
  {
    predicate Pending() { !state.Completed? }

    predicate ExpiredReservation(now: nat) { state.Dispatching? && now >= state.deadline }

    predicate ExpiredAccepted(now: nat) { state.Enqueued? && now >= state.deadline }

    predicate Evictable(now: nat) { state.Completed? || ExpiredReservation(now) }
  }

  datatype Admission =
    | Fresh
    | AlreadyPending
    | AlreadyCompleted(outcome: Outcome)
    | AcceptedDeadlineExceeded(operation: Operation, generation: nat)
    | Saturated

  datatype Gate = Ready | WaitUntil(deadline: nat) | FenceExpiredAccepted

  datatype Status =
    | PendingStatus(generation: nat)
    | Applied(generation: nat)
    | RejectedStatus(generation: nat, failure: Failure)
    | ReconciliationRequired(generation: nat)

  datatype Registry = Registry(
    config: Config, clockMax: nat, entries: map<OpId, Entry>, order: seq<OpId>)
  {
    predicate Expired(id: OpId, now: nat) { id in entries && entries[id].ExpiredAccepted(now) }

    predicate CanEvict(id: OpId, now: nat) { id in entries && entries[id].Evictable(now) }

    predicate Unaccepted(id: OpId, now: nat) { id in entries && entries[id].ExpiredReservation(now) }
  }

  function New(config: Config, clockMax: nat): Registry {
    Registry(Normalized(config), clockMax, map[], [])
  }

  /** A deadline that the clock cannot represent falls back to `now`. */
  function DeadlineAfter(now: nat, timeout: nat, clockMax: nat): nat {
    if now + timeout <= clockMax then now + timeout else now
  }

  /** The two halves of the table describe the same operations, within capacity. */
  ghost predicate Valid(s: Registry) {
    && InBounds(s.config)
    && NoDup(s.order)
    && (forall k :: k in s.order <==> k in s.entries)
    && |s.entries| <= s.config.capacity
  }

  // ---------------------------------------------------------------- begin_at

  /** The answer an existing entry of the same generation gives by itself. */
  function Retained(id: OpId, e: Entry, now: nat): Option<Admission> {
    match e.state
    case Completed(o) => if o.Rejected() then None else Some(AlreadyCompleted(o))
    case Dispatching(d) => if now < d then Some(AlreadyPending) else None
    case Enqueued(d) =>
      if now < d then Some(AlreadyPending)
      else Some(AcceptedDeadlineExceeded(id.Operation(), e.generation))
  }

  function Remove(s: Registry, id: OpId): Registry {
    s.(entries := s.entries - {id}, order := Without(s.order, id))
  }

  function FirstExpired(s: Registry, now: nat): nat { FirstIndex(s.order, k => s.Expired(k, now)) }

  function FirstEvictable(s: Registry, now: nat): nat { FirstIndex(s.order, k => s.CanEvict(k, now)) }

  function EvictAt(s: Registry, i: nat): Registry
    requires i < |s.order|
  {
    s.(entries := s.entries - {s.order[i]}, order := s.order[..i] + s.order[i + 1..])
  }

  lemma EvictShrinks(s: Registry, i: nat)
    requires i < |s.order| && s.order[i] in s.entries
    ensures |EvictAt(s, i).entries| == |s.entries| - 1
  {
    assert EvictAt(s, i).entries.Keys == s.entries.Keys - {s.order[i]};
  }

  /** The admission loop: evict until there is room, or report why that is impossible. */
  function MakeRoom(s: Registry, now: nat): (Registry, Option<Admission>)
    decreases |s.entries|
  {
    if |s.entries| < s.config.capacity then (s, None)
    else
      var expired := FirstExpired(s, now);
      if expired < |s.order| then
        var id := s.order[expired];
        (s, Some(AcceptedDeadlineExceeded(id.Operation(), s.entries[id].generation)))
      else
        var victim := FirstEvictable(s, now);
        if victim == |s.order| then (s, Some(Saturated))
        else
          EvictShrinks(s, victim);
          MakeRoom(EvictAt(s, victim), now)
  }

  function Reserve(s: Registry, id: OpId, generation: nat, now: nat): Registry {
    var deadline := DeadlineAfter(now, s.config.enqueueTimeout, s.clockMax);
    s.(entries := s.entries[id := Entry(generation, Dispatching(deadline))], order := s.order + [id])
  }

  function Begin(s: Registry, id: OpId, generation: nat, now: nat): (Registry, Admission) {
    if id in s.entries && s.entries[id].generation == generation && Retained(id, s.entries[id], now).Some? then
      (s, Retained(id, s.entries[id], now).value)
    else
      var (roomy, refusal) := MakeRoom(Remove(s, id), now);
      if refusal.Some? then (roomy, refusal.value) else (Reserve(roomy, id, generation, now), Fresh)
  }

  // ------------------------------------------- mark, abandon, gate, complete

  function MarkEnqueued(s: Registry, id: OpId, generation: nat, now: nat): Registry {
    if id in s.entries && s.entries[id].generation == generation && s.entries[id].state.Dispatching? then
      var deadline := DeadlineAfter(now, s.config.ackTimeout, s.clockMax);
      s.(entries := s.entries[id := Entry(generation, Enqueued(deadline))])
    else s
  }

  function Abandon(s: Registry, id: OpId, generation: nat): Registry {
    if id in s.entries && s.entries[id].generation == generation && s.entries[id].Pending() then Remove(s, id)
    else s
  }

  function CompleteWith(s: Registry, id: OpId, generation: nat, attempted: Outcome): (Registry, Outcome) {
    if id !in s.entries || s.entries[id].generation != generation then (s, attempted)
    else if s.entries[id].state.Completed? then (s, s.entries[id].state.outcome)
    else
      (s.(entries := s.entries[id := Entry(generation, Completed(attempted))],
          order := Without(s.order, id) + [id]),
       attempted)
  }

  function CompletedOutcome(s: Registry, id: OpId, generation: nat): Option<Outcome> {
    if id in s.entries && s.entries[id].generation == generation && s.entries[id].state.Completed?
    then Some(s.entries[id].state.outcome) else None
  }

  /** The retirement gate first forgets reservations that never reached the mailbox. */
  function Pruned(s: Registry, now: nat): Registry {
    s.(entries := map k | k in s.entries && !s.Unaccepted(k, now) :: s.entries[k],
       order := SurvivingOrder(s, now))
  }

  function SurvivingOrder(s: Registry, now: nat): seq<OpId> { Filter(s.order, k => !s.Unaccepted(k, now)) }

  function ExpiredReservations(s: Registry, now: nat): seq<OpId> { Filter(s.order, k => s.Unaccepted(k, now)) }

  /** Removing operations one after the other. */
  function DropAll(entries: map<OpId, Entry>, ids: seq<OpId>): map<OpId, Entry> {
    if ids == [] then entries else DropAll(entries, ids[..|ids| - 1]) - {ids[|ids| - 1]}
  }

  lemma ReservationsListed(s: Registry, now: nat)
    requires Valid(s)
    ensures forall k :: k in ExpiredReservations(s, now) <==> s.Unaccepted(k, now)
  {
  }

  /** What the gate answers, read off the oldest-first list. */
  function GateOver(s: Registry, keys: seq<OpId>, now: nat): Gate {
    if keys == [] then Ready
    else
      var rest := GateOver(s, keys[1..], now);
      if keys[0] !in s.entries then rest
      else match s.entries[keys[0]].state
        case Completed(_) => rest
        case Enqueued(d) => if now >= d then FenceExpiredAccepted else Sooner(rest, d)
        case Dispatching(d) => Sooner(rest, d)
  }

  function Sooner(g: Gate, d: nat): Gate {
    match g
    case FenceExpiredAccepted => g
    case WaitUntil(w) => WaitUntil(Min(w, d))
    case Ready => WaitUntil(d)
  }

  function StatusOf(e: Entry, retiring: bool): Status {
    match e.state
    case Dispatching(_) => if retiring then ReconciliationRequired(e.generation) else PendingStatus(e.generation)
    case Enqueued(_) => if retiring then ReconciliationRequired(e.generation) else PendingStatus(e.generation)
    case Completed(StartOutcome(Ok(_))) => Applied(e.generation)
    case Completed(ControlOutcome(Ok(_))) => Applied(e.generation)
    case Completed(StartOutcome(Err(f))) => RejectedStatus(e.generation, f)
    case Completed(ControlOutcome(Err(f))) => RejectedStatus(e.generation, f)
  }

  function SnapshotOf(s: Registry, keys: seq<OpId>): (r: seq<(OpId, Status)>)
    requires forall k :: k in keys ==> k in s.entries
    ensures |r| == |keys|
    ensures forall i :: 0 <= i < |r| ==> r[i] == (keys[i], StatusOf(s.entries[keys[i]], true))
  {
    if keys == [] then [] else [(keys[0], StatusOf(s.entries[keys[0]], true))] + SnapshotOf(s, keys[1..])
  }

  // ------------------------------------------------- the table, updated in place

  class ControlOperationRegistry {
    const config: Config
    const clockMax: nat
    var entries: map<OpId, Entry>
    var order: seq<OpId>

    function View(): Registry
      reads this
    {
      Registry(config, clockMax, entries, order)
    }

    constructor WithConfig(requested: Config, clockMax: nat)
      ensures View() == New(requested, clockMax)
      ensures Valid(View())
    {
      this.config := Normalized(requested);
      this.clockMax := clockMax;
      this.entries := map[];
      this.order := [];
    }

    /** The eviction loop of an admission. */
    method EvictUntilRoom(now: nat) returns (refusal: Option<Admission>)
      modifies this
      ensures (View(), refusal) == MakeRoom(old(View()), now)
    {
      while |entries| >= config.capacity
        invariant MakeRoom(View(), now) == MakeRoom(old(View()), now)
        decreases |entries|
      {
        var table := View();
        var expired := FirstExpired(table, now);
        if expired < |order| {
          return Some(AcceptedDeadlineExceeded(order[expired].Operation(), entries[order[expired]].generation));
        }
        var victim := FirstEvictable(table, now);
        if victim == |order| {
          return Some(Saturated);
        }
        EvictShrinks(table, victim);
        entries, order := entries - {order[victim]}, order[..victim] + order[victim + 1..];
      }
      refusal := None;
    }

    method BeginAt(id: OpId, generation: nat, now: nat) returns (admission: Admission)
      modifies this
      ensures (View(), admission) == Begin(old(View()), id, generation, now)
    {
      if id in entries && entries[id].generation == generation {
        match entries[id].state
        case Completed(outcome) =>
          if !outcome.Rejected() { return AlreadyCompleted(outcome); }
        case Dispatching(deadline) =>
          if now < deadline { return AlreadyPending; }
        case Enqueued(deadline) =>
          if now < deadline { return AlreadyPending; }
          return AcceptedDeadlineExceeded(id.Operation(), generation);
      }
      entries := entries - {id};
      order := Without(order, id);
      assert View() == Remove(old(View()), id);
      var refusal := EvictUntilRoom(now);
      if refusal.Some? { return refusal.value; }
      order := order + [id];
      entries := entries[id := Entry(generation, Dispatching(DeadlineAfter(now, config.enqueueTimeout, clockMax)))];
      admission := Fresh;
    }

    method MarkEnqueuedAt(id: OpId, generation: nat, now: nat)
      modifies this
      ensures View() == MarkEnqueued(old(View()), id, generation, now)
    {
      if id in entries && entries[id].generation == generation && entries[id].state.Dispatching? {
        entries := entries[id := entries[id].(state := Enqueued(DeadlineAfter(now, config.ackTimeout, clockMax)))];
      }
    }

    method AbandonPending(id: OpId, generation: nat)
      modifies this
      ensures View() == Abandon(old(View()), id, generation)
    {
      if id in entries && entries[id].generation == generation && entries[id].Pending() {
        entries := entries - {id};
        order := Without(order, id);
      }
    }

    method Complete(id: OpId, generation: nat, attempted: Outcome) returns (canonical: Outcome)
      modifies this
      ensures (View(), canonical) == CompleteWith(old(View()), id, generation, attempted)
    {
      if id !in entries { return attempted; }
      if entries[id].generation != generation { return attempted; }
      if entries[id].state.Completed? { return entries[id].state.outcome; }
      entries := entries[id := entries[id].(state := Completed(attempted))];
      order := Without(order, id);
      order := order + [id];
      canonical := attempted;
    }

    method DropExpiredReservations(now: nat)
      requires Valid(View())
      modifies this
      ensures View() == Pruned(old(View()), now)
      ensures Valid(View())
    {
      hide Valid, Pruned, SurvivingOrder, ExpiredReservations;
      var table := View();
      var reservations := ExpiredReservations(table, now);
      var i := 0;
      assert reservations[..0] == [];
      while i < |reservations|
        invariant 0 <= i <= |reservations|
        invariant order == table.order
        invariant entries == DropAll(table.entries, reservations[..i])
      {
        assert reservations[..i + 1][..i] == reservations[..i];
        entries := entries - {reservations[i]};
        i := i + 1;
      }
      assert reservations[..i] == reservations;
      order := SurvivingOrder(table, now);
      DroppedIsPruned(table, now);
      PrunedKeepsValid(table, now);
    }

    /** The values of the table are visited in an arbitrary order. */
    method ReadGate(now: nat) returns (gate: Gate)
      requires Valid(View())
      ensures gate == GateOver(View(), View().order, now)
    {
      var todo := entries.Keys;
      gate := Ready;
      while todo != {}
        invariant todo <= entries.Keys
        invariant GateMeans(View(), entries.Keys - todo, now, gate)
        invariant !gate.FenceExpiredAccepted?
        decreases todo
      {
        var id :| id in todo;
        GateSeesOneMore(View(), entries.Keys - todo, id, now, gate);
        assert entries.Keys - (todo - {id}) == (entries.Keys - todo) + {id};
        match entries[id].state {
          case Completed(_) =>
          case Enqueued(deadline) =>
            if now >= deadline {
              GateIsOrderFree(View(), now, FenceExpiredAccepted);
              return FenceExpiredAccepted;
            }
            gate := Sooner(gate, deadline);
          case Dispatching(deadline) =>
            gate := Sooner(gate, deadline);
        }
        todo := todo - {id};
      }
      assert entries.Keys - todo == entries.Keys;
      GateIsOrderFree(View(), now, gate);
    }

    method RetirementGate(now: nat) returns (gate: Gate)
      requires Valid(View())
      modifies this
      ensures Valid(View())
      ensures View() == Pruned(old(View()), now)
      ensures gate == GateOver(View(), View().order, now)
    {
      DropExpiredReservations(now);
      gate := ReadGate(now);
    }

    method RetirementSnapshot(now: nat) returns (snapshot: seq<(OpId, Status)>)
      requires Valid(View())
      modifies this
      ensures Valid(View())
      ensures View() == Pruned(old(View()), now)
      ensures snapshot == SnapshotOf(View(), View().order)
    {
      var _ := RetirementGate(now);
      snapshot := SnapshotOf(View(), order);
    }
  }

  lemma DroppedIsPruned(s: Registry, now: nat)
    requires Valid(s)
    ensures s.(entries := DropAll(s.entries, ExpiredReservations(s, now)), order := SurvivingOrder(s, now))
            == Pruned(s, now)
  {
    hide SurvivingOrder, ExpiredReservations, DropAll, Valid;
    ReservationsListed(s, now);
    DropAllMeans(s.entries, ExpiredReservations(s, now));
    assert DropAll(s.entries, ExpiredReservations(s, now)) == Pruned(s, now).entries;
  }

  lemma {:induction false} DropAllMeans(entries: map<OpId, Entry>, ids: seq<OpId>)
    ensures DropAll(entries, ids) == map k | k in entries && k !in ids :: entries[k]
  {
    if ids != [] {
      var last := |ids| - 1;
      DropAllMeans(entries, ids[..last]);
      assert forall k :: k in ids <==> k in ids[..last] || k == ids[last];
    }
  }

  lemma PrunedKeepsValid(s: Registry, now: nat)
    requires Valid(s)
    ensures Valid(Pruned(s, now))
  {
    FilterNoDup(s.order, k => !s.Unaccepted(k, now));
    assert Pruned(s, now).entries.Keys <= s.entries.Keys;
    SubsetSize(Pruned(s, now).entries.Keys, s.entries.Keys);
  }

  lemma SubsetSize<T>(a: set<T>, b: set<T>)
    requires a <= b
    ensures |a| <= |b|
  {
    assert a + (b - a) == b;
  }

  // ------------------------------------------------------------ the gate's meaning

  /** What a gate answer says about a set of operations, with no mention of their order. */
  ghost predicate GateMeans(s: Registry, keys: set<OpId>, now: nat, g: Gate)
    requires keys <= s.entries.Keys
  {
    match g
    case FenceExpiredAccepted => exists k :: k in keys && s.Expired(k, now)
    case Ready => forall k :: k in keys ==> !s.entries[k].Pending()
    case WaitUntil(d) =>
      && (forall k :: k in keys ==> !s.Expired(k, now))
      && (forall k :: k in keys && s.entries[k].Pending() ==> d <= s.entries[k].state.deadline)
      && (exists k :: k in keys && s.entries[k].Pending() && s.entries[k].state.deadline == d)
  }

  lemma GateMeansUnique(s: Registry, keys: set<OpId>, now: nat, g: Gate, h: Gate)
    requires keys <= s.entries.Keys
    requires GateMeans(s, keys, now, g) && GateMeans(s, keys, now, h)
    ensures g == h
  {
  }

  lemma {:induction false} GateOverMeans(s: Registry, keys: seq<OpId>, now: nat)
    requires forall k :: k in keys ==> k in s.entries
    ensures GateMeans(s, (set k | k in keys), now, GateOver(s, keys, now))
  {
    if keys != [] {
      var tail := keys[1..];
      GateOverMeans(s, tail, now);
      assert (set k | k in keys) == (set k | k in tail) + {keys[0]};
      var g := GateOver(s, tail, now);
      assert keys[0] in s.entries;
      if s.Expired(keys[0], now) {
      } else if g.FenceExpiredAccepted? {
        var k :| k in tail && s.Expired(k, now);
        assert k in keys;
      } else if g.WaitUntil? {
        var k :| k in tail && s.entries[k].Pending() && s.entries[k].state.deadline == g.deadline;
        assert k in keys;
      }
    }
  }

  lemma GateSeesOneMore(s: Registry, seen: set<OpId>, id: OpId, now: nat, g: Gate)
    requires seen <= s.entries.Keys && id in s.entries
    requires GateMeans(s, seen, now, g) && !g.FenceExpiredAccepted?
    ensures !s.entries[id].Pending() ==> GateMeans(s, seen + {id}, now, g)
    ensures s.entries[id].Pending() && !s.Expired(id, now) ==>
      GateMeans(s, seen + {id}, now, Sooner(g, s.entries[id].state.deadline))
  {
    if s.entries[id].Pending() && !s.Expired(id, now) {
      var d := s.entries[id].state.deadline;
      if g.WaitUntil? && g.deadline < d {
        var k :| k in seen && s.entries[k].Pending() && s.entries[k].state.deadline == g.deadline;
        assert k in seen + {id};
      } else {
        assert id in seen + {id};
      }
    }
  }

  /** Any correct reading of the values, in whatever order, is the gate's answer. */
  lemma GateIsOrderFree(s: Registry, now: nat, g: Gate)
    requires Valid(s)
    requires GateMeans(s, s.entries.Keys, now, g)
    ensures g == GateOver(s, s.order, now)
  {
    GateOverMeans(s, s.order, now);
    assert (set k | k in s.order) == s.entries.Keys;
    GateMeansUnique(s, s.entries.Keys, now, g, GateOver(s, s.order, now));
  }
}
