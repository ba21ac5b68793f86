/**
 The dispatch protocol of one actor generation: callers that reserve, enqueue,
 give up or disappear; a bounded mailbox; and the actor that applies commands
 and acknowledges through the registry. Every interleaving is a sequence of
 `Step`s over a `World`.
 */
module ControlProtocol {
  import opened Common
  import opened ControlRegistry
  import opened RegistryLaws

  const MAILBOX_CAPACITY: nat := 256

  /** A caller either holds a fresh reservation or has handed its command to the mailbox. */
  datatype Caller = Reserving(id: OpId, since: nat) | Waiting(id: OpId)

  datatype Message = Message(id: OpId, caller: nat)

  datatype Actor = Idle | Busy(message: Message)

  datatype Answer = Answer(id: OpId, outcome: Outcome)

  /** `holder` remembers who was last admitted for an operation; the source keeps no such token.
      `applied` counts successful applications since the entry was last absent, `total` counts all
      of them, and `forgotten` counts evictions of a successful outcome. */
  datatype World = World(
    reg: Registry, generation: nat, now: nat,
    callers: map<nat, Caller>, nextCaller: nat, holder: map<OpId, nat>,
    mailbox: seq<Message>, actor: Actor,
    applied: map<OpId, nat>, total: map<OpId, nat>, forgotten: map<OpId, nat>,
    answers: seq<Answer>)

  datatype Step =
    | Tick(elapsed: nat)
    | Call(id: OpId)
    | Accept(caller: nat)
    | GiveUp(caller: nat)
    | Vanish(caller: nat)
    | Deliver
    | RefuseStaleRun
    | Finish(outcome: Outcome)
    | Sweep

  function Count(m: map<OpId, nat>, k: OpId): nat { if k in m then m[k] else 0 }

  /** Starts answer with a run, every other operation with plain success or failure. */
  predicate KindMatches(id: OpId, o: Outcome) { id.StartTurn? <==> o.StartOutcome? }

  function KindChecked(id: OpId, o: Outcome): Outcome {
    if KindMatches(id, o) then o
    else if id.StartTurn? then StartOutcome(Err(Internal("control reconciliation outcome type changed")))
    else ControlOutcome(Err(Internal("control reconciliation outcome type changed")))
  }

  /** `completed` on an acknowledgement handle. */
  function Cached(s: Registry, id: OpId, generation: nat): Option<Outcome> {
    var c := CompletedOutcome(s, id, generation);
    if c.Some? && KindMatches(id, c.value) then c else None
  }

  /** `send` on an acknowledgement handle: record, and reply with what is on record. */
  function SendAck(s: Registry, id: OpId, generation: nat, attempted: Outcome): (Registry, Outcome) {
    var (r, canonical) := CompleteWith(s, id, generation, attempted);
    (r, KindChecked(id, canonical))
  }

  predicate Succeeded(s: Registry, k: OpId) {
    k in s.entries && s.entries[k].state.Completed? && !s.entries[k].state.outcome.Rejected()
  }

  /** Install the next table and keep the bookkeeping in step with it. */
  function Settle(w: World, reg: Registry): World {
    w.(reg := reg,
       applied := map k | k in w.applied && k in reg.entries :: w.applied[k],
       forgotten := map k | k in w.forgotten.Keys + w.reg.entries.Keys ::
                      Count(w.forgotten, k) + if Succeeded(w.reg, k) && k !in reg.entries then 1 else 0)
  }

  predicate Enabled(w: World, step: Step) {
    match step
    case Tick(_) => true
    case Call(_) => true
    case Accept(c) => c in w.callers && w.callers[c].Reserving? && |w.mailbox| < MAILBOX_CAPACITY
    case GiveUp(c) => c in w.callers && w.callers[c].Reserving?
    case Vanish(c) => c in w.callers
    case Deliver => w.actor.Idle? && w.mailbox != []
    case RefuseStaleRun => w.actor.Idle? && w.mailbox != [] && w.mailbox[0].id.CancelTurn?
    case Finish(o) => w.actor.Busy? && KindMatches(w.actor.message.id, o)
    case Sweep => true
  }

  function DoCall(w: World, id: OpId): World {
    var (r, a) := Begin(w.reg, id, w.generation, w.now);
    var w1 := Settle(w, r);
    match a
    case Fresh => w1.(callers := w.callers[w.nextCaller := Reserving(id, w.now)], nextCaller := w.nextCaller + 1,
                      holder := w.holder[id := w.nextCaller])
    case AlreadyCompleted(o) => w1.(answers := w.answers + [Answer(id, KindChecked(id, o))])
    case _ => w1
  }

  function DoAccept(w: World, c: nat): World
    requires c in w.callers
  {
    var id := w.callers[c].id;
    Settle(w, MarkEnqueued(w.reg, id, w.generation, w.now))
      .(callers := w.callers[c := Waiting(id)], mailbox := w.mailbox + [Message(id, c)])
  }

  function DoDeliver(w: World): World
    requires w.mailbox != []
  {
    var m := w.mailbox[0];
    var cached := Cached(w.reg, m.id, w.generation);
    if cached.Some? then Acknowledge(w.(mailbox := w.mailbox[1..]), m.id, cached.value)
    else w.(mailbox := w.mailbox[1..], actor := Busy(m))
  }

  function Acknowledge(w: World, id: OpId, attempted: Outcome): World {
    var (r, canonical) := SendAck(w.reg, id, w.generation, attempted);
    Settle(w, r).(answers := w.answers + [Answer(id, canonical)])
  }

  /** The actor executed the command itself, with result `o`. */
  function DoFinish(w: World, o: Outcome): World
    requires w.actor.Busy?
  {
    var id := w.actor.message.id;
    var w1 := Acknowledge(w.(actor := Idle), id, o);
    if o.Rejected() then w1
    else w1.(total := w1.total[id := Count(w1.total, id) + 1],
             applied := if id in w1.reg.entries then w1.applied[id := Count(w1.applied, id) + 1] else w1.applied)
  }

  function Next(w: World, step: Step): World
    requires Enabled(w, step)
  {
    match step
    case Tick(d) => w.(now := w.now + d)
    case Call(id) => DoCall(w, id)
    case Accept(c) => DoAccept(w, c)
    case GiveUp(c) => Settle(w, Abandon(w.reg, w.callers[c].id, w.generation)).(callers := w.callers - {c})
    case Vanish(c) => w.(callers := w.callers - {c})
    case Deliver => DoDeliver(w)
    case RefuseStaleRun =>
      Acknowledge(w.(mailbox := w.mailbox[1..]), w.mailbox[0].id, ControlOutcome(Err(TurnMismatch)))
    case Finish(o) => DoFinish(w, o)
    case Sweep => Settle(w, Pruned(w.reg, w.now))
  }

  function Start(config: Config, clockMax: nat, generation: nat): World {
    World(New(config, clockMax), generation, 0, map[], 0, map[], [], Idle, map[], map[], map[], [])
  }

  ghost predicate Runs(w: World, steps: seq<Step>)
    decreases |steps|
  {
    steps != [] ==> Enabled(w, steps[0]) && Runs(Next(w, steps[0]), steps[1..])
  }

  function End(w: World, steps: seq<Step>): World
    requires Runs(w, steps)
    decreases |steps|
  {
    if steps == [] then w else End(Next(w, steps[0]), steps[1..])
  }

  // ------------------------------------------------------- what every interleaving keeps

  ghost predicate EntryOk(w: World, k: OpId)
    requires k in w.reg.entries
  {
    && w.reg.entries[k].generation == w.generation
    && (w.reg.entries[k].state.Completed? ==> KindMatches(k, w.reg.entries[k].state.outcome))
  }

  ghost predicate Inv(w: World) {
    && Valid(w.reg)
    && (forall k :: k in w.reg.entries ==> EntryOk(w, k))
    && (forall k :: k in w.applied ==> k in w.reg.entries)
    && (forall k :: k in w.reg.entries ==> Count(w.applied, k) <= if Succeeded(w.reg, k) then 1 else 0)
    && (w.actor.Busy? ==> CompletedOutcome(w.reg, w.actor.message.id, w.generation) == None)
  }


  lemma SettleFacts(w: World, r: Registry)
    ensures forall k :: Count(Settle(w, r).applied, k) == if k in r.entries then Count(w.applied, k) else 0
    ensures forall k :: k in Settle(w, r).applied ==> k in r.entries
    ensures forall k :: Count(Settle(w, r).forgotten, k)
                        == Count(w.forgotten, k) + if Succeeded(w.reg, k) && k !in r.entries then 1 else 0
    ensures Settle(w, r) == w.(reg := r, applied := Settle(w, r).applied, forgotten := Settle(w, r).forgotten)
  {
  }

  /** A table that may follow the current one: same generation, kinds respected,
      successes kept or evicted but never overwritten. */
  ghost predicate Orderly(w: World, r: Registry) {
    && Valid(r) && r.config == w.reg.config && r.clockMax == w.reg.clockMax
    && (forall k :: k in r.entries ==> EntryOk(w.(reg := r), k))
    && (forall k :: k in r.entries && Succeeded(w.reg, k) ==> r.entries[k] == w.reg.entries[k])
    && (w.actor.Busy? ==> CompletedOutcome(r, w.actor.message.id, w.generation) == None)
  }

  lemma SettleKeepsInv(w: World, r: Registry)
    requires Inv(w) && Orderly(w, r)
    ensures Inv(Settle(w, r))
  {
    hide Settle, Valid;
    SettleFacts(w, r);
    var u := Settle(w, r);
    forall k | k in r.entries
      ensures EntryOk(u, k)
      ensures Count(u.applied, k) <= if Succeeded(r, k) then 1 else 0
    {
      assert EntryOk(w.(reg := r), k);
    }
  }

  lemma CallIsOrderly(w: World, id: OpId)
    requires Inv(w)
    ensures Orderly(w, Begin(w.reg, id, w.generation, w.now).0)
  {
    hide Begin, Valid;
    BeginEffect(w.reg, id, w.generation, w.now);
    var r := Begin(w.reg, id, w.generation, w.now).0;
    forall k | k in r.entries
      ensures EntryOk(w.(reg := r), k)
    {
      if k in w.reg.entries { assert EntryOk(w, k); }
    }
  }

  lemma CallKeepsInv(w: World, id: OpId)
    requires Inv(w)
    ensures Inv(DoCall(w, id))
  {
    hide Begin, Settle, Valid;
    CallIsOrderly(w, id);
    SettleKeepsInv(w, Begin(w.reg, id, w.generation, w.now).0);
  }

  lemma AcceptKeepsInv(w: World, c: nat)
    requires Inv(w) && Enabled(w, Accept(c))
    ensures Inv(DoAccept(w, c))
  {
    hide Settle, Valid;
    var id := w.callers[c].id;
    var r := MarkEnqueued(w.reg, id, w.generation, w.now);
    MarkKeepsValid(w.reg, id, w.generation, w.now);
    forall k | k in r.entries
      ensures EntryOk(w.(reg := r), k)
    {
      assert EntryOk(w, k);
    }
    SettleKeepsInv(w, r);
  }

  lemma DropKeepsInv(w: World, r: Registry)
    requires Inv(w) && Valid(r) && r.config == w.reg.config && r.clockMax == w.reg.clockMax
    requires forall k :: k in r.entries ==> k in w.reg.entries && r.entries[k] == w.reg.entries[k]
    ensures Inv(Settle(w, r))
  {
    hide Settle, Valid;
    forall k | k in r.entries
      ensures EntryOk(w.(reg := r), k)
    {
      assert EntryOk(w, k);
    }
    SettleKeepsInv(w, r);
  }

  /** Recording an outcome touches one pending entry of this generation, or nothing. */
  ghost predicate Recorded(s: Registry, r: Registry, id: OpId, generation: nat, o: Outcome) {
    && r.entries.Keys == s.entries.Keys && r.config == s.config && r.clockMax == s.clockMax
    && (forall k :: k in s.entries && k != id ==> r.entries[k] == s.entries[k])
    && (id in s.entries ==>
          r.entries[id] == if s.entries[id].generation == generation && s.entries[id].Pending()
                           then Entry(generation, Completed(o)) else s.entries[id])
  }

  lemma CompleteEffect(s: Registry, id: OpId, generation: nat, o: Outcome)
    requires Valid(s)
    ensures Valid(CompleteWith(s, id, generation, o).0)
    ensures Recorded(s, CompleteWith(s, id, generation, o).0, id, generation, o)
    ensures CompleteWith(s, id, generation, o).1
      == if CompletedOutcome(s, id, generation).Some? then CompletedOutcome(s, id, generation).value else o
  {
    hide Without, Valid;
    CompleteKeepsValid(s, id, generation, o);
  }

  lemma AcknowledgeIsOrderly(w: World, id: OpId, o: Outcome)
    requires Inv(w) && w.actor.Idle? && KindMatches(id, o)
    ensures Orderly(w, CompleteWith(w.reg, id, w.generation, o).0)
  {
    hide CompleteWith, Valid;
    CompleteEffect(w.reg, id, w.generation, o);
    var r := CompleteWith(w.reg, id, w.generation, o).0;
    forall k | k in r.entries
      ensures EntryOk(w.(reg := r), k)
    {
      assert EntryOk(w, k);
    }
  }

  lemma AcknowledgeKeepsInv(w: World, id: OpId, o: Outcome)
    requires Inv(w) && w.actor.Idle? && KindMatches(id, o)
    ensures Inv(Acknowledge(w, id, o))
    ensures Acknowledge(w, id, o).answers ==
      w.answers + [Answer(id, if CompletedOutcome(w.reg, id, w.generation).Some?
                              then CompletedOutcome(w.reg, id, w.generation).value else o)]
    ensures Recorded(w.reg, Acknowledge(w, id, o).reg, id, w.generation, o)
    ensures forall k :: Count(Acknowledge(w, id, o).applied, k) == Count(w.applied, k)
    ensures Acknowledge(w, id, o).generation == w.generation && Acknowledge(w, id, o).actor == w.actor
  {
    hide Settle, Valid, CompleteWith;
    AcknowledgeIsOrderly(w, id, o);
    CompleteEffect(w.reg, id, w.generation, o);
    if id in w.reg.entries { assert EntryOk(w, id); }
    var r := CompleteWith(w.reg, id, w.generation, o).0;
    SettleKeepsInv(w, r);
    SettleFacts(w, r);
    FramesInv(Settle(w, r), Acknowledge(w, id, o));
  }

  lemma FinishKeepsInv(w: World, o: Outcome)
    requires Inv(w) && Enabled(w, Finish(o))
    ensures Inv(DoFinish(w, o))
  {
    hide Valid, Acknowledge, Recorded;
    IdleKeepsInv(w);
    var id := w.actor.message.id;
    var idle := w.(actor := Idle);
    AcknowledgeKeepsInv(idle, id, o);
    AcknowledgedOnRecord(w, o);
    var w1 := Acknowledge(idle, id, o);
    var u := DoFinish(w, o);
    forall k | k in u.reg.entries
      ensures EntryOk(u, k)
      ensures Count(u.applied, k) <= if Succeeded(u.reg, k) then 1 else 0
    {
      assert EntryOk(w1, k);
    }
  }

  lemma IdleKeepsInv(w: World)
    requires Inv(w)
    ensures Inv(w.(actor := Idle))
  {
    hide Valid;
    var idle := w.(actor := Idle);
    forall k | k in idle.reg.entries
      ensures EntryOk(idle, k)
    {
      assert EntryOk(w, k);
    }
  }

  /** The command being executed was not on record, and its success is unless its entry is gone. */
  lemma AcknowledgedOnRecord(w: World, o: Outcome)
    requires Inv(w) && Enabled(w, Finish(o))
    ensures var id := w.actor.message.id;
      var u := Acknowledge(w.(actor := Idle), id, o);
      && (id in u.reg.entries && !o.Rejected() ==> Succeeded(u.reg, id))
      && Count(u.applied, id) == 0
  {
    hide Valid, Acknowledge;
    var id := w.actor.message.id;
    IdleKeepsInv(w);
    AcknowledgeKeepsInv(w.(actor := Idle), id, o);
    if id in w.reg.entries {
      assert EntryOk(w, id);
    }
  }

  /** Every step of every party keeps the invariant. */
  lemma StepKeepsInv(w: World, step: Step)
    requires Inv(w) && Enabled(w, step)
    ensures Inv(Next(w, step))
  {
    hide Settle, Valid, Begin, DoCall, DoAccept, Acknowledge, DoFinish, Pruned;
    match step
    case Tick(_) => assert forall k :: k in w.reg.entries ==> EntryOk(w, k);
    case Call(id) => CallKeepsInv(w, id);
    case Accept(c) => AcceptKeepsInv(w, c);
    case GiveUp(c) =>
      var id := w.callers[c].id;
      AbandonKeepsValid(w.reg, id, w.generation);
      DropKeepsInv(w, Abandon(w.reg, id, w.generation));
      FramesInv(Settle(w, Abandon(w.reg, id, w.generation)), Next(w, step));
    case Vanish(c) => FramesInv(w, Next(w, step));
    case Deliver => DeliverKeepsInv(w);
    case RefuseStaleRun =>
      var rest := w.(mailbox := w.mailbox[1..]);
      FramesInv(w, rest);
      AcknowledgeKeepsInv(rest, w.mailbox[0].id, ControlOutcome(Err(TurnMismatch)));
    case Finish(o) => FinishKeepsInv(w, o);
    case Sweep => SweepKeepsInv(w);
  }

  lemma SweepKeepsInv(w: World)
    requires Inv(w)
    ensures Inv(Settle(w, Pruned(w.reg, w.now)))
  {
    hide Settle, Valid, Filter, Without;
    PrunedKeepsValid(w.reg, w.now);
    DropKeepsInv(w, Pruned(w.reg, w.now));
  }

  lemma DeliverKeepsInv(w: World)
    requires Inv(w) && Enabled(w, Deliver)
    ensures Inv(DoDeliver(w))
  {
    hide Settle, Valid, Acknowledge;
    var m := w.mailbox[0];
    var rest := w.(mailbox := w.mailbox[1..]);
    FramesInv(w, rest);
    if Cached(w.reg, m.id, w.generation).Some? {
      AcknowledgeKeepsInv(rest, m.id, Cached(w.reg, m.id, w.generation).value);
    } else {
      if m.id in w.reg.entries { assert EntryOk(w, m.id); }
      var u := DoDeliver(w);
      forall k | k in u.reg.entries ensures EntryOk(u, k) { assert EntryOk(w, k); }
    }
  }

  /** The invariant reads neither the callers nor the mailbox nor the clock. */
  lemma FramesInv(w: World, u: World)
    requires Inv(w)
    requires u.reg == w.reg && u.generation == w.generation && u.actor == w.actor && u.applied == w.applied
    ensures Inv(u)
  {
    hide Valid;
    forall k | k in u.reg.entries ensures EntryOk(u, k) { assert EntryOk(w, k); }
  }

  lemma {:induction false} RunKeepsInv(w: World, steps: seq<Step>)
    requires Inv(w) && Runs(w, steps)
    ensures Inv(End(w, steps))
    decreases |steps|
  {
    hide Next, Inv, Enabled;
    if steps != [] {
      StepKeepsInv(w, steps[0]);
      RunKeepsInv(Next(w, steps[0]), steps[1..]);
    }
  }

  lemma StartInv(config: Config, clockMax: nat, generation: nat)
    ensures Inv(Start(config, clockMax, generation))
  {
  }

  /** In any interleaving, with lost callers, stale dispatchers and duplicate deliveries, an
      operation takes effect at most once while its entry is present, and then the entry says so. */
  lemma AppliedAtMostOncePerEntry(config: Config, clockMax: nat, generation: nat, steps: seq<Step>, id: OpId)
    requires Runs(Start(config, clockMax, generation), steps)
    ensures var w := End(Start(config, clockMax, generation), steps);
      && Count(w.applied, id) <= 1
      && (Count(w.applied, id) == 1 ==> Succeeded(w.reg, id))
  {
    StartInv(config, clockMax, generation);
    RunKeepsInv(Start(config, clockMax, generation), steps);
  }
}
