/** Two runs of the code in which a late dispatcher makes one operation take effect twice. */
module LateDispatch {
  import opened Common
  import opened ControlRegistry
  import opened RegistryLaws
  import opened ControlProtocol
  import opened ControlDelivery
  import opened ReservationOwnership

  const T := StartTurn("t")

  /** Applied with nothing to record it in, then called, handed over and applied again. */
  function ApplyTwice(retry: nat): seq<Step> {
    [Deliver, Finish(StartOutcome(Ok(1))), Call(T), Accept(retry), Deliver, Finish(StartOutcome(Ok(2)))]
  }

  /** Caller 0 reserves and is slow; its reservation expires, caller 1 is admitted and its command
      is accepted; caller 0 then times out and removes caller 1's accepted entry. */
  const LATE_GIVE_UP: seq<Step> := [Call(T), Tick(10), Call(T), Accept(1), GiveUp(0)]

  /** Caller 0's expired reservation is swept away, and it still hands its command over. */
  const LATE_ACCEPT: seq<Step> := [Call(T), Tick(10), Sweep, Accept(0)]

  lemma {:induction false} Prepend(w: World, step: Step, rest: seq<Step>)
    requires Enabled(w, step) && Runs(Next(w, step), rest)
    ensures Runs(w, [step] + rest) && End(w, [step] + rest) == End(Next(w, step), rest)
  {
    hide Next, Enabled;
    assert ([step] + rest)[1..] == rest;
  }

  function Table(entries: map<OpId, Entry>, order: seq<OpId>): Registry {
    Registry(Config(10, 10, 4), 1_000, entries, order)
  }

  lemma FirstReservation(s: Registry, id: OpId, expired: nat, now: nat)
    requires s == Table(map[], []) || s == Table(map[id := Entry(7, Dispatching(expired))], [id])
    requires expired <= now && now + 10 <= 1_000
    ensures Begin(s, id, 7, now) == (Table(map[id := Entry(7, Dispatching(now + 10))], [id]), Fresh)
  {
    WithoutSelf(id);
    assert Remove(s, id) == Table(map[], []);
    assert MakeRoom(Remove(s, id), now) == (Table(map[], []), None);
    assert Reserve(Table(map[], []), id, 7, now) == Table(map[id := Entry(7, Dispatching(now + 10))], [id]);
  }

  lemma WithoutSelf(id: OpId)
    ensures Without([id], id) == [] && Without([], id) == []
  {
  }

  /** The parts of a world that the late run is about; nothing has been evicted in it. */
  ghost predicate Looks(w: World, reg: Registry, callers: map<nat, Caller>, next: nat, mailbox: seq<Message>, actor: Actor, id: OpId, total: nat) {
    && w.generation == 7 && w.reg == reg && w.callers == callers && w.nextCaller == next
    && w.mailbox == mailbox && w.actor == actor
    && Count(w.total, id) == total && Count(w.forgotten, id) == 0
  }

  function Held(id: OpId, deadline: nat): Registry { Table(map[id := Entry(7, Dispatching(deadline))], [id]) }

  function Taken(id: OpId, deadline: nat): Registry { Table(map[id := Entry(7, Enqueued(deadline))], [id]) }

  lemma LateCall(w: World, id: OpId, expired: nat, total: nat)
    requires w.reg == Table(map[], []) || w.reg == Held(id, expired)
    requires expired <= w.now && w.now + 10 <= 1_000
    requires Looks(w, w.reg, w.callers, w.nextCaller, w.mailbox, w.actor, id, total)
    ensures Looks(DoCall(w, id), Held(id, w.now + 10), w.callers[w.nextCaller := Reserving(id, w.now)], w.nextCaller + 1,
                  w.mailbox, w.actor, id, total)
    ensures DoCall(w, id).now == w.now
  {
    hide Settle, Begin, Filter, Without;
    FirstReservation(w.reg, id, expired, w.now);
    SettleFacts(w, Held(id, w.now + 10));
  }

  lemma LateAccept(w: World, id: OpId, c: nat, total: nat)
    requires w.reg == Held(id, 20) && w.now == 10 && c in w.callers && w.callers[c].id == id
    requires Looks(w, w.reg, w.callers, w.nextCaller, [], w.actor, id, total)
    ensures Looks(DoAccept(w, c), Taken(id, 20), w.callers[c := Waiting(id)], w.nextCaller, [Message(id, c)], w.actor, id, total)
    ensures DoAccept(w, c).now == 10
  {
    hide Settle;
    assert MarkEnqueued(w.reg, id, 7, 10) == Taken(id, 20);
    SettleFacts(w, Taken(id, 20));
  }

  lemma LateGiveUp(w: World, id: OpId, c: nat, total: nat)
    requires w.reg == Taken(id, 20) && Enabled(w, GiveUp(c)) && w.callers[c].id == id
    requires Looks(w, w.reg, w.callers, w.nextCaller, w.mailbox, w.actor, id, total)
    ensures Looks(Next(w, GiveUp(c)), Table(map[], []), w.callers - {c}, w.nextCaller, w.mailbox, w.actor, id, total)
    ensures Next(w, GiveUp(c)).now == w.now
  {
    hide Settle, Filter, Without;
    WithoutSelf(id);
    assert Abandon(w.reg, id, 7) == Table(map[], []);
    SettleFacts(w, Table(map[], []));
  }

  /** The actor takes the only command and applies it. */
  lemma LateApply(w: World, id: OpId, c: nat, run: nat, total: nat)
    requires w.reg == Table(map[], []) || w.reg == Taken(id, 20)
    requires id.StartTurn? && Looks(w, w.reg, w.callers, w.nextCaller, [Message(id, c)], Idle, id, total)
    ensures Enabled(w, Deliver) && Enabled(Next(w, Deliver), Finish(StartOutcome(Ok(run))))
    ensures var u := Next(Next(w, Deliver), Finish(StartOutcome(Ok(run))));
      && Looks(u, u.reg, w.callers, w.nextCaller, [], Idle, id, total + 1) && u.now == w.now
      && (w.reg == Table(map[], []) ==> u.reg == w.reg)
  {
    hide Settle, Filter, Without;
    var busy := Next(w, Deliver);
    assert busy.mailbox == [] && busy.actor == Busy(Message(id, c));
    SettleFacts(busy.(actor := Idle), CompleteWith(w.reg, id, 7, StartOutcome(Ok(run))).0);
  }

  /** One unrecorded command of the late caller is waiting. */
  ghost predicate LeftUnrecorded(w: World, c: nat, next: nat) {
    w.now == 10 && Looks(w, Table(map[], []), w.callers, next, [Message(T, c)], Idle, T, 0)
  }

  lemma LateReservation()
    ensures var w := Start(Config(10, 10, 4), 1_000, 7);
      && Runs(w, [Call(T), Tick(10)])
      && var e := End(w, [Call(T), Tick(10)]);
         Looks(e, Held(T, 10), map[0 := Reserving(T, 0)], 1, [], Idle, T, 0) && e.now == 10
  {
    hide Settle, Begin, Filter, DoCall;
    var w0 := Start(Config(10, 10, 4), 1_000, 7);
    LateCall(w0, T, 0, 0);
    var w1 := Next(w0, Call(T));
    Prepend(w1, Tick(10), []);
    Prepend(w0, Call(T), [Tick(10)] + []);
    assert [Call(T), Tick(10)] == [Call(T)] + ([Tick(10)] + []);
  }

  lemma LateGiveUpLeavesUnrecorded(w2: World)
    requires w2.now == 10 && Looks(w2, Held(T, 10), map[0 := Reserving(T, 0)], 1, [], Idle, T, 0)
    ensures Runs(w2, LATE_GIVE_UP[2..]) && LeftUnrecorded(End(w2, LATE_GIVE_UP[2..]), 1, 2)
  {
    hide Settle, Begin, Filter, DoCall, DoAccept, Abandon;
    LateCall(w2, T, 10, 0);
    var w3 := Next(w2, Call(T));
    LateAccept(w3, T, 1, 0);
    var w4 := Next(w3, Accept(1));
    LateGiveUp(w4, T, 0, 0);
    Prepend(w4, GiveUp(0), []);
    Prepend(w3, Accept(1), [GiveUp(0)] + []);
    Prepend(w2, Call(T), [Accept(1)] + ([GiveUp(0)] + []));
    assert LATE_GIVE_UP[2..] == [Call(T)] + ([Accept(1)] + ([GiveUp(0)] + []));
  }

  lemma SweptReservation(w: World)
    requires w.now == 10 && Looks(w, Held(T, 10), map[0 := Reserving(T, 0)], 1, [], Idle, T, 0)
    ensures var u := Next(w, Sweep); u.now == 10 && Looks(u, Table(map[], []), w.callers, 1, [], Idle, T, 0)
  {
    hide Settle;
    assert Pruned(w.reg, 10) == Table(map[], []);
    SettleFacts(w, Table(map[], []));
  }

  lemma LateAcceptLeavesUnrecorded(w2: World)
    requires w2.now == 10 && Looks(w2, Held(T, 10), map[0 := Reserving(T, 0)], 1, [], Idle, T, 0)
    ensures Runs(w2, LATE_ACCEPT[2..]) && LeftUnrecorded(End(w2, LATE_ACCEPT[2..]), 0, 1)
  {
    hide Settle, Pruned;
    SweptReservation(w2);
    var w3 := Next(w2, Sweep);
    assert MarkEnqueued(w3.reg, T, 7, 10) == w3.reg;
    SettleFacts(w3, w3.reg);
    Prepend(w3, Accept(0), []);
    Prepend(w2, Sweep, [Accept(0)] + []);
    assert LATE_ACCEPT[2..] == [Sweep] + ([Accept(0)] + []);
  }

  lemma AppliedTwice(w5: World, c: nat, retry: nat)
    requires LeftUnrecorded(w5, c, retry)
    ensures Runs(w5, ApplyTwice(retry))
    ensures Count(End(w5, ApplyTwice(retry)).total, T) == 2 && Count(End(w5, ApplyTwice(retry)).forgotten, T) == 0
  {
    hide Settle, Begin, Filter, DoCall, DoAccept, DoDeliver, DoFinish;
    var one := Finish(StartOutcome(Ok(1)));
    var two := Finish(StartOutcome(Ok(2)));
    LateApply(w5, T, c, 1, 0);
    var w6 := Next(w5, Deliver);
    var w7 := Next(w6, one);
    LateCall(w7, T, 10, 1);
    var w8 := Next(w7, Call(T));
    LateAccept(w8, T, retry, 1);
    var w9 := Next(w8, Accept(retry));
    LateApply(w9, T, retry, 2, 1);
    var w10 := Next(w9, Deliver);
    assert ApplyTwice(retry) == [Deliver] + ([one] + ([Call(T)] + ([Accept(retry)] + ([Deliver] + ([two] + [])))));
    Prepend(w10, two, []);
    Prepend(w9, Deliver, [two] + []);
    Prepend(w8, Accept(retry), [Deliver] + ([two] + []));
    Prepend(w7, Call(T), [Accept(retry)] + ([Deliver] + ([two] + [])));
    Prepend(w6, one, [Call(T)] + ([Accept(retry)] + ([Deliver] + ([two] + []))));
    Prepend(w5, Deliver, [one] + ([Call(T)] + ([Accept(retry)] + ([Deliver] + ([two] + [])))));
  }

  lemma {:induction false} Concatenate(w: World, a: seq<Step>, b: seq<Step>)
    requires Runs(w, a) && Runs(End(w, a), b)
    ensures Runs(w, a + b) && End(w, a + b) == End(End(w, a), b)
    decreases |a|
  {
    hide Next, Enabled;
    if a == [] {
      assert a + b == b;
    } else {
      Concatenate(Next(w, a[0]), a[1..], b);
      assert (a + b)[1..] == a[1..] + b;
    }
  }

  ghost predicate AppliesTwice(steps: seq<Step>) {
    var w := Start(Config(10, 10, 4), 1_000, 7);
    Runs(w, steps) && Count(End(w, steps).total, T) == 2 && Count(End(w, steps).forgotten, T) == 0
  }

  lemma ThreeParts(reserve: seq<Step>, lose: seq<Step>, c: nat, retry: nat)
    requires reserve == [Call(T), Tick(10)]
    requires (LateReservation(); Runs(End(Start(Config(10, 10, 4), 1_000, 7), reserve), lose))
    requires (LateReservation(); LeftUnrecorded(End(End(Start(Config(10, 10, 4), 1_000, 7), reserve), lose), c, retry))
    ensures AppliesTwice(reserve + lose + ApplyTwice(retry))
  {
    hide Next, Enabled, Runs, End, LeftUnrecorded, Looks, Start;
    var w := Start(Config(10, 10, 4), 1_000, 7);
    LateReservation();
    Concatenate(w, reserve, lose);
    AppliedTwice(End(w, reserve + lose), c, retry);
    Concatenate(w, reserve + lose, ApplyTwice(retry));
  }

  /** Giving up late makes one start take effect twice with nothing evicted. */
  lemma LateGiveUpAppliesTwice()
    ensures AppliesTwice(LATE_GIVE_UP + ApplyTwice(2))
  {
    hide Next, Enabled, Runs, End, AppliesTwice, Start, Looks;
    LateReservation();
    var w2 := End(Start(Config(10, 10, 4), 1_000, 7), [Call(T), Tick(10)]);
    LateGiveUpLeavesUnrecorded(w2);
    ThreeParts([Call(T), Tick(10)], LATE_GIVE_UP[2..], 1, 2);
    assert LATE_GIVE_UP == [Call(T), Tick(10)] + LATE_GIVE_UP[2..];
  }

  /** So does handing the command over late, with nobody giving up. */
  lemma LateAcceptAppliesTwice()
    ensures AppliesTwice(LATE_ACCEPT + ApplyTwice(1))
  {
    hide Next, Enabled, Runs, End, AppliesTwice, Start, Looks;
    LateReservation();
    var w2 := End(Start(Config(10, 10, 4), 1_000, 7), [Call(T), Tick(10)]);
    LateAcceptLeavesUnrecorded(w2);
    ThreeParts([Call(T), Tick(10)], LATE_ACCEPT[2..], 0, 1);
    assert LATE_ACCEPT == [Call(T), Tick(10)] + LATE_ACCEPT[2..];
  }
}
