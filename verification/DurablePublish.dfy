/**
 Publishing one loop event: retried through transient failures, ended by an answer or a
 cancellation. The loop's model takes one answer and one race per publication; here that
 is shown to be exactly what the retries can come to.
 */
module DurablePublish {
  import opened Common
  import opened AgentLoop

  datatype HubReply = Committed | SupersededReply | PermanentlyRejected | RetryableRejection | TimedOut

  /** One attempt: whether the token fires before the reply, the reply, whether it fires during the delay. */
  datatype Round = Round(cancelledFirst: bool, reply: HubReply, cancelledAsleep: bool)

  datatype Outcome = Success | CooperativeCancellation | SupersededByInterruption | PermanentRejection

  /** What an attempt decides by itself; `None` means the event is still pending. */
  function Decides(round: Round, cancellable: bool): Option<Outcome> {
    if cancellable && round.cancelledFirst then Some(CooperativeCancellation)
    else
      match round.reply
      case Committed => Some(Success)
      case SupersededReply => Some(SupersededByInterruption)
      case PermanentlyRejected => Some(PermanentRejection)
      case _ => if cancellable && round.cancelledAsleep then Some(CooperativeCancellation) else None
  }

  /** The first attempt that decides. */
  function Publish(rounds: seq<Round>, cancellable: bool): Option<Outcome> {
    if rounds == [] then None
    else if Decides(rounds[0], cancellable).Some? then Decides(rounds[0], cancellable)
    else Publish(rounds[1..], cancellable)
  }

  method PublishLoopEvent(rounds: seq<Round>, cancellable: bool) returns (outcome: Option<Outcome>)
    ensures outcome == Publish(rounds, cancellable)
    ensures !cancellable ==> outcome != Some(CooperativeCancellation)
  {
    var i := 0;
    assert rounds[0..] == rounds;
    while i < |rounds|
      invariant i <= |rounds|
      invariant Publish(rounds, cancellable) == Publish(rounds[i..], cancellable)
    {
      var round := rounds[i];
      assert rounds[i..][1..] == rounds[i + 1..];
      if cancellable && round.cancelledFirst {
        return Some(CooperativeCancellation);
      }
      match round.reply {
        case Committed => return Some(Success);
        case SupersededReply => return Some(SupersededByInterruption);
        case PermanentlyRejected => return Some(PermanentRejection);
        case _ =>
      }
      if cancellable && round.cancelledAsleep {
        return Some(CooperativeCancellation);
      }
      i := i + 1;
    }
    outcome := None;
  }

  /** A reply after which the same event is offered again. */
  predicate Transient(reply: HubReply) { reply in {RetryableRejection, TimedOut} }

  predicate StillPending(round: Round, cancellable: bool) {
    Transient(round.reply) && !(cancellable && (round.cancelledFirst || round.cancelledAsleep))
  }

  /** The attempt that ends a publication with a given outcome. */
  predicate Concludes(round: Round, cancellable: bool, outcome: Outcome) {
    match outcome
    case CooperativeCancellation =>
      cancellable && (round.cancelledFirst || (Transient(round.reply) && round.cancelledAsleep))
    case Success => round.reply == Committed && !(cancellable && round.cancelledFirst)
    case SupersededByInterruption => round.reply == SupersededReply && !(cancellable && round.cancelledFirst)
    case PermanentRejection => round.reply == PermanentlyRejected && !(cancellable && round.cancelledFirst)
  }

  ghost predicate FirstConclusion(rounds: seq<Round>, cancellable: bool, outcome: Outcome, k: nat) {
    && k < |rounds| && Concludes(rounds[k], cancellable, outcome)
    && forall i :: 0 <= i < k ==> StillPending(rounds[i], cancellable)
  }

  /** A publication has the outcome of its first attempt that is answered for good or cancelled; it is
      pending exactly while every attempt was refused for now or timed out, and none was cancelled. */
  lemma {:induction false} FirstConclusionDecides(rounds: seq<Round>, cancellable: bool, outcome: Outcome)
    ensures Publish(rounds, cancellable).None? <==> forall i :: 0 <= i < |rounds| ==> StillPending(rounds[i], cancellable)
    ensures Publish(rounds, cancellable) == Some(outcome) <==> exists k :: FirstConclusion(rounds, cancellable, outcome, k)
  {
    if rounds != [] {
      var rest := rounds[1..];
      FirstConclusionDecides(rest, cancellable, outcome);
      FirstAttempt(rounds[0], cancellable, outcome);
      if StillPending(rounds[0], cancellable) {
        if k: nat :| FirstConclusion(rest, cancellable, outcome, k) {
          assert FirstConclusion(rounds, cancellable, outcome, k + 1);
        }
        if k: nat :| FirstConclusion(rounds, cancellable, outcome, k) {
          assert k != 0;
          assert FirstConclusion(rest, cancellable, outcome, k - 1);
        }
      } else {
        if Concludes(rounds[0], cancellable, outcome) {
          assert FirstConclusion(rounds, cancellable, outcome, 0);
        }
      }
    }
  }

  lemma FirstAttempt(round: Round, cancellable: bool, outcome: Outcome)
    ensures Decides(round, cancellable).None? <==> StillPending(round, cancellable)
    ensures Decides(round, cancellable) == Some(outcome) <==> Concludes(round, cancellable, outcome)
  {
  }

  /** What the loop does with an outcome; a cancellation with a durable receipt counts as a supersession. */
  function Settled(s: LoopState, turn: Turn, event: Event, outcome: Outcome, durable: bool): Flow {
    match outcome
    case Success => Go(Logged(s, turn, event))
    case SupersededByInterruption => Over(Superseded(s))
    case CooperativeCancellation =>
      if s.turn.Some? && s.control.Some? && durable then Over(Superseded(s)) else Over(Exited(s, CooperativelyCancelled))
    case PermanentRejection => Over(Exited(s, Rejected))
  }

  /** However many attempts it takes, a publication comes to one answer and one race. */
  lemma {:induction false} PublicationIsOneAnswer(
      s: LoopState, turn: Turn, event: Event, rounds: seq<Round>, durable: bool)
    requires Publish(rounds, s.control.Some?).Some?
    ensures exists answer, race ::
              Settled(s, turn, event, Publish(rounds, s.control.Some?).value, durable)
              == CommitUnlessCancelled(s, turn, event, answer, race)
  {
    if Decides(rounds[0], s.control.Some?).None? {
      PublicationIsOneAnswer(s, turn, event, rounds[1..], durable);
    } else {
      var outcome := Publish(rounds, s.control.Some?).value;
      var race := Race(outcome.CooperativeCancellation?, durable);
      var answer := if outcome.Success? then Accept else if outcome.SupersededByInterruption? then Supersede else Reject;
      assert Settled(s, turn, event, outcome, durable) == CommitUnlessCancelled(s, turn, event, answer, race);
    }
  }

  /** Terminal publications take no token, so they come to an answer alone. */
  lemma {:induction false} TerminalPublicationIsOneAnswer(
      s: LoopState, turn: Turn, event: Event, rounds: seq<Round>, durable: bool)
    requires Publish(rounds, false).Some?
    ensures exists answer ::
              Settled(s, turn, event, Publish(rounds, false).value, durable) == Commit(s, turn, event, answer)
  {
    if Decides(rounds[0], false).None? {
      TerminalPublicationIsOneAnswer(s, turn, event, rounds[1..], durable);
    } else {
      var outcome := Publish(rounds, false).value;
      var answer := if outcome.Success? then Accept else if outcome.SupersededByInterruption? then Supersede else Reject;
      assert Settled(s, turn, event, outcome, durable) == Commit(s, turn, event, answer);
    }
  }

  /** Attempts that come to a given answer and race after any number of transient failures. */
  function RoundsFor(answer: Answer, race: Race, failures: nat): seq<Round> {
    if failures > 0 then [Round(false, TimedOut, false)] + RoundsFor(answer, race, failures - 1)
    else
      [Round(race.cancelled,
             match answer case Accept => Committed case Supersede => SupersededReply case Reject => PermanentlyRejected,
             false)]
  }

  /** And every answer and race is what some publication comes to. */
  lemma {:induction false} EveryAnswerIsPublished(
      s: LoopState, turn: Turn, event: Event, answer: Answer, race: Race, failures: nat)
    ensures var outcome := Publish(RoundsFor(answer, race, failures), s.control.Some?);
            && outcome.Some?
            && Settled(s, turn, event, outcome.value, race.durable)
               == CommitUnlessCancelled(s, turn, event, answer, race)
  {
    if failures > 0 {
      EveryAnswerIsPublished(s, turn, event, answer, race, failures - 1);
      assert RoundsFor(answer, race, failures)[1..] == RoundsFor(answer, race, failures - 1);
    }
  }
}
