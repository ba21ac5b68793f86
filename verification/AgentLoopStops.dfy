/** Which stopped turns can come back without a new start. */
module AgentLoopStops {
  import opened Common
  import opened ExecutionWindows
  import opened AgentLoop
  import opened AgentLoopLaws
  import opened AgentLoopOutcomes

  /** The loop neither runs the turn nor remembers a request from which to run it. */
  predicate Forgotten(s: LoopState, turn: Turn) {
    s.turn != Some(turn) && (s.lastRequest.Some? ==> s.lastRequest.value.turn != turn)
  }

  predicate Starts(cmd: Command, turn: Turn) {
    (cmd.StartTurn? && cmd.spec.turn == turn) || (cmd.StartRestored? && cmd.restored.turn == turn)
  }

  ghost predicate NeverStarts(mailbox: seq<Delivery>, turn: Turn) {
    forall i :: 0 <= i < |mailbox| ==> !Starts(mailbox[i].command, turn)
  }

  lemma HandleKeepsForgotten(s: LoopState, cmd: Command, env: Env, turn: Turn)
    requires Inv(s) && Forgotten(s, turn) && !Starts(cmd, turn)
    ensures Forgotten(Handle(s, cmd, env), turn)
  {
    hide Handle, LogInv, Numbered, Owned, Unowned, AdmissionError, Decide, Observe, Filter, IsBlank;
    HandleOutcome(s, cmd, env);
  }

  /** Completions and in-memory recoveries never revive a forgotten turn. */
  lemma {:induction false} ForgottenTurnStaysForgotten(s: LoopState, mailbox: seq<Delivery>, turn: Turn)
    requires Inv(s) && Forgotten(s, turn) && NeverStarts(mailbox, turn)
    ensures Inv(HandleAll(s, mailbox)) && Forgotten(HandleAll(s, mailbox), turn)
  {
    hide Handle, Inv, Forgotten;
    if mailbox != [] {
      var last := |mailbox| - 1;
      ForgottenTurnStaysForgotten(s, mailbox[..last], turn);
      HandleKeepsInv(HandleAll(s, mailbox[..last]), mailbox[last].command, mailbox[last].env);
      HandleKeepsForgotten(HandleAll(s, mailbox[..last]), mailbox[last].command, mailbox[last].env, turn);
    }
  }

  /** A turn newly observed as interrupted, by Stop or by a durable supersession, is forgotten. */
  lemma InterruptionForgets(s: LoopState, cmd: Command, env: Env, turn: Turn)
    requires Inv(s)
    requires Handle(s, cmd, env).observation == Some((turn, Interrupted)) != s.observation
    ensures Forgotten(Handle(s, cmd, env), turn)
  {
    hide Handle, LogInv, Numbered, LaunchedRequest;
    HandleOutcome(s, cmd, env);
  }

  predicate AcceptedStop(s: LoopState, cmd: Command, env: Env) {
    s.exit == Running && cmd.CancelTurn? && Handle(s, cmd, env).reply == Accepted
  }

  /** An accepted Stop forgets the turn exactly when the context fence of a completed turn did not answer it. */
  lemma AcceptedStopForgetsExactly(s: LoopState, cmd: Command, env: Env)
    requires Inv(s) && AcceptedStop(s, cmd, env)
    ensures Forgotten(Handle(s, cmd, env), cmd.turn) <==> s.fence != Some(cmd.turn)
  {
    hide HandleCancel, LogInv, Numbered;
    var received := s.(reply := Silent, fence := if TakesFence(s, cmd) then None else s.fence);
    CancelOutcome(received, cmd, StopsFence(s, cmd), env);
    if s.fence == Some(cmd.turn) {
      FencedStop(received, cmd, env);
    } else {
      AcceptedStopCloses(received, cmd, env);
    }
  }

  lemma FencedStop(s: LoopState, cmd: Command, env: Env)
    requires cmd.CancelTurn?
    ensures HandleCancel(s, cmd.turn, cmd.hasOwner, true, env)
            == s.(reply := HandleCancel(s, cmd.turn, cmd.hasOwner, true, env).reply)
  {
  }

  lemma AcceptedStopCloses(s: LoopState, cmd: Command, env: Env)
    requires Whole(s) && s.exit == Running && cmd.CancelTurn?
    requires HandleCancel(s, cmd.turn, cmd.hasOwner, false, env).reply == Accepted
    requires s.reply != Accepted
    ensures HandleCancel(s, cmd.turn, cmd.hasOwner, false, env).turn.None?
  {
    hide PublishInterruption;
    var t := Joined(s.(reply := Accepted));
    var durable := s.control.Some? && env.durableStop;
    if s.turn == Some(cmd.turn) {
      InterruptionCuts(t, cmd.turn, durable, cmd.hasOwner, env);
    }
  }

  // ---- When an accepted Stop can be undone ----

  predicate Revives(s: LoopState, mailbox: seq<Delivery>, turn: Turn) { HandleAll(s, mailbox).turn == Some(turn) }

  function PlainRecovery(turn: Turn): RecoveryRequest {
    RecoveryRequest(turn, None, false, None, false, false, false, false, [], None)
  }

  const FRIENDLY := Env(
    false, false, true, true, true, false, Snapshot(0, Budget(None, None, None, None, 3)),
    Accept, Race(false, false), Accept, Accept, Accept, Race(false, false))

  /** Remembering an idle turn's request is enough for a recovery to run it again. */
  lemma RememberedTurnCanBeRecovered(s: LoopState)
    requires Inv(s) && s.exit == Running && s.turn.None? && s.lastRequest.Some?
    ensures var turn := s.lastRequest.value.turn;
            Handle(s, StartRecovery(PlainRecovery(turn), Attempt("", ""), false), FRIENDLY).turn == Some(turn)
  {
    hide LogInv, Numbered, Filter, Decide;
  }

  /** A stopped turn can come back without a new start exactly when the fence answered its Stop. */
  lemma StoppedTurnRevivableExactly(s: LoopState, cmd: Command, env: Env)
    requires Inv(s) && AcceptedStop(s, cmd, env)
    ensures (exists mailbox :: NeverStarts(mailbox, cmd.turn) && Revives(Handle(s, cmd, env), mailbox, cmd.turn))
            <==> s.fence == Some(cmd.turn)
  {
    hide Handle, Inv;
    var t := Handle(s, cmd, env);
    HandleKeepsInv(s, cmd, env);
    AcceptedStopForgetsExactly(s, cmd, env);
    if s.fence == Some(cmd.turn) {
      FencedStopKeepsRequest(s, cmd, env);
      RememberedTurnCanBeRecovered(t);
      var again := [Received(StartRecovery(PlainRecovery(cmd.turn), Attempt("", ""), false), FRIENDLY)];
      assert again[..0] == [];
      assert HandleAll(t, again[..0]) == t;
      assert NeverStarts(again, cmd.turn) && Revives(t, again, cmd.turn);
    } else {
      forall mailbox | NeverStarts(mailbox, cmd.turn)
        ensures !Revives(t, mailbox, cmd.turn)
      {
        ForgottenTurnStaysForgotten(t, mailbox, cmd.turn);
      }
    }
  }

  lemma FencedStopKeepsRequest(s: LoopState, cmd: Command, env: Env)
    requires Inv(s) && AcceptedStop(s, cmd, env) && s.fence == Some(cmd.turn)
    ensures var t := Handle(s, cmd, env);
            t.exit == Running && t.turn.None? && t.lastRequest.Some? && t.lastRequest.value.turn == cmd.turn
  {
    hide LogInv, Numbered;
  }

  /** And such a Stop exists: the turn completes with a context session, is stopped, and is then recovered. */
  lemma CompletedTurnRevivesAfterStop(turn: Turn)
    ensures var spec := StartSpec(turn, "", [], [], [], [], None);
            var completed := HandleAll(START, [Received(StartTurn(spec), FRIENDLY),
                                               Received(TurnTaskFinished(turn, 1, Finished, true), FRIENDLY)]);
            Inv(completed) && AcceptedStop(completed, CancelTurn(turn, None, false), FRIENDLY)
            && completed.fence == Some(turn)
  {
    hide Numbered, LogInv, Whole;
    var spec := StartSpec(turn, "", [], [], [], [], None);
    var start := Received(StartTurn(spec), FRIENDLY);
    var finish := Received(TurnTaskFinished(turn, 1, Finished, true), FRIENDLY);
    var mailbox := [start, finish];
    EveryRunKeepsInv(mailbox);
    assert mailbox[..1] == [start] && [start][..0] == [];
    var running := Handle(START, start.command, FRIENDLY);
    assert HandleAll(START, [start]) == running;
    assert running.turn == Some(turn) && running.run == Some(1) && running.recovery.None? && running.snapshot.Some?;
    var completed := Handle(running, finish.command, FRIENDLY);
    assert HandleAll(START, mailbox) == completed;
    assert completed.fence == Some(turn) && completed.exit == Running;
  }
}
