/**
 Notarizing one container: state persisted before an action that must not be repeated.
 `D` is the type of container digests.
 */
module Notarization {
  import opened Common

  type Id = string

  datatype Status = Accepted | Invalid | Rejected | Pending(text: string)

  /** What `submission.json` holds once it exists. */
  datatype Submission<D> = Submission(
    sha256: D, finalSha: Option<D>, started: bool, id: Option<Id>, status: Option<Status>)

  datatype Response = Response(id: Option<Id>, status: Option<Status>)

  datatype Report = Report(status: Option<Status>, jobId: Id, hasErrorIssue: bool)

  /** The external actions, as they happened. */
  datatype SubmitAction<D> = SubmitAction(container: D, appleId: Id)

  datatype StapleAction = StapleAction(object: nat, id: Option<Id>, status: Option<Status>, report: Report)

  datatype Pc<D> =
    | Idle
    | Loaded(memory: Option<Submission<D>>, fingerprint: D)
    | ReadyToSubmit(state: Submission<D>)
    | Responded(state: Submission<D>, response: Response)
    | Identified(state: Submission<D>)
    | Judged(state: Submission<D>)
    | Stapling(state: Submission<D>, report: Report, next: nat)
    | JustStapled(state: Submission<D>, report: Report, next: nat)

  datatype World<D> = World(
    disk: Option<Submission<D>>, container: D, objects: nat, pc: Pc<D>,
    submits: seq<SubmitAction<D>>, staples: seq<StapleAction>)

  datatype Step<D> =
    | Load
    | MarkStarted
    | Resume
    | Submit(appleId: Id, response: Response)
    | RecordId
    | KeepStatus
    | Wait(status: Option<Status>)
    | CheckReport(report: Report)
    | Staple(container: D)
    | Seal
    | Finish
    | Crash
    | ReplaceContainer(container: D)
    | OperatorRecoversId(id: Id)

  predicate IsFinal(status: Option<Status>) { status.Some? && !status.value.Pending? }

  function LowerChar(ch: char): char { if 'A' <= ch <= 'Z' then ch - 'A' + 'a' else ch }

  function Lower(s: string): string { seq(|s|, i requires 0 <= i < |s| => LowerChar(s[i])) }

  predicate Permits<D(==)>(state: Submission<D>, report: Report) {
    && state.status == Some(Accepted)
    && report.status == Some(Accepted)
    && state.id.Some? && Lower(report.jobId) == Lower(state.id.value)
    && !report.hasErrorIssue
  }

  predicate HasId<D(==)>(memory: Option<Submission<D>>) { memory.Some? && memory.value.id.Some? && memory.value.id.value != "" }

  predicate Enabled<D(==)>(w: World<D>, step: Step<D>) {
    match step
    case Load =>
      w.pc.Idle? && w.objects > 0
      && (w.disk.Some? ==> w.container == w.disk.value.sha256 || Some(w.container) == w.disk.value.finalSha)
    case MarkStarted =>
      w.pc.Loaded? && !HasId(w.pc.memory) && (w.pc.memory.Some? ==> !w.pc.memory.value.started)
    case Resume => w.pc.Loaded? && HasId(w.pc.memory)
    case Submit(appleId, response) =>
      w.pc.ReadyToSubmit? && appleId != "" && (response.id.Some? && response.id.value != "" ==> response.id.value == appleId)
    case RecordId => w.pc.Responded? && w.pc.response.id.Some? && w.pc.response.id.value != ""
    case KeepStatus => w.pc.Identified? && IsFinal(w.pc.state.status)
    case Wait(_) => w.pc.Identified? && !IsFinal(w.pc.state.status)
    case CheckReport(report) => w.pc.Judged? && Permits(w.pc.state, report)
    case Staple(_) => w.pc.Stapling? && w.pc.next < w.objects
    case Seal => w.pc.JustStapled?
    case Finish => w.pc.Stapling? && w.pc.next == w.objects
    case Crash => true
    case ReplaceContainer(_) => w.pc.Idle?
    case OperatorRecoversId(id) =>
      w.pc.Idle? && w.disk.Some? && !HasId(w.disk) && w.submits != [] && id == w.submits[0].appleId
  }

  function Next<D(==)>(w: World<D>, step: Step<D>): World<D>
    requires Enabled(w, step)
  {
    match step
    case Load => w.(pc := Loaded(w.disk, w.container))
    case MarkStarted =>
      var state := Submission(w.pc.fingerprint, None, true, None, None);
      w.(disk := Some(state), pc := ReadyToSubmit(state))
    case Resume => w.(pc := Identified(w.pc.memory.value))
    case Submit(appleId, response) =>
      w.(submits := w.submits + [SubmitAction(w.container, appleId)], pc := Responded(w.pc.state, response))
    case RecordId =>
      var state := w.pc.state.(id := w.pc.response.id, status := w.pc.response.status);
      w.(disk := Some(state), pc := Identified(state))
    case KeepStatus => w.(pc := Judged(w.pc.state))
    case Wait(status) =>
      var state := w.pc.state.(status := status);
      w.(disk := Some(state), pc := Judged(state))
    case CheckReport(report) => w.(pc := Stapling(w.pc.state, report, 0))
    case Staple(container) =>
      w.(container := container,
         staples := w.staples + [StapleAction(w.pc.next, w.pc.state.id, w.pc.state.status, w.pc.report)],
         pc := JustStapled(w.pc.state, w.pc.report, w.pc.next))
    case Seal =>
      var state := w.pc.state.(finalSha := Some(w.container));
      w.(disk := Some(state), pc := Stapling(state, w.pc.report, w.pc.next + 1))
    case Finish => w.(disk := Some(w.pc.state.(finalSha := Some(w.container))), pc := Idle)
    case Crash => w.(pc := Idle)
    case ReplaceContainer(container) => w.(container := container)
    case OperatorRecoversId(id) => w.(disk := Some(w.disk.value.(id := Some(id))))
  }

  // ---- Invariant ----

  predicate IsTheSubmission<D(==)>(w: World<D>, state: Submission<D>) {
    && |w.submits| == 1
    && state.sha256 == w.submits[0].container
    && state.id == Some(w.submits[0].appleId)
    && state.started
  }

  predicate DiskInv<D(==)>(w: World<D>) {
    && |w.submits| <= 1
    && (w.submits != [] ==> w.disk.Some? && w.disk.value.sha256 == w.submits[0].container && w.submits[0].appleId != "")
    && (w.disk.Some? ==> w.disk.value.started)
    && (HasId(w.disk) ==> IsTheSubmission(w, w.disk.value))
  }

  predicate PcInv<D(==)>(w: World<D>) {
    match w.pc
    case Idle => true
    case Loaded(memory, fingerprint) => memory == w.disk && fingerprint == w.container
    case ReadyToSubmit(state) =>
      w.disk == Some(state) && w.submits == [] && !HasId(w.disk) && state.sha256 == w.container
    case Responded(state, response) =>
      && w.disk == Some(state) && |w.submits| == 1 && state.sha256 == w.submits[0].container
      && (response.id.Some? && response.id.value != "" ==> response.id.value == w.submits[0].appleId)
    case Identified(state) => w.disk == Some(state) && IsTheSubmission(w, state)
    case Judged(state) => w.disk == Some(state) && IsTheSubmission(w, state)
    case Stapling(state, report, _) => w.disk == Some(state) && IsTheSubmission(w, state) && Permits(state, report)
    case JustStapled(state, report, _) => w.disk == Some(state) && IsTheSubmission(w, state) && Permits(state, report)
  }

  /** A staple is justified by the one submission, its acceptance and its own clean report. */
  predicate Justified<D(==)>(w: World<D>, s: StapleAction) {
    && |w.submits| == 1
    && s.id == Some(w.submits[0].appleId)
    && s.status == Some(Accepted)
    && s.report.status == Some(Accepted)
    && Lower(s.report.jobId) == Lower(w.submits[0].appleId)
    && !s.report.hasErrorIssue
  }

  ghost predicate Inv<D>(w: World<D>) {
    DiskInv(w) && PcInv(w) && forall i :: 0 <= i < |w.staples| ==> Justified(w, w.staples[i])
  }

  lemma StepKeepsInv<D>(w: World<D>, step: Step<D>)
    requires Inv(w) && Enabled(w, step)
    ensures Inv(Next(w, step))
  {
    var after := Next(w, step);
    forall i | 0 <= i < |after.staples|
      ensures Justified(after, after.staples[i])
    {
      if i < |w.staples| {
        assert Justified(w, w.staples[i]);
      }
    }
  }

  ghost predicate Runs<D>(w: World<D>, steps: seq<Step<D>>)
    decreases |steps|
  {
    steps == [] || (Enabled(w, steps[0]) && Runs(Next(w, steps[0]), steps[1..]))
  }

  ghost function After<D>(w: World<D>, steps: seq<Step<D>>): World<D>
    requires Runs(w, steps)
    decreases |steps|
  {
    if steps == [] then w else After(Next(w, steps[0]), steps[1..])
  }

  function EmptyLogDirectory<D(==)>(container: D, objects: nat): World<D> { World(None, container, objects, Idle, [], []) }

  lemma {:induction false} RunKeepsInv<D>(w: World<D>, steps: seq<Step<D>>)
    requires Inv(w) && Runs(w, steps)
    ensures Inv(After(w, steps))
    decreases |steps|
  {
    if steps != [] {
      StepKeepsInv(w, steps[0]);
      RunKeepsInv(Next(w, steps[0]), steps[1..]);
    }
  }

  /** Across any crashes and retries: one submit at most, and every staple justified by it. */
  lemma SubmittedOnceStapledOnlyIfAccepted<D>(container: D, objects: nat, steps: seq<Step<D>>)
    requires Runs(EmptyLogDirectory(container, objects), steps)
    ensures var w := After(EmptyLogDirectory(container, objects), steps);
            |w.submits| <= 1 && forall i :: 0 <= i < |w.staples| ==> Justified(w, w.staples[i])
  {
    RunKeepsInv(EmptyLogDirectory(container, objects), steps);
  }

  // ---- What is stapled is what was submitted ----

  /** The record is about this container: as it was submitted, or as stapling last left it. */
  predicate Covers<D(==)>(state: Submission<D>, container: D) {
    container == state.sha256 || state.finalSha == Some(container)
  }

  predicate Bound<D(==)>(w: World<D>) {
    && (w.disk.Some? && w.disk.value.finalSha.Some? ==> w.staples != [])
    && (!w.pc.Idle? ==> w.objects > 0)
    && match w.pc
       case Idle => true
       case Loaded(memory, _) => memory.Some? ==> Covers(memory.value, w.container)
       case ReadyToSubmit(state) => state.sha256 == w.container
       case Responded(state, _) => state.sha256 == w.container
       case Identified(state) => Covers(state, w.container)
       case Judged(state) => Covers(state, w.container)
       case Stapling(state, _, next) => if next == 0 then Covers(state, w.container) else w.staples != [] && state.finalSha == Some(w.container)
       case JustStapled(_, _, _) => w.staples != []
  }

  lemma StepKeepsBound<D>(w: World<D>, step: Step<D>)
    requires Inv(w) && Bound(w) && Enabled(w, step)
    ensures Bound(Next(w, step))
  {
  }

  lemma {:induction false} RunKeepsBound<D>(w: World<D>, steps: seq<Step<D>>)
    requires Inv(w) && Bound(w) && Runs(w, steps)
    ensures Inv(After(w, steps)) && Bound(After(w, steps))
    decreases |steps|
  {
    hide Inv, Bound, Next, Enabled;
    if steps != [] {
      StepKeepsInv(w, steps[0]);
      StepKeepsBound(w, steps[0]);
      RunKeepsBound(Next(w, steps[0]), steps[1..]);
    }
  }

  /** However often the container is replaced between calls, a staple is put only on the container that was
      submitted, or on what an earlier staple made of it. */
  lemma StapledWasSubmitted<D>(container: D, objects: nat, steps: seq<Step<D>>, next: D)
    requires Runs(EmptyLogDirectory(container, objects), steps)
    requires Enabled(After(EmptyLogDirectory(container, objects), steps), Staple(next))
    ensures var w := After(EmptyLogDirectory(container, objects), steps);
            && |w.submits| == 1 && w.disk.Some?
            && (w.container == w.submits[0].container || (w.staples != [] && w.disk.value.finalSha == Some(w.container)))
  {
    RunKeepsBound(EmptyLogDirectory(container, objects), steps);
  }

  // ---- The script itself takes only these steps ----

  lemma {:induction false} RunThen<D>(w: World<D>, steps: seq<Step<D>>, step: Step<D>)
    requires Runs(w, steps) && Enabled(After(w, steps), step)
    ensures Runs(w, steps + [step]) && After(w, steps + [step]) == Next(After(w, steps), step)
    decreases |steps|
  {
    var all := steps + [step];
    if steps == [] {
      assert all[1..] == [];
    } else {
      RunThen(Next(w, steps[0]), steps[1..], step);
      assert all[1..] == steps[1..] + [step];
    }
  }

  datatype Verdict<D> = Notarized(state: Submission<D>) | Refused | Died

  class Notary<D(==, 0)> {
    var world: World<D>
    ghost var start: World<D>
    ghost var trace: seq<Step<D>>

    constructor (w: World<D>)
      ensures world == w && Follows()
    {
      world := w;
      start := w;
      trace := [];
    }

    /** The world is where the recorded steps lead. */
    ghost predicate Follows()
      reads this
    {
      Runs(start, trace) && After(start, trace) == world
    }

    method Do(step: Step<D>)
      requires Follows() && Enabled(world, step) && Inv(world)
      modifies this
      ensures Follows() && start == old(start) && Inv(world) && world == Next(old(world), step)
    {
      StepKeepsInv(world, step);
      RunThen(start, trace, step);
      trace := trace + [step];
      world := Next(world, step);
    }

    /** One call of the script; it may die between any two of its actions. */
    method Notarize() returns (verdict: Verdict<D>)
      requires Follows() && world.pc.Idle? && Inv(world)
      modifies this
      ensures Follows() && start == old(start) && world.pc.Idle? && Inv(world)
      ensures verdict.Notarized? ==>
                && world.disk == Some(verdict.state)
                && verdict.state.finalSha == Some(world.container)
                && IsTheSubmission(world, verdict.state)
    {
      if world.objects == 0 {
        return Refused;
      }
      if world.disk.Some? && world.container != world.disk.value.sha256
         && Some(world.container) != world.disk.value.finalSha {
        return Refused;
      }
      Do(Load);
      var stopped := Identify();
      if stopped.Some? {
        return stopped.value;
      }
      stopped := AwaitAcceptance();
      if stopped.Some? {
        return stopped.value;
      }
      verdict := StapleObjects();
    }

    /** Reach a submission id: reuse the recorded one, or submit after recording that it was started. */
    method Identify() returns (stopped: Option<Verdict<D>>)
      requires Follows() && world.pc.Loaded? && Inv(world)
      modifies this
      ensures Follows() && start == old(start) && Inv(world)
      ensures stopped.None? ==> world.pc.Identified?
      ensures stopped.Some? ==> world.pc.Idle? && !stopped.value.Notarized?
    {
      hide Lower, Runs, After;
      var memory := world.pc.memory;
      if HasId(memory) {
        Do(Resume);
        return None;
      }
      if memory.Some? && memory.value.started {
        Do(Crash);
        return Some(Refused);
      }
      Do(MarkStarted);
      var appleId: Id := *;
      var response: Response := *;
      if appleId == "" || (response.id.Some? && response.id.value != "" && response.id.value != appleId) {
        Do(Crash);
        return Some(Died);
      }
      Do(Submit(appleId, response));
      if * {
        Do(Crash);
        return Some(Died);
      }
      if response.id.None? || response.id.value == "" {
        Do(Crash);
        return Some(Refused);
      }
      Do(RecordId);
      stopped := None;
    }

    method AwaitAcceptance() returns (stopped: Option<Verdict<D>>)
      requires Follows() && world.pc.Identified? && Inv(world)
      modifies this
      ensures Follows() && start == old(start) && Inv(world)
      ensures stopped.None? ==> world.pc.Stapling? && world.pc.next == 0
      ensures stopped.Some? ==> world.pc.Idle? && !stopped.value.Notarized?
    {
      if IsFinal(world.pc.state.status) {
        Do(KeepStatus);
      } else {
        if * {
          Do(Crash);
          return Some(Died);
        }
        var status: Option<Status> := *;
        Do(Wait(status));
      }
      if * {
        Do(Crash);
        return Some(Died);
      }
      var report: Report := *;
      if !Permits(world.pc.state, report) {
        Do(Crash);
        return Some(Refused);
      }
      Do(CheckReport(report));
      stopped := None;
    }

    /** Staple each object and record the container's new digest before the next one. */
    method StapleObjects() returns (verdict: Verdict<D>)
      requires Follows() && world.pc.Stapling? && world.pc.next == 0 && Inv(world)
      modifies this
      ensures Follows() && start == old(start) && Inv(world) && world.pc.Idle?
      ensures verdict.Notarized? ==>
                && world.disk == Some(verdict.state)
                && verdict.state.finalSha == Some(world.container)
                && IsTheSubmission(world, verdict.state)
    {
      hide Lower, Runs, After, Permits;
      while world.pc.next < world.objects
        invariant Follows() && start == old(start) && Inv(world)
        invariant world.pc.Stapling? && world.pc.next <= world.objects
        decreases world.objects - if world.pc.Stapling? then world.pc.next else 0
      {
        if * {
          Do(Crash);
          return Died;
        }
        var container: D := *;
        Do(Staple(container));
        if * {
          Do(Crash);
          return Died;
        }
        Do(Seal);
      }
      Do(Finish);
      verdict := Notarized(world.disk.value);
    }
  }
}
