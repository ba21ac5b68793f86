/** Staging the signed macOS payload: once its signed files are recorded it is finished or refused, never redone. */
module Packaging {
  import opened Common
  import N = Notarization

  /** File paths with their digests. */
  type Tree = map<string, nat>
  type Inputs = nat

  const MANIFEST := "cua/manifest.json"
  const CODE_RESOURCES := "cua/Pioneer Gateway.app/Contents/CodeResources"

  /** The retained inventory leaves out what notarization and publication add. */
  function Inventory(tree: Tree): Tree { tree - {MANIFEST, CODE_RESOURCES} }

  /** `package-inputs.json`: rewritten in place, so a crash can leave it unreadable. */
  datatype StateFile = Absent | Torn | Recorded(inputs: Inputs, signed: Option<Tree>)

  datatype Pc =
    | Idle
    | Opened(inputs: Inputs)
    | RootGone(inputs: Inputs)
    | Cleared(inputs: Inputs)
    | WritingInputs(inputs: Inputs)
    | Assembling(inputs: Inputs)
    | Zipped(inputs: Inputs)
    | WritingSigned(inputs: Inputs)
    | Finishing(inputs: Inputs)
    | Notarizing(inputs: Inputs)
    | Ticketed(inputs: Inputs)
    | Manifested(inputs: Inputs)

  /** The staging directory, and the notarization of its archive; a digest stands for the archive's files. */
  datatype World = World(
    file: StateFile, root: Option<Tree>, archive: Option<Tree>, notary: N.World<Tree>, pc: Pc,
    signings: nat, discards: nat, published: seq<Tree>)

  datatype Step =
    | Open(inputs: Inputs)
    | DiscardPart(rest: Tree)
    | DiscardRoot
    | DiscardArchive
    | StartAfresh
    | Adopt
    | TruncateState
    | WriteInputs
    | Assemble(tree: Tree)
    | Sign(tree: Tree)
    | Zip
    | TruncateForSigned
    | WriteSigned
    | BeginNotary
    | NotaryStep(step: N.Step<Tree>, ticket: nat)
    | WriteManifest(digest: nat)
    | Publish
    | Crash
    | Disturb(root: Option<Tree>, archive: Option<Tree>)
    | OperatorRecoversId(id: N.Id)

  predicate IsSigned(file: StateFile) { file.Recorded? && file.signed.Some? }

  /** `submission.json` exists. */
  predicate IsSubmitted(w: World) { w.notary.disk.Some? }

  predicate MayDiscard(w: World, inputs: Inputs) {
    w.root.Some? && !IsSigned(w.file) && w.file.Recorded? && w.file.inputs == inputs && !IsSubmitted(w)
  }

  /** The actions of one call of the notarization script; stapling the application leaves the archive alone. */
  predicate IsScripted(w: World, step: N.Step<Tree>) {
    match step
    case Load => false
    case Crash => false
    case ReplaceContainer(_) => false
    case OperatorRecoversId(_) => false
    case Staple(container) => container == w.notary.container
    case _ => true
  }

  /** The notary looking at the archive as it is now. */
  function Facing(w: World): N.World<Tree>
    requires w.archive.Some?
  {
    w.notary.(container := w.archive.value)
  }

  predicate Enabled(w: World, step: Step) {
    match step
    case Open(_) => w.pc.Idle? && !w.file.Torn?
    case DiscardPart(_) => w.pc.Opened? && MayDiscard(w, w.pc.inputs)
    case DiscardRoot => w.pc.Opened? && MayDiscard(w, w.pc.inputs)
    case DiscardArchive => w.pc.RootGone?
    case StartAfresh =>
      w.pc.Opened? && w.root.None?
      && (w.file.Recorded? ==> w.file.inputs == w.pc.inputs && w.file.signed.None?)
    case Adopt =>
      w.pc.Opened? && w.root.Some? && IsSigned(w.file)
      && w.file.inputs == w.pc.inputs && w.archive.Some? && w.file.signed.value == Inventory(w.root.value)
    case TruncateState => w.pc.Cleared?
    case WriteInputs => w.pc.WritingInputs?
    case Assemble(_) => w.pc.Assembling?
    case Sign(_) => w.pc.Assembling?
    case Zip => w.pc.Assembling? && w.root.Some? && w.archive.None?
    case TruncateForSigned => w.pc.Zipped?
    case WriteSigned => w.pc.WritingSigned? && w.root.Some?
    case BeginNotary => w.pc.Finishing? && w.archive.Some? && N.Enabled(Facing(w), N.Step.Load)
    case NotaryStep(step, _) =>
      w.pc.Notarizing? && w.root.Some? && IsScripted(w, step) && N.Enabled(w.notary, step)
    case WriteManifest(_) => w.pc.Ticketed? && w.root.Some?
    case Publish => w.pc.Manifested? && w.root.Some?
    case Crash => true
    case Disturb(_, _) => w.pc.Idle?
    case OperatorRecoversId(id) => w.pc.Idle? && N.Enabled(w.notary, N.Step.OperatorRecoversId(id))
  }

  function Next(w: World, step: Step): World
    requires Enabled(w, step)
  {
    match step
    case Open(inputs) => w.(pc := Opened(inputs))
    case DiscardPart(rest) => w.(root := Some(rest), discards := w.discards + 1)
    case DiscardRoot => w.(root := None, discards := w.discards + 1, pc := RootGone(w.pc.inputs))
    case DiscardArchive => w.(archive := None, pc := Cleared(w.pc.inputs))
    case StartAfresh => w.(pc := Cleared(w.pc.inputs))
    case Adopt => w.(pc := Finishing(w.pc.inputs))
    case TruncateState => w.(file := Torn, pc := WritingInputs(w.pc.inputs))
    case WriteInputs => w.(file := Recorded(w.pc.inputs, None), pc := Assembling(w.pc.inputs))
    case Assemble(tree) => w.(root := Some(tree))
    case Sign(tree) => w.(root := Some(tree), signings := w.signings + 1)
    case Zip => w.(archive := w.root, pc := Zipped(w.pc.inputs))
    case TruncateForSigned => w.(file := Torn, pc := WritingSigned(w.pc.inputs))
    case WriteSigned => w.(file := Recorded(w.pc.inputs, w.root), pc := Finishing(w.pc.inputs))
    case BeginNotary => w.(notary := N.Next(Facing(w), N.Step.Load), pc := Notarizing(w.pc.inputs))
    case NotaryStep(step, ticket) =>
      w.(notary := N.Next(w.notary, step),
         root := if step.Staple? then Some(w.root.value[CODE_RESOURCES := ticket]) else w.root,
         pc := if step.Finish? then Ticketed(w.pc.inputs) else w.pc)
    case WriteManifest(digest) => w.(root := Some(w.root.value[MANIFEST := digest]), pc := Manifested(w.pc.inputs))
    case Publish => w.(published := w.published + [w.root.value], pc := Idle)
    case Crash => w.(notary := N.Next(w.notary, N.Step.Crash), pc := Idle)
    case Disturb(root, archive) => w.(root := root, archive := archive)
    case OperatorRecoversId(id) => w.(notary := N.Next(w.notary, N.Step.OperatorRecoversId(id)))
  }

  // ---- Invariant ----

  predicate IsFinishing(pc: Pc) { pc.Finishing? || pc.Notarizing? || pc.Ticketed? || pc.Manifested? }

  /** Where the notary stands while the script runs it, and what it has done by then. */
  predicate NotaryInv(w: World) {
    && w.notary.objects == 1
    && (!w.pc.Notarizing? ==> w.notary.pc.Idle?)
    && (w.pc.Notarizing? ==> w.archive == Some(w.notary.container))
    && (IsSubmitted(w) ==> IsSigned(w.file))
    && (w.notary.pc.JustStapled? || (w.notary.pc.Stapling? && w.notary.pc.next > 0) ==> w.notary.staples != [])
    && (w.pc.Ticketed? || w.pc.Manifested? || w.published != [] ==> w.notary.staples != [])
  }

  predicate StagingInv(w: World) {
    && (IsFinishing(w.pc) ==>
          && IsSigned(w.file) && w.file.inputs == w.pc.inputs
          && w.root.Some? && Inventory(w.root.value) == Inventory(w.file.signed.value))
    && (IsSigned(w.file) ==> w.pc.Idle? || w.pc.Opened? || IsFinishing(w.pc))
    && (w.published != [] ==> IsSigned(w.file))
  }

  ghost predicate Inv(w: World) { N.Inv(w.notary) && NotaryInv(w) && StagingInv(w) }

  lemma TicketsAreNotInventoried(tree: Tree, digest: nat)
    ensures Inventory(tree[MANIFEST := digest]) == Inventory(tree)
    ensures Inventory(tree[CODE_RESOURCES := digest]) == Inventory(tree)
  {
  }

  lemma FacingKeepsInv(w: World)
    requires N.Inv(w.notary) && w.notary.pc.Idle? && w.archive.Some?
    ensures N.Inv(Facing(w))
  {
    N.StepKeepsInv(w.notary, N.Step.ReplaceContainer(w.archive.value));
    assert Facing(w) == N.Next(w.notary, N.Step.ReplaceContainer(w.archive.value));
  }

  lemma NotaryStaysSound(w: World, step: Step)
    requires Inv(w) && Enabled(w, step)
    ensures N.Inv(Next(w, step).notary)
  {
    hide N.Inv, N.Next, N.Enabled, StagingInv;
    match step
    case BeginNotary =>
      FacingKeepsInv(w);
      N.StepKeepsInv(Facing(w), N.Step.Load);
    case NotaryStep(s, _) => N.StepKeepsInv(w.notary, s);
    case Crash =>
      CrashIsAlwaysPossible(w.notary);
      N.StepKeepsInv(w.notary, N.Step.Crash);
    case OperatorRecoversId(id) => N.StepKeepsInv(w.notary, N.Step.OperatorRecoversId(id));
    case _ =>
  }

  lemma CrashIsAlwaysPossible(n: N.World<Tree>)
    ensures N.Enabled(n, N.Step.Crash)
  {
  }

  lemma StepKeepsNotaryInv(w: World, step: Step)
    requires NotaryInv(w) && StagingInv(w) && Enabled(w, step)
    ensures NotaryInv(Next(w, step))
  {
    hide Inventory;
  }

  lemma StepKeepsStagingInv(w: World, step: Step)
    requires NotaryInv(w) && StagingInv(w) && Enabled(w, step)
    ensures StagingInv(Next(w, step))
  {
    hide N.Next, N.Enabled, Inventory;
    match step
    case Adopt => InventoryTwice(w.root.value);
    case NotaryStep(_, ticket) => TicketsAreNotInventoried(w.root.value, ticket);
    case WriteManifest(digest) => TicketsAreNotInventoried(w.root.value, digest);
    case _ =>
  }

  lemma InventoryTwice(tree: Tree)
    ensures Inventory(Inventory(tree)) == Inventory(tree)
  {
  }

  lemma StepKeepsInv(w: World, step: Step)
    requires Inv(w) && Enabled(w, step)
    ensures Inv(Next(w, step))
  {
    hide Next, Enabled, NotaryInv, StagingInv, N.Inv;
    NotaryStaysSound(w, step);
    StepKeepsNotaryInv(w, step);
    StepKeepsStagingInv(w, step);
  }

  /** Recorded signed files are never rewritten, discarded or signed again. */
  predicate Retains(w: World, after: World) {
    && after.file == w.file
    && after.signings == w.signings
    && after.discards == w.discards
    && w.published <= after.published
  }

  /** Only tickets are added to them, and only they are published. */
  lemma StepRetainsSigned(w: World, step: Step)
    requires Inv(w) && Enabled(w, step) && IsSigned(w.file)
    ensures Retains(w, Next(w, step))
    ensures !step.Disturb? && w.root.Some? ==>
              Next(w, step).root.Some? && Inventory(Next(w, step).root.value) == Inventory(w.root.value)
    ensures Next(w, step).published != w.published ==>
              && |Next(w, step).published| == |w.published| + 1
              && Inventory(Next(w, step).published[|w.published|]) == Inventory(w.file.signed.value)
  {
    hide N.Inv, N.Next, N.Enabled, NotaryInv, Inventory;
    match step
    case NotaryStep(_, ticket) => TicketsAreNotInventoried(w.root.value, ticket);
    case WriteManifest(digest) => TicketsAreNotInventoried(w.root.value, digest);
    case _ =>
  }

  ghost predicate Runs(w: World, steps: seq<Step>)
    decreases |steps|
  {
    steps == [] || (Enabled(w, steps[0]) && Runs(Next(w, steps[0]), steps[1..]))
  }

  ghost function After(w: World, steps: seq<Step>): World
    requires Runs(w, steps)
    decreases |steps|
  {
    if steps == [] then w else After(Next(w, steps[0]), steps[1..])
  }

  const EMPTY_LOG_DIRECTORY := World(Absent, None, None, N.EmptyLogDirectory(map[], 1), Idle, 0, 0, [])

  lemma {:induction false} RunKeepsInv(w: World, steps: seq<Step>)
    requires Inv(w) && Runs(w, steps)
    ensures Inv(After(w, steps))
    decreases |steps|
  {
    hide Next, Enabled, Inv;
    if steps != [] {
      StepKeepsInv(w, steps[0]);
      RunKeepsInv(Next(w, steps[0]), steps[1..]);
    }
  }

  /** Every later retry finishes from exactly the recorded files, or publishes nothing. */
  lemma {:induction false} SignedStagingIsFinishedOrRefused(w: World, steps: seq<Step>)
    requires Inv(w) && IsSigned(w.file) && Runs(w, steps)
    ensures Inv(After(w, steps)) && Retains(w, After(w, steps))
    ensures forall i :: |w.published| <= i < |After(w, steps).published| ==>
              Inventory(After(w, steps).published[i]) == Inventory(w.file.signed.value)
    decreases |steps|
  {
    hide Inventory, Enabled, Next, Inv;
    if steps != [] {
      StepKeepsInv(w, steps[0]);
      StepRetainsSigned(w, steps[0]);
      var middle := Next(w, steps[0]);
      SignedStagingIsFinishedOrRefused(middle, steps[1..]);
      var after := After(w, steps);
      forall i | |w.published| <= i < |after.published|
        ensures Inventory(after.published[i]) == Inventory(w.file.signed.value)
      {
        if i < |middle.published| {
          assert after.published[i] == middle.published[i];
        }
      }
    }
  }

  // ---- What is published was submitted and accepted ----

  ghost predicate PublishedRecorded(w: World) {
    forall i :: 0 <= i < |w.published| ==>
      IsSigned(w.file) && Inventory(w.published[i]) == Inventory(w.file.signed.value)
  }

  lemma {:induction false} EverythingPublishedIsRecorded(w: World, steps: seq<Step>)
    requires Inv(w) && PublishedRecorded(w) && Runs(w, steps)
    ensures Inv(After(w, steps)) && PublishedRecorded(After(w, steps))
    decreases |steps|
  {
    hide Inventory, Enabled, Next, Inv;
    if steps != [] {
      StepKeepsInv(w, steps[0]);
      StepKeepsPublished(w, steps[0]);
      EverythingPublishedIsRecorded(Next(w, steps[0]), steps[1..]);
    }
  }

  lemma StepKeepsPublished(w: World, step: Step)
    requires Inv(w) && PublishedRecorded(w) && Enabled(w, step)
    ensures PublishedRecorded(Next(w, step))
  {
    hide Inventory, N.Inv, N.Next, N.Enabled, NotaryInv;
    if IsSigned(w.file) {
      StepRetainsSigned(w, step);
      var after := Next(w, step);
      forall i | 0 <= i < |after.published|
        ensures Inventory(after.published[i]) == Inventory(w.file.signed.value)
      {
        if i < |w.published| {
          assert after.published[i] == w.published[i];
        }
      }
    }
  }

  /** Nothing is ever published, or submitted, before its signed files are recorded. */
  lemma PublishedOnlyFromSignedFiles(steps: seq<Step>)
    requires Runs(EMPTY_LOG_DIRECTORY, steps)
    ensures var w := After(EMPTY_LOG_DIRECTORY, steps); IsSubmitted(w) || w.published != [] ==> IsSigned(w.file)
  {
    hide Next, Enabled, Inventory, N.Inv;
    EmptyInv();
    RunKeepsInv(EMPTY_LOG_DIRECTORY, steps);
  }

  /** From an empty log directory, whatever crashes, retries and disturbances: a publication follows
      the acceptance of the one submission, and has the submitted files exactly when the archive
      submitted had the recorded ones. */
  lemma PublishedWasAccepted(steps: seq<Step>, i: nat)
    requires Runs(EMPTY_LOG_DIRECTORY, steps) && i < |After(EMPTY_LOG_DIRECTORY, steps).published|
    ensures var w := After(EMPTY_LOG_DIRECTORY, steps);
            && IsSigned(w.file) && Inventory(w.published[i]) == Inventory(w.file.signed.value)
            && w.notary.staples != [] && N.Justified(w.notary, w.notary.staples[0])
            && |w.notary.submits| == 1
            && (Inventory(w.published[i]) == Inventory(w.notary.submits[0].container)
                <==> Inventory(w.notary.submits[0].container) == Inventory(w.file.signed.value))
  {
    hide Inventory, Next, Enabled, StagingInv;
    EmptyInv();
    EverythingPublishedIsRecorded(EMPTY_LOG_DIRECTORY, steps);
    var n := After(EMPTY_LOG_DIRECTORY, steps).notary;
    assert n.staples != [];
    assert N.Justified(n, n.staples[0]);
  }

  lemma EmptyInv()
    ensures Inv(EMPTY_LOG_DIRECTORY) && PublishedRecorded(EMPTY_LOG_DIRECTORY)
  {
  }

  /** Others may do what they like to the staged root, but leave the archive as it is. */
  predicate SparesArchive(w: World, step: Step) { step.Disturb? ==> step.archive == w.archive }

  ghost predicate ArchiveSpared(w: World, steps: seq<Step>)
    requires Runs(w, steps)
    decreases |steps|
  {
    steps != [] ==> SparesArchive(w, steps[0]) && ArchiveSpared(Next(w, steps[0]), steps[1..])
  }

  /** The archive holds the recorded files, and so does what was submitted. */
  predicate ArchiveInv(w: World) {
    && (w.pc.Zipped? || w.pc.WritingSigned? ==> w.archive == w.root)
    && (IsSigned(w.file) ==> w.archive == w.file.signed)
    && (w.notary.submits != [] ==> IsSigned(w.file) && w.notary.submits[0].container == w.file.signed.value)
  }

  lemma StepKeepsArchiveInv(w: World, step: Step)
    requires Inv(w) && ArchiveInv(w) && Enabled(w, step) && SparesArchive(w, step)
    ensures ArchiveInv(Next(w, step))
  {
    hide Inventory, N.Next, N.Enabled, N.Inv;
    match step
    case BeginNotary => NotarySubmits(Facing(w), N.Step.Load);
    case NotaryStep(s, _) => NotarySubmits(w.notary, s);
    case Crash => NotarySubmits(w.notary, N.Step.Crash);
    case OperatorRecoversId(id) => NotarySubmits(w.notary, N.Step.OperatorRecoversId(id));
    case _ =>
  }

  /** Only a submit adds to the submissions, and it adds what the notary is facing. */
  lemma NotarySubmits(n: N.World<Tree>, step: N.Step<Tree>)
    requires N.Enabled(n, step)
    ensures N.Next(n, step).submits == n.submits
            || (step.Submit? && N.Next(n, step).submits == n.submits + [N.SubmitAction(n.container, step.appleId)])
  {
  }

  lemma {:induction false} SparedRunKeepsArchiveInv(w: World, steps: seq<Step>)
    requires Inv(w) && ArchiveInv(w) && Runs(w, steps) && ArchiveSpared(w, steps)
    ensures ArchiveInv(After(w, steps))
    decreases |steps|
  {
    hide Next, Enabled, Inv, ArchiveInv, SparesArchive;
    if steps != [] {
      StepKeepsInv(w, steps[0]);
      StepKeepsArchiveInv(w, steps[0]);
      SparedRunKeepsArchiveInv(Next(w, steps[0]), steps[1..]);
    }
  }

  /** If nobody touches the archive, every publication has exactly the files that were accepted. */
  lemma PublishedFilesWereAccepted(steps: seq<Step>, i: nat)
    requires Runs(EMPTY_LOG_DIRECTORY, steps) && i < |After(EMPTY_LOG_DIRECTORY, steps).published|
    requires ArchiveSpared(EMPTY_LOG_DIRECTORY, steps)
    ensures var w := After(EMPTY_LOG_DIRECTORY, steps);
            && |w.notary.submits| == 1
            && Inventory(w.published[i]) == Inventory(w.notary.submits[0].container)
  {
    hide Inventory, Next, Enabled;
    EmptyInv();
    SparedRunKeepsArchiveInv(EMPTY_LOG_DIRECTORY, steps);
    PublishedWasAccepted(steps, i);
  }

  // ---- The script itself takes only these steps ----

  lemma {:induction false} RunThen(w: World, steps: seq<Step>, step: Step)
    requires Runs(w, steps) && Enabled(After(w, steps), step)
    ensures Runs(w, steps + [step]) && After(w, steps + [step]) == Next(After(w, steps), step)
    decreases |steps|
  {
    var all := steps + [step];
    if steps == [] {
      assert all[1..] == [];
    } else {
      RunThen(Next(w, steps[0]), steps[1..], step);
      assert all[1..] == steps[1..] + [step];
    }
  }

  class Packager {
    var world: World
    ghost var start: World
    ghost var trace: seq<Step>

    constructor (w: World)
      ensures world == w && Follows()
    {
      world := w;
      start := w;
      trace := [];
    }

    /** The world is where the recorded steps lead. */
    ghost predicate Follows()
      reads this
    {
      Runs(start, trace) && After(start, trace) == world
    }

    method Do(step: Step)
      requires Follows() && Enabled(world, step) && Inv(world)
      modifies this
      ensures Follows() && start == old(start) && Inv(world) && world == Next(old(world), step)
    {
      StepKeepsInv(world, step);
      RunThen(start, trace, step);
      trace := trace + [step];
      world := Next(world, step);
    }

    /** One call of the macOS path; it may die between any two of its actions. */
    method Package(inputs: Inputs) returns (published: bool)
      requires Follows() && world.pc.Idle? && Inv(world)
      modifies this
      ensures Follows() && start == old(start) && world.pc.Idle? && Inv(world)
      ensures published ==>
                && IsSigned(world.file) && world.file.inputs == inputs
                && |world.published| == |old(world).published| + 1
                && Inventory(world.published[|old(world).published|]) == Inventory(world.file.signed.value)
      ensures !published ==> world.published == old(world).published
    {
      if world.file.Torn? {
        return false;
      }
      Do(Open(inputs));
      if world.root.Some? && IsSigned(world.file) {
        if world.file.inputs != inputs || world.archive.None?
           || world.file.signed.value != Inventory(world.root.value) {
          Do(Crash);
          return false;
        }
        Do(Adopt);
      } else {
        var staged := StageAndSign(inputs);
        if !staged {
          return false;
        }
      }
      published := FinishPackage(inputs);
    }

    /** Discard a marked composition that was never signed, then compose, sign and record. */
    method StageAndSign(inputs: Inputs) returns (staged: bool)
      requires Follows() && world.pc == Opened(inputs) && Inv(world)
      requires world.root.None? || !IsSigned(world.file)
      modifies this
      ensures Follows() && start == old(start) && Inv(world)
      ensures world.published == old(world).published
      ensures if staged then world.pc == Finishing(inputs) else world.pc.Idle?
    {
      hide Inv, Inventory, Runs, After;
      staged := ClearStaging(inputs);
      if staged {
        staged := MarkInputs(inputs);
      }
      if staged {
        staged := ComposeAndSign(inputs);
      }
      if staged {
        staged := RecordSigned(inputs);
      }
    }

    /** The state file is rewritten in place: a death in between leaves it unreadable. */
    method MarkInputs(inputs: Inputs) returns (marked: bool)
      requires Follows() && world.pc == Cleared(inputs) && Inv(world)
      modifies this
      ensures Follows() && start == old(start) && Inv(world)
      ensures world.published == old(world).published
      ensures if marked then world.pc == Assembling(inputs) else world.pc.Idle?
    {
      hide Inv, Inventory, Runs, After;
      Do(TruncateState);
      if * {
        Do(Crash);
        return false;
      }
      Do(WriteInputs);
      marked := true;
    }

    method RecordSigned(inputs: Inputs) returns (recorded: bool)
      requires Follows() && world.pc == Zipped(inputs) && world.root.Some? && Inv(world)
      modifies this
      ensures Follows() && start == old(start) && Inv(world)
      ensures world.published == old(world).published
      ensures if recorded then world.pc == Finishing(inputs) else world.pc.Idle?
    {
      hide Inv, Inventory, Runs, After;
      Do(TruncateForSigned);
      if * {
        Do(Crash);
        return false;
      }
      Do(WriteSigned);
      recorded := true;
    }

    method ClearStaging(inputs: Inputs) returns (cleared: bool)
      requires Follows() && world.pc == Opened(inputs) && Inv(world)
      requires world.root.None? || !IsSigned(world.file)
      modifies this
      ensures Follows() && start == old(start) && Inv(world)
      ensures world.published == old(world).published
      ensures if cleared then world.pc == Cleared(inputs) else world.pc.Idle?
    {
      hide Inv, Inventory, Runs, After;
      if world.root.None? {
        if world.file.Recorded? && (world.file.inputs != inputs || world.file.signed.Some?) {
          Do(Crash);
          return false;
        }
        Do(StartAfresh);
        return true;
      }
      if !world.file.Recorded? || world.file.inputs != inputs || IsSubmitted(world) {
        Do(Crash);
        return false;
      }
      if * {
        var rest: Tree := *;
        Do(DiscardPart(rest));
        Do(Crash);
        return false;
      }
      Do(DiscardRoot);
      if * {
        Do(Crash);
        return false;
      }
      Do(DiscardArchive);
      cleared := true;
    }

    method ComposeAndSign(inputs: Inputs) returns (composed: bool)
      requires Follows() && world.pc == Assembling(inputs) && Inv(world)
      modifies this
      ensures Follows() && start == old(start) && Inv(world)
      ensures world.published == old(world).published
      ensures if composed then world.pc == Zipped(inputs) && world.root.Some? else world.pc.Idle?
    {
      hide Inv, Inventory, Runs, After;
      var tree: Tree := *;
      Do(Assemble(tree));
      if * {
        Do(Crash);
        return false;
      }
      var signed: Tree := *;
      Do(Sign(signed));
      if world.archive.Some? {
        Do(Crash);
        return false;
      }
      Do(Zip);
      if * {
        Do(Crash);
        return false;
      }
      composed := true;
    }

    method FinishPackage(inputs: Inputs) returns (published: bool)
      requires Follows() && world.pc == Finishing(inputs) && Inv(world)
      modifies this
      ensures Follows() && start == old(start) && world.pc.Idle? && Inv(world)
      ensures world.file == old(world).file
      ensures published ==>
                && |world.published| == |old(world).published| + 1
                && Inventory(world.published[|old(world).published|]) == Inventory(world.file.signed.value)
      ensures !published ==> world.published == old(world).published
    {
      hide Inventory, Runs, After, N.Inv, N.Next, N.Enabled;
      var ticketed := NotarizeArchive(inputs);
      if !ticketed {
        return false;
      }
      if * {
        Do(Crash);
        return false;
      }
      var digest: nat := *;
      Do(WriteManifest(digest));
      if * {
        Do(Crash);
        return false;
      }
      Do(Publish);
      published := true;
    }

    /** One call of the notarization script on the archive: any run of its protocol, up to its end or its death. */
    method NotarizeArchive(inputs: Inputs) returns (ticketed: bool)
      requires Follows() && world.pc == Finishing(inputs) && Inv(world)
      modifies this
      ensures Follows() && start == old(start) && Inv(world)
      ensures world.file == old(world).file && world.published == old(world).published
      ensures if ticketed then world.pc == Ticketed(inputs) else world.pc.Idle?
    {
      hide Runs, After, Inventory, N.Inv, N.Next, N.Enabled;
      if world.archive.None? || !N.Enabled(Facing(world), N.Step.Load) {
        Do(Crash);
        return false;
      }
      Do(BeginNotary);
      var script: seq<(N.Step<Tree>, nat)> := *;
      var i := 0;
      while i < |script| && world.pc.Notarizing?
        invariant i <= |script|
        invariant Follows() && start == old(start) && Inv(world)
        invariant world.file == old(world).file && world.published == old(world).published
        invariant world.pc == Notarizing(inputs) || world.pc == Ticketed(inputs)
      {
        if !Enabled(world, NotaryStep(script[i].0, script[i].1)) {
          Do(Crash);
          return false;
        }
        Do(NotaryStep(script[i].0, script[i].1));
        i := i + 1;
      }
      if world.pc.Notarizing? {
        Do(Crash);
        return false;
      }
      ticketed := true;
    }
  }
}
