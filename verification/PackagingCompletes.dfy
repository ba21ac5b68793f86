/** What a publication is made of, and that an interrupted staging can be built again. */
module PackagingCompletes {
  import opened Common
  import N = Notarization
  import opened Packaging

  // ---- Every publication carries its ticket and its manifest ----

  predicate Complete(tree: Tree) { CODE_RESOURCES in tree && MANIFEST in tree }

  predicate HasStapled(pc: N.Pc<Tree>) { pc.JustStapled? || (pc.Stapling? && pc.next > 0) }

  ghost predicate TicketInv(w: World) {
    && (w.pc.Notarizing? && HasStapled(w.notary.pc) ==> w.root.Some? && CODE_RESOURCES in w.root.value)
    && (w.pc.Ticketed? || w.pc.Manifested? ==> w.root.Some? && CODE_RESOURCES in w.root.value)
    && (w.pc.Manifested? ==> MANIFEST in w.root.value)
    && (forall i :: 0 <= i < |w.published| ==> Complete(w.published[i]))
  }

  lemma StepKeepsTicketInv(w: World, step: Step)
    requires Inv(w) && TicketInv(w) && Enabled(w, step)
    ensures TicketInv(Next(w, step))
  {
    hide N.Inv, StagingInv, Inventory;
  }

  lemma {:induction false} RunKeepsTicketInv(w: World, steps: seq<Step>)
    requires Inv(w) && TicketInv(w) && Runs(w, steps)
    ensures TicketInv(After(w, steps))
    decreases |steps|
  {
    hide Next, Enabled, Inv, TicketInv;
    if steps != [] {
      StepKeepsInv(w, steps[0]);
      StepKeepsTicketInv(w, steps[0]);
      RunKeepsTicketInv(Next(w, steps[0]), steps[1..]);
    }
  }

  lemma EmptyIsTicketed()
    ensures Inv(EMPTY_LOG_DIRECTORY) && TicketInv(EMPTY_LOG_DIRECTORY)
  {
    EmptyInv();
  }

  /** From an empty log directory nothing is published without its stapled ticket and its manifest. */
  lemma PublishedIsComplete(steps: seq<Step>, i: nat)
    requires Runs(EMPTY_LOG_DIRECTORY, steps) && i < |After(EMPTY_LOG_DIRECTORY, steps).published|
    ensures Complete(After(EMPTY_LOG_DIRECTORY, steps).published[i])
  {
    hide Next, Enabled, Inv, Complete, Runs, After;
    EmptyIsTicketed();
    RunKeepsTicketInv(EMPTY_LOG_DIRECTORY, steps);
  }

  // ---- An interrupted staging is built again ----

  lemma RunsCons(w: World, step: Step, rest: seq<Step>)
    requires Enabled(w, step) && Runs(Next(w, step), rest)
    ensures Runs(w, [step] + rest) && After(w, [step] + rest) == After(Next(w, step), rest)
  {
    hide Next, Enabled;
    assert ([step] + rest)[1..] == rest;
  }

  lemma NoSteps(w: World)
    ensures Runs(w, []) && After(w, []) == w
  {
  }

  function Discarding(inputs: Inputs, rest: seq<Step>): seq<Step> {
    [Open(inputs)] + ([DiscardRoot] + ([DiscardArchive] + rest))
  }

  function Building(tree: Tree): seq<Step> { [TruncateState] + ([WriteInputs] + ([Sign(tree)] + Recording())) }

  function Recording(): seq<Step> { [Zip] + ([TruncateForSigned] + ([WriteSigned] + [])) }

  lemma Records(w: World, inputs: Inputs, tree: Tree)
    requires w.pc == Assembling(inputs) && w.root == Some(tree) && w.archive.None?
    ensures Runs(w, Recording())
    ensures After(w, Recording())
            == w.(file := Recorded(inputs, Some(tree)), archive := Some(tree), pc := Finishing(inputs))
  {
    hide Runs, After;
    var w1 := Next(w, Zip);
    var w2 := Next(w1, TruncateForSigned);
    NoSteps(Next(w2, WriteSigned));
    RunsCons(w2, WriteSigned, []);
    RunsCons(w1, TruncateForSigned, [WriteSigned] + []);
    RunsCons(w, Zip, [TruncateForSigned] + ([WriteSigned] + []));
  }

  lemma Builds(w: World, inputs: Inputs, tree: Tree)
    requires w.pc == Cleared(inputs) && w.archive.None?
    ensures Runs(w, Building(tree))
    ensures After(w, Building(tree))
            == w.(file := Recorded(inputs, Some(tree)), root := Some(tree), archive := Some(tree), pc := Finishing(inputs),
                  signings := w.signings + 1)
  {
    hide Runs, After, Recording;
    var w1 := Next(w, TruncateState);
    var w2 := Next(w1, WriteInputs);
    var w3 := Next(w2, Sign(tree));
    Records(w3, inputs, tree);
    RunsCons(w2, Sign(tree), Recording());
    RunsCons(w1, WriteInputs, [Sign(tree)] + Recording());
    RunsCons(w, TruncateState, [WriteInputs] + ([Sign(tree)] + Recording()));
  }

  /** A staging interrupted before its signed files were recorded is discarded by the next call with the same
      inputs, root and archive both, and rebuilt and recorded from scratch. */
  lemma InterruptedStagingIsRebuilt(w: World, inputs: Inputs, tree: Tree)
    requires Inv(w) && w.pc.Idle? && w.file == Recorded(inputs, None) && w.root.Some?
    ensures var steps := Discarding(inputs, Building(tree));
            && Runs(w, steps)
            && var u := After(w, steps);
               && u.file == Recorded(inputs, Some(tree)) && u.root == u.archive == Some(tree) && u.pc == Finishing(inputs)
               && u.signings == w.signings + 1 && u.published == w.published && u.notary == w.notary
  {
    hide Runs, After, Building, N.Inv, Inventory;
    var w1 := Next(w, Open(inputs));
    var w2 := Next(w1, DiscardRoot);
    var w3 := Next(w2, DiscardArchive);
    Builds(w3, inputs, tree);
    RunsCons(w2, DiscardArchive, Building(tree));
    RunsCons(w1, DiscardRoot, [DiscardArchive] + Building(tree));
    RunsCons(w, Open(inputs), [DiscardRoot] + ([DiscardArchive] + Building(tree)));
  }
}
