/** What one caller alone in a quiet workspace comes to: a collection, an ingest, and an ingest that fails. */
module BlobGuardAlone {
  import opened BlobGuard
  import opened Common

  /** A run, one step at a time. */
  lemma RunsCons(w: World, step: Step, rest: seq<Step>)
    requires Enabled(w, step) && Runs(Next(w, step), rest)
    ensures Runs(w, [step] + rest) && After(w, [step] + rest) == After(Next(w, step), rest)
  {
    hide Next, Enabled;
    assert ([step] + rest)[1..] == rest;
  }

  lemma NoSteps(w: World)
    ensures Runs(w, []) && After(w, []) == w
  {
  }

  /** The process is where `pc` says, holds the guard with `clones`, and nothing else is running. */
  ghost predicate Alone(w: World, p: Pid, pc: Pc, clones: set<Jid>, files: set<Key>, references: multiset<Key>) {
    && w.processes == map[p := pc] && w.lock == Held(Some(p), clones)
    && w.files == files && w.references == references
  }

  /** Nobody is in the workspace and the guard is free. */
  predicate AtRest(w: World, files: set<Key>, references: multiset<Key>) {
    w.processes == map[] && w.lock.Free? && w.files == files && w.references == references
  }

  function Entry(p: Pid, kind: Kind, key: Key, rest: seq<Step>): seq<Step> { [Begin(p, kind, key)] + ([Acquire(p)] + rest) }

  lemma Enters(w: World, p: Pid, kind: Kind, key: Key, rest: seq<Step>) returns (u: World)
    requires Quiet(w)
    ensures Alone(u, p, Ready(kind, key), {}, w.files, w.references) && u.jobs == map[]
    ensures Runs(u, rest) <==> Runs(w, Entry(p, kind, key, rest))
    ensures Runs(u, rest) ==> After(w, Entry(p, kind, key, rest)) == After(u, rest)
  {
    var v := Next(w, Begin(p, kind, key));
    u := Next(v, Acquire(p));
    assert Entry(p, kind, key, rest)[1..] == [Acquire(p)] + rest;
    assert ([Acquire(p)] + rest)[1..] == rest;
  }

  function Departure(p: Pid, j: Jid): seq<Step> { [Leave(p)] + ([DropClone(j)] + []) }

  /** Leaving gives the guard back, but for the clones other jobs still hold. */
  lemma Departs(w: World, p: Pid, j: Jid, key: Key, clones: set<Jid>, files: set<Key>, references: multiset<Key>)
    returns (u: World)
    requires Alone(w, p, Finished(key), clones, files, references)
    requires j in w.jobs && (w.jobs[j].Stored? || w.jobs[j].Unlinked?)
    ensures u.processes == map[] && u.lock == (if clones - {j} == {} then Free else Held(None, clones - {j}))
    ensures u.files == files && u.references == references && u.jobs == w.jobs
    ensures Runs(w, Departure(p, j)) && After(w, Departure(p, j)) == u
  {
    hide Runs, After;
    var v := Next(w, Leave(p));
    assert v.processes == map[];
    u := Next(v, DropClone(j));
    NoSteps(u);
    RunsCons(v, DropClone(j), []);
    RunsCons(w, Leave(p), [DropClone(j)] + []);
  }

  /** Unlink a confirmed key and leave. */
  function Removal(p: Pid, j: Jid): seq<Step> {
    [DispatchUnlink(p, j)] + ([RunUnlink(j)] + ([ObserveUnlinked(p)] + Departure(p, j)))
  }

  lemma Removes(w: World, p: Pid, j: Jid, key: Key, clones: set<Jid>, files: set<Key>, references: multiset<Key>)
    returns (u: World)
    requires Alone(w, p, Confirmed(key), clones, files, references) && j !in w.jobs && j !in clones
    ensures u.processes == map[] && u.lock == (if clones == {} then Free else Held(None, clones))
    ensures u.files == files - {key} && u.references == references
    ensures u.jobs == w.jobs[j := Unlinked(key)]
    ensures Runs(w, Removal(p, j)) && After(w, Removal(p, j)) == u
  {
    hide Runs, After, Departure;
    var w1 := Next(w, DispatchUnlink(p, j));
    var w2 := Next(w1, RunUnlink(j));
    var w3 := Next(w2, ObserveUnlinked(p));
    assert w3.processes == map[p := Finished(key)];
    u := Departs(w3, p, j, key, clones + {j}, files - {key}, references);
    assert clones + {j} - {j} == clones;
    RunsCons(w2, ObserveUnlinked(p), Departure(p, j));
    RunsCons(w1, RunUnlink(j), [ObserveUnlinked(p)] + Departure(p, j));
    RunsCons(w, DispatchUnlink(p, j), [RunUnlink(j)] + ([ObserveUnlinked(p)] + Departure(p, j)));
  }

  function Collection(p: Pid, j: Jid, key: Key): seq<Step> {
    Entry(p, Collect, key, [Revalidate(p)] + Removal(p, j))
  }

  /** A collector alone in the workspace removes the file exactly when nothing references it. */
  lemma CollectorAloneCollects(w: World, p: Pid, j: Jid, key: Key)
    requires Quiet(w)
    ensures Runs(w, Collection(p, j, key)) <==> key !in w.references
    ensures Runs(w, Collection(p, j, key)) ==> AtRest(After(w, Collection(p, j, key)), w.files - {key}, w.references)
  {
    hide Removal;
    var rest := [Revalidate(p)] + Removal(p, j);
    var w2 := Enters(w, p, Collect, key, rest);
    var w3 := Next(w2, Revalidate(p));
    assert rest[1..] == Removal(p, j);
    if key !in w.references {
      assert w3.processes == map[p := Confirmed(key)];
      var u := Removes(w3, p, j, key, {}, w.files, w.references);
      RunsCons(w2, Revalidate(p), Removal(p, j));
    } else {
      NotConfirmed(w3, p, j);
    }
  }

  lemma NotConfirmed(w: World, p: Pid, j: Jid)
    requires p in w.processes && !w.processes[p].Confirmed?
    ensures !Runs(w, Removal(p, j))
  {
  }

  /** Publish a key: the file is renamed in place unless it is already there. */
  function Publication(p: Pid, j: Jid, guarded: bool, present: bool, rest: seq<Step>): seq<Step> {
    [DispatchPublish(p, j, guarded)]
    + ([Inspect(j)] + (if present then [ObserveStored(p)] + rest else [Rename(j)] + ([ObserveStored(p)] + rest)))
  }

  lemma Publishes(w: World, p: Pid, j: Jid, key: Key, guarded: bool, rest: seq<Step>) returns (u: World)
    requires Alone(w, p, Ready(Ingest, key), {}, w.files, w.references) && w.jobs == map[]
    ensures Alone(u, p, Published(key, key in w.files), if guarded then {j} else {}, w.files + {key}, w.references)
    ensures u.jobs.Keys == {j} && u.jobs[j].Stored?
    ensures Runs(u, rest) ==>
              && Runs(w, Publication(p, j, guarded, key in w.files, rest))
              && After(w, Publication(p, j, guarded, key in w.files, rest)) == After(u, rest)
  {
    hide Runs, After;
    var w1 := Next(w, DispatchPublish(p, j, guarded));
    var w2 := Next(w1, Inspect(j));
    var w3 := if key in w.files then w2 else Next(w2, Rename(j));
    assert w3.files == w.files + {key};
    u := Next(w3, ObserveStored(p));
    assert u.processes == map[p := Published(key, key in w.files)];
    if Runs(u, rest) {
      RunsCons(w3, ObserveStored(p), rest);
      if key !in w.files {
        RunsCons(w2, Rename(j), [ObserveStored(p)] + rest);
      }
      var tail := if key in w.files then [ObserveStored(p)] + rest else [Rename(j)] + ([ObserveStored(p)] + rest);
      RunsCons(w1, Inspect(j), tail);
      RunsCons(w, DispatchPublish(p, j, guarded), [Inspect(j)] + tail);
    }
  }

  function Ingestion(p: Pid, j: Jid, key: Key, guarded: bool, present: bool): seq<Step> {
    Entry(p, Ingest, key, Publication(p, j, guarded, present, [Register(p)] + Departure(p, j)))
  }

  /** An ingest alone in the workspace leaves the file there with one more reference, and the guard free. */
  lemma IngestAloneRegisters(w: World, p: Pid, j: Jid, key: Key, guarded: bool)
    requires Quiet(w)
    ensures var steps := Ingestion(p, j, key, guarded, key in w.files);
            Runs(w, steps) && AtRest(After(w, steps), w.files + {key}, w.references + multiset{key})
  {
    hide Publication, Entry, Departure, Runs, After;
    var rest := [Register(p)] + Departure(p, j);
    var w2 := Enters(w, p, Ingest, key, Publication(p, j, guarded, key in w.files, rest));
    var w3 := Publishes(w2, p, j, key, guarded, rest);
    var w4 := Next(w3, Register(p));
    assert w4.processes == map[p := Finished(key)];
    var u := Departs(w4, p, j, key, if guarded then {j} else {}, w.files + {key}, w.references + multiset{key});
    RunsCons(w3, Register(p), Departure(p, j));
  }

  /** The cleanup of an ingest whose registration failed: its own new file goes, a file it found stays. */
  function FailedIngestion(p: Pid, j: Jid, unlink: Jid, key: Key, guarded: bool, present: bool): seq<Step> {
    Entry(p, Ingest, key, Publication(p, j, guarded, present, Cleanup(p, j, unlink, present)))
  }

  function Cleanup(p: Pid, j: Jid, unlink: Jid, present: bool): seq<Step> {
    [FailRegistration(p)]
    + ([CheckFailed(p)]
       + if present then Departure(p, j) else [DropClone(j)] + Removal(p, unlink))
  }

  lemma CleansUp(w: World, p: Pid, j: Jid, unlink: Jid, key: Key, guarded: bool, present: bool, files: set<Key>)
    requires Alone(w, p, Published(key, present), if guarded then {j} else {}, files + {key}, w.references)
    requires w.jobs.Keys == {j} && w.jobs[j].Stored? && unlink != j
    requires present <==> key in files
    requires !present ==> key !in w.references
    ensures Runs(w, Cleanup(p, j, unlink, present)) && AtRest(After(w, Cleanup(p, j, unlink, present)), files, w.references)
  {
    hide Removal, Departure, Runs, After;
    var w1 := Next(w, FailRegistration(p));
    var w2 := Next(w1, CheckFailed(p));
    assert {j} - {j} == {};
    if present {
      assert w2.processes == map[p := Finished(key)];
      var u := Departs(w2, p, j, key, if guarded then {j} else {}, files + {key}, w.references);
      assert files + {key} == files;
      RunsCons(w1, CheckFailed(p), Departure(p, j));
      RunsCons(w, FailRegistration(p), [CheckFailed(p)] + Departure(p, j));
    } else {
      assert w2.processes == map[p := Confirmed(key)];
      var w3 := Next(w2, DropClone(j));
      var u := Removes(w3, p, unlink, key, {}, files + {key}, w.references);
      assert files + {key} - {key} == files;
      RunsCons(w2, DropClone(j), Removal(p, unlink));
      RunsCons(w1, CheckFailed(p), [DropClone(j)] + Removal(p, unlink));
      RunsCons(w, FailRegistration(p), [CheckFailed(p)] + ([DropClone(j)] + Removal(p, unlink)));
    }
  }

  /** An ingest whose registration fails leaves the workspace exactly as it found it. */
  lemma FailedIngestLeavesNoTrace(w: World, p: Pid, j: Jid, unlink: Jid, key: Key, guarded: bool)
    requires Quiet(w) && unlink != j
    ensures var steps := FailedIngestion(p, j, unlink, key, guarded, key in w.files);
            Runs(w, steps) && AtRest(After(w, steps), w.files, w.references)
  {
    hide Publication, Entry, Cleanup;
    var present := key in w.files;
    var w2 := Enters(w, p, Ingest, key, Publication(p, j, guarded, present, Cleanup(p, j, unlink, present)));
    var w3 := Publishes(w2, p, j, key, guarded, Cleanup(p, j, unlink, present));
    CleansUp(w3, p, j, unlink, key, guarded, present, w.files);
  }
}
