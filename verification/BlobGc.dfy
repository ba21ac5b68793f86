/** One collection pass over a plan that may be stale by the time it runs. */
module BlobGc {
  import opened Common

  datatype Candidate = Candidate(blobId: string, key: string)

  /** Files present, owners of each key, and the key each blob row names. */
  datatype Workspace = Workspace(files: set<string>, owners: multiset<string>, rows: map<string, string>)

  function CollectOne(w: Workspace, c: Candidate): Workspace {
    if c.key in w.owners then w else w.(files := w.files - {c.key}, rows := w.rows - {c.blobId})
  }

  function Collect(w: Workspace, plan: seq<Candidate>): Workspace {
    if plan == [] then w else CollectOne(Collect(w, plan[..|plan| - 1]), plan[|plan| - 1])
  }

  class Collector {
    var files: set<string>
    var owners: multiset<string>
    var rows: map<string, string>

    constructor (w: Workspace)
      ensures View() == w
    {
      files := w.files;
      owners := w.owners;
      rows := w.rows;
    }

    function View(): Workspace
      reads this
    {
      Workspace(files, owners, rows)
    }

    /** Each candidate is checked again before its file is unlinked and its row deleted. */
    method ExecuteGc(plan: seq<Candidate>) returns (deletedBlobs: nat)
      modifies this
      ensures View() == Collect(old(View()), plan)
      ensures deletedBlobs == |old(rows)| - |rows|
    {
      deletedBlobs := 0;
      var i := 0;
      assert plan[..0] == [];
      while i < |plan|
        invariant i <= |plan|
        invariant View() == Collect(old(View()), plan[..i])
        invariant deletedBlobs == |old(rows)| - |rows|
      {
        assert plan[..i + 1][..i] == plan[..i];
        var blob := plan[i];
        i := i + 1;
        if blob.key in owners {
          continue;
        }
        files := files - {blob.key};
        if blob.blobId in rows {
          ghost var kept := rows - {blob.blobId};
          assert rows.Keys == kept.Keys + {blob.blobId};
          assert |rows| == |rows.Keys| && |kept| == |kept.Keys|;
          deletedBlobs := deletedBlobs + 1;
        }
        rows := rows - {blob.blobId};
      }
      assert plan[..|plan|] == plan;
    }
  }

  predicate Planned(plan: seq<Candidate>, key: string) { exists i :: 0 <= i < |plan| && plan[i].key == key }

  ghost predicate PlannedRow(plan: seq<Candidate>, owners: multiset<string>, blobId: string) {
    exists i :: 0 <= i < |plan| && plan[i].blobId == blobId && plan[i].key !in owners
  }

  /** A pass removes exactly the planned keys nobody owns, and exactly their rows. */
  lemma {:induction false} CollectsExactlyTheUnowned(w: Workspace, plan: seq<Candidate>)
    ensures Collect(w, plan).owners == w.owners
    ensures forall key :: key in Collect(w, plan).files <==> key in w.files && !(Planned(plan, key) && key !in w.owners)
    ensures forall id :: id in Collect(w, plan).rows <==> id in w.rows && !PlannedRow(plan, w.owners, id)
    ensures forall id :: id in Collect(w, plan).rows ==> Collect(w, plan).rows[id] == w.rows[id]
  {
    if plan != [] {
      var init, last := plan[..|plan| - 1], plan[|plan| - 1];
      CollectsExactlyTheUnowned(w, init);
      forall key
        ensures Planned(plan, key) <==> Planned(init, key) || key == last.key
      {
        PlannedSplit(plan, key);
      }
      forall id
        ensures PlannedRow(plan, w.owners, id) <==>
                PlannedRow(init, w.owners, id) || (last.blobId == id && last.key !in w.owners)
      {
        PlannedRowSplit(plan, w.owners, id);
      }
    }
  }

  lemma PlannedSplit(plan: seq<Candidate>, key: string)
    requires plan != []
    ensures Planned(plan, key) <==> Planned(plan[..|plan| - 1], key) || key == plan[|plan| - 1].key
  {
    var init := plan[..|plan| - 1];
    if i :| 0 <= i < |init| && init[i].key == key {
      assert plan[i].key == key;
    }
    if i :| 0 <= i < |init| && plan[i].key == key {
      assert init[i].key == key;
    }
  }

  lemma PlannedRowSplit(plan: seq<Candidate>, owners: multiset<string>, id: string)
    requires plan != []
    ensures PlannedRow(plan, owners, id) <==>
            || PlannedRow(plan[..|plan| - 1], owners, id)
            || (plan[|plan| - 1].blobId == id && plan[|plan| - 1].key !in owners)
  {
    var init := plan[..|plan| - 1];
    if i :| 0 <= i < |init| && init[i].blobId == id && init[i].key !in owners {
      assert plan[i].blobId == id && plan[i].key !in owners;
    }
    if i :| 0 <= i < |init| && plan[i].blobId == id && plan[i].key !in owners {
      assert init[i].blobId == id && init[i].key !in owners;
    }
  }

  /** However stale the plan, a pass leaves every owned key its file, and a second pass finds nothing to do. */
  lemma PassIsSafeAndIdempotent(w: Workspace, plan: seq<Candidate>)
    requires forall key :: key in w.owners ==> key in w.files
    ensures forall key :: key in w.owners ==> key in Collect(w, plan).files
    ensures Collect(Collect(w, plan), plan) == Collect(w, plan)
  {
    var once := Collect(w, plan);
    var twice := Collect(once, plan);
    CollectsExactlyTheUnowned(w, plan);
    CollectsExactlyTheUnowned(once, plan);
    assert twice.files == once.files;
    assert twice.rows == once.rows;
  }
}
