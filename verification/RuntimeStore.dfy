// The run tables as the object the code updates in place
// (intelliguard/persistence/store.py:948-1109, 2527-2556, 2700-2708).
module RuntimeStore {
  import opened Outcomes
  import opened RunLog
  import opened RunTables

  class GovernanceStore {
    var runs: map<nat, RunRow>
    var created: seq<nat>        // run ids in the order of created_at
    var reviews: map<nat, ReviewRow>
    var outbox: map<nat, seq<Event>>
    var supply: nat              // ids at or above it are unused

    const indexed: bool          // whether the unique index on (deployment, key) exists

    // Every run was created once, and what is stored belongs to a run.
    ghost predicate Valid()
      reads this
    {
      && (forall r :: r in created <==> r in runs)
      && (forall i, j :: 0 <= i < j < |created| ==> created[i] != created[j])
      && (forall r :: r in runs ==> r < supply)
      && (forall id :: id in reviews ==> id < supply)
      && (forall r :: r in outbox ==> r in runs)
    }

    function Tables(): Db
      reads this
    {
      Db(runs, reviews, outbox)
    }

    constructor (indexed: bool)
      ensures Valid() && Tables() == Db(map[], map[], map[]) && this.indexed == indexed
    {
      runs, created, reviews, outbox, supply := map[], [], map[], map[], 0;
      this.indexed := indexed;
    }

    // r is the oldest queued run.
    ghost predicate OldestQueued(r: nat)
      reads this
    {
      exists i :: 0 <= i < |created| && created[i] == r && r in runs && runs[r].status == QUEUED
                  && forall j :: 0 <= j < i ==> created[j] in runs && runs[created[j]].status != QUEUED
    }

    // The select of the claim: queued rows by created_at, the first of them.
    method FirstQueued() returns (found: Option<nat>)
      requires Valid()
      ensures found.Some? ==> OldestQueued(found.value)
      ensures found.None? ==> forall r :: r in runs ==> runs[r].status != QUEUED
    {
      var i := 0;
      while i < |created|
        invariant 0 <= i <= |created|
        invariant forall j :: 0 <= j < i ==> created[j] in runs && runs[created[j]].status != QUEUED
      {
        if runs[created[i]].status == QUEUED {
          return Some(created[i]);
        }
        i := i + 1;
      }
      forall r | r in runs
        ensures runs[r].status != QUEUED
      {
        assert r in created;
      }
      found := None;
    }

    method ClaimNextQueued() returns (claimed: Option<nat>)
      requires Valid()
      modifies this
      ensures Valid() && supply == old(supply) && created == old(created)
      ensures claimed.None? ==> Tables() == old(Tables()) && forall r :: r in runs ==> runs[r].status != QUEUED
      ensures claimed.Some? ==> old(OldestQueued(claimed.value)) && Tables() == ClaimRun(old(Tables()), claimed.value)
    {
      claimed := FirstQueued();
      if claimed.Some? {
        var r := claimed.value;
        runs := runs[r := runs[r].(status := RUNNING)];
        runs := runs[r := runs[r].(started := true)];
      }
    }

    // The status branch of update_workflow_runtime_run; false is its ValueError.
    method UpdateStatus(r: nat, status: RunStatus) returns (found: bool)
      requires Valid()
      modifies this
      ensures Valid() && supply == old(supply) && created == old(created)
      ensures found <==> r in old(runs)
      ensures Tables() == if found then SetStatus(old(Tables()), r, status) else old(Tables())
    {
      if r !in runs {
        return false;
      }
      runs := runs[r := runs[r].(status := status)];
      if status == RUNNING && !runs[r].started {
        runs := runs[r := runs[r].(started := true)];
      }
      if status in {COMPLETED, FAILED, BLOCKED, REVIEW, CANCELLED} && !runs[r].completed {
        runs := runs[r := runs[r].(completed := true)];
      }
      found := true;
    }

    // The update of an approval: status, input payload and completed_at.
    method Requeue(r: nat, approved: seq<string>) returns (found: bool)
      requires Valid()
      modifies this
      ensures Valid() && supply == old(supply) && created == old(created)
      ensures found <==> r in old(runs)
      ensures Tables() == if found then RequeueRun(old(Tables()), r, approved) else old(Tables())
    {
      hide Terminal;
      found := UpdateStatus(r, QUEUED);
      if found {
        runs := runs[r := runs[r].(approved := approved)];
        runs := runs[r := runs[r].(completed := false)];
      }
    }

    method AddOutboxEvent(r: nat, e: Event) returns (found: bool)
      requires Valid()
      modifies this
      ensures Valid() && supply == old(supply) && created == old(created)
      ensures found <==> r in old(runs)
      ensures Tables() == if found then AppendEvent(old(Tables()), r, e) else old(Tables())
    {
      if r !in runs {
        return false;
      }
      outbox := outbox[r := (if r in outbox then outbox[r] else []) + [e]];
      found := true;
    }

    method AddReviewItem(r: nat, hook: string) returns (id: nat)
      requires Valid()
      modifies this
      ensures Valid() && created == old(created)
      ensures id == old(supply) && id !in old(reviews)
      ensures Tables() == AddReview(old(Tables()), id, r, hook)
    {
      id := supply;
      supply := supply + 1;
      reviews := reviews[id := ReviewRow(r, hook, Waiting)];
    }

    // Whatever the status of the item is.
    method ResolveReviewItem(id: nat, state: ReviewState) returns (found: bool)
      requires Valid()
      modifies this
      ensures Valid() && supply == old(supply) && created == old(created)
      ensures found <==> id in old(reviews)
      ensures Tables() == if found then ResolveReview(old(Tables()), id, state) else old(Tables())
    {
      found := id in reviews;
      if found {
        reviews := reviews[id := reviews[id].(state := state)];
      }
    }

    predicate HasKey(r: nat, deployment: string, key: Option<string>)
      reads this
    {
      r in runs && runs[r].deployment == deployment && runs[r].key == key
    }

    // The newest run of a deployment and key.
    method FindByKey(deployment: string, key: string) returns (found: Option<nat>)
      requires Valid()
      ensures found.None? <==> !KeyTaken(Tables(), deployment, Some(key))
      ensures found.Some? ==>
                exists i :: 0 <= i < |created| && created[i] == found.value && HasKey(found.value, deployment, Some(key))
                            && forall j :: i < j < |created| ==> !HasKey(created[j], deployment, Some(key))
    {
      var i := |created|;
      while i > 0
        invariant 0 <= i <= |created|
        invariant forall j :: i <= j < |created| ==> !HasKey(created[j], deployment, Some(key))
      {
        i := i - 1;
        var row := runs[created[i]];
        if row.deployment == deployment && row.key == Some(key) {
          return Some(created[i]);
        }
      }
      assert forall r :: r in runs ==> r in created;
      found := None;
    }

    // create_workflow_runtime_run: a run that has the key already is returned; with the
    // index a second row of one key (the empty one passes the lookup) is an error.
    method CreateRuntimeRun(deployment: string, key: Option<string>, query: string) returns (run: Option<nat>)
      requires Valid()
      modifies this
      ensures Valid()
      ensures var db := old(Tables());
              if key.Some? && key.value != "" && KeyTaken(db, deployment, key) then
                run.Some? && old(HasKey(run.value, deployment, key)) && Tables() == db
              else if indexed && key.Some? && KeyTaken(db, deployment, key) then
                run.None? && Tables() == db
              else
                run == Some(old(supply)) && run.value !in db.runs && run.value !in db.outbox
                && Tables() == CreateRun(db, run.value, deployment, key, query)
                && created == old(created) + [run.value]
    {
      if key.Some? && key.value != "" {
        run := FindByKey(deployment, key.value);
        if run.Some? {
          return;
        }
      }
      if indexed && key.Some? {
        var clash := FindByKey(deployment, key.value);
        if clash.Some? {
          return None;
        }
      }
      var r := supply;
      assert forall i :: 0 <= i < |created| ==> created[i] in runs;
      supply := supply + 1;
      runs := runs[r := RunRow(deployment, key, query, QUEUED, [], false, false)];
      created := created + [r];
      run := Some(r);
    }
  }
}
