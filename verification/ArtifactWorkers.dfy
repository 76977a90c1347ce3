/** The finalizer in place: the attempt, and the cleanup after a failure. */
module ArtifactWorkers {
  import opened Options
  import opened ArtifactPages
  import opened ArtifactFinalizer

  lemma RemoveMore<K, V>(m: map<K, V>, gone: set<K>, more: set<K>, stuck: set<K>)
    ensures m - (gone - stuck) - (more - stuck) == m - (gone + more - stuck)
  {
  }

  lemma WithoutMore(world: World, keys: set<string>, ids: set<nat>, moreKeys: set<string>, moreIds: set<nat>,
                    stuck: Stubborn)
    ensures Without(Without(world, keys, ids, stuck), moreKeys, moreIds, stuck)
            == Without(world, keys + moreKeys, ids + moreIds, stuck)
  {
    RemoveMore(world.storage, keys, moreKeys, stuck.keys);
    RemoveMore(world.files, ids, moreIds, stuck.files);
  }

  lemma WithoutNothing(world: World, stuck: Stubborn)
    ensures Without(world, {}, {}, stuck) == world
  {
    assert {} - stuck.files == {};
    assert world.storage - ({} - stuck.keys) == world.storage;
    assert world.files - ({} - stuck.files) == world.files;
  }

  lemma OneArtifactLess(left: map<nat, string>, id: nat)
    requires id in left
    ensures left.Keys == {id} + (left - {id}).Keys && left.Values == {left[id]} + (left - {id}).Values
  {
    var rest := left - {id};
    forall key | key in left.Values ensures key == left[id] || key in rest.Values {
      var i :| i in left && left[i] == key;
      assert i != id ==> i in rest && rest[i] == key;
    }
    forall key | key in rest.Values ensures key in left.Values {
      var i :| i in rest && rest[i] == key;
      assert left[i] == key;
    }
  }

  /** Deleting one artifact first and the others after it. */
  lemma DeleteOneFirst(world: World, left: map<nat, string>, id: nat, stuck: Stubborn)
    requires id in left
    ensures var rest := left - {id};
            Without(Without(world, {left[id]}, {id}, stuck), rest.Values, rest.Keys, stuck)
                == Without(world, left.Values, left.Keys, stuck)
  {
    OneArtifactLess(left, id);
    WithoutMore(world, {left[id]}, {id}, (left - {id}).Values, (left - {id}).Keys, stuck);
  }

  class ArtifactWorker {
    var world: World
    var unrecorded: set<string>
    var created: map<nat, string>
    var triedKeys: set<string>
    var triedFiles: set<nat>

    ghost function View(): Work
      reads this
    {
      Work(world, unrecorded, created)
    }

    constructor (world: World)
      ensures this.world == world && triedKeys == {} && triedFiles == {}
    {
      this.world := world;
      unrecorded, created, triedKeys, triedFiles := {}, map[], {}, {};
    }

    method MakeArtifact(items: seq<Item>, output: bool, fate: Fate) returns (failure: Option<Failure>)
      modifies this`world, this`unrecorded, this`created
      ensures var ends := WritingEnds(items, output, fate.failsAfter);
              (View(), failure) == ArtifactMade(old(View()), RowsFor(items, output), ends, fate)
    {
      var rows: seq<Row>;
      rows, failure := WriteRows(items, output, fate.failsAfter);
      if failure.Some? {
        return;
      }
      var key := if rows == [] then "" else fate.key;
      if key != "" {
        world := world.(storage := world.storage[key := rows]);
        unrecorded := unrecorded + {key};
      }
      if fate.noRecord || fate.db == RaisesBeforeCommit {
        return Some(Trouble);
      }
      world := world.(files := world.files[fate.fileId := key]);
      if fate.db == RaisesAfterCommit {
        return Some(Trouble);
      }
      unrecorded := unrecorded - {key};
      created := created[fate.fileId := key];
      return None;
    }

    method DeleteObject(key: string, stuck: Stubborn)
      modifies this`world, this`triedKeys
      ensures world == Without(old(world), {key}, {}, stuck)
      ensures triedKeys == old(triedKeys) + {key}
    {
      triedKeys := triedKeys + {key};
      WithoutNothing(world, stuck);
      if key !in stuck.keys {
        world := world.(storage := world.storage - {key});
      }
      assert {key} - stuck.keys == if key in stuck.keys then {} else {key};
      assert {} - stuck.files == {};
    }

    method DeleteRecord(id: nat, stuck: Stubborn)
      modifies this`world, this`triedFiles
      ensures world == Without(old(world), {}, {id}, stuck)
      ensures triedFiles == old(triedFiles) + {id}
    {
      triedFiles := triedFiles + {id};
      WithoutNothing(world, stuck);
      if id !in stuck.files {
        var job := world.job;
        if job.output == Some(id) {
          job := job.(output := None);
        }
        if job.error == Some(id) {
          job := job.(error := None);
        }
        world := world.(files := world.files - {id}, job := job);
      }
      assert {id} - stuck.files == if id in stuck.files then {} else {id};
      assert {} - stuck.keys == {};
    }

    /** Deletes one of the unrecorded objects left. */
    method DeleteNextObject(left: set<string>, stuck: Stubborn) returns (rest: set<string>)
      requires left != {}
      modifies this`world, this`triedKeys
      ensures Without(world, rest, {}, stuck) == Without(old(world), left, {}, stuck)
      ensures triedKeys + rest == old(triedKeys) + left && rest < left
    {
      var key :| key in left;
      rest := left - {key};
      WithoutMore(world, {key}, {}, rest, {}, stuck);
      assert {key} + rest == left;
      DeleteObject(key, stuck);
    }

    /** The deletions of written but unrecorded objects, in any order. */
    method CleanUpUnrecorded(stuck: Stubborn)
      modifies this`world, this`triedKeys
      ensures world == Without(old(world), unrecorded, {}, stuck)
      ensures triedKeys == old(triedKeys) + unrecorded
    {
      var left := unrecorded;
      while left != {}
        invariant Without(world, left, {}, stuck) == Without(old(world), unrecorded, {}, stuck)
        invariant triedKeys + left == old(triedKeys) + unrecorded
        decreases left
      {
        left := DeleteNextObject(left, stuck);
      }
      WithoutNothing(world, stuck);
    }

    /** The object, then the record. */
    method DeleteArtifact(id: nat, key: string, stuck: Stubborn)
      modifies this`world, this`triedKeys, this`triedFiles
      ensures world == Without(old(world), {key}, {id}, stuck)
      ensures triedKeys == old(triedKeys) + {key} && triedFiles == old(triedFiles) + {id}
    {
      DeleteObject(key, stuck);
      DeleteRecord(id, stuck);
      WithoutMore(old(world), {key}, {}, {}, {id}, stuck);
      assert {key} + {} == {key} && {} + {id} == {id};
    }

    /** Deletes one of the artifacts left. */
    method DeleteNext(left: map<nat, string>, stuck: Stubborn) returns (rest: map<nat, string>)
      requires left != map[]
      modifies this`world, this`triedKeys, this`triedFiles
      ensures Without(world, rest.Values, rest.Keys, stuck) == Without(old(world), left.Values, left.Keys, stuck)
      ensures triedKeys + rest.Values == old(triedKeys) + left.Values
      ensures triedFiles + rest.Keys == old(triedFiles) + left.Keys
      ensures rest.Keys < left.Keys
    {
      var id :| id in left;
      DeleteOneFirst(world, left, id, stuck);
      OneArtifactLess(left, id);
      DeleteArtifact(id, left[id], stuck);
      rest := left - {id};
    }

    /** The deletions of recorded artifacts, in any order. */
    method CleanUpUnattached(stuck: Stubborn)
      modifies this`world, this`triedKeys, this`triedFiles
      ensures world == Without(old(world), created.Values, created.Keys, stuck)
      ensures triedKeys == old(triedKeys) + created.Values && triedFiles == old(triedFiles) + created.Keys
    {
      var left := created;
      while left != map[]
        invariant Without(world, left.Values, left.Keys, stuck)
                  == Without(old(world), created.Values, created.Keys, stuck)
        invariant triedKeys + left.Values == old(triedKeys) + created.Values
        invariant triedFiles + left.Keys == old(triedFiles) + created.Keys
        decreases left.Keys
      {
        left := DeleteNext(left, stuck);
      }
      assert left.Values == {} && left.Keys == {};
      WithoutNothing(world, stuck);
    }

    method TryToFinalize(items: seq<Item>, job: Job, f: Fates) returns (failure: Option<Failure>)
      requires unrecorded == {} && created == map[]
      modifies this`world, this`unrecorded, this`created
      ensures (View(), failure) == Attempt(old(world), items, job, f)
    {
      var output: Option<nat>, error: Option<nat> := None, None;
      var status := FinalStatus(job);
      if job.completed > 0 {
        failure := MakeArtifact(items, true, f.output);
        if failure.Some? {
          return;
        }
        output := Some(f.output.fileId);
      }
      if job.failed > 0 || job.cancelled > 0 {
        failure := MakeArtifact(items, false, f.error);
        if failure.Some? {
          return;
        }
        error := Some(f.error.fileId);
      }
      if f.attach == RaisesBeforeCommit || !Leased(world.job, f.worker) {
        return Some(Trouble);
      }
      world := world.(job := Attached(world.job, output, error, status));
      return if f.attach == RaisesAfterCommit then Some(Trouble) else None;
    }

    /** A failure is raised again after the cleanup, which tries to delete everything the attempt knows of. */
    method FinalizeArtifacts(items: seq<Item>, job: Job, f: Fates, stuck: Stubborn) returns (failure: Option<Failure>)
      modifies this
      ensures (world, failure) == Finalize(old(world), items, job, f, stuck)
      ensures failure.Some? ==>
                && triedKeys == old(triedKeys) + KeysToDelete(Attempt(old(world), items, job, f).0)
                && triedFiles == old(triedFiles) + Attempt(old(world), items, job, f).0.created.Keys
      ensures failure == None ==> triedKeys == old(triedKeys) && triedFiles == old(triedFiles)
    {
      unrecorded, created := {}, map[];
      failure := TryToFinalize(items, job, f);
      if failure.Some? {
        ghost var w := View();
        CleanUpUnrecorded(stuck);
        CleanUpUnattached(stuck);
        WithoutMore(w.world, unrecorded, {}, created.Values, created.Keys, stuck);
        assert {} + created.Keys == created.Keys;
      }
    }
  }
}
