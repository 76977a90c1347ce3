/** Writing a batch's artifacts, attaching them, and cleaning up when that fails. */
module ArtifactFinalizer {
  import opened Options
  import opened ArtifactPages

  datatype JobStatus = Finalizing | JobCompleted | JobFailed | JobCancelled

  /** The counters were taken when the job became ready for finalization. */
  datatype Job = Job(
    completed: nat,
    failed: nat,
    cancelled: nat,
    cancelRequested: bool,
    operatorFailed: bool,
    status: JobStatus,
    lockedBy: Option<nat>,
    output: Option<nat>,
    error: Option<nat>)

  datatype World = World(storage: map<string, seq<Row>>, files: map<nat, string>, job: Job)

  // ----- one artifact

  /** What the environment does to one artifact: the key and the identifier generated for it, and what fails when. */
  datatype Fate = Fate(key: string, failsAfter: Option<nat>, fileId: nat, noRecord: bool, db: DbOutcome)

  /** The attempt's state: what was written but not recorded, and what was recorded. */
  datatype Work = Work(world: World, unrecorded: set<string>, created: map<nat, string>)

  /** The writer stores no object, and answers with the empty key, when there are no rows. */
  function KeyFor(rows: seq<Row>, fate: Fate): string {
    if rows == [] then "" else fate.key
  }

  function StoreArtifact(w: Work, rows: seq<Row>, key: string): Work {
    if key == "" then w
    else
      w.(world := w.world.(storage := w.world.storage[key := rows]), unrecorded := w.unrecorded + {key})
  }

  function RecordArtifact(w: Work, fate: Fate, key: string): Work {
    if fate.noRecord || fate.db == RaisesBeforeCommit then w
    else if fate.db == RaisesAfterCommit then w.(world := w.world.(files := w.world.files[fate.fileId := key]))
    else
      w.(world := w.world.(files := w.world.files[fate.fileId := key]),
         unrecorded := w.unrecorded - {key},
         created := w.created[fate.fileId := key])
  }

  /** `ends` is how the writing ended. */
  function ArtifactMade(w: Work, rows: seq<Row>, ends: Option<Failure>, fate: Fate): (Work, Option<Failure>) {
    if ends.Some? then (w, ends)
    else
      (RecordArtifact(StoreArtifact(w, rows, KeyFor(rows, fate)), fate, KeyFor(rows, fate)),
       if fate.noRecord || fate.db != Commits then Some(Trouble) else None)
  }

  // ----- the whole attempt

  function FinalStatus(job: Job): JobStatus {
    if job.cancelRequested then JobCancelled
    else if job.operatorFailed then JobFailed
    else if job.completed == 0 && job.failed > 0 then JobFailed
    else JobCompleted
  }

  predicate Leased(job: Job, worker: nat) {
    job.lockedBy == Some(worker) && job.status == Finalizing
  }

  function Attached(job: Job, output: Option<nat>, error: Option<nat>, status: JobStatus): Job {
    job.(output := output, error := error, status := status, lockedBy := None)
  }

  datatype Fates = Fates(output: Fate, error: Fate, worker: nat, attach: DbOutcome)

  predicate WantsOutput(job: Job) {
    job.completed > 0
  }

  predicate WantsError(job: Job) {
    job.failed > 0 || job.cancelled > 0
  }

  function OutputEnds(items: seq<Item>, f: Fates): Option<Failure> {
    WritingEnds(items, true, f.output.failsAfter)
  }

  function ErrorEnds(items: seq<Item>, f: Fates): Option<Failure> {
    WritingEnds(items, false, f.error.failsAfter)
  }

  function MakeOutput(w: Work, items: seq<Item>, job: Job, f: Fates): (Work, Option<Failure>) {
    if WantsOutput(job) then ArtifactMade(w, OutputRows(items), OutputEnds(items, f), f.output) else (w, None)
  }

  function MakeError(w: Work, items: seq<Item>, job: Job, f: Fates): (Work, Option<Failure>) {
    if WantsError(job) then ArtifactMade(w, ErrorRows(items), ErrorEnds(items, f), f.error) else (w, None)
  }

  function OutputId(job: Job, f: Fates): Option<nat> {
    if WantsOutput(job) then Some(f.output.fileId) else None
  }

  function ErrorId(job: Job, f: Fates): Option<nat> {
    if WantsError(job) then Some(f.error.fileId) else None
  }

  function Attach(w: Work, job: Job, f: Fates): (Work, Option<Failure>) {
    if f.attach == RaisesBeforeCommit then (w, Some(Trouble))
    else if !Leased(w.world.job, f.worker) then (w, Some(Trouble))
    else
      (w.(world := w.world.(job := Attached(w.world.job, OutputId(job, f), ErrorId(job, f), FinalStatus(job)))),
       if f.attach == RaisesAfterCommit then Some(Trouble) else None)
  }

  function MakeAll(w: Work, items: seq<Item>, job: Job, f: Fates): (Work, Option<Failure>) {
    var (w1, e1) := MakeOutput(w, items, job, f);
    if e1.Some? then (w1, e1) else MakeError(w1, items, job, f)
  }

  function Attempt(world: World, items: seq<Item>, job: Job, f: Fates): (Work, Option<Failure>) {
    var (w, e) := MakeAll(Work(world, {}, map[]), items, job, f);
    if e.Some? then (w, e) else Attach(w, job, f)
  }

  /** Which deletions fail; failures of the cleanup are swallowed. */
  datatype Stubborn = Stubborn(keys: set<string>, files: set<nat>)

  function KeysToDelete(w: Work): set<string> {
    w.unrecorded + w.created.Values
  }

  /** Deleting a file record clears the references to it: the foreign keys are set to null. */
  function Unlinked(file: Option<nat>, gone: set<nat>): Option<nat> {
    if file.Some? && file.value in gone then None else file
  }

  /** The world after trying to delete these objects and records. */
  function Without(world: World, keys: set<string>, ids: set<nat>, stuck: Stubborn): World {
    var gone := ids - stuck.files;
    World(world.storage - (keys - stuck.keys),
          world.files - gone,
          world.job.(output := Unlinked(world.job.output, gone), error := Unlinked(world.job.error, gone)))
  }

  function CleanUp(w: Work, stuck: Stubborn): World {
    Without(w.world, KeysToDelete(w), w.created.Keys, stuck)
  }

  function Finalize(world: World, items: seq<Item>, job: Job, f: Fates, stuck: Stubborn): (World, Option<Failure>) {
    var (w, failure) := Attempt(world, items, job, f);
    (if failure.Some? then CleanUp(w, stuck) else w.world, failure)
  }

  // ----- what an attempt leaves

  /** Generated keys and identifiers are new and different; a generated key is a path, never empty. */
  predicate FreshNames(world: World, f: Fates) {
    && f.output.key !in world.storage && f.error.key !in world.storage && "" !in world.storage
    && f.output.fileId !in world.files && f.error.fileId !in world.files
    && f.output.key != f.error.key && f.output.key != "" && f.error.key != ""
    && f.output.fileId != f.error.fileId
  }

  /** The job's references are to records, as the foreign keys demand. */
  predicate Linked(world: World) {
    && (world.job.output.Some? ==> world.job.output.value in world.files)
    && (world.job.error.Some? ==> world.job.error.value in world.files)
  }

  /** Recorded although the statement raised: a record the finalizer does not know. */
  function LostRecord(rows: seq<Row>, ends: Option<Failure>, fate: Fate): map<nat, string> {
    if ends == None && !fate.noRecord && fate.db == RaisesAfterCommit then
      map[fate.fileId := KeyFor(rows, fate)]
    else map[]
  }

  predicate OutputFails(items: seq<Item>, job: Job, f: Fates) {
    WantsOutput(job) && (OutputEnds(items, f).Some? || f.output.noRecord || f.output.db != Commits)
  }

  /** The record left behind, if any: the error artifact is only tried after the output artifact. */
  function Leftover(items: seq<Item>, job: Job, f: Fates): map<nat, string> {
    if OutputFails(items, job, f) then LostRecord(OutputRows(items), OutputEnds(items, f), f.output)
    else if WantsError(job) then LostRecord(ErrorRows(items), ErrorEnds(items, f), f.error)
    else map[]
  }

  /** What the attempt added, apart from the job. */
  ghost predicate Added(world: World, w: Work, leftover: map<nat, string>) {
    && (forall k | k in world.storage :: k in w.world.storage && w.world.storage[k] == world.storage[k]
          && k !in KeysToDelete(w))
    && (forall k | k in w.world.storage :: k in world.storage || k in KeysToDelete(w))
    && (forall k | k in world.files :: k in w.world.files && w.world.files[k] == world.files[k] && k !in w.created
          && k !in leftover)
    && (forall k | k in w.world.files :: k in world.files || k in w.created || k in leftover)
    && (forall k | k in leftover :: k in w.world.files && w.world.files[k] == leftover[k] && k !in w.created)
    && (forall k | k in w.created :: k in w.world.files && w.world.files[k] == w.created[k])
  }

  lemma ValuesAdded(m: map<nat, string>, id: nat, key: string)
    requires id !in m
    ensures m[id := key].Values == m.Values + {key}
  {
    var n := m[id := key];
    assert n[id] == key;
    forall k | k in m.Values ensures k in n.Values {
      var i :| i in m && m[i] == k;
      assert n[i] == k;
    }
  }

  lemma {:induction false} StoreAdds(world: World, w: Work, rows: seq<Row>, key: string)
    requires Added(world, w, map[]) && key !in w.world.storage
    ensures Added(world, StoreArtifact(w, rows, key), map[])
  {
  }

  lemma {:induction false} RecordAdds(world: World, w: Work, fate: Fate, key: string)
    requires Added(world, w, map[]) && fate.fileId !in w.world.files && fate.fileId !in w.created
    requires (key in w.unrecorded || key == "") && key !in world.storage && "" !in world.storage
    requires fate.fileId !in world.files
    ensures var lost := if !fate.noRecord && fate.db == RaisesAfterCommit then map[fate.fileId := key] else map[];
            Added(world, RecordArtifact(w, fate, key), lost)
  {
    ValuesAdded(w.created, fate.fileId, key);
  }

  lemma MadeUnderItsNames(w: Work, rows: seq<Row>, ends: Option<Failure>, fate: Fate)
    ensures var (w', failure) := ArtifactMade(w, rows, ends, fate);
            && w'.world.job == w.world.job && (failure == None ==> LostRecord(rows, ends, fate) == map[])
            && (forall k | k in w'.world.storage :: k in w.world.storage || k == fate.key)
            && (forall k | k in w'.world.files :: k in w.world.files || k == fate.fileId)
  {
  }

  /** One more artifact: what is stored and recorded is known, but for a lost record. */
  lemma {:induction false} MakeAdds(world: World, w: Work, rows: seq<Row>, ends: Option<Failure>, fate: Fate)
    requires Added(world, w, map[]) && "" !in w.world.storage
    requires fate.key !in w.world.storage && fate.fileId !in w.world.files && fate.key != ""
    ensures var (w', failure) := ArtifactMade(w, rows, ends, fate);
            && Added(world, w', LostRecord(rows, ends, fate)) && w'.world.job == w.world.job
            && (failure == None ==> LostRecord(rows, ends, fate) == map[])
            && (forall k | k in w'.world.storage :: k in w.world.storage || k == fate.key)
            && (forall k | k in w'.world.files :: k in w.world.files || k == fate.fileId)
  {
    MadeUnderItsNames(w, rows, ends, fate);
    assert fate.fileId !in w.created;
    if ends == None {
      StoreAdds(world, w, rows, KeyFor(rows, fate));
      RecordAdds(world, StoreArtifact(w, rows, KeyFor(rows, fate)), fate, KeyFor(rows, fate));
    }
  }

  lemma {:induction false} OutputAdds(world: World, items: seq<Item>, job: Job, f: Fates)
    requires FreshNames(world, f)
    ensures var (w, failure) := MakeOutput(Work(world, {}, map[]), items, job, f);
            && Added(world, w, if failure.Some? then LostRecord(OutputRows(items), OutputEnds(items, f), f.output)
                else map[])
            && (failure.Some? <==> OutputFails(items, job, f)) && w.world.job == world.job
            && "" !in w.world.storage && f.error.key !in w.world.storage && f.error.fileId !in w.world.files
  {
    var w := Work(world, {}, map[]);
    assert w.created.Values == {};
    if WantsOutput(job) {
      MakeAdds(world, w, OutputRows(items), OutputEnds(items, f), f.output);
    }
  }

  /** Every object stored is deleted by the cleanup, and every record but a lost one. */
  lemma {:induction false} AllAdds(world: World, items: seq<Item>, job: Job, f: Fates)
    requires FreshNames(world, f)
    ensures var w := MakeAll(Work(world, {}, map[]), items, job, f).0;
            Added(world, w, Leftover(items, job, f)) && w.world.job == world.job && "" !in w.world.storage
  {
    OutputAdds(world, items, job, f);
    var (w1, e1) := MakeOutput(Work(world, {}, map[]), items, job, f);
    if e1 == None && WantsError(job) {
      MakeAdds(world, w1, ErrorRows(items), ErrorEnds(items, f), f.error);
    }
  }

  lemma AttachAdds(world: World, w: Work, job: Job, f: Fates, leftover: map<nat, string>)
    requires Added(world, w, leftover)
    ensures Added(world, Attach(w, job, f).0, leftover)
  {
  }

  lemma {:induction false} AttemptAdds(world: World, items: seq<Item>, job: Job, f: Fates)
    requires FreshNames(world, f)
    ensures Added(world, Attempt(world, items, job, f).0, Leftover(items, job, f))
    ensures "" !in Attempt(world, items, job, f).0.world.storage
  {
    AllAdds(world, items, job, f);
    AttachAdds(world, MakeAll(Work(world, {}, map[]), items, job, f).0, job, f, Leftover(items, job, f));
  }

  // ----- failure atomicity

  /** The attempt attaches its files although its caller is told that it failed. */
  predicate AttachedUnknowingly(world: World, items: seq<Item>, job: Job, f: Fates) {
    && !OutputFails(items, job, f)
    && !(WantsError(job) && (ErrorEnds(items, f).Some? || f.error.noRecord || f.error.db != Commits))
    && f.attach == RaisesAfterCommit && Leased(world.job, f.worker)
  }

  lemma {:induction false} JobChangesOnlyWhenAttached(world: World, items: seq<Item>, job: Job, f: Fates)
    ensures var (w, failure) := Attempt(world, items, job, f);
            && (failure.Some? && !AttachedUnknowingly(world, items, job, f) ==> w.world.job == world.job)
            && (failure == None || AttachedUnknowingly(world, items, job, f) ==>
                  w.world.job == Attached(world.job, OutputId(job, f), ErrorId(job, f), FinalStatus(job)))
            && (AttachedUnknowingly(world, items, job, f) ==> failure.Some?)
  {
  }

  /** What is there after a cleanup: what was there before, what could not be deleted, and a lost record. */
  ghost predicate Restored(world: World, after: World, stuck: Stubborn, leftover: map<nat, string>) {
    && (forall k | k in world.storage :: k in after.storage && after.storage[k] == world.storage[k])
    && (forall k | k in after.storage :: k in world.storage || k in stuck.keys)
    && (forall k | k in world.files :: k in after.files && after.files[k] == world.files[k])
    && (forall k | k in after.files :: k in world.files || k in stuck.files || k in leftover)
    && (forall k | k in leftover :: k in after.files && k !in world.files)
  }

  lemma {:induction false} CleanUpRestores(world: World, w: Work, stuck: Stubborn, leftover: map<nat, string>)
    requires Added(world, w, leftover)
    ensures Restored(world, CleanUp(w, stuck), stuck, leftover)
    ensures Linked(world) && w.world.job == world.job ==> CleanUp(w, stuck).job == world.job
  {
  }

  lemma {:induction false} FullCleanUp(world: World, after: World, leftover: map<nat, string>)
    requires Restored(world, after, Stubborn({}, {}), leftover)
    ensures after.storage == world.storage
    ensures after.files == world.files <==> leftover == map[]
  {
    if leftover != map[] {
      var id :| id in leftover;
      assert id in after.files && id !in world.files;
    }
  }

  /**
   Failure atomicity: a failed call leaves only what a deletion could not remove; with
   every deletion working the storage is as before, and the records are as before but
   for one whose creation was committed and then raised.
   */
  lemma {:induction false} FailureIsAtomic(world: World, items: seq<Item>, job: Job, f: Fates, stuck: Stubborn)
    requires FreshNames(world, f) && Linked(world) && Finalize(world, items, job, f, stuck).1.Some?
    ensures var after := Finalize(world, items, job, f, stuck).0;
            && Restored(world, after, stuck, Leftover(items, job, f))
            && (stuck == Stubborn({}, {}) ==>
                  && after.storage == world.storage
                  && (after.files == world.files <==> Leftover(items, job, f) == map[]))
            && (!AttachedUnknowingly(world, items, job, f) ==> after.job == world.job)
  {
    AttemptAdds(world, items, job, f);
    JobChangesOnlyWhenAttached(world, items, job, f);
    var (w, leftover) := (Attempt(world, items, job, f).0, Leftover(items, job, f));
    CleanUpRestores(world, w, stuck, leftover);
    if stuck == Stubborn({}, {}) {
      FullCleanUp(world, CleanUp(w, stuck), leftover);
    }
  }

  /** The object of a record; a record with the empty key has no rows and needs none. */
  predicate HasObject(world: World, file: Option<nat>) {
    file.Some? ==>
      file.value in world.files && (world.files[file.value] == "" || world.files[file.value] in world.storage)
  }

  /** Everything the job points to exists. */
  predicate Consistent(world: World) {
    HasObject(world, world.job.output) && HasObject(world, world.job.error)
  }

  /** What a call recorded, if it attached its files. */
  ghost predicate RecordsAll(w: Work, items: seq<Item>, job: Job, f: Fates) {
    && w.unrecorded == {}
    && (forall k | k in w.created :: Some(k) == OutputId(job, f) || Some(k) == ErrorId(job, f))
    && (WantsOutput(job) ==> Holds(w, OutputRows(items), f.output))
    && (WantsError(job) ==> Holds(w, ErrorRows(items), f.error))
  }

  /** The artifact is recorded, and stored if it has rows. */
  predicate Holds(w: Work, rows: seq<Row>, fate: Fate) {
    && fate.fileId in w.created && w.created[fate.fileId] == KeyFor(rows, fate)
    && fate.fileId in w.world.files && w.world.files[fate.fileId] == KeyFor(rows, fate)
    && (rows != [] ==> fate.key in w.world.storage && w.world.storage[fate.key] == rows)
  }

  lemma MadeHolds(w: Work, rows: seq<Row>, ends: Option<Failure>, fate: Fate)
    requires w.unrecorded == {} && ArtifactMade(w, rows, ends, fate).1 == None && (rows != [] ==> fate.key != "")
    ensures var w' := ArtifactMade(w, rows, ends, fate).0;
            && w'.unrecorded == {} && w'.created == w.created[fate.fileId := KeyFor(rows, fate)]
            && Holds(w', rows, fate)
  {
  }

  lemma HoldsStill(w: Work, rows: seq<Row>, fate: Fate, otherRows: seq<Row>, ends: Option<Failure>, other: Fate)
    requires Holds(w, rows, fate) && fate.fileId != other.fileId && fate.key != other.key
    ensures Holds(ArtifactMade(w, otherRows, ends, other).0, rows, fate)
  {
  }

  lemma {:induction false} AttachedHasAll(world: World, items: seq<Item>, job: Job, f: Fates)
    requires FreshNames(world, f)
    requires Attempt(world, items, job, f).1 == None || AttachedUnknowingly(world, items, job, f)
    ensures RecordsAll(Attempt(world, items, job, f).0, items, job, f)
  {
    var w := Work(world, {}, map[]);
    if WantsOutput(job) {
      MadeHolds(w, OutputRows(items), OutputEnds(items, f), f.output);
    }
    var w1 := MakeOutput(w, items, job, f).0;
    if WantsError(job) {
      MadeHolds(w1, ErrorRows(items), ErrorEnds(items, f), f.error);
      if WantsOutput(job) {
        HoldsStill(w1, OutputRows(items), f.output, ErrorRows(items), ErrorEnds(items, f), f.error);
      }
    }
  }

  /** The rows of the file that the job points to. */
  function RowsAt(world: World, file: Option<nat>): seq<Row> {
    if file.Some? && file.value in world.files && world.files[file.value] in world.storage then
      world.storage[world.files[file.value]]
    else []
  }

  /** On success nothing is deleted, and exactly what was written is attached and holds the rows. */
  lemma {:induction false} SuccessAttaches(world: World, items: seq<Item>, job: Job, f: Fates, stuck: Stubborn)
    requires FreshNames(world, f) && Finalize(world, items, job, f, stuck).1 == None
    ensures var after := Finalize(world, items, job, f, stuck).0;
            && after.job == Attached(world.job, OutputId(job, f), ErrorId(job, f), FinalStatus(job))
            && Consistent(after)
            && (forall k | k in world.storage :: k in after.storage && after.storage[k] == world.storage[k])
            && (WantsOutput(job) ==>
                  && f.output.fileId in after.files
                  && after.files[f.output.fileId] == KeyFor(OutputRows(items), f.output)
                  && RowsAt(after, after.job.output) == OutputRows(items))
            && (WantsError(job) ==>
                  && f.error.fileId in after.files
                  && after.files[f.error.fileId] == KeyFor(ErrorRows(items), f.error)
                  && RowsAt(after, after.job.error) == ErrorRows(items))
  {
    JobChangesOnlyWhenAttached(world, items, job, f);
    AttemptAdds(world, items, job, f);
    AttachedHasAll(world, items, job, f);
  }

  /** The job's counters are those of the items. */
  predicate Counts(job: Job, items: seq<Item>) {
    && job.completed == CountOf(items, Completed)
    && job.failed == CountOf(items, Failed)
    && job.cancelled == CountOf(items, Cancelled)
  }

  /** With right counters every terminal item is reported once, in the attached file for its status. */
  lemma {:induction false} EveryTerminalItemIsReported(world: World, items: seq<Item>, job: Job, f: Fates,
                                                       stuck: Stubborn, n: nat)
    requires FreshNames(world, f) && IsTable(items) && Counts(job, items) && n < |items|
    requires Finalize(world, items, job, f, stuck).1 == None
    ensures var after := Finalize(world, items, job, f, stuck).0;
            && (OutputRow(items[n].line) in RowsAt(after, after.job.output) <==> items[n].status == Completed)
            && (ErrorRow(items[n].line) in RowsAt(after, after.job.error)
                <==> Terminal(items[n]) && items[n].status != Completed)
  {
    SuccessAttaches(world, items, job, f, stuck);
    RowsSplitTerminalItems(items, n);
    CountedWhenPresent(items, n);
  }

  /**
   A success closes the job that the worker had leased: cancelled if that was requested, else failed if an operator
   said so or if nothing completed and something failed, else completed; with the files its counters ask for.
   */
  lemma {:induction false} SuccessCloses(world: World, items: seq<Item>, job: Job, f: Fates, stuck: Stubborn)
    requires Finalize(world, items, job, f, stuck).1 == None
    ensures var closed := Finalize(world, items, job, f, stuck).0.job;
            && world.job.lockedBy == Some(f.worker) && world.job.status == Finalizing
            && (closed.status == JobCancelled <==> job.cancelRequested)
            && (closed.status == JobFailed <==>
                  !job.cancelRequested && (job.operatorFailed || (job.completed == 0 && job.failed > 0)))
            && (closed.status == JobCompleted <==>
                  !job.cancelRequested && !job.operatorFailed && (job.completed > 0 || job.failed == 0))
            && closed.output == (if job.completed > 0 then Some(f.output.fileId) else None)
            && closed.error == (if job.failed > 0 || job.cancelled > 0 then Some(f.error.fileId) else None)
            && closed == world.job.(status := closed.status, lockedBy := None, output := closed.output,
                                    error := closed.error)
  {
    JobChangesOnlyWhenAttached(world, items, job, f);
  }

  lemma {:induction false} CountIsPositive(items: seq<Item>, status: ItemStatus)
    ensures CountOf(items, status) > 0 <==> exists k :: 0 <= k < |items| && items[k].status == status
  {
    if items != [] {
      CountIsPositive(items[1..], status);
      if exists k :: 0 <= k < |items| && items[k].status == status {
        var k :| 0 <= k < |items| && items[k].status == status;
        assert k > 0 ==> items[1..][k - 1].status == status;
      }
      if exists k :: 0 <= k < |items[1..]| && items[1..][k].status == status {
        var k :| 0 <= k < |items[1..]| && items[1..][k].status == status;
        assert items[k + 1].status == status;
      }
    }
  }

  predicate SomeItem(items: seq<Item>, status: ItemStatus) {
    exists k :: 0 <= k < |items| && items[k].status == status
  }

  /** With right counters a batch that nobody stopped fails exactly when some item failed and none completed. */
  lemma {:induction false} StatusReflectsItems(world: World, items: seq<Item>, job: Job, f: Fates, stuck: Stubborn)
    requires Finalize(world, items, job, f, stuck).1 == None && Counts(job, items)
    requires !job.cancelRequested && !job.operatorFailed
    ensures Finalize(world, items, job, f, stuck).0.job.status
            == if SomeItem(items, Failed) && !SomeItem(items, Completed) then JobFailed else JobCompleted
  {
    SuccessCloses(world, items, job, f, stuck);
    CountIsPositive(items, Completed);
    CountIsPositive(items, Failed);
  }

  // ----- what a lost reply of the attaching statement costs

  predicate WantsSome(job: Job) {
    WantsOutput(job) || WantsError(job)
  }

  /** The job's row now says that it has ended, without files. */
  predicate EndsWithoutFiles(before: Job, after: Job, job: Job) {
    after != before && after == Attached(before, None, None, FinalStatus(job))
  }

  /** What is left of the reference to an attached file. */
  function Remaining(file: Option<nat>, stuck: Stubborn): Option<nat> {
    if file.Some? && file.value in stuck.files then file else None
  }

  /** The job after its files were attached and then cleaned up. */
  lemma {:induction false} AttachedThenCleaned(world: World, items: seq<Item>, job: Job, f: Fates, stuck: Stubborn)
    requires FreshNames(world, f) && AttachedUnknowingly(world, items, job, f)
    ensures var after := Finalize(world, items, job, f, stuck).0;
            && after.job == Attached(world.job, Remaining(OutputId(job, f), stuck), Remaining(ErrorId(job, f), stuck),
                FinalStatus(job))
            && (forall k | k in KeysToDelete(Attempt(world, items, job, f).0) :: k in after.storage ==> k in stuck.keys)
  {
    JobChangesOnlyWhenAttached(world, items, job, f);
    AttachedHasAll(world, items, job, f);
  }

  /**
   With working deletions a failed call ends a job without the artifacts it wanted exactly when
   the attaching statement was committed and raised; in any case the job points to nothing missing.
   */
  lemma {:induction false} LosesArtifactsIff(world: World, items: seq<Item>, job: Job, f: Fates)
    requires FreshNames(world, f) && Linked(world) && Finalize(world, items, job, f, Stubborn({}, {})).1.Some?
    ensures var after := Finalize(world, items, job, f, Stubborn({}, {})).0;
            && (WantsSome(job) && EndsWithoutFiles(world.job, after.job, job)
                <==> WantsSome(job) && AttachedUnknowingly(world, items, job, f))
            && (Consistent(world) ==> Consistent(after))
  {
    FailureIsAtomic(world, items, job, f, Stubborn({}, {}));
    if AttachedUnknowingly(world, items, job, f) {
      AttachedThenCleaned(world, items, job, f, Stubborn({}, {}));
    }
  }

  /** The object is deleted, the record is not. */
  predicate HalfDeleted(wanted: bool, rows: seq<Row>, fate: Fate, stuck: Stubborn) {
    wanted && rows != [] && fate.key !in stuck.keys && fate.fileId in stuck.files
  }

  /**
   After a failed call the job points to a missing object exactly when the attaching statement was
   committed and raised, and the deletion of some attached object worked while that of its record failed.
   */
  lemma {:induction false} DanglesIff(world: World, items: seq<Item>, job: Job, f: Fates, stuck: Stubborn)
    requires FreshNames(world, f) && Consistent(world) && Finalize(world, items, job, f, stuck).1.Some?
    ensures !Consistent(Finalize(world, items, job, f, stuck).0)
            <==> && AttachedUnknowingly(world, items, job, f)
                 && (HalfDeleted(WantsOutput(job), OutputRows(items), f.output, stuck)
                     || HalfDeleted(WantsError(job), ErrorRows(items), f.error, stuck))
  {
    FailureIsAtomic(world, items, job, f, stuck);
    if AttachedUnknowingly(world, items, job, f) {
      AttachedThenCleaned(world, items, job, f, stuck);
      AttachedHasAll(world, items, job, f);
      var w := Attempt(world, items, job, f).0;
      if WantsOutput(job) {
        StuckArtifact(w, OutputRows(items), f.output, stuck);
      }
      if WantsError(job) {
        StuckArtifact(w, ErrorRows(items), f.error, stuck);
      }
    }
  }

  /** An artifact whose record could not be deleted has its object exactly when that could not be deleted either. */
  lemma {:induction false} StuckArtifact(w: Work, rows: seq<Row>, fate: Fate, stuck: Stubborn)
    requires Holds(w, rows, fate) && fate.key != ""
    ensures HasObject(CleanUp(w, stuck), Remaining(Some(fate.fileId), stuck)) <==> !HalfDeleted(true, rows, fate, stuck)
  {
    assert KeyFor(rows, fate) in w.created.Values by {
      assert w.created[fate.fileId] == KeyFor(rows, fate);
    }
  }

  /** One completed item, and a reply lost after attaching its file. */
  lemma {:induction false} ALostReplyLosesTheOutput()
    ensures var job := Job(1, 0, 0, false, false, Finalizing, Some(9), None, None);
            var f := Fates(Fate("o", None, 1, false, Commits), Fate("e", None, 2, false, Commits), 9,
                RaisesAfterCommit);
            var (after, failure) :=
                Finalize(World(map[], map[], job), [Item(1, Completed, true)], job, f, Stubborn({}, {}));
            && failure == Some(Trouble) && after.storage == map[] && after.files == map[]
            && after.job == job.(status := JobCompleted, lockedBy := None)
  {
    var job := Job(1, 0, 0, false, false, Finalizing, Some(9), None, None);
    var f := Fates(Fate("o", None, 1, false, Commits), Fate("e", None, 2, false, Commits), 9, RaisesAfterCommit);
    var world, items := World(map[], map[], job), [Item(1, Completed, true)];
    FailureIsAtomic(world, items, job, f, Stubborn({}, {}));
    AttachedThenCleaned(world, items, job, f, Stubborn({}, {}));
  }

  /** The same, with a record that cannot be deleted. */
  lemma {:induction false} AStuckRecordDangles()
    ensures var job := Job(1, 0, 0, false, false, Finalizing, Some(9), None, None);
            var f := Fates(Fate("o", None, 1, false, Commits), Fate("e", None, 2, false, Commits), 9,
                RaisesAfterCommit);
            var after := Finalize(World(map[], map[], job), [Item(1, Completed, true)], job, f, Stubborn({}, {1})).0;
            after.job.output == Some(1) && !Consistent(after)
  {
    var job := Job(1, 0, 0, false, false, Finalizing, Some(9), None, None);
    var f := Fates(Fate("o", None, 1, false, Commits), Fate("e", None, 2, false, Commits), 9, RaisesAfterCommit);
    var world, items := World(map[], map[], job), [Item(1, Completed, true)];
    AttachedThenCleaned(world, items, job, f, Stubborn({}, {1}));
    DanglesIff(world, items, job, f, Stubborn({}, {1}));
  }

  // ----- retrying

  datatype End = Finalized | PermanentlyFailed | RetryRequested | Escaped

  /** The lock is given up so that the job is picked up again; without the lease nothing happens. */
  function Reschedule(world: World, worker: nat, db: DbOutcome): (World, End) {
    var job := if Leased(world.job, worker) && db != RaisesBeforeCommit then world.job.(lockedBy := None)
        else world.job;
    (world.(job := job), if db == Commits then RetryRequested else Escaped)
  }

  /** Failing for good attaches nothing. */
  function PersistPermanentFailure(world: World, worker: nat, db: DbOutcome): (World, bool) {
    if db == RaisesBeforeCommit || !Leased(world.job, worker) then (world, false)
    else (world.(job := Attached(world.job, None, None, JobFailed)), db == Commits)
  }

  function FinalizeWithRetry(world: World, items: seq<Item>, job: Job, f: Fates, stuck: Stubborn, persist: DbOutcome,
                             reschedule: DbOutcome)
      : (World, End)
  {
    var (after, failure) := Finalize(world, items, job, f, stuck);
    if failure == None then (after, Finalized)
    else if failure == Some(Invalid) then
      var (failed, persisted) := PersistPermanentFailure(after, f.worker, persist);
      if persisted then (failed, PermanentlyFailed) else Reschedule(failed, f.worker, reschedule)
    else Reschedule(after, f.worker, reschedule)
  }

  /** A call is invalid exactly when it wants output and meets a rejected row before any read or write fails. */
  lemma {:induction false} InvalidIff(world: World, items: seq<Item>, job: Job, f: Fates, stuck: Stubborn)
    ensures Finalize(world, items, job, f, stuck).1 == Some(Invalid)
            <==> WantsOutput(job) && MeetsRejected(items, f.output.failsAfter)
    ensures Finalize(world, items, job, f, stuck).1 == Some(Invalid)
            ==> Finalize(world, items, job, f, stuck).0 == world
  {
    WritingEndsIff(items, true, f.output.failsAfter);
    WritingEndsIff(items, false, f.error.failsAfter);
    if WantsOutput(job) && MeetsRejected(items, f.output.failsAfter) {
      var w := Work(world, {}, map[]);
      assert Attempt(world, items, job, f) == (w, Some(Invalid));
      assert KeysToDelete(w) == {};
      assert CleanUp(w, stuck).storage == world.storage && CleanUp(w, stuck).files == world.files;
      assert w.created.Keys - stuck.files == {};
    }
  }

  /** The failure is for good, and that was written down. */
  predicate FailsForGood(items: seq<Item>, job: Job, f: Fates, persist: DbOutcome) {
    WantsOutput(job) && MeetsRejected(items, f.output.failsAfter) && persist == Commits
  }

  /**
   How a leased job ends: finalized; failed for good, because a row can never be written; asked to be
   retried; or none of these, because the request itself raised.  Each end has its exact condition.
   */
  lemma {:induction false} EndsOneWay(world: World, items: seq<Item>, job: Job, f: Fates, stuck: Stubborn,
                                      persist: DbOutcome, reschedule: DbOutcome)
    requires Leased(world.job, f.worker)
    ensures var end := FinalizeWithRetry(world, items, job, f, stuck, persist, reschedule).1;
            var failure := Finalize(world, items, job, f, stuck).1;
            && (end == Finalized <==> failure == None)
            && (end == PermanentlyFailed <==> FailsForGood(items, job, f, persist))
            && var retriable := failure.Some? && !FailsForGood(items, job, f, persist);
               (end == RetryRequested <==> retriable && reschedule == Commits)
               && (end == Escaped <==> retriable && reschedule != Commits)
  {
    InvalidIff(world, items, job, f, stuck);
    JobChangesOnlyWhenAttached(world, items, job, f);
  }

  /** What each end means for the job; a retry releases it unless a reply was lost. */
  lemma {:induction false} EndsMean(world: World, items: seq<Item>, job: Job, f: Fates, stuck: Stubborn,
                                    persist: DbOutcome, reschedule: DbOutcome)
    requires Leased(world.job, f.worker) && FreshNames(world, f) && Linked(world)
    ensures var (after, end) := FinalizeWithRetry(world, items, job, f, stuck, persist, reschedule);
            && (end == Finalized ==>
                  after.job == Attached(world.job, OutputId(job, f), ErrorId(job, f), FinalStatus(job)))
            && (end == PermanentlyFailed ==>
                  after == world.(job := world.job.(output := None, error := None, status := JobFailed,
                                                    lockedBy := None)))
            && (end == RetryRequested && !AttachedUnknowingly(world, items, job, f) && persist != RaisesAfterCommit ==>
                  after.job == world.job.(lockedBy := None) && after.job.status == Finalizing)
  {
    InvalidIff(world, items, job, f, stuck);
    JobChangesOnlyWhenAttached(world, items, job, f);
    if Finalize(world, items, job, f, stuck).1.Some? {
      FailureIsAtomic(world, items, job, f, stuck);
    }
  }

  /** A good row, a rejected one, and a storage that cannot be opened: the job is retried, not failed for good. */
  lemma {:induction false} AnEarlyFailureIsRetried()
    ensures var job := Job(2, 0, 0, false, false, Finalizing, Some(9), None, None);
            var f := Fates(Fate("o", Some(0), 1, false, Commits), Fate("e", None, 2, false, Commits), 9, Commits);
            var items := [Item(1, Completed, true), Item(2, Completed, false)];
            var (after, end) :=
              FinalizeWithRetry(World(map[], map[], job), items, job, f, Stubborn({}, {}), Commits, Commits);
            end == RetryRequested && after.job == job.(lockedBy := None)
  {
    var job := Job(2, 0, 0, false, false, Finalizing, Some(9), None, None);
    var f := Fates(Fate("o", Some(0), 1, false, Commits), Fate("e", None, 2, false, Commits), 9, Commits);
    var world, items := World(map[], map[], job), [Item(1, Completed, true), Item(2, Completed, false)];
    assert !MeetsRejected(items, Some(0));
    EndsOneWay(world, items, job, f, Stubborn({}, {}), Commits, Commits);
    EndsMean(world, items, job, f, Stubborn({}, {}), Commits, Commits);
  }
}
