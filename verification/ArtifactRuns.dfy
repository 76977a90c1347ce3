/** Attempts to finalize one batch that race through expired leases, statement by statement, with crashes. */
module ArtifactRuns {
  import opened Options
  import opened ArtifactPages
  import opened ArtifactFinalizer

  datatype Phase =
    | WritingOutput
    | RecordingOutput
    | WritingError
    | RecordingError
    | Attaching
    | CleaningUp(keys: set<string>, ids: set<nat>)
    | Succeeded
    | GaveUp
    | Crashed

  /** One call of the finalizer: the job as it read it, and what it wrote; `lost` are records it does not know of. */
  datatype Call = Call(
    job: Job,
    fates: Fates,
    stuck: Stubborn,
    phase: Phase,
    unrecorded: set<string>,
    created: map<nat, string>,
    lost: set<nat>)
  {
    function Keys(): set<string> {
      {fates.output.key, fates.error.key}
    }

    function Ids(): set<nat> {
      {fates.output.fileId, fates.error.fileId}
    }

    predicate Over() {
      phase == Succeeded || phase == GaveUp || phase == Crashed
    }

    predicate Working() {
      !Over() && !phase.CleaningUp?
    }
  }

  /** `makers` tell which attempt a name was generated for, `winner` which one attached its files. */
  datatype System = System(
    world: World,
    attempts: map<nat, Call>,
    keyMakers: map<string, nat>,
    idMakers: map<nat, nat>,
    winner: Option<nat>,
    attaches: nat)

  // ----- one attempt's statements

  function GivenUp(p: Call): Call {
    p.(phase := CleaningUp(p.unrecorded + p.created.Values, p.created.Keys))
  }

  function Write(w: World, p: Call, rows: seq<Row>, ends: Option<Failure>, fate: Fate, next: Phase): (World, Call) {
    if ends.Some? then (w, GivenUp(p))
    else
      var k := StoreArtifact(Work(w, p.unrecorded, p.created), rows, KeyFor(rows, fate));
      (k.world, p.(unrecorded := k.unrecorded, phase := next))
  }

  function Record(w: World, p: Call, rows: seq<Row>, fate: Fate, next: Phase): (World, Call) {
    var k := RecordArtifact(Work(w, p.unrecorded, p.created), fate, KeyFor(rows, fate));
    var q := p.(unrecorded := k.unrecorded,
                created := k.created,
                lost := if !fate.noRecord && fate.db == RaisesAfterCommit then p.lost + {fate.fileId} else p.lost);
    (k.world, if fate.noRecord || fate.db != Commits then GivenUp(q) else q.(phase := next))
  }

  predicate Attaches(w: World, p: Call) {
    p.phase == Attaching && p.fates.attach != RaisesBeforeCommit && Leased(w.job, p.fates.worker)
  }

  /** The next statement of an attempt that is not over. */
  function Advanced(w: World, p: Call, items: seq<Item>): (World, Call) {
    match p.phase
    case WritingOutput =>
      if WantsOutput(p.job) then
        Write(w, p, OutputRows(items), OutputEnds(items, p.fates), p.fates.output, RecordingOutput)
      else (w, p.(phase := WritingError))
    case RecordingOutput => Record(w, p, OutputRows(items), p.fates.output, WritingError)
    case WritingError =>
      if WantsError(p.job) then
        Write(w, p, ErrorRows(items), ErrorEnds(items, p.fates), p.fates.error, RecordingError)
      else (w, p.(phase := Attaching))
    case RecordingError => Record(w, p, ErrorRows(items), p.fates.error, Attaching)
    case Attaching =>
      var (k, failure) := Attach(Work(w, p.unrecorded, p.created), p.job, p.fates);
      (k.world, if failure == None then p.(phase := Succeeded) else GivenUp(p))
    case CleaningUp(keys, ids) => (w, if keys == {} && ids == {} then p.(phase := GaveUp) else p)
    case _ => (w, p)
  }

  // ----- the system

  /** A lock changes hands when it is claimed, expires or is given up. */
  datatype Step =
    | Begin(a: nat, job: Job, fates: Fates, stuck: Stubborn)
    | Lock(holder: Option<nat>)
    | FailForGood(worker: nat)
    | Advance(a: nat)
    | DeleteKey(a: nat, key: string)
    | DeleteFile(a: nat, id: nat)
    | Crash(a: nat)

  predicate NeverUsed(s: System, f: Fates) {
    && FreshNames(s.world, f)
    && f.output.key !in s.keyMakers && f.error.key !in s.keyMakers
    && f.output.fileId !in s.idMakers && f.error.fileId !in s.idMakers
  }

  predicate Enabled(s: System, step: Step) {
    match step
    case Begin(a, job, fates, stuck) => a !in s.attempts && NeverUsed(s, fates)
    case Lock(holder) => s.world.job.status == Finalizing
    case FailForGood(worker) => Leased(s.world.job, worker)
    case Advance(a) => a in s.attempts && !s.attempts[a].Over()
    case DeleteKey(a, key) => a in s.attempts && s.attempts[a].phase.CleaningUp? && key in s.attempts[a].phase.keys
    case DeleteFile(a, id) => a in s.attempts && s.attempts[a].phase.CleaningUp? && id in s.attempts[a].phase.ids
    case Crash(a) => a in s.attempts && !s.attempts[a].Over()
  }

  function Put(s: System, a: nat, w: World, p: Call): System {
    s.(world := w, attempts := s.attempts[a := p])
  }

  function Next(s: System, step: Step, items: seq<Item>): System
    requires Enabled(s, step)
  {
    match step
    case Begin(a, job, f, stuck) =>
      s.(attempts := s.attempts[a := Call(job, f, stuck, WritingOutput, {}, map[], {})],
         keyMakers := s.keyMakers[f.output.key := a][f.error.key := a],
         idMakers := s.idMakers[f.output.fileId := a][f.error.fileId := a])
    case Lock(holder) => s.(world := s.world.(job := s.world.job.(lockedBy := holder)))
    case FailForGood(worker) => s.(world := s.world.(job := Attached(s.world.job, None, None, JobFailed)))
    case Advance(a) =>
      var p := s.attempts[a];
      var (w, q) := Advanced(s.world, p, items);
      if Attaches(s.world, p) then Put(s, a, w, q).(winner := Some(a), attaches := s.attaches + 1) else Put(s, a, w, q)
    case DeleteKey(a, key) =>
      var p := s.attempts[a];
      Put(s, a, Without(s.world, {key}, {}, p.stuck), p.(phase := CleaningUp(p.phase.keys - {key}, p.phase.ids)))
    case DeleteFile(a, id) =>
      var p := s.attempts[a];
      Put(s, a, Without(s.world, {}, {id}, p.stuck), p.(phase := CleaningUp(p.phase.keys, p.phase.ids - {id})))
    case Crash(a) => Put(s, a, s.world, s.attempts[a].(phase := Crashed))
  }

  predicate Feasible(s: System, steps: seq<Step>, items: seq<Item>)
    decreases |steps|
  {
    steps == [] || (Enabled(s, steps[0]) && Feasible(Next(s, steps[0], items), steps[1..], items))
  }

  function Run(s: System, steps: seq<Step>, items: seq<Item>): System
    requires Feasible(s, steps, items)
    decreases |steps|
  {
    if steps == [] then s else Run(Next(s, steps[0], items), steps[1..], items)
  }

  /** A batch to be finalized, and nobody at it yet. */
  ghost predicate Start(s: System) {
    && s.attempts == map[] && s.keyMakers == map[] && s.idMakers == map[] && s.winner == None && s.attaches == 0
    && s.world.job.status == Finalizing && s.world.job.output == None && s.world.job.error == None
    && "" !in s.world.storage
  }

  // ----- what one attempt accounts for

  /** Why an object made by this attempt may be there. */
  predicate KeepsKey(p: Call, key: string) {
    match p.phase
    case CleaningUp(keys, ids) => key in keys || key in p.stuck.keys
    case GaveUp => key in p.stuck.keys
    case Crashed => true
    case _ => key in p.unrecorded || key in p.created.Values
  }

  /** Why a record made by this attempt may be there. */
  predicate KeepsId(p: Call, id: nat) {
    id in p.lost ||
    match p.phase
    case CleaningUp(keys, ids) => id in ids || id in p.stuck.files
    case GaveUp => id in p.stuck.files
    case Crashed => true
    case _ => id in p.created
  }

  /** Recorded, and stored if it has rows. */
  predicate Kept(w: World, p: Call, rows: seq<Row>, fate: Fate) {
    && fate.fileId in p.created && p.created[fate.fileId] == KeyFor(rows, fate)
    && fate.fileId in w.files && w.files[fate.fileId] == KeyFor(rows, fate)
    && (rows != [] ==> fate.key in w.storage && w.storage[fate.key] == rows)
  }

  /** Written and not yet recorded. */
  predicate Pending(w: World, p: Call, rows: seq<Row>, fate: Fate) {
    && fate.fileId !in p.created
    && p.unrecorded == (if rows == [] then {} else {fate.key})
    && (rows != [] ==> fate.key in w.storage && w.storage[fate.key] == rows)
  }

  predicate KeptIf(wanted: bool, w: World, p: Call, rows: seq<Row>, fate: Fate) {
    if wanted then Kept(w, p, rows, fate) else fate.fileId !in p.created
  }

  /** What the attempt has done, by phase. */
  predicate Progress(w: World, p: Call, items: seq<Item>) {
    var outputKept := KeptIf(WantsOutput(p.job), w, p, OutputRows(items), p.fates.output);
    var errorKept := KeptIf(WantsError(p.job), w, p, ErrorRows(items), p.fates.error);
    var noOutput, noError := p.fates.output.fileId !in p.created, p.fates.error.fileId !in p.created;
    match p.phase
    case WritingOutput => noOutput && noError && p.unrecorded == {} && p.lost == {}
    case RecordingOutput => WantsOutput(p.job) && Pending(w, p, OutputRows(items), p.fates.output) && noError
        && p.lost == {}
    case WritingError => outputKept && noError && p.unrecorded == {} && p.lost == {}
    case RecordingError => outputKept && WantsError(p.job) && Pending(w, p, ErrorRows(items), p.fates.error)
        && p.lost == {}
    case Attaching => outputKept && errorKept && p.unrecorded == {} && p.lost == {}
    case Succeeded => outputKept && errorKept && p.unrecorded == {} && p.lost == {}
    case CleaningUp(keys, ids) => keys <= p.Keys() + {""} && ids <= p.Ids()
    case _ => true
  }

  /** The attempt's names are its own, and whatever is there under them is accounted for. */
  predicate Accounted(w: World, p: Call, items: seq<Item>) {
    && p.fates.output.key != p.fates.error.key && p.fates.output.key != "" && p.fates.error.key != ""
    && p.fates.output.fileId != p.fates.error.fileId
    && (p.fates.output.key in w.storage ==> KeepsKey(p, p.fates.output.key))
    && (p.fates.error.key in w.storage ==> KeepsKey(p, p.fates.error.key))
    && (p.fates.output.fileId in w.files ==> KeepsId(p, p.fates.output.fileId))
    && (p.fates.error.fileId in w.files ==> KeepsId(p, p.fates.error.fileId))
    && p.unrecorded <= p.Keys() && p.created.Keys <= p.Ids() && p.lost <= p.Ids()
    && (forall id | id in p.created :: p.created[id] in p.Keys() + {""})
    && Progress(w, p, items)
  }

  /** The two worlds differ at most in the attempt's own names. */
  ghost predicate ChangesOnly(w: World, w': World, p: Call) {
    && (forall k | k !in p.Keys() :: (k in w.storage <==> k in w'.storage)
          && (k in w.storage ==> w'.storage[k] == w.storage[k]))
    && (forall id | id !in p.Ids() :: (id in w.files <==> id in w'.files)
          && (id in w.files ==> w'.files[id] == w.files[id]))
  }

  lemma {:induction false} GivenUpAccounted(w: World, p: Call, items: seq<Item>)
    requires Accounted(w, p, items) && p.Working()
    ensures Accounted(w, GivenUp(p), items)
  {
  }

  lemma {:induction false} WriteOutputAccounted(w: World, p: Call, items: seq<Item>)
    requires Accounted(w, p, items) && p.phase == WritingOutput && WantsOutput(p.job)
    ensures var (w', q) := Write(w, p, OutputRows(items), OutputEnds(items, p.fates), p.fates.output, RecordingOutput);
            Accounted(w', q, items) && ChangesOnly(w, w', p)
  {
    GivenUpAccounted(w, p, items);
  }

  lemma {:induction false} WriteErrorAccounted(w: World, p: Call, items: seq<Item>)
    requires Accounted(w, p, items) && p.phase == WritingError && WantsError(p.job)
    ensures var (w', q) := Write(w, p, ErrorRows(items), ErrorEnds(items, p.fates), p.fates.error, RecordingError);
            Accounted(w', q, items) && ChangesOnly(w, w', p)
  {
    GivenUpAccounted(w, p, items);
  }

  /** No record was made, or none that the attempt knows of. */
  lemma {:induction false} UnrecordedAccounted(w: World, p: Call, items: seq<Item>, rows: seq<Row>, fate: Fate,
                                               next: Phase)
    requires Accounted(w, p, items) && p.Working() && (fate == p.fates.output || fate == p.fates.error)
    requires fate.noRecord || fate.db != Commits
    ensures var (w', q) := Record(w, p, rows, fate, next);
            Accounted(w', q, items) && ChangesOnly(w, w', p)
  {
    if !fate.noRecord && fate.db == RaisesAfterCommit {
      var w' := w.(files := w.files[fate.fileId := KeyFor(rows, fate)]);
      assert Record(w, p, rows, fate, next) == (w', GivenUp(p.(lost := p.lost + {fate.fileId})));
    } else {
      assert Record(w, p, rows, fate, next) == (w, GivenUp(p));
      GivenUpAccounted(w, p, items);
    }
  }

  lemma RecordedIsKept(w: World, p: Call, rows: seq<Row>, fate: Fate, next: Phase)
    requires Pending(w, p, rows, fate) && !fate.noRecord && fate.db == Commits
    ensures var (w', q) := Record(w, p, rows, fate, next);
            && Kept(w', q, rows, fate) && ChangesOnly(w, w', p.(fates := p.fates.(output := fate, error := fate)))
            && w'.storage == w.storage && q == p.(unrecorded := q.unrecorded, created := q.created, phase := next)
            && q.unrecorded == {} && q.created == p.created[fate.fileId := KeyFor(rows, fate)]
            && q.created.Values == p.created.Values + {KeyFor(rows, fate)}
  {
    ValuesAdded(p.created, fate.fileId, KeyFor(rows, fate));
  }

  lemma {:induction false} RecordedOutputAccounted(w: World, p: Call, items: seq<Item>)
    requires Accounted(w, p, items) && p.phase == RecordingOutput
    requires !p.fates.output.noRecord && p.fates.output.db == Commits
    ensures var (w', q) := Record(w, p, OutputRows(items), p.fates.output, WritingError);
            Accounted(w', q, items) && ChangesOnly(w, w', p)
  {
    RecordedIsKept(w, p, OutputRows(items), p.fates.output, WritingError);
  }

  lemma {:induction false} RecordedErrorAccounted(w: World, p: Call, items: seq<Item>)
    requires Accounted(w, p, items) && p.phase == RecordingError
    requires !p.fates.error.noRecord && p.fates.error.db == Commits
    ensures var (w', q) := Record(w, p, ErrorRows(items), p.fates.error, Attaching);
            Accounted(w', q, items) && ChangesOnly(w, w', p)
  {
    RecordedIsKept(w, p, ErrorRows(items), p.fates.error, Attaching);
  }

  lemma {:induction false} AttachAccounted(w: World, p: Call, items: seq<Item>)
    requires Accounted(w, p, items) && p.phase == Attaching
    ensures var (w', q) := Advanced(w, p, items);
            Accounted(w', q, items) && ChangesOnly(w, w', p)
  {
    GivenUpAccounted(w, p, items);
    var w' := Advanced(w, p, items).0;
    assert w'.storage == w.storage && w'.files == w.files;
  }

  lemma {:induction false} WriteAccounted(w: World, p: Call, items: seq<Item>)
    requires Accounted(w, p, items) && (p.phase == WritingOutput || p.phase == WritingError)
    ensures var (w', q) := Advanced(w, p, items);
            Accounted(w', q, items) && ChangesOnly(w, w', p)
  {
    if p.phase == WritingOutput && WantsOutput(p.job) {
      WriteOutputAccounted(w, p, items);
    } else if p.phase == WritingError && WantsError(p.job) {
      WriteErrorAccounted(w, p, items);
    }
  }

  lemma {:induction false} RecordAccounted(w: World, p: Call, items: seq<Item>)
    requires Accounted(w, p, items) && (p.phase == RecordingOutput || p.phase == RecordingError)
    ensures var (w', q) := Advanced(w, p, items);
            Accounted(w', q, items) && ChangesOnly(w, w', p)
  {
    var f := p.fates;
    if p.phase == RecordingOutput {
      if f.output.noRecord || f.output.db != Commits {
        UnrecordedAccounted(w, p, items, OutputRows(items), f.output, WritingError);
      } else {
        RecordedOutputAccounted(w, p, items);
      }
    } else if f.error.noRecord || f.error.db != Commits {
      UnrecordedAccounted(w, p, items, ErrorRows(items), f.error, Attaching);
    } else {
      RecordedErrorAccounted(w, p, items);
    }
  }

  lemma {:induction false} AdvanceAccounted(w: World, p: Call, items: seq<Item>)
    requires Accounted(w, p, items)
    ensures var (w', q) := Advanced(w, p, items);
            Accounted(w', q, items) && ChangesOnly(w, w', p)
  {
    match p.phase
    case WritingOutput => WriteAccounted(w, p, items);
    case RecordingOutput => RecordAccounted(w, p, items);
    case WritingError => WriteAccounted(w, p, items);
    case RecordingError => RecordAccounted(w, p, items);
    case Attaching => AttachAccounted(w, p, items);
    case _ =>
  }

  // ----- a call by itself

  function Rank(phase: Phase): nat {
    match phase
    case WritingOutput => 5
    case RecordingOutput => 4
    case WritingError => 3
    case RecordingError => 2
    case Attaching => 1
    case _ => 0
  }

  /** The statements of a call up to its cleanup, without interference. */
  function ToEnd(w: World, p: Call, items: seq<Item>): (World, Call)
    decreases Rank(p.phase)
  {
    if !p.Working() then (w, p)
    else
      var (w', q) := Advanced(w, p, items);
      ToEnd(w', q, items)
  }

  /** The state of a call as the finalizer's work. */
  function WorkOf(w: World, p: Call): Work {
    Work(w, p.unrecorded, p.created)
  }

  /** What `ToEnd` gives agrees with the work done and the failure met. */
  predicate Agrees(w: World, p: Call, k: Work, failure: Option<Failure>) {
    && WorkOf(w, p) == k
    && p.phase == if failure == None then Succeeded else CleaningUp(KeysToDelete(k), k.created.Keys)
  }

  lemma {:induction false} AttachAlone(w: World, p: Call, items: seq<Item>)
    requires p.phase == Attaching
    ensures var (w', q) := ToEnd(w, p, items);
            var (k, failure) := Attach(WorkOf(w, p), p.job, p.fates);
            Agrees(w', q, k, failure)
  {
  }

  lemma {:induction false} ErrorAlone(w: World, p: Call, items: seq<Item>)
    requires p.phase == WritingError
    ensures var (w', q) := ToEnd(w, p, items);
            var (k, failure) := MakeError(WorkOf(w, p), items, p.job, p.fates);
            if failure.Some? then Agrees(w', q, k, failure)
            else
              var (k', failure') := Attach(k, p.job, p.fates);
              Agrees(w', q, k', failure')
  {
    var (w1, p1) := Advanced(w, p, items);
    assert ToEnd(w, p, items) == ToEnd(w1, p1, items);
    if p1.phase == RecordingError {
      var (w2, p2) := Advanced(w1, p1, items);
      assert ToEnd(w1, p1, items) == ToEnd(w2, p2, items);
      if p2.phase == Attaching {
        AttachAlone(w2, p2, items);
      }
    } else if p1.phase == Attaching {
      AttachAlone(w1, p1, items);
    }
  }

  /**
   Without interference the statements of a call do what the finalizer's attempt does, and clean up exactly after a
   failure.
   */
  lemma {:induction false} AloneIsAttempt(w: World, job: Job, f: Fates, stuck: Stubborn, items: seq<Item>)
    ensures var (w', q) := ToEnd(w, Call(job, f, stuck, WritingOutput, {}, map[], {}), items);
            var (k, failure) := Attempt(w, items, job, f);
            Agrees(w', q, k, failure)
  {
    var p := Call(job, f, stuck, WritingOutput, {}, map[], {});
    var (w1, p1) := Advanced(w, p, items);
    assert ToEnd(w, p, items) == ToEnd(w1, p1, items);
    if p1.phase == RecordingOutput {
      var (w2, p2) := Advanced(w1, p1, items);
      assert ToEnd(w1, p1, items) == ToEnd(w2, p2, items);
      if p2.phase == WritingError {
        ErrorAlone(w2, p2, items);
      }
    } else if p1.phase == WritingError {
      ErrorAlone(w1, p1, items);
    }
  }

  // ----- the system's invariant

  /** Each attempt's names were generated for it, and what is there is accounted for. */
  ghost predicate AttemptsOk(s: System, items: seq<Item>) {
    forall a | a in s.attempts ::
      var p := s.attempts[a];
      && (forall k | k in p.Keys() :: k in s.keyMakers && s.keyMakers[k] == a)
      && (forall id | id in p.Ids() :: id in s.idMakers && s.idMakers[id] == a)
      && Accounted(s.world, p, items)
  }

  predicate MadeKey(s: System, k: string) {
    k in s.keyMakers && s.keyMakers[k] in s.attempts && k in s.attempts[s.keyMakers[k]].Keys()
  }

  predicate MadeId(s: System, id: nat) {
    id in s.idMakers && s.idMakers[id] in s.attempts && id in s.attempts[s.idMakers[id]].Ids()
  }

  /** What was there before stays, and whatever else is there was made by some attempt. */
  ghost predicate NamesOk(first: World, s: System) {
    && (forall k | k in first.storage :: k in s.world.storage && s.world.storage[k] == first.storage[k]
          && k !in s.keyMakers)
    && (forall id | id in first.files :: id in s.world.files && s.world.files[id] == first.files[id]
          && id !in s.idMakers)
    && (forall k | k in s.world.storage :: k in first.storage || MadeKey(s, k))
    && (forall id | id in s.world.files :: id in first.files || MadeId(s, id))
    && "" !in s.world.storage && "" !in s.keyMakers
  }

  /** The reference is to the winner's file, or was cleared. */
  predicate RefersTo(file: Option<nat>, own: Option<nat>) {
    file == None || file == own
  }

  /** Only the winner's files are ever attached, and it wins by closing the job. */
  ghost predicate JobOk(s: System) {
    && s.attaches == (if s.winner.Some? then 1 else 0)
    && (s.winner == None ==> s.world.job.output == None && s.world.job.error == None)
    && (s.winner.Some? ==>
          && s.world.job.status != Finalizing
          && s.winner.value in s.attempts
          && var p := s.attempts[s.winner.value];
             && !p.Working()
             && RefersTo(s.world.job.output, OutputId(p.job, p.fates))
             && RefersTo(s.world.job.error, ErrorId(p.job, p.fates)))
    && (forall a | a in s.attempts && s.attempts[a].phase == Succeeded ::
          && s.winner == Some(a)
          && s.world.job.output == OutputId(s.attempts[a].job, s.attempts[a].fates)
          && s.world.job.error == ErrorId(s.attempts[a].job, s.attempts[a].fates))
  }

  ghost predicate Inv(first: World, s: System, items: seq<Item>) {
    AttemptsOk(s, items) && NamesOk(first, s) && JobOk(s)
  }

  /** An attempt does not notice changes under other names. */
  lemma {:induction false} AccountedElsewhere(w: World, w': World, p: Call, q: Call, items: seq<Item>)
    requires Accounted(w, p, items) && ChangesOnly(w, w', q) && p.Keys() !! q.Keys() && p.Ids() !! q.Ids()
    ensures Accounted(w', p, items)
  {
  }

  predicate SameNames(p: Call, q: Call) {
    q.job == p.job && q.fates == p.fates && q.stuck == p.stuck
  }

  lemma {:induction false} NamesDiffer(s: System, a: nat, b: nat, items: seq<Item>)
    requires AttemptsOk(s, items) && a in s.attempts && b in s.attempts && a != b
    ensures s.attempts[a].Keys() !! s.attempts[b].Keys() && s.attempts[a].Ids() !! s.attempts[b].Ids()
  {
    forall k | k in s.attempts[a].Keys() ensures k !in s.attempts[b].Keys() {
      assert s.keyMakers[k] == a;
    }
    forall id | id in s.attempts[a].Ids() ensures id !in s.attempts[b].Ids() {
      assert s.idMakers[id] == a;
    }
  }

  /** One attempt moves, within its own names: the others do not notice. */
  lemma {:induction false} PutKeepsAttempts(s: System, a: nat, w: World, q: Call, items: seq<Item>)
    requires AttemptsOk(s, items) && a in s.attempts
    requires SameNames(s.attempts[a], q) && ChangesOnly(s.world, w, q) && Accounted(w, q, items)
    ensures AttemptsOk(Put(s, a, w, q), items)
  {
    var s' := Put(s, a, w, q);
    forall b | b in s'.attempts
      ensures Accounted(s'.world, s'.attempts[b], items)
      ensures forall k | k in s'.attempts[b].Keys() :: k in s.keyMakers && s.keyMakers[k] == b
      ensures forall id | id in s'.attempts[b].Ids() :: id in s.idMakers && s.idMakers[id] == b
    {
      if b == a {
        assert s.attempts[a].Keys() == q.Keys() && s.attempts[a].Ids() == q.Ids();
      } else {
        assert Accounted(s.world, s.attempts[b], items);
        NamesDiffer(s, b, a, items);
        AccountedElsewhere(s.world, w, s.attempts[b], q, items);
      }
    }
  }

  lemma {:induction false} PutKeepsNames(first: World, s: System, a: nat, w: World, q: Call)
    requires NamesOk(first, s) && a in s.attempts && SameNames(s.attempts[a], q) && ChangesOnly(s.world, w, q)
    requires forall k | k in q.Keys() :: k in s.keyMakers && s.keyMakers[k] == a
    requires forall id | id in q.Ids() :: id in s.idMakers && s.idMakers[id] == a
    ensures NamesOk(first, Put(s, a, w, q))
  {
    var s' := Put(s, a, w, q);
    forall k ensures MadeKey(s, k) <==> MadeKey(s', k) {
    }
    forall id ensures MadeId(s, id) <==> MadeId(s', id) {
    }
    forall k | k in w.storage && k !in first.storage ensures MadeKey(s', k) {
      if k !in q.Keys() {
        assert MadeKey(s, k);
      }
    }
    forall id | id in w.files && id !in first.files ensures MadeId(s', id) {
      if id !in q.Ids() {
        assert MadeId(s, id);
      }
    }
  }

  lemma {:induction false} PutKeeps(first: World, s: System, a: nat, w: World, q: Call, items: seq<Item>)
    requires AttemptsOk(s, items) && NamesOk(first, s) && a in s.attempts
    requires SameNames(s.attempts[a], q) && ChangesOnly(s.world, w, q) && Accounted(w, q, items)
    ensures AttemptsOk(Put(s, a, w, q), items) && NamesOk(first, Put(s, a, w, q))
  {
    PutKeepsAttempts(s, a, w, q, items);
    assert s.attempts[a].Keys() == q.Keys() && s.attempts[a].Ids() == q.Ids();
    PutKeepsNames(first, s, a, w, q);
  }

  // ----- steps

  lemma {:induction false} BeginKeepsAttempts(s: System, a: nat, job: Job, f: Fates, stuck: Stubborn, items: seq<Item>)
    requires AttemptsOk(s, items) && a !in s.attempts && NeverUsed(s, f)
    ensures AttemptsOk(Next(s, Begin(a, job, f, stuck), items), items)
  {
    var s' := Next(s, Begin(a, job, f, stuck), items);
    forall b | b in s'.attempts
      ensures forall k | k in s'.attempts[b].Keys() :: k in s'.keyMakers && s'.keyMakers[k] == b
      ensures forall id | id in s'.attempts[b].Ids() :: id in s'.idMakers && s'.idMakers[id] == b
      ensures Accounted(s'.world, s'.attempts[b], items)
    {
      if b != a {
        assert b in s.attempts && s'.attempts[b] == s.attempts[b];
      }
    }
  }

  /** More names and attempts, the same world. */
  lemma {:induction false} NamesGrow(first: World, s: System, s': System)
    requires NamesOk(first, s) && s'.world == s.world
    requires forall k | MadeKey(s, k) :: MadeKey(s', k)
    requires forall id | MadeId(s, id) :: MadeId(s', id)
    requires forall k | k in s'.keyMakers :: k in s.keyMakers || (k !in s.world.storage && k != "")
    requires forall id | id in s'.idMakers :: id in s.idMakers || id !in s.world.files
    ensures NamesOk(first, s')
  {
  }

  lemma {:induction false} BeginKeepsNames(first: World, s: System, a: nat, job: Job, f: Fates, stuck: Stubborn,
                                           items: seq<Item>)
    requires NamesOk(first, s) && a !in s.attempts && NeverUsed(s, f)
    ensures NamesOk(first, Next(s, Begin(a, job, f, stuck), items))
  {
    var s' := Next(s, Begin(a, job, f, stuck), items);
    forall k | MadeKey(s, k) ensures MadeKey(s', k) {
      assert s'.keyMakers[k] == s.keyMakers[k];
    }
    forall id | MadeId(s, id) ensures MadeId(s', id) {
      assert s'.idMakers[id] == s.idMakers[id];
    }
    NamesGrow(first, s, s');
  }

  lemma {:induction false} BeginKeepsJob(s: System, a: nat, job: Job, f: Fates, stuck: Stubborn, items: seq<Item>)
    requires JobOk(s) && a !in s.attempts && NeverUsed(s, f)
    ensures JobOk(Next(s, Begin(a, job, f, stuck), items))
  {
  }

  lemma {:induction false} BeginKeeps(first: World, s: System, a: nat, job: Job, f: Fates, stuck: Stubborn,
                                      items: seq<Item>)
    requires Inv(first, s, items) && a !in s.attempts && NeverUsed(s, f)
    ensures Inv(first, Next(s, Begin(a, job, f, stuck), items), items)
  {
    BeginKeepsAttempts(s, a, job, f, stuck, items);
    BeginKeepsNames(first, s, a, job, f, stuck, items);
    BeginKeepsJob(s, a, job, f, stuck, items);
  }

  /** A move that leaves the job's row alone and does not succeed. */
  lemma {:induction false} JobStays(s: System, a: nat, w: World, q: Call)
    requires JobOk(s) && a in s.attempts && w.job == s.world.job && SameNames(s.attempts[a], q)
    requires q.phase != Succeeded && s.attempts[a].phase != Succeeded && (q.Working() ==> s.attempts[a].Working())
    ensures JobOk(Put(s, a, w, q))
  {
  }

  lemma {:induction false} AdvancedJob(w: World, p: Call, items: seq<Item>)
    requires !p.Over()
    ensures var (w', q) := Advanced(w, p, items);
            && SameNames(p, q) && (q.Working() ==> p.Working())
            && (Attaches(w, p) ==>
                  && w'.job == Attached(w.job, OutputId(p.job, p.fates), ErrorId(p.job, p.fates), FinalStatus(p.job))
                  && !q.Working())
            && (!Attaches(w, p) ==> w'.job == w.job && q.phase != Succeeded)
  {
  }

  /** Attaching closes the job, so nobody can have done it before. */
  lemma {:induction false} AttachingWins(s: System, a: nat, w: World, q: Call)
    requires JobOk(s) && a in s.attempts && s.attempts[a].Working() && s.world.job.status == Finalizing
    requires SameNames(s.attempts[a], q) && !q.Working()
    requires w.job == Attached(s.world.job, OutputId(q.job, q.fates), ErrorId(q.job, q.fates), FinalStatus(q.job))
    ensures JobOk(Put(s, a, w, q).(winner := Some(a), attaches := s.attaches + 1))
  {
  }

  lemma {:induction false} AdvanceKeeps(first: World, s: System, a: nat, items: seq<Item>)
    requires Inv(first, s, items) && Enabled(s, Advance(a))
    ensures Inv(first, Next(s, Advance(a), items), items)
  {
    var p := s.attempts[a];
    var (w, q) := Advanced(s.world, p, items);
    assert Accounted(s.world, p, items);
    AdvanceAccounted(s.world, p, items);
    AdvancedJob(s.world, p, items);
    PutKeeps(first, s, a, w, q, items);
    if Attaches(s.world, p) {
      AttachingWins(s, a, w, q);
      var s' := Put(s, a, w, q).(winner := Some(a), attaches := s.attaches + 1);
      NamesGrow(first, Put(s, a, w, q), s');
      SameAttempts(Put(s, a, w, q), s', items);
    } else {
      JobStays(s, a, w, q);
    }
  }

  lemma {:induction false} SameAttempts(s: System, s': System, items: seq<Item>)
    requires AttemptsOk(s, items) && s'.world == s.world && s'.attempts == s.attempts
    requires s'.keyMakers == s.keyMakers && s'.idMakers == s.idMakers
    ensures AttemptsOk(s', items)
  {
  }

  lemma {:induction false} DeleteKeyAccounted(w: World, p: Call, key: string, items: seq<Item>)
    requires Accounted(w, p, items) && p.phase.CleaningUp? && key in p.phase.keys && "" !in w.storage
    ensures var w' := Without(w, {key}, {}, p.stuck);
            && Accounted(w', p.(phase := CleaningUp(p.phase.keys - {key}, p.phase.ids)), items)
            && ChangesOnly(w, w', p) && w'.job == w.job
  {
    assert {} - p.stuck.files == {};
    assert w.files - {} == w.files;
  }

  lemma {:induction false} DeleteKeyKeeps(first: World, s: System, a: nat, key: string, items: seq<Item>)
    requires Inv(first, s, items) && Enabled(s, DeleteKey(a, key))
    ensures Inv(first, Next(s, DeleteKey(a, key), items), items)
  {
    var p := s.attempts[a];
    var q := p.(phase := CleaningUp(p.phase.keys - {key}, p.phase.ids));
    assert Accounted(s.world, p, items);
    DeleteKeyAccounted(s.world, p, key, items);
    PutKeeps(first, s, a, Without(s.world, {key}, {}, p.stuck), q, items);
    JobStays(s, a, Without(s.world, {key}, {}, p.stuck), q);
  }

  lemma {:induction false} DeleteFileAccounted(w: World, p: Call, id: nat, items: seq<Item>)
    requires Accounted(w, p, items) && p.phase.CleaningUp? && id in p.phase.ids
    ensures var w' := Without(w, {}, {id}, p.stuck);
            && Accounted(w', p.(phase := CleaningUp(p.phase.keys, p.phase.ids - {id})), items)
            && ChangesOnly(w, w', p) && id in p.Ids()
  {
    assert {} - p.stuck.keys == {};
    assert w.storage - {} == w.storage;
  }

  /** Deleting a record clears at most references of its own attempt. */
  lemma {:induction false} UnlinkingKeepsJob(s: System, a: nat, id: nat, w: World, q: Call)
    requires JobOk(s) && a in s.attempts && s.attempts[a].phase.CleaningUp? && q.phase.CleaningUp?
    requires SameNames(s.attempts[a], q)
    requires w.job == Without(s.world, {}, {id}, q.stuck).job
    requires forall b | b in s.attempts && b != a :: id !in s.attempts[b].Ids()
    ensures JobOk(Put(s, a, w, q))
  {
    forall b | b in s.attempts && s.attempts[b].phase == Succeeded
      ensures w.job.output == s.world.job.output && w.job.error == s.world.job.error
    {
      assert b != a && id !in s.attempts[b].Ids();
    }
  }

  lemma {:induction false} DeleteFileKeeps(first: World, s: System, a: nat, id: nat, items: seq<Item>)
    requires Inv(first, s, items) && Enabled(s, DeleteFile(a, id))
    ensures Inv(first, Next(s, DeleteFile(a, id), items), items)
  {
    var p := s.attempts[a];
    var q := p.(phase := CleaningUp(p.phase.keys, p.phase.ids - {id}));
    assert Accounted(s.world, p, items);
    DeleteFileAccounted(s.world, p, id, items);
    PutKeeps(first, s, a, Without(s.world, {}, {id}, p.stuck), q, items);
    forall b | b in s.attempts && b != a ensures id !in s.attempts[b].Ids() {
      NamesDiffer(s, a, b, items);
    }
    UnlinkingKeepsJob(s, a, id, Without(s.world, {}, {id}, p.stuck), q);
  }

  lemma {:induction false} CrashAccounted(w: World, p: Call, items: seq<Item>)
    requires Accounted(w, p, items)
    ensures Accounted(w, p.(phase := Crashed), items) && ChangesOnly(w, w, p.(phase := Crashed))
  {
  }

  lemma {:induction false} CrashKeeps(first: World, s: System, a: nat, items: seq<Item>)
    requires Inv(first, s, items) && Enabled(s, Crash(a))
    ensures Inv(first, Next(s, Crash(a), items), items)
  {
    var q := s.attempts[a].(phase := Crashed);
    assert Accounted(s.world, s.attempts[a], items);
    CrashAccounted(s.world, s.attempts[a], items);
    PutKeeps(first, s, a, s.world, q, items);
    JobStays(s, a, s.world, q);
  }

  lemma {:induction false} LockKeeps(first: World, s: System, job: Job, items: seq<Item>)
    requires Inv(first, s, items) && s.world.job.status == Finalizing
    requires job.output == None && job.error == None
    ensures Inv(first, s.(world := s.world.(job := job)), items)
  {
    JobAside(first, s, job, items);
  }

  lemma {:induction false} StepKeeps(first: World, s: System, step: Step, items: seq<Item>)
    requires Inv(first, s, items) && Enabled(s, step)
    ensures Inv(first, Next(s, step, items), items)
  {
    match step
    case Begin(a, job, fates, stuck) => BeginKeeps(first, s, a, job, fates, stuck, items);
    case Advance(a) => AdvanceKeeps(first, s, a, items);
    case DeleteKey(a, key) => DeleteKeyKeeps(first, s, a, key, items);
    case DeleteFile(a, id) => DeleteFileKeeps(first, s, a, id, items);
    case Crash(a) => CrashKeeps(first, s, a, items);
    case Lock(holder) => LockKeeps(first, s, s.world.job.(lockedBy := holder), items);
    case FailForGood(worker) => LockKeeps(first, s, Attached(s.world.job, None, None, JobFailed), items);
  }

  /** Nothing stored or recorded depends on the job's row. */
  lemma {:induction false} JobAside(first: World, s: System, job: Job, items: seq<Item>)
    requires AttemptsOk(s, items) && NamesOk(first, s)
    ensures AttemptsOk(s.(world := s.world.(job := job)), items) && NamesOk(first, s.(world := s.world.(job := job)))
  {
    var s' := s.(world := s.world.(job := job));
    forall a | a in s'.attempts ensures Accounted(s'.world, s'.attempts[a], items) {
      assert Accounted(s.world, s.attempts[a], items);
    }
    forall k | k in s'.world.storage && k !in first.storage ensures MadeKey(s', k) {
      assert MadeKey(s, k);
    }
    forall id | id in s'.world.files && id !in first.files ensures MadeId(s', id) {
      assert MadeId(s, id);
    }
  }

  lemma {:induction false} EveryRunKeeps(first: World, s: System, steps: seq<Step>, items: seq<Item>)
    requires Inv(first, s, items) && Feasible(s, steps, items)
    ensures Inv(first, Run(s, steps, items), items)
    decreases |steps|
  {
    if steps != [] {
      StepKeeps(first, s, steps[0], items);
      EveryRunKeeps(first, Next(s, steps[0], items), steps[1..], items);
    }
  }

  // ----- what every run promises

  predicate HasSucceeded(s: System, a: nat) {
    a in s.attempts && s.attempts[a].phase == Succeeded
  }

  /** Over any race at most one attempt attaches its files, and only that one can report success. */
  lemma {:induction false} AtMostOneAttaches(s: System, steps: seq<Step>, items: seq<Item>, a: nat, b: nat)
    requires Start(s) && Feasible(s, steps, items)
    ensures var t := Run(s, steps, items);
            && t.attaches <= 1
            && (HasSucceeded(t, a) && HasSucceeded(t, b) ==> a == b)
  {
    EveryRunKeeps(s.world, s, steps, items);
  }

  /** A success is never undone: at every later moment the job points to its files, and they hold the rows. */
  lemma {:induction false} SuccessLasts(s: System, steps: seq<Step>, items: seq<Item>, a: nat)
    requires Start(s) && Feasible(s, steps, items)
    requires HasSucceeded(Run(s, steps, items), a)
    ensures var t := Run(s, steps, items);
            var p := t.attempts[a];
            && Consistent(t.world) && t.world.job.status != Finalizing
            && t.world.job.output == OutputId(p.job, p.fates) && t.world.job.error == ErrorId(p.job, p.fates)
            && (WantsOutput(p.job) ==> RowsAt(t.world, t.world.job.output) == OutputRows(items))
            && (WantsError(p.job) ==> RowsAt(t.world, t.world.job.error) == ErrorRows(items))
  {
    EveryRunKeeps(s.world, s, steps, items);
    var t := Run(s, steps, items);
    assert Accounted(t.world, t.attempts[a], items);
  }

  /** Nobody is at it. */
  ghost predicate Quiet(s: System) {
    forall a | a in s.attempts :: s.attempts[a].Over()
  }

  /** What a successful attempt made is what it attached. */
  lemma {:induction false} KeptIsAttached(w: World, p: Call, items: seq<Item>, key: string)
    requires Accounted(w, p, items) && p.phase == Succeeded && key in p.Keys() && key in w.storage
    ensures exists id | id in w.files ::
              w.files[id] == key && (OutputId(p.job, p.fates) == Some(id) || ErrorId(p.job, p.fates) == Some(id))
  {
    var id :| id in p.created && p.created[id] == key;
    assert id in p.Ids() && id in w.files && w.files[id] == key;
  }

  lemma LeftKey(w: World, p: Call, items: seq<Item>, key: string)
    requires Accounted(w, p, items) && p.Over() && key in p.Keys() && key in w.storage
    ensures p.phase == Succeeded || p.phase == Crashed || (p.phase == GaveUp && key in p.stuck.keys)
  {
  }

  /**
   Once nobody is at it, every object left was there before, or belongs to the attached file of the one
   successful attempt, or could not be deleted, or was left by a crash.
   */
  lemma {:induction false} NoObjectLeaks(s: System, steps: seq<Step>, items: seq<Item>, key: string)
    requires Start(s) && Feasible(s, steps, items) && Quiet(Run(s, steps, items))
    requires key in Run(s, steps, items).world.storage && key !in s.world.storage
    ensures var t := Run(s, steps, items);
            && MadeKey(t, key)
            && var p := t.attempts[t.keyMakers[key]];
               || (p.phase == GaveUp && key in p.stuck.keys)
               || p.phase == Crashed
               || (p.phase == Succeeded && exists id | id in t.world.files ::
                     t.world.files[id] == key && (t.world.job.output == Some(id) || t.world.job.error == Some(id)))
  {
    EveryRunKeeps(s.world, s, steps, items);
    var t := Run(s, steps, items);
    var p := t.attempts[t.keyMakers[key]];
    assert MadeKey(t, key) && Accounted(t.world, p, items);
    LeftKey(t.world, p, items, key);
    if p.phase == Succeeded {
      KeptIsAttached(t.world, p, items, key);
    }
  }

  /** The same for records, which may also be left because the reply of their creation was lost. */
  lemma {:induction false} NoRecordLeaks(s: System, steps: seq<Step>, items: seq<Item>, id: nat)
    requires Start(s) && Feasible(s, steps, items) && Quiet(Run(s, steps, items))
    requires id in Run(s, steps, items).world.files && id !in s.world.files
    ensures var t := Run(s, steps, items);
            && MadeId(t, id)
            && var p := t.attempts[t.idMakers[id]];
               || id in p.lost
               || (p.phase == GaveUp && id in p.stuck.files)
               || p.phase == Crashed
               || (p.phase == Succeeded && (t.world.job.output == Some(id) || t.world.job.error == Some(id)))
  {
    EveryRunKeeps(s.world, s, steps, items);
    var t := Run(s, steps, items);
    assert MadeId(t, id) && Accounted(t.world, t.attempts[t.idMakers[id]], items);
  }
}
