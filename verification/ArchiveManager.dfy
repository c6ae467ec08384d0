// The archive job manager: requests create jobs, workers build ZIP artifacts,
// and cancelling, expiry and shutdown cut in at any point. One event is one
// section under the manager's mutex, one channel operation or one file operation.
module ArchiveManager {
  import opened Wrappers

  type Id = nat
  type Path = nat // name of a temporary file

  datatype Status = Running | Complete | Cancelled | Failed

  datatype Job = Job(status: Status, expires: int, file: Option<Path>)

  // A worker inside build: before os.CreateTemp, and after it.
  datatype Build = Starting | NoTemp | Temp(file: Path)

  datatype Phase = Open | Closing | Draining | Closed

  // making: jobs whose create is about to send on the channel; disk: the files
  // in TempDir, with the job each was made for; leaked: files left there by a
  // failed os.Stat (bookkeeping of the model, like issued).
  datatype State = State(
    jobs: map<Id, Job>,
    cancelled: set<Id>,
    making: set<Id>,
    queue: seq<Id>,
    builds: map<Id, Build>,
    idle: nat,
    disk: map<Path, Id>,
    phase: Phase,
    issued: set<Id>,
    leaked: set<Path>)

  datatype Event =
    | Register(id: Id, expires: int)
    | Send(id: Id)
    | Abandon(id: Id)
    | Take
    | OpenTemp(id: Id, file: Option<Path>)
    | Finish(id: Id, failed: bool, stat: bool)
    | Cancel(id: Id)
    | Cleanup(now: int)
    | CloseChannel
    | CancelAll
    | WorkerReturns
    | RemoveAll

  function Init(workers: nat): State {
    State(map[], {}, {}, [], map[], workers, map[], Open, {}, {})
  }

  function SetStatus(s: State, id: Id, status: Status): map<Id, Job>
    requires id in s.jobs
  {
    s.jobs[id := s.jobs[id].(status := status)]
  }

  function Removed(disk: map<Path, Id>, build: Build): map<Path, Id> {
    if build.Temp? then disk - {build.file} else disk
  }

  function DoRegister(s: State, id: Id, expires: int): Option<State> {
    if s.phase == Open && id !in s.issued then
      Some(s.(jobs := s.jobs[id := Job(Running, expires, None)], making := s.making + {id}, issued := s.issued + {id}))
    else None
  }

  // The select may choose the send although the manager is closed.
  function DoSend(workers: nat, s: State, id: Id): Option<State> {
    if id in s.making && |s.queue| < workers then
      Some(s.(making := s.making - {id}, queue := s.queue + [id]))
    else None
  }

  function DoCancel(s: State, id: Id): State {
    if id in s.jobs && s.jobs[id].status == Running then s.(cancelled := s.cancelled + {id}) else s
  }

  function DoAbandon(s: State, id: Id): Option<State> {
    if id in s.making then Some(DoCancel(s, id).(making := s.making - {id})) else None
  }

  function DoTake(s: State): Option<State> {
    if s.idle > 0 && s.queue != [] then
      Some(s.(idle := s.idle - 1, queue := s.queue[1..], builds := s.builds[s.queue[0] := Starting]))
    else None
  }

  function DoOpenTemp(s: State, id: Id, file: Option<Path>): Option<State> {
    if id in s.builds && s.builds[id] == Starting && (file.Some? ==> file.value !in s.disk) then
      Some(
        if file.None? then s.(builds := s.builds[id := NoTemp])
        else s.(builds := s.builds[id := Temp(file.value)], disk := s.disk[file.value := id]))
    else None
  }

  // The last section of build: failed is err != nil after writeZip and the
  // file's Close, stat tells whether os.Stat succeeded.
  function DoFinish(s: State, id: Id, failed: bool, stat: bool): Option<State> {
    if id in s.builds && s.builds[id] != Starting && (s.builds[id] == NoTemp ==> failed) then
      var b := s.builds[id];
      var t := s.(builds := s.builds - {id}, idle := s.idle + 1);
      Some(
        if id !in s.jobs then t.(disk := Removed(s.disk, b))
        else if id in s.cancelled then t.(jobs := SetStatus(s, id, Cancelled), disk := Removed(s.disk, b))
        else if failed then t.(jobs := SetStatus(s, id, Failed), disk := Removed(s.disk, b))
        else if !stat then t.(jobs := SetStatus(s, id, Failed), leaked := s.leaked + {b.file})
        else t.(jobs := s.jobs[id := s.jobs[id].(status := Complete, file := Some(b.file))]))
    else None
  }

  predicate Expired(job: Job, now: int) {
    now >= job.expires && job.status != Running
  }

  function FileOf(job: Job): set<Path> {
    if job.file.Some? then {job.file.value} else {}
  }

  function FilesOf(jobs: map<Id, Job>, ids: set<Id>): set<Path> {
    set id, f | id in ids && id in jobs && f in FileOf(jobs[id]) :: f
  }

  function ExpiredIds(jobs: map<Id, Job>, now: int): set<Id> {
    set id | id in jobs && Expired(jobs[id], now)
  }

  function Drop(s: State, ids: set<Id>): State {
    s.(jobs := s.jobs - ids, disk := s.disk - FilesOf(s.jobs, ids))
  }

  function Next(workers: nat, s: State, e: Event): Option<State> {
    match e
    case Register(id, expires) => DoRegister(s, id, expires)
    case Send(id) => DoSend(workers, s, id)
    case Abandon(id) => DoAbandon(s, id)
    case Take => DoTake(s)
    case OpenTemp(id, file) => DoOpenTemp(s, id, file)
    case Finish(id, failed, stat) => DoFinish(s, id, failed, stat)
    case Cancel(id) => Some(DoCancel(s, id))
    case Cleanup(now) => Some(Drop(s, ExpiredIds(s.jobs, now)))
    case CloseChannel => if s.phase == Open then Some(s.(phase := Closing)) else None
    case CancelAll =>
      if s.phase == Closing then Some(s.(phase := Draining, cancelled := s.cancelled + s.jobs.Keys)) else None
    case WorkerReturns => if s.phase != Open && s.idle > 0 then Some(s.(idle := s.idle - 1)) else None
    // wg.Wait has returned.
    case RemoveAll =>
      if s.phase == Draining && s.idle == 0 && s.builds == map[] then
        Some(Drop(s, s.jobs.Keys).(phase := Closed))
      else None
  }

  ghost predicate Run(workers: nat, s: State, evs: seq<Event>, s': State)
    decreases |evs|
  {
    if evs == [] then s' == s
    else
      var mid := Next(workers, s, evs[0]);
      mid.Some? && Run(workers, mid.value, evs[1..], s')
  }

  // --- what every step keeps ---

  // The artifact that id answers for.
  function Artifact(s: State, id: Id): Option<Path> {
    if id in s.builds && s.builds[id].Temp? then Some(s.builds[id].file)
    else if id in s.jobs then s.jobs[id].file
    else None
  }

  // A task on its way: exactly one of making, queued and being built.
  predicate Pending(s: State, id: Id) {
    id in s.making || id in s.queue || id in s.builds
  }

  ghost predicate TasksOk(s: State) {
    && (forall id <- s.making :: id !in s.queue && id !in s.builds)
    && (forall id <- s.queue :: id !in s.builds)
    && (forall i, j :: 0 <= i < j < |s.queue| ==> s.queue[i] != s.queue[j])
  }

  // The job of a pending task is there and running; a job has a file exactly
  // when it is complete.
  ghost predicate JobsOk(s: State) {
    && s.jobs.Keys <= s.issued
    && (forall id :: Pending(s, id) ==> id in s.issued)
    && (s.phase != Closed ==> forall id :: Pending(s, id) ==> id in s.jobs && s.jobs[id].status == Running)
    && (forall id <- s.jobs.Keys :: s.jobs[id].status == Complete <==> s.jobs[id].file.Some?)
    && (s.phase == Closed ==> s.jobs == map[] && s.builds == map[])
  }

  ghost predicate DiskOk(s: State) {
    && s.leaked <= s.disk.Keys
    && (forall f <- s.disk.Keys :: f in s.leaked <==> Artifact(s, s.disk[f]) != Some(f))
    && (forall id :: Artifact(s, id).Some? ==> Artifact(s, id).value in s.disk && s.disk[Artifact(s, id).value] == id)
  }

  ghost predicate PoolOk(workers: nat, s: State) {
    && |s.queue| <= workers
    && |s.builds.Keys| + s.idle <= workers
    && (s.phase == Open ==> |s.builds.Keys| + s.idle == workers)
    && (s.phase == Closed ==> s.idle == 0)
  }

  ghost predicate Inv(workers: nat, s: State) {
    TasksOk(s) && JobsOk(s) && DiskOk(s) && PoolOk(workers, s)
  }

  lemma StepKeepsTasks(workers: nat, s: State, e: Event)
    requires TasksOk(s) && JobsOk(s) && Next(workers, s, e).Some?
    ensures TasksOk(Next(workers, s, e).value)
  {
    if e.Take? {
      assert s.queue[0] in s.queue;
      assert forall id <- s.queue[1..] :: id in s.queue;
    } else if e.Register? {
      assert !Pending(s, e.id);
    }
  }

  lemma StepKeepsJobs(workers: nat, s: State, e: Event)
    requires TasksOk(s) && JobsOk(s) && PoolOk(workers, s) && Next(workers, s, e).Some?
    ensures JobsOk(Next(workers, s, e).value)
  {
    var s' := Next(workers, s, e).value;
    forall id | Pending(s', id) ensures Pending(s, id) || (e.Register? && e.id == id) {
      if e.Take? { assert s.queue[0] in s.queue && forall id <- s.queue[1..] :: id in s.queue; }
    }
  }

  // No artifact comes, goes or changes hands.
  lemma SameArtifacts(s: State, s': State)
    requires DiskOk(s) && s'.disk == s.disk && s'.leaked == s.leaked
    requires forall id :: Artifact(s', id) == Artifact(s, id)
    ensures DiskOk(s')
  {
  }

  lemma OpenTempKeepsDisk(s: State, id: Id, file: Option<Path>)
    requires DiskOk(s) && JobsOk(s) && DoOpenTemp(s, id, file).Some?
    ensures DiskOk(DoOpenTemp(s, id, file).value)
  {
    var s' := DoOpenTemp(s, id, file).value;
    assert Pending(s, id);
    assert Artifact(s, id).None?;
    assert forall i :: i != id ==> Artifact(s', i) == Artifact(s, i);
    assert forall f <- s.disk.Keys :: f !in s.leaked ==> s.disk[f] != id;
  }

  lemma FinishKeepsDisk(s: State, id: Id, failed: bool, stat: bool)
    requires DiskOk(s) && JobsOk(s) && DoFinish(s, id, failed, stat).Some?
    ensures DiskOk(DoFinish(s, id, failed, stat).value)
  {
    var s' := DoFinish(s, id, failed, stat).value;
    assert Pending(s, id);
    assert forall i :: i != id ==> Artifact(s', i) == Artifact(s, i);
    if s.builds[id].Temp? {
      var f := s.builds[id].file;
      assert Artifact(s, id) == Some(f);
      assert forall i :: i != id ==> Artifact(s, i) != Some(f);
    }
  }

  lemma DropKeepsDisk(s: State, ids: set<Id>)
    requires DiskOk(s) && JobsOk(s) && ids <= s.jobs.Keys && forall id <- ids :: id !in s.builds
    ensures DiskOk(Drop(s, ids))
  {
    var s' := Drop(s, ids);
    assert forall i :: i !in ids ==> Artifact(s', i) == Artifact(s, i);
    assert forall i :: i in ids ==> Artifact(s', i).None? && Artifact(s, i) == s.jobs[i].file;
    forall f | f in FilesOf(s.jobs, ids) ensures f in s.disk && s.disk[f] in ids && f !in s.leaked {
      var id :| id in ids && f in FileOf(s.jobs[id]);
      assert Artifact(s, id) == Some(f);
    }
    forall f | f in s'.disk ensures f in s'.leaked <==> Artifact(s', s'.disk[f]) != Some(f) {
      var id := s.disk[f];
      assert id in ids && Artifact(s, id) == Some(f) ==> f in FileOf(s.jobs[id]) && f in FilesOf(s.jobs, ids);
    }
  }

  lemma StepKeepsDisk(workers: nat, s: State, e: Event)
    requires TasksOk(s) && JobsOk(s) && DiskOk(s) && Next(workers, s, e).Some?
    ensures DiskOk(Next(workers, s, e).value)
  {
    match e
    case OpenTemp(id, file) => OpenTempKeepsDisk(s, id, file);
    case Finish(id, failed, stat) => FinishKeepsDisk(s, id, failed, stat);
    case Cleanup(now) => ExpiredAreIdle(s, now); DropKeepsDisk(s, ExpiredIds(s.jobs, now));
    case RemoveAll => DropKeepsDisk(s, s.jobs.Keys); SameArtifacts(Drop(s, s.jobs.Keys), Next(workers, s, e).value);
    case Register(id, _) =>
      assert !Pending(s, id);
      SameArtifacts(s, Next(workers, s, e).value);
    case Take =>
      assert s.queue[0] in s.queue && Pending(s, s.queue[0]);
      SameArtifacts(s, Next(workers, s, e).value);
    case _ => SameArtifacts(s, Next(workers, s, e).value);
  }

  // A job that a worker is building is running, so no cleanup takes it.
  lemma ExpiredAreIdle(s: State, now: int)
    requires JobsOk(s)
    ensures forall id <- ExpiredIds(s.jobs, now) :: !Pending(s, id)
  {
  }

  lemma TakeKeepsPool(workers: nat, s: State)
    requires TasksOk(s) && PoolOk(workers, s) && DoTake(s).Some?
    ensures PoolOk(workers, DoTake(s).value)
  {
    assert s.queue[0] in s.queue && s.queue[0] !in s.builds;
    assert DoTake(s).value.builds.Keys == s.builds.Keys + {s.queue[0]};
  }

  lemma BuildKeepsPool(workers: nat, s: State, e: Event)
    requires JobsOk(s) && PoolOk(workers, s) && Next(workers, s, e).Some? && (e.OpenTemp? || e.Finish?)
    ensures PoolOk(workers, Next(workers, s, e).value)
  {
    var s' := Next(workers, s, e).value;
    assert s.builds.Keys == s'.builds.Keys + {e.id};
  }

  lemma StepKeepsPool(workers: nat, s: State, e: Event)
    requires TasksOk(s) && JobsOk(s) && PoolOk(workers, s) && Next(workers, s, e).Some?
    ensures PoolOk(workers, Next(workers, s, e).value)
  {
    if e.Take? {
      TakeKeepsPool(workers, s);
    } else if e.OpenTemp? || e.Finish? {
      BuildKeepsPool(workers, s, e);
    }
  }

  lemma StepKeeps(workers: nat, s: State, e: Event)
    requires Inv(workers, s) && Next(workers, s, e).Some?
    ensures Inv(workers, Next(workers, s, e).value)
  {
    StepKeepsTasks(workers, s, e);
    StepKeepsJobs(workers, s, e);
    StepKeepsDisk(workers, s, e);
    StepKeepsPool(workers, s, e);
  }

  lemma {:induction false} RunKeeps(workers: nat, s: State, evs: seq<Event>, s': State)
    requires Inv(workers, s) && Run(workers, s, evs, s')
    ensures Inv(workers, s')
    decreases |evs|
  {
    if evs != [] {
      StepKeeps(workers, s, evs[0]);
      RunKeeps(workers, Next(workers, s, evs[0]).value, evs[1..], s');
    }
  }

  ghost predicate Reachable(workers: nat, s: State) {
    exists evs :: Run(workers, Init(workers), evs, s)
  }

  lemma ReachableInv(workers: nat, s: State)
    requires Reachable(workers, s)
    ensures Inv(workers, s)
  {
    var evs :| Run(workers, Init(workers), evs, s);
    RunKeeps(workers, Init(workers), evs, s);
  }

  lemma {:induction false} RunThen(workers: nat, s: State, evs: seq<Event>, mid: State, e: Event)
    requires Run(workers, s, evs, mid) && Next(workers, mid, e).Some?
    ensures Run(workers, s, evs + [e], Next(workers, mid, e).value)
    decreases |evs|
  {
    var s' := Next(workers, mid, e).value;
    if evs == [] {
      assert Run(workers, s', [], s') && [e][1..] == [];
    } else {
      RunThen(workers, Next(workers, s, evs[0]).value, evs[1..], mid, e);
      assert (evs + [e])[1..] == evs[1..] + [e];
    }
  }

  lemma ReachableStep(workers: nat, s: State, e: Event)
    requires Reachable(workers, s) && Next(workers, s, e).Some?
    ensures Reachable(workers, Next(workers, s, e).value)
  {
    var evs :| Run(workers, Init(workers), evs, s);
    RunThen(workers, Init(workers), evs, s, e);
  }

  // The job of a running build is never dropped: build always finds it, running.
  lemma BuildFindsItsJob(workers: nat, s: State, id: Id)
    requires Reachable(workers, s) && id in s.builds
    ensures id in s.jobs && s.jobs[id].status == Running
  {
    ReachableInv(workers, s);
    assert Pending(s, id);
  }

  // An artifact on disk belongs to one complete job or to one build in progress,
  // unless os.Stat failed for it; those do belong to a file on disk, one each.
  lemma ArtifactsAreAccountedFor(workers: nat, s: State, f: Path)
    requires Reachable(workers, s) && f in s.disk
    ensures f !in s.leaked <==>
              exists id :: (id in s.jobs && s.jobs[id].status == Complete && s.jobs[id].file == Some(f))
                           || (id in s.builds && s.builds[id] == Temp(f))
    ensures forall i, j :: Artifact(s, i) == Artifact(s, j) == Some(f) ==> i == j
  {
    ReachableInv(workers, s);
    var id := s.disk[f];
    if f !in s.leaked {
      assert Artifact(s, id) == Some(f);
    }
    forall i | (i in s.jobs && s.jobs[i].status == Complete && s.jobs[i].file == Some(f))
               || (i in s.builds && s.builds[i] == Temp(f))
      ensures Artifact(s, i) == Some(f)
    {
      if i in s.builds { assert Pending(s, i); }
    }
  }

  // A download of a complete job finds its artifact on disk.
  lemma CompleteJobHasItsArtifact(workers: nat, s: State, id: Id)
    requires Reachable(workers, s) && id in s.jobs && s.jobs[id].status == Complete
    ensures s.jobs[id].file.Some? && s.jobs[id].file.value in s.disk && s.disk[s.jobs[id].file.value] == id
  {
    ReachableInv(workers, s);
    assert !Pending(s, id);
    assert Artifact(s, id) == s.jobs[id].file;
  }

  // Number of steps of a run in which id's job leaves Running for another status.
  ghost function Departures(workers: nat, s: State, evs: seq<Event>, id: Id): nat
    decreases |evs|
  {
    if evs == [] || Next(workers, s, evs[0]).None? then 0
    else
      var mid := Next(workers, s, evs[0]).value;
      (if id in s.jobs && s.jobs[id].status == Running && id in mid.jobs && mid.jobs[id].status != Running then 1 else 0)
      + Departures(workers, mid, evs[1..], id)
  }

  predicate Settled(s: State, id: Id) {
    id in s.issued && (id in s.jobs ==> s.jobs[id].status != Running)
  }

  lemma StepKeepsSettled(workers: nat, s: State, e: Event, id: Id)
    requires Inv(workers, s) && Next(workers, s, e).Some? && Settled(s, id)
    ensures Settled(Next(workers, s, e).value, id)
    ensures id in Next(workers, s, e).value.jobs ==> id in s.jobs && Next(workers, s, e).value.jobs[id] == s.jobs[id]
  {
    assert e.Finish? && e.id == id ==> Pending(s, id);
  }

  // A settled job keeps its status, file and expiry until it is dropped, and
  // once dropped its id never names a job again.
  lemma {:induction false} SettledIsFinal(workers: nat, s: State, evs: seq<Event>, s': State, id: Id)
    requires Inv(workers, s) && Run(workers, s, evs, s') && Settled(s, id)
    ensures Settled(s', id)
    ensures id in s'.jobs ==> id in s.jobs && s'.jobs[id] == s.jobs[id]
    ensures Departures(workers, s, evs, id) == 0
    decreases |evs|
  {
    if evs != [] {
      StepKeeps(workers, s, evs[0]);
      StepKeepsSettled(workers, s, evs[0], id);
      SettledIsFinal(workers, Next(workers, s, evs[0]).value, evs[1..], s', id);
    }
  }

  lemma {:induction false} LeavesRunningOnce(workers: nat, s: State, evs: seq<Event>, s': State, id: Id)
    requires Inv(workers, s) && Run(workers, s, evs, s')
    ensures Departures(workers, s, evs, id) <= 1
    decreases |evs|
  {
    if evs != [] {
      var mid := Next(workers, s, evs[0]).value;
      StepKeeps(workers, s, evs[0]);
      if Settled(mid, id) {
        SettledIsFinal(workers, mid, evs[1..], s', id);
      } else {
        LeavesRunningOnce(workers, mid, evs[1..], s', id);
      }
    }
  }

  // A job cancelled while running never completes.
  lemma StepKeepsCancelled(workers: nat, s: State, e: Event, id: Id)
    requires Inv(workers, s) && Next(workers, s, e).Some? && id in s.cancelled && id in s.issued
    requires id in s.jobs ==> s.jobs[id].status == Running || s.jobs[id].status == Cancelled
    ensures var s' := Next(workers, s, e).value;
            && id in s'.cancelled && id in s'.issued
            && (id in s'.jobs ==> s'.jobs[id].status == Running || s'.jobs[id].status == Cancelled)
  {
  }

  lemma {:induction false} CancelledNeverCompletes(workers: nat, s: State, evs: seq<Event>, s': State, id: Id)
    requires Inv(workers, s) && Run(workers, s, evs, s') && id in s.cancelled && id in s.issued
    requires id in s.jobs ==> s.jobs[id].status == Running || s.jobs[id].status == Cancelled
    ensures id in s'.jobs ==> s'.jobs[id].status == Running || s'.jobs[id].status == Cancelled
    decreases |evs|
  {
    if evs != [] {
      StepKeeps(workers, s, evs[0]);
      StepKeepsCancelled(workers, s, evs[0], id);
      CancelledNeverCompletes(workers, Next(workers, s, evs[0]).value, evs[1..], s', id);
    }
  }

  // --- shutdown ---

  lemma StepAfterClose(workers: nat, s: State, e: Event)
    requires Inv(workers, s) && s.phase == Closed && Next(workers, s, e).Some?
    ensures var s' := Next(workers, s, e).value; s'.phase == Closed && s'.disk == s.disk && s'.leaked == s.leaked
  {
    assert s.disk - FilesOf(map[], {}) == s.disk;
    assert ExpiredIds(s.jobs, if e.Cleanup? then e.now else 0) == {};
  }

  // Once Close has returned, the only files left are those a failed os.Stat
  // left behind, no job is known, and nothing is ever added or removed again.
  lemma {:induction false} NothingLeftAfterClose(workers: nat, s: State, evs: seq<Event>, s': State)
    requires Reachable(workers, s) && s.phase == Closed && Run(workers, s, evs, s')
    ensures s'.phase == Closed && s'.jobs == map[] && s'.builds == map[]
    ensures s'.disk.Keys == s'.leaked && s'.disk == s.disk
    decreases |evs|
  {
    ReachableInv(workers, s);
    if evs == [] {
      forall f <- s.disk.Keys ensures f in s.leaked {
        assert Artifact(s, s.disk[f]).None?;
      }
    } else {
      ReachableStep(workers, s, evs[0]);
      StepAfterClose(workers, s, evs[0]);
      NothingLeftAfterClose(workers, Next(workers, s, evs[0]).value, evs[1..], s');
    }
  }

  // A step leaks a file exactly when it ends a successful, uncancelled build
  // whose os.Stat fails.
  predicate Leaks(s: State, e: Event) {
    e.Finish? && !e.failed && !e.stat && e.id !in s.cancelled
  }

  ghost predicate NeverLeaks(workers: nat, s: State, evs: seq<Event>)
    decreases |evs|
  {
    evs == []
    || (&& !Leaks(s, evs[0]) && Next(workers, s, evs[0]).Some?
        && NeverLeaks(workers, Next(workers, s, evs[0]).value, evs[1..]))
  }

  lemma StepLeaks(workers: nat, s: State, e: Event)
    requires Inv(workers, s) && Next(workers, s, e).Some?
    ensures s.leaked <= Next(workers, s, e).value.leaked
    ensures Leaks(s, e) <==> s.leaked < Next(workers, s, e).value.leaked
  {
    if e.Finish? {
      assert Pending(s, e.id);
      if s.builds[e.id].Temp? {
        var f := s.builds[e.id].file;
        assert Artifact(s, e.id) == Some(f) && f !in s.leaked;
        assert Leaks(s, e) ==> f in Next(workers, s, e).value.leaked;
      }
    }
  }

  lemma {:induction false} LeakFreeIff(workers: nat, s: State, evs: seq<Event>, s': State)
    requires Inv(workers, s) && Run(workers, s, evs, s')
    ensures s.leaked <= s'.leaked
    ensures s'.leaked == s.leaked <==> NeverLeaks(workers, s, evs)
    decreases |evs|
  {
    if evs != [] {
      StepKeeps(workers, s, evs[0]);
      StepLeaks(workers, s, evs[0]);
      LeakFreeIff(workers, Next(workers, s, evs[0]).value, evs[1..], s');
    }
  }

  // So Close leaves the temporary directory empty exactly when no build of the
  // whole run was settled through the os.Stat error branch.
  lemma CloseEmptiesTheDisk(workers: nat, evs: seq<Event>, s: State)
    requires Run(workers, Init(workers), evs, s) && s.phase == Closed
    ensures s.disk == map[] <==> NeverLeaks(workers, Init(workers), evs)
  {
    assert Reachable(workers, s);
    NothingLeftAfterClose(workers, s, [], s);
    LeakFreeIff(workers, Init(workers), evs, s);
    assert s.disk == map[] <==> s.disk.Keys == {};
  }

  // A build that works but for its os.Stat.
  function LeakingRun(): seq<Event> {
    [Register(1, 0), Send(1), Take, OpenTemp(1, Some(5)), Finish(1, false, false)]
  }

  lemma LeakIsReachable(workers: nat)
    requires workers > 0
    ensures exists s :: Run(workers, Init(workers), LeakingRun(), s) && s.leaked == {5} && 5 in s.disk && !Pending(s, 1)
  {
    var evs := LeakingRun();
    var s1 := DoRegister(Init(workers), 1, 0).value;
    var s2 := DoSend(workers, s1, 1).value;
    var s3 := DoTake(s2).value;
    var s4 := DoOpenTemp(s3, 1, Some(5)).value;
    var s5 := DoFinish(s4, 1, false, false).value;
    RunBack(workers, s4, evs, 4, s5);
    RunBack(workers, s3, evs, 3, s5);
    RunBack(workers, s2, evs, 2, s5);
    RunBack(workers, s1, evs, 1, s5);
    RunBack(workers, Init(workers), evs, 0, s5);
    assert evs[0..] == evs;
    assert s5.leaked == {5} && 5 in s5.disk;
  }

  lemma RunBack(workers: nat, s: State, evs: seq<Event>, i: nat, s': State)
    requires i < |evs| && Next(workers, s, evs[i]).Some? && Run(workers, Next(workers, s, evs[i]).value, evs[i + 1..], s')
    ensures Run(workers, s, evs[i..], s')
  {
    assert evs[i..][0] == evs[i] && evs[i..][1..] == evs[i + 1..];
  }

  // --- jobs that nothing will ever settle ---

  // A create that gave up between registering and sending leaves a running job
  // behind that no worker will see.
  predicate Stranded(s: State, id: Id) {
    id in s.jobs && s.jobs[id].status == Running && !Pending(s, id)
  }

  lemma AbandonStrands(workers: nat, s: State, id: Id)
    requires Inv(workers, s) && s.phase != Closed && DoAbandon(s, id).Some?
    ensures Stranded(DoAbandon(s, id).value, id)
  {
    assert Pending(s, id);
  }

  // Neither Cancel nor Cleanup, at any time, removes it; only Close does.
  lemma {:induction false} StrandedStays(workers: nat, s: State, evs: seq<Event>, s': State, id: Id)
    requires Reachable(workers, s) && Run(workers, s, evs, s') && Stranded(s, id) && s'.phase != Closed
    ensures Stranded(s', id)
    decreases |evs|
  {
    if evs != [] {
      var mid := Next(workers, s, evs[0]).value;
      ReachableInv(workers, s);
      ReachableStep(workers, s, evs[0]);
      if mid.phase == Closed {
        NothingLeftAfterClose(workers, mid, evs[1..], s');
        assert false;
      }
      StepKeepsStranded(workers, s, evs[0], id);
      StrandedStays(workers, mid, evs[1..], s', id);
    }
  }

  lemma StepKeepsStranded(workers: nat, s: State, e: Event, id: Id)
    requires Inv(workers, s) && Next(workers, s, e).Some? && Stranded(s, id) && Next(workers, s, e).value.phase != Closed
    ensures Stranded(Next(workers, s, e).value, id)
  {
    if e.Take? {
      assert s.queue[0] in s.queue && forall i <- s.queue[1..] :: i in s.queue;
    }
  }
}
