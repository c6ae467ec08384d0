// The leased MD5 work queue: claims carry no token, leases expire, and files and
// their tasks may disappear under a worker.
module Md5Queue {
  import opened Wrappers
  import opened Bytes

  type FileId = nat
  type Key = nat
  type Actor = nat

  // md5_status of a files row. 'computing' is admitted by its CHECK and never written.
  datatype Md5Status = Disabled | Awaiting | Ready | Failed

  datatype File = File(key: Key, deleting: bool, status: Md5Status, digest: string)

  datatype TaskStatus = Pending | Computing | Complete | GaveUp

  datatype Task = Task(status: TaskStatus, attempts: nat, maxAttempts: nat, available: int, claimed: Option<int>)

  // A worker after its claim: before FileByID, before hashing, before recording.
  datatype Progress =
    | Claimed(fid: FileId)
    | Reading(fid: FileId, key: Key)
    | Hashed(fid: FileId, key: Key, digest: string)

  // contents: the bytes of every object ever published, which never change.
  datatype State = State(
    files: map<FileId, File>,
    tasks: map<FileId, Task>,
    contents: map<Key, Data>,
    workers: map<Actor, Progress>,
    now: int)

  datatype Event =
    | Tick(now: int)
    | Insert(fid: FileId, key: Key, bytes: Data, enabled: bool)
    | Tombstone(fid: FileId)
    | Delete(fid: FileId)
    | Claim(w: Actor, fid: FileId)
    | ReadFile(w: Actor)
    | HashObject(w: Actor)
    | CompleteTask(w: Actor)
    | FailTask(w: Actor, fid: FileId)
    | Quit(w: Actor)
    | Requeue(ids: set<FileId>, staleBefore: int)

  type Md5 = Data -> string

  function Init(): State {
    State(map[], map[], map[], map[], 0)
  }

  predicate Due(s: State, fid: FileId) {
    fid in s.tasks && s.tasks[fid].status == Pending && s.tasks[fid].available <= s.now
  }

  predicate Before(s: State, f: FileId, g: FileId)
    requires f in s.tasks && g in s.tasks
  {
    s.tasks[f].available < s.tasks[g].available || (s.tasks[f].available == s.tasks[g].available && f <= g)
  }

  // The row the claim's subquery selects: ORDER BY available_at, file_id LIMIT 1.
  predicate IsHead(s: State, fid: FileId) {
    Due(s, fid) && forall g <- s.tasks.Keys :: Due(s, g) ==> Before(s, fid, g)
  }

  function DoInsert(s: State, fid: FileId, key: Key, bytes: Data, enabled: bool): Option<State> {
    if fid !in s.files && key !in s.contents then
      Some(s.(
        files := s.files[fid := File(key, false, if enabled then Awaiting else Disabled, "")],
        tasks := if enabled then s.tasks[fid := Task(Pending, 0, 3, s.now, None)] else s.tasks,
        contents := s.contents[key := bytes]))
    else None
  }

  // The CHECK attempts <= max_attempts rejects a claim that would exceed it.
  function DoClaim(s: State, w: Actor, fid: FileId): Option<State> {
    if w !in s.workers && IsHead(s, fid) && s.tasks[fid].attempts < s.tasks[fid].maxAttempts then
      var t := s.tasks[fid];
      Some(s.(
        tasks := s.tasks[fid := t.(status := Computing, attempts := t.attempts + 1, claimed := Some(s.now))],
        workers := s.workers[w := Claimed(fid)]))
    else None
  }

  // FileByID hides tombstones; a missing file ends the work without a trace.
  function DoReadFile(s: State, w: Actor): Option<State> {
    if w in s.workers && s.workers[w].Claimed? then
      var fid := s.workers[w].fid;
      if fid in s.files && !s.files[fid].deleting then
        Some(s.(workers := s.workers[w := Reading(fid, s.files[fid].key)]))
      else Some(s.(workers := s.workers - {w}))
    else None
  }

  function DoHashObject(md5: Md5, s: State, w: Actor): Option<State> {
    if w in s.workers && s.workers[w].Reading? && s.workers[w].key in s.contents then
      var p := s.workers[w];
      Some(s.(workers := s.workers[w := Hashed(p.fid, p.key, md5(s.contents[p.key]))]))
    else None
  }

  // Both updates are guarded by status = 'computing' alone, whoever claimed it.
  function DoComplete(s: State, w: Actor): Option<State> {
    if w in s.workers && s.workers[w].Hashed? then
      var p := s.workers[w];
      var t := s.(workers := s.workers - {w});
      if p.fid in s.tasks && s.tasks[p.fid].status == Computing && p.fid in s.files then
        Some(t.(
          tasks := s.tasks[p.fid := s.tasks[p.fid].(status := Complete)],
          files := s.files[p.fid := s.files[p.fid].(status := Ready, digest := p.digest)]))
      else Some(t)
    else None
  }

  function DoFail(s: State, w: Actor, fid: FileId): Option<State> {
    if w in s.workers && s.workers[w].fid == fid then
      var t := s.(workers := s.workers - {w});
      if fid in s.tasks && s.tasks[fid].status == Computing && fid in s.files then
        var over := s.tasks[fid].attempts >= s.tasks[fid].maxAttempts;
        Some(t.(
          tasks := s.tasks[fid := s.tasks[fid].(status := if over then GaveUp else Pending, available := s.now, claimed := None)],
          files := s.files[fid := s.files[fid].(status := if over then Failed else Awaiting)]))
      else Some(t)
    else None
  }

  predicate Stale(s: State, fid: FileId, staleBefore: int) {
    fid in s.tasks && s.tasks[fid].status == Computing && s.tasks[fid].claimed.Some? && s.tasks[fid].claimed.value <= staleBefore
  }

  function Released(tasks: map<FileId, Task>, now: int, ids: set<FileId>): map<FileId, Task> {
    map f | f in tasks ::
      if f in ids then tasks[f].(status := Pending, claimed := None, available := now) else tasks[f]
  }

  function Next(md5: Md5, s: State, e: Event): Option<State> {
    match e
    case Tick(now) => if s.now <= now then Some(s.(now := now)) else None
    case Insert(fid, key, bytes, enabled) => DoInsert(s, fid, key, bytes, enabled)
    case Tombstone(fid) =>
      if fid in s.files then Some(s.(files := s.files[fid := s.files[fid].(deleting := true)])) else None
    case Delete(fid) =>
      if fid in s.files && s.files[fid].deleting then Some(s.(files := s.files - {fid}, tasks := s.tasks - {fid})) else None
    case Claim(w, fid) => DoClaim(s, w, fid)
    case ReadFile(w) => DoReadFile(s, w)
    case HashObject(w) => DoHashObject(md5, s, w)
    case CompleteTask(w) => DoComplete(s, w)
    case FailTask(w, fid) => DoFail(s, w, fid)
    case Quit(w) => if w in s.workers then Some(s.(workers := s.workers - {w})) else None
    case Requeue(ids, staleBefore) =>
      if forall f <- ids :: Stale(s, f, staleBefore) then Some(s.(tasks := Released(s.tasks, s.now, ids))) else None
  }

  ghost predicate Run(md5: Md5, s: State, evs: seq<Event>, s': State)
    decreases |evs|
  {
    if evs == [] then s' == s
    else
      var mid := Next(md5, s, evs[0]);
      mid.Some? && Run(md5, mid.value, evs[1..], s')
  }

  // --- file and task agree ---

  ghost predicate Agree(s: State, fid: FileId)
    requires fid in s.files
  {
    match s.files[fid].status
    case Disabled => fid !in s.tasks
    case Awaiting => fid in s.tasks && (s.tasks[fid].status == Pending || s.tasks[fid].status == Computing)
    case Ready => fid in s.tasks && s.tasks[fid].status == Complete
    case Failed => fid in s.tasks && s.tasks[fid].status == GaveUp
  }

  ghost predicate TaskOk(t: Task) {
    t.attempts <= t.maxAttempts && (t.status == Computing <==> t.claimed.Some? && t.status != Complete)
    && (t.status == Computing ==> t.attempts > 0) && (t.status == GaveUp ==> t.attempts == t.maxAttempts)
  }

  ghost predicate QueueOk(s: State) {
    && s.tasks.Keys <= s.files.Keys
    && (forall fid <- s.files.Keys :: Agree(s, fid) && s.files[fid].key in s.contents)
    && (forall fid <- s.tasks.Keys :: TaskOk(s.tasks[fid]))
    && (forall f <- s.files.Keys, g <- s.files.Keys :: f != g ==> s.files[f].key != s.files[g].key)
  }

  // One file and its task change, the rest of both tables does not.
  lemma OneTaskKeepsQueue(s: State, s': State, fid: FileId)
    requires QueueOk(s) && fid in s.files && fid in s.tasks
    requires s'.contents == s.contents && fid in s'.files && fid in s'.tasks
    requires s'.files == s.files[fid := s'.files[fid]] && s'.tasks == s.tasks[fid := s'.tasks[fid]]
    requires s'.files[fid].key == s.files[fid].key && Agree(s', fid) && TaskOk(s'.tasks[fid])
    ensures QueueOk(s')
  {
    forall g <- s'.files.Keys ensures Agree(s', g) && s'.files[g].key in s'.contents {
      assert g in s.files && Agree(s, g);
    }
  }

  lemma InsertKeepsQueue(s: State, fid: FileId, key: Key, bytes: Data, enabled: bool)
    requires QueueOk(s) && DoInsert(s, fid, key, bytes, enabled).Some?
    ensures QueueOk(DoInsert(s, fid, key, bytes, enabled).value)
  {
    var s' := DoInsert(s, fid, key, bytes, enabled).value;
    forall g <- s'.files.Keys ensures Agree(s', g) && s'.files[g].key in s'.contents {
      assert g in s.files ==> Agree(s, g);
    }
  }

  lemma FilesStepKeepsQueue(md5: Md5, s: State, e: Event)
    requires QueueOk(s) && Next(md5, s, e).Some? && (e.Tombstone? || e.Delete?)
    ensures QueueOk(Next(md5, s, e).value)
  {
    var s' := Next(md5, s, e).value;
    forall g <- s'.files.Keys ensures Agree(s', g) && s'.files[g].key in s'.contents {
      assert g in s.files && Agree(s, g);
    }
  }

  lemma RequeueKeepsQueue(s: State, ids: set<FileId>, staleBefore: int)
    requires QueueOk(s) && forall f <- ids :: Stale(s, f, staleBefore)
    ensures QueueOk(s.(tasks := Released(s.tasks, s.now, ids)))
  {
    var s' := s.(tasks := Released(s.tasks, s.now, ids));
    forall g <- s'.files.Keys ensures Agree(s', g) {
      assert Agree(s, g);
    }
  }

  lemma StepKeepsQueue(md5: Md5, s: State, e: Event)
    requires QueueOk(s) && Next(md5, s, e).Some?
    ensures QueueOk(Next(md5, s, e).value)
  {
    match e
    case Insert(fid, key, bytes, enabled) => InsertKeepsQueue(s, fid, key, bytes, enabled);
    case Tombstone(_) => FilesStepKeepsQueue(md5, s, e);
    case Delete(_) => FilesStepKeepsQueue(md5, s, e);
    case Requeue(ids, staleBefore) => RequeueKeepsQueue(s, ids, staleBefore);
    case Claim(_, fid) =>
      assert Agree(s, fid) && TaskOk(s.tasks[fid]);
      OneTaskKeepsQueue(s, Next(md5, s, e).value, fid);
    case CompleteTask(w) =>
      var fid := s.workers[w].fid;
      if fid in s.tasks && s.tasks[fid].status == Computing {
        assert Agree(s, fid) && TaskOk(s.tasks[fid]);
        OneTaskKeepsQueue(s, Next(md5, s, e).value, fid);
      } else {
        SameTablesKeepQueue(s, Next(md5, s, e).value);
      }
    case FailTask(_, fid) =>
      if fid in s.tasks && s.tasks[fid].status == Computing {
        assert Agree(s, fid) && TaskOk(s.tasks[fid]);
        OneTaskKeepsQueue(s, Next(md5, s, e).value, fid);
      } else {
        SameTablesKeepQueue(s, Next(md5, s, e).value);
      }
    case _ => SameTablesKeepQueue(s, Next(md5, s, e).value);
  }

  lemma SameTablesKeepQueue(s: State, s': State)
    requires QueueOk(s) && s'.files == s.files && s'.tasks == s.tasks && s'.contents == s.contents
    ensures QueueOk(s')
  {
    forall fid <- s'.files.Keys ensures Agree(s', fid) {
      assert Agree(s, fid);
    }
  }

  lemma {:induction false} RunKeepsQueue(md5: Md5, s: State, evs: seq<Event>, s': State)
    requires QueueOk(s) && Run(md5, s, evs, s')
    ensures QueueOk(s')
    decreases |evs|
  {
    if evs != [] {
      StepKeepsQueue(md5, s, evs[0]);
      RunKeepsQueue(md5, Next(md5, s, evs[0]).value, evs[1..], s');
    }
  }

  // In every interleaving, expired leases included: disabled means no task,
  // ready a complete one, failed one that gave up, awaiting any other.
  lemma StatusesAgree(md5: Md5, evs: seq<Event>, s: State, fid: FileId)
    requires Run(md5, Init(), evs, s) && fid in s.files
    ensures s.files[fid].status == Disabled <==> fid !in s.tasks
    ensures s.files[fid].status == Ready <==> fid in s.tasks && s.tasks[fid].status == Complete
    ensures s.files[fid].status == Failed <==> fid in s.tasks && s.tasks[fid].status == GaveUp
    ensures s.files[fid].status == Awaiting <==> fid in s.tasks && s.tasks[fid].status in {Pending, Computing}
  {
    RunKeepsQueue(md5, Init(), evs, s);
    assert Agree(s, fid);
  }

  // A failure that finds its task computing gives it up exactly at its maximum,
  // and its file with it; before that it puts it back, due at once.
  lemma FailureGivesUpAtMaximum(md5: Md5, s: State, w: Actor, fid: FileId)
    requires QueueOk(s) && w in s.workers && s.workers[w].fid == fid
    requires fid in s.tasks && s.tasks[fid].status == Computing
    ensures Next(md5, s, FailTask(w, fid)).Some?
    ensures var s', t := Next(md5, s, FailTask(w, fid)).value, s.tasks[fid];
            && fid in s'.tasks && fid in s'.files && s'.tasks[fid].attempts == t.attempts
            && (t.attempts == t.maxAttempts ==> s'.tasks[fid].status == GaveUp && s'.files[fid].status == Failed)
            && (t.attempts < t.maxAttempts ==> Due(s', fid) && s'.files[fid].status == Awaiting)
  {
    assert TaskOk(s.tasks[fid]);
  }

  // In every run a task that is given up has used all its attempts.
  lemma GivenUpHasUsedItsAttempts(md5: Md5, evs: seq<Event>, s: State, fid: FileId)
    requires Run(md5, Init(), evs, s) && fid in s.tasks && s.tasks[fid].status == GaveUp
    ensures s.tasks[fid].attempts == s.tasks[fid].maxAttempts
  {
    RunKeepsQueue(md5, Init(), evs, s);
    assert TaskOk(s.tasks[fid]);
  }

  // --- work is bounded ---

  function Measure(t: Task): int {
    2 * (t.maxAttempts - t.attempts) + if t.status == Computing then 1 else 0
  }

  // Each statement that changes a task's status uses up some of its measure.
  lemma MeasureDecreases(md5: Md5, s: State, e: Event, fid: FileId)
    requires QueueOk(s) && Next(md5, s, e).Some? && fid in s.tasks && fid in Next(md5, s, e).value.tasks
    ensures var t, t' := s.tasks[fid], Next(md5, s, e).value.tasks[fid];
            && (t' != t ==> Measure(t') < Measure(t))
            && 0 <= Measure(t') && t'.maxAttempts == t.maxAttempts
            && t'.attempts == t.attempts + (if e.Claim? && e.fid == fid then 1 else 0)
  {
    StepKeepsQueue(md5, s, e);
    assert TaskOk(s.tasks[fid]);
  }

  function Claims(evs: seq<Event>, fid: FileId): nat {
    if evs == [] then 0 else (if evs[0].Claim? && evs[0].fid == fid then 1 else 0) + Claims(evs[1..], fid)
  }

  predicate NotReinserted(evs: seq<Event>, fid: FileId) {
    forall e <- evs :: e.Insert? ==> e.fid != fid
  }

  function ClaimsLeft(s: State, fid: FileId): int {
    if fid in s.tasks then s.tasks[fid].maxAttempts - s.tasks[fid].attempts else 0
  }

  lemma ClaimUsesOne(md5: Md5, s: State, e: Event, fid: FileId)
    requires QueueOk(s) && Next(md5, s, e).Some? && !(e.Insert? && e.fid == fid)
    ensures ClaimsLeft(Next(md5, s, e).value, fid) + Claims([e], fid) <= ClaimsLeft(s, fid)
  {
    assert Claims([e], fid) == (if e.Claim? && e.fid == fid then 1 else 0) + Claims([], fid);
    if fid in s.tasks {
      assert TaskOk(s.tasks[fid]);
      if fid in Next(md5, s, e).value.tasks {
        MeasureDecreases(md5, s, e, fid);
      }
    }
  }

  lemma {:induction false} ClaimsAreBounded(md5: Md5, s: State, evs: seq<Event>, s': State, fid: FileId)
    requires QueueOk(s) && Run(md5, s, evs, s') && NotReinserted(evs, fid)
    ensures 0 <= ClaimsLeft(s', fid)
    ensures Claims(evs, fid) + ClaimsLeft(s', fid) <= ClaimsLeft(s, fid)
    decreases |evs|
  {
    if evs == [] {
      if fid in s.tasks { assert TaskOk(s.tasks[fid]); }
    } else {
      StepKeepsQueue(md5, s, evs[0]);
      ClaimUsesOne(md5, s, evs[0], fid);
      ClaimsAreBounded(md5, Next(md5, s, evs[0]).value, evs[1..], s', fid);
      assert Claims([evs[0]], fid) == (if evs[0].Claim? && evs[0].fid == fid then 1 else 0) + Claims([], fid);
    }
  }

  predicate GivesBack(e: Event, fid: FileId) {
    (e.FailTask? && e.fid == fid) || (e.Requeue? && fid in e.ids)
  }

  lemma OnlyGivingBackMakesPending(md5: Md5, s: State, e: Event, fid: FileId)
    requires Next(md5, s, e).Some? && !GivesBack(e, fid) && !(e.Insert? && e.fid == fid)
    requires fid in s.tasks ==> s.tasks[fid].status != Pending
    ensures fid in Next(md5, s, e).value.tasks ==> Next(md5, s, e).value.tasks[fid].status != Pending
  {
  }

  // A claim needs a pending task and leaves it computing: two claims of one task
  // have a fail or a requeue between them.
  lemma {:induction false} ClaimsAreSeparated(md5: Md5, s: State, evs: seq<Event>, s': State, fid: FileId, w: Actor)
    requires Run(md5, s, evs, s') && NotReinserted(evs, fid)
    requires fid in s.tasks ==> s.tasks[fid].status != Pending
    requires Next(md5, s', Claim(w, fid)).Some?
    ensures exists e <- evs :: GivesBack(e, fid)
    decreases |evs|
  {
    if evs != [] && !GivesBack(evs[0], fid) {
      OnlyGivingBackMakesPending(md5, s, evs[0], fid);
      ClaimsAreSeparated(md5, Next(md5, s, evs[0]).value, evs[1..], s', fid, w);
      var e :| e in evs[1..] && GivesBack(e, fid);
      assert e in evs;
    } else if evs != [] {
      assert evs[0] in evs;
    }
  }

  // A requeue does not look at attempts. A due task that is at its maximum and
  // first in line makes every claim fail, whatever else is due.
  lemma StuckHeadBlocksEveryClaim(md5: Md5, s: State, fid: FileId)
    requires IsHead(s, fid)
    ensures (exists w, g :: Next(md5, s, Claim(w, g)).Some?) <==> s.tasks[fid].attempts < s.tasks[fid].maxAttempts
  {
    var w := AboveAll(s.workers.Keys);
    assert Next(md5, s, Claim(w, fid)).Some? <==> s.tasks[fid].attempts < s.tasks[fid].maxAttempts;
    forall v, g | Next(md5, s, Claim(v, g)).Some? ensures g == fid {
      assert Before(s, fid, g) && Before(s, g, fid);
    }
  }

  // Three workers in turn claim the only task and die; their leases expire.
  function Deaths(n: nat): seq<Event> {
    if n == 0 then [] else [Claim(0, 1), Quit(0), Requeue({1}, 0)] + Deaths(n - 1)
  }

  function OneTask(bytes: Data, attempts: nat): State {
    State(map[1 := File(10, false, Awaiting, "")], map[1 := Task(Pending, attempts, 3, 0, None)], map[10 := bytes], map[], 0)
  }

  lemma OneDeath(md5: Md5, bytes: Data, attempts: nat)
    requires attempts < 3
    ensures Run(md5, OneTask(bytes, attempts), Deaths(1), OneTask(bytes, attempts + 1))
  {
    var evs := [Claim(0, 1), Quit(0), Requeue({1}, 0)];
    assert Deaths(1) == evs + Deaths(0) == evs;
    var s0, s3 := OneTask(bytes, attempts), OneTask(bytes, attempts + 1);
    assert IsHead(s0, 1);
    var s1 := Next(md5, s0, evs[0]).value;
    var s2 := Next(md5, s1, evs[1]).value;
    assert Stale(s2, 1, 0) && Next(md5, s2, evs[2]).value == s3;
    RunBack(md5, s2, evs, 2, s3);
    RunBack(md5, s1, evs, 1, s3);
    RunBack(md5, s0, evs, 0, s3);
    assert evs[0..] == evs;
  }

  lemma {:induction false} SomeDeaths(md5: Md5, bytes: Data, attempts: nat, n: nat)
    requires attempts + n <= 3
    ensures Run(md5, OneTask(bytes, attempts), Deaths(n), OneTask(bytes, attempts + n))
    decreases n
  {
    if n > 0 {
      OneDeath(md5, bytes, attempts);
      SomeDeaths(md5, bytes, attempts + 1, n - 1);
      RunAppend(md5, OneTask(bytes, attempts), Deaths(1), OneTask(bytes, attempts + 1), Deaths(n - 1), OneTask(bytes, attempts + n));
      assert Deaths(1) == [Claim(0, 1), Quit(0), Requeue({1}, 0)] + Deaths(0);
      assert Deaths(1) + Deaths(n - 1) == Deaths(n);
    }
  }

  lemma {:induction false} RunAppend(md5: Md5, s: State, evs: seq<Event>, mid: State, more: seq<Event>, s': State)
    requires Run(md5, s, evs, mid) && Run(md5, mid, more, s')
    ensures Run(md5, s, evs + more, s')
    decreases |evs|
  {
    if evs == [] {
      assert evs + more == more;
    } else {
      RunAppend(md5, Next(md5, s, evs[0]).value, evs[1..], mid, more, s');
      assert (evs + more)[1..] == evs[1..] + more;
    }
  }

  // Then the task is due, first in line and at its maximum: nobody can claim
  // anything any more.
  lemma StuckHeadIsReachable(md5: Md5, bytes: Data)
    ensures Run(md5, Init(), [Insert(1, 10, bytes, true)] + Deaths(3), OneTask(bytes, 3))
    ensures IsHead(OneTask(bytes, 3), 1)
    ensures forall w, g :: Next(md5, OneTask(bytes, 3), Claim(w, g)).None?
  {
    var evs := [Insert(1, 10, bytes, true)] + Deaths(3);
    SomeDeaths(md5, bytes, 0, 3);
    assert Next(md5, Init(), evs[0]).value == OneTask(bytes, 0);
    assert evs[1..] == Deaths(3);
    StuckHeadBlocksEveryClaim(md5, OneTask(bytes, 3), 1);
  }

  lemma AboveAll(xs: set<nat>) returns (n: nat)
    ensures n !in xs && forall x <- xs :: x < n
  {
    n := 0;
    if xs != {} {
      var x :| x in xs;
      var m := AboveAll(xs - {x});
      n := if x < m then m else x + 1;
      assert forall y <- xs :: y == x || y in xs - {x};
    }
  }

  // --- recorded digests ---

  ghost predicate WorkerOk(md5: Md5, s: State, p: Progress) {
    match p
    case Claimed(_) => true
    case Reading(_, key) => key in s.contents
    case Hashed(_, key, digest) => key in s.contents && digest == md5(s.contents[key])
  }

  // The row a worker is about to write is the row whose object it opened.
  predicate SameFile(s: State, p: Progress) {
    p.Claimed? || (p.fid in s.files ==> s.files[p.fid].key == p.key)
  }

  predicate DigestRight(md5: Md5, s: State, fid: FileId)
    requires fid in s.files
  {
    s.files[fid].status == Ready ==> s.files[fid].key in s.contents && s.files[fid].digest == md5(s.contents[s.files[fid].key])
  }

  ghost predicate DigestsOk(md5: Md5, s: State) {
    && QueueOk(s)
    && (forall w <- s.workers.Keys :: WorkerOk(md5, s, s.workers[w]) && SameFile(s, s.workers[w]))
    && (forall fid <- s.files.Keys :: DigestRight(md5, s, fid))
  }

  // No worker is still at work for an earlier file of this id.
  predicate Unheld(s: State, fid: FileId) {
    forall w <- s.workers.Keys :: s.workers[w].fid != fid
  }

  // Every insertion of the run takes an id that no worker holds.
  ghost predicate FreshIds(md5: Md5, s: State, evs: seq<Event>)
    decreases |evs|
  {
    evs == []
    || ((evs[0].Insert? ==> Unheld(s, evs[0].fid))
        && Next(md5, s, evs[0]).Some? && FreshIds(md5, Next(md5, s, evs[0]).value, evs[1..]))
  }

  lemma StepKeepsWorkers(md5: Md5, s: State, e: Event, w: Actor)
    requires DigestsOk(md5, s) && Next(md5, s, e).Some? && (e.Insert? ==> Unheld(s, e.fid))
    requires w in Next(md5, s, e).value.workers
    ensures var s' := Next(md5, s, e).value; WorkerOk(md5, s', s'.workers[w]) && SameFile(s', s'.workers[w])
  {
    assert w in s.workers ==> WorkerOk(md5, s, s.workers[w]) && SameFile(s, s.workers[w]);
    assert e.ReadFile? && e.w == w && s.workers[w].fid in s.files ==> Agree(s, s.workers[w].fid);
  }

  lemma StepKeepsDigest(md5: Md5, s: State, e: Event, fid: FileId)
    requires DigestsOk(md5, s) && Next(md5, s, e).Some? && fid in Next(md5, s, e).value.files
    ensures DigestRight(md5, Next(md5, s, e).value, fid)
  {
    assert fid in s.files ==> DigestRight(md5, s, fid) && Agree(s, fid);
    assert e.CompleteTask? ==> WorkerOk(md5, s, s.workers[e.w]) && SameFile(s, s.workers[e.w]);
  }

  lemma StepKeepsDigests(md5: Md5, s: State, e: Event)
    requires DigestsOk(md5, s) && Next(md5, s, e).Some? && (e.Insert? ==> Unheld(s, e.fid))
    ensures DigestsOk(md5, Next(md5, s, e).value)
  {
    StepKeepsQueue(md5, s, e);
    var s' := Next(md5, s, e).value;
    forall w <- s'.workers.Keys ensures WorkerOk(md5, s', s'.workers[w]) && SameFile(s', s'.workers[w]) {
      StepKeepsWorkers(md5, s, e, w);
    }
    forall fid <- s'.files.Keys ensures DigestRight(md5, s', fid) {
      StepKeepsDigest(md5, s, e, fid);
    }
  }

  lemma {:induction false} RunKeepsDigests(md5: Md5, s: State, evs: seq<Event>, s': State)
    requires DigestsOk(md5, s) && Run(md5, s, evs, s') && FreshIds(md5, s, evs)
    ensures DigestsOk(md5, s')
    decreases |evs|
  {
    if evs != [] {
      StepKeepsDigests(md5, s, evs[0]);
      RunKeepsDigests(md5, Next(md5, s, evs[0]).value, evs[1..], s');
    }
  }

  // As long as no id is handed out again while a worker holds it, every
  // recorded digest is the MD5 of its file's object, expired leases and
  // duplicate workers notwithstanding.
  lemma RecordedDigestsAreRight(md5: Md5, evs: seq<Event>, s: State, fid: FileId)
    requires Run(md5, Init(), evs, s) && FreshIds(md5, Init(), evs) && fid in s.files && s.files[fid].status == Ready
    ensures s.files[fid].key in s.contents && s.files[fid].digest == md5(s.contents[s.files[fid].key])
  {
    RunKeepsDigests(md5, Init(), evs, s);
    assert DigestRight(md5, s, fid);
  }

  // The completing statement checks neither the claim nor the object key. Where
  // different objects have different digests, it records the right digest exactly
  // when the row still carries the key the worker opened.
  lemma CompletionIsRightIff(md5: Md5, s: State, w: Actor)
    requires QueueOk(s) && w in s.workers && s.workers[w].Hashed? && WorkerOk(md5, s, s.workers[w])
    requires s.workers[w].fid in s.tasks && s.tasks[s.workers[w].fid].status == Computing
    requires forall j <- s.contents.Keys, k <- s.contents.Keys :: j != k ==> md5(s.contents[j]) != md5(s.contents[k])
    ensures DoComplete(s, w).Some?
    ensures DigestRight(md5, DoComplete(s, w).value, s.workers[w].fid) <==> s.files[s.workers[w].fid].key == s.workers[w].key
  {
    assert Agree(s, s.workers[w].fid);
  }

  // --- exactly which runs record right digests ---

  ghost predicate WorkersOk(md5: Md5, s: State) {
    forall w <- s.workers.Keys :: WorkerOk(md5, s, s.workers[w])
  }

  ghost predicate AllRight(md5: Md5, s: State) {
    forall fid <- s.files.Keys :: DigestRight(md5, s, fid)
  }

  // The event records a digest.
  predicate Records(s: State, e: Event) {
    && e.CompleteTask? && e.w in s.workers && s.workers[e.w].Hashed?
    && s.workers[e.w].fid in s.files && s.workers[e.w].fid in s.tasks && s.tasks[s.workers[e.w].fid].status == Computing
  }

  // ... for the object its worker has read, or for one of the same digest.
  predicate RecordsRightly(md5: Md5, s: State, e: Event) {
    Records(s, e) ==>
      var p, key := s.workers[e.w], s.files[s.workers[e.w].fid].key;
      key == p.key || (key in s.contents && p.key in s.contents && md5(s.contents[key]) == md5(s.contents[p.key]))
  }

  lemma StepKeepsWorkerOk(md5: Md5, s: State, e: Event, w: Actor)
    requires QueueOk(s) && WorkersOk(md5, s) && Next(md5, s, e).Some? && w in Next(md5, s, e).value.workers
    ensures WorkerOk(md5, Next(md5, s, e).value, Next(md5, s, e).value.workers[w])
  {
    assert w in s.workers ==> WorkerOk(md5, s, s.workers[w]);
    assert e.ReadFile? && e.w == w && s.workers[w].fid in s.files ==> Agree(s, s.workers[w].fid);
  }

  lemma StepKeepsOtherDigests(md5: Md5, s: State, e: Event, fid: FileId)
    requires QueueOk(s) && AllRight(md5, s) && Next(md5, s, e).Some? && fid in Next(md5, s, e).value.files
    requires !(Records(s, e) && s.workers[e.w].fid == fid)
    ensures DigestRight(md5, Next(md5, s, e).value, fid)
  {
    assert fid in s.files ==> DigestRight(md5, s, fid) && Agree(s, fid);
  }

  lemma RecordingIsRightIff(md5: Md5, s: State, e: Event)
    requires QueueOk(s) && WorkersOk(md5, s) && Records(s, e)
    ensures DigestRight(md5, DoComplete(s, e.w).value, s.workers[e.w].fid) <==> RecordsRightly(md5, s, e)
  {
    assert WorkerOk(md5, s, s.workers[e.w]) && Agree(s, s.workers[e.w].fid);
  }

  lemma StepRightIff(md5: Md5, s: State, e: Event)
    requires QueueOk(s) && WorkersOk(md5, s) && AllRight(md5, s) && Next(md5, s, e).Some?
    ensures AllRight(md5, Next(md5, s, e).value) <==> RecordsRightly(md5, s, e)
  {
    var s' := Next(md5, s, e).value;
    if Records(s, e) {
      RecordingIsRightIff(md5, s, e);
    }
    forall fid <- s'.files.Keys | !(Records(s, e) && s.workers[e.w].fid == fid) ensures DigestRight(md5, s', fid) {
      StepKeepsOtherDigests(md5, s, e, fid);
    }
  }

  // In every state of the run, the first and the last included.
  ghost predicate AlwaysRight(md5: Md5, s: State, evs: seq<Event>)
    decreases |evs|
  {
    AllRight(md5, s) && (evs == [] || (Next(md5, s, evs[0]).Some? && AlwaysRight(md5, Next(md5, s, evs[0]).value, evs[1..])))
  }

  ghost predicate AlwaysRecordsRightly(md5: Md5, s: State, evs: seq<Event>)
    decreases |evs|
  {
    evs == []
    || (&& RecordsRightly(md5, s, evs[0]) && Next(md5, s, evs[0]).Some?
        && AlwaysRecordsRightly(md5, Next(md5, s, evs[0]).value, evs[1..]))
  }

  lemma {:induction false} RightIffRecordedRightly(md5: Md5, s: State, evs: seq<Event>, s': State)
    requires QueueOk(s) && WorkersOk(md5, s) && AllRight(md5, s) && Run(md5, s, evs, s')
    ensures AlwaysRight(md5, s, evs) <==> AlwaysRecordsRightly(md5, s, evs)
    decreases |evs|
  {
    if evs != [] {
      var mid := Next(md5, s, evs[0]).value;
      StepKeepsQueue(md5, s, evs[0]);
      StepRightIff(md5, s, evs[0]);
      forall w <- mid.workers.Keys ensures WorkerOk(md5, mid, mid.workers[w]) {
        StepKeepsWorkerOk(md5, s, evs[0], w);
      }
      if AllRight(md5, mid) {
        RightIffRecordedRightly(md5, mid, evs[1..], s');
      } else {
        assert !AlwaysRight(md5, mid, evs[1..]);
      }
    }
  }

  // For every run: all digests are right all the time if and only if every
  // completion that records one meets the object its worker has read, or one of
  // the same digest.
  lemma DigestsAreRightIff(md5: Md5, evs: seq<Event>, s: State)
    requires Run(md5, Init(), evs, s)
    ensures AlwaysRight(md5, Init(), evs) <==> AlwaysRecordsRightly(md5, Init(), evs)
  {
    RightIffRecordedRightly(md5, Init(), evs, s);
  }

  // The id SQLite gives an INTEGER PRIMARY KEY row: one above the largest in use.
  predicate RowIdFor(s: State, fid: FileId) {
    (forall f <- s.files.Keys :: f < fid) && (fid > 1 ==> fid - 1 in s.files) && fid >= 1
  }

  // So ids do come back: the newest file is deleted while its worker is hashing,
  // the next upload takes over the id, a second worker claims it, and the first
  // worker records the old object's digest for it.
  function ReuseRun(first: Data, second: Data): seq<Event> {
    [Insert(1, 10, first, true), Claim(0, 1), ReadFile(0), HashObject(0), Tombstone(1), Delete(1),
     Insert(1, 11, second, true), Claim(1, 1), CompleteTask(0)]
  }

  lemma RunBack(md5: Md5, s: State, evs: seq<Event>, i: nat, s': State)
    requires i < |evs| && Next(md5, s, evs[i]).Some? && Run(md5, Next(md5, s, evs[i]).value, evs[i + 1..], s')
    ensures Run(md5, s, evs[i..], s')
  {
    assert evs[i..][0] == evs[i] && evs[i..][1..] == evs[i + 1..];
  }

  // The store once the first file is gone, with its worker still to report.
  function FirstFileGone(md5: Md5, first: Data): State {
    State(map[], map[], map[10 := first], map[0 := Hashed(1, 10, md5(first))], 0)
  }

  function SecondFileDone(md5: Md5, first: Data, second: Data): State {
    State(
      map[1 := File(11, false, Ready, md5(first))],
      map[1 := Task(Complete, 1, 3, 0, Some(0))],
      map[10 := first, 11 := second],
      map[1 := Claimed(1)],
      0)
  }

  lemma SecondHalf(md5: Md5, first: Data, second: Data)
    ensures Run(md5, FirstFileGone(md5, first), ReuseRun(first, second)[6..], SecondFileDone(md5, first, second))
  {
    var evs := ReuseRun(first, second);
    var s7 := Next(md5, FirstFileGone(md5, first), evs[6]).value;
    var s8 := Next(md5, s7, evs[7]).value;
    var s9 := Next(md5, s8, evs[8]).value;
    assert s9 == SecondFileDone(md5, first, second);
    RunBack(md5, s8, evs, 8, s9);
    RunBack(md5, s7, evs, 7, s9);
    RunBack(md5, FirstFileGone(md5, first), evs, 6, s9);
  }

  function FirstFileHashed(md5: Md5, first: Data): State {
    State(
      map[1 := File(10, false, Awaiting, "")],
      map[1 := Task(Computing, 1, 3, 0, Some(0))],
      map[10 := first],
      map[0 := Hashed(1, 10, md5(first))],
      0)
  }

  lemma Deletion(md5: Md5, first: Data, second: Data)
    ensures Run(md5, FirstFileHashed(md5, first), ReuseRun(first, second)[4..], SecondFileDone(md5, first, second))
  {
    var evs := ReuseRun(first, second);
    var s5 := Next(md5, FirstFileHashed(md5, first), evs[4]).value;
    SecondHalf(md5, first, second);
    assert Next(md5, s5, evs[5]).value == FirstFileGone(md5, first);
    RunBack(md5, s5, evs, 5, SecondFileDone(md5, first, second));
    RunBack(md5, FirstFileHashed(md5, first), evs, 4, SecondFileDone(md5, first, second));
  }

  lemma ReusedIdGetsTheOldDigest(md5: Md5, first: Data, second: Data)
    requires md5(first) != md5(second)
    ensures RowIdFor(FirstFileGone(md5, first), 1)
    ensures exists s :: Run(md5, Init(), ReuseRun(first, second), s) && 1 in s.files && !DigestRight(md5, s, 1)
  {
    var evs := ReuseRun(first, second);
    var s1 := Next(md5, Init(), evs[0]).value;
    var s2 := Next(md5, s1, evs[1]).value;
    var s3 := Next(md5, s2, evs[2]).value;
    var end := SecondFileDone(md5, first, second);
    Deletion(md5, first, second);
    assert Next(md5, s3, evs[3]).value == FirstFileHashed(md5, first);
    RunBack(md5, s3, evs, 3, end);
    RunBack(md5, s2, evs, 2, end);
    RunBack(md5, s1, evs, 1, end);
    RunBack(md5, Init(), evs, 0, end);
    assert evs[0..] == evs;
    assert !DigestRight(md5, end, 1);
  }
}
