// The queue's tables as the repository updates them in place, and the worker
// that drains them in bounded batches.
module Md5Worker {
  import opened Wrappers
  import opened Bytes
  import opened Md5Queue
  import opened Ordering

  datatype Error = NotFound | Constraint | Broken | InvalidDigest | Stopped

  predicate ValidDigest(digest: string) {
    |digest| == 32 && forall i :: 0 <= i < |digest| ==> digest[i] in "0123456789abcdef"
  }

  function StaleIds(s: State, staleBefore: int): set<FileId> {
    set f | f in s.tasks && Stale(s, f, staleBefore)
  }

  function ClaimedAt(s: State, f: FileId): int
    requires f in s.tasks
  {
    if s.tasks[f].claimed.Some? then s.tasks[f].claimed.value else 0
  }

  // ids are the n stale claims that were made first.
  ghost predicate OldestStale(s: State, ids: set<FileId>, staleBefore: int) {
    && ids <= StaleIds(s, staleBefore)
    && forall f <- ids, g <- StaleIds(s, staleBefore) - ids ::
         ClaimedAt(s, f) < ClaimedAt(s, g) || (ClaimedAt(s, f) == ClaimedAt(s, g) && f <= g)
  }

  // Nothing changed but fid's row and the status of its task.
  ghost predicate OnlyTask(s: State, s': State, fid: FileId) {
    && s'.contents == s.contents && s'.now == s.now
    && ((s'.files == s.files && s'.tasks == s.tasks)
        || (&& fid in s.files && fid in s.tasks && fid in s'.files && fid in s'.tasks
            && s'.files == s.files[fid := s'.files[fid]] && s'.tasks == s.tasks[fid := s'.tasks[fid]]
            && s'.files[fid].key == s.files[fid].key && s'.files[fid].deleting == s.files[fid].deleting
            && s'.tasks[fid].maxAttempts == s.tasks[fid].maxAttempts && s'.tasks[fid].attempts == s.tasks[fid].attempts))
  }

  // DigestsOk has many quantifiers and is handed on by every method here without
  // being looked into. So it is kept behind one more quantifier, which the
  // verifier opens only where Peek(s) is written.
  predicate Peek(s: State) {
    true
  }

  ghost predicate Sound(md5: Md5, s: State) {
    forall x {:trigger Peek(x)} :: x == s && Peek(x) ==> DigestsOk(md5, x)
  }

  lemma SoundMeans(md5: Md5, s: State)
    ensures Sound(md5, s) <==> DigestsOk(md5, s)
  {
    assert Peek(s);
  }

  lemma TasksHaveFiles(md5: Md5, s: State)
    requires Sound(md5, s)
    ensures s.tasks.Keys <= s.files.Keys
  {
    SoundMeans(md5, s);
  }

  lemma Kept(md5: Md5, s: State, e: Event)
    requires Next(md5, s, e).Some? && (e.Insert? ==> Unheld(s, e.fid))
    ensures Sound(md5, s) ==> Sound(md5, Next(md5, s, e).value)
  {
    SoundMeans(md5, s);
    SoundMeans(md5, Next(md5, s, e).value);
    if Sound(md5, s) {
      StepKeepsDigests(md5, s, e);
    }
  }

  lemma RunKeepsSound(md5: Md5, s: State, evs: seq<Event>, s': State)
    requires Sound(md5, s) && Run(md5, s, evs, s') && FreshIds(md5, s, evs)
    ensures Sound(md5, s')
  {
    SoundMeans(md5, s);
    RunKeepsDigests(md5, s, evs, s');
    SoundMeans(md5, s');
  }

  // The event is a step of goroutine w.
  predicate StepOf(e: Event, w: Actor) {
    (e.Claim? || e.ReadFile? || e.HashObject? || e.CompleteTask? || e.FailTask? || e.Quit?) && e.w == w
  }

  predicate NoneOf(evs: seq<Event>, ours: set<Actor>) {
    forall e <- evs, w <- ours :: !StepOf(e, w)
  }

  lemma StepKeepsPlace(md5: Md5, s: State, e: Event, w: Actor)
    requires Next(md5, s, e).Some? && !StepOf(e, w)
    ensures var s' := Next(md5, s, e).value;
            (w in s'.workers <==> w in s.workers) && (w in s.workers ==> s'.workers[w] == s.workers[w])
  {
  }

  lemma {:induction false} RunKeepsPlace(md5: Md5, s: State, evs: seq<Event>, s': State, w: Actor)
    requires Run(md5, s, evs, s') && forall e <- evs :: !StepOf(e, w)
    ensures (w in s'.workers <==> w in s.workers) && (w in s.workers ==> s'.workers[w] == s.workers[w])
    decreases |evs|
  {
    if evs != [] {
      StepKeepsPlace(md5, s, evs[0], w);
      RunKeepsPlace(md5, Next(md5, s, evs[0]).value, evs[1..], s', w);
    }
  }

  class Tables {
    var files: map<FileId, File>
    var tasks: map<FileId, Task>
    var contents: map<Key, Data>
    var now: int
    var workers: map<Actor, Progress> // where each goroutine of each process is
    ghost const md5: Md5
    // No faults and no other process.
    const quiet: bool

    ghost function View(): State
      reads this
    {
      State(files, tasks, contents, workers, now)
    }

    method Fault() returns (failed: bool)
      ensures quiet ==> !failed
    {
      failed :| quiet ==> !failed;
    }

    // What everybody but the goroutines ours does between two of their calls:
    // other claims, uploads, deletions, the clock. An id that is given out is
    // not one that somebody holds.
    method Others(ghost ours: set<Actor>) returns (ghost evs: seq<Event>)
      modifies this
      ensures Run(md5, old(View()), evs, View()) && FreshIds(md5, old(View()), evs) && NoneOf(evs, ours)
      ensures quiet ==> evs == []
    {
      evs := [];
    }

    method Yield(ghost ours: set<Actor>)
      requires Sound(md5, View())
      modifies this
      ensures Sound(md5, View())
      ensures forall w <- ours :: (w in workers <==> w in old(workers)) && (w in workers ==> workers[w] == old(workers)[w])
      ensures quiet ==> View() == old(View())
    {
      ghost var evs := Others(ours);
      RunKeepsSound(md5, old(View()), evs, View());
      forall w | w in ours
        ensures (w in workers <==> w in old(workers)) && (w in workers ==> workers[w] == old(workers)[w])
      {
        RunKeepsPlace(md5, old(View()), evs, View(), w);
      }
    }

    method OldestStaleIds(limit: int, staleBefore: int) returns (ids: set<FileId>)
      ensures OldestStale(View(), ids, staleBefore)
      ensures |ids| == var all := |StaleIds(View(), staleBefore)|; if limit <= 0 then 0 else if all < limit then all else limit
    {
      var rest := set f | f in tasks && tasks[f].status == Computing && tasks[f].claimed.Some?
                                     && tasks[f].claimed.value <= staleBefore;
      ghost var stale := StaleIds(View(), staleBefore);
      assert rest == stale;
      var at := map f | f in rest :: tasks[f].claimed.value;
      ids := {};
      while |ids| < limit && rest != {}
        invariant limit <= 0 ==> ids == {}
        invariant limit > 0 ==> |ids| <= limit
        invariant ids !! rest && ids + rest == stale
        invariant OldestStale(View(), ids, staleBefore)
        decreases rest
      {
        var f := Earliest(rest, at);
        ids, rest := ids + {f}, rest - {f};
      }
      assert |stale| == |ids| + |rest|;
    }

    method RequeueComputingMD5Tasks(limit: int, staleBefore: int) returns (n: nat, ghost ids: set<FileId>)
      modifies this`tasks
      ensures Sound(md5, old(View())) ==> Sound(md5, View())
      ensures n == |ids| == var all := |StaleIds(old(View()), staleBefore)|; if limit <= 0 then 0 else if all < limit then all else limit
      ensures OldestStale(old(View()), ids, staleBefore) && tasks == Released(old(tasks), now, ids)
      ensures tasks.Keys == old(tasks).Keys && forall f <- tasks.Keys ::
                if f in ids then
                  && old(tasks)[f].status == Computing && old(tasks)[f].claimed.Some? && old(tasks)[f].claimed.value <= staleBefore
                  && tasks[f] == old(tasks)[f].(status := Pending, claimed := None, available := now)
                else tasks[f] == old(tasks)[f]
    {
      var chosen := OldestStaleIds(limit, staleBefore);
      tasks := Released(tasks, now, chosen);
      Kept(md5, old(View()), Requeue(chosen, staleBefore));
      return |chosen|, chosen;
    }

    method ClaimMD5Task(w: Actor) returns (fid: FileId, err: Option<Error>)
      requires w !in workers
      modifies this`tasks, this`workers
      ensures Sound(md5, old(View())) ==> Sound(md5, View())
      ensures err.None? ==> DoClaim(old(View()), w, fid) == Some(View())
      ensures err.None? ==>
                && fid in old(tasks) && old(tasks)[fid].status == Pending && old(tasks)[fid].available <= now
                && old(tasks)[fid].attempts < old(tasks)[fid].maxAttempts
                && tasks == old(tasks)[fid := old(tasks)[fid].(
                     status := Computing, attempts := old(tasks)[fid].attempts + 1, claimed := Some(now))]
                && workers == old(workers)[w := Claimed(fid)]
      ensures err.None? ==> forall f <- old(tasks).Keys ::
                old(tasks)[f].status == Pending && old(tasks)[f].available <= now ==>
                  || old(tasks)[fid].available < old(tasks)[f].available
                  || (old(tasks)[fid].available == old(tasks)[f].available && fid <= f)
      ensures err.Some? ==> View() == old(View())
      ensures err == Some(NotFound) ==> forall f :: !Due(View(), f)
      ensures err == Some(Constraint) ==>
                IsHead(View(), fid) && forall v, f :: DoClaim(View(), v, f).None?
      ensures err.Some? ==> err.value in {NotFound, Constraint, Broken}
    {
      fid := 0;
      var broken := Fault();
      if broken {
        return fid, Some(Broken);
      }
      var due := set f | f in tasks && tasks[f].status == Pending && tasks[f].available <= now;
      if due == {} {
        assert forall f :: Due(View(), f) ==> f in due;
        return fid, Some(NotFound);
      }
      fid := Earliest(due, map f | f in tasks :: tasks[f].available);
      assert forall f :: Due(View(), f) ==> f in due;
      assert IsHead(View(), fid);
      var t := tasks[fid];
      if t.attempts + 1 > t.maxAttempts {
        StuckHeadBlocksEveryClaim(_ => "", View(), fid);
        forall v, f ensures DoClaim(View(), v, f).None? {
          assert Next(_ => "", View(), Claim(v, f)).None?;
        }
        return fid, Some(Constraint);
      }
      tasks := tasks[fid := t.(status := Computing, attempts := t.attempts + 1, claimed := Some(now))];
      workers := workers[w := Claimed(fid)];
      err := None;
      Kept(md5, old(View()), Claim(w, fid));
    }

    method FileByID(w: Actor, fid: FileId) returns (file: Option<File>, err: Option<Error>)
      requires w in workers && workers[w] == Claimed(fid)
      modifies this`workers
      ensures Sound(md5, old(View())) ==> Sound(md5, View())
      ensures err != Some(Broken) ==> DoReadFile(old(View()), w) == Some(View())
      ensures err.None? ==>
                && fid in files && !files[fid].deleting && file == Some(files[fid])
                && workers == old(workers)[w := Reading(fid, files[fid].key)]
      ensures quiet ==> err != Some(Broken)
      ensures err == Some(NotFound) ==> (fid in files ==> files[fid].deleting) && workers == old(workers) - {w}
      ensures err == Some(Broken) ==> View() == old(View())
      ensures err.Some? ==> err.value in {NotFound, Broken}
    {
      var broken := Fault();
      if broken {
        return None, Some(Broken);
      }
      if fid in files && !files[fid].deleting {
        workers := workers[w := Reading(fid, files[fid].key)];
        Kept(md5, old(View()), ReadFile(w));
        return Some(files[fid]), None;
      }
      workers := workers - {w};
      Kept(md5, old(View()), ReadFile(w));
      return None, Some(NotFound);
    }

    method CompleteMD5Task(w: Actor, fid: FileId, digest: string) returns (err: Option<Error>)
      requires w in workers && workers[w].Hashed? && workers[w].fid == fid && workers[w].digest == digest
      requires tasks.Keys <= files.Keys
      modifies this`files, this`tasks, this`workers
      ensures Sound(md5, old(View())) ==> Sound(md5, View())
      ensures OnlyTask(old(View()), View(), fid) && workers == old(workers) - {w}
      ensures err.None? ==> fid in tasks && tasks[fid].status != Computing
      ensures err.None? ==> ValidDigest(digest) && fid in old(tasks) && old(tasks)[fid].status == Computing
      ensures err.None? ==> DoComplete(old(View()), w) == Some(View())
      ensures err.None? ==>
                && fid in old(files) && tasks == old(tasks)[fid := old(tasks)[fid].(status := Complete)]
                && files == old(files)[fid := old(files)[fid].(status := Ready, digest := digest)]
      ensures quiet && ValidDigest(digest) && fid in old(tasks) && old(tasks)[fid].status == Computing ==> err.None?
      ensures err == Some(InvalidDigest) ==> !ValidDigest(digest)
      ensures err.Some? ==> View() == old(View()).(workers := old(workers) - {w})
      ensures err.Some? ==> err.value in {NotFound, Broken, InvalidDigest}
      ensures err == Some(NotFound) ==> fid !in tasks || tasks[fid].status != Computing
    {
      workers := workers - {w};
      Kept(md5, old(View()), Quit(w));
      if |digest| != 32 {
        return Some(InvalidDigest);
      }
      for i := 0 to |digest|
        invariant forall j :: 0 <= j < i ==> digest[j] in "0123456789abcdef"
      {
        if digest[i] !in "0123456789abcdef" {
          return Some(InvalidDigest);
        }
      }
      var broken := Fault();
      if broken {
        return Some(Broken);
      }
      if fid !in tasks || tasks[fid].status != Computing {
        return Some(NotFound);
      }
      tasks := tasks[fid := tasks[fid].(status := Complete)];
      files := files[fid := files[fid].(status := Ready, digest := digest)];
      Kept(md5, old(View()), CompleteTask(w));
      return None;
    }

    method FailMD5Task(w: Actor, fid: FileId) returns (err: Option<Error>)
      requires w in workers && workers[w].fid == fid
      requires tasks.Keys <= files.Keys
      modifies this`files, this`tasks, this`workers
      ensures Sound(md5, old(View())) ==> Sound(md5, View())
      ensures OnlyTask(old(View()), View(), fid) && workers == old(workers) - {w}
      ensures err.None? ==> fid in tasks && tasks[fid].status != Computing && fid in old(tasks) && old(tasks)[fid].status == Computing
      ensures err.None? ==> DoFail(old(View()), w, fid) == Some(View())
      ensures err.None? ==>
                && fid in files
                && if old(tasks)[fid].attempts >= old(tasks)[fid].maxAttempts
                   then tasks[fid].status == GaveUp && files[fid].status == Failed
                   else tasks[fid].status == Pending && tasks[fid].available == now && files[fid].status == Awaiting
      ensures quiet && fid in old(tasks) && old(tasks)[fid].status == Computing ==> err.None?
      ensures err.Some? ==> View() == old(View()).(workers := old(workers) - {w})
      ensures err.Some? ==> err.value in {NotFound, Broken}
      ensures err == Some(NotFound) ==> fid !in tasks || tasks[fid].status != Computing
    {
      workers := workers - {w};
      Kept(md5, old(View()), Quit(w));
      var broken := Fault();
      if broken {
        return Some(Broken);
      }
      if fid !in tasks || tasks[fid].status != Computing {
        return Some(NotFound);
      }
      var t := tasks[fid];
      var over := t.attempts >= t.maxAttempts;
      tasks := tasks[fid := t.(status := if over then GaveUp else Pending, available := now, claimed := None)];
      files := files[fid := files[fid].(status := if tasks[fid].status == GaveUp then Failed else Awaiting)];
      Kept(md5, old(View()), FailTask(w, fid));
      return None;
    }
  }

  // md5 in hexadecimal.
  ghost predicate Hex(md5: Md5) {
    forall d: Data :: ValidDigest(md5(d))
  }

  // The next call of a goroutine that runs process.
  datatype At = AtFile | AtObject(key: Key) | AtRecord(digest: string) | AtFail

  function CallsLeft(at: Option<At>): nat {
    match at
    case None => 0
    case Some(AtFile) => 3
    case Some(AtObject(_)) => 2
    case _ => 1
  }

  predicate Stands(s: State, w: Actor, fid: FileId, at: At) {
    && w in s.workers && s.workers[w].fid == fid
    && match at
       case AtFile => s.workers[w].Claimed?
       case AtObject(key) => s.workers[w] == Reading(fid, key)
       case AtRecord(digest) => s.workers[w].Hashed? && s.workers[w].digest == digest && ValidDigest(digest)
       case AtFail => true
  }

  // A task can become due only by its goroutine's FailMD5Task.
  ghost predicate DueOnlyBy(s: State, s': State, fid: FileId, failing: bool) {
    forall f :: Due(s', f) ==> Due(s, f) || (f == fid && failing)
  }

  // The file can be read: it is there, not being deleted, and so is its object.
  predicate Present(s: State, fid: FileId) {
    fid in s.files && !s.files[fid].deleting && s.files[fid].key in s.contents
  }

  // Its digest has been recorded.
  predicate Recorded(md5: Md5, s: State, fid: FileId) {
    && fid in s.tasks && s.tasks[fid].status == Complete
    && fid in s.files && s.files[fid].status == Ready
    && s.files[fid].key in s.contents && s.files[fid].digest == md5(s.contents[s.files[fid].key])
  }

  // Where a goroutine that has met no fault can be.
  predicate OnCourse(md5: Md5, s: State, fid: FileId, at: At) {
    && fid in s.tasks && s.tasks[fid].status == Computing
    && (fid in s.files && !s.files[fid].deleting ==>
          var key := s.files[fid].key;
          match at
          case AtFile => true
          case AtObject(k) => k == key
          case AtRecord(d) => key in s.contents && d == md5(s.contents[key])
          case AtFail => key !in s.contents)
  }

  // What process without faults has made of a task.
  predicate Processed(md5: Md5, s: State, fid: FileId) {
    fid in s.files && !s.files[fid].deleting ==>
      if s.files[fid].key in s.contents then Recorded(md5, s, fid)
      else
        && fid in s.tasks
        && if s.tasks[fid].attempts >= s.tasks[fid].maxAttempts
           then s.tasks[fid].status == GaveUp && s.files[fid].status == Failed
           else s.tasks[fid].status == Pending && s.files[fid].status == Awaiting
  }

  class Worker {
    const store: Tables
    const md5: Md5
    const concurrency: int
    const maxTasksPerRun: int
    const recoveryLimit: int
    const lease: int

    constructor (store: Tables, md5: Md5, concurrency: int, maxTasksPerRun: int, recoveryLimit: int, lease: int)
      ensures this.store == store && this.md5 == md5
      ensures this.concurrency == if concurrency <= 0 then 1 else concurrency
      ensures this.maxTasksPerRun == if maxTasksPerRun <= 0 then 1 else maxTasksPerRun
      ensures this.recoveryLimit == if recoveryLimit <= 0 then this.maxTasksPerRun else recoveryLimit
      ensures this.lease > 0
    {
      this.store := store;
      this.md5 := md5;
      this.concurrency := if concurrency <= 0 then 1 else concurrency;
      var most := if maxTasksPerRun <= 0 then 1 else maxTasksPerRun;
      this.maxTasksPerRun := most;
      this.recoveryLimit := if recoveryLimit <= 0 then most else recoveryLimit;
      this.lease := if lease <= 0 then 300_000_000_000 else lease;
    }

    ghost predicate Valid()
      reads store
    {
      Sound(md5, store.View()) && Hex(md5) && store.md5 == md5
    }

    // objects.Open and io.Copy: any of them may fail, an absent object makes Open fail.
    method HashObject(w: Actor, key: Key) returns (digest: string, err: Option<Error>)
      requires w in store.workers && store.workers[w].Reading? && store.workers[w].key == key
      requires store.md5 == md5 && Hex(md5)
      modifies store`workers
      ensures Sound(md5, old(store.View())) ==> Sound(md5, store.View())
      ensures err.None? ==> ValidDigest(digest)
      ensures err.None? ==> store.workers == old(store.workers)[w := Hashed(old(store.workers)[w].fid, key, digest)]
      ensures err.Some? ==> store.View() == old(store.View())
      ensures store.quiet && key in store.contents ==> err.None?
      ensures err.None? ==> key in store.contents && digest == md5(store.contents[key])
    {
      var broken := store.Fault();
      if key !in store.contents || broken {
        return "", Some(Broken);
      }
      digest := md5(store.contents[key]);
      store.workers := store.workers[w := Hashed(store.workers[w].fid, key, digest)];
      err := None;
      Kept(md5, old(store.View()), Event.HashObject(w));
    }

    method LoadFile(w: Actor, fid: FileId) returns (next: Option<At>)
      requires Valid() && Stands(store.View(), w, fid, AtFile)
      modifies store`workers
      ensures Valid() && CallsLeft(next) < 3
      ensures next.Some? ==> Stands(store.View(), w, fid, next.value) && store.workers == old(store.workers)[w := store.workers[w]]
      ensures next.None? ==> store.workers == old(store.workers) - {w} && (fid in store.files ==> store.files[fid].deleting)
      ensures store.quiet && fid in store.files && !store.files[fid].deleting ==> next == Some(AtObject(store.files[fid].key))
    {
      var file, missing := store.FileByID(w, fid);
      next := if missing.None? then Some(AtObject(file.value.key)) else if missing == Some(NotFound) then None else Some(AtFail);
    }

    method ReadObject(w: Actor, fid: FileId, key: Key) returns (next: Option<At>)
      requires Valid() && Stands(store.View(), w, fid, AtObject(key))
      modifies store`workers
      ensures Valid() && next.Some? && CallsLeft(next) < 2
      ensures Stands(store.View(), w, fid, next.value) && store.workers == old(store.workers)[w := store.workers[w]]
      ensures store.quiet ==>
                next == Some(if key in store.contents then AtRecord(md5(store.contents[key])) else AtFail)
    {
      var digest, unread := HashObject(w, key);
      next := Some(if unread.None? then AtRecord(digest) else AtFail);
    }

    // One call of process. next is the call after it, err what process returns.
    method Call(w: Actor, fid: FileId, at: At) returns (next: Option<At>, err: Option<Error>)
      requires Valid() && Stands(store.View(), w, fid, at)
      modifies store`files, store`tasks, store`workers
      ensures Valid() && CallsLeft(next) < CallsLeft(Some(at))
      ensures err.Some? ==> err.value in {NotFound, Broken, InvalidDigest}
      ensures next.Some? ==> err.None? && Stands(store.View(), w, fid, next.value)
      ensures next.Some? ==> store.workers == old(store.workers)[w := store.workers[w]]
      ensures next.None? ==> store.workers == old(store.workers) - {w}
      ensures OnlyTask(old(store.View()), store.View(), fid)
      ensures DueOnlyBy(old(store.View()), store.View(), fid, at.AtFail? && err.None?)
      ensures next.None? && err.None? ==>
                || (fid in store.files ==> store.files[fid].deleting)
                || (fid in store.tasks && store.tasks[fid].status != Computing)
      ensures next.Some? || err.Some? ==> store.files == old(store.files) && store.tasks == old(store.tasks)
      ensures store.quiet && OnCourse(md5, old(store.View()), fid, at) ==>
                if next.Some? then OnCourse(md5, store.View(), fid, next.value)
                else err.None? && Processed(md5, store.View(), fid)
    {
      TasksHaveFiles(md5, store.View());
      err := None;
      match at {
        case AtFile => next := LoadFile(w, fid);
        case AtObject(key) => next := ReadObject(w, fid, key);
        case AtRecord(digest) =>
          next := None;
          err := store.CompleteMD5Task(w, fid, digest);
        case AtFail =>
          next := None;
          err := store.FailMD5Task(w, fid);
      }
    }

    // process in one goroutine, with anybody else at work between its calls.
    // Undisturbed, it touches nothing but its own file's row and task, and the
    // digest of the file's object is recorded; without an object the task goes
    // back, or is given up at its maximum. A file that is gone or being deleted
    // is left alone. An error has recorded nothing.
    method Process(w: Actor, fid: FileId) returns (err: Option<Error>)
      requires Valid() && Stands(store.View(), w, fid, AtFile)
      modifies store
      ensures Valid() && w !in store.workers
      ensures store.quiet ==>
                && store.workers == old(store.workers) - {w} && OnlyTask(old(store.View()), store.View(), fid)
                && (err.None? ==>
                      || (fid in store.files ==> store.files[fid].deleting)
                      || (fid in store.tasks && store.tasks[fid].status != Computing))
                && (err.Some? ==> store.files == old(store.files) && store.tasks == old(store.tasks))
      ensures store.quiet && fid in old(store.tasks) && old(store.tasks)[fid].status == Computing
              && fid in old(store.files) && !old(store.files)[fid].deleting ==>
                && err.None? && fid in store.tasks && fid in store.files && store.files[fid].key == old(store.files)[fid].key
                && if store.files[fid].key in store.contents then
                     && store.tasks[fid].status == Complete && store.files[fid].status == Ready
                     && store.files[fid].digest == md5(store.contents[store.files[fid].key])
                   else if store.tasks[fid].attempts >= store.tasks[fid].maxAttempts then
                     store.tasks[fid].status == GaveUp && store.files[fid].status == Failed
                   else store.tasks[fid].status == Pending && store.files[fid].status == Awaiting
    {
      err := None;
      var at := Some(AtFile);
      ghost var s0 := store.View();
      while at.Some?
        invariant Valid()
        invariant at.Some? ==> err.None? && Stands(store.View(), w, fid, at.value)
        invariant at.None? ==> w !in store.workers
        invariant store.quiet && at.Some? ==>
                    && store.workers == s0.workers[w := store.workers[w]] && store.View() == s0.(workers := store.workers)
        invariant store.quiet && at.None? ==>
                    && store.workers == s0.workers - {w} && OnlyTask(s0, store.View(), fid)
                    && (err.None? ==>
                          || (fid in store.files ==> store.files[fid].deleting)
                          || (fid in store.tasks && store.tasks[fid].status != Computing))
                    && (err.Some? ==> store.files == s0.files && store.tasks == s0.tasks)
        invariant store.quiet && fid in s0.tasks && s0.tasks[fid].status == Computing ==>
                    if at.Some? then OnCourse(md5, store.View(), fid, at.value)
                    else err.None? && Processed(md5, store.View(), fid)
        invariant store.quiet && fid in s0.files ==>
                    && fid in store.files && store.files[fid].key == s0.files[fid].key
                    && store.files[fid].deleting == s0.files[fid].deleting
        decreases CallsLeft(at)
      {
        store.Yield({w});
        at, err := Call(w, fid, at.value);
      }
    }
  }

  datatype Job = Job(fid: FileId, at: At)

  predicate AllStand(s: State, running: map<Actor, Job>) {
    forall w <- running.Keys :: Stands(s, w, running[w].fid, running[w].at)
  }

  function MovedOn(running: map<Actor, Job>, w: Actor, next: Option<At>): map<Actor, Job>
    requires w in running
  {
    if next.Some? then running[w := Job(running[w].fid, next.value)] else running - {w}
  }

  // The task that the claim loop has claimed and not handed over yet.
  datatype Held = Nothing | Holding(w: Actor, fid: FileId)

  predicate HeldStands(s: State, running: map<Actor, Job>, held: Held) {
    held.Holding? ==> held.w !in running && Stands(s, held.w, held.fid, AtFile)
  }

  predicate AllClaimed(running: map<Actor, Job>, claimed: set<FileId>) {
    forall w <- running.Keys :: running[w].fid in claimed
  }

  // The tasks in hand are all different and on course.
  ghost predicate InHand(md5: Md5, s: State, running: map<Actor, Job>, held: Held) {
    && (forall w <- running.Keys :: OnCourse(md5, s, running[w].fid, running[w].at))
    && (forall v <- running.Keys, w <- running.Keys :: v != w ==> running[v].fid != running[w].fid)
    && (held.Holding? ==> OnCourse(md5, s, held.fid, AtFile) && forall w <- running.Keys :: running[w].fid != held.fid)
  }

  predicate HasJob(running: map<Actor, Job>, fid: FileId) {
    exists w <- running.Keys :: running[w].fid == fid
  }

  // What has been handed over is recorded, or still in hand; what has never been
  // claimed is as it was at the start.
  ghost predicate Accounted(md5: Md5, start: map<FileId, Task>, s: State, running: map<Actor, Job>, held: Held,
                            claimed: set<FileId>, touched: set<FileId>)
  {
    && claimed <= touched && (held.Holding? ==> held.fid in touched)
    && (forall f <- claimed :: Present(s, f) ==> Recorded(md5, s, f) || HasJob(running, f))
    && (forall f <- start.Keys :: f !in touched ==> f in s.tasks && s.tasks[f] == start[f])
  }

  lemma OthersOnCourse(md5: Md5, s: State, s': State, running: map<Actor, Job>, held: Held, w: Actor, next: Option<At>)
    requires w in running && InHand(md5, s, running, held) && OnlyTask(s, s', running[w].fid)
    requires next.Some? ==> OnCourse(md5, s', running[w].fid, next.value)
    ensures InHand(md5, s', MovedOn(running, w, next), held)
  {
    var running' := MovedOn(running, w, next);
    forall v <- running'.Keys ensures OnCourse(md5, s', running'[v].fid, running'[v].at) {
      if v != w {
        OtherOnCourse(md5, s, s', running[w].fid, running[v].fid, running[v].at);
      }
    }
    if held.Holding? {
      OtherOnCourse(md5, s, s', running[w].fid, held.fid, AtFile);
    }
  }

  lemma OtherOnCourse(md5: Md5, s: State, s': State, fid: FileId, other: FileId, at: At)
    requires OnlyTask(s, s', fid) && other != fid && OnCourse(md5, s, other, at)
    ensures OnCourse(md5, s', other, at)
  {
  }

  lemma OthersAccounted(md5: Md5, start: map<FileId, Task>, s: State, s': State, running: map<Actor, Job>, held: Held,
                        claimed: set<FileId>, touched: set<FileId>, w: Actor, next: Option<At>)
    requires w in running && running[w].fid in touched && OnlyTask(s, s', running[w].fid)
    requires Accounted(md5, start, s, running, held, claimed, touched)
    requires next.None? ==> Processed(md5, s', running[w].fid)
    ensures Accounted(md5, start, s', MovedOn(running, w, next), held, claimed, touched)
  {
    var running', fid := MovedOn(running, w, next), running[w].fid;
    forall f <- claimed | Present(s', f) ensures Recorded(md5, s', f) || HasJob(running', f) {
      if f == fid {
        if next.Some? {
          assert w in running' && running'[w].fid == f;
        }
      } else {
        assert Present(s, f);
        if HasJob(running, f) {
          var v :| v in running && running[v].fid == f;
          assert v in running' && running'[v].fid == f;
        }
      }
    }
  }

  // Goroutines, claim loop and tables fit together.
  ghost predicate FitsAt(md5: Md5, quiet: bool, start: map<FileId, Task>, s: State, running: map<Actor, Job>, held: Held,
                       claimed: set<FileId>, touched: set<FileId>)
  {
    && AllStand(s, running) && HeldStands(s, running, held) && AllClaimed(running, claimed)
    && (quiet ==> InHand(md5, s, running, held) && Accounted(md5, start, s, running, held, claimed, touched))
  }

  // The same, kept closed like Sound.
  ghost predicate Fits(md5: Md5, quiet: bool, start: map<FileId, Task>, s: State, running: map<Actor, Job>, held: Held,
                       claimed: set<FileId>, touched: set<FileId>)
  {
    forall x {:trigger Peek(x)} :: x == s && Peek(x) ==> FitsAt(md5, quiet, start, x, running, held, claimed, touched)
  }

  lemma FitsMeans(md5: Md5, quiet: bool, start: map<FileId, Task>, s: State, running: map<Actor, Job>, held: Held,
                  claimed: set<FileId>, touched: set<FileId>)
    ensures Fits(md5, quiet, start, s, running, held, claimed, touched) <==>
              FitsAt(md5, quiet, start, s, running, held, claimed, touched)
  {
    assert Peek(s);
  }

  function OursOf(running: map<Actor, Job>, held: Held): set<Actor> {
    running.Keys + if held.Holding? then {held.w} else {}
  }

  lemma StillFits(md5: Md5, quiet: bool, start: map<FileId, Task>, s: State, s': State, running: map<Actor, Job>, held: Held,
                  claimed: set<FileId>, touched: set<FileId>)
    requires Fits(md5, quiet, start, s, running, held, claimed, touched) && (quiet ==> s' == s)
    requires forall w <- OursOf(running, held) :: (w in s'.workers <==> w in s.workers) && (w in s.workers ==> s'.workers[w] == s.workers[w])
    ensures Fits(md5, quiet, start, s', running, held, claimed, touched)
  {
    FitsMeans(md5, quiet, start, s, running, held, claimed, touched);
    FitsMeans(md5, quiet, start, s', running, held, claimed, touched);
    forall w <- running.Keys ensures Stands(s', w, running[w].fid, running[w].at) {
      assert w in OursOf(running, held) && Stands(s, w, running[w].fid, running[w].at);
    }
    if held.Holding? {
      assert held.w in OursOf(running, held);
    }
  }

  lemma CallFits(md5: Md5, quiet: bool, start: map<FileId, Task>, s: State, s': State, running: map<Actor, Job>, held: Held,
                 claimed: set<FileId>, touched: set<FileId>, w: Actor, next: Option<At>, err: Option<Error>)
    requires Fits(md5, quiet, start, s, running, held, claimed, touched) && w in running && claimed <= touched
    requires next.Some? ==> Stands(s', w, running[w].fid, next.value) && s'.workers == s.workers[w := s'.workers[w]]
    requires next.None? ==> s'.workers == s.workers - {w}
    requires OnlyTask(s, s', running[w].fid)
    requires quiet && OnCourse(md5, s, running[w].fid, running[w].at) ==>
               if next.Some? then OnCourse(md5, s', running[w].fid, next.value)
               else err.None? && Processed(md5, s', running[w].fid)
    ensures Fits(md5, quiet, start, s', MovedOn(running, w, next), held, claimed, touched)
    ensures |MovedOn(running, w, next).Keys| == |running.Keys| - (if next.Some? then 0 else 1)
    ensures MovedOn(running, w, next).Keys == if next.Some? then running.Keys else running.Keys - {w}
  {
    FitsMeans(md5, quiet, start, s, running, held, claimed, touched);
    FitsMeans(md5, quiet, start, s', MovedOn(running, w, next), held, claimed, touched);
    OthersStand(s, s', running, held, claimed, w, next);
    if quiet {
      OthersOnCourse(md5, s, s', running, held, w, next);
      OthersAccounted(md5, start, s, s', running, held, claimed, touched, w, next);
    }
  }

  lemma StandsIn(md5: Md5, quiet: bool, start: map<FileId, Task>, s: State, running: map<Actor, Job>, held: Held,
                 claimed: set<FileId>, touched: set<FileId>)
    requires Fits(md5, quiet, start, s, running, held, claimed, touched)
    ensures forall w <- running.Keys :: Stands(s, w, running[w].fid, running[w].at) && running[w].fid in claimed
    ensures held.Holding? ==> held.w in s.workers && held.w !in running
  {
    FitsMeans(md5, quiet, start, s, running, held, claimed, touched);
  }

  // One RunOnce: the variables that its claim loop shares with its goroutines.
  // running holds the goroutines that have a task, each at its next call.
  class Batch {
    const worker: Worker
    const store: Tables
    var running: map<Actor, Job>
    var held: Held
    var done: int
    var persist: Option<Error>
    ghost var claimed: set<FileId>
    ghost var failed: set<FileId> // tasks that this batch's FailMD5Task has put back or given up
    ghost var handed: nat         // tasks handed to goroutines
    ghost var touched: set<FileId> // tasks claimed, handed over or not
    ghost const start: map<FileId, Task>

    ghost predicate Valid()
      reads this, worker.store
    {
      && store == worker.store && worker.Valid() && worker.concurrency >= 1
      && Fits(worker.md5, store.quiet, start, store.View(), running, held, claimed, touched)
      && failed <= claimed && done + |running.Keys| == handed && 0 <= done && |running.Keys| <= worker.concurrency
      && persist != Some(Constraint) && persist != Some(Stopped)
      && claimed <= touched && (held.Holding? ==> held.fid in touched)
    }

    constructor (worker: Worker)
      requires worker.Valid() && worker.concurrency >= 1
      ensures Valid() && this.worker == worker && store == worker.store
      ensures running == map[] && held == Nothing && done == 0 && persist.None?
      ensures handed == 0 && claimed == {} && failed == {} && touched == {} && start == worker.store.tasks
    {
      this.worker, store := worker, worker.store;
      touched, start := {}, worker.store.tasks;
      running, held, done, persist, claimed, failed, handed := map[], Nothing, 0, None, {}, {}, 0;
      new;
      FitsMeans(worker.md5, store.quiet, start, store.View(), running, held, claimed, touched);
    }

    // A goroutine makes its next call.
    method Advance(w: Actor)
      requires Valid() && w in running
      modifies this`running, this`done, this`persist, this`failed, store`files, store`tasks, store`workers
      ensures Valid() && old(failed) <= failed && done >= old(done)
      ensures running.Keys == old(running).Keys || running.Keys == old(running).Keys - {w}
      ensures w in running ==> CallsLeft(Some(running[w].at)) < CallsLeft(Some(old(running)[w].at))
      ensures forall f :: Due(store.View(), f) ==> Due(old(store.View()), f) || f in failed
    {
      var failing := running[w].at.AtFail?;
      var fid := running[w].fid;
      var next, err := MakeCall(w);
      running := MovedOn(running, w, next);
      if next.None? {
        done := done + 1;
        persist := if persist.None? then err else persist;
      }
      if failing && err.None? {
        failed := failed + {fid};
      }
    }

    method MakeCall(w: Actor) returns (next: Option<At>, err: Option<Error>)
      requires Valid() && w in running
      modifies store`files, store`tasks, store`workers
      ensures worker.Valid() && CallsLeft(next) < CallsLeft(Some(running[w].at)) && running[w].fid in claimed
      ensures var now := MovedOn(running, w, next);
              && Fits(worker.md5, store.quiet, start, store.View(), now, held, claimed, touched)
              && |now.Keys| == |running.Keys| - (if next.Some? then 0 else 1)
              && now.Keys == if next.Some? then running.Keys else running.Keys - {w}
      ensures err != Some(Constraint) && err != Some(Stopped)
      ensures DueOnlyBy(old(store.View()), store.View(), running[w].fid, running[w].at.AtFail? && err.None?)
    {
      ghost var before := store.View();
      StandsIn(worker.md5, store.quiet, start, before, running, held, claimed, touched);
      next, err := worker.Call(w, running[w].fid, running[w].at);
      CallFits(worker.md5, store.quiet, start, before, store.View(), running, held, claimed, touched, w, next, err);
    }

    method Yield()
      requires Valid()
      modifies store
      ensures Valid() && (store.quiet ==> store.View() == old(store.View()))
    {
      ghost var before := store.View();
      store.Yield(OursOf(running, held));
      StillFits(worker.md5, store.quiet, start, before, store.View(), running, held, claimed, touched);
    }

    // The goroutine w runs until it is done with its task, others between its calls.
    method Finish(w: Actor)
      requires Valid() && w in running
      modifies this`running, this`done, this`persist, this`failed, store
      ensures Valid() && old(failed) <= failed && running.Keys == old(running).Keys - {w}
      ensures store.quiet ==> forall f :: Due(store.View(), f) ==> Due(old(store.View()), f) || f in failed
    {
      while w in running
        invariant Valid() && old(failed) <= failed
        invariant running.Keys == old(running).Keys || running.Keys == old(running).Keys - {w}
        invariant store.quiet ==> forall f :: Due(store.View(), f) ==> Due(old(store.View()), f) || f in failed
        decreases if w in running then CallsLeft(Some(running[w].at)) else 0
      {
        Yield();
        Advance(w);
      }
    }

    // The goroutines make any number of calls in any order.
    method Proceed()
      requires Valid()
      modifies this`running, this`done, this`persist, this`failed, store
      ensures Valid() && old(failed) <= failed && running.Keys <= old(running).Keys
      ensures store.quiet ==> forall f :: Due(store.View(), f) ==> Due(old(store.View()), f) || f in failed
    {
      var calls: nat := *;
      Yield();
      while calls > 0 && running != map[]
        invariant Valid() && old(failed) <= failed && running.Keys <= old(running).Keys
        invariant store.quiet ==> forall f :: Due(store.View(), f) ==> Due(old(store.View()), f) || f in failed
      {
        var w :| w in running;
        Advance(w);
        Yield();
        calls := calls - 1;
      }
    }

    // close(jobs) and wg.Wait.
    method Wait()
      requires Valid()
      modifies this`running, this`done, this`persist, this`failed, store
      ensures Valid() && old(failed) <= failed && running == map[]
      ensures store.quiet ==> forall f :: Due(store.View(), f) ==> Due(old(store.View()), f) || f in failed
    {
      Proceed();
      while running != map[]
        invariant Valid() && old(failed) <= failed
        invariant store.quiet ==> forall f :: Due(store.View(), f) ==> Due(old(store.View()), f) || f in failed
        decreases running.Keys
      {
        var w :| w in running;
        Finish(w);
      }
    }

    method Claim() returns (err: Option<Error>)
      requires Valid() && held == Nothing
      modifies this`held, this`touched, store`tasks, store`workers
      ensures Valid()
      ensures if err.None? then held.Holding? && touched == old(touched) + {held.fid}
              else held == Nothing && touched == old(touched) && store.View() == old(store.View())
      ensures err == Some(NotFound) ==> forall f :: !Due(store.View(), f)
      ensures err == Some(Constraint) ==> forall v, f :: DoClaim(store.View(), v, f).None?
      ensures err.Some? ==> err.value in {NotFound, Constraint, Broken}
    {
      var w := Idle(store.workers);
      ghost var before := store.View();
      var fid, refused := store.ClaimMD5Task(w);
      err := refused;
      if err.None? {
        ClaimFits(worker.md5, store.quiet, start, before, store.View(), running, claimed, touched, w, fid);
        held := Holding(w, fid);
        touched := touched + {fid};
      }
    }

    // jobs <- t: waits until a goroutine is free.
    method HandOver()
      requires Valid() && held.Holding?
      modifies this`running, this`held, this`done, this`persist, this`claimed, this`failed, this`handed, store
      ensures Valid() && old(failed) <= failed && held == Nothing && handed == old(handed) + 1
      ensures claimed == old(claimed) + {old(held).fid}
    {
      Proceed();
      if |running.Keys| >= worker.concurrency {
        var w :| w in running;
        Finish(w);
      }
      Start();
    }

    method Start()
      requires Valid() && held.Holding? && |running.Keys| < worker.concurrency
      modifies this`running, this`held, this`claimed, this`handed
      ensures Valid() && held == Nothing && handed == old(handed) + 1 && claimed == old(claimed) + {old(held).fid}
    {
      Started(worker.md5, store.quiet, start, store.View(), running, held, claimed, touched);
      running := running[held.w := Job(held.fid, AtFile)];
      claimed := claimed + {held.fid};
      held, handed := Nothing, handed + 1;
    }

    // The context is done before a goroutine takes the task: its claim expires.
    method Abandon()
      requires Valid() && held.Holding?
      modifies this`held, store`workers
      ensures Valid() && held == Nothing && store.tasks == old(store.tasks) && store.files == old(store.files)
    {
      ghost var before := store.View();
      StandsIn(worker.md5, store.quiet, start, before, running, held, claimed, touched);
      store.workers := store.workers - {held.w};
      Kept(worker.md5, before, Quit(held.w));
      Abandoned(worker.md5, store.quiet, start, before, store.View(), running, held, claimed, touched);
      held := Nothing;
    }
  }

  lemma Started(md5: Md5, quiet: bool, start: map<FileId, Task>, s: State, running: map<Actor, Job>, held: Held,
                claimed: set<FileId>, touched: set<FileId>)
    requires held.Holding? && Fits(md5, quiet, start, s, running, held, claimed, touched)
    ensures var running' := running[held.w := Job(held.fid, AtFile)];
            && Fits(md5, quiet, start, s, running', Nothing, claimed + {held.fid}, touched)
            && running'.Keys == running.Keys + {held.w} && |running'.Keys| == |running.Keys| + 1
  {
    var running' := running[held.w := Job(held.fid, AtFile)];
    FitsMeans(md5, quiet, start, s, running, held, claimed, touched);
    FitsMeans(md5, quiet, start, s, running', Nothing, claimed + {held.fid}, touched);
    assert running'.Keys == running.Keys + {held.w};
    if quiet {
      StartedInHand(md5, s, running, held);
      StartedAccounted(md5, start, s, running, held, claimed, touched);
    }
  }

  lemma StartedInHand(md5: Md5, s: State, running: map<Actor, Job>, held: Held)
    requires held.Holding? && held.w !in running && InHand(md5, s, running, held)
    ensures InHand(md5, s, running[held.w := Job(held.fid, AtFile)], Nothing)
  {
  }

  lemma StartedAccounted(md5: Md5, start: map<FileId, Task>, s: State, running: map<Actor, Job>, held: Held,
                         claimed: set<FileId>, touched: set<FileId>)
    requires held.Holding? && held.w !in running && Accounted(md5, start, s, running, held, claimed, touched)
    ensures Accounted(md5, start, s, running[held.w := Job(held.fid, AtFile)], Nothing, claimed + {held.fid}, touched)
  {
    var running' := running[held.w := Job(held.fid, AtFile)];
    assert held.w in running' && running'[held.w].fid == held.fid;
    forall f | HasJob(running, f) ensures HasJob(running', f) {
      var v :| v in running && running[v].fid == f;
      assert v in running' && running'[v].fid == f;
    }
  }

  lemma Abandoned(md5: Md5, quiet: bool, start: map<FileId, Task>, s: State, s': State, running: map<Actor, Job>, held: Held,
                  claimed: set<FileId>, touched: set<FileId>)
    requires held.Holding? && Fits(md5, quiet, start, s, running, held, claimed, touched)
    requires s' == s.(workers := s.workers - {held.w})
    ensures Fits(md5, quiet, start, s', running, Nothing, claimed, touched)
  {
    FitsMeans(md5, quiet, start, s, running, held, claimed, touched);
    FitsMeans(md5, quiet, start, s', running, Nothing, claimed, touched);
    if quiet {
      forall v <- running.Keys ensures OnCourse(md5, s', running[v].fid, running[v].at) {
        assert OnCourse(md5, s, running[v].fid, running[v].at);
      }
      forall f <- claimed | Present(s', f) ensures Recorded(md5, s', f) || HasJob(running, f) {
        assert Present(s, f);
      }
    }
  }

  lemma ClaimFits(md5: Md5, quiet: bool, start: map<FileId, Task>, s: State, s': State, running: map<Actor, Job>,
                  claimed: set<FileId>, touched: set<FileId>, w: Actor, fid: FileId)
    requires Fits(md5, quiet, start, s, running, Nothing, claimed, touched) && w !in s.workers
    requires s'.files == s.files && s'.contents == s.contents && fid in s.tasks && fid in s'.tasks
    requires s.tasks[fid].status == Pending && s'.tasks[fid].status == Computing
    requires s'.tasks == s.tasks[fid := s'.tasks[fid]] && s'.workers == s.workers[w := Claimed(fid)]
    ensures Fits(md5, quiet, start, s', running, Holding(w, fid), claimed, touched + {fid})
  {
    FitsMeans(md5, quiet, start, s, running, Nothing, claimed, touched);
    FitsMeans(md5, quiet, start, s', running, Holding(w, fid), claimed, touched + {fid});
    RunningKept(s, s', running, w);
    if quiet {
      ClaimedOnCourse(md5, start, s, s', running, claimed, touched, w, fid);
    }
  }

  // A task that can be claimed is in nobody's hand and has no digest.
  lemma ClaimedOnCourse(md5: Md5, start: map<FileId, Task>, s: State, s': State, running: map<Actor, Job>,
                        claimed: set<FileId>, touched: set<FileId>, w: Actor, fid: FileId)
    requires InHand(md5, s, running, Nothing) && Accounted(md5, start, s, running, Nothing, claimed, touched)
    requires s'.files == s.files && s'.contents == s.contents && fid in s.tasks && fid in s'.tasks
    requires s.tasks[fid].status == Pending && s'.tasks[fid].status == Computing
    requires s'.tasks == s.tasks[fid := s'.tasks[fid]]
    ensures InHand(md5, s', running, Holding(w, fid))
    ensures Accounted(md5, start, s', running, Holding(w, fid), claimed, touched + {fid})
  {
    forall v <- running.Keys ensures running[v].fid != fid && OnCourse(md5, s', running[v].fid, running[v].at) {
      assert OnCourse(md5, s, running[v].fid, running[v].at);
    }
    forall f <- claimed | Present(s', f) ensures Recorded(md5, s', f) || HasJob(running, f) {
      assert Present(s, f);
    }
  }

  // RunOnce. Undisturbed, it first takes back the oldest expired claims; every
  // task it hands over whose file and object are there ends with the digest of
  // that object, and what it took back and did not hand over stays pending.
  // refusal is the store when the claim loop stopped at an error of
  // ClaimMD5Task, failed the tasks that this batch has failed. The last
  // goroutines run on after the last claim: what is due after a clean short
  // batch is what they have put back.
  method RunOnce(worker: Worker)
    returns (done: int, err: Option<Error>, ghost requeued: set<FileId>, ghost refusal: State,
             ghost claimed: set<FileId>, ghost failed: set<FileId>)
    requires worker.Valid() && worker.concurrency >= 1 && worker.maxTasksPerRun >= 1
    modifies worker.store
    ensures worker.Valid() && 0 <= done <= worker.maxTasksPerRun && failed <= claimed
    ensures err.None? && done < worker.maxTasksPerRun ==> forall f :: !Due(refusal, f)
    ensures worker.store.quiet && err.None? && done < worker.maxTasksPerRun ==>
              forall f :: Due(worker.store.View(), f) ==> f in failed
    ensures err == Some(Constraint) ==> forall v, f :: DoClaim(refusal, v, f).None?
    ensures worker.store.quiet ==>
              && OldestStale(old(worker.store.View()), requeued, old(worker.store.now) - worker.lease)
              && |requeued| == Least(worker.recoveryLimit, |StaleIds(old(worker.store.View()), old(worker.store.now) - worker.lease)|)
    ensures worker.store.quiet && err.None? ==> forall f <- requeued ::
              f in claimed || (f in worker.store.tasks && worker.store.tasks[f].status == Pending && worker.store.tasks[f].claimed.None?)
    ensures worker.store.quiet ==> forall f <- claimed ::
              f in worker.store.files && !worker.store.files[f].deleting && worker.store.files[f].key in worker.store.contents ==>
                && f in worker.store.tasks && worker.store.tasks[f].status == Complete && worker.store.files[f].status == Ready
                && worker.store.files[f].digest == worker.md5(worker.store.contents[worker.store.files[f].key])
  {
    var store := worker.store;
    done, requeued, refusal, claimed, failed := 0, {}, store.View(), {}, {};
    var broken := store.Fault();
    if broken {
      return done, Some(Broken), requeued, refusal, claimed, failed;
    }
    var n, ids := store.RequeueComputingMD5Tasks(worker.recoveryLimit, store.now - worker.lease);
    requeued := ids;
    done, err, refusal, claimed, failed := ClaimAndProcess(worker);
  }

  // RunOnce after the requeue.
  method ClaimAndProcess(worker: Worker)
    returns (done: int, err: Option<Error>, ghost refusal: State, ghost claimed: set<FileId>, ghost failed: set<FileId>)
    requires worker.Valid() && worker.concurrency >= 1 && worker.maxTasksPerRun >= 1
    modifies worker.store
    ensures worker.Valid() && 0 <= done <= worker.maxTasksPerRun && failed <= claimed
    ensures err.None? && done < worker.maxTasksPerRun ==> forall f :: !Due(refusal, f)
    ensures worker.store.quiet && err.None? && done < worker.maxTasksPerRun ==>
              forall f :: Due(worker.store.View(), f) ==> f in failed
    ensures err == Some(Constraint) ==> forall v, f :: DoClaim(refusal, v, f).None?
    ensures worker.store.quiet && err.None? ==> forall f <- old(worker.store.tasks).Keys ::
              f !in claimed ==> f in worker.store.tasks && worker.store.tasks[f] == old(worker.store.tasks)[f]
    ensures worker.store.quiet ==> forall f <- claimed ::
              Present(worker.store.View(), f) ==> Recorded(worker.md5, worker.store.View(), f)
  {
    var b := new Batch(worker);
    err := ClaimAll(b);
    refusal := worker.store.View();
    b.Wait();
    done, claimed, failed := b.done, b.claimed, b.failed;
    err := if err == Some(NotFound) || err.None? then b.persist else err;
    if worker.store.quiet {
      AllRecorded(worker.md5, b.start, worker.store.View(), claimed, b.touched);
    }
  }

  // How many of n rows a LIMIT lets through.
  function Least(limit: int, n: nat): nat {
    if limit <= 0 then 0 else if n < limit then n else limit
  }

  lemma AllRecorded(md5: Md5, start: map<FileId, Task>, s: State, claimed: set<FileId>, touched: set<FileId>)
    requires Fits(md5, true, start, s, map[], Nothing, claimed, touched)
    ensures forall f <- claimed :: Present(s, f) ==> Recorded(md5, s, f)
    ensures forall f <- start.Keys :: f !in touched ==> f in s.tasks && s.tasks[f] == start[f]
  {
    FitsMeans(md5, true, start, s, map[], Nothing, claimed, touched);
  }

  // The claim loop. NotFound and None end it without an error.
  method ClaimAll(b: Batch) returns (err: Option<Error>)
    requires b.Valid() && b.held == Nothing && b.handed == 0 && b.done == 0 && b.worker.maxTasksPerRun >= 1
    requires b.touched == b.claimed
    modifies b, b.store
    ensures b.Valid() && b.held == Nothing && b.handed <= b.worker.maxTasksPerRun
    ensures err.None? ==> b.handed == b.worker.maxTasksPerRun
    ensures err != Some(Stopped) ==> b.touched == b.claimed
    ensures err == Some(NotFound) ==> forall f :: !Due(b.store.View(), f)
    ensures err == Some(Constraint) ==> forall v, f :: DoClaim(b.store.View(), v, f).None?
  {
    for i := 0 to b.worker.maxTasksPerRun
      invariant b.Valid() && b.held == Nothing && b.handed == i && b.touched == b.claimed
    {
      b.Proceed();
      var stopped: bool := *;
      if stopped {
        return Some(Stopped);
      }
      err := b.Claim();
      if err.Some? {
        return err;
      }
      var late: bool := *;
      if late {
        b.Abandon();
        return Some(Stopped);
      }
      b.HandOver();
    }
    err := None;
  }

  lemma OthersStand(s: State, s': State, running: map<Actor, Job>, held: Held, claimed: set<FileId>, w: Actor, next: Option<At>)
    requires AllStand(s, running) && HeldStands(s, running, held) && AllClaimed(running, claimed) && w in running
    requires next.Some? ==> Stands(s', w, running[w].fid, next.value) && s'.workers == s.workers[w := s'.workers[w]]
    requires next.None? ==> s'.workers == s.workers - {w}
    ensures var running' := MovedOn(running, w, next);
            && AllStand(s', running') && HeldStands(s', running', held) && AllClaimed(running', claimed)
            && |running'.Keys| == |running.Keys| - (if next.Some? then 0 else 1)
            && running'.Keys == if next.Some? then running.Keys else running.Keys - {w}
  {
    assert MovedOn(running, w, next).Keys == if next.Some? then running.Keys else running.Keys - {w};
  }

  lemma RunningKept(s: State, s': State, running: map<Actor, Job>, w: Actor)
    requires AllStand(s, running) && w !in s.workers && w in s'.workers && s'.workers == s.workers[w := s'.workers[w]]
    ensures AllStand(s', running) && w !in running
  {
  }

  method Idle(workers: map<Actor, Progress>) returns (w: Actor)
    ensures w !in workers
  {
    ghost var above := AboveAll(workers.Keys);
    assert above !in workers;
    w :| w !in workers;
  }

  // Such a batch exists: while its only task is being processed the next claim
  // finds nothing due, and then the task is put back.
  lemma RefusalThenFailure(md5: Md5, bytes: Data)
    ensures Next(md5, OneTask(bytes, 0), Event.Claim(0, 1)).Some?
    ensures var busy := Next(md5, OneTask(bytes, 0), Event.Claim(0, 1)).value;
            (forall f :: !Due(busy, f))
            && Next(md5, busy, FailTask(0, 1)).Some? && Due(Next(md5, busy, FailTask(0, 1)).value, 1)
  {
    assert IsHead(OneTask(bytes, 0), 1);
  }
}
