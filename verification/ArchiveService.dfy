// The archive manager as it updates its job table in place, and the checks a
// selection passes before it becomes a job. Each method is one section under
// the manager's mutex, and is the step of the machine in ArchiveManager.
module ArchiveService {
  import opened Wrappers
  import opened ArchiveManager
  import PathPolicy

  datatype Entry = Entry(logicalPath: string, objectKey: string, size: int)

  datatype Error = InvalidSelection | InvalidEntry | TooLarge | AuthorizerFailed | Forbidden | ManagerClosed | Abandoned | NotFound

  predicate EntryOk(root: string, e: Entry) {
    PathPolicy.SafeLogical(e.logicalPath) && PathPolicy.Matches(e.logicalPath, root) && e.objectKey != "" && e.size >= 0
  }

  function Total(entries: seq<Entry>): int {
    if entries == [] then 0 else Total(entries[..|entries| - 1]) + entries[|entries| - 1].size
  }

  // The selections that may become a job.
  predicate Acceptable(root: string, entries: seq<Entry>, maxFiles: int, maxBytes: int) {
    && PathPolicy.SafeLogical(root) && 0 < |entries| <= maxFiles
    && (forall e <- entries :: EntryOk(root, e))
    && Total(entries) <= maxBytes
  }

  lemma {:induction false} TotalOfPart(root: string, entries: seq<Entry>, n: nat)
    requires n <= |entries| && forall e <- entries :: EntryOk(root, e)
    ensures 0 <= Total(entries[..n]) <= Total(entries)
    decreases |entries| - n, n
  {
    if n < |entries| {
      assert entries[..n + 1][..n] == entries[..n] && entries[n] in entries;
      TotalOfPart(root, entries, n + 1);
      TotalIsNatural(root, entries[..n]);
    } else {
      assert entries[..n] == entries;
      TotalIsNatural(root, entries);
    }
  }

  lemma {:induction false} TotalIsNatural(root: string, entries: seq<Entry>)
    requires forall e <- entries :: EntryOk(root, e)
    ensures Total(entries) >= 0
  {
    if entries != [] {
      assert entries[|entries| - 1] in entries;
      TotalIsNatural(root, entries[..|entries| - 1]);
    }
  }

  // These entries are sound, but too large together.
  predicate Overflows(root: string, part: seq<Entry>, maxBytes: int) {
    (forall e <- part :: EntryOk(root, e)) && Total(part) > maxBytes
  }

  lemma AcceptableMeans(root: string, entries: seq<Entry>, maxFiles: int, maxBytes: int)
    ensures Acceptable(root, entries, maxFiles, maxBytes) <==>
              && PathPolicy.SafeLogical(root) && 0 < |entries| <= maxFiles && Total(entries) <= maxBytes
              && forall e <- entries ::
                   && PathPolicy.SafeLogical(e.logicalPath) && PathPolicy.Matches(e.logicalPath, root)
                   && e.objectKey != "" && e.size >= 0
  {
    assert forall e <- entries :: EntryOk(root, e) <==>
      && PathPolicy.SafeLogical(e.logicalPath) && PathPolicy.Matches(e.logicalPath, root) && e.objectKey != "" && e.size >= 0;
  }

  lemma {:induction false} TotalAdds(a: seq<Entry>, b: seq<Entry>)
    ensures Total(a + b) == Total(a) + Total(b)
    decreases |b|
  {
    if b == [] {
      assert a + b == a;
    } else {
      var most := b[..|b| - 1];
      assert (a + b)[..|a + b| - 1] == a + most;
      TotalAdds(a, most);
    }
  }

  // The total is the sum of the sizes, and so does not depend on the order.
  lemma TotalIsSum(a: seq<Entry>, e: Entry, b: seq<Entry>)
    ensures Total([]) == 0 && Total([e]) == e.size
    ensures Total(a + [e] + b) == Total(a) + e.size + Total(b)
  {
    assert [e][..0] == [];
    TotalAdds(a, [e]);
    TotalAdds(a + [e], b);
  }

  // However an accepted selection is split, both parts together stay within the
  // limit.
  lemma AcceptedPartsFit(root: string, a: seq<Entry>, b: seq<Entry>, maxFiles: int, maxBytes: int)
    requires Acceptable(root, a + b, maxFiles, maxBytes)
    ensures 0 <= Total(a) && 0 <= Total(b) && Total(a) + Total(b) <= maxBytes && |a| + |b| <= maxFiles
  {
    TotalAdds(a, b);
    assert forall e <- a :: e in a + b;
    assert forall e <- b :: e in a + b;
    TotalIsNatural(root, a);
    TotalIsNatural(root, b);
  }

  // Every path of an accepted selection continues the root, segment by segment.
  lemma AcceptedStaysBelowRoot(root: string, entries: seq<Entry>, maxFiles: int, maxBytes: int, e: Entry)
    requires Acceptable(root, entries, maxFiles, maxBytes) && e in entries
    ensures PathPolicy.Rooted(root) && PathPolicy.Rooted(e.logicalPath)
    ensures PathPolicy.Segments(root) <= PathPolicy.Segments(e.logicalPath)
    ensures forall seg <- PathPolicy.Segments(e.logicalPath) :: seg != ".." && seg != "."
    ensures 0 <= e.size <= maxBytes
  {
    assert EntryOk(root, e);
    PathPolicy.SafeLogicalMeans(root);
    PathPolicy.SafeLogicalMeans(e.logicalPath);
    PathPolicy.MatchesIsPrefix(e.logicalPath, root);
    var i :| 0 <= i < |entries| && entries[i] == e;
    TotalOfPart(root, entries, i);
    TotalOfPart(root, entries, i + 1);
    assert entries[..i + 1][..i] == entries[..i];
  }

  class Manager {
    const workers: nat
    const maxFiles: int
    const maxBytes: int
    const ttl: int
    var jobs: map<Id, Job>
    var cancelled: set<Id> // jobs whose context is done
    var tasks: seq<Id>     // the channel's buffer
    var phase: Phase
    var disk: map<Path, Id>
    ghost var making: set<Id>
    ghost var builds: map<Id, Build>
    ghost var idle: nat
    ghost var issued: set<Id>
    ghost var leaked: set<Path>

    ghost function View(): State
      reads this
    {
      State(jobs, cancelled, making, tasks, builds, idle, disk, phase, issued, leaked)
    }

    ghost predicate Valid()
      reads this
    {
      Reachable(workers, View())
    }

    constructor (workers: nat, maxFiles: int, maxBytes: int, ttl: int)
      requires workers > 0 && maxFiles > 0 && maxBytes > 0 && ttl > 0
      ensures Valid() && View() == Init(workers)
      ensures this.workers == workers && this.maxFiles == maxFiles && this.maxBytes == maxBytes && this.ttl == ttl
    {
      this.workers, this.maxFiles, this.maxBytes, this.ttl := workers, maxFiles, maxBytes, ttl;
      jobs, cancelled, tasks, phase, disk := map[], {}, [], Open, map[];
      making, builds, idle, issued, leaked := {}, map[], workers, {}, {};
      new;
      assert Run(workers, Init(workers), [], View());
    }

    method CheckEntry(root: string, e: Entry) returns (ok: bool)
      ensures ok <==> EntryOk(root, e)
    {
      ok := !(!PathPolicy.SafeLogical(e.logicalPath) || !PathPolicy.Matches(e.logicalPath, root) || e.objectKey == "" || e.size < 0);
    }

    method Validate(root: string, entries: seq<Entry>) returns (err: Option<Error>)
      requires maxBytes > 0
      ensures err.None? <==> Acceptable(root, entries, maxFiles, maxBytes)
      ensures err.None? <==>
                && PathPolicy.SafeLogical(root) && 0 < |entries| <= maxFiles && Total(entries) <= maxBytes
                && forall e <- entries ::
                     && PathPolicy.SafeLogical(e.logicalPath) && PathPolicy.Matches(e.logicalPath, root)
                     && e.objectKey != "" && e.size >= 0
      ensures err == Some(InvalidSelection) <==> !PathPolicy.SafeLogical(root) || !(0 < |entries| <= maxFiles)
      ensures err.Some? ==> err.value in {InvalidSelection, InvalidEntry, TooLarge}
      ensures err == Some(TooLarge) ==> exists part :: part <= entries && Overflows(root, part, maxBytes)
    {
      AcceptableMeans(root, entries, maxFiles, maxBytes);
      if !PathPolicy.SafeLogical(root) || |entries| == 0 || |entries| > maxFiles {
        return Some(InvalidSelection);
      }
      err := ValidateEntries(root, entries);
    }

    // The running total never exceeds maxBytes, so the subtraction cannot wrap.
    method ValidateEntries(root: string, entries: seq<Entry>) returns (err: Option<Error>)
      requires maxBytes > 0
      ensures err.None? <==> (forall e <- entries :: EntryOk(root, e)) && Total(entries) <= maxBytes
      ensures err.Some? ==> err == Some(InvalidEntry) || err == Some(TooLarge)
      ensures err == Some(TooLarge) ==> exists part :: part <= entries && Overflows(root, part, maxBytes)
    {
      var total := 0;
      for i := 0 to |entries|
        invariant forall e <- entries[..i] :: EntryOk(root, e)
        invariant total == Total(entries[..i]) && 0 <= total <= maxBytes
      {
        assert entries[..i + 1][..i] == entries[..i];
        var e := entries[i];
        var ok := CheckEntry(root, e);
        if !ok {
          assert e in entries && !EntryOk(root, e);
          return Some(InvalidEntry);
        }
        if e.size > maxBytes - total {
          if forall e <- entries :: EntryOk(root, e) {
            TotalOfPart(root, entries, i + 1);
          }
          assert entries[..i + 1] == entries[..i] + [e];
          assert Overflows(root, entries[..i + 1], maxBytes);
          return Some(TooLarge);
        }
        total := total + e.size;
      }
      assert entries[..|entries|] == entries;
      return None;
    }

    // allow answers for the authorizer, None being its error.
    method Authorize(entries: seq<Entry>, allow: string -> Option<bool>) returns (err: Option<Error>)
      ensures err.None? <==> forall e <- entries :: allow(e.logicalPath) == Some(true)
      ensures err.Some? ==> err.value in {AuthorizerFailed, Forbidden}
    {
      for i := 0 to |entries|
        invariant forall e <- entries[..i] :: allow(e.logicalPath) == Some(true)
      {
        var ok := allow(entries[i].logicalPath);
        assert entries[i] in entries;
        if ok.None? {
          return Some(AuthorizerFailed);
        }
        if !ok.value {
          return Some(Forbidden);
        }
      }
      assert entries[..|entries|] == entries;
      return None;
    }

    method Register(id: Id, expires: int) returns (ok: bool)
      requires Valid() && id !in issued
      modifies this`jobs, this`making, this`issued
      ensures Valid() && (ok <==> old(phase) == Open)
      ensures if ok then DoRegister(old(View()), id, expires) == Some(View()) else View() == old(View())
    {
      if phase != Open {
        return false;
      }
      ReachableStep(workers, View(), Event.Register(id, expires));
      jobs := jobs[id := Job(Running, expires, None)];
      making, issued := making + {id}, issued + {id};
      return true;
    }

    // The select at the end of create; sent tells which branch it takes when the
    // channel has room.
    method Submit(id: Id, sent: bool) returns (ok: bool)
      requires Valid() && id in making
      modifies this`tasks, this`making, this`cancelled
      ensures Valid() && (ok <==> sent && |old(tasks)| < workers)
      ensures if ok then DoSend(workers, old(View()), id) == Some(View()) else DoAbandon(old(View()), id) == Some(View())
    {
      ok := sent && |tasks| < workers;
      ReachableStep(workers, View(), if ok then Send(id) else Abandon(id));
      if ok {
        tasks := tasks + [id];
      } else if id in jobs && jobs[id].status == Running {
        cancelled := cancelled + {id};
      }
      making := making - {id};
    }

    // A job comes into being exactly for acceptable, authorized selections while
    // the manager is open; it is queued unless the caller gave up waiting.
    method Create(id: Id, now: int, root: string, entries: seq<Entry>, allow: string -> Option<bool>, sent: bool)
      returns (err: Option<Error>)
      requires Valid() && id !in issued && maxBytes > 0
      modifies this
      ensures Valid()
      ensures (err.None? || err == Some(Abandoned)) <==>
                && Acceptable(root, entries, maxFiles, maxBytes)
                && (forall e <- entries :: allow(e.logicalPath) == Some(true))
                && old(phase) == Open
      ensures err.None? || err == Some(Abandoned) ==>
                && jobs == old(jobs)[id := Job(Running, now + ttl, None)] && disk == old(disk) && phase == old(phase)
                && tasks == (if err.None? then old(tasks) + [id] else old(tasks))
                && cancelled == if err.None? then old(cancelled) else old(cancelled) + {id}
      ensures err.None? ==> Run(workers, old(View()), [Event.Register(id, now + ttl), Send(id)], View())
      ensures err == Some(Abandoned) ==> Run(workers, old(View()), [Event.Register(id, now + ttl), Abandon(id)], View())
      ensures err.Some? && err != Some(Abandoned) ==> View() == old(View())
    {
      err := Validate(root, entries);
      if err.Some? {
        return;
      }
      err := Authorize(entries, allow);
      if err.Some? {
        return;
      }
      var open := Register(id, now + ttl);
      if !open {
        return Some(ManagerClosed);
      }
      ghost var mid := View();
      var ok := Submit(id, sent);
      assert Run(workers, mid, [if ok then Send(id) else Abandon(id)], View());
      err := if ok then None else Some(Abandoned);
    }

    method Cancel(id: Id) returns (err: Option<Error>)
      requires Valid()
      modifies this`cancelled
      ensures Valid() && View() == DoCancel(old(View()), id)
      ensures cancelled == old(cancelled) + if id in jobs && jobs[id].status == Running then {id} else {}
      ensures err == if id in jobs then None else Some(NotFound)
    {
      ReachableStep(workers, View(), Event.Cancel(id));
      if id !in jobs {
        return Some(NotFound);
      }
      if jobs[id].status == Running {
        cancelled := cancelled + {id};
      }
      return None;
    }

    // The locked section at the end of build, for the temporary file it made, if
    // any. The job is there: the missing-job branch of the program is dead.
    method FinishBuild(id: Id, file: Option<Path>, failed: bool, stat: bool)
      requires Valid() && id in builds && builds[id] == (if file.Some? then Temp(file.value) else NoTemp)
      requires file.None? ==> failed
      modifies this
      ensures Valid() && DoFinish(old(View()), id, failed, stat) == Some(View())
      ensures id in jobs && jobs[id].status ==
                if id in old(cancelled) then Cancelled else if failed || !stat then Failed else Complete
      ensures id in old(jobs) && jobs == old(jobs)[id := jobs[id]] && jobs[id].expires == old(jobs)[id].expires
      ensures jobs[id].status == Complete ==> jobs[id].file == file && disk == old(disk)
      ensures jobs[id].status == Cancelled || failed ==> disk == old(disk) - if file.Some? then {file.value} else {}
    {
      ReachableStep(workers, View(), Finish(id, failed, stat));
      BuildFindsItsJob(workers, View(), id);
      ghost var b := builds[id];
      builds, idle := builds - {id}, idle + 1;
      if id in cancelled {
        jobs := jobs[id := jobs[id].(status := Cancelled)];
        disk := if file.Some? then disk - {file.value} else disk;
        return;
      }
      if failed {
        jobs := jobs[id := jobs[id].(status := Failed)];
        disk := if file.Some? then disk - {file.value} else disk;
        return;
      }
      if !stat {
        jobs := jobs[id := jobs[id].(status := Failed)];
        leaked := leaked + {b.file};
        return;
      }
      jobs := jobs[id := jobs[id].(status := Complete, file := file)];
    }

    // Removes the artifacts of the jobs in ids and forgets those jobs.
    method RemoveJobs(ids: set<Id>) returns (n: nat)
      requires ids <= jobs.Keys
      modifies this`jobs, this`disk
      ensures View() == Drop(old(View()), ids) && n == |ids|
    {
      var rest := ids;
      ghost var gone: set<Id> := {};
      n := 0;
      DropNone(View());
      while rest != {}
        invariant gone + rest == ids && gone !! rest && n == |gone| && rest <= jobs.Keys
        invariant View() == Drop(old(View()), gone)
        decreases rest
      {
        var id :| id in rest;
        DropOneMore(old(View()), gone, id);
        RemoveJob(id);
        rest, gone, n := rest - {id}, gone + {id}, n + 1;
      }
    }

    method RemoveJob(id: Id)
      requires id in jobs
      modifies this`jobs, this`disk
      ensures jobs == old(jobs) - {id} && disk == old(disk) - FileOf(old(jobs)[id])
    {
      if jobs[id].file.Some? {
        disk := disk - {jobs[id].file.value};
      }
      jobs := jobs - {id};
    }

    method Cleanup(now: int) returns (n: nat)
      requires Valid()
      modifies this`jobs, this`disk
      ensures Valid() && Next(workers, old(View()), Event.Cleanup(now)) == Some(View())
      ensures n == |ExpiredIds(old(jobs), now)|
      ensures jobs.Keys <= old(jobs).Keys && forall id <- old(jobs).Keys ::
                if old(jobs)[id].status == Running || now < old(jobs)[id].expires then id in jobs && jobs[id] == old(jobs)[id]
                else id !in jobs && (old(jobs)[id].file.Some? ==> old(jobs)[id].file.value !in disk)
    {
      ReachableStep(workers, View(), Event.Cleanup(now));
      var expired := set id | id in jobs && now >= jobs[id].expires && jobs[id].status != Running;
      assert expired == ExpiredIds(jobs, now);
      n := RemoveJobs(expired);
      forall id <- expired | old(jobs)[id].file.Some? ensures old(jobs)[id].file.value !in disk {
        assert old(jobs)[id].file.value in FileOf(old(jobs)[id]);
        assert old(jobs)[id].file.value in FilesOf(old(jobs), expired);
      }
    }

    // Close, up to the point where it waits for the workers.
    method BeginClose()
      requires Valid() && phase == Open
      modifies this`phase, this`cancelled
      ensures Valid() && Run(workers, old(View()), [CloseChannel, CancelAll], View())
      ensures jobs.Keys <= cancelled
    {
      phase := Closing;
      ghost var mid := View();
      ReachableStep(workers, old(View()), CloseChannel);
      ReachableStep(workers, mid, CancelAll);
      var rest := jobs.Keys;
      while rest != {}
        invariant rest <= jobs.Keys && cancelled == old(cancelled) + (jobs.Keys - rest)
        decreases rest
      {
        var id :| id in rest;
        cancelled, rest := cancelled + {id}, rest - {id};
      }
      assert jobs.Keys - rest == jobs.Keys;
      phase := Draining;
      assert Next(workers, mid, CancelAll) == Some(View());
      assert Run(workers, mid, [CancelAll], View());
    }

    // Close, after wg.Wait: every worker has returned.
    method EndClose()
      requires Valid() && phase == Draining && idle == 0 && builds == map[]
      modifies this`jobs, this`disk, this`phase
      ensures Valid() && Next(workers, old(View()), RemoveAll) == Some(View())
      ensures jobs == map[] && disk.Keys == leaked
    {
      ReachableStep(workers, View(), RemoveAll);
      var _ := RemoveJobs(jobs.Keys);
      jobs := map[];
      phase := Closed;
      NothingLeftAfterClose(workers, View(), [], View());
    }
  }

  lemma DropNone(s: State)
    ensures Drop(s, {}) == s
  {
    assert s.jobs - {} == s.jobs && s.disk - FilesOf(s.jobs, {}) == s.disk;
  }

  lemma DropOneMore(s: State, ids: set<Id>, id: Id)
    requires id in s.jobs && id !in ids
    ensures var t := Drop(s, ids);
            Drop(s, ids + {id}) == t.(jobs := t.jobs - {id}, disk := t.disk - FileOf(s.jobs[id]))
  {
    assert FilesOf(s.jobs, ids + {id}) == FilesOf(s.jobs, ids) + FileOf(s.jobs[id]);
    assert s.jobs - (ids + {id}) == s.jobs - ids - {id};
  }
}
