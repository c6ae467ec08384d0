// The repository's tables and the object store's files, changed in place. Each
// method is one statement or one storage call: it takes effect as one step of
// the machine in Hub, or fails and changes nothing. The state s and its history
// tie the tables to that machine.
module HubStore {
  import opened Wrappers
  import opened Bytes
  import opened Hub
  import opened HubInvariant
  import opened HubFrame

  datatype Error = NotFound | Conflict | OffsetConflict | TooLarge | Incomplete | Checksum | Broken

  // Steps that settle something for other readers.
  predicate Outcome(e: Event) {
    || e.InsertRow? || e.CommitWrite? || e.CommitUpload? || e.DeleteRow? || e.UnlinkOrphan?
    || e.InsertFile? || e.Tombstone? || e.Settle?
  }

  // The outcomes me has brought about in a history, in order.
  function Outcomes(hist: seq<Event>, me: Actor): seq<Event> {
    if hist == [] then []
    else
      var last := hist[|hist| - 1];
      Outcomes(hist[..|hist| - 1], me) + if Outcome(last) && By(last, me) then [last] else []
  }

  lemma OutcomesOne(hist: seq<Event>, e: Event, me: Actor)
    ensures Outcomes(hist + [e], me) == Outcomes(hist, me) + if Outcome(e) && By(e, me) then [e] else []
  {
    assert (hist + [e])[..|hist|] == hist;
  }

  lemma {:induction false} OutcomesOfOthers(hist: seq<Event>, evs: seq<Event>, me: Actor)
    requires NoneBy(evs, me)
    ensures Outcomes(hist + evs, me) == Outcomes(hist, me)
    decreases |evs|
  {
    if evs == [] {
      assert hist + evs == hist;
    } else {
      var most, last := evs[..|evs| - 1], evs[|evs| - 1];
      assert last in evs && hist + evs == (hist + most) + [last];
      OutcomesOfOthers(hist, most, me);
      OutcomesOne(hist + most, last, me);
    }
  }

  lemma LeadsToInv(hist: seq<Event>, s: State)
    requires LeadsTo(hist, s)
    ensures Inv(s)
  {
    LeadsToIsRun(hist, s);
    RunKeeps(Init(), hist, s);
  }

  lemma OneMore(hist: seq<Event>, s: State, e: Event)
    requires LeadsTo(hist, s) && Next(s, e).Some?
    ensures LeadsTo(hist + [e], Next(s, e).value)
  {
    LeadsToIsRun(hist, s);
    LeadsToIsRun(hist + [e], Next(s, e).value);
    RunOne(hist, s, e);
  }

  lemma ManyMore(hist: seq<Event>, s: State, evs: seq<Event>, s': State, me: Actor)
    requires LeadsTo(hist, s) && Run(s, evs, s') && NoneBy(evs, me)
    ensures LeadsTo(hist + evs, s') && Unmoved(s, s', me)
  {
    LeadsToIsRun(hist, s);
    LeadsToIsRun(hist + evs, s');
    LeadsToInv(hist, s);
    RunUnmoved(s, evs, s', me);
    RunAppend(Init(), hist, s, evs, s');
  }

  lemma RunOne(hist: seq<Event>, s: State, e: Event)
    requires Run(Init(), hist, s) && Next(s, e).Some?
    ensures Run(Init(), hist + [e], Next(s, e).value)
  {
    var s' := Next(s, e).value;
    assert Run(s', [], s') && [e][1..] == [];
    assert Run(s, [e], s');
    RunAppend(Init(), hist, s, [e], s');
  }

  lemma ReadRowIs(s: State, me: Actor, id: UploadId, op: Op, next: Option<Proc>)
    requires me in s.procs && s.procs[me] == Locked(id, op) && next == AfterRead(s, id, op)
    ensures var s' := s.(procs := if next.Some? then s.procs[me := next.value] else s.procs - {me});
            Next(s, ReadRow(me)) == Some(s') && AfterRead(s', id, op) == next
  {
    assert DoReadRow(s, me) == Some(if next.None? then Leave(s, me) else Go(s, me, next.value));
  }

  lemma NothingWithoutRow(s: State, id: UploadId, op: Op)
    ensures id !in s.rows && op != CleanOp(IfOrphan) ==> AfterRead(s, id, op).None?
  {
  }

  lemma PassingThrough(s: State, me: Actor, p: Proc, q: Proc, id: UploadId)
    requires LockOf(p).None? && me !in s.procs
    ensures s.procs[me := p][me := q] == s.procs[me := q] && s.procs[me := p] - {me} == s.procs
    ensures LockFree(s, id) ==> LockFree(Go(s, me, p), id)
  {
  }

  // Between two steps of me its place and the session it has locked do not change.
  predicate Steady(s: State, s': State, me: Actor) {
    && s.now <= s'.now
    && (if me in s.procs then me in s'.procs && s'.procs[me] == s.procs[me] else me !in s'.procs)
    && (me in s.procs && LockOf(s.procs[me]).Some? ==>
          var id := LockOf(s.procs[me]).value;
          id in s.rows ==>
            && id in s'.rows && s'.rows[id] == s.rows[id]
            && (if id in s.staging then id in s'.staging && s'.staging[id] == s.staging[id] else id !in s'.staging))
  }

  // Both states show the same tables, files and time.
  predicate SameTables(s: State, s': State) {
    && s'.rows == s.rows && s'.staging == s.staging && s'.objects == s.objects && s'.files == s.files
    && s'.dirs == s.dirs && s'.jobs == s.jobs && s'.now == s.now
  }

  class Store {
    // No faults and nobody else at work.
    const quiet: bool
    var rows: map<UploadId, Row>
    var staging: map<UploadId, Data>
    var objects: map<Key, Data>
    var files: map<FileId, File>
    var dirs: set<Target>
    var jobs: map<Key, int>
    var now: int
    // The machine's state. Beyond the tables it stands for what the kernel and
    // the processes know: where each actor is and who holds which flock.
    var s: State
    ghost var hist: seq<Event>

    ghost predicate Valid()
      reads this
    {
      && LeadsTo(hist, s)
      && rows == s.rows && staging == s.staging && objects == s.objects
      && files == s.files && dirs == s.dirs && jobs == s.jobs && now == s.now
    }

    ghost function Own(me: Actor): seq<Event>
      reads this
    {
      Outcomes(hist, me)
    }

    constructor (quiet: bool)
      ensures Valid() && s == Init() && hist == [] && this.quiet == quiet
    {
      this.quiet := quiet;
      rows, staging, objects, files, dirs, jobs, now := map[], map[], map[], map[], {}, map[], 0;
      s, hist := Init(), [];
      new;
      LeadsToIsRun([], Init());
    }

    method Step(me: Actor, e: Event)
      requires LeadsTo(hist, s) && Next(s, e).Some? && By(e, me)
      modifies this`s, this`hist
      ensures LeadsTo(hist, s) && s == Next(old(s), e).value && hist == old(hist) + [e]
      ensures Own(me) == old(Own(me)) + if Outcome(e) then [e] else []
    {
      OneMore(hist, s, e);
      OutcomesOne(hist, e, me);
      s := Next(s, e).value;
      hist := hist + [e];
    }

    // The same for the steps of handlers and published recovery.
    method StepOnFiles(me: Actor, e: Event)
      requires LeadsTo(hist, s) && OnFiles(e) && NextOnFiles(s, e).Some? && By(e, me)
      modifies this`s, this`hist
      ensures LeadsTo(hist, s) && s == NextOnFiles(old(s), e).value && hist == old(hist) + [e]
      ensures Own(me) == old(Own(me)) + if Outcome(e) then [e] else []
    {
      assert Next(s, e) == NextOnFiles(s, e);
      Step(me, e);
    }

    // Any call may fail, except in a quiet store.
    method Fault() returns (failed: bool)
      ensures quiet ==> !failed
    {
      failed :| quiet ==> !failed;
    }

    // What all other actors do between two steps of me, the clock included:
    // callers know of it only what this contract says.
    method Others(me: Actor) returns (ghost evs: seq<Event>)
      requires Valid()
      modifies this
      ensures Valid() && NoneBy(evs, me) && hist == old(hist) + evs && Run(old(s), evs, s)
      ensures quiet ==> evs == []
    {
      evs := [];
      assert hist + [] == hist;
    }

    method Yield(me: Actor)
      requires Valid()
      modifies this
      ensures Valid() && Steady(old(s), s, me)
      ensures old(hist) <= hist && Own(me) == old(Own(me))
      ensures quiet ==> s == old(s)
    {
      ghost var evs := Others(me);
      ManyMore(old(hist), old(s), evs, s, me);
      OutcomesOfOthers(old(hist), evs, me);
    }

    // The actor returns, giving up any lock it holds.
    method Return(me: Actor)
      requires Valid() && me in s.procs
      modifies this`s, this`hist
      ensures Valid() && old(hist) <= hist && Own(me) == old(Own(me)) && s.procs == old(s.procs) - {me}
    {
      Step(me, Quit(me));
    }

    // --- the lifecycle lock ---

    method LockStagingLifecycle(me: Actor, id: UploadId, op: Op) returns (ok: bool)
      requires Valid() && !op.PublishOp? && me !in s.procs
      modifies this
      ensures Valid() && old(hist) <= hist && Own(me) == old(Own(me))
      ensures if ok then me in s.procs && s.procs[me] == Locked(id, op) else me !in s.procs
      ensures quiet ==> SameTables(old(s), s) && s.procs == if ok then old(s.procs)[me := Locked(id, op)] else old(s.procs)
      ensures quiet && LockFree(old(s), id) ==> ok
    {
      PassingThrough(s, me, Waiting(id, op), Locked(id, op), id);
      Step(me, Begin(me, id, op));
      ok := Wait(me, id);
    }

    // A caller that is never let in is one that stops here.
    method Wait(me: Actor, id: UploadId) returns (ok: bool)
      requires Valid() && me in s.procs && s.procs[me].Waiting? && s.procs[me].id == id
      modifies this
      ensures Valid() && old(hist) <= hist && Own(me) == old(Own(me))
      ensures if ok then me in s.procs && s.procs[me] == Locked(id, old(s.procs[me]).op) else me !in s.procs
      ensures quiet ==>
                && SameTables(old(s), s)
                && s.procs == if ok then old(s.procs)[me := Locked(id, old(s.procs[me]).op)] else old(s.procs) - {me}
      ensures quiet && LockFree(old(s), id) ==> ok
    {
      Yield(me);
      var failed := Fault();
      if failed || !LockFree(s, id) {
        Return(me);
        return false;
      }
      Step(me, Acquire(me));
      Yield(me);
      return true;
    }

    method UploadSessionByID(id: UploadId) returns (row: Option<Row>, err: Option<Error>)
      requires Valid()
      ensures err.None? ==> id in rows && row == Some(rows[id])
      ensures err == Some(NotFound) ==> id !in rows
      ensures err.Some? ==> err.value in {NotFound, Broken} && (quiet ==> err == Some(NotFound))
    {
      var failed := Fault();
      if failed {
        return None, Some(Broken);
      }
      if id !in rows {
        return None, Some(NotFound);
      }
      return Some(rows[id]), None;
    }

    // The same read under the lock; op tells what the section is about to do,
    // and next what it will do with what it finds.
    method ReadLocked(me: Actor, id: UploadId, op: Op) returns (row: Option<Row>, ghost next: Option<Proc>, err: Option<Error>)
      requires Valid() && me in s.procs && s.procs[me] == Locked(id, op)
      modifies this`s, this`hist
      ensures Valid() && old(hist) <= hist && Own(me) == old(Own(me))
      ensures err.None? ==> id in rows && row == Some(rows[id])
      ensures err == Some(NotFound) ==> id !in rows
      ensures err != Some(Broken) ==> next == AfterRead(s, id, op)
      ensures s.procs == if next.Some? then old(s.procs)[me := next.value] else old(s.procs) - {me}
      ensures err.Some? ==> err.value in {NotFound, Broken} && (quiet ==> err == Some(NotFound))
      ensures err == Some(Broken) || (err.Some? && op != CleanOp(IfOrphan)) ==> next.None?
    {
      next := None;
      row, err := UploadSessionByID(id);
      if err == Some(Broken) {
        Return(me);
      } else {
        next := GoOn(me, id, op);
        NothingWithoutRow(s, id, op);
      }
    }

    method GoOn(me: Actor, id: UploadId, op: Op) returns (ghost next: Option<Proc>)
      requires Valid() && me in s.procs && s.procs[me] == Locked(id, op)
      modifies this`s, this`hist
      ensures Valid() && old(hist) <= hist && Own(me) == old(Own(me))
      ensures next == AfterRead(s, id, op)
      ensures s.procs == if next.Some? then old(s.procs)[me := next.value] else old(s.procs) - {me}
    {
      next := AfterRead(s, id, op);
      ReadRowIs(s, me, id, op, next);
      Step(me, ReadRow(me));
    }

    // --- staging files ---

    method CreateStaging(me: Actor, id: UploadId, row: Row) returns (ok: bool)
      requires Valid() && me !in s.procs && id !in s.issued && row.offset == 0 && row.status == Active
      modifies this`staging, this`s, this`hist
      ensures Valid() && old(hist) <= hist && Own(me) == old(Own(me))
      ensures if ok then s.procs == old(s.procs)[me := Creating(id, row)] && staging == old(staging)[id := []]
              else s == old(s)
      ensures quiet ==> ok
    {
      var failed := Fault();
      if failed {
        return false;
      }
      staging := staging[id := []];
      Step(me, CreatePart(me, id, row));
      return true;
    }

    method CreateUploadSession(me: Actor, id: UploadId, row: Row) returns (ok: bool)
      requires Valid() && me in s.procs && s.procs[me] == Creating(id, row)
      modifies this`rows, this`s, this`hist
      ensures Valid() && old(hist) <= hist
      ensures ok ==> rows == old(rows)[id := row] && s.procs == old(s.procs) - {me}
      ensures !ok ==> rows == old(rows) && s.procs == old(s.procs)[me := CreateUndo(id)]
      ensures Own(me) == old(Own(me)) + if ok then [InsertRow(me)] else []
      ensures quiet ==> ok
    {
      var failed := Fault();
      if failed {
        Step(me, InsertRowFailed(me));
        return false;
      }
      rows := rows[id := row];
      Step(me, InsertRow(me));
      return true;
    }

    // RemoveStaging after a failed insert; its error is ignored.
    method RemoveNewStaging(me: Actor, id: UploadId)
      requires Valid() && me in s.procs && s.procs[me] == CreateUndo(id)
      modifies this`staging, this`s, this`hist
      ensures Valid() && old(hist) <= hist && Own(me) == old(Own(me))
      ensures s.procs == old(s.procs) - {me} && (staging == old(staging) || staging == old(staging) - {id})
    {
      var failed := Fault();
      if failed {
        Return(me);
      } else {
        staging := staging - {id};
        Step(me, UndoCreate(me));
      }
    }

    method Truncate(me: Actor, id: UploadId, size: nat) returns (ok: bool)
      requires Valid() && me in s.procs && s.procs[me].Truncating? && s.procs[me].id == id && s.procs[me].row.offset == size
      modifies this`staging, this`s, this`hist
      ensures Valid() && old(hist) <= hist && Own(me) == old(Own(me))
      ensures ok ==>
                && id in old(staging) && staging == old(staging)[id := Resize(old(staging)[id], size)]
                && var p := old(s.procs)[me]; s.procs == old(s.procs)[me := Copying(id, p.row, p.body, 0)]
      ensures !ok ==> s == old(s)
      ensures quiet && id in old(staging) ==> ok
    {
      var failed := Fault();
      if failed || id !in staging {
        return false;
      }
      staging := staging[id := Resize(staging[id], size)];
      Step(me, Event.Truncate(me));
      return true;
    }

    lemma CopierHolds(me: Actor)
      requires Valid() && me in s.procs && s.procs[me].Copying?
      ensures s.procs[me].id in staging && s.procs[me].id in rows && s.procs[me].id in s.accepted
      ensures rows[s.procs[me].id] == s.procs[me].row && s.procs[me].n <= |s.procs[me].body|
      ensures |staging[s.procs[me].id]| == s.procs[me].row.offset + s.procs[me].n
      ensures s.procs[me].row.offset <= s.procs[me].row.length
    {
      LeadsToInv(hist, s);
      assert ProcOk(s, me, s.procs[me]) && RowOk(s, s.procs[me].id);
    }

    // The copy loop has read the body up to n.
    method WriteChunk(me: Actor, id: UploadId, n: nat)
      requires Valid() && me in s.procs && s.procs[me].Copying? && s.procs[me].id == id
      requires s.procs[me].n < n <= |s.procs[me].body| && s.procs[me].row.offset + n <= s.procs[me].row.length + 1
      modifies this`staging, this`s, this`hist
      ensures Valid() && old(hist) <= hist && Own(me) == old(Own(me))
      ensures var p := old(s.procs)[me];
              && s.procs == old(s.procs)[me := Copying(id, p.row, p.body, n)]
              && id in old(staging) && staging == old(staging)[id := old(staging)[id] + p.body[p.n..n]]
    {
      CopierHolds(me);
      var p := s.procs[me];
      OverwriteAtEnd(staging[id], p.body[p.n..n]);
      staging := staging[id := Overwrite(staging[id], p.row.offset + p.n, p.body[p.n..n])];
      Step(me, CopyBytes(me, n));
    }

    // The truncate on an error path; its own error is ignored.
    method RollBack(me: Actor, id: UploadId, size: nat)
      requires Valid() && me in s.procs && s.procs[me].Copying? && s.procs[me].id == id && s.procs[me].row.offset == size
      modifies this`staging, this`s, this`hist
      ensures Valid() && old(hist) <= hist && Own(me) == old(Own(me))
      ensures s.procs == old(s.procs) - {me} && id in old(staging)
      ensures quiet ==> staging == old(staging)[id := Resize(old(staging)[id], size)]
    {
      CopierHolds(me);
      var failed := Fault();
      if failed {
        Step(me, Rollback(me, false));
      } else {
        CutBack(me, id, size);
      }
    }

    method CutBack(me: Actor, id: UploadId, size: nat)
      requires Valid() && me in s.procs && s.procs[me].Copying? && s.procs[me].id == id && s.procs[me].row.offset == size
      requires id in staging
      modifies this`staging, this`s, this`hist
      ensures Valid() && old(hist) <= hist && Own(me) == old(Own(me)) && s.procs == old(s.procs) - {me}
      ensures staging == old(staging)[id := Resize(old(staging)[id], size)]
    {
      staging := staging[id := Resize(staging[id], size)];
      Step(me, Rollback(me, true));
    }

    method UpdateUploadOffset(me: Actor, id: UploadId, expected: nat, next: nat) returns (ok: bool)
      requires Valid() && me in s.procs && s.procs[me].Copying? && s.procs[me].id == id && s.procs[me].row.offset == expected
      requires s.procs[me].n == |s.procs[me].body| && next == expected + |s.procs[me].body| <= s.procs[me].row.length
      modifies this`rows, this`s, this`hist
      ensures Valid() && old(hist) <= hist
      ensures ok ==>
                && id in old(rows) && rows == old(rows)[id := old(rows)[id].(offset := next)]
                && s.procs == old(s.procs) - {me}
      ensures !ok ==> s == old(s)
      ensures Own(me) == old(Own(me)) + if ok then [CommitWrite(me, id, expected, old(s.procs)[me].body)] else []
      ensures quiet ==> ok
    {
      CopierHolds(me);
      var failed := Fault();
      if failed || id !in rows || rows[id].offset != expected {
        return false;
      }
      rows := rows[id := rows[id].(offset := next)];
      Step(me, CommitWrite(me, id, expected, s.procs[me].body));
      return true;
    }

    // --- publication ---

    // HashAndSyncStaging with the length check that follows it; the lock is
    // dropped either way. content is what went through the hash.
    method HashAndSyncStaging(me: Actor, id: UploadId, length: nat) returns (content: Data, err: Option<Error>)
      requires Valid() && me in s.procs && s.procs[me].Hashing? && s.procs[me].id == id && s.procs[me].row.length == length
      modifies this`s, this`hist
      ensures Valid() && old(hist) <= hist && Own(me) == old(Own(me))
      ensures err.None? ==>
                && id in staging && content == staging[id] && |content| == length
                && s.procs == old(s.procs)[me := Waiting(id, PublishOp(content))]
      ensures err.Some? ==> s.procs == old(s.procs) - {me} && (err == Some(Broken) || err == Some(Incomplete))
      ensures quiet ==> (err.None? <==> id in staging && |staging[id]| == length)
    {
      var failed := Fault();
      if failed || id !in staging {
        Return(me);
        return [], Some(Broken);
      }
      content := staging[id];
      if |content| != length {
        Return(me);
        return content, Some(Incomplete);
      }
      Step(me, Hash(me));
      err := None;
    }

    method FreshKey() returns (key: Key)
      requires Valid()
      ensures key !in s.roles && key !in objects && key !in jobs
    {
      ghost var above := AboveAll(s.roles.Keys);
      assert above !in s.roles;
      key :| key !in s.roles;
      LeadsToInv(hist, s);
    }

    method FreshFileId() returns (fid: FileId)
      ensures fid !in files
    {
      ghost var above := AboveAll(files.Keys);
      assert above !in files;
      fid :| fid !in files;
    }

    // The rename may have happened although an error is returned.
    method PublishStaging(me: Actor, id: UploadId) returns (key: Key, ok: bool)
      requires Valid() && me in s.procs && s.procs[me].Publishing? && s.procs[me].id == id
      modifies this`staging, this`objects, this`s, this`hist
      ensures Valid() && old(hist) <= hist && Own(me) == old(Own(me))
      ensures ok ==>
                && id in old(staging) && staging == old(staging) - {id} && objects == old(objects)[key := old(staging)[id]]
                && key !in old(objects)
                && var p := old(s.procs)[me];
                   s.procs == old(s.procs)[me := Published(id, p.row, p.seen, key, old(staging)[id])]
      ensures !ok ==> s.procs == old(s.procs) - {me}
      ensures quiet ==> (ok <==> id in old(staging)) && (!ok ==> staging == old(staging) && objects == old(objects))
    {
      var failed := Fault();
      var unsynced := Fault();
      key := FreshKey();
      if failed || id !in staging {
        Return(me);
        return key, false;
      }
      if unsynced {
        RenameUnsynced(me, id, key);
        return key, false;
      }
      Rename(me, id, key);
      return key, true;
    }

    method Rename(me: Actor, id: UploadId, key: Key)
      requires Valid() && me in s.procs && s.procs[me].Publishing? && s.procs[me].id == id
      requires id in staging && key !in s.roles
      modifies this`staging, this`objects, this`s, this`hist
      ensures Valid() && old(hist) <= hist && Own(me) == old(Own(me))
      ensures staging == old(staging) - {id} && objects == old(objects)[key := old(staging)[id]]
      ensures var p := old(s.procs)[me];
              s.procs == old(s.procs)[me := Published(id, p.row, p.seen, key, old(staging)[id])]
    {
      staging, objects := staging - {id}, objects[key := staging[id]];
      Step(me, Publish(me, key));
    }

    method RenameUnsynced(me: Actor, id: UploadId, key: Key)
      requires Valid() && me in s.procs && s.procs[me].Publishing? && s.procs[me].id == id
      requires id in staging && key !in s.roles
      modifies this`staging, this`objects, this`s, this`hist
      ensures Valid() && old(hist) <= hist && Own(me) == old(Own(me)) && s.procs == old(s.procs) - {me}
    {
      staging, objects := staging - {id}, objects[key := staging[id]];
      Step(me, PublishUnsynced(me, key));
    }

    // What is about to be recorded begins with the bytes that were hashed, which
    // are all the bytes the session has accepted.
    lemma PublishedHolds(me: Actor)
      requires Valid() && me in s.procs && s.procs[me].Published?
      ensures var p := s.procs[me];
              && p.id in s.accepted && p.seen == Flat(s.accepted[p.id]) && p.row.length == |p.seen|
              && p.key in objects && objects[p.key] == p.bytes && p.seen <= p.bytes
    {
      LeadsToInv(hist, s);
      assert ProcOk(s, me, s.procs[me]);
    }

    method CompleteUpload(me: Actor, id: UploadId, target: Target, key: Key, size: nat, user: int) returns (fid: FileId, err: Option<Error>)
      requires Valid() && me in s.procs && s.procs[me].Published? && s.procs[me].id == id && s.procs[me].key == key
      requires var row := s.procs[me].row; row.target == target && row.length == size && row.user == user
      modifies this`rows, this`files, this`s, this`hist
      ensures Valid() && old(hist) <= hist
      ensures err.None? ==>
                && id in old(rows) && IsLive(old(rows)[id], now) && PathFree(old(files), dirs, target) && fid !in old(files)
                && rows == old(rows) - {id}
                && files == old(files)[fid := File(target, key, size, user, false, Some(id))]
                && s.procs == old(s.procs) - {me} && s.accepted == old(s.accepted)
      ensures err.Some? ==>
                && rows == old(rows) && files == old(files)
                && var p := old(s.procs)[me];
                   s.procs == old(s.procs)[me := Refused(id, p.row, p.seen, key, p.bytes)]
      ensures Own(me) == old(Own(me)) + if err.None? then [CommitUpload(me, id, fid)] else []
      ensures quiet ==> (err.None? <==> id in old(rows) && IsLive(old(rows)[id], now) && PathFree(old(files), dirs, target))
      ensures err.Some? ==> err.value in {Conflict, Broken} && (quiet ==> err == Some(Conflict))
    {
      fid := FreshFileId();
      var failed := Fault();
      if failed {
        Refuse(me);
        return fid, Some(Broken);
      }
      if id !in rows || !IsLive(rows[id], now) || !PathFree(files, dirs, target) {
        Refuse(me);
        return fid, Some(Conflict);
      }
      Record(me, id, fid);
      err := None;
    }

    method Record(me: Actor, id: UploadId, fid: FileId)
      requires Valid() && me in s.procs && s.procs[me].Published? && s.procs[me].id == id
      requires id in rows && IsLive(rows[id], now) && fid !in files && PathFree(files, dirs, s.procs[me].row.target)
      modifies this`rows, this`files, this`s, this`hist
      ensures Valid() && old(hist) <= hist && Own(me) == old(Own(me)) + [CommitUpload(me, id, fid)]
      ensures rows == old(rows) - {id} && s.procs == old(s.procs) - {me} && s.accepted == old(s.accepted)
      ensures var p := old(s.procs)[me];
              files == old(files)[fid := File(p.row.target, p.key, p.row.length, p.row.user, false, Some(id))]
    {
      var p := s.procs[me];
      rows := rows - {id};
      files := files[fid := File(p.row.target, p.key, p.row.length, p.row.user, false, Some(id))];
      Step(me, CommitUpload(me, id, fid));
    }

    method Refuse(me: Actor)
      requires Valid() && me in s.procs && s.procs[me].Published?
      modifies this`s, this`hist
      ensures Valid() && old(hist) <= hist && Own(me) == old(Own(me))
      ensures var p := old(s.procs)[me]; s.procs == old(s.procs)[me := Refused(p.id, p.row, p.seen, p.key, p.bytes)]
    {
      Step(me, RefuseUpload(me));
    }

    lemma RefusedHolds(me: Actor)
      requires Valid() && me in s.procs && s.procs[me].Refused?
      ensures s.procs[me].key in objects && objects[s.procs[me].key] == s.procs[me].bytes
    {
      LeadsToInv(hist, s);
      assert ProcOk(s, me, s.procs[me]);
    }

    method RestorePublished(me: Actor, key: Key, id: UploadId) returns (ok: bool)
      requires Valid() && me in s.procs && s.procs[me].Refused? && s.procs[me].id == id && s.procs[me].key == key
      modifies this`staging, this`objects, this`s, this`hist
      ensures Valid() && old(hist) <= hist && Own(me) == old(Own(me))
      ensures s.procs == old(s.procs) - {me}
      ensures ok ==> staging == old(staging)[id := old(s.procs)[me].bytes] && objects == old(objects) - {key}
      ensures !ok ==> staging == old(staging) && objects == old(objects)
      ensures quiet ==> ok
    {
      RefusedHolds(me);
      var failed := Fault();
      if failed {
        Return(me);
        return false;
      }
      RenameBack(me, key, id);
      return true;
    }

    method RenameBack(me: Actor, key: Key, id: UploadId)
      requires Valid() && me in s.procs && s.procs[me].Refused? && s.procs[me].id == id && s.procs[me].key == key
      requires key in objects
      modifies this`staging, this`objects, this`s, this`hist
      ensures Valid() && old(hist) <= hist && Own(me) == old(Own(me)) && s.procs == old(s.procs) - {me}
      ensures staging == old(staging)[id := old(objects)[key]] && objects == old(objects) - {key}
    {
      staging, objects := staging[id := objects[key]], objects - {key};
      Step(me, Restore(me));
    }

    // --- cleanup ---

    method UpdateUploadStatus(me: Actor, id: UploadId, expected: Status, status: Status) returns (ok: bool)
      requires Valid() && me in s.procs && s.procs[me] == Cleaning(id, expected)
      requires (expected == Active && status == Cancelled) || (expected == Cancelled && status == CleanupPending)
      modifies this`rows, this`s, this`hist
      ensures Valid() && old(hist) <= hist && Own(me) == old(Own(me))
      ensures ok ==>
                && id in old(rows) && rows == old(rows)[id := old(rows)[id].(status := status)]
                && s.procs == old(s.procs)[me := Cleaning(id, status)]
      ensures !ok ==> s == old(s)
      ensures quiet && id in old(rows) && old(rows)[id].status == expected ==> ok
    {
      var failed := Fault();
      if failed || id !in rows || rows[id].status != expected {
        return false;
      }
      rows := rows[id := rows[id].(status := status)];
      Step(me, MarkStatus(me));
      return true;
    }

    // RemoveStaging; an absent file is no error.
    method RemoveStaging(me: Actor, id: UploadId) returns (ok: bool)
      requires Valid() && me in s.procs && s.procs[me] == Cleaning(id, CleanupPending)
      modifies this`staging, this`s, this`hist
      ensures Valid() && old(hist) <= hist && Own(me) == old(Own(me))
      ensures if ok then staging == old(staging) - {id} && s.procs == old(s.procs)[me := Unlinked(id)] else s == old(s)
      ensures quiet ==> ok
    {
      var failed := Fault();
      if failed {
        return false;
      }
      staging := staging - {id};
      Step(me, UnlinkPart(me));
      return true;
    }

    lemma NotComplete(id: UploadId)
      requires Valid() && id in rows
      ensures rows[id].status != Complete
    {
      LeadsToInv(hist, s);
      assert RowOk(s, id);
    }

    lemma UnlinkedHolds(me: Actor)
      requires Valid() && me in s.procs && s.procs[me].Unlinked?
      ensures s.procs[me].id in rows && s.procs[me].id !in staging
    {
      LeadsToInv(hist, s);
      assert ProcOk(s, me, s.procs[me]);
    }

    method DeleteUploadSession(me: Actor, id: UploadId) returns (err: Option<Error>)
      requires Valid() && me in s.procs && s.procs[me] == Unlinked(id)
      modifies this`rows, this`s, this`hist
      ensures Valid() && old(hist) <= hist
      ensures err.None? ==> id in old(rows) && rows == old(rows) - {id} && s.procs == old(s.procs) - {me}
      ensures err == Some(NotFound) ==> id !in rows
      ensures err.Some? ==> s == old(s) && err.value in {NotFound, Broken}
      ensures Own(me) == old(Own(me)) + if err.None? then [DeleteRow(me)] else []
      ensures quiet && id in old(rows) ==> err.None?
    {
      var failed := Fault();
      if failed {
        return Some(Broken);
      }
      if id !in rows {
        return Some(NotFound);
      }
      rows := rows - {id};
      Step(me, DeleteRow(me));
      return None;
    }

    // RemoveStaging of a name that had no row under its lock.
    method RemoveOrphan(me: Actor, id: UploadId) returns (ok: bool)
      requires Valid() && me in s.procs && s.procs[me] == Orphaned(id)
      modifies this`staging, this`s, this`hist
      ensures Valid() && old(hist) <= hist
      ensures s.procs == old(s.procs) - {me}
      ensures staging == if ok then old(staging) - {id} else old(staging)
      ensures Own(me) == old(Own(me)) + if ok then [UnlinkOrphan(me)] else []
      ensures quiet ==> ok
    {
      var failed := Fault();
      if failed {
        Return(me);
        return false;
      }
      staging := staging - {id};
      Step(me, UnlinkOrphan(me));
      return true;
    }
  }
}
