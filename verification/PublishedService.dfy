// The handlers that create and delete published files, and the recovery pass
// that finishes what they left, over the same store and with the same freedom
// for everybody else between any two calls.
module PublishedService {
  import opened Wrappers
  import opened Bytes
  import opened Hub
  import opened HubInvariant
  import opened HubFrame
  import opened PublicationSafety
  import opened HubStore
  import opened Ordering

  datatype Report = Report(cleanupChecked: nat, cleanupCompleted: nat, tombstonesChecked: nat, tombstonesFinalized: nat)

  // INSERT ... ON CONFLICT: a job that is there keeps its created_at.
  function Queued(jobs: map<Key, int>, key: Key, now: int): map<Key, int> {
    if key in jobs then jobs else jobs[key := now]
  }

  lemma SettleIs(s: State, me: Actor, fid: FileId, key: Key, rest: seq<Item>)
    requires me in s.procs && s.procs[me] == Swept(Tomb(fid, key), rest)
    ensures NextOnFiles(s, Settle(me)) ==
              Some(Go(s, me, Sweeping(rest)).(files := if Listed(s, Tomb(fid, key)) then s.files - {fid} else s.files))
  {
  }

  class Published {
    const hub: Store

    constructor (hub: Store)
      ensures this.hub == hub
    {
      this.hub := hub;
    }

    // --- calls ---

    // CreateContent; on an error it has removed its object or leaked it.
    method CreateContent(me: Actor, content: Data, target: Target, user: int) returns (key: Key, ok: bool)
      requires hub.Valid() && me !in hub.s.procs
      modifies hub`objects, hub`s, hub`hist
      ensures hub.Valid() && old(hub.hist) <= hub.hist && hub.Own(me) == old(hub.Own(me))
      ensures ok ==> key !in old(hub.objects) && key !in old(hub.jobs) && hub.objects == old(hub.objects)[key := content]
      ensures hub.s.procs == if ok then old(hub.s.procs)[me := Holding(key, target, user)] else old(hub.s.procs)
      ensures hub.quiet ==> ok
    {
      key := hub.FreshKey();
      var failed := hub.Fault();
      var stays := hub.Fault();
      if failed && !stays {
        return key, false;
      }
      if failed {
        Leak(me, key, content);
        return key, false;
      }
      Link(me, key, content, target, user);
      return key, true;
    }

    method Leak(me: Actor, key: Key, content: Data)
      requires hub.Valid() && key !in hub.s.roles
      modifies hub`objects, hub`s, hub`hist
      ensures hub.Valid() && old(hub.hist) <= hub.hist && hub.Own(me) == old(hub.Own(me)) && hub.s.procs == old(hub.s.procs)
    {
      hub.objects := hub.objects[key := content];
      hub.StepOnFiles(me, LeakObject(me, key, content));
    }

    method Link(me: Actor, key: Key, content: Data, target: Target, user: int)
      requires hub.Valid() && me !in hub.s.procs && key !in hub.s.roles
      modifies hub`objects, hub`s, hub`hist
      ensures hub.Valid() && old(hub.hist) <= hub.hist && hub.Own(me) == old(hub.Own(me))
      ensures hub.objects == old(hub.objects)[key := content] && hub.s.procs == old(hub.s.procs)[me := Holding(key, target, user)]
    {
      hub.objects := hub.objects[key := content];
      hub.StepOnFiles(me, CreateObject(me, key, content, target, user));
    }

    // Repository.CreateFile: UNIQUE(root_id, logical_path) sees tombstones too.
    method InsertRow(me: Actor, key: Key, target: Target, user: int) returns (fid: FileId, ok: bool)
      requires hub.Valid() && me in hub.s.procs && hub.s.procs[me] == Holding(key, target, user)
      modifies hub`files, hub`s, hub`hist
      ensures hub.Valid() && old(hub.hist) <= hub.hist
      ensures ok ==>
                && PathFree(old(hub.files), old(hub.dirs), target) && fid !in old(hub.files)
                && hub.files == old(hub.files)[fid := File(target, key, 0, user, false, None)]
                && hub.s.procs == old(hub.s.procs) - {me}
      ensures !ok ==> hub.files == old(hub.files) && hub.s.procs == old(hub.s.procs)[me := Failed(key)]
      ensures hub.Own(me) == old(hub.Own(me)) + if ok then [Event.InsertFile(me, fid)] else []
      ensures hub.quiet ==> (ok <==> PathFree(old(hub.files), old(hub.dirs), target))
    {
      fid := hub.FreshFileId();
      var failed := hub.Fault();
      if failed || !PathFree(hub.files, hub.dirs, target) {
        Doom(me, key);
        return fid, false;
      }
      Record(me, key, target, user, fid);
      return fid, true;
    }

    method Doom(me: Actor, key: Key)
      requires hub.Valid() && me in hub.s.procs && hub.s.procs[me].Holding? && hub.s.procs[me].key == key
      modifies hub`s, hub`hist
      ensures hub.Valid() && old(hub.hist) <= hub.hist && hub.Own(me) == old(hub.Own(me))
      ensures hub.s.procs == old(hub.s.procs)[me := Failed(key)]
    {
      hub.StepOnFiles(me, InsertFileFailed(me));
    }

    method Record(me: Actor, key: Key, target: Target, user: int, fid: FileId)
      requires hub.Valid() && me in hub.s.procs && hub.s.procs[me] == Holding(key, target, user)
      requires fid !in hub.files && PathFree(hub.files, hub.dirs, target)
      modifies hub`files, hub`s, hub`hist
      ensures hub.Valid() && old(hub.hist) <= hub.hist && hub.Own(me) == old(hub.Own(me)) + [Event.InsertFile(me, fid)]
      ensures hub.files == old(hub.files)[fid := File(target, key, 0, user, false, None)]
      ensures hub.s.procs == old(hub.s.procs) - {me}
    {
      hub.files := hub.files[fid := File(target, key, 0, user, false, None)];
      hub.StepOnFiles(me, Event.InsertFile(me, fid));
    }

    method EnqueueObjectCleanup(me: Actor, key: Key) returns (ok: bool)
      requires hub.Valid() && me in hub.s.procs && hub.s.procs[me] == Failed(key)
      modifies hub`jobs, hub`s, hub`hist
      ensures hub.Valid() && old(hub.hist) <= hub.hist && hub.Own(me) == old(hub.Own(me))
      ensures ok ==>
                && key in hub.jobs && hub.jobs[key] == (if key in old(hub.jobs) then old(hub.jobs)[key] else hub.now)
                && hub.jobs - {key} == old(hub.jobs) - {key}
      ensures ok ==> hub.jobs == Queued(old(hub.jobs), key, hub.now) && hub.s.procs == old(hub.s.procs)[me := Sweeping([Job(key)])]
      ensures !ok ==> hub.jobs == old(hub.jobs) && hub.s.procs == old(hub.s.procs) - {me}
      ensures hub.quiet ==> ok
    {
      var failed := hub.Fault();
      if failed {
        hub.Return(me);
        return false;
      }
      AddJob(me, key);
      return true;
    }

    method AddJob(me: Actor, key: Key)
      requires hub.Valid() && me in hub.s.procs && hub.s.procs[me] == Failed(key)
      modifies hub`jobs, hub`s, hub`hist
      ensures hub.Valid() && old(hub.hist) <= hub.hist && hub.Own(me) == old(hub.Own(me))
      ensures hub.jobs == Queued(old(hub.jobs), key, hub.now) && hub.s.procs == old(hub.s.procs)[me := Sweeping([Job(key)])]
    {
      hub.jobs := Queued(hub.jobs, key, hub.now);
      hub.StepOnFiles(me, Enqueue(me));
    }

    // ObjectStore.Remove of the object at the head of the list in hand. It may
    // report an error although the object is gone; an absent object is an error.
    method Remove(me: Actor, todo: seq<Item>) returns (ok: bool)
      requires hub.Valid() && me in hub.s.procs && hub.s.procs[me] == Sweeping(todo) && todo != []
      modifies hub`objects, hub`s, hub`hist
      ensures hub.Valid() && old(hub.hist) <= hub.hist && hub.Own(me) == old(hub.Own(me))
      ensures hub.s.procs == old(hub.s.procs)[me := if ok then Swept(todo[0], todo[1..]) else Sweeping(todo[1..])]
      ensures hub.objects == old(hub.objects) || hub.objects == old(hub.objects) - {todo[0].key}
      ensures ok ==> todo[0].key in old(hub.objects) && hub.objects == old(hub.objects) - {todo[0].key}
      ensures hub.quiet ==> (ok <==> todo[0].key in old(hub.objects)) && (!ok ==> hub.objects == old(hub.objects))
    {
      var failed := hub.Fault();
      var unsynced := hub.Fault();
      if failed || todo[0].key !in hub.objects {
        PassOver(me, todo);
        return false;
      }
      Unlink(me, todo, !unsynced);
      return !unsynced;
    }

    method PassOver(me: Actor, todo: seq<Item>)
      requires hub.Valid() && me in hub.s.procs && hub.s.procs[me] == Sweeping(todo) && todo != []
      modifies hub`s, hub`hist
      ensures hub.Valid() && old(hub.hist) <= hub.hist && hub.Own(me) == old(hub.Own(me))
      ensures hub.s.procs == old(hub.s.procs)[me := Sweeping(todo[1..])]
    {
      hub.StepOnFiles(me, Skip(me));
    }

    method Unlink(me: Actor, todo: seq<Item>, synced: bool)
      requires hub.Valid() && me in hub.s.procs && hub.s.procs[me] == Sweeping(todo) && todo != []
      requires todo[0].key in hub.objects
      modifies hub`objects, hub`s, hub`hist
      ensures hub.Valid() && old(hub.hist) <= hub.hist && hub.Own(me) == old(hub.Own(me))
      ensures hub.objects == old(hub.objects) - {todo[0].key}
      ensures hub.s.procs == old(hub.s.procs)[me := if synced then Swept(todo[0], todo[1..]) else Sweeping(todo[1..])]
    {
      hub.objects := hub.objects - {todo[0].key};
      hub.StepOnFiles(me, Erase(me, synced));
    }

    method CompleteObjectCleanup(me: Actor, key: Key, rest: seq<Item>) returns (ok: bool)
      requires hub.Valid() && me in hub.s.procs && hub.s.procs[me] == Swept(Job(key), rest)
      modifies hub`jobs, hub`s, hub`hist
      ensures hub.Valid() && old(hub.hist) <= hub.hist
      ensures hub.s.procs == if ok then old(hub.s.procs)[me := Sweeping(rest)] else old(hub.s.procs) - {me}
      ensures hub.jobs == if ok then old(hub.jobs) - {key} else old(hub.jobs)
      ensures hub.Own(me) == old(hub.Own(me)) + if ok then [Settle(me)] else []
      ensures hub.quiet ==> ok
    {
      var failed := hub.Fault();
      if failed {
        hub.Return(me);
        return false;
      }
      DropJob(me, key, rest);
      return true;
    }

    method DropJob(me: Actor, key: Key, rest: seq<Item>)
      requires hub.Valid() && me in hub.s.procs && hub.s.procs[me] == Swept(Job(key), rest)
      modifies hub`jobs, hub`s, hub`hist
      ensures hub.Valid() && old(hub.hist) <= hub.hist && hub.Own(me) == old(hub.Own(me)) + [Settle(me)]
      ensures hub.s.procs == old(hub.s.procs)[me := Sweeping(rest)] && hub.jobs == old(hub.jobs) - {key}
    {
      hub.jobs := hub.jobs - {key};
      hub.StepOnFiles(me, Settle(me));
    }

    // found tells whether a tombstone of exactly that id and key was there.
    method FinalizeFileDelete(me: Actor, fid: FileId, key: Key, rest: seq<Item>) returns (found: bool, ok: bool)
      requires hub.Valid() && me in hub.s.procs && hub.s.procs[me] == Swept(Tomb(fid, key), rest)
      modifies hub`files, hub`s, hub`hist
      ensures hub.Valid() && old(hub.hist) <= hub.hist
      ensures hub.s.procs == if ok then old(hub.s.procs)[me := Sweeping(rest)] else old(hub.s.procs) - {me}
      ensures found <==> ok && Listed(old(hub.s), Tomb(fid, key))
      ensures hub.files == if found then old(hub.files) - {fid} else old(hub.files)
      ensures hub.Own(me) == old(hub.Own(me)) + if ok then [Settle(me)] else []
      ensures hub.quiet ==> ok
    {
      var failed := hub.Fault();
      if failed {
        hub.Return(me);
        return false, false;
      }
      found := DropTombstone(me, fid, key, rest);
      return found, true;
    }

    method DropTombstone(me: Actor, fid: FileId, key: Key, rest: seq<Item>) returns (found: bool)
      requires hub.Valid() && me in hub.s.procs && hub.s.procs[me] == Swept(Tomb(fid, key), rest)
      modifies hub`files, hub`s, hub`hist
      ensures hub.Valid() && old(hub.hist) <= hub.hist && hub.Own(me) == old(hub.Own(me)) + [Settle(me)]
      ensures hub.s.procs == old(hub.s.procs)[me := Sweeping(rest)]
      ensures found <==> Listed(old(hub.s), Tomb(fid, key))
      ensures hub.files == if found then old(hub.files) - {fid} else old(hub.files)
    {
      SettleIs(hub.s, me, fid, key, rest);
      found := fid in hub.files && hub.files[fid].key == key && hub.files[fid].deleting;
      if found {
        hub.files := hub.files - {fid};
      }
      hub.StepOnFiles(me, Settle(me));
    }

    method FileByID(me: Actor, fid: FileId) returns (key: Key, err: Option<Error>)
      requires hub.Valid() && me !in hub.s.procs
      modifies hub`s, hub`hist
      ensures hub.Valid() && old(hub.hist) <= hub.hist && hub.Own(me) == old(hub.Own(me))
      ensures err.None? ==>
                && fid in hub.files && !hub.files[fid].deleting && key == hub.files[fid].key
                && hub.s.procs == old(hub.s.procs)[me := Found(fid, key)]
      ensures err.Some? ==> hub.s == old(hub.s)
      ensures hub.quiet ==> (err.None? <==> fid in hub.files && !hub.files[fid].deleting)
    {
      var failed := hub.Fault();
      if failed {
        return 0, Some(Broken);
      }
      if fid !in hub.files || hub.files[fid].deleting {
        return 0, Some(NotFound);
      }
      hub.StepOnFiles(me, FindFile(me, fid));
      return hub.files[fid].key, None;
    }

    method BeginFileDelete(me: Actor, fid: FileId, key: Key) returns (ok: bool)
      requires hub.Valid() && me in hub.s.procs && hub.s.procs[me] == Found(fid, key)
      modifies hub`files, hub`s, hub`hist
      ensures hub.Valid() && old(hub.hist) <= hub.hist
      ensures ok ==>
                && fid in old(hub.files) && !old(hub.files)[fid].deleting && old(hub.files)[fid].key == key
                && hub.files == old(hub.files)[fid := old(hub.files)[fid].(deleting := true)]
                && hub.s.procs == old(hub.s.procs)[me := Sweeping([Tomb(fid, key)])]
      ensures !ok ==> hub.files == old(hub.files) && hub.s.procs == old(hub.s.procs) - {me}
      ensures hub.Own(me) == old(hub.Own(me)) + if ok then [Event.Tombstone(me)] else []
      ensures hub.quiet && fid in old(hub.files) && !old(hub.files)[fid].deleting && old(hub.files)[fid].key == key ==> ok
    {
      var failed := hub.Fault();
      if failed || fid !in hub.files || hub.files[fid].key != key || hub.files[fid].deleting {
        hub.Return(me);
        return false;
      }
      Hide(me, fid, key);
      return true;
    }

    method Hide(me: Actor, fid: FileId, key: Key)
      requires hub.Valid() && me in hub.s.procs && hub.s.procs[me] == Found(fid, key)
      requires fid in hub.files && hub.files[fid].key == key && !hub.files[fid].deleting
      modifies hub`files, hub`s, hub`hist
      ensures hub.Valid() && old(hub.hist) <= hub.hist && hub.Own(me) == old(hub.Own(me)) + [Event.Tombstone(me)]
      ensures fid in old(hub.files) && hub.files == old(hub.files)[fid := old(hub.files)[fid].(deleting := true)]
      ensures hub.s.procs == old(hub.s.procs)[me := Sweeping([Tomb(fid, key)])]
    {
      hub.files := hub.files[fid := hub.files[fid].(deleting := true)];
      hub.StepOnFiles(me, Event.Tombstone(me));
    }

    // --- handlers ---

    // POST /api/files from the existence check on. A failed insert is undone
    // through a cleanup job that is written before anything is removed.
    method CreateFile(me: Actor, target: Target, user: int, content: Data) returns (err: Option<Error>, ghost fid: FileId)
      requires hub.Valid() && me !in hub.s.procs
      modifies hub
      ensures hub.Valid() && old(hub.hist) <= hub.hist && me !in hub.s.procs
      ensures err.None? ==>
                && fid in hub.files && hub.files[fid].target == target && hub.files[fid].size == 0 && !hub.files[fid].deleting
                && hub.files[fid].key in hub.objects
                && hub.Own(me) == old(hub.Own(me)) + [Event.InsertFile(me, fid)]
      ensures err.Some? ==> hub.Own(me) == old(hub.Own(me)) || hub.Own(me) == old(hub.Own(me)) + [Settle(me)]
      ensures hub.quiet && old(hub.s).procs == map[] ==>
                && (err.None? <==> target !in old(hub.dirs) && forall f <- old(hub.files).Keys :: old(hub.files)[f].target != target)
                && (err.None? ==>
                      && fid !in old(hub.files) && hub.files[fid].key !in old(hub.objects)
                      && hub.files == old(hub.files)[fid := hub.files[fid]]
                      && hub.objects == old(hub.objects)[hub.files[fid].key := content]
                      && hub.jobs == old(hub.jobs) && hub.dirs == old(hub.dirs))
                && (err.Some? ==> err == Some(Conflict) && SameFiles(old(hub.s), hub.s))
    {
      fid := 0;
      var failed := hub.Fault();
      if failed {
        return Some(Broken), fid;
      }
      if exists f <- hub.files.Keys :: hub.files[f].target == target && !hub.files[f].deleting {
        return Some(Conflict), fid;
      }
      err, fid := CreateAndInsert(me, target, user, content);
    }

    method CreateAndInsert(me: Actor, target: Target, user: int, content: Data) returns (err: Option<Error>, ghost fid: FileId)
      requires hub.Valid() && me !in hub.s.procs
      modifies hub
      ensures hub.Valid() && old(hub.hist) <= hub.hist && me !in hub.s.procs
      ensures err.None? ==>
                && fid in hub.files && hub.files[fid].target == target && hub.files[fid].size == 0 && !hub.files[fid].deleting
                && hub.files[fid].key in hub.objects
                && hub.Own(me) == old(hub.Own(me)) + [Event.InsertFile(me, fid)]
      ensures err.Some? ==> hub.Own(me) == old(hub.Own(me)) || hub.Own(me) == old(hub.Own(me)) + [Settle(me)]
      ensures hub.quiet ==>
                && (err.None? <==> PathFree(old(hub.files), old(hub.dirs), target))
                && (err.None? ==>
                      && fid !in old(hub.files) && hub.files[fid].key !in old(hub.objects)
                      && hub.files == old(hub.files)[fid := hub.files[fid]]
                      && hub.objects == old(hub.objects)[hub.files[fid].key := content]
                      && hub.jobs == old(hub.jobs) && hub.dirs == old(hub.dirs))
                && (err.Some? ==> err == Some(Conflict) && SameFiles(old(hub.s), hub.s))
    {
      fid := 0;
      hub.Yield(me);
      var key, ok := CreateContent(me, content, target, user);
      if !ok {
        return Some(Broken), fid;
      }
      err, fid := InsertOrCompensate(me, key, target, user);
    }

    method InsertOrCompensate(me: Actor, key: Key, target: Target, user: int) returns (err: Option<Error>, ghost fid: FileId)
      requires hub.Valid() && me in hub.s.procs && hub.s.procs[me] == Holding(key, target, user)
      modifies hub
      ensures hub.Valid() && old(hub.hist) <= hub.hist && me !in hub.s.procs
      ensures err.None? ==>
                && fid in hub.files && hub.files[fid] == File(target, key, 0, user, false, None) && key in hub.objects
                && hub.Own(me) == old(hub.Own(me)) + [Event.InsertFile(me, fid)]
      ensures err.Some? ==> hub.Own(me) == old(hub.Own(me)) || hub.Own(me) == old(hub.Own(me)) + [Settle(me)]
      ensures hub.quiet && key in old(hub.objects) ==>
                && (err.None? <==> PathFree(old(hub.files), old(hub.dirs), target))
                && (err.None? ==>
                      && fid !in old(hub.files) && hub.files == old(hub.files)[fid := hub.files[fid]]
                      && hub.objects == old(hub.objects) && hub.jobs == old(hub.jobs))
                && (err.Some? ==>
                      && err == Some(Conflict) && hub.objects == old(hub.objects) - {key}
                      && hub.jobs == old(hub.jobs) - {key} && hub.files == old(hub.files))
                && hub.dirs == old(hub.dirs)
    {
      hub.Yield(me);
      var recorded, inserted := InsertRow(me, key, target, user);
      fid := recorded;
      if inserted {
        LiveObject(fid);
        return None, fid;
      }
      err := Compensate(me, key);
    }

    lemma LiveObject(fid: FileId)
      requires hub.Valid() && fid in hub.files && !hub.files[fid].deleting
      ensures hub.files[fid].key in hub.objects
    {
      LeadsToInv(hub.hist, hub.s);
      assert FileOk(hub.s, fid);
    }

    method Compensate(me: Actor, key: Key) returns (err: Option<Error>)
      requires hub.Valid() && me in hub.s.procs && hub.s.procs[me] == Failed(key)
      modifies hub
      ensures hub.Valid() && old(hub.hist) <= hub.hist && me !in hub.s.procs && err.Some?
      ensures hub.Own(me) == old(hub.Own(me)) || hub.Own(me) == old(hub.Own(me)) + [Settle(me)]
      ensures hub.quiet && key in old(hub.objects) ==>
                && err == Some(Conflict) && hub.objects == old(hub.objects) - {key}
                && hub.jobs == old(hub.jobs) - {key} && hub.files == old(hub.files) && hub.dirs == old(hub.dirs)
    {
      hub.Yield(me);
      var ok := EnqueueObjectCleanup(me, key);
      if !ok {
        return Some(Broken);
      }
      err := EraseDoomed(me, key);
    }

    method EraseDoomed(me: Actor, key: Key) returns (err: Option<Error>)
      requires hub.Valid() && me in hub.s.procs && hub.s.procs[me] == Sweeping([Job(key)])
      modifies hub
      ensures hub.Valid() && old(hub.hist) <= hub.hist && me !in hub.s.procs && err.Some?
      ensures hub.Own(me) == old(hub.Own(me)) || hub.Own(me) == old(hub.Own(me)) + [Settle(me)]
      ensures hub.quiet && key in old(hub.objects) ==>
                && err == Some(Conflict) && hub.objects == old(hub.objects) - {key}
                && hub.jobs == old(hub.jobs) - {key} && hub.files == old(hub.files) && hub.dirs == old(hub.dirs)
    {
      hub.Yield(me);
      var removed := Remove(me, [Job(key)]);
      if !removed {
        hub.Return(me);
        return Some(Broken);
      }
      FinishDoomed(me, key);
      return Some(Conflict);
    }

    // The error of this last call is ignored.
    method FinishDoomed(me: Actor, key: Key)
      requires hub.Valid() && me in hub.s.procs && hub.s.procs[me] == Swept(Job(key), [])
      modifies hub
      ensures hub.Valid() && old(hub.hist) <= hub.hist && me !in hub.s.procs
      ensures hub.Own(me) == old(hub.Own(me)) || hub.Own(me) == old(hub.Own(me)) + [Settle(me)]
      ensures hub.quiet ==>
                hub.jobs == old(hub.jobs) - {key} && hub.files == old(hub.files) && hub.objects == old(hub.objects) && hub.dirs == old(hub.dirs)
    {
      hub.Yield(me);
      var settled := CompleteObjectCleanup(me, key, []);
      if settled {
        hub.Return(me);
      }
    }

    // DELETE of a file, after authorization: hidden first, then its object, then its row.
    method DeleteFile(me: Actor, fid: FileId) returns (err: Option<Error>)
      requires hub.Valid() && me !in hub.s.procs
      modifies hub
      ensures hub.Valid() && old(hub.hist) <= hub.hist && me !in hub.s.procs
      ensures err.None? ==> hub.Own(me) == old(hub.Own(me)) + [Event.Tombstone(me)] + [Settle(me)]
      ensures hub.quiet && old(hub.s).procs == map[] ==>
                && (err.None? <==> fid in old(hub.files) && !old(hub.files)[fid].deleting)
                && (err.None? ==>
                      && hub.files == old(hub.files) - {fid} && hub.objects == old(hub.objects) - {old(hub.files)[fid].key}
                      && hub.jobs == old(hub.jobs))
                && (err.Some? ==> SameFiles(old(hub.s), hub.s))
    {
      var key, missing := FileByID(me, fid);
      if missing.Some? {
        return missing;
      }
      LiveObject(fid);
      err := DeleteFound(me, fid, key);
    }

    method DeleteFound(me: Actor, fid: FileId, key: Key) returns (err: Option<Error>)
      requires hub.Valid() && me in hub.s.procs && hub.s.procs[me] == Found(fid, key)
      modifies hub
      ensures hub.Valid() && old(hub.hist) <= hub.hist && me !in hub.s.procs
      ensures err.None? ==> hub.Own(me) == old(hub.Own(me)) + [Event.Tombstone(me)] + [Settle(me)]
      ensures hub.quiet && fid in old(hub.files) && !old(hub.files)[fid].deleting && old(hub.files)[fid].key == key
              && key in old(hub.objects) ==>
                && err.None? && hub.files == old(hub.files) - {fid} && hub.objects == old(hub.objects) - {key}
                && hub.jobs == old(hub.jobs)
    {
      hub.Yield(me);
      var ok := BeginFileDelete(me, fid, key);
      if !ok {
        return Some(Conflict);
      }
      err := EraseTombstone(me, fid, key);
    }

    method EraseTombstone(me: Actor, fid: FileId, key: Key) returns (err: Option<Error>)
      requires hub.Valid() && me in hub.s.procs && hub.s.procs[me] == Sweeping([Tomb(fid, key)])
      modifies hub
      ensures hub.Valid() && old(hub.hist) <= hub.hist && me !in hub.s.procs
      ensures err.None? ==> hub.Own(me) == old(hub.Own(me)) + [Settle(me)]
      ensures hub.quiet && key in old(hub.objects) && Listed(old(hub.s), Tomb(fid, key)) ==>
                && err.None? && hub.files == old(hub.files) - {fid} && hub.objects == old(hub.objects) - {key}
                && hub.jobs == old(hub.jobs)
    {
      hub.Yield(me);
      var removed := Remove(me, [Tomb(fid, key)]);
      if !removed {
        hub.Return(me);
        return Some(Broken);
      }
      err := FinishTombstone(me, fid, key);
    }

    method FinishTombstone(me: Actor, fid: FileId, key: Key) returns (err: Option<Error>)
      requires hub.Valid() && me in hub.s.procs && hub.s.procs[me] == Swept(Tomb(fid, key), [])
      modifies hub
      ensures hub.Valid() && old(hub.hist) <= hub.hist && me !in hub.s.procs
      ensures err.None? ==> hub.Own(me) == old(hub.Own(me)) + [Settle(me)]
      ensures hub.quiet && Listed(old(hub.s), Tomb(fid, key)) ==>
                err.None? && hub.files == old(hub.files) - {fid} && hub.objects == old(hub.objects) && hub.jobs == old(hub.jobs)
    {
      hub.Yield(me);
      var found, ok := FinalizeFileDelete(me, fid, key, []);
      if ok {
        hub.Return(me);
      }
      return if ok && found then None else Some(NotFound);
    }

    // --- recovery ---

    method ObjectCleanupJobs(limit: nat) returns (todo: seq<Item>)
      ensures |todo| <= limit && DistinctKeys(todo) && OldestJobs(hub.jobs, todo)
      ensures |todo| < limit ==> forall k <- hub.jobs.Keys :: Job(k) in todo
    {
      todo := [];
      var rest := hub.jobs.Keys;
      while rest != {} && |todo| < limit
        invariant |todo| <= limit && ByAge(hub.jobs, todo, rest)
        decreases rest
      {
        var key := Earliest(rest, hub.jobs);
        OneOlder(hub.jobs, todo, rest, key);
        todo := todo + [Job(key)];
        rest := rest - {key};
      }
    }

    method DeletingFiles(limit: nat) returns (todo: seq<Item>)
      requires hub.Valid()
      ensures |todo| <= limit && DistinctKeys(todo) && FirstTombs(hub.s, todo)
      ensures |todo| < limit ==> forall f <- hub.files.Keys :: hub.files[f].deleting ==> Tomb(f, hub.files[f].key) in todo
    {
      todo := [];
      var rest := set f | f in hub.files && hub.files[f].deleting;
      var at := map f | f in hub.files :: f as int;
      while rest != {} && |todo| < limit
        invariant |todo| <= limit && ById(hub.s, todo, rest)
        decreases rest
      {
        var fid := Earliest(rest, at);
        KeysDiffer();
        OneLater(hub.s, todo, rest, fid);
        todo := todo + [Tomb(fid, hub.files[fid].key)];
        rest := rest - {fid};
      }
    }

    lemma KeysDiffer()
      requires hub.Valid()
      ensures forall f <- hub.files.Keys, g <- hub.files.Keys :: f != g ==> hub.files[f].key != hub.files[g].key
    {
      LeadsToInv(hub.hist, hub.s);
    }

    // The loop over a list, for jobs and tombstones alike: what cannot be
    // removed stays listed, what is removed is settled.
    method Sweep(me: Actor, todo: seq<Item>) returns (checked: nat, completed: nat, err: Option<Error>)
      requires hub.Valid() && me in hub.s.procs && hub.s.procs[me] == Sweeping(todo) && DistinctKeys(todo)
      modifies hub
      ensures hub.Valid() && old(hub.hist) <= hub.hist
      ensures completed <= checked <= |todo| && (err.None? ==> checked == |todo|)
      ensures |hub.Own(me)| == |old(hub.Own(me))| + completed
      ensures err.None? ==> me in hub.s.procs && hub.s.procs[me] == Sweeping([])
      ensures err.Some? ==> me !in hub.s.procs
      ensures hub.quiet && (forall item <- todo :: Listed(old(hub.s), item)) ==>
                err.None? && SweptUp(old(hub.s), hub.s, todo, |todo|, completed)
    {
      checked, completed, err := 0, 0, None;
      ghost var s0 := hub.s;
      ghost var alone := hub.quiet && forall item <- todo :: Listed(s0, item);
      for i := 0 to |todo|
        invariant hub.Valid() && old(hub.hist) <= hub.hist && completed <= checked == i
        invariant |hub.Own(me)| == |old(hub.Own(me))| + completed
        invariant me in hub.s.procs && hub.s.procs[me] == Sweeping(todo[i..])
        invariant alone ==> SweptUp(s0, hub.s, todo, i, completed)
      {
        ghost var s := hub.s;
        var began, done, failed := SweepOne(me, todo[i..]);
        checked := checked + if began then 1 else 0;
        completed := completed + if done then 1 else 0;
        if failed.Some? {
          return checked, completed, failed;
        }
        assert todo[i..][0] == todo[i] && todo[i..][1..] == todo[i + 1..];
        if alone {
          SweepMore(s0, s, hub.s, todo, i, completed - if done then 1 else 0, done);
        }
      }
      assert todo[|todo|..] == [];
    }

    method SweepOne(me: Actor, todo: seq<Item>) returns (began: bool, done: bool, err: Option<Error>)
      requires hub.Valid() && me in hub.s.procs && hub.s.procs[me] == Sweeping(todo) && todo != []
      modifies hub
      ensures hub.Valid() && old(hub.hist) <= hub.hist
      ensures (done ==> began) && (err.None? ==> began) && (err.Some? ==> !done)
      ensures |hub.Own(me)| == |old(hub.Own(me))| + if done then 1 else 0
      ensures if err.None? then me in hub.s.procs && hub.s.procs[me] == Sweeping(todo[1..]) else me !in hub.s.procs
      ensures hub.quiet ==> err.None? && OneSwept(old(hub.s), hub.s, todo[0], done)
    {
      hub.Yield(me);
      var stopped := hub.Fault();
      if stopped {
        hub.Return(me);
        return false, false, Some(Broken);
      }
      var removed := Remove(me, todo);
      if !removed {
        return true, false, None;
      }
      err := SettleItem(me, todo[0], todo[1..]);
      return true, err.None?, err;
    }

    method SettleItem(me: Actor, item: Item, rest: seq<Item>) returns (err: Option<Error>)
      requires hub.Valid() && me in hub.s.procs && hub.s.procs[me] == Swept(item, rest)
      modifies hub
      ensures hub.Valid() && old(hub.hist) <= hub.hist
      ensures |hub.Own(me)| == |old(hub.Own(me))| + if err.None? then 1 else 0
      ensures if err.None? then me in hub.s.procs && hub.s.procs[me] == Sweeping(rest) else me !in hub.s.procs
      ensures hub.quiet ==>
                && err.None? && hub.objects == old(hub.objects)
                && hub.jobs == (if item.Job? then old(hub.jobs) - {item.key} else old(hub.jobs))
                && hub.files == if item.Tomb? && Listed(old(hub.s), item) then old(hub.files) - {item.fid} else old(hub.files)
    {
      hub.Yield(me);
      var ok, found;
      match item {
        case Job(key) => ok := CompleteObjectCleanup(me, key, rest);
        case Tomb(fid, key) => found, ok := FinalizeFileDelete(me, fid, key, rest);
      }
      err := if ok then None else Some(Broken);
    }

    method Recover(me: Actor, limit: nat) returns (out: Report, err: Option<Error>, ghost jobs: seq<Item>, ghost tombs: seq<Item>)
      requires hub.Valid() && me !in hub.s.procs
      modifies hub
      ensures hub.Valid() && old(hub.hist) <= hub.hist && me !in hub.s.procs
      ensures out.cleanupCompleted <= out.cleanupChecked <= limit && out.tombstonesFinalized <= out.tombstonesChecked <= limit
      ensures |hub.Own(me)| == |old(hub.Own(me))| + out.cleanupCompleted + out.tombstonesFinalized
      ensures hub.quiet && old(hub.s).procs == map[] ==>
                && err.None? && out.cleanupChecked == |jobs| && out.tombstonesChecked == |tombs|
                && OldestJobs(old(hub.jobs), jobs) && FirstTombs(old(hub.s), tombs)
                && (|jobs| < limit ==> forall k <- old(hub.jobs).Keys :: Job(k) in jobs)
                && (|tombs| < limit ==> forall f <- old(hub.files).Keys :: old(hub.files)[f].deleting ==> Tomb(f, old(hub.files)[f].key) in tombs)
                && out.cleanupCompleted == Removable(old(hub.objects), jobs)
                && out.tombstonesFinalized == Removable(old(hub.objects) - Keys(jobs), tombs)
                && hub.jobs == old(hub.jobs) - JobKeys(jobs, old(hub.objects).Keys)
                && hub.objects == old(hub.objects) - Keys(jobs) - Keys(tombs)
                && hub.files == old(hub.files) - Fids(tombs, (old(hub.objects) - Keys(jobs)).Keys)
    {
      out, jobs, tombs := Report(0, 0, 0, 0), [], [];
      var checked, completed, finalized;
      checked, completed, err, jobs := RecoverJobs(me, limit);
      out := Report(checked, completed, 0, 0);
      if err.Some? {
        return;
      }
      checked, finalized, err, tombs := RecoverTombstones(me, limit);
      out := Report(out.cleanupChecked, completed, checked, finalized);
    }

    // The first loop; the pass goes on afterwards.
    method RecoverJobs(me: Actor, limit: nat) returns (checked: nat, completed: nat, err: Option<Error>, ghost jobs: seq<Item>)
      requires hub.Valid() && me !in hub.s.procs
      modifies hub
      ensures hub.Valid() && old(hub.hist) <= hub.hist
      ensures if err.None? then me in hub.s.procs && hub.s.procs[me] == Sweeping([]) else me !in hub.s.procs
      ensures completed <= checked <= limit && |hub.Own(me)| == |old(hub.Own(me))| + completed
      ensures hub.quiet ==>
                && err.None? && checked == |jobs| && OldestJobs(old(hub.jobs), jobs)
                && (|jobs| < limit ==> forall k <- old(hub.jobs).Keys :: Job(k) in jobs)
                && completed == Removable(old(hub.objects), jobs)
                && hub.objects == old(hub.objects) - Keys(jobs) && hub.files == old(hub.files)
                && hub.jobs == old(hub.jobs) - JobKeys(jobs, old(hub.objects).Keys)
    {
      checked, completed, jobs := 0, 0, [];
      var failed, todo := ListJobs(me, limit);
      if failed {
        return 0, 0, Some(Broken), jobs;
      }
      jobs := todo;
      NoTombsAmongJobs(todo, hub.objects.Keys);
      checked, completed, err := Sweep(me, todo);
      assert todo[..|todo|] == todo;
    }

    method ListJobs(me: Actor, limit: nat) returns (failed: bool, todo: seq<Item>)
      requires hub.Valid() && me !in hub.s.procs
      modifies hub`s, hub`hist
      ensures hub.Valid() && old(hub.hist) <= hub.hist && hub.Own(me) == old(hub.Own(me))
      ensures hub.s.procs == if failed then old(hub.s.procs) else old(hub.s.procs)[me := Sweeping(todo)]
      ensures |todo| <= limit && DistinctKeys(todo) && OldestJobs(hub.jobs, todo)
      ensures !failed && |todo| < limit ==> forall k <- hub.jobs.Keys :: Job(k) in todo
      ensures !failed ==> forall item <- todo :: item.Job? && Listed(hub.s, item)
      ensures hub.quiet ==> !failed
    {
      todo := [];
      failed := hub.Fault();
      if !failed {
        todo := ObjectCleanupJobs(limit);
        Begin(me, todo);
      }
    }

    // What a query has listed is now in hand, and may go stale there.
    method Begin(me: Actor, todo: seq<Item>)
      requires hub.Valid() && (me in hub.s.procs ==> hub.s.procs[me] == Sweeping([]))
      requires forall item <- todo :: Listed(hub.s, item)
      modifies hub`s, hub`hist
      ensures hub.Valid() && old(hub.hist) <= hub.hist && hub.Own(me) == old(hub.Own(me))
      ensures hub.s.procs == old(hub.s.procs)[me := Sweeping(todo)]
      ensures forall item <- todo :: Listed(hub.s, item)
    {
      hub.StepOnFiles(me, List(me, todo));
    }

    method RecoverTombstones(me: Actor, limit: nat) returns (checked: nat, finalized: nat, err: Option<Error>, ghost tombs: seq<Item>)
      requires hub.Valid() && me in hub.s.procs && hub.s.procs[me] == Sweeping([])
      modifies hub
      ensures hub.Valid() && old(hub.hist) <= hub.hist && me !in hub.s.procs
      ensures finalized <= checked <= limit && |hub.Own(me)| == |old(hub.Own(me))| + finalized
      ensures hub.quiet ==>
                && err.None? && checked == |tombs| && FirstTombs(old(hub.s), tombs)
                && (|tombs| < limit ==> forall f <- old(hub.files).Keys :: old(hub.files)[f].deleting ==> Tomb(f, old(hub.files)[f].key) in tombs)
                && finalized == Removable(old(hub.objects), tombs)
                && hub.objects == old(hub.objects) - Keys(tombs) && hub.jobs == old(hub.jobs)
                && hub.files == old(hub.files) - Fids(tombs, old(hub.objects).Keys)
    {
      checked, finalized, tombs := 0, 0, [];
      hub.Yield(me);
      var failed := hub.Fault();
      if failed {
        hub.Return(me);
        return 0, 0, Some(Broken), tombs;
      }
      var todo := DeletingFiles(limit);
      tombs := todo;
      Begin(me, todo);
      assert JobKeys(todo, hub.objects.Keys) == {};
      checked, finalized, err := Sweep(me, todo);
      assert todo[..|todo|] == todo;
      if err.None? {
        hub.Return(me);
      }
    }
  }

  // What ObjectCleanupJobs lists: queued keys, the oldest first and none left
  // out that is older.
  predicate OldestJobs(jobs: map<Key, int>, todo: seq<Item>) {
    && (forall item <- todo :: item.Job? && item.key in jobs)
    && (forall i, j :: 0 <= i < j < |todo| ==> jobs[todo[i].key] <= jobs[todo[j].key])
    && (forall item <- todo, k <- jobs.Keys :: Job(k) in todo || jobs[item.key] <= jobs[k])
  }

  // What DeletingFiles lists: tombstones in the order of their ids, none left
  // out that comes before.
  predicate FirstTombs(s: State, todo: seq<Item>) {
    && (forall item <- todo :: item.Tomb? && Listed(s, item))
    && (forall i, j :: 0 <= i < j < |todo| ==> todo[i].fid < todo[j].fid)
    && (forall item <- todo, f <- s.files.Keys ::
          s.files[f].deleting ==> Tomb(f, s.files[f].key) in todo || item.fid < f)
  }

  // todo lists the jobs outside rest, which are the older ones.
  predicate ByAge(jobs: map<Key, int>, todo: seq<Item>, rest: set<Key>) {
    && rest <= jobs.Keys && DistinctKeys(todo)
    && (forall item <- todo :: item.Job? && item.key in jobs && item.key !in rest)
    && (forall k <- jobs.Keys :: k in rest || Job(k) in todo)
    && (forall item <- todo, k <- rest :: jobs[item.key] <= jobs[k])
    && (forall i, j :: 0 <= i < j < |todo| ==> jobs[todo[i].key] <= jobs[todo[j].key])
  }

  lemma OneOlder(jobs: map<Key, int>, todo: seq<Item>, rest: set<Key>, key: Key)
    requires ByAge(jobs, todo, rest) && key in rest && forall k <- rest :: jobs[key] <= jobs[k]
    ensures ByAge(jobs, todo + [Job(key)], rest - {key})
  {
    assert forall i :: 0 <= i < |todo| ==> todo[i] in todo;
  }

  // todo lists the tombstones outside rest, which have the smaller ids.
  predicate ById(s: State, todo: seq<Item>, rest: set<FileId>) {
    && rest <= s.files.Keys && DistinctKeys(todo) && (forall f <- rest :: s.files[f].deleting)
    && (forall item <- todo :: item.Tomb? && Listed(s, item) && forall f <- rest :: item.fid < f)
    && (forall f <- s.files.Keys :: s.files[f].deleting ==> f in rest || Tomb(f, s.files[f].key) in todo)
    && (forall i, j :: 0 <= i < j < |todo| ==> todo[i].fid < todo[j].fid)
  }

  lemma OneLater(s: State, todo: seq<Item>, rest: set<FileId>, fid: FileId)
    requires ById(s, todo, rest) && fid in rest && forall f <- rest :: fid <= f
    requires forall f <- s.files.Keys, g <- s.files.Keys :: f != g ==> s.files[f].key != s.files[g].key
    ensures ById(s, todo + [Tomb(fid, s.files[fid].key)], rest - {fid})
  {
    assert forall i :: 0 <= i < |todo| ==> todo[i] in todo;
  }

  predicate DistinctKeys(todo: seq<Item>) {
    forall i, j :: 0 <= i < j < |todo| ==> todo[i].key != todo[j].key
  }

  function Keys(todo: seq<Item>): set<Key> {
    set item | item in todo :: item.key
  }

  // How many of the listed objects are there to be removed.
  function Removable(objects: map<Key, Data>, todo: seq<Item>): nat {
    if todo == [] then 0
    else Removable(objects, todo[..|todo| - 1]) + if todo[|todo| - 1].key in objects then 1 else 0
  }

  lemma {:induction false} RemovableCounts(objects: map<Key, Data>, todo: seq<Item>)
    ensures Removable(objects, todo) == |set i | 0 <= i < |todo| && todo[i].key in objects|
  {
    if todo != [] {
      var n := |todo| - 1;
      var most := todo[..n];
      RemovableCounts(objects, most);
      var before := set i | 0 <= i < |most| && most[i].key in objects;
      assert (set i | 0 <= i < |todo| && todo[i].key in objects) == if todo[n].key in objects then before + {n} else before;
    }
  }

  // The rows of the listed tombstones whose object is one of keys.
  function Fids(todo: seq<Item>, keys: set<Key>): set<FileId> {
    set item | item in todo && item.Tomb? && item.key in keys :: item.fid
  }

  // What a quiet pass makes of one item: gone with its object, or left alone.
  predicate OneSwept(s: State, s': State, item: Item, done: bool) {
    && (done <==> item.key in s.objects) && s'.objects == s.objects - {item.key}
    && s'.jobs == (if done && item.Job? then s.jobs - {item.key} else s.jobs)
    && s'.files == if done && item.Tomb? && Listed(s, item) then s.files - {item.fid} else s.files
  }

  // What it makes of the first i items of a list.
  predicate SweptUp(s0: State, s: State, todo: seq<Item>, i: nat, completed: nat)
    requires i <= |todo|
  {
    && completed == Removable(s0.objects, todo[..i])
    && s.objects == s0.objects - Keys(todo[..i])
    && s.jobs == s0.jobs - JobKeys(todo[..i], s0.objects.Keys)
    && s.files == s0.files - Fids(todo[..i], s0.objects.Keys)
  }

  function JobKeys(todo: seq<Item>, keys: set<Key>): set<Key> {
    set item | item in todo && item.Job? && item.key in keys :: item.key
  }

  lemma SweepMore(s0: State, s: State, s': State, todo: seq<Item>, i: nat, completed: nat, done: bool)
    requires i < |todo| && DistinctKeys(todo) && forall item <- todo :: Listed(s0, item)
    requires SweptUp(s0, s, todo, i, completed) && OneSwept(s, s', todo[i], done)
    ensures SweptUp(s0, s', todo, i + 1, completed + if done then 1 else 0)
  {
    var item, before, after := todo[i], todo[..i], todo[..i + 1];
    assert after == before + [item] && after[..i] == before;
    assert item.key !in Keys(before);
    assert Keys(after) == Keys(before) + {item.key};
    assert JobKeys(after, s0.objects.Keys) == JobKeys(before, s0.objects.Keys) + if done && item.Job? then {item.key} else {};
    assert Fids(after, s0.objects.Keys) == Fids(before, s0.objects.Keys) + if done && item.Tomb? then {item.fid} else {};
    if item.Tomb? {
      NotYetSwept(s0, todo, i);
    }
    assert s'.files == s0.files - Fids(after, s0.objects.Keys);
  }

  lemma NotYetSwept(s0: State, todo: seq<Item>, i: nat)
    requires i < |todo| && DistinctKeys(todo) && todo[i].Tomb? && forall item <- todo :: Listed(s0, item)
    ensures todo[i].fid !in Fids(todo[..i], s0.objects.Keys) && todo[i].fid in s0.files
    ensures var f := s0.files[todo[i].fid]; f.key == todo[i].key && f.deleting
  {
    assert Listed(s0, todo[i]);
    forall other | other in todo[..i] && other.Tomb? ensures other.fid != todo[i].fid {
      assert Listed(s0, other) && Listed(s0, todo[i]);
      assert other.key in Keys(todo[..i]) && todo[i].key !in Keys(todo[..i]);
    }
  }

  lemma NoTombsAmongJobs(todo: seq<Item>, keys: set<Key>)
    requires forall item <- todo :: item.Job?
    ensures Fids(todo, keys) == {}
  {
  }

  // The tables of published files are as before.
  predicate SameFiles(s: State, s': State) {
    s'.files == s.files && s'.dirs == s.dirs && s'.objects == s.objects && s'.jobs == s.jobs
  }

  // Whatever a store has been through, its active files have their objects and
  // its cleanup jobs name no object that a row holds.
  lemma StoreKeepsItsObjects(hub: Store, fid: FileId)
    requires hub.Valid() && fid in hub.files
    ensures !hub.files[fid].deleting ==> hub.files[fid].key in hub.objects
    ensures hub.files[fid].key !in hub.jobs
  {
    LeadsToIsRun(hub.hist, hub.s);
    RowsAndJobsAgree(hub.hist, hub.s);
  }
}
