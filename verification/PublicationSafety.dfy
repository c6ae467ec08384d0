// What published files promise while createFile, Complete, deleteFile, renames
// and any number of recovery passes interleave and crash.
module PublicationSafety {
  import opened Wrappers
  import opened Bytes
  import opened Hub
  import opened HubInvariant
  import opened HubFrame

  // Metadata never points at a missing object, and cleanup work never names an
  // object that any row still holds.
  lemma RowsAndJobsAgree(evs: seq<Event>, s: State)
    requires Run(Init(), evs, s)
    ensures forall f <- s.files.Keys :: !s.files[f].deleting ==> s.files[f].key in s.objects
    ensures forall f <- s.files.Keys :: s.files[f].key !in s.jobs
  {
    RunKeeps(Init(), evs, s);
    forall f <- s.files.Keys
      ensures !s.files[f].deleting ==> s.files[f].key in s.objects
      ensures s.files[f].key !in s.jobs
    {
      assert FileOk(s, f);
    }
  }

  // No active row and no actor about to record an object needs key k.
  ghost predicate Unneeded(s: State, k: Key) {
    && (forall f <- s.files.Keys :: !s.files[f].deleting ==> s.files[f].key != k)
    && (forall b <- s.procs.Keys :: s.procs[b].Published? || s.procs[b].Refused? || s.procs[b].Holding? ==> s.procs[b].key != k)
  }

  lemma SpentKeyIsUnneeded(s: State, item: Item)
    requires Inv(s) && ItemOk(s, item)
    ensures Unneeded(s, item.key)
  {
    forall f <- s.files.Keys | !s.files[f].deleting ensures s.files[f].key != item.key {
      assert FileOk(s, f);
    }
    forall b <- s.procs.Keys | s.procs[b].Published? || s.procs[b].Refused? || s.procs[b].Holding?
      ensures s.procs[b].key != item.key
    {
      assert ProcOk(s, b, s.procs[b]);
    }
  }

  // An erasure works from a list that may be stale by now; it never takes the
  // object of an active row, nor one that is about to be recorded or restored.
  lemma ErasureSparesTheLiving(evs: seq<Event>, s: State, a: Actor, reported: bool)
    requires LeadsTo(evs, s) && DoErase(s, a, reported).Some?
    ensures DoErase(s, a, reported).value.objects == s.objects - {s.procs[a].todo[0].key}
    ensures Unneeded(s, s.procs[a].todo[0].key)
  {
    LeadsToIsRun(evs, s);
    RunKeeps(Init(), evs, s);
    var item := s.procs[a].todo[0];
    assert ProcOk(s, a, s.procs[a]) && ItemOk(s, item);
    SpentKeyIsUnneeded(s, item);
  }

  // A key that has served an active row stays with it, bytes and all, or is dead for good.
  ghost predicate KeyKept(s: State, s': State, k: Key) {
    && (k in s.roles && s.roles[k] == Live ==>
          k in s'.roles && (s'.roles[k] == Live || s'.roles[k] == Dead)
          && (s'.roles[k] == Live ==> SameAt(s.objects, s'.objects, k)))
    && (k in s.roles && s.roles[k] == Dead ==> k in s'.roles && s'.roles[k] == Dead)
  }

  lemma ForwardKeepsKey(s: State, s': State, a: Actor, k: Key)
    requires Forward(s, s', a)
    ensures KeyKept(s, s', k)
  {
  }

  lemma AmbientKeepsKey(s: State, e: Event, k: Key)
    requires Ambient(e) && Next(s, e).Some?
    ensures KeyKept(s, Next(s, e).value, k)
  {
  }

  lemma StepKeepsKey(s: State, e: Event, k: Key)
    requires Inv(s) && Next(s, e).Some?
    ensures KeyKept(s, Next(s, e).value, k)
  {
    if Ambient(e) {
      AmbientKeepsKey(s, e, k);
    } else {
      StepLocal(s, e);
      var x: UploadId :| Local(s, Next(s, e).value, e.a, x);
      ForwardKeepsKey(s, Next(s, e).value, e.a, k);
    }
  }

  lemma {:induction false} RunKeepsKey(s: State, evs: seq<Event>, s': State, k: Key)
    requires Inv(s) && Run(s, evs, s')
    ensures Inv(s') && KeyKept(s, s', k)
    decreases |evs|
  {
    if evs != [] {
      StepKeeps(s, evs[0]);
      StepKeepsKey(s, evs[0], k);
      RunKeepsKey(Next(s, evs[0]).value, evs[1..], s', k);
    }
  }

  // The object behind a row does not change for as long as the row is active.
  lemma LiveObjectIsImmutable(s: State, evs: seq<Event>, s': State, fid: FileId)
    requires Inv(s) && Run(s, evs, s')
    requires fid in s.files && fid in s'.files && s'.files[fid].key == s.files[fid].key
    requires !s.files[fid].deleting && !s'.files[fid].deleting
    ensures s.files[fid].key in s.objects && SameAt(s.objects, s'.objects, s.files[fid].key)
  {
    RunKeepsKey(s, evs, s', s.files[fid].key);
    assert FileOk(s, fid) && FileOk(s', fid);
  }

  // --- files and directories ---

  // Only a rename puts a file on a directory's path, whatever inserts, commits,
  // directory creations and deletions interleave.
  lemma OnlyRenamesGoAstray(evs: seq<Event>, s: State, fid: FileId)
    requires Run(Init(), evs, s) && fid in s.files && s.files[fid].target in s.dirs
    ensures fid in s.astray
  {
    RunKeeps(Init(), evs, s);
  }

  predicate Apart(s: State) {
    forall f <- s.files.Keys :: s.files[f].target !in s.dirs
  }

  predicate OntoDirectory(s: State, e: Event) {
    e.RenameFile? && e.target in s.dirs
  }

  lemma UploadsLeaveDirectories(s: State, e: Event)
    requires OnUploads(e) && NextOnUploads(s, e).Some?
    ensures NextOnUploads(s, e).value.dirs == s.dirs
  {
    if e.ReadRow? {
      assert DoReadRow(s, e.a).value.dirs == s.dirs;
    } else if e.CreatePart? || e.InsertRow? || e.InsertRowFailed? || e.UndoCreate? || e.Begin? || e.Acquire? {
      SessionsLeaveDirectories(s, e);
    }
  }

  lemma SessionsLeaveDirectories(s: State, e: Event)
    requires OnUploads(e) && NextOnUploads(s, e).Some?
    requires e.CreatePart? || e.InsertRow? || e.InsertRowFailed? || e.UndoCreate? || e.Begin? || e.Acquire?
    ensures NextOnUploads(s, e).value.dirs == s.dirs
  {
  }

  lemma PublicationLeavesDirectories(s: State, e: Event)
    requires OnPublication(e) && NextOnPublication(s, e).Some?
    ensures NextOnPublication(s, e).value.dirs == s.dirs
  {
  }

  lemma FilesLeaveDirectories(s: State, e: Event)
    requires OnFiles(e) && NextOnFiles(s, e).Some?
    ensures NextOnFiles(s, e).value.dirs == s.dirs
  {
  }

  lemma OthersLeaveDirectories(s: State, e: Event)
    requires Next(s, e).Some? && !OnDirectories(e)
    ensures Next(s, e).value.dirs == s.dirs
  {
    if OnUploads(e) {
      UploadsLeaveDirectories(s, e);
    } else if OnPublication(e) {
      PublicationLeavesDirectories(s, e);
    } else if OnFiles(e) {
      FilesLeaveDirectories(s, e);
    }
  }

  lemma CommitStaysApart(s: State, a: Actor, id: UploadId, fid: FileId)
    requires Apart(s) && DoCommitUpload(s, a, id, fid).Some?
    ensures Apart(DoCommitUpload(s, a, id, fid).value)
  {
  }

  lemma FileStepApart(s: State, e: Event)
    requires Apart(s) && OnFiles(e) && WritesFiles(e) && NextOnFiles(s, e).Some?
    ensures Apart(NextOnFiles(s, e).value) <==> !OntoDirectory(s, e)
  {
    if e.RenameFile? {
      assert NextOnFiles(s, e).value.files[e.fid].target == e.target;
    }
  }

  lemma DirectoryStepApart(s: State, e: Event)
    requires Apart(s) && OnDirectories(e) && NextOnDirectories(s, e).Some?
    ensures Apart(NextOnDirectories(s, e).value)
  {
  }

  lemma StepKeepsApart(s: State, e: Event)
    requires Apart(s) && Next(s, e).Some?
    ensures Apart(Next(s, e).value) <==> !OntoDirectory(s, e)
  {
    if OnDirectories(e) {
      DirectoryStepApart(s, e);
    } else if e.CommitUpload? {
      CommitStaysApart(s, e.a, e.id, e.fid);
    } else if WritesFiles(e) {
      FileStepApart(s, e);
    } else {
      OtherStepApart(s, e);
    }
  }

  lemma OtherStepApart(s: State, e: Event)
    requires Apart(s) && !OnDirectories(e) && !WritesFiles(e) && Next(s, e).Some?
    ensures Apart(Next(s, e).value) && !OntoDirectory(s, e)
  {
    OthersLeaveDirectories(s, e);
    if !e.Tick? { StepWrites(s, e); }
  }

  // Every state of the run, the first and the last included.
  ghost predicate AlwaysApart(s: State, evs: seq<Event>)
    decreases |evs|
  {
    Apart(s) && (evs == [] || (Next(s, evs[0]).Some? && AlwaysApart(Next(s, evs[0]).value, evs[1..])))
  }

  predicate NeverOntoDirectory(s: State, evs: seq<Event>)
    decreases |evs|
  {
    evs == []
    || (!OntoDirectory(s, evs[0]) && Next(s, evs[0]).Some? && NeverOntoDirectory(Next(s, evs[0]).value, evs[1..]))
  }

  // So a run keeps files and directories apart throughout exactly when none of
  // its renames takes a directory's path.
  lemma {:induction false} ApartIffNoSuchRename(s: State, evs: seq<Event>, s': State)
    requires Apart(s) && Run(s, evs, s')
    ensures AlwaysApart(s, evs) <==> NeverOntoDirectory(s, evs)
    decreases |evs|
  {
    if evs != [] {
      var mid := Next(s, evs[0]).value;
      StepKeepsApart(s, evs[0]);
      if Apart(mid) {
        ApartIffNoSuchRename(mid, evs[1..], s');
      } else {
        assert evs[1..] == [] ==> !AlwaysApart(mid, evs[1..]);
      }
    }
  }

  // --- work that recovery never finishes ---

  // The object of a listed job or tombstone is gone, and nobody who removed it
  // is about to settle it.
  predicate Stuck(s: State, item: Item) {
    && Listed(s, item) && item.key !in s.objects
    && forall a <- s.procs.Keys :: s.procs[a].Swept? ==> s.procs[a].item != item
  }

  // Where objects, jobs and half-settled items come from: no object ever appears
  // under a key that has been used.
  ghost predicate FileWrites(s: State, e: Event, s': State)
    requires !e.Tick?
  {
    && (forall k <- s'.objects.Keys :: k in s.objects || k !in s.roles)
    && (!e.Enqueue? && !e.Settle? ==> s'.jobs == s.jobs)
    && (!Ambient(e) && !e.Erase? && e.a in s'.procs ==> !s'.procs[e.a].Swept?)
  }

  lemma ReadWritesNoFiles(s: State, e: Event)
    requires e.ReadRow? && DoReadRow(s, e.a).Some?
    ensures FileWrites(s, e, DoReadRow(s, e.a).value)
  {
    var next := AfterRead(s, s.procs[e.a].id, s.procs[e.a].op);
    ReadKeepsLock(s, s.procs[e.a].id, s.procs[e.a].op);
    assert DoReadRow(s, e.a).value == if next.None? then Leave(s, e.a) else Go(s, e.a, next.value);
  }

  lemma SessionsWriteNoFiles(s: State, e: Event)
    requires OnUploads(e) && NextOnUploads(s, e).Some?
    requires e.CreatePart? || e.InsertRow? || e.InsertRowFailed? || e.UndoCreate? || e.Begin? || e.Acquire?
    ensures FileWrites(s, e, NextOnUploads(s, e).value)
  {
  }

  lemma UploadsWriteFiles(s: State, e: Event)
    requires OnUploads(e) && NextOnUploads(s, e).Some?
    ensures FileWrites(s, e, NextOnUploads(s, e).value)
  {
    if e.ReadRow? {
      ReadWritesNoFiles(s, e);
    } else if e.CreatePart? || e.InsertRow? || e.InsertRowFailed? || e.UndoCreate? || e.Begin? || e.Acquire? {
      SessionsWriteNoFiles(s, e);
    }
  }

  lemma PublicationWritesFiles(s: State, e: Event)
    requires Inv(s) && OnPublication(e) && NextOnPublication(s, e).Some?
    ensures FileWrites(s, e, NextOnPublication(s, e).value)
  {
  }

  lemma FilesWriteFiles(s: State, e: Event)
    requires OnFiles(e) && NextOnFiles(s, e).Some?
    ensures FileWrites(s, e, NextOnFiles(s, e).value)
  {
  }

  lemma StepWritesFiles(s: State, e: Event)
    requires Inv(s) && Next(s, e).Some? && !e.Tick?
    ensures FileWrites(s, e, Next(s, e).value)
  {
    if OnUploads(e) {
      UploadsWriteFiles(s, e);
    } else if OnPublication(e) {
      PublicationWritesFiles(s, e);
    } else if OnFiles(e) {
      FilesWriteFiles(s, e);
    }
  }

  lemma JobStaysListed(s: State, e: Event, key: Key)
    requires Inv(s) && Stuck(s, Job(key)) && Next(s, e).Some?
    ensures key in Next(s, e).value.jobs
  {
    if !e.Tick? { StepWritesFiles(s, e); }
    if e.Enqueue? || e.Settle? {
      JobKept(s, e, key);
    }
  }

  lemma JobKept(s: State, e: Event, key: Key)
    requires key in s.jobs && (e.Enqueue? || e.Settle?) && Next(s, e).Some?
    requires e.a in s.procs && s.procs[e.a].Swept? ==> s.procs[e.a].item != Job(key)
    ensures key in Next(s, e).value.jobs
  {
  }

  lemma TombStaysListed(s: State, e: Event, fid: FileId, key: Key)
    requires Stuck(s, Tomb(fid, key)) && Next(s, e).Some?
    ensures Listed(Next(s, e).value, Tomb(fid, key))
  {
    if !e.Tick? { StepWrites(s, e); }
    if e.Settle? {
      SettleSpares(s, e.a, fid, key);
    } else if e.CommitUpload? {
      assert DoCommitUpload(s, e.a, e.id, e.fid).Some?;
    } else if e.InsertFile? || e.RenameFile? || e.Tombstone? {
      TombKept(s, e, fid, key);
    }
  }

  lemma TombKept(s: State, e: Event, fid: FileId, key: Key)
    requires Listed(s, Tomb(fid, key)) && (e.InsertFile? || e.RenameFile? || e.Tombstone?) && Next(s, e).Some?
    ensures Listed(Next(s, e).value, Tomb(fid, key))
  {
  }

  lemma SettleSpares(s: State, a: Actor, fid: FileId, key: Key)
    requires Listed(s, Tomb(fid, key)) && DoSettle(s, a).Some? && s.procs[a].item != Tomb(fid, key)
    ensures Listed(DoSettle(s, a).value, Tomb(fid, key))
  {
  }

  lemma StuckIsNotSwept(s: State, e: Event, item: Item, a: Actor)
    requires Inv(s) && Stuck(s, item) && Next(s, e).Some? && a in Next(s, e).value.procs
    ensures Next(s, e).value.procs[a].Swept? ==> Next(s, e).value.procs[a].item != item
  {
    var s' := Next(s, e).value;
    if Ambient(e) {
      AmbientLeavesUploads(s, e);
    } else if e.a == a {
      StepWritesFiles(s, e);
      if e.Erase? {
        assert DoErase(s, a, e.reported).Some?;
      }
    } else {
      StepUnmoved(s, e, a);
      assert SameAt(s.procs, s'.procs, a);
    }
  }

  // Remove fails on an absent object, so such an item stays for ever, through
  // any number of recovery passes.
  lemma {:induction false} StuckForever(s: State, evs: seq<Event>, s': State, item: Item)
    requires Inv(s) && Stuck(s, item) && Run(s, evs, s')
    ensures Stuck(s', item)
    decreases |evs|
  {
    if evs != [] {
      var mid := Next(s, evs[0]).value;
      StepKeeps(s, evs[0]);
      if item.Job? {
        JobStaysListed(s, evs[0], item.key);
      } else {
        TombStaysListed(s, evs[0], item.fid, item.key);
      }
      if !evs[0].Tick? { StepWritesFiles(s, evs[0]); }
      ListedKeyIsUsed(s, item);
      forall a <- mid.procs.Keys | mid.procs[a].Swept? ensures mid.procs[a].item != item {
        StuckIsNotSwept(s, evs[0], item, a);
      }
      StuckForever(mid, evs[1..], s', item);
    }
  }

  lemma ListedKeyIsUsed(s: State, item: Item)
    requires Inv(s) && Listed(s, item)
    ensures item.key in s.roles
  {
    if item.Tomb? {
      assert FileOk(s, item.fid);
    }
  }

  // --- both kinds of such work are within reach of one crash ---

  lemma RunBack(s: State, evs: seq<Event>, i: nat, s': State)
    requires i < |evs| && Next(s, evs[i]).Some? && Run(Next(s, evs[i]).value, evs[i + 1..], s')
    ensures Run(s, evs[i..], s')
  {
    assert evs[i..][0] == evs[i] && evs[i..][1..] == evs[i + 1..];
  }

  // A store without uploads and directories, at time 0.
  function Plain(objects: map<Key, Data>, files: map<FileId, File>, jobs: map<Key, int>, procs: map<Actor, Proc>,
                 roles: map<Key, Role>): State
  {
    State(map[], map[], objects, files, {}, jobs, 0, procs, {}, map[], {}, roles, {})
  }

  function Made(target: Target): State {
    Plain(map[7 := []], map[], map[], map[0 := Holding(7, target, 1)], map[7 := Pending(0)])
  }

  lemma MakeObject(target: Target)
    ensures Next(Init(), CreateObject(0, 7, [], target, 1)) == Some(Made(target))
  {
    assert DoCreateObject(Init(), 0, 7, [], target, 1).value == Made(target);
  }

  // createFile whose insert fails, and which dies between Remove and
  // CompleteObjectCleanup.
  function CrashedCreate(target: Target): seq<Event> {
    [CreateObject(0, 7, [], target, 1), InsertFileFailed(0), Enqueue(0), Erase(0, true), Quit(0)]
  }

  function JobQueued(): State {
    Plain(map[7 := []], map[], map[7 := 0], map[0 := Sweeping([Job(7)])], map[7 := Doomed])
  }

  function JobLeft(): State {
    Plain(map[], map[], map[7 := 0], map[], map[7 := Doomed])
  }

  lemma QueueJob(target: Target)
    ensures Run(Made(target), CrashedCreate(target)[1..3], JobQueued())
  {
    var evs := CrashedCreate(target)[1..3];
    var s2 := DoInsertFileFailed(Made(target), 0).value;
    assert s2 == Plain(map[7 := []], map[], map[], map[0 := Failed(7)], map[7 := Doomed]);
    assert DoEnqueue(s2, 0).value == JobQueued();
    RunBack(s2, evs, 1, JobQueued());
    RunBack(Made(target), evs, 0, JobQueued());
    assert evs[0..] == evs;
  }

  lemma LoseJobsObject(target: Target)
    ensures Run(JobQueued(), CrashedCreate(target)[3..], JobLeft())
  {
    var evs := CrashedCreate(target);
    assert [Job(7)][1..] == [];
    var s4 := DoErase(JobQueued(), 0, true).value;
    assert s4 == Plain(map[], map[], map[7 := 0], map[0 := Swept(Job(7), [])], map[7 := Doomed]);
    assert Leave(s4, 0) == JobLeft();
    RunBack(s4, evs, 4, JobLeft());
    RunBack(JobQueued(), evs, 3, JobLeft());
  }

  lemma StuckJobIsReachable(target: Target)
    ensures Run(Init(), CrashedCreate(target), JobLeft()) && Stuck(JobLeft(), Job(7))
  {
    var evs := CrashedCreate(target);
    MakeObject(target);
    QueueJob(target);
    LoseJobsObject(target);
    RunAppend(Made(target), evs[1..3], JobQueued(), evs[3..], JobLeft());
    assert evs[1..3] + evs[3..] == evs[1..];
  }

  // deleteFile that dies between Remove and FinalizeFileDelete.
  function CrashedDelete(target: Target): seq<Event> {
    [CreateObject(0, 7, [], target, 1), InsertFile(0, 1), FindFile(0, 1), Tombstone(0), Erase(0, true), Quit(0)]
  }

  function Stored(target: Target): State {
    Plain(map[7 := []], map[1 := File(target, 7, 0, 1, false, None)], map[], map[], map[7 := Live])
  }

  function TombstoneLeft(target: Target): State {
    Plain(map[], map[1 := File(target, 7, 0, 1, true, None)], map[], map[], map[7 := Dead])
  }

  lemma StoreFile(target: Target)
    ensures Next(Made(target), InsertFile(0, 1)) == Some(Stored(target))
  {
    assert DoInsertFile(Made(target), 0, 1).value == Stored(target);
  }

  function Hidden(target: Target): State {
    Plain(map[7 := []], map[1 := File(target, 7, 0, 1, true, None)], map[], map[0 := Sweeping([Tomb(1, 7)])], map[7 := Dead])
  }

  lemma HideFile(target: Target)
    ensures Run(Stored(target), CrashedDelete(target)[2..4], Hidden(target))
  {
    var evs := CrashedDelete(target)[2..4];
    var s3 := DoFindFile(Stored(target), 0, 1).value;
    assert DoTombstone(s3, 0).value == Hidden(target);
    RunBack(s3, evs, 1, Hidden(target));
    RunBack(Stored(target), evs, 0, Hidden(target));
    assert evs[0..] == evs;
  }

  lemma LoseTombstonesObject(target: Target)
    ensures Run(Hidden(target), CrashedDelete(target)[4..], TombstoneLeft(target))
  {
    var evs := CrashedDelete(target);
    var s5 := DoErase(Hidden(target), 0, true).value;
    assert Leave(s5, 0) == TombstoneLeft(target);
    RunBack(s5, evs, 5, TombstoneLeft(target));
    RunBack(Hidden(target), evs, 4, TombstoneLeft(target));
  }

  lemma StuckTombstoneIsReachable(target: Target)
    ensures Run(Init(), CrashedDelete(target), TombstoneLeft(target)) && Stuck(TombstoneLeft(target), Tomb(1, 7))
  {
    var evs := CrashedDelete(target);
    MakeObject(target);
    StoreFile(target);
    HideFile(target);
    LoseTombstonesObject(target);
    RunAppend(Stored(target), evs[2..4], Hidden(target), evs[4..], TombstoneLeft(target));
    assert evs[2..4] + evs[4..] == evs[2..];
    RunBack(Made(target), evs, 1, TombstoneLeft(target));
    RunBack(Init(), evs, 0, TombstoneLeft(target));
    assert evs[0..] == evs;
  }
}
