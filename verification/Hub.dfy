// The three stores SafeFileHub keeps in step -- the SQLite rows, the .part
// staging files and the opaque objects -- as one state machine.
//
// Every repository call and every storage call is one event; an actor is one
// request, worker or recovery pass of any process. Events of different actors
// interleave freely. An actor may stop between any two of its events (Quit),
// which covers a crash of its process as well as an early error return.
module Hub {
  import opened Wrappers
  import opened Bytes
  import DirectoryTree

  type UploadId = nat
  type Key = nat
  type FileId = nat
  type Actor = nat

  datatype Target = Target(root: int, path: string)

  // 'complete' is admitted by the CHECK of the status column; no code writes it.
  datatype Status = Active | Cancelled | CleanupPending | Complete

  // A row of upload_sessions. Its staging path is the constant "staging/<id>.part".
  datatype Row = Row(user: int, target: Target, offset: nat, length: nat, status: Status, expires: int)

  // A row of files; deleting is delete_state = 'deleting'. origin remembers the
  // upload session a file came from; POST /api/files leaves it empty.
  datatype File = File(target: Target, key: Key, size: nat, user: int, deleting: bool, origin: Option<UploadId>)

  // What becomes of an object key over time. Bookkeeping of the model only.
  datatype Role =
    | Pending(owner: Actor) // made by owner, which has not recorded it yet
    | Live                  // named by an active files row
    | Dead                  // named by a tombstone, or by a row deleted since
    | Doomed                // its metadata insert failed: cleanup work
    | Lost                  // leaked, or moved back to staging

  // Why a lifecycle lock is taken for cleanup: Cancel, Get of a dead session,
  // Recover on a listed row, Recover on a staging-only name.
  datatype Reason = Always | IfDead | IfBroken | IfOrphan

  datatype Op =
    | WriteOp(offset: nat, body: Data)
    | HashOp
    | PublishOp(seen: Data) // seen: the bytes the digest was computed from
    | CleanOp(reason: Reason)

  // Something published recovery or a handler wants to erase.
  datatype Item = Job(key: Key) | Tomb(fid: FileId, key: Key)

  // Where an actor is in its program, with the local variables it still uses.
  datatype Proc =
    | Creating(id: UploadId, row: Row)
    | CreateUndo(id: UploadId)
    | Waiting(id: UploadId, op: Op)
    | Locked(id: UploadId, op: Op)
    | Truncating(id: UploadId, row: Row, body: Data)
    | Copying(id: UploadId, row: Row, body: Data, n: nat)
    | Hashing(id: UploadId, row: Row)
    | Publishing(id: UploadId, row: Row, seen: Data)
    | Published(id: UploadId, row: Row, seen: Data, key: Key, bytes: Data)
    | Refused(id: UploadId, row: Row, seen: Data, key: Key, bytes: Data)
    | Cleaning(id: UploadId, status: Status)
    | Unlinked(id: UploadId)
    | Orphaned(id: UploadId)
    | Holding(key: Key, target: Target, user: int)
    | Failed(key: Key)
    | Found(fid: FileId, key: Key)
    | Sweeping(todo: seq<Item>)
    | Swept(item: Item, todo: seq<Item>)

  datatype State = State(
    rows: map<UploadId, Row>,
    staging: map<UploadId, Data>,
    objects: map<Key, Data>,
    files: map<FileId, File>,
    dirs: set<Target>,   // the rows of directories
    jobs: map<Key, int>, // the rows of object_cleanup_jobs: object_key and created_at
    now: int,
    procs: map<Actor, Proc>,
    // Bookkeeping of the model: ids given out, bodies accepted per session,
    // sessions whose staging may hold bytes beyond the offset, roles of keys,
    // files that a rename has put on a directory's path.
    issued: set<UploadId>,
    accepted: map<UploadId, seq<Data>>,
    dirty: set<UploadId>,
    roles: map<Key, Role>,
    astray: set<FileId>)

  datatype Event =
    | Tick(now: int)
    | Quit(a: Actor)
    | CreatePart(a: Actor, id: UploadId, row: Row)
    | InsertRow(a: Actor)
    | InsertRowFailed(a: Actor)
    | UndoCreate(a: Actor)
    | Begin(a: Actor, id: UploadId, op: Op)
    | Acquire(a: Actor)
    | ReadRow(a: Actor)
    | Truncate(a: Actor)
    | CopyBytes(a: Actor, n: nat)
    | Rollback(a: Actor, done: bool)
    | CommitWrite(a: Actor, id: UploadId, offset: nat, body: Data)
    | Hash(a: Actor)
    | Publish(a: Actor, key: Key)
    | PublishUnsynced(a: Actor, key: Key)
    | CommitUpload(a: Actor, id: UploadId, fid: FileId)
    | RefuseUpload(a: Actor)
    | Restore(a: Actor)
    | MarkStatus(a: Actor)
    | UnlinkPart(a: Actor)
    | DeleteRow(a: Actor)
    | UnlinkOrphan(a: Actor)
    | CreateObject(a: Actor, key: Key, content: Data, target: Target, user: int)
    | LeakObject(a: Actor, key: Key, content: Data)
    | InsertFile(a: Actor, fid: FileId)
    | InsertFileFailed(a: Actor)
    | Enqueue(a: Actor)
    | FindFile(a: Actor, fid: FileId)
    | RenameFile(a: Actor, fid: FileId, target: Target)
    | Tombstone(a: Actor)
    | List(a: Actor, todo: seq<Item>)
    | Erase(a: Actor, reported: bool)
    | Skip(a: Actor)
    | Settle(a: Actor)
    | AddDirectory(a: Actor, target: Target)
    | DropDirectory(a: Actor, target: Target)

  function Init(): State {
    State(map[], map[], map[], map[], {}, map[], 0, map[], {}, map[], {}, map[], {})
  }

  predicate IsLive(row: Row, now: int) {
    row.status == Active && row.expires > now
  }

  // recoverableStaging: live, and a staging file of exactly Offset bytes.
  predicate Recoverable(s: State, id: UploadId) {
    id in s.rows && IsLive(s.rows[id], s.now) && id in s.staging && |s.staging[id]| == s.rows[id].offset
  }

  predicate NoFileAt(files: map<FileId, File>, target: Target) {
    forall f <- files.Keys :: files[f].target != target
  }

  // What an INSERT INTO files asks of its path: UNIQUE(root_id, logical_path),
  // tombstones included, and the trigger files_path_not_directory.
  predicate PathFree(files: map<FileId, File>, dirs: set<Target>, target: Target) {
    NoFileAt(files, target) && target !in dirs
  }

  // The lifecycle lock an actor holds, if any.
  function LockOf(p: Proc): Option<UploadId> {
    match p
    case Locked(id, _) => Some(id)
    case Truncating(id, _, _) => Some(id)
    case Copying(id, _, _, _) => Some(id)
    case Hashing(id, _) => Some(id)
    case Publishing(id, _, _) => Some(id)
    case Published(id, _, _, _, _) => Some(id)
    case Refused(id, _, _, _, _) => Some(id)
    case Cleaning(id, _) => Some(id)
    case Unlinked(id) => Some(id)
    case Orphaned(id) => Some(id)
    case _ => None
  }

  // What the critical section does after it has re-read the row under the lock;
  // None when it returns at once.
  function AfterRead(s: State, id: UploadId, op: Op): Option<Proc> {
    if op == CleanOp(IfOrphan) then
      if id in s.rows then None else Some(Orphaned(id))
    else if id !in s.rows then None
    else
      var row := s.rows[id];
      match op
      case WriteOp(offset, body) =>
        if id !in s.staging then None
        else if !IsLive(row, s.now) then Cleanup(id, row)
        else if offset != row.offset then None
        else Some(Truncating(id, row, body))
      case HashOp =>
        if IsLive(row, s.now) && row.offset == row.length then Some(Hashing(id, row)) else None
      case PublishOp(seen) =>
        if IsLive(row, s.now) && row.offset == row.length then Some(Publishing(id, row, seen)) else None
      case CleanOp(reason) =>
        if reason == IfDead && IsLive(row, s.now) then None
        else if reason == IfBroken && Recoverable(s, id) then None
        else Cleanup(id, row)
  }

  function Cleanup(id: UploadId, row: Row): Option<Proc> {
    if row.status == Complete then None else Some(Cleaning(id, row.status))
  }

  predicate LockFree(s: State, id: UploadId) {
    forall b <- s.procs.Keys :: LockOf(s.procs[b]) != Some(id)
  }

  // What ListJobs and ListTombs may return: rows the tables hold now.
  predicate Listed(s: State, item: Item) {
    match item
    case Job(key) => key in s.jobs
    case Tomb(fid, key) => fid in s.files && s.files[fid].key == key && s.files[fid].deleting
  }

  // The state after an actor has returned, and after it has moved on to p.
  function Leave(s: State, a: Actor): State {
    s.(procs := s.procs - {a})
  }

  function Go(s: State, a: Actor, p: Proc): State {
    s.(procs := s.procs[a := p])
  }

  // One function per event: the state it leads to, None where it cannot happen.

  // --- Manager.Create ---

  function DoCreatePart(s: State, a: Actor, id: UploadId, row: Row): Option<State> {
    if a !in s.procs && id !in s.issued && row.offset == 0 && row.status == Active then
      Some(Go(s, a, Creating(id, row)).(staging := s.staging[id := []], issued := s.issued + {id}))
    else None
  }

  function DoInsertRow(s: State, a: Actor): Option<State> {
    if a in s.procs && s.procs[a].Creating? then
      var p := s.procs[a];
      Some(Leave(s, a).(rows := s.rows[p.id := p.row], accepted := s.accepted[p.id := []]))
    else None
  }

  function DoInsertRowFailed(s: State, a: Actor): Option<State> {
    if a in s.procs && s.procs[a].Creating? then Some(Go(s, a, CreateUndo(s.procs[a].id))) else None
  }

  function DoUndoCreate(s: State, a: Actor): Option<State> {
    if a in s.procs && s.procs[a].CreateUndo? then
      Some(Leave(s, a).(staging := s.staging - {s.procs[a].id}))
    else None
  }

  // --- withLifecycleLock ---

  function DoBegin(s: State, a: Actor, id: UploadId, op: Op): Option<State> {
    if a !in s.procs && !op.PublishOp? then Some(Go(s, a, Waiting(id, op))) else None
  }

  function DoAcquire(s: State, a: Actor): Option<State> {
    if a in s.procs && s.procs[a].Waiting? && LockFree(s, s.procs[a].id) then
      Some(Go(s, a, Locked(s.procs[a].id, s.procs[a].op)))
    else None
  }

  function DoReadRow(s: State, a: Actor): Option<State> {
    if a in s.procs && s.procs[a].Locked? then
      var next := AfterRead(s, s.procs[a].id, s.procs[a].op);
      Some(if next.None? then Leave(s, a) else Go(s, a, next.value))
    else None
  }

  // --- Manager.Write ---

  function DoTruncate(s: State, a: Actor): Option<State> {
    if a in s.procs && s.procs[a].Truncating? && s.procs[a].id in s.staging then
      var p := s.procs[a];
      Some(Go(s, a, Copying(p.id, p.row, p.body, 0)).(
        staging := s.staging[p.id := Resize(s.staging[p.id], p.row.offset)],
        dirty := s.dirty - {p.id}))
    else None
  }

  // io.Copy has moved on to the first n bytes of the body; the LimitReader
  // lets one byte more than the declared length through.
  function DoCopyBytes(s: State, a: Actor, n: nat): Option<State> {
    if a in s.procs && s.procs[a].Copying? && s.procs[a].id in s.staging
       && s.procs[a].n < n <= |s.procs[a].body| && s.procs[a].row.offset + n <= s.procs[a].row.length + 1
    then
      var p := s.procs[a];
      Some(Go(s, a, Copying(p.id, p.row, p.body, n)).(
        staging := s.staging[p.id := Overwrite(s.staging[p.id], p.row.offset + p.n, p.body[p.n..n])],
        dirty := s.dirty + {p.id}))
    else None
  }

  // The rollback truncate, which may fail (done is false).
  function DoRollback(s: State, a: Actor, done: bool): Option<State> {
    if a in s.procs && s.procs[a].Copying? && s.procs[a].id in s.staging then
      var p := s.procs[a];
      Some(
        if done then
          Leave(s, a).(
            staging := s.staging[p.id := Resize(s.staging[p.id], p.row.offset)],
            dirty := s.dirty - {p.id})
        else Leave(s, a))
    else None
  }

  // UpdateUploadOffset: a compare-and-swap on the offset alone.
  function DoCommitWrite(s: State, a: Actor, id: UploadId, offset: nat, body: Data): Option<State> {
    if a in s.procs && s.procs[a].Copying? && s.procs[a].id == id && s.procs[a].row.offset == offset
       && s.procs[a].body == body && s.procs[a].n == |body| && offset + |body| <= s.procs[a].row.length
       && id in s.rows && s.rows[id].offset == offset && id in s.accepted
    then
      Some(Leave(s, a).(
        rows := s.rows[id := s.rows[id].(offset := offset + |body|)],
        accepted := s.accepted[id := s.accepted[id] + [body]],
        dirty := s.dirty - {id}))
    else None
  }

  // --- Manager.Complete ---

  // HashAndSyncStaging saw exactly Length bytes and the digest was the wanted one;
  // the lock is dropped.
  function DoHash(s: State, a: Actor): Option<State> {
    if a in s.procs && s.procs[a].Hashing? && s.procs[a].id in s.staging
       && |s.staging[s.procs[a].id]| == s.procs[a].row.length
    then
      var p := s.procs[a];
      Some(Go(s, a, Waiting(p.id, PublishOp(s.staging[p.id]))).(dirty := s.dirty - {p.id}))
    else None
  }

  // PublishStaging: one rename to a fresh key.
  function DoPublish(s: State, a: Actor, key: Key): Option<State> {
    if a in s.procs && s.procs[a].Publishing? && s.procs[a].id in s.staging && key !in s.roles then
      var p := s.procs[a];
      Some(Go(s, a, Published(p.id, p.row, p.seen, key, s.staging[p.id])).(
        staging := s.staging - {p.id},
        objects := s.objects[key := s.staging[p.id]],
        roles := s.roles[key := Pending(a)]))
    else None
  }

  // The rename happened but a later fsync failed: PublishStaging returns an error.
  function DoPublishUnsynced(s: State, a: Actor, key: Key): Option<State> {
    if a in s.procs && s.procs[a].Publishing? && s.procs[a].id in s.staging && key !in s.roles then
      var p := s.procs[a];
      Some(Leave(s, a).(
        staging := s.staging - {p.id},
        objects := s.objects[key := s.staging[p.id]],
        roles := s.roles[key := Lost]))
    else None
  }

  // The CompleteUpload transaction.
  function DoCommitUpload(s: State, a: Actor, id: UploadId, fid: FileId): Option<State> {
    if a in s.procs && s.procs[a].Published? && s.procs[a].id == id && id in s.rows && IsLive(s.rows[id], s.now)
       && fid !in s.files && PathFree(s.files, s.dirs, s.procs[a].row.target)
    then
      var p := s.procs[a];
      Some(Leave(s, a).(
        rows := s.rows - {id},
        files := s.files[fid := File(p.row.target, p.key, p.row.length, p.row.user, false, Some(id))],
        roles := s.roles[p.key := Live]))
    else None
  }

  function DoRefuseUpload(s: State, a: Actor): Option<State> {
    if a in s.procs && s.procs[a].Published? then
      var p := s.procs[a];
      Some(Go(s, a, Refused(p.id, p.row, p.seen, p.key, p.bytes)))
    else None
  }

  // RestorePublished: the rename back. An fsync error after it has the same effect.
  function DoRestore(s: State, a: Actor): Option<State> {
    if a in s.procs && s.procs[a].Refused? && s.procs[a].key in s.objects then
      var p := s.procs[a];
      Some(Leave(s, a).(
        staging := s.staging[p.id := s.objects[p.key]],
        objects := s.objects - {p.key},
        roles := s.roles[p.key := Lost]))
    else None
  }

  // --- cleanupLocked and orphan removal ---

  // UpdateUploadStatus: active to cancelled, or cancelled to cleanup_pending.
  function DoMarkStatus(s: State, a: Actor): Option<State> {
    if a in s.procs && s.procs[a].Cleaning? && (s.procs[a].status == Active || s.procs[a].status == Cancelled)
       && s.procs[a].id in s.rows && s.rows[s.procs[a].id].status == s.procs[a].status
    then
      var p := s.procs[a];
      var next := if p.status == Active then Cancelled else CleanupPending;
      Some(Go(s, a, Cleaning(p.id, next)).(rows := s.rows[p.id := s.rows[p.id].(status := next)]))
    else None
  }

  function DoUnlinkPart(s: State, a: Actor): Option<State> {
    if a in s.procs && s.procs[a].Cleaning? && s.procs[a].status == CleanupPending then
      Some(Go(s, a, Unlinked(s.procs[a].id)).(staging := s.staging - {s.procs[a].id}))
    else None
  }

  function DoDeleteRow(s: State, a: Actor): Option<State> {
    if a in s.procs && s.procs[a].Unlinked? && s.procs[a].id in s.rows then
      Some(Leave(s, a).(rows := s.rows - {s.procs[a].id}))
    else None
  }

  function DoUnlinkOrphan(s: State, a: Actor): Option<State> {
    if a in s.procs && s.procs[a].Orphaned? then
      Some(Leave(s, a).(staging := s.staging - {s.procs[a].id}))
    else None
  }

  // --- createFile, renameFile, deleteFile ---

  function DoCreateObject(s: State, a: Actor, key: Key, content: Data, target: Target, user: int): Option<State> {
    if a !in s.procs && key !in s.roles then
      Some(Go(s, a, Holding(key, target, user)).(
        objects := s.objects[key := content], roles := s.roles[key := Pending(a)]))
    else None
  }

  // CreateContent failed and its own removal failed too.
  function DoLeakObject(s: State, key: Key, content: Data): Option<State> {
    if key !in s.roles then
      Some(s.(objects := s.objects[key := content], roles := s.roles[key := Lost]))
    else None
  }

  function DoInsertFile(s: State, a: Actor, fid: FileId): Option<State> {
    if a in s.procs && s.procs[a].Holding? && fid !in s.files && PathFree(s.files, s.dirs, s.procs[a].target) then
      var p := s.procs[a];
      Some(Leave(s, a).(
        files := s.files[fid := File(p.target, p.key, 0, p.user, false, None)],
        roles := s.roles[p.key := Live]))
    else None
  }

  function DoInsertFileFailed(s: State, a: Actor): Option<State> {
    if a in s.procs && s.procs[a].Holding? then
      var p := s.procs[a];
      Some(Go(s, a, Failed(p.key)).(roles := s.roles[p.key := Doomed]))
    else None
  }

  // EnqueueObjectCleanup; the handler goes on to remove the object itself.
  function DoEnqueue(s: State, a: Actor): Option<State> {
    if a in s.procs && s.procs[a].Failed? then
      var p := s.procs[a];
      Some(Go(s, a, Sweeping([Job(p.key)])).(jobs := if p.key in s.jobs then s.jobs else s.jobs[p.key := s.now]))
    else None
  }

  function DoFindFile(s: State, a: Actor, fid: FileId): Option<State> {
    if a !in s.procs && fid in s.files && !s.files[fid].deleting then
      Some(Go(s, a, Found(fid, s.files[fid].key)))
    else None
  }

  // An UPDATE: the trigger on directories does not fire.
  function DoRenameFile(s: State, fid: FileId, target: Target): Option<State> {
    if fid in s.files && !s.files[fid].deleting && NoFileAt(s.files, target) then
      Some(s.(
        files := s.files[fid := s.files[fid].(target := target)],
        astray := if target in s.dirs then s.astray + {fid} else s.astray - {fid}))
    else None
  }

  // --- createDirectory, deleteDirectory ---

  predicate AboveIn(dirs: set<Target>, target: Target) {
    exists d <- dirs :: d.root == target.root && DirectoryTree.LikeBelow(target.path, d.path)
  }

  predicate BelowIn(files: map<FileId, File>, dirs: set<Target>, target: Target) {
    || (exists f <- files.Keys :: files[f].target.root == target.root && DirectoryTree.LikeBelow(files[f].target.path, target.path))
    || (exists d <- dirs :: d.root == target.root && DirectoryTree.LikeBelow(d.path, target.path))
  }

  // UNIQUE(root_id, logical_path) and the triggers directories_path_not_file and
  // directories_parent_directory_exists.
  function DoAddDirectory(s: State, target: Target): Option<State> {
    if target !in s.dirs && NoFileAt(s.files, target) && (DirectoryTree.Nested(target.path) ==> AboveIn(s.dirs, target)) then
      Some(s.(dirs := s.dirs + {target}))
    else None
  }

  // The trigger directories_must_be_empty.
  function DoDropDirectory(s: State, target: Target): Option<State> {
    if target in s.dirs && !BelowIn(s.files, s.dirs, target) then Some(s.(dirs := s.dirs - {target})) else None
  }

  // BeginFileDelete: on the exact id and key pair.
  function DoTombstone(s: State, a: Actor): Option<State> {
    if a in s.procs && s.procs[a].Found? && s.procs[a].fid in s.files
       && s.files[s.procs[a].fid].key == s.procs[a].key && !s.files[s.procs[a].fid].deleting
    then
      var p := s.procs[a];
      Some(Go(s, a, Sweeping([Tomb(p.fid, p.key)])).(
        files := s.files[p.fid := s.files[p.fid].(deleting := true)],
        roles := s.roles[p.key := Dead]))
    else None
  }

  // --- erasing objects: handlers and published recovery ---

  // ObjectCleanupJobs or DeletingFiles: a snapshot, used after it has gone stale.
  function DoList(s: State, a: Actor, todo: seq<Item>): Option<State> {
    if (a in s.procs ==> s.procs[a] == Sweeping([])) && forall item <- todo :: Listed(s, item) then
      Some(Go(s, a, Sweeping(todo)))
    else None
  }

  // ObjectStore.Remove unlinked the object; reported is false when its fsync failed.
  function DoErase(s: State, a: Actor, reported: bool): Option<State> {
    if a in s.procs && s.procs[a].Sweeping? && s.procs[a].todo != [] && s.procs[a].todo[0].key in s.objects then
      var todo := s.procs[a].todo;
      var p := if reported then Swept(todo[0], todo[1..]) else Sweeping(todo[1..]);
      Some(Go(s, a, p).(objects := s.objects - {todo[0].key}))
    else None
  }

  // ObjectStore.Remove failed and changed nothing.
  function DoSkip(s: State, a: Actor): Option<State> {
    if a in s.procs && s.procs[a].Sweeping? && s.procs[a].todo != [] then
      Some(Go(s, a, Sweeping(s.procs[a].todo[1..])))
    else None
  }

  // CompleteObjectCleanup or FinalizeFileDelete, which matches the exact tombstone.
  function DoSettle(s: State, a: Actor): Option<State> {
    if a in s.procs && s.procs[a].Swept? then
      var item := s.procs[a].item;
      Some(Go(s, a, Sweeping(s.procs[a].todo)).(
        jobs := if item.Job? then s.jobs - {item.key} else s.jobs,
        files := if item.Tomb? && Listed(s, item) then s.files - {item.fid} else s.files))
    else None
  }

  predicate OnUploads(e: Event) {
    || e.CreatePart? || e.InsertRow? || e.InsertRowFailed? || e.UndoCreate?
    || e.Begin? || e.Acquire? || e.ReadRow?
    || e.Truncate? || e.CopyBytes? || e.Rollback? || e.CommitWrite?
    || e.MarkStatus? || e.UnlinkPart? || e.DeleteRow? || e.UnlinkOrphan?
  }

  function NextOnUploads(s: State, e: Event): Option<State>
    requires OnUploads(e)
  {
    match e
    case CreatePart(a, id, row) => DoCreatePart(s, a, id, row)
    case InsertRow(a) => DoInsertRow(s, a)
    case InsertRowFailed(a) => DoInsertRowFailed(s, a)
    case UndoCreate(a) => DoUndoCreate(s, a)
    case Begin(a, id, op) => DoBegin(s, a, id, op)
    case Acquire(a) => DoAcquire(s, a)
    case ReadRow(a) => DoReadRow(s, a)
    case Truncate(a) => DoTruncate(s, a)
    case CopyBytes(a, n) => DoCopyBytes(s, a, n)
    case Rollback(a, done) => DoRollback(s, a, done)
    case CommitWrite(a, id, offset, body) => DoCommitWrite(s, a, id, offset, body)
    case MarkStatus(a) => DoMarkStatus(s, a)
    case UnlinkPart(a) => DoUnlinkPart(s, a)
    case DeleteRow(a) => DoDeleteRow(s, a)
    case UnlinkOrphan(a) => DoUnlinkOrphan(s, a)
  }

  predicate OnPublication(e: Event) {
    e.Hash? || e.Publish? || e.PublishUnsynced? || e.CommitUpload? || e.RefuseUpload? || e.Restore?
  }

  function NextOnPublication(s: State, e: Event): Option<State>
    requires OnPublication(e)
  {
    match e
    case Hash(a) => DoHash(s, a)
    case Publish(a, key) => DoPublish(s, a, key)
    case PublishUnsynced(a, key) => DoPublishUnsynced(s, a, key)
    case CommitUpload(a, id, fid) => DoCommitUpload(s, a, id, fid)
    case RefuseUpload(a) => DoRefuseUpload(s, a)
    case Restore(a) => DoRestore(s, a)
  }

  predicate OnDirectories(e: Event) {
    e.AddDirectory? || e.DropDirectory?
  }

  function NextOnDirectories(s: State, e: Event): Option<State>
    requires OnDirectories(e)
  {
    match e
    case AddDirectory(_, target) => DoAddDirectory(s, target)
    case DropDirectory(_, target) => DoDropDirectory(s, target)
  }

  predicate OnFiles(e: Event) {
    !e.Tick? && !e.Quit? && !OnUploads(e) && !OnPublication(e) && !OnDirectories(e)
  }

  function NextOnFiles(s: State, e: Event): Option<State>
    requires OnFiles(e)
  {
    match e
    case CreateObject(a, key, content, target, user) => DoCreateObject(s, a, key, content, target, user)
    case LeakObject(_, key, content) => DoLeakObject(s, key, content)
    case InsertFile(a, fid) => DoInsertFile(s, a, fid)
    case InsertFileFailed(a) => DoInsertFileFailed(s, a)
    case Enqueue(a) => DoEnqueue(s, a)
    case FindFile(a, fid) => DoFindFile(s, a, fid)
    case RenameFile(_, fid, target) => DoRenameFile(s, fid, target)
    case Tombstone(a) => DoTombstone(s, a)
    case List(a, todo) => DoList(s, a, todo)
    case Erase(a, reported) => DoErase(s, a, reported)
    case Skip(a) => DoSkip(s, a)
    case Settle(a) => DoSettle(s, a)
  }

  // The state an event leads to; None where it cannot happen.
  function Next(s: State, e: Event): Option<State> {
    if e.Tick? then (if e.now >= s.now then Some(s.(now := e.now)) else None)
    else if e.Quit? then (if e.a in s.procs then Some(Leave(s, e.a)) else None)
    else if OnUploads(e) then NextOnUploads(s, e)
    else if OnPublication(e) then NextOnPublication(s, e)
    else if OnDirectories(e) then NextOnDirectories(s, e)
    else NextOnFiles(s, e)
  }

  predicate By(e: Event, a: Actor) {
    !e.Tick? && e.a == a
  }

  // s' is the state a run of the events evs from s ends in.
  ghost predicate Run(s: State, evs: seq<Event>, s': State)
    decreases |evs|
  {
    if evs == [] then s' == s
    else
      var mid := Next(s, evs[0]);
      mid.Some? && Run(mid.value, evs[1..], s')
  }
}
