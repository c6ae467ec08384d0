// What every event of the hub machine keeps.
module HubInvariant {
  import opened Wrappers
  import opened Bytes
  import opened Hub

  // --- the invariant ---

  // A committed row agrees with the accepted bodies, and so does the head of
  // its staging file; a clean staging file has nothing after them.
  ghost predicate RowOk(s: State, id: UploadId)
    requires id in s.rows
  {
    && id in s.accepted
    && s.rows[id].status != Complete
    && s.rows[id].offset <= s.rows[id].length
    && |Flat(s.accepted[id])| == s.rows[id].offset
    && (id in s.staging ==>
          && s.rows[id].offset <= |s.staging[id]|
          && s.staging[id][..s.rows[id].offset] == Flat(s.accepted[id])
          && (id !in s.dirty ==> |s.staging[id]| == s.rows[id].offset))
  }

  ghost predicate RowsOk(s: State) {
    && s.accepted.Keys <= s.issued
    && s.staging.Keys <= s.issued
    && (forall id <- s.rows.Keys {:trigger RowOk(s, id)} :: RowOk(s, id))
  }

  // The object of a file an upload made begins with the bytes its session accepted.
  ghost predicate OriginOk(s: State, f: File) {
    f.origin.Some? ==>
      && f.origin.value in s.accepted
      && f.origin.value !in s.rows
      && f.size == |Flat(s.accepted[f.origin.value])|
      && (!f.deleting ==>
            && f.key in s.objects
            && f.size <= |s.objects[f.key]|
            && s.objects[f.key][..f.size] == Flat(s.accepted[f.origin.value]))
  }

  ghost predicate FileOk(s: State, fid: FileId)
    requires fid in s.files
  {
    && s.files[fid].key in s.roles
    && s.roles[s.files[fid].key] == (if s.files[fid].deleting then Dead else Live)
    && OriginOk(s, s.files[fid])
  }

  // UNIQUE(object_key) and UNIQUE(root_id, logical_path).
  ghost predicate Distinct(files: map<FileId, File>) {
    forall f <- files.Keys, g <- files.Keys :: f != g ==>
      files[f].key != files[g].key && files[f].target != files[g].target
  }

  ghost predicate RolesOk(s: State) {
    && (forall k <- s.jobs.Keys :: k in s.roles && s.roles[k] == Doomed)
    && s.objects.Keys <= s.roles.Keys
    && (forall k <- s.roles.Keys :: s.roles[k].Live? || s.roles[k].Pending? ==> k in s.objects)
  }

  // No path is both a file and a directory, unless a rename has made it so.
  ghost predicate Placed(s: State) {
    forall f <- s.files.Keys :: s.files[f].target in s.dirs ==> f in s.astray
  }

  ghost predicate FilesOk(s: State) {
    && (forall fid <- s.files.Keys {:trigger FileOk(s, fid)} :: FileOk(s, fid))
    && Distinct(s.files)
    && Placed(s)
    && RolesOk(s)
  }

  ghost predicate ItemOk(s: State, item: Item) {
    item.key in s.roles && s.roles[item.key] == (if item.Job? then Doomed else Dead)
  }

  // The row an actor read under the lock is still the row.
  ghost predicate Snapshot(s: State, id: UploadId, row: Row) {
    id in s.rows && s.rows[id] == row && row.status == Active
  }

  // The bytes that were hashed are all the bytes the session has accepted.
  ghost predicate SeenOk(s: State, id: UploadId, seen: Data) {
    id in s.accepted && Flat(s.accepted[id]) == seen && (id in s.rows ==> s.rows[id].length == |seen|)
  }

  ghost predicate PublishedOk(s: State, a: Actor, id: UploadId, row: Row, seen: Data, key: Key, bytes: Data) {
    && Snapshot(s, id, row) && row.offset == row.length && SeenOk(s, id, seen)
    && id !in s.staging
    && key in s.roles && s.roles[key] == Pending(a)
    && key in s.objects && s.objects[key] == bytes
    && |seen| <= |bytes| && bytes[..|seen|] == seen && (id !in s.dirty ==> bytes == seen)
  }

  ghost predicate ProcOk(s: State, a: Actor, p: Proc) {
    match p
    case Creating(id, row) => id in s.issued && id !in s.accepted && row.offset == 0 && row.status == Active
                              && (id in s.staging ==> s.staging[id] == [])
    case CreateUndo(id) => id in s.issued && id !in s.accepted
    case Waiting(id, op) => op.PublishOp? ==> SeenOk(s, id, op.seen)
    case Locked(id, op) => op.PublishOp? ==> SeenOk(s, id, op.seen)
    case Truncating(id, row, body) => Snapshot(s, id, row)
    case Copying(id, row, body, n) =>
      && Snapshot(s, id, row) && id in s.accepted && id in s.staging && n <= |body|
      && s.staging[id] == Flat(s.accepted[id]) + body[..n]
    case Hashing(id, row) => Snapshot(s, id, row) && row.offset == row.length
    case Publishing(id, row, seen) => Snapshot(s, id, row) && row.offset == row.length && SeenOk(s, id, seen)
    case Published(id, row, seen, key, bytes) => PublishedOk(s, a, id, row, seen, key, bytes)
    case Refused(id, row, seen, key, bytes) => PublishedOk(s, a, id, row, seen, key, bytes)
    case Cleaning(id, status) => id in s.rows && s.rows[id].status == status
    case Unlinked(id) => id in s.rows && s.rows[id].status == CleanupPending && id !in s.staging
    case Orphaned(id) => true
    case Holding(key, _, _) => key in s.roles && s.roles[key] == Pending(a)
    case Failed(key) => key in s.roles && s.roles[key] == Doomed
    case Found(_, _) => true
    case Sweeping(todo) => forall item <- todo :: ItemOk(s, item)
    case Swept(item, todo) => ItemOk(s, item) && forall i <- todo :: ItemOk(s, i)
  }

  ghost predicate ProcsOk(s: State) {
    forall a <- s.procs.Keys {:trigger ProcOk(s, a, s.procs[a])} :: ProcOk(s, a, s.procs[a])
  }

  // An actor that is creating a session has the id to itself.
  function NewOf(p: Proc): Option<UploadId> {
    match p
    case Creating(id, _) => Some(id)
    case CreateUndo(id) => Some(id)
    case _ => None
  }

  ghost predicate Exclusive(procs: map<Actor, Proc>) {
    forall a <- procs.Keys, b <- procs.Keys :: a != b ==>
      && (LockOf(procs[a]).Some? ==> LockOf(procs[a]) != LockOf(procs[b]))
      && (NewOf(procs[a]).Some? ==> NewOf(procs[a]) != NewOf(procs[b]))
  }

  ghost predicate Inv(s: State) {
    RowsOk(s) && FilesOk(s) && ProcsOk(s) && Exclusive(s.procs)
  }

  // --- what one event may touch ---

  ghost predicate Untouched(s: State, s': State) {
    s'.rows == s.rows && s'.staging == s.staging && s'.accepted == s.accepted && s'.dirty == s.dirty
    && s'.issued == s.issued
  }

  // The session id an actor acts on, if it acts on any: it holds the lifecycle
  // lock, or is creating the session, or the id is new.
  ghost predicate Owns(s: State, s': State, a: Actor, x: UploadId) {
    || Untouched(s, s')
    || x !in s.issued
    || (a in s.procs && (LockOf(s.procs[a]) == Some(x) || NewOf(s.procs[a]) == Some(x)))
  }

  ghost predicate SameAt<T>(m: map<nat, T>, m': map<nat, T>, k: nat) {
    (k in m <==> k in m') && (k in m ==> m[k] == m'[k])
  }

  // Nothing outside session x and actor a differs in the upload tables.
  ghost predicate OnlyAt(s: State, s': State, a: Actor, x: UploadId) {
    && s.issued <= s'.issued <= s.issued + {x}
    && (forall b | b != a :: SameAt(s.procs, s'.procs, b))
    && (forall id | id != x :: SameAt(s.rows, s'.rows, id))
    && (forall id | id != x :: SameAt(s.staging, s'.staging, id))
    && (forall id | id != x :: SameAt(s.accepted, s'.accepted, id))
    && (forall id | id != x :: id in s.dirty <==> id in s'.dirty)
  }

  // Session x stays what others rely on: hashed bytes stay all there is, a
  // session that was published is never revived, and one being created stays fresh.
  ghost predicate Faithful(s: State, s': State, a: Actor, x: UploadId) {
    && (x in s.accepted ==> x in s'.accepted)
    && (x in s.accepted && x !in s.rows ==> x !in s'.rows && s'.accepted[x] == s.accepted[x])
    && (x in s.rows && x in s.accepted ==>
          && (x in s'.rows ==> s'.rows[x].length == s.rows[x].length)
          && (|Flat(s.accepted[x])| == s.rows[x].length ==> Flat(s'.accepted[x]) == Flat(s.accepted[x])))
    && (NewOf(if a in s.procs then s.procs[a] else Failed(0)) != Some(x) && x in s.issued && x !in s.accepted ==>
          && x !in s'.accepted
          && (x in s'.staging ==> x in s.staging && s'.staging[x] == s.staging[x]))
  }

  // Keys change hands only forwards, and only keys nobody else needs lose their object.
  ghost predicate Forward(s: State, s': State, a: Actor) {
    && (forall k <- s.roles.Keys :: k in s'.roles
          && (s'.roles[k] == s.roles[k] || s.roles[k] == Pending(a) || (s.roles[k] == Live && s'.roles[k] == Dead)))
    && (forall k <- s.roles.Keys :: s.roles[k].Live? || (s.roles[k].Pending? && s.roles[k] != Pending(a)) ==>
          SameAt(s.objects, s'.objects, k))
  }

  ghost predicate Local(s: State, s': State, a: Actor, x: UploadId) {
    Owns(s, s', a, x) && OnlyAt(s, s', a, x) && Faithful(s, s', a, x) && Forward(s, s', a)
  }

  lemma OtherProcOk(s: State, s': State, a: Actor, x: UploadId, b: Actor)
    requires Inv(s) && Local(s, s', a, x) && b != a && b in s.procs
    ensures b in s'.procs && s'.procs[b] == s.procs[b] && ProcOk(s', b, s'.procs[b])
  {
    var p := s.procs[b];
    assert ProcOk(s, b, p);
    assert SameAt(s.procs, s'.procs, b);
    if LockOf(p).Some? && !p.Locked? {
      OtherLockerOk(s, s', a, x, b);
    } else if p.Sweeping? || p.Swept? {
      forall item | (p.Swept? && item == p.item) || item in p.todo ensures ItemOk(s', item) {
        assert ItemOk(s, item);
      }
    } else if p.Creating? || p.CreateUndo? {
      assert p.id != x ==> SameAt(s.accepted, s'.accepted, p.id) && SameAt(s.staging, s'.staging, p.id);
    } else if (p.Waiting? || p.Locked?) && p.op.PublishOp? {
      OtherSeen(s, s', a, x, p.id, p.op.seen);
    }
  }

  lemma OtherLockerOk(s: State, s': State, a: Actor, x: UploadId, b: Actor)
    requires Inv(s) && Local(s, s', a, x) && b != a && b in s.procs
    requires LockOf(s.procs[b]).Some? && !s.procs[b].Locked?
    ensures ProcOk(s', b, s.procs[b])
  {
    var p := s.procs[b];
    assert ProcOk(s, b, p);
    if !p.Orphaned? {
      OtherSnapshot(s, s', a, x, b, p.id);
    }
    if p.Publishing? || p.Published? || p.Refused? {
      OtherSeen(s, s', a, x, p.id, p.seen);
    }
    if p.Published? || p.Refused? {
      assert SameAt(s.objects, s'.objects, p.key);
    }
  }

  // A session that has a row and is locked by b is out of a's reach.
  lemma OtherSnapshot(s: State, s': State, a: Actor, x: UploadId, b: Actor, id: UploadId)
    requires Inv(s) && Owns(s, s', a, x) && OnlyAt(s, s', a, x) && b != a && b in s.procs
    requires LockOf(s.procs[b]) == Some(id) && id in s.rows
    ensures SameAt(s.rows, s'.rows, id) && SameAt(s.staging, s'.staging, id) && SameAt(s.accepted, s'.accepted, id)
    ensures id in s.dirty <==> id in s'.dirty
  {
    assert RowOk(s, id);
    if a in s.procs {
      assert ProcOk(s, a, s.procs[a]);
    }
  }

  lemma OtherSeen(s: State, s': State, a: Actor, x: UploadId, id: UploadId, seen: Data)
    requires Inv(s) && Local(s, s', a, x) && SeenOk(s, id, seen)
    ensures SeenOk(s', id, seen)
  {
    assert id != x ==> SameAt(s.accepted, s'.accepted, id) && SameAt(s.rows, s'.rows, id);
  }

  lemma OtherRowOk(s: State, s': State, a: Actor, x: UploadId, id: UploadId)
    requires Inv(s) && OnlyAt(s, s', a, x) && id != x && id in s'.rows
    ensures RowOk(s', id)
  {
    assert SameAt(s.rows, s'.rows, id) && SameAt(s.staging, s'.staging, id) && SameAt(s.accepted, s'.accepted, id);
    assert RowOk(s, id);
  }

  lemma OtherFileOk(s: State, s': State, a: Actor, x: UploadId, fid: FileId)
    requires Inv(s) && Local(s, s', a, x) && fid in s.files && fid in s'.files
    requires s'.files[fid] == s.files[fid].(target := s'.files[fid].target)
    requires SameAt(s.roles, s'.roles, s.files[fid].key)
    ensures FileOk(s', fid)
  {
    var f := s.files[fid];
    assert FileOk(s, fid);
    if f.origin.Some? {
      var id := f.origin.value;
      assert id != x ==> SameAt(s.accepted, s'.accepted, id) && SameAt(s.rows, s'.rows, id);
      assert !f.deleting ==> SameAt(s.objects, s'.objects, f.key);
    }
  }

  // Everything away from the event's own session, actor and keys is in order.
  lemma LocalKeeps(s: State, s': State, a: Actor, x: UploadId)
    requires Inv(s) && Local(s, s', a, x)
    requires s'.accepted.Keys <= s'.issued && s'.staging.Keys <= s'.issued
    requires x in s'.rows ==> RowOk(s', x)
    requires a in s'.procs ==> ProcOk(s', a, s'.procs[a])
    ensures RowsOk(s') && ProcsOk(s')
  {
    forall id <- s'.rows.Keys ensures RowOk(s', id) {
      if id != x { OtherRowOk(s, s', a, x, id); }
    }
    forall b <- s'.procs.Keys ensures ProcOk(s', b, s'.procs[b]) {
      if b != a {
        assert SameAt(s.procs, s'.procs, b);
        OtherProcOk(s, s', a, x, b);
      }
    }
  }

  lemma FilesKept(s: State, s': State, a: Actor, x: UploadId)
    requires Inv(s) && Local(s, s', a, x)
    requires s'.files == s.files && s'.dirs == s.dirs && s'.astray == s.astray && RolesOk(s')
    requires forall k <- s.roles.Keys :: s.roles[k].Live? ==> s'.roles[k].Live?
    ensures FilesOk(s')
  {
    forall fid <- s'.files.Keys ensures FileOk(s', fid) {
      assert FileOk(s, fid);
      OtherFileOk(s, s', a, x, fid);
    }
  }

  lemma ExclusiveKept(s: State, s': State, a: Actor)
    requires Exclusive(s.procs)
    requires forall b | b != a :: SameAt(s.procs, s'.procs, b)
    requires a in s'.procs && LockOf(s'.procs[a]).Some? ==> a in s.procs && LockOf(s'.procs[a]) == LockOf(s.procs[a])
    requires a in s'.procs && NewOf(s'.procs[a]).Some? ==> a in s.procs && NewOf(s'.procs[a]) == NewOf(s.procs[a])
    ensures Exclusive(s'.procs)
  {
    forall b <- s'.procs.Keys, c <- s'.procs.Keys | b != c
      ensures (LockOf(s'.procs[b]).Some? ==> LockOf(s'.procs[b]) != LockOf(s'.procs[c]))
      ensures (NewOf(s'.procs[b]).Some? ==> NewOf(s'.procs[b]) != NewOf(s'.procs[c]))
    {
      assert SameAt(s.procs, s'.procs, b) || b == a;
      assert SameAt(s.procs, s'.procs, c) || c == a;
    }
  }

  // --- one lemma per event ---

  lemma CreatePartStep(s: State, a: Actor, id: UploadId, row: Row)
    requires RowsOk(s) && DoCreatePart(s, a, id, row).Some?
    ensures Local(s, DoCreatePart(s, a, id, row).value, a, id)
    ensures id !in s.accepted && id !in s.rows
  {
    assert id in s.rows ==> RowOk(s, id);
    assert OnlyAt(s, DoCreatePart(s, a, id, row).value, a, id);
  }

  lemma KeepsCreatePart(s: State, a: Actor, id: UploadId, row: Row)
    requires Inv(s) && DoCreatePart(s, a, id, row).Some?
    ensures Inv(DoCreatePart(s, a, id, row).value)
    ensures Local(s, DoCreatePart(s, a, id, row).value, a, id)
  {
    var s' := DoCreatePart(s, a, id, row).value;
    CreatePartStep(s, a, id, row);
    LocalKeeps(s, s', a, id);
    FilesKept(s, s', a, id);
    forall b <- s.procs.Keys ensures NewOf(s.procs[b]) != Some(id) { assert ProcOk(s, b, s.procs[b]); }
    assert forall b | b != a :: SameAt(s.procs, s'.procs, b);
  }

  lemma KeepsInsertRow(s: State, a: Actor)
    requires Inv(s) && DoInsertRow(s, a).Some?
    ensures Inv(DoInsertRow(s, a).value)
    ensures Local(s, DoInsertRow(s, a).value, a, s.procs[a].id)
  {
    var s', p := DoInsertRow(s, a).value, s.procs[a];
    assert ProcOk(s, a, p);
    assert p.id in s.rows ==> RowOk(s, p.id);
    LocalKeeps(s, s', a, p.id);
    FilesKept(s, s', a, p.id);
    ExclusiveKept(s, s', a);
  }

  lemma KeepsInsertRowFailed(s: State, a: Actor)
    requires Inv(s) && DoInsertRowFailed(s, a).Some?
    ensures Inv(DoInsertRowFailed(s, a).value)
    ensures Local(s, DoInsertRowFailed(s, a).value, a, 0)
  {
    var s' := DoInsertRowFailed(s, a).value;
    assert ProcOk(s, a, s.procs[a]);
    MoveKeeps(s, s', a);
  }

  lemma KeepsUndoCreate(s: State, a: Actor)
    requires Inv(s) && DoUndoCreate(s, a).Some?
    ensures Inv(DoUndoCreate(s, a).value)
    ensures Local(s, DoUndoCreate(s, a).value, a, s.procs[a].id)
  {
    var s', p := DoUndoCreate(s, a).value, s.procs[a];
    assert ProcOk(s, a, p);
    assert p.id in s.rows ==> RowOk(s, p.id);
    LocalKeeps(s, s', a, p.id);
    FilesKept(s, s', a, p.id);
    ExclusiveKept(s, s', a);
  }

  // An event that only moves its actor on (or ends it).
  lemma MoveKeeps(s: State, s': State, a: Actor)
    requires Inv(s) && s' == s.(procs := s'.procs)
    requires forall b | b != a :: SameAt(s.procs, s'.procs, b)
    requires a in s'.procs ==> ProcOk(s', a, s'.procs[a])
    requires a in s'.procs && LockOf(s'.procs[a]).Some? ==> a in s.procs && LockOf(s'.procs[a]) == LockOf(s.procs[a])
    requires a in s'.procs && NewOf(s'.procs[a]).Some? ==> a in s.procs && NewOf(s'.procs[a]) == NewOf(s.procs[a])
    ensures Inv(s')
    ensures Local(s, s', a, 0)
  {
    assert 0 in s'.rows ==> RowOk(s, 0);
    LocalKeeps(s, s', a, 0);
    FilesKept(s, s', a, 0);
    ExclusiveKept(s, s', a);
  }

  lemma KeepsAcquire(s: State, a: Actor)
    requires Inv(s) && DoAcquire(s, a).Some?
    ensures Inv(DoAcquire(s, a).value)
    ensures Local(s, DoAcquire(s, a).value, a, 0)
  {
    var s', p := DoAcquire(s, a).value, s.procs[a];
    assert ProcOk(s, a, p);
    assert 0 in s'.rows ==> RowOk(s, 0);
    LocalKeeps(s, s', a, 0);
    FilesKept(s, s', a, 0);
    assert forall b | b != a :: SameAt(s.procs, s'.procs, b);
  }

  lemma KeepsReadRow(s: State, a: Actor)
    requires Inv(s) && DoReadRow(s, a).Some?
    ensures Inv(DoReadRow(s, a).value)
    ensures Local(s, DoReadRow(s, a).value, a, 0)
  {
    var s', p := DoReadRow(s, a).value, s.procs[a];
    assert ProcOk(s, a, p);
    assert p.id in s.rows ==> RowOk(s, p.id);
    MoveKeeps(s, s', a);
  }

  lemma KeepsTruncate(s: State, a: Actor)
    requires Inv(s) && DoTruncate(s, a).Some?
    ensures Inv(DoTruncate(s, a).value)
    ensures Local(s, DoTruncate(s, a).value, a, s.procs[a].id)
  {
    var s', p := DoTruncate(s, a).value, s.procs[a];
    assert ProcOk(s, a, p) && RowOk(s, p.id);
    assert s'.staging[p.id] == Flat(s.accepted[p.id]);
    LocalKeeps(s, s', a, p.id);
    FilesKept(s, s', a, p.id);
    ExclusiveKept(s, s', a);
  }

  // The writer is at the end of its staging file, so its write appends.
  lemma CopyAppends(s: State, a: Actor, n: nat)
    requires Inv(s) && DoCopyBytes(s, a, n).Some?
    ensures s.procs[a].id in s.accepted
    ensures var p := s.procs[a];
            DoCopyBytes(s, a, n).value.staging[p.id] == Flat(s.accepted[p.id]) + p.body[..n]
  {
    var p := s.procs[a];
    assert ProcOk(s, a, p) && RowOk(s, p.id);
    OverwriteAtEnd(s.staging[p.id], p.body[p.n..n]);
    assert p.body[..p.n] + p.body[p.n..n] == p.body[..n];
  }

  lemma KeepsCopyBytes(s: State, a: Actor, n: nat)
    requires Inv(s) && DoCopyBytes(s, a, n).Some?
    ensures Inv(DoCopyBytes(s, a, n).value)
    ensures Local(s, DoCopyBytes(s, a, n).value, a, s.procs[a].id)
  {
    var s', p := DoCopyBytes(s, a, n).value, s.procs[a];
    assert ProcOk(s, a, p) && RowOk(s, p.id);
    CopyAppends(s, a, n);
    assert OnlyAt(s, s', a, p.id);
    LocalKeeps(s, s', a, p.id);
    FilesKept(s, s', a, p.id);
    ExclusiveKept(s, s', a);
  }

  lemma KeepsRollback(s: State, a: Actor, done: bool)
    requires Inv(s) && DoRollback(s, a, done).Some?
    ensures Inv(DoRollback(s, a, done).value)
    ensures Local(s, DoRollback(s, a, done).value, a, s.procs[a].id)
  {
    var s', p := DoRollback(s, a, done).value, s.procs[a];
    assert ProcOk(s, a, p) && RowOk(s, p.id);
    assert done ==> s'.staging[p.id] == Flat(s.accepted[p.id]);
    LocalKeeps(s, s', a, p.id);
    FilesKept(s, s', a, p.id);
    ExclusiveKept(s, s', a);
  }

  lemma KeepsCommitWrite(s: State, a: Actor, id: UploadId, offset: nat, body: Data)
    requires Inv(s) && DoCommitWrite(s, a, id, offset, body).Some?
    ensures Inv(DoCommitWrite(s, a, id, offset, body).value)
    ensures Local(s, DoCommitWrite(s, a, id, offset, body).value, a, id)
  {
    var s', p := DoCommitWrite(s, a, id, offset, body).value, s.procs[a];
    assert ProcOk(s, a, p) && RowOk(s, id);
    FlatAppend(s.accepted[id], body);
    assert body[..|body|] == body;
    assert s'.staging[id] == Flat(s'.accepted[id]);
    assert |body| == 0 ==> Flat(s'.accepted[id]) == Flat(s.accepted[id]);
    LocalKeeps(s, s', a, id);
    FilesKept(s, s', a, id);
    ExclusiveKept(s, s', a);
  }

  lemma KeepsHash(s: State, a: Actor)
    requires Inv(s) && DoHash(s, a).Some?
    ensures Inv(DoHash(s, a).value)
    ensures Local(s, DoHash(s, a).value, a, s.procs[a].id)
  {
    var s', p := DoHash(s, a).value, s.procs[a];
    assert ProcOk(s, a, p) && RowOk(s, p.id);
    assert s.staging[p.id] == Flat(s.accepted[p.id]);
    LocalKeeps(s, s', a, p.id);
    FilesKept(s, s', a, p.id);
    ExclusiveKept(s, s', a);
  }

  // A rename to a fresh key takes the staging file away from its own session only.
  lemma PublishStep(s: State, a: Actor, key: Key)
    requires DoPublish(s, a, key).Some? && ProcOk(s, a, s.procs[a]) && RowOk(s, s.procs[a].id)
    ensures var s' := DoPublish(s, a, key).value;
            Local(s, s', a, s.procs[a].id) && ProcOk(s', a, s'.procs[a]) && RowOk(s', s.procs[a].id)
  {
    var s', p := DoPublish(s, a, key).value, s.procs[a];
    assert OnlyAt(s, s', a, p.id);
    assert SeenOk(s, p.id, p.seen);
    assert PublishedOk(s', a, p.id, p.row, p.seen, key, s.staging[p.id]);
  }

  lemma KeepsPublish(s: State, a: Actor, key: Key)
    requires Inv(s) && DoPublish(s, a, key).Some?
    ensures Inv(DoPublish(s, a, key).value)
    ensures Local(s, DoPublish(s, a, key).value, a, s.procs[a].id)
  {
    var s', p := DoPublish(s, a, key).value, s.procs[a];
    assert ProcOk(s, a, p) && RowOk(s, p.id);
    PublishStep(s, a, key);
    LocalKeeps(s, s', a, p.id);
    FilesKept(s, s', a, p.id);
    ExclusiveKept(s, s', a);
  }

  lemma KeepsPublishUnsynced(s: State, a: Actor, key: Key)
    requires Inv(s) && DoPublishUnsynced(s, a, key).Some?
    ensures Inv(DoPublishUnsynced(s, a, key).value)
    ensures Local(s, DoPublishUnsynced(s, a, key).value, a, s.procs[a].id)
  {
    var s', p := DoPublishUnsynced(s, a, key).value, s.procs[a];
    assert ProcOk(s, a, p) && RowOk(s, p.id);
    assert OnlyAt(s, s', a, p.id);
    LocalKeeps(s, s', a, p.id);
    FilesKept(s, s', a, p.id);
    ExclusiveKept(s, s', a);
  }

  // A new row under a key that only a pending actor held.
  lemma FileAdded(s: State, s': State, a: Actor, x: UploadId, fid: FileId)
    requires Inv(s) && Local(s, s', a, x) && RolesOk(s')
    requires fid !in s.files && fid in s'.files && s'.files == s.files[fid := s'.files[fid]]
    requires s'.files[fid].key in s.roles && s.roles[s'.files[fid].key].Pending?
    requires forall k <- s.roles.Keys :: s.roles[k].Live? ==> s'.roles[k].Live?
    requires s'.dirs == s.dirs && s'.astray == s.astray
    requires PathFree(s.files, s.dirs, s'.files[fid].target) && FileOk(s', fid)
    ensures FilesOk(s')
  {
    forall f <- s'.files.Keys ensures FileOk(s', f) {
      if f != fid {
        assert FileOk(s, f);
        OtherFileOk(s, s', a, x, f);
      }
    }
    forall f <- s'.files.Keys | f != fid
      ensures s'.files[f].key != s'.files[fid].key && s'.files[f].target != s'.files[fid].target
    {
      assert FileOk(s, f);
    }
  }

  lemma KeepsCommitUpload(s: State, a: Actor, id: UploadId, fid: FileId)
    requires Inv(s) && DoCommitUpload(s, a, id, fid).Some?
    ensures Inv(DoCommitUpload(s, a, id, fid).value)
    ensures Local(s, DoCommitUpload(s, a, id, fid).value, a, id)
  {
    var s', p := DoCommitUpload(s, a, id, fid).value, s.procs[a];
    assert ProcOk(s, a, p) && RowOk(s, id);
    LocalKeeps(s, s', a, id);
    assert FileOk(s', fid);
    FileAdded(s, s', a, id, fid);
    ExclusiveKept(s, s', a);
  }

  lemma RestoreStep(s: State, a: Actor)
    requires DoRestore(s, a).Some? && ProcOk(s, a, s.procs[a]) && RowOk(s, s.procs[a].id)
    ensures Local(s, DoRestore(s, a).value, a, s.procs[a].id) && RowOk(DoRestore(s, a).value, s.procs[a].id)
  {
    var s', p := DoRestore(s, a).value, s.procs[a];
    assert OnlyAt(s, s', a, p.id);
    assert SeenOk(s, p.id, p.seen);
  }

  lemma KeepsRestore(s: State, a: Actor)
    requires Inv(s) && DoRestore(s, a).Some?
    ensures Inv(DoRestore(s, a).value)
    ensures Local(s, DoRestore(s, a).value, a, s.procs[a].id)
  {
    var s', p := DoRestore(s, a).value, s.procs[a];
    assert ProcOk(s, a, p) && RowOk(s, p.id);
    RestoreStep(s, a);
    LocalKeeps(s, s', a, p.id);
    FilesKept(s, s', a, p.id);
    ExclusiveKept(s, s', a);
  }

  lemma KeepsMarkStatus(s: State, a: Actor)
    requires Inv(s) && DoMarkStatus(s, a).Some?
    ensures Inv(DoMarkStatus(s, a).value)
    ensures Local(s, DoMarkStatus(s, a).value, a, s.procs[a].id)
  {
    var s', p := DoMarkStatus(s, a).value, s.procs[a];
    assert ProcOk(s, a, p) && RowOk(s, p.id);
    LocalKeeps(s, s', a, p.id);
    FilesKept(s, s', a, p.id);
    ExclusiveKept(s, s', a);
  }

  lemma KeepsUnlinkPart(s: State, a: Actor)
    requires Inv(s) && DoUnlinkPart(s, a).Some?
    ensures Inv(DoUnlinkPart(s, a).value)
    ensures Local(s, DoUnlinkPart(s, a).value, a, s.procs[a].id)
  {
    var s', p := DoUnlinkPart(s, a).value, s.procs[a];
    assert ProcOk(s, a, p) && RowOk(s, p.id);
    assert OnlyAt(s, s', a, p.id);
    LocalKeeps(s, s', a, p.id);
    FilesKept(s, s', a, p.id);
    ExclusiveKept(s, s', a);
  }

  // A row that appeared in the meantime loses its part; the invariant allows that.
  lemma KeepsUnlinkOrphan(s: State, a: Actor)
    requires Inv(s) && DoUnlinkOrphan(s, a).Some?
    ensures Inv(DoUnlinkOrphan(s, a).value)
    ensures Local(s, DoUnlinkOrphan(s, a).value, a, s.procs[a].id)
  {
    var s', p := DoUnlinkOrphan(s, a).value, s.procs[a];
    assert p.id in s.rows ==> RowOk(s, p.id);
    assert OnlyAt(s, s', a, p.id);
    LocalKeeps(s, s', a, p.id);
    FilesKept(s, s', a, p.id);
    ExclusiveKept(s, s', a);
  }

  lemma KeepsDeleteRow(s: State, a: Actor)
    requires Inv(s) && DoDeleteRow(s, a).Some?
    ensures Inv(DoDeleteRow(s, a).value)
    ensures Local(s, DoDeleteRow(s, a).value, a, s.procs[a].id)
  {
    var s', p := DoDeleteRow(s, a).value, s.procs[a];
    assert ProcOk(s, a, p) && RowOk(s, p.id);
    LocalKeeps(s, s', a, p.id);
    FilesKept(s, s', a, p.id);
    ExclusiveKept(s, s', a);
  }

  // --- events on objects, files and cleanup jobs ---

  // Such an event leaves the upload tables alone.
  ghost predicate KeyStep(s: State, s': State, a: Actor) {
    && Untouched(s, s') && Forward(s, s', a)
    && (forall b | b != a :: SameAt(s.procs, s'.procs, b))
    && (a in s'.procs ==> ProcOk(s', a, s'.procs[a]) && LockOf(s'.procs[a]).None? && NewOf(s'.procs[a]).None?)
  }

  lemma KeyStepKeeps(s: State, s': State, a: Actor)
    requires Inv(s) && KeyStep(s, s', a)
    ensures Local(s, s', a, 0)
    ensures RowsOk(s') && ProcsOk(s') && Exclusive(s'.procs)
  {
    assert 0 in s'.rows ==> RowOk(s, 0);
    LocalKeeps(s, s', a, 0);
    ExclusiveKept(s, s', a);
  }

  lemma KeepsCreateObject(s: State, a: Actor, key: Key, content: Data, target: Target, user: int)
    requires Inv(s) && DoCreateObject(s, a, key, content, target, user).Some?
    ensures Inv(DoCreateObject(s, a, key, content, target, user).value)
    ensures Local(s, DoCreateObject(s, a, key, content, target, user).value, a, 0)
  {
    var s' := DoCreateObject(s, a, key, content, target, user).value;
    KeyStepKeeps(s, s', a);
    FilesKept(s, s', a, 0);
  }

  // There is always an actor that is doing nothing.
  lemma IdleActor(procs: map<Actor, Proc>) returns (a: Actor)
    ensures a !in procs
  {
    a := AboveAll(procs.Keys);
  }

  lemma AboveAll(xs: set<nat>) returns (n: nat)
    ensures forall x <- xs :: x < n
  {
    n := 0;
    if xs != {} {
      var x :| x in xs;
      var m := AboveAll(xs - {x});
      n := if x < m then m else x + 1;
      assert forall y <- xs :: y == x || y in xs - {x};
    }
  }

  lemma KeepsLeakObject(s: State, key: Key, content: Data)
    requires Inv(s) && DoLeakObject(s, key, content).Some?
    ensures Inv(DoLeakObject(s, key, content).value)
  {
    var s' := DoLeakObject(s, key, content).value;
    var a := IdleActor(s.procs);
    KeyStepKeeps(s, s', a);
    FilesKept(s, s', a, 0);
  }

  lemma KeepsInsertFile(s: State, a: Actor, fid: FileId)
    requires Inv(s) && DoInsertFile(s, a, fid).Some?
    ensures Inv(DoInsertFile(s, a, fid).value)
    ensures Local(s, DoInsertFile(s, a, fid).value, a, 0)
  {
    var s' := DoInsertFile(s, a, fid).value;
    assert ProcOk(s, a, s.procs[a]);
    KeyStepKeeps(s, s', a);
    FileAdded(s, s', a, 0, fid);
  }

  lemma KeepsInsertFileFailed(s: State, a: Actor)
    requires Inv(s) && DoInsertFileFailed(s, a).Some?
    ensures Inv(DoInsertFileFailed(s, a).value)
    ensures Local(s, DoInsertFileFailed(s, a).value, a, 0)
  {
    var s' := DoInsertFileFailed(s, a).value;
    assert ProcOk(s, a, s.procs[a]);
    KeyStepKeeps(s, s', a);
    FilesKept(s, s', a, 0);
  }

  lemma KeepsEnqueue(s: State, a: Actor)
    requires Inv(s) && DoEnqueue(s, a).Some?
    ensures Inv(DoEnqueue(s, a).value)
    ensures Local(s, DoEnqueue(s, a).value, a, 0)
  {
    var s' := DoEnqueue(s, a).value;
    assert ProcOk(s, a, s.procs[a]);
    KeyStepKeeps(s, s', a);
    FilesKept(s, s', a, 0);
  }

  lemma KeepsRenameFile(s: State, fid: FileId, target: Target)
    requires Inv(s) && DoRenameFile(s, fid, target).Some?
    ensures Inv(DoRenameFile(s, fid, target).value)
  {
    var s' := DoRenameFile(s, fid, target).value;
    var a := IdleActor(s.procs);
    KeyStepKeeps(s, s', a);
    forall f <- s'.files.Keys ensures FileOk(s', f) {
      assert FileOk(s, f);
    }
    assert Distinct(s'.files);
  }

  lemma TombstoneFiles(s: State, a: Actor)
    requires Inv(s) && DoTombstone(s, a).Some?
    ensures FilesOk(DoTombstone(s, a).value)
  {
    var s', fid := DoTombstone(s, a).value, s.procs[a].fid;
    assert FileOk(s, fid);
    forall f <- s'.files.Keys ensures FileOk(s', f) {
      assert FileOk(s, f);
      assert f != fid ==> s.files[f].key != s.files[fid].key;
    }
    assert Distinct(s'.files);
    assert RolesOk(s');
  }

  lemma KeepsTombstone(s: State, a: Actor)
    requires Inv(s) && DoTombstone(s, a).Some?
    ensures Inv(DoTombstone(s, a).value)
    ensures Local(s, DoTombstone(s, a).value, a, 0)
  {
    var s', fid := DoTombstone(s, a).value, s.procs[a].fid;
    assert FileOk(s, fid);
    KeyStepKeeps(s, s', a);
    TombstoneFiles(s, a);
  }

  lemma KeepsList(s: State, a: Actor, todo: seq<Item>)
    requires Inv(s) && DoList(s, a, todo).Some?
    ensures Inv(DoList(s, a, todo).value)
    ensures Local(s, DoList(s, a, todo).value, a, 0)
  {
    var s' := DoList(s, a, todo).value;
    forall item <- todo ensures ItemOk(s', item) {
      assert Listed(s, item);
      assert item.Tomb? ==> FileOk(s, item.fid);
    }
    KeyStepKeeps(s, s', a);
    FilesKept(s, s', a, 0);
  }

  lemma EraseStep(s: State, a: Actor, reported: bool)
    requires DoErase(s, a, reported).Some? && ProcOk(s, a, s.procs[a])
    ensures KeyStep(s, DoErase(s, a, reported).value, a)
  {
    var s', p := DoErase(s, a, reported).value, s.procs[a];
    forall item <- p.todo ensures ItemOk(s', item) { assert ItemOk(s, item); }
    assert ItemOk(s, p.todo[0]);
  }

  lemma KeepsErase(s: State, a: Actor, reported: bool)
    requires Inv(s) && DoErase(s, a, reported).Some?
    ensures Inv(DoErase(s, a, reported).value)
    ensures Local(s, DoErase(s, a, reported).value, a, 0)
  {
    var s', item := DoErase(s, a, reported).value, s.procs[a].todo[0];
    assert ProcOk(s, a, s.procs[a]) && ItemOk(s, item);
    EraseStep(s, a, reported);
    KeyStepKeeps(s, s', a);
    FilesKept(s, s', a, 0);
  }

  lemma KeepsSkip(s: State, a: Actor)
    requires Inv(s) && DoSkip(s, a).Some?
    ensures Inv(DoSkip(s, a).value)
    ensures Local(s, DoSkip(s, a).value, a, 0)
  {
    var s', p := DoSkip(s, a).value, s.procs[a];
    assert ProcOk(s, a, p);
    forall item <- p.todo ensures ItemOk(s', item) { assert ItemOk(s, item); }
    KeyStepKeeps(s, s', a);
    FilesKept(s, s', a, 0);
  }

  lemma SettleFiles(s: State, s': State)
    requires FilesOk(s) && Untouched(s, s') && s'.roles == s.roles && s'.objects == s.objects
    requires s'.jobs.Keys <= s.jobs.Keys && s'.files.Keys <= s.files.Keys && s'.dirs == s.dirs && s'.astray == s.astray
    requires forall f <- s'.files.Keys :: s'.files[f] == s.files[f]
    ensures FilesOk(s')
  {
    forall f <- s'.files.Keys ensures FileOk(s', f) {
      assert FileOk(s, f);
    }
  }

  lemma SettleStep(s: State, a: Actor)
    requires DoSettle(s, a).Some? && ProcOk(s, a, s.procs[a])
    ensures KeyStep(s, DoSettle(s, a).value, a)
  {
    var s', p := DoSettle(s, a).value, s.procs[a];
    assert s'.roles == s.roles && s'.objects == s.objects && s'.procs == s.procs[a := Sweeping(p.todo)];
    forall item <- p.todo ensures ItemOk(s', item) { assert ItemOk(s, item); }
  }

  lemma KeepsSettle(s: State, a: Actor)
    requires Inv(s) && DoSettle(s, a).Some?
    ensures Inv(DoSettle(s, a).value)
    ensures Local(s, DoSettle(s, a).value, a, 0)
  {
    var s' := DoSettle(s, a).value;
    assert ProcOk(s, a, s.procs[a]);
    SettleStep(s, a);
    KeyStepKeeps(s, s', a);
    SettleFiles(s, s');
  }

  lemma KeepsAddDirectory(s: State, target: Target)
    requires Inv(s) && DoAddDirectory(s, target).Some?
    ensures Inv(DoAddDirectory(s, target).value)
  {
    DirectoriesKeep(s, DoAddDirectory(s, target).value);
  }

  lemma KeepsDropDirectory(s: State, target: Target)
    requires Inv(s) && DoDropDirectory(s, target).Some?
    ensures Inv(DoDropDirectory(s, target).value)
  {
    DirectoriesKeep(s, DoDropDirectory(s, target).value);
  }

  lemma DirectoriesKeep(s: State, s': State)
    requires Inv(s) && s' == s.(dirs := s'.dirs) && Placed(s')
    ensures Inv(s')
  {
    var a := IdleActor(s.procs);
    KeyStepKeeps(s, s', a);
    forall f <- s'.files.Keys ensures FileOk(s', f) {
      assert FileOk(s, f);
    }
  }

  lemma KeepsTick(s: State, now: int)
    requires Inv(s)
    ensures Inv(s.(now := now))
  {
    var s' := s.(now := now);
    var a := IdleActor(s.procs);
    KeyStepKeeps(s, s', a);
    FilesKept(s, s', a, 0);
  }

  // --- every event, every run ---

  lemma KeepsQuit(s: State, a: Actor)
    requires Inv(s) && a in s.procs
    ensures Inv(Leave(s, a))
    ensures Local(s, Leave(s, a), a, 0)
  {
    MoveKeeps(s, Leave(s, a), a);
  }

  lemma KeepsBegin(s: State, a: Actor, id: UploadId, op: Op)
    requires Inv(s) && DoBegin(s, a, id, op).Some?
    ensures Inv(DoBegin(s, a, id, op).value)
    ensures Local(s, DoBegin(s, a, id, op).value, a, 0)
  {
    MoveKeeps(s, DoBegin(s, a, id, op).value, a);
  }

  lemma KeepsRefuseUpload(s: State, a: Actor)
    requires Inv(s) && DoRefuseUpload(s, a).Some?
    ensures Inv(DoRefuseUpload(s, a).value)
    ensures Local(s, DoRefuseUpload(s, a).value, a, 0)
  {
    var s', p := DoRefuseUpload(s, a).value, s.procs[a];
    assert PublishedOk(s, a, p.id, p.row, p.seen, p.key, p.bytes) by { assert ProcOk(s, a, p); }
    MoveKeeps(s, s', a);
  }

  lemma KeepsFindFile(s: State, a: Actor, fid: FileId)
    requires Inv(s) && DoFindFile(s, a, fid).Some?
    ensures Inv(DoFindFile(s, a, fid).value)
    ensures Local(s, DoFindFile(s, a, fid).value, a, 0)
  {
    MoveKeeps(s, DoFindFile(s, a, fid).value, a);
  }

  lemma SessionStepKeeps(s: State, e: Event)
    requires Inv(s) && OnUploads(e) && NextOnUploads(s, e).Some?
    requires e.CreatePart? || e.InsertRow? || e.InsertRowFailed? || e.UndoCreate? || e.Begin? || e.Acquire? || e.ReadRow?
    ensures Inv(NextOnUploads(s, e).value)
    ensures exists x: UploadId :: Local(s, NextOnUploads(s, e).value, e.a, x)
    ensures NextOnUploads(s, e).value.now == s.now
  {
    match e
    case CreatePart(a, id, row) => KeepsCreatePart(s, a, id, row);
    case InsertRow(a) => KeepsInsertRow(s, a);
    case InsertRowFailed(a) => KeepsInsertRowFailed(s, a);
    case UndoCreate(a) => KeepsUndoCreate(s, a);
    case Begin(a, id, op) => KeepsBegin(s, a, id, op);
    case Acquire(a) => KeepsAcquire(s, a);
    case ReadRow(a) => KeepsReadRow(s, a);
  }

  lemma StagingStepKeeps(s: State, e: Event)
    requires Inv(s) && OnUploads(e) && NextOnUploads(s, e).Some?
    requires e.Truncate? || e.CopyBytes? || e.Rollback? || e.CommitWrite?
             || e.MarkStatus? || e.UnlinkPart? || e.DeleteRow? || e.UnlinkOrphan?
    ensures Inv(NextOnUploads(s, e).value)
    ensures exists x: UploadId :: Local(s, NextOnUploads(s, e).value, e.a, x)
    ensures NextOnUploads(s, e).value.now == s.now
  {
    match e
    case Truncate(a) => KeepsTruncate(s, a);
    case CopyBytes(a, n) => KeepsCopyBytes(s, a, n);
    case Rollback(a, done) => KeepsRollback(s, a, done);
    case CommitWrite(a, id, offset, body) => KeepsCommitWrite(s, a, id, offset, body);
    case MarkStatus(a) => KeepsMarkStatus(s, a);
    case UnlinkPart(a) => KeepsUnlinkPart(s, a);
    case DeleteRow(a) => KeepsDeleteRow(s, a);
    case UnlinkOrphan(a) => KeepsUnlinkOrphan(s, a);
  }

  lemma UploadStepKeeps(s: State, e: Event)
    requires Inv(s) && OnUploads(e) && NextOnUploads(s, e).Some?
    ensures Inv(NextOnUploads(s, e).value)
    ensures exists x: UploadId :: Local(s, NextOnUploads(s, e).value, e.a, x)
    ensures NextOnUploads(s, e).value.now == s.now
  {
    if e.CreatePart? || e.InsertRow? || e.InsertRowFailed? || e.UndoCreate? || e.Begin? || e.Acquire? || e.ReadRow? {
      SessionStepKeeps(s, e);
    } else {
      StagingStepKeeps(s, e);
    }
  }

  lemma PublishStepKeeps(s: State, e: Event)
    requires Inv(s) && OnPublication(e) && NextOnPublication(s, e).Some?
    ensures Inv(NextOnPublication(s, e).value)
    ensures exists x: UploadId :: Local(s, NextOnPublication(s, e).value, e.a, x)
    ensures NextOnPublication(s, e).value.now == s.now
  {
    match e
    case Hash(a) => KeepsHash(s, a);
    case Publish(a, key) => KeepsPublish(s, a, key);
    case PublishUnsynced(a, key) => KeepsPublishUnsynced(s, a, key);
    case CommitUpload(a, id, fid) => KeepsCommitUpload(s, a, id, fid);
    case RefuseUpload(a) => KeepsRefuseUpload(s, a);
    case Restore(a) => KeepsRestore(s, a);
  }

  lemma FileStepKeeps(s: State, e: Event)
    requires Inv(s) && OnFiles(e) && NextOnFiles(s, e).Some?
    ensures Inv(NextOnFiles(s, e).value)
    ensures !e.LeakObject? && !e.RenameFile? ==> exists x: UploadId :: Local(s, NextOnFiles(s, e).value, e.a, x)
    ensures NextOnFiles(s, e).value.now == s.now
  {
    match e
    case CreateObject(a, key, content, target, user) => KeepsCreateObject(s, a, key, content, target, user);
    case LeakObject(_, key, content) => KeepsLeakObject(s, key, content);
    case InsertFile(a, fid) => KeepsInsertFile(s, a, fid);
    case InsertFileFailed(a) => KeepsInsertFileFailed(s, a);
    case Enqueue(a) => KeepsEnqueue(s, a);
    case FindFile(a, fid) => KeepsFindFile(s, a, fid);
    case RenameFile(_, fid, target) => KeepsRenameFile(s, fid, target);
    case Tombstone(a) => KeepsTombstone(s, a);
    case List(a, todo) => KeepsList(s, a, todo);
    case Erase(a, reported) => KeepsErase(s, a, reported);
    case Skip(a) => KeepsSkip(s, a);
    case Settle(a) => KeepsSettle(s, a);
  }

  lemma StepKeeps(s: State, e: Event)
    requires Inv(s) && Next(s, e).Some?
    ensures Inv(Next(s, e).value)
  {
    if e.Tick? {
      KeepsTick(s, e.now);
    } else if e.Quit? {
      KeepsQuit(s, e.a);
    } else if OnUploads(e) {
      UploadStepKeeps(s, e);
    } else if OnPublication(e) {
      PublishStepKeeps(s, e);
    } else if e.AddDirectory? {
      KeepsAddDirectory(s, e.target);
    } else if e.DropDirectory? {
      KeepsDropDirectory(s, e.target);
    } else {
      FileStepKeeps(s, e);
    }
  }

  lemma {:induction false} RunKeeps(s: State, evs: seq<Event>, s': State)
    requires Inv(s) && Run(s, evs, s')
    ensures Inv(s')
    decreases |evs|
  {
    if evs != [] {
      StepKeeps(s, evs[0]);
      RunKeeps(Next(s, evs[0]).value, evs[1..], s');
    }
  }
}
