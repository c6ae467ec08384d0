// upload.Manager over the store: the order of calls, the checks between them
// and the error paths, with every other actor free to act wherever Yield stands.
module UploadManager {
  import opened Wrappers
  import opened Bytes
  import opened Hub
  import opened HubInvariant
  import opened HubFrame
  import opened UploadSafety
  import opened HubStore

  // What Write does when nothing fails and nobody interferes: the tables before
  // (rows, staging) and after (rows', staging'), and its results.
  predicate WriteSpec(rows: map<UploadId, Row>, staging: map<UploadId, Data>, now: int, id: UploadId, offset: nat, body: Data,
                      rows': map<UploadId, Row>, staging': map<UploadId, Data>, next: nat, err: Option<Error>)
  {
    if id !in rows then
      err == Some(NotFound) && rows' == rows && staging' == staging
    else if id !in staging then
      err == Some(Broken) && rows' == rows && staging' == staging
    else if rows[id].status != Active || rows[id].expires <= now then
      err == Some(NotFound) && rows' == rows - {id} && staging' == staging - {id}
    else if offset != rows[id].offset then
      err == Some(OffsetConflict) && next == rows[id].offset && rows' == rows && staging' == staging
    else if offset + |body| > rows[id].length then
      err == Some(TooLarge) && rows' == rows && staging' == staging[id := Appended(staging[id], offset, [])]
    else
      && err.None? && next == offset + |body|
      && rows' == rows[id := rows[id].(offset := next)]
      && staging' == staging[id := Appended(staging[id], offset, body)]
  }

  // A staging file cut back to size, then extended by body.
  function Appended(part: Data, size: nat, body: Data): Data {
    Resize(part, size) + body
  }

  lemma AppendTwice(staging: map<UploadId, Data>, id: UploadId, p: Data, q: Data)
    requires id in staging
    ensures var once := staging[id := staging[id] + p]; once[id := once[id] + q] == staging[id := staging[id] + (p + q)]
  {
    assert staging[id] + p + q == staging[id] + (p + q);
  }

  lemma CutTwice(staging: map<UploadId, Data>, id: UploadId, size: nat, body: Data)
    requires id in staging
    ensures var once := staging[id := Resize(staging[id], size)];
            once[id := Appended(once[id], size, body)] == staging[id := Appended(staging[id], size, body)]
  {
    assert Resize(Resize(staging[id], size), size) == Resize(staging[id], size);
  }

  lemma RolledBack(part: Data, size: nat, tail: Data)
    requires |part| == size
    ensures Resize(part + tail, size) == part && Appended(part, size, []) == part && Appended(part, size, tail) == part + tail
  {
    assert part[..size] == part && (part + tail)[..size] == part;
  }

  type Hash = nat

  // The digest a client asks for: none, text that is no SHA-256, or a digest.
  datatype Expected = Unchecked | Malformed | Exactly(hash: Hash)

  // What HashSection asks of a session: live, full, and the whole file there.
  predicate Hashable(s: State, id: UploadId) {
    && id in s.rows && s.rows[id].status == Active && s.rows[id].expires > s.now
    && s.rows[id].offset == s.rows[id].length
    && id in s.staging && |s.staging[id]| == s.rows[id].length
  }

  // No file, tombstone or directory is at the target.
  predicate Vacant(s: State, target: Target) {
    target !in s.dirs && forall f <- s.files.Keys :: s.files[f].target != target
  }

  lemma ThereAndBack(staging: map<UploadId, Data>, id: UploadId, objects: map<Key, Data>, key: Key, part: Data)
    requires id in staging && staging[id] == part && key !in objects
    ensures (staging - {id})[id := part] == staging && objects[key := part] - {key} == objects
  {
  }

  class Manager {
    const hub: Store

    const sha256: Data -> Hash
    const ttl: int

    constructor (hub: Store, sha256: Data -> Hash, ttl: int)
      ensures this.hub == hub && this.sha256 == sha256 && this.ttl == ttl
    {
      this.hub, this.sha256, this.ttl := hub, sha256, ttl;
    }

    // withLifecycleLock up to the call of the section: the row is looked up,
    // locked, and read again.
    method Enter(me: Actor, id: UploadId, op: Op) returns (row: Option<Row>, ghost next: Option<Proc>, err: Option<Error>)
      requires hub.Valid() && me !in hub.s.procs && !op.PublishOp? && op != CleanOp(IfOrphan)
      modifies hub
      ensures hub.Valid() && old(hub.hist) <= hub.hist && hub.Own(me) == old(hub.Own(me))
      ensures err.None? ==>
                && id in hub.rows && row == Some(hub.rows[id]) && next == AfterRead(hub.s, id, op)
                && (if next.Some? then me in hub.s.procs && hub.s.procs[me] == next.value else me !in hub.s.procs)
      ensures err.Some? ==> me !in hub.s.procs && err.value in {NotFound, Broken}
      ensures err == Some(NotFound) ==> id !in hub.rows
      ensures hub.quiet && old(hub.s).procs == map[] ==>
                && SameTables(old(hub.s), hub.s) && hub.s.procs.Keys <= {me}
                && err == (if id in old(hub.rows) then None else Some(NotFound))
    {
      next := None;
      row, err := hub.UploadSessionByID(id);
      if err.Some? {
        return;
      }
      row, next, err := LockAndRead(me, id, op);
    }

    method LockAndRead(me: Actor, id: UploadId, op: Op) returns (row: Option<Row>, ghost next: Option<Proc>, err: Option<Error>)
      requires hub.Valid() && me !in hub.s.procs && !op.PublishOp? && op != CleanOp(IfOrphan)
      modifies hub
      ensures hub.Valid() && old(hub.hist) <= hub.hist && hub.Own(me) == old(hub.Own(me))
      ensures err.None? ==>
                && id in hub.rows && row == Some(hub.rows[id]) && next == AfterRead(hub.s, id, op)
                && (if next.Some? then me in hub.s.procs && hub.s.procs[me] == next.value else me !in hub.s.procs)
      ensures err.Some? ==> me !in hub.s.procs && err.value in {NotFound, Broken}
      ensures err == Some(NotFound) ==> id !in hub.rows
      ensures hub.quiet && old(hub.s).procs == map[] ==>
                && SameTables(old(hub.s), hub.s) && hub.s.procs.Keys <= {me}
                && err == (if id in old(hub.rows) then None else Some(NotFound))
    {
      var ok := hub.LockStagingLifecycle(me, id, op);
      if !ok {
        return None, None, Some(Broken);
      }
      row, next, err := hub.ReadLocked(me, id, op);
    }

    // cleanupLocked: row is what the section has read.
    method CleanupLocked(me: Actor, id: UploadId, row: Row) returns (err: Option<Error>)
      requires hub.Valid() && id in hub.rows && hub.rows[id] == row
      requires row.status == Status.Complete ==> me !in hub.s.procs
      requires row.status != Status.Complete ==> me in hub.s.procs && hub.s.procs[me] == Cleaning(id, row.status)
      modifies hub
      ensures hub.Valid() && old(hub.hist) <= hub.hist && me !in hub.s.procs
      ensures hub.Own(me) == old(hub.Own(me)) + if err.None? then [DeleteRow(me)] else []
      ensures err.None? ==> id !in hub.rows && id !in hub.staging
      ensures err == Some(NotFound) ==> id !in hub.rows
      ensures hub.quiet ==>
                && err.None? && hub.rows == old(hub.rows) - {id} && hub.staging == old(hub.staging) - {id}
                && hub.s.procs == old(hub.s.procs) - {me} && Elsewhere(old(hub.s), hub.s)
    {
      hub.NotComplete(id);
      if row.status == Status.Complete {
        return Some(NotFound);
      }
      var ok := true;
      if row.status == Active {
        ok := Mark(me, id, Active, Cancelled);
      }
      if ok && row.status != CleanupPending {
        ok := Mark(me, id, Cancelled, CleanupPending);
      }
      if !ok {
        return Some(Broken);
      }
      err := Unlink(me, id);
    }

    method Mark(me: Actor, id: UploadId, expected: Status, status: Status) returns (ok: bool)
      requires hub.Valid() && me in hub.s.procs && hub.s.procs[me] == Cleaning(id, expected)
      requires (expected == Active && status == Cancelled) || (expected == Cancelled && status == CleanupPending)
      modifies hub
      ensures hub.Valid() && old(hub.hist) <= hub.hist && hub.Own(me) == old(hub.Own(me))
      ensures if ok then me in hub.s.procs && hub.s.procs[me] == Cleaning(id, status) else me !in hub.s.procs
      ensures hub.quiet && id in old(hub.rows) && old(hub.rows)[id].status == expected ==>
                && ok && hub.rows == old(hub.rows)[id := old(hub.rows)[id].(status := status)]
                && hub.staging == old(hub.staging) && hub.s.procs == old(hub.s.procs)[me := Cleaning(id, status)]
                && Elsewhere(old(hub.s), hub.s)
    {
      hub.Yield(me);
      ok := hub.UpdateUploadStatus(me, id, expected, status);
      if !ok {
        hub.Return(me);
      }
    }

    method Unlink(me: Actor, id: UploadId) returns (err: Option<Error>)
      requires hub.Valid() && me in hub.s.procs && hub.s.procs[me] == Cleaning(id, CleanupPending)
      modifies hub
      ensures hub.Valid() && old(hub.hist) <= hub.hist && me !in hub.s.procs
      ensures hub.Own(me) == old(hub.Own(me)) + if err.None? then [DeleteRow(me)] else []
      ensures err.None? ==> id !in hub.rows && id !in hub.staging
      ensures err == Some(NotFound) ==> id !in hub.rows
      ensures hub.quiet ==>
                && err.None? && hub.rows == old(hub.rows) - {id} && hub.staging == old(hub.staging) - {id}
                && hub.s.procs == old(hub.s.procs) - {me} && Elsewhere(old(hub.s), hub.s)
    {
      hub.Yield(me);
      var ok := hub.RemoveStaging(me, id);
      if !ok {
        hub.Return(me);
        return Some(Broken);
      }
      hub.Yield(me);
      hub.UnlinkedHolds(me);
      err := hub.DeleteUploadSession(me, id);
      if err.Some? {
        hub.Return(me);
      }
    }

    // A write is accepted, as one commit of exactly its body at its offset, or
    // it is refused and commits nothing; refused as dead, it may have cleaned up.
    method Write(me: Actor, id: UploadId, offset: nat, body: Data) returns (next: nat, err: Option<Error>)
      requires hub.Valid() && me !in hub.s.procs
      modifies hub
      ensures hub.Valid() && old(hub.hist) <= hub.hist && me !in hub.s.procs
      ensures err.None? ==> next == offset + |body| && hub.Own(me) == old(hub.Own(me)) + [CommitWrite(me, id, offset, body)]
      ensures err.Some? ==>
                || hub.Own(me) == old(hub.Own(me))
                || (err == Some(NotFound) && hub.Own(me) == old(hub.Own(me)) + [DeleteRow(me)])
      ensures hub.quiet && old(hub.s).procs == map[] ==>
                && WriteSpec(old(hub.rows), old(hub.staging), hub.now, id, offset, body, hub.rows, hub.staging, next, err)
                && Elsewhere(old(hub.s), hub.s)
    {
      var row, at, missing := Enter(me, id, WriteOp(offset, body));
      if missing.Some? {
        return 0, missing;
      }
      var r := row.value;
      if id !in hub.staging {
        return 0, Some(Broken);
      }
      if !(r.status == Active && r.expires > hub.now) {
        hub.NotComplete(id);
        var _ := CleanupLocked(me, id, r);
        return 0, Some(NotFound);
      }
      if offset != r.offset {
        return r.offset, Some(OffsetConflict);
      }
      next, err := Append(me, id, r, body);
    }

    // The section of Write once its offset has been accepted.
    method Append(me: Actor, id: UploadId, row: Row, body: Data) returns (next: nat, err: Option<Error>)
      requires hub.Valid() && me in hub.s.procs && hub.s.procs[me] == Truncating(id, row, body)
      requires id in hub.rows && hub.rows[id] == row
      modifies hub
      ensures hub.Valid() && old(hub.hist) <= hub.hist && me !in hub.s.procs
      ensures err.None? ==> next == row.offset + |body|
      ensures err.Some? ==> err.value in {Broken, TooLarge}
      ensures hub.Own(me) == old(hub.Own(me)) + if err.None? then [CommitWrite(me, id, row.offset, body)] else []
      ensures hub.quiet && id in old(hub.staging) ==>
                && (err == if row.offset + |body| > row.length then Some(TooLarge) else None)
                && hub.rows == (if err.None? then old(hub.rows)[id := row.(offset := next)] else old(hub.rows))
                && hub.staging == old(hub.staging)[id := Appended(old(hub.staging)[id], row.offset, if err.None? then body else [])]
                && Elsewhere(old(hub.s), hub.s)
    {
      hub.Yield(me);
      var ok := hub.Truncate(me, id, row.offset);
      if !ok {
        hub.Return(me);
        return 0, Some(Broken);
      }
      CutTwice(old(hub.staging), id, row.offset, if |body| <= row.length - row.offset then body else []);
      next, err := AppendAtEnd(me, id, row, body);
    }

    method AppendAtEnd(me: Actor, id: UploadId, row: Row, body: Data) returns (next: nat, err: Option<Error>)
      requires hub.Valid() && me in hub.s.procs && hub.s.procs[me] == Copying(id, row, body, 0)
      modifies hub
      ensures hub.Valid() && old(hub.hist) <= hub.hist && me !in hub.s.procs
      ensures err.None? ==> next == row.offset + |body|
      ensures err.Some? ==> err.value in {Broken, TooLarge}
      ensures hub.Own(me) == old(hub.Own(me)) + if err.None? then [CommitWrite(me, id, row.offset, body)] else []
      ensures hub.quiet ==>
                && (err == if row.offset + |body| > row.length then Some(TooLarge) else None)
                && id in old(hub.staging) && id in old(hub.rows)
                && hub.rows == (if err.None? then old(hub.rows)[id := row.(offset := next)] else old(hub.rows))
                && hub.staging == old(hub.staging)[id := Appended(old(hub.staging)[id], row.offset, if err.None? then body else [])]
                && Elsewhere(old(hub.s), hub.s)
    {
      hub.CopierHolds(me);
      RolledBack(hub.staging[id], row.offset, body);
      RolledBack(hub.staging[id], row.offset, body[..if row.length - row.offset + 1 < |body| then row.length - row.offset + 1 else |body|]);
      assert body[..|body|] == body;
      hub.Yield(me);
      var n, read := CopyBody(me, id, row, body);
      if !read {
        return 0, Some(Broken);
      }
      if n > row.length - row.offset {
        hub.RollBack(me, id, row.offset);
        return 0, Some(TooLarge);
      }
      var ok := Commit(me, id, row, body);
      if !ok {
        return 0, Some(Broken);
      }
      return row.offset + n, None;
    }

    method Commit(me: Actor, id: UploadId, row: Row, body: Data) returns (ok: bool)
      requires hub.Valid() && me in hub.s.procs && hub.s.procs[me] == Copying(id, row, body, |body|)
      requires row.offset + |body| <= row.length
      modifies hub
      ensures hub.Valid() && old(hub.hist) <= hub.hist && me !in hub.s.procs
      ensures hub.Own(me) == old(hub.Own(me)) + if ok then [CommitWrite(me, id, row.offset, body)] else []
      ensures hub.quiet ==>
                && ok && id in old(hub.rows) && hub.rows == old(hub.rows)[id := row.(offset := row.offset + |body|)]
                && hub.staging == old(hub.staging) && Elsewhere(old(hub.s), hub.s)
    {
      hub.CopierHolds(me);
      hub.Yield(me);
      ok := hub.UpdateUploadOffset(me, id, row.offset, row.offset + |body|);
      if !ok {
        hub.RollBack(me, id, row.offset);
      }
    }

    // io.Copy over the LimitReader, and the Sync after it: n bytes are on disk,
    // or the read or the disk failed and the file has been rolled back.
    method CopyBody(me: Actor, id: UploadId, row: Row, body: Data) returns (n: nat, ok: bool)
      requires hub.Valid() && me in hub.s.procs && hub.s.procs[me] == Copying(id, row, body, 0)
      modifies hub
      ensures hub.Valid() && old(hub.hist) <= hub.hist && hub.Own(me) == old(hub.Own(me))
      ensures if ok then me in hub.s.procs && hub.s.procs[me] == Copying(id, row, body, n) else me !in hub.s.procs
      ensures ok ==> row.offset <= row.length && n == if |body| > row.length - row.offset then row.length - row.offset + 1 else |body|
      ensures hub.quiet ==>
                && ok && id in old(hub.staging) && hub.staging == old(hub.staging)[id := old(hub.staging)[id] + body[..n]]
                && hub.rows == old(hub.rows) && Elsewhere(old(hub.s), hub.s)
    {
      hub.CopierHolds(me);
      var most := row.length - row.offset + 1;
      n := 0;
      assert hub.staging[id] + body[..0] == hub.staging[id];
      assert hub.staging[id := hub.staging[id]] == hub.staging;
      while n < |body| && n < most
        invariant hub.Valid() && old(hub.hist) <= hub.hist && hub.Own(me) == old(hub.Own(me))
        invariant 0 <= n <= |body| && n <= most
        invariant me in hub.s.procs && hub.s.procs[me] == Copying(id, row, body, n)
        invariant hub.quiet ==>
                    && hub.staging == old(hub.staging)[id := old(hub.staging)[id] + body[..n]]
                    && hub.rows == old(hub.rows) && Elsewhere(old(hub.s), hub.s)
        decreases |body| - n
      {
        ok := Chunk(me, id, row, body, n, most);
        if !ok {
          return;
        }
        var k := hub.s.procs[me].n;
        assert body[..n] + body[n..k] == body[..k];
        AppendTwice(old(hub.staging), id, body[..n], body[n..k]);
        n := k;
      }
      var failed := hub.Fault();
      if failed {
        hub.RollBack(me, id, row.offset);
      }
      ok := !failed;
    }

    // One read from the request and one write to the file, of any size.
    method Chunk(me: Actor, id: UploadId, row: Row, body: Data, n: nat, most: nat) returns (ok: bool)
      requires hub.Valid() && me in hub.s.procs && hub.s.procs[me] == Copying(id, row, body, n)
      requires n < |body| && n < most && row.offset + most == row.length + 1
      modifies hub
      ensures hub.Valid() && old(hub.hist) <= hub.hist && hub.Own(me) == old(hub.Own(me))
      ensures !ok ==> me !in hub.s.procs
      ensures ok ==> me in hub.s.procs && hub.s.procs[me].Copying?
      ensures ok ==> var k := hub.s.procs[me].n;
                     n < k <= |body| && k <= most && hub.s.procs[me] == Copying(id, row, body, k)
      ensures hub.quiet ==>
                && ok && id in old(hub.staging) && hub.rows == old(hub.rows) && Elsewhere(old(hub.s), hub.s)
                && hub.staging == old(hub.staging)[id := old(hub.staging)[id] + body[n..hub.s.procs[me].n]]
    {
      hub.Yield(me);
      var failed := hub.Fault();
      if failed {
        hub.RollBack(me, id, row.offset);
        return false;
      }
      var k: nat :| n < k <= |body| && k <= most;
      hub.WriteChunk(me, id, k);
      return true;
    }

    // On success the session has become a file whose object begins with exactly
    // the accepted bytes, those that gave the wanted digest; otherwise it has not.
    method Complete(me: Actor, id: UploadId, expected: Expected) returns (err: Option<Error>, ghost fid: FileId, ghost content: Data)
      requires hub.Valid() && me !in hub.s.procs
      modifies hub
      ensures hub.Valid() && old(hub.hist) <= hub.hist && me !in hub.s.procs
      ensures hub.Own(me) == old(hub.Own(me)) + if err.None? then [CommitUpload(me, id, fid)] else []
      ensures err.None? ==>
                && Done(id, fid, content) && expected != Malformed
                && (expected.Exactly? ==> sha256(content) == expected.hash)
      ensures hub.quiet && old(hub.s).procs == map[] ==>
                && (err == Some(Checksum) <==>
                      && Hashable(old(hub.s), id)
                      && (expected.Malformed? || (expected.Exactly? && expected.hash != sha256(old(hub.staging)[id]))))
                && (err.None? <==>
                      && Hashable(old(hub.s), id) && Vacant(old(hub.s), old(hub.rows)[id].target)
                      && (expected.Unchecked? || (expected.Exactly? && expected.hash == sha256(old(hub.staging)[id]))))
                && (err.None? ==> Moved(old(hub.s), hub.s, id, fid))
                && (err.Some? ==> hub.rows == old(hub.rows) && hub.staging == old(hub.staging) && Elsewhere(old(hub.s), hub.s))
    {
      fid := 0;
      err, content := HashSection(me, id);
      if err.Some? {
        return;
      }
      err, fid := PublishIfAgreed(me, id, expected, content);
    }

    method PublishIfAgreed(me: Actor, id: UploadId, expected: Expected, ghost content: Data)
      returns (err: Option<Error>, ghost fid: FileId)
      requires hub.Valid() && me in hub.s.procs && hub.s.procs[me] == Waiting(id, PublishOp(content))
      modifies hub
      ensures hub.Valid() && old(hub.hist) <= hub.hist && me !in hub.s.procs
      ensures hub.Own(me) == old(hub.Own(me)) + if err.None? then [CommitUpload(me, id, fid)] else []
      ensures err.None? ==>
                && Done(id, fid, content) && expected != Malformed
                && (expected.Exactly? ==> sha256(content) == expected.hash)
      ensures hub.quiet && old(hub.s).procs.Keys <= {me} ==>
                && (err == Some(Checksum) <==>
                      expected.Malformed? || (expected.Exactly? && expected.hash != sha256(content)))
                && (err.None? <==>
                      && (expected.Unchecked? || (expected.Exactly? && expected.hash == sha256(content)))
                      && id in old(hub.rows) && IsLive(old(hub.rows)[id], old(hub.now))
                      && old(hub.rows)[id].offset == old(hub.rows)[id].length
                      && id in old(hub.staging) && PathFree(old(hub.files), old(hub.dirs), old(hub.rows)[id].target))
                && (err.None? ==> Moved(old(hub.s), hub.s, id, fid))
                && (err.Some? ==> hub.rows == old(hub.rows) && hub.staging == old(hub.staging) && Elsewhere(old(hub.s), hub.s))
    {
      fid := 0;
      var sum := sha256(hub.s.procs[me].op.seen);
      if expected.Malformed? || (expected.Exactly? && expected.hash != sum) {
        hub.Return(me);
        return Some(Checksum), fid;
      }
      hub.Yield(me);
      err, fid := PublishSection(me, id, content);
    }

    // Complete's first section; its lock is free again when it returns.
    method HashSection(me: Actor, id: UploadId) returns (err: Option<Error>, ghost content: Data)
      requires hub.Valid() && me !in hub.s.procs
      modifies hub
      ensures err != Some(Checksum)
      ensures hub.Valid() && old(hub.hist) <= hub.hist && hub.Own(me) == old(hub.Own(me))
      ensures err.None? ==> me in hub.s.procs && hub.s.procs[me] == Waiting(id, PublishOp(content))
      ensures err.Some? ==> me !in hub.s.procs
      ensures hub.quiet && old(hub.s).procs == map[] ==>
                && hub.rows == old(hub.rows) && hub.staging == old(hub.staging) && Elsewhere(old(hub.s), hub.s)
                && hub.s.procs.Keys <= {me}
                && (err.None? <==>
                      && id in hub.rows && IsLive(hub.rows[id], hub.now) && hub.rows[id].offset == hub.rows[id].length
                      && id in hub.staging && |hub.staging[id]| == hub.rows[id].length)
                && (err.None? ==> content == hub.staging[id])
    {
      content := [];
      var row, at, missing := Enter(me, id, HashOp);
      if missing.Some? {
        return missing, content;
      }
      var r := row.value;
      if !(r.status == Active && r.expires > hub.now) {
        return Some(NotFound), content;
      }
      if r.offset != r.length {
        return Some(Incomplete), content;
      }
      hub.Yield(me);
      var bytes;
      bytes, err := hub.HashAndSyncStaging(me, id, r.length);
      content := bytes;
    }

    // Complete's second section, from a fresh lock and a fresh read of the row.
    method PublishSection(me: Actor, id: UploadId, ghost content: Data) returns (err: Option<Error>, ghost fid: FileId)
      requires hub.Valid() && me in hub.s.procs && hub.s.procs[me] == Waiting(id, PublishOp(content))
      modifies hub
      ensures err != Some(Checksum)
      ensures hub.Valid() && old(hub.hist) <= hub.hist && me !in hub.s.procs
      ensures hub.Own(me) == old(hub.Own(me)) + if err.None? then [CommitUpload(me, id, fid)] else []
      ensures err.None? ==> Done(id, fid, content)
      ensures hub.quiet && old(hub.s).procs.Keys <= {me} ==>
                && (err.None? <==>
                      && id in old(hub.rows) && IsLive(old(hub.rows)[id], hub.now)
                      && old(hub.rows)[id].offset == old(hub.rows)[id].length
                      && id in old(hub.staging) && PathFree(old(hub.files), old(hub.dirs), old(hub.rows)[id].target))
                && (err.None? ==> Moved(old(hub.s), hub.s, id, fid))
                && (err.Some? ==> hub.rows == old(hub.rows) && hub.staging == old(hub.staging) && Elsewhere(old(hub.s), hub.s))
    {
      fid := 0;
      var row, missing := Reenter(me, id, content);
      if missing.Some? {
        return missing, fid;
      }
      var r := row.value;
      if !(r.status == Active && r.expires > hub.now) {
        return Some(NotFound), fid;
      }
      if r.offset != r.length {
        return Some(Incomplete), fid;
      }
      err, fid := PublishAndRecord(me, id, r, content);
    }

    method Reenter(me: Actor, id: UploadId, ghost content: Data) returns (row: Option<Row>, err: Option<Error>)
      requires hub.Valid() && me in hub.s.procs && hub.s.procs[me] == Waiting(id, PublishOp(content))
      modifies hub
      ensures err != Some(Checksum)
      ensures hub.Valid() && old(hub.hist) <= hub.hist && hub.Own(me) == old(hub.Own(me))
      ensures err.None? ==>
                && id in hub.rows && row == Some(hub.rows[id])
                && if IsLive(hub.rows[id], hub.now) && hub.rows[id].offset == hub.rows[id].length
                   then me in hub.s.procs && hub.s.procs[me] == Publishing(id, hub.rows[id], content)
                   else me !in hub.s.procs
      ensures err.Some? ==> me !in hub.s.procs
      ensures hub.quiet && old(hub.s).procs.Keys <= {me} ==>
                && (err.None? <==> id in old(hub.rows))
                && hub.rows == old(hub.rows) && hub.staging == old(hub.staging) && Elsewhere(old(hub.s), hub.s)
    {
      row, err := hub.UploadSessionByID(id);
      if err.Some? {
        hub.Return(me);
        return;
      }
      var ok := hub.Wait(me, id);
      if !ok {
        return None, Some(Broken);
      }
      ghost var next;
      row, next, err := hub.ReadLocked(me, id, hub.s.procs[me].op);
    }

    method PublishAndRecord(me: Actor, id: UploadId, row: Row, ghost content: Data) returns (err: Option<Error>, ghost fid: FileId)
      requires hub.Valid() && me in hub.s.procs && hub.s.procs[me] == Publishing(id, row, content)
      requires id in hub.rows && hub.rows[id] == row
      modifies hub
      ensures err != Some(Checksum)
      ensures hub.Valid() && old(hub.hist) <= hub.hist && me !in hub.s.procs
      ensures hub.Own(me) == old(hub.Own(me)) + if err.None? then [CommitUpload(me, id, fid)] else []
      ensures err.None? ==> Done(id, fid, content)
      ensures hub.quiet ==>
                && (err.None? <==> id in old(hub.staging) && IsLive(row, hub.now) && PathFree(old(hub.files), old(hub.dirs), row.target))
                && (err.None? ==> Moved(old(hub.s), hub.s, id, fid))
                && (err.Some? ==> hub.rows == old(hub.rows) && hub.staging == old(hub.staging) && Elsewhere(old(hub.s), hub.s))
    {
      fid := 0;
      hub.Yield(me);
      var key, ok := hub.PublishStaging(me, id);
      if !ok {
        return Some(Broken), fid;
      }
      ghost var part := hub.s.procs[me].bytes;
      err, fid := RecordOrRestore(me, id, row, content, key);
      if hub.quiet {
        ThereAndBack(old(hub.staging), id, old(hub.objects), key, part);
      }
    }

    method RecordOrRestore(me: Actor, id: UploadId, row: Row, ghost content: Data, key: Key)
      returns (err: Option<Error>, ghost fid: FileId)
      requires hub.Valid() && me in hub.s.procs && hub.s.procs[me].Published?
      requires var p := hub.s.procs[me]; p.id == id && p.row == row && p.seen == content && p.key == key
      modifies hub
      ensures err != Some(Checksum)
      ensures hub.Valid() && old(hub.hist) <= hub.hist && me !in hub.s.procs
      ensures hub.Own(me) == old(hub.Own(me)) + if err.None? then [CommitUpload(me, id, fid)] else []
      ensures err.None? ==> Done(id, fid, content)
      ensures hub.quiet ==>
                && (err.None? <==>
                      id in old(hub.rows) && IsLive(old(hub.rows)[id], hub.now) && PathFree(old(hub.files), old(hub.dirs), row.target))
                && (err.None? ==>
                      && hub.rows == old(hub.rows) - {id} && hub.staging == old(hub.staging) && hub.objects == old(hub.objects)
                      && fid !in old(hub.files)
                      && hub.files == old(hub.files)[fid := File(row.target, key, row.length, row.user, false, Some(id))])
                && (err.Some? ==>
                      && hub.rows == old(hub.rows) && hub.files == old(hub.files)
                      && hub.staging == old(hub.staging)[id := old(hub.s).procs[me].bytes]
                      && hub.objects == old(hub.objects) - {key})
                && hub.dirs == old(hub.dirs) && hub.jobs == old(hub.jobs) && hub.now == old(hub.now)
    {
      hub.Yield(me);
      hub.PublishedHolds(me);
      var recorded;
      recorded, err := hub.CompleteUpload(me, id, row.target, key, row.length, row.user);
      fid := recorded;
      if err.Some? {
        Restore(me, id, key);
      }
    }

    method Restore(me: Actor, id: UploadId, key: Key)
      requires hub.Valid() && me in hub.s.procs && hub.s.procs[me].Refused?
      requires hub.s.procs[me].id == id && hub.s.procs[me].key == key
      modifies hub
      ensures hub.Valid() && old(hub.hist) <= hub.hist && me !in hub.s.procs && hub.Own(me) == old(hub.Own(me))
      ensures hub.quiet ==>
                && hub.staging == old(hub.staging)[id := old(hub.s).procs[me].bytes] && hub.objects == old(hub.objects) - {key}
                && hub.rows == old(hub.rows) && hub.files == old(hub.files)
                && hub.dirs == old(hub.dirs) && hub.jobs == old(hub.jobs) && hub.now == old(hub.now)
    {
      hub.Yield(me);
      var restored := hub.RestorePublished(me, key, id);
    }

    // The session's file is recorded, and its object begins with content.
    ghost predicate Done(id: UploadId, fid: FileId, content: Data)
      reads hub
    {
      && id !in hub.rows && id in hub.s.accepted && content == Flat(hub.s.accepted[id])
      && fid in hub.files && hub.files[fid].size == |content| && hub.files[fid].origin == Some(id)
      && hub.files[fid].key in hub.objects && content <= hub.objects[hub.files[fid].key]
    }

    // Cancel, or any later try to clean up: after a success neither row nor
    // staging file is left, and without faults it does succeed, from wherever an
    // earlier cleanup of the session stopped.
    method Cancel(me: Actor, id: UploadId) returns (err: Option<Error>)
      requires hub.Valid() && me !in hub.s.procs
      modifies hub
      ensures hub.Valid() && old(hub.hist) <= hub.hist && me !in hub.s.procs
      ensures hub.Own(me) == old(hub.Own(me)) + if err.None? then [DeleteRow(me)] else []
      ensures err.None? ==> id !in hub.rows && id !in hub.staging
      ensures err == Some(NotFound) ==> id !in hub.rows
      ensures hub.quiet && old(hub.s).procs == map[] ==>
                && err == (if id in old(hub.rows) then None else Some(NotFound))
                && hub.rows == old(hub.rows) - {id} && Elsewhere(old(hub.s), hub.s)
                && hub.staging == if id in old(hub.rows) then old(hub.staging) - {id} else old(hub.staging)
    {
      var row, at, missing := Enter(me, id, CleanOp(Always));
      if missing.Some? {
        return missing;
      }
      hub.NotComplete(id);
      err := CleanupLocked(me, id, row.value);
    }

    // cleanup with expiryOnly: what has come back to life is left alone.
    method CleanupExpired(me: Actor, id: UploadId)
      requires hub.Valid() && me !in hub.s.procs
      modifies hub
      ensures hub.Valid() && old(hub.hist) <= hub.hist && me !in hub.s.procs
      ensures hub.Own(me) == old(hub.Own(me)) || hub.Own(me) == old(hub.Own(me)) + [DeleteRow(me)]
      ensures hub.quiet && old(hub.s).procs == map[] && id in old(hub.rows) && !IsLive(old(hub.rows)[id], old(hub.now)) ==>
                && hub.rows == old(hub.rows) - {id} && hub.staging == old(hub.staging) - {id} && Elsewhere(old(hub.s), hub.s)
    {
      var row, at, missing := Enter(me, id, CleanOp(IfDead));
      if missing.Some? || (row.value.status == Active && row.value.expires > hub.now) {
        return;
      }
      hub.NotComplete(id);
      var _ := CleanupLocked(me, id, row.value);
    }

    // Get shows live sessions only, and sweeps up a dead one it meets.
    method Get(me: Actor, id: UploadId) returns (row: Option<Row>, err: Option<Error>)
      requires hub.Valid() && me !in hub.s.procs
      modifies hub
      ensures hub.Valid() && old(hub.hist) <= hub.hist && me !in hub.s.procs
      ensures err.None? ==> row.Some? && id in hub.rows && row.value == hub.rows[id] && row.value.status == Active && row.value.expires > hub.now
      ensures err.None? ==> hub.Own(me) == old(hub.Own(me))
      ensures hub.quiet && old(hub.s).procs == map[] ==>
                && (err.None? <==> id in old(hub.rows) && old(hub.rows)[id].status == Active && old(hub.rows)[id].expires > old(hub.now))
                && (id in old(hub.rows) && err.Some? ==> hub.rows == old(hub.rows) - {id} && hub.staging == old(hub.staging) - {id})
    {
      row, err := hub.UploadSessionByID(id);
      if err.Some? {
        return;
      }
      if row.value.status != Active || row.value.expires <= hub.now {
        CleanupExpired(me, id);
        return None, Some(NotFound);
      }
    }

    // Create gives a new session an empty staging file, then its row. id is new.
    method Create(me: Actor, id: UploadId, user: int, target: Target, length: int) returns (err: Option<Error>)
      requires hub.Valid() && me !in hub.s.procs && id !in hub.s.issued
      modifies hub
      ensures hub.Valid() && old(hub.hist) <= hub.hist && me !in hub.s.procs
      ensures hub.Own(me) == old(hub.Own(me)) + if err.None? then [InsertRow(me)] else []
      ensures length < 0 ==> err == Some(TooLarge) && hub.s == old(hub.s)
      ensures err.None? ==>
                length >= 0 && id in hub.rows && hub.rows[id] == Row(user, target, 0, length, Active, old(hub.now) + ttl)
      ensures hub.quiet && length >= 0 ==>
                && err.None? && hub.rows == old(hub.rows)[id := hub.rows[id]] && hub.staging == old(hub.staging)[id := []]
                && Elsewhere(old(hub.s), hub.s)
    {
      if length < 0 {
        return Some(TooLarge);
      }
      var row := Row(user, target, 0, length, Active, hub.now + ttl);
      var ok := hub.CreateStaging(me, id, row);
      if !ok {
        return Some(Broken);
      }
      hub.Yield(me);
      ok := hub.CreateUploadSession(me, id, row);
      if !ok {
        hub.Yield(me);
        hub.RemoveNewStaging(me, id);
        return Some(Broken);
      }
      return None;
    }
  }

  // The session's staging file has become the object of a new file at its target.
  predicate Moved(s: State, s': State, id: UploadId, fid: FileId) {
    && id in s.rows && id in s.staging && fid in s'.files
    && s'.rows == s.rows - {id} && s'.staging == s.staging - {id}
    && fid !in s.files && s'.files == s.files[fid := s'.files[fid]] && s'.files[fid].target == s.rows[id].target
    && s'.dirs == s.dirs && s'.jobs == s.jobs && s'.now == s.now
    && s'.files[fid].key !in s.objects && s'.objects == s.objects[s'.files[fid].key := s.staging[id]]
  }

  // The tables and the clock that upload sections leave alone.
  predicate Elsewhere(s: State, s': State) {
    s'.objects == s.objects && s'.files == s.files && s'.dirs == s.dirs && s'.jobs == s.jobs && s'.now == s.now
  }

  // Whatever managers, requests and crashes a store has been through, a row's
  // staging file begins with the bodies its history has committed, in order.
  lemma StoreKeepsCommittedBytes(hub: Store, id: UploadId)
    requires hub.Valid() && id in hub.rows
    ensures hub.rows[id].offset == |Flat(Bodies(hub.hist, id))| <= hub.rows[id].length
    ensures id in hub.staging ==>
              && hub.rows[id].offset <= |hub.staging[id]|
              && hub.staging[id][..hub.rows[id].offset] == Flat(Bodies(hub.hist, id))
  {
    CommittedPrefix(hub.hist, hub.s, id);
  }
}
