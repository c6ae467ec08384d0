// What resumable uploads promise, over every run of any number of actors.
module UploadSafety {
  import opened Wrappers
  import opened Bytes
  import opened Hub
  import opened HubInvariant
  import opened HubFrame

  lemma Reachable(evs: seq<Event>, s: State)
    requires Run(Init(), evs, s)
    ensures Inv(s)
  {
    RunKeeps(Init(), evs, s);
  }

  // --- committed bytes ---

  // The bodies of the successful writes to a session, in order.
  function Bodies(evs: seq<Event>, id: UploadId): seq<Data> {
    if evs == [] then []
    else (if evs[0].CommitWrite? && evs[0].id == id then [evs[0].body] else []) + Bodies(evs[1..], id)
  }

  function Accepted(s: State, id: UploadId): seq<Data> {
    if id in s.accepted then s.accepted[id] else []
  }

  lemma StepAccepts(s: State, e: Event, id: UploadId)
    requires Inv(s) && Next(s, e).Some?
    ensures Accepted(Next(s, e).value, id) == Accepted(s, id) + Bodies([e], id)
  {
    if !e.Tick? { StepWrites(s, e); }
    if e.InsertRow? {
      assert ProcOk(s, e.a, s.procs[e.a]);
    }
  }

  lemma BodiesCons(evs: seq<Event>, id: UploadId)
    requires evs != []
    ensures Bodies(evs, id) == Bodies([evs[0]], id) + Bodies(evs[1..], id)
  {
    assert [evs[0]][1..] == [];
  }

  lemma {:induction false} RunAccepts(s: State, evs: seq<Event>, s': State, id: UploadId)
    requires Inv(s) && Run(s, evs, s')
    ensures Accepted(s', id) == Accepted(s, id) + Bodies(evs, id)
    decreases |evs|
  {
    if evs != [] {
      StepKeeps(s, evs[0]);
      StepAccepts(s, evs[0], id);
      RunAccepts(Next(s, evs[0]).value, evs[1..], s', id);
      BodiesCons(evs, id);
      Regroup(Accepted(s, id), Bodies([evs[0]], id), Bodies(evs[1..], id));
    }
  }

  lemma Regroup(a: seq<Data>, b: seq<Data>, c: seq<Data>)
    ensures (a + b) + c == a + (b + c)
  {
  }

  lemma ReachableAccepted(evs: seq<Event>, s: State, id: UploadId)
    requires Run(Init(), evs, s)
    ensures Accepted(s, id) == Bodies(evs, id)
  {
    RunAccepts(Init(), evs, s, id);
    assert Accepted(Init(), id) + Bodies(evs, id) == Bodies(evs, id);
  }

  // In every reachable state the row's offset counts the bodies committed so
  // far, and a staging file that exists begins with exactly those bytes.
  lemma CommittedPrefix(evs: seq<Event>, s: State, id: UploadId)
    requires LeadsTo(evs, s) && id in s.rows
    ensures s.rows[id].offset == |Flat(Bodies(evs, id))| <= s.rows[id].length
    ensures id in s.staging ==>
              && s.rows[id].offset <= |s.staging[id]|
              && s.staging[id][..s.rows[id].offset] == Flat(Bodies(evs, id))
  {
    LeadsToIsRun(evs, s);
    Reachable(evs, s);
    ReachableAccepted(evs, s, id);
    assert RowOk(s, id);
  }

  lemma {:induction false} FlatGrows(parts: seq<Data>, more: seq<Data>)
    ensures |Flat(parts)| <= |Flat(parts + more)|
    decreases |more|
  {
    if more == [] {
      assert parts + more == parts;
    } else {
      var last := more[|more| - 1];
      assert parts + more == (parts + more[..|more| - 1]) + [last];
      FlatAppend(parts + more[..|more| - 1], last);
      FlatGrows(parts, more[..|more| - 1]);
    }
  }

  // The byte ranges of successful writes to one session never overlap, so no
  // chunk with a byte in it is accepted twice.
  lemma ChunksAreDisjoint(s: State, first: Event, evs: seq<Event>, s': State, second: Event)
    requires Inv(s) && first.CommitWrite? && Next(s, first).Some?
    requires Run(Next(s, first).value, evs, s')
    requires second.CommitWrite? && second.id == first.id && Next(s', second).Some?
    ensures first.offset + |first.body| <= second.offset
  {
    var id, mid := first.id, Next(s, first).value;
    StepKeeps(s, first);
    RunKeeps(mid, evs, s');
    RunAccepts(mid, evs, s', id);
    FlatGrows(Accepted(mid, id), Bodies(evs, id));
    assert RowOk(mid, id) && RowOk(s', id);
  }

  // --- completion across the unlocked gap ---

  // A writer of the session dies, or its rollback truncate fails.
  predicate Harms(s: State, e: Event, id: UploadId) {
    && (e.Quit? || (e.Rollback? && !e.done))
    && e.a in s.procs && s.procs[e.a].Copying? && s.procs[e.a].id == id
  }

  predicate Unharmed(s: State, evs: seq<Event>, id: UploadId)
    decreases |evs|
  {
    evs == [] || (!Harms(s, evs[0], id) && Next(s, evs[0]).Some? && Unharmed(Next(s, evs[0]).value, evs[1..], id))
  }

  // a is somewhere between hashing and recording, with the hashed bytes in hand.
  ghost predicate OnTrack(s: State, a: Actor, id: UploadId, seen: Data) {
    a in s.procs ==>
      match s.procs[a]
      case Waiting(i, op) => i == id && op == PublishOp(seen)
      case Locked(i, op) => i == id && op == PublishOp(seen)
      case Publishing(i, _, b) => i == id && b == seen
      case Published(i, _, b, _, _) => i == id && b == seen
      case _ => false
  }

  // Completion goes on without an error: the second lock, the re-read, the rename.
  predicate Straight(evs: seq<Event>, a: Actor) {
    forall e <- evs :: By(e, a) ==> e.Acquire? || e.ReadRow? || e.Publish?
  }

  lemma StepOnTrack(s: State, e: Event, a: Actor, id: UploadId, seen: Data)
    requires Inv(s) && Next(s, e).Some? && OnTrack(s, a, id, seen)
    requires By(e, a) ==> e.Acquire? || e.ReadRow? || e.Publish?
    ensures OnTrack(Next(s, e).value, a, id, seen)
  {
    if !By(e, a) {
      StepUnmoved(s, e, a);
    }
  }

  // Whatever a dirty staging file holds beyond the offset, some writer is still
  // at work on it.
  ghost predicate Tidy(s: State, id: UploadId) {
    id in s.dirty ==> exists b <- s.procs.Keys :: s.procs[b].Copying? && s.procs[b].id == id
  }

  // A writer that goes on stays a writer until its staging file is tidy again.
  lemma CopierStep(s: State, e: Event)
    requires e.Quit? || e.CopyBytes? || e.Rollback? || e.CommitWrite?
    requires Next(s, e).Some? && e.a in s.procs && s.procs[e.a].Copying? && !Harms(s, e, s.procs[e.a].id)
    ensures var b, s' := e.a, Next(s, e).value;
            s.procs[b].id in s'.dirty ==> b in s'.procs && s'.procs[b].Copying? && s'.procs[b].id == s.procs[b].id
  {
  }

  lemma StepTidyBy(s: State, e: Event, id: UploadId, b: Actor)
    requires Inv(s) && Next(s, e).Some? && !Harms(s, e, id)
    requires b in s.procs && s.procs[b].Copying? && s.procs[b].id == id
    ensures Tidy(Next(s, e).value, id)
  {
    if By(e, b) && !Ambient(e) {
      StepWrites(s, e);
      CopierStep(s, e);
    } else {
      StepUnmoved(s, e, b);
      assert SameAt(s.procs, Next(s, e).value.procs, b);
    }
  }

  lemma StepTidy(s: State, e: Event, id: UploadId)
    requires Inv(s) && Next(s, e).Some? && Tidy(s, id) && !Harms(s, e, id)
    ensures Tidy(Next(s, e).value, id)
  {
    if id in s.dirty {
      var b :| b in s.procs && s.procs[b].Copying? && s.procs[b].id == id;
      StepTidyBy(s, e, id, b);
    } else if WritesDirty(e) {
      var s' := Next(s, e).value;
      assert e.CopyBytes? ==> e.a in s'.procs && s'.procs[e.a].Copying?;
    } else if !e.Tick? {
      StepWrites(s, e);
    }
  }

  lemma {:induction false} Gap(s: State, evs: seq<Event>, s': State, a: Actor, id: UploadId, seen: Data)
    requires Inv(s) && Run(s, evs, s') && Straight(evs, a) && OnTrack(s, a, id, seen)
    ensures Inv(s') && OnTrack(s', a, id, seen)
    ensures Tidy(s, id) && Unharmed(s, evs, id) ==> Tidy(s', id)
    decreases |evs|
  {
    if evs != [] {
      var mid := Next(s, evs[0]).value;
      StepKeeps(s, evs[0]);
      StepOnTrack(s, evs[0], a, id, seen);
      if Tidy(s, id) && !Harms(s, evs[0], id) {
        StepTidy(s, evs[0], id);
      }
      Gap(mid, evs[1..], s', a, id, seen);
    }
  }

  // A successful Complete publishes an object that begins with exactly the bytes
  // that were hashed, which are the bytes the session accepted, although the
  // lock was free in between; it is nothing but those bytes unless a writer
  // died, or failed to roll back, in the gap.
  lemma CompletePublishesHashedBytes(before: State, a: Actor, gap: seq<Event>, s: State, fid: FileId)
    requires Inv(before) && Next(before, Hash(a)).Some?
    requires Run(Next(before, Hash(a)).value, gap, s) && Straight(gap, a)
    requires Next(s, CommitUpload(a, before.procs[a].id, fid)).Some?
    ensures before.procs[a].id in before.staging
    ensures var id := before.procs[a].id;
            var hashed := before.staging[id];
            var s' := Next(s, CommitUpload(a, id, fid)).value;
            && id in before.accepted && hashed == Flat(before.accepted[id])
            && fid in s'.files && s'.files[fid].size == |hashed| && s'.files[fid].key in s'.objects
            && hashed <= s'.objects[s'.files[fid].key]
            && (Unharmed(Next(before, Hash(a)).value, gap, id) ==> s'.objects[s'.files[fid].key] == hashed)
  {
    var id, hashed := before.procs[a].id, before.staging[before.procs[a].id];
    var s0 := Next(before, Hash(a)).value;
    assert ProcOk(before, a, before.procs[a]) && RowOk(before, id);
    StepKeeps(before, Hash(a));
    Gap(s0, gap, s, a, id, hashed);
    var p := s.procs[a];
    assert ProcOk(s, a, p);
    forall b <- s.procs.Keys | b != a ensures !(s.procs[b].Copying? && s.procs[b].id == id) {
      assert LockOf(s.procs[b]) != LockOf(p);
    }
  }

  // For as long as a file an upload made is active, its object begins with the
  // bodies its session accepted, and its size counts them.
  lemma UploadedFileHoldsItsBytes(evs: seq<Event>, s: State, fid: FileId)
    requires Run(Init(), evs, s) && fid in s.files && !s.files[fid].deleting && s.files[fid].origin.Some?
    ensures var f := s.files[fid];
            var bytes := Flat(Bodies(evs, f.origin.value));
            f.size == |bytes| && f.key in s.objects && bytes <= s.objects[f.key]
  {
    Reachable(evs, s);
    assert FileOk(s, fid);
    ReachableAccepted(evs, s, s.files[fid].origin.value);
  }

  // --- refusal and races ---

  // The stores after publication, refusal and restore with nobody in between.
  lemma RefusalUndoesPublication(s: State, a: Actor, key: Key)
    requires Inv(s) && DoPublish(s, a, key).Some?
    ensures var s1 := DoPublish(s, a, key).value;
            DoRefuseUpload(s1, a).Some?
            && var s2 := DoRefuseUpload(s1, a).value;
            DoRestore(s2, a).Some?
            && var s3 := DoRestore(s2, a).value;
            && s3.rows == s.rows && s3.staging == s.staging && s3.objects == s.objects
            && s3.files == s.files && s3.jobs == s.jobs && s3.accepted == s.accepted
  {
    var s1 := DoPublish(s, a, key).value;
    var s2 := DoRefuseUpload(s1, a).value;
    var s3 := DoRestore(s2, a).value;
    assert s3.staging == s.staging;
    assert s3.objects == s.objects;
  }

  lemma RefusedStillHolds(s: State, a: Actor, first: seq<Event>, s1: State, second: seq<Event>, s2: State)
    requires Inv(s) && a in s.procs && s.procs[a].Published?
    requires Run(s, first, s1) && NoneBy(first, a) && DoRefuseUpload(s1, a).Some?
    requires Run(DoRefuseUpload(s1, a).value, second, s2) && NoneBy(second, a)
    ensures Inv(s2) && a in s2.procs
    ensures var p := s.procs[a];
            s2.procs[a] == Refused(p.id, p.row, p.seen, p.key, p.bytes)
  {
    RunUnmoved(s, first, s1, a);
    var r := DoRefuseUpload(s1, a).value;
    KeepsRefuseUpload(s1, a);
    assert r.procs[a] == Refused(s1.procs[a].id, s1.procs[a].row, s1.procs[a].seen, s1.procs[a].key, s1.procs[a].bytes);
    RunUnmoved(r, second, s2, a);
  }

  // With any number of other actors in between, the refused session still gets
  // back its own row and bytes, and the object is gone.
  lemma RefusedSessionKeepsItsBytes(s: State, a: Actor, key: Key, first: seq<Event>, s1: State, second: seq<Event>, s2: State)
    requires Inv(s) && DoPublish(s, a, key).Some?
    requires Run(DoPublish(s, a, key).value, first, s1) && NoneBy(first, a)
    requires DoRefuseUpload(s1, a).Some?
    requires Run(DoRefuseUpload(s1, a).value, second, s2) && NoneBy(second, a)
    ensures DoRestore(s2, a).Some?
    ensures var s3 := DoRestore(s2, a).value;
            var id := s.procs[a].id;
            && SameAt(s.rows, s3.rows, id) && SameAt(s.staging, s3.staging, id)
            && key !in s3.objects && (forall f <- s3.files.Keys :: s3.files[f].key != key)
  {
    assert ProcOk(s, a, s.procs[a]);
    KeepsPublish(s, a, key);
    RefusedStillHolds(DoPublish(s, a, key).value, a, first, s1, second, s2);
    RestoreGivesBack(s2, a);
  }

  lemma RestoreGivesBack(s: State, a: Actor)
    requires Inv(s) && a in s.procs && s.procs[a].Refused?
    ensures DoRestore(s, a).Some?
    ensures var p, s' := s.procs[a], DoRestore(s, a).value;
            && p.id in s'.rows && s'.rows[p.id] == p.row && p.id in s'.staging && s'.staging[p.id] == p.bytes
            && p.key !in s'.objects && forall f <- s'.files.Keys :: s'.files[f].key != p.key
  {
    assert ProcOk(s, a, s.procs[a]);
    forall f <- s.files.Keys ensures s.files[f].key != s.procs[a].key { assert FileOk(s, f); }
  }

  // In every reachable state a target names at most one files row.
  lemma OneFilePerTarget(evs: seq<Event>, s: State, f: FileId, g: FileId)
    requires Run(Init(), evs, s) && f in s.files && g in s.files && s.files[f].target == s.files[g].target
    ensures f == g
  {
    Reachable(evs, s);
  }

  // No row is renamed or deleted.
  predicate RowsStay(evs: seq<Event>) {
    forall e <- evs :: !e.RenameFile? && !e.Settle?
  }

  predicate Taken(s: State, target: Target) {
    exists f <- s.files.Keys :: s.files[f].target == target
  }

  lemma StepStaysTaken(s: State, e: Event, target: Target)
    requires Next(s, e).Some? && Taken(s, target) && !e.RenameFile? && !e.Settle?
    ensures Taken(Next(s, e).value, target)
  {
    if WritesFiles(e) {
      WriteStaysTaken(s, e, target);
    } else if !e.Tick? {
      StepWrites(s, e);
    }
  }

  lemma WriteStaysTaken(s: State, e: Event, target: Target)
    requires Next(s, e).Some? && Taken(s, target) && (e.CommitUpload? || e.InsertFile? || e.Tombstone?)
    ensures Taken(Next(s, e).value, target)
  {
    var f :| f in s.files && s.files[f].target == target;
    assert f in Next(s, e).value.files && Next(s, e).value.files[f].target == target;
  }

  lemma {:induction false} StaysTaken(s: State, evs: seq<Event>, s': State, target: Target)
    requires Run(s, evs, s') && Taken(s, target) && RowsStay(evs)
    ensures Taken(s', target)
    decreases |evs|
  {
    if evs != [] {
      StepStaysTaken(s, evs[0], target);
      StaysTaken(Next(s, evs[0]).value, evs[1..], s', target);
    }
  }

  // Among sessions racing for one root and path only the first to commit becomes a file.
  lemma OneWinner(s: State, winner: Actor, id: UploadId, fid: FileId, evs: seq<Event>, s': State,
                  a: Actor, id': UploadId, fid': FileId)
    requires Next(s, CommitUpload(winner, id, fid)).Some?
    requires Run(Next(s, CommitUpload(winner, id, fid)).value, evs, s') && RowsStay(evs)
    requires a in s'.procs && s'.procs[a].Published? && s'.procs[a].row.target == s.procs[winner].row.target
    ensures Next(s', CommitUpload(a, id', fid')).None?
  {
    var s1 := Next(s, CommitUpload(winner, id, fid)).value;
    assert fid in s1.files && s1.files[fid].target == s.procs[winner].row.target;
    StaysTaken(s1, evs, s', s.procs[winner].row.target);
  }

  // --- the life of a row ---

  function Rank(status: Status): nat {
    match status
    case Active => 0
    case Cancelled => 1
    case CleanupPending => 2
    case Complete => 3
  }

  // How one event may change one row: nothing but the offset and the status
  // move, both forwards. It disappears by publication while active and
  // unexpired, or by cleanup once it is cleanup_pending and its staging file is gone.
  ghost predicate RowMoves(s: State, e: Event, s': State, id: UploadId) {
    && (id in s.rows && id in s'.rows ==>
          var r, r' := s.rows[id], s'.rows[id];
          && r' == r.(offset := r'.offset, status := r'.status)
          && r.offset <= r'.offset && Rank(r.status) <= Rank(r'.status) <= Rank(r.status) + 1)
    && (id in s.rows && id !in s'.rows ==>
          || (e.CommitUpload? && s.rows[id].status == Active && s.rows[id].expires > s.now && s.rows[id].offset == s.rows[id].length)
          || (e.DeleteRow? && s.rows[id].status == CleanupPending && id !in s.staging))
    && (id !in s.rows && id in s'.rows ==> e.InsertRow? && s'.rows[id].status == Active && s'.rows[id].offset == 0)
    && (id !in s.rows && id in s.accepted ==> id !in s'.rows)
  }

  lemma RowLifeOnUploads(s: State, e: Event, id: UploadId)
    requires Inv(s) && OnUploads(e) && WritesRows(e) && NextOnUploads(s, e).Some?
    ensures RowMoves(s, e, NextOnUploads(s, e).value, id)
  {
    assert ProcOk(s, e.a, s.procs[e.a]);
    assert id in s.rows ==> RowOk(s, id);
  }

  lemma StepRowLife(s: State, e: Event, id: UploadId)
    requires Inv(s) && Next(s, e).Some?
    ensures RowMoves(s, e, Next(s, e).value, id)
  {
    if !e.Tick? { StepWrites(s, e); }
    if WritesRows(e) {
      if OnUploads(e) {
        RowLifeOnUploads(s, e, id);
      } else {
        assert ProcOk(s, e.a, s.procs[e.a]);
      }
    }
  }

  lemma RowLife(evs: seq<Event>, s: State, e: Event, s': State, id: UploadId)
    requires LeadsTo(evs, s) && LeadsTo(evs + [e], s')
    ensures RowMoves(s, e, s', id)
  {
    LeadsToIsRun(evs, s);
    LeadsToIsRun(evs + [e], s');
    RunSplit(Init(), evs, s, [e], s');
    Reachable(evs, s);
    assert [e][1..] == [];
    StepRowLife(s, e, id);
  }

  lemma {:induction false} RunSplit(s: State, evs: seq<Event>, mid: State, more: seq<Event>, s': State)
    requires Run(s, evs, mid) && Run(s, evs + more, s')
    ensures Run(mid, more, s')
    decreases |evs|
  {
    if evs == [] {
      assert evs + more == more;
    } else {
      assert (evs + more)[1..] == evs[1..] + more;
      RunSplit(Next(s, evs[0]).value, evs[1..], mid, more, s');
    }
  }

  // The session had a row and has none now.
  predicate Gone(s: State, id: UploadId) {
    id in s.accepted && id !in s.rows
  }

  lemma StepKeepsAccepted(s: State, e: Event, id: UploadId)
    requires Inv(s) && Next(s, e).Some? && id in s.accepted
    ensures id in Next(s, e).value.accepted
  {
    if !e.Tick? {
      StepWrites(s, e);
    }
  }

  // A session that is gone never comes back.
  lemma {:induction false} GoneForever(s: State, evs: seq<Event>, s': State, id: UploadId)
    requires Inv(s) && Run(s, evs, s') && Gone(s, id)
    ensures Gone(s', id)
    decreases |evs|
  {
    if evs != [] {
      StepKeeps(s, evs[0]);
      StepRowLife(s, evs[0], id);
      StepKeepsAccepted(s, evs[0], id);
      GoneForever(Next(s, evs[0]).value, evs[1..], s', id);
    }
  }

  // No session is being created under id, and none was.
  predicate Unclaimed(s: State, id: UploadId) {
    id in s.issued && id !in s.rows && forall a <- s.procs.Keys :: s.procs[a].Creating? ==> s.procs[a].id != id
  }

  lemma NoRowFor(s: State, e: Event, id: UploadId)
    requires Inv(s) && Next(s, e).Some? && Unclaimed(s, id)
    ensures id !in Next(s, e).value.rows
  {
    StepRowLife(s, e, id);
    if e.InsertRow? {
      assert DoInsertRow(s, e.a).Some?;
    }
  }

  lemma NoCreateFor(s: State, s': State, e: Event, x: UploadId, id: UploadId)
    requires Unclaimed(s, id) && !e.Tick? && !Ambient(e) && OnlyAt(s, s', e.a, x) && Writes(s, e, s')
    requires e.CreatePart? && e.a in s'.procs && s'.procs[e.a].Creating? ==> s'.procs[e.a].id !in s.issued
    ensures forall b <- s'.procs.Keys :: s'.procs[b].Creating? ==> s'.procs[b].id != id
  {
    forall b <- s'.procs.Keys | s'.procs[b].Creating? ensures s'.procs[b].id != id {
      assert b != e.a ==> SameAt(s.procs, s'.procs, b);
    }
  }

  lemma StepUnclaimed(s: State, e: Event, id: UploadId)
    requires Inv(s) && Next(s, e).Some? && Unclaimed(s, id)
    ensures Unclaimed(Next(s, e).value, id)
  {
    var s' := Next(s, e).value;
    NoRowFor(s, e, id);
    if Ambient(e) {
      AmbientLeavesUploads(s, e);
    } else {
      StepLocal(s, e);
      StepWrites(s, e);
      var x: UploadId :| Local(s, s', e.a, x);
      if e.CreatePart? { CreatesFresh(s, e); }
      NoCreateFor(s, s', e, x, id);
    }
  }

  lemma CreatesFresh(s: State, e: Event)
    requires e.CreatePart? && Next(s, e).Some?
    ensures e.a in Next(s, e).value.procs && Next(s, e).value.procs[e.a].Creating?
    ensures Next(s, e).value.procs[e.a].id !in s.issued
  {
  }

  // A staging name that has no row, and no Create under way, belongs to no
  // session ever after: recovery may unlink it at any later moment.
  lemma {:induction false} OrphanStaysOrphan(s: State, evs: seq<Event>, s': State, id: UploadId)
    requires Inv(s) && Run(s, evs, s') && Unclaimed(s, id)
    ensures Unclaimed(s', id)
    decreases |evs|
  {
    if evs != [] {
      StepKeeps(s, evs[0]);
      StepUnclaimed(s, evs[0], id);
      OrphanStaysOrphan(Next(s, evs[0]).value, evs[1..], s', id);
    }
  }

  // What recovery unlinks as an orphan is never the staging file of a session,
  // then or later, provided that no Create of it was under way at the check.
  lemma OrphanRemovalSparesSessions(s: State, a: Actor, id: UploadId, evs: seq<Event>, s': State)
    requires Inv(s) && a in s.procs && s.procs[a] == Locked(id, CleanOp(IfOrphan)) && id in s.staging
    requires forall b <- s.procs.Keys :: s.procs[b].Creating? ==> s.procs[b].id != id
    requires AfterRead(s, id, CleanOp(IfOrphan)) == Some(Orphaned(id))
    requires Run(DoReadRow(s, a).value, evs, s')
    ensures Unclaimed(s', id)
  {
    assert Unclaimed(s, id);
    KeepsReadRow(s, a);
    StepUnclaimed(s, ReadRow(a), id);
    OrphanStaysOrphan(DoReadRow(s, a).value, evs, s', id);
  }
}
