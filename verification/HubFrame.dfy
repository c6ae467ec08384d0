// What the events of other actors leave alone, and how each row may change.
module HubFrame {
  import opened Wrappers
  import opened Bytes
  import opened Hub
  import opened HubInvariant

  // --- which statement writes which table ---

  predicate WritesRows(e: Event) {
    e.InsertRow? || e.CommitWrite? || e.CommitUpload? || e.MarkStatus? || e.DeleteRow?
  }

  predicate WritesFiles(e: Event) {
    e.CommitUpload? || e.InsertFile? || e.RenameFile? || e.Tombstone? || e.Settle?
  }

  predicate WritesDirty(e: Event) {
    e.Truncate? || e.CopyBytes? || e.Rollback? || e.CommitWrite? || e.Hash?
  }

  // Events that belong to no actor's program.
  predicate Ambient(e: Event) {
    e.Tick? || e.LeakObject? || e.RenameFile? || e.AddDirectory? || e.DropDirectory?
  }

  // A request that carries a body, from its arrival to its commit.
  predicate CarriesBody(p: Proc) {
    ((p.Waiting? || p.Locked?) && p.op.WriteOp?) || p.Truncating? || p.Copying?
  }

  // Which tables an event writes, what a writer that is copying can do next, and
  // where bodies and new sessions come from.
  ghost predicate Writes(s: State, e: Event, s': State)
    requires !e.Tick?
  {
    && (!WritesRows(e) ==> s'.rows == s.rows)
    && (!e.InsertRow? && !e.CommitWrite? ==> s'.accepted == s.accepted)
    && (!WritesFiles(e) ==> s'.files == s.files)
    && (!WritesDirty(e) ==> s'.dirty == s.dirty)
    && (e.a in s.procs && s.procs[e.a].Copying? && !Ambient(e) ==>
          e.Quit? || e.CopyBytes? || e.Rollback? || e.CommitWrite?)
    && (e.a in s'.procs && CarriesBody(s'.procs[e.a]) && !Ambient(e) ==>
          e.Begin? || e.Acquire? || e.ReadRow? || e.Truncate? || e.CopyBytes?)
    && (e.a in s'.procs && s'.procs[e.a].Creating? && !Ambient(e) ==> e.CreatePart?)
  }

  lemma WritesOnSessions(s: State, e: Event)
    requires OnUploads(e) && NextOnUploads(s, e).Some?
    requires e.CreatePart? || e.InsertRow? || e.InsertRowFailed? || e.UndoCreate? || e.Begin? || e.Acquire?
    ensures Writes(s, e, NextOnUploads(s, e).value)
  {
  }

  lemma ReadKeepsLock(s: State, id: UploadId, op: Op)
    ensures AfterRead(s, id, op).Some? ==> LockOf(AfterRead(s, id, op).value) == Some(id)
  {
  }

  lemma WritesOnRead(s: State, e: Event)
    requires e.ReadRow? && DoReadRow(s, e.a).Some?
    ensures Writes(s, e, DoReadRow(s, e.a).value)
  {
    var next := AfterRead(s, s.procs[e.a].id, s.procs[e.a].op);
    ReadKeepsLock(s, s.procs[e.a].id, s.procs[e.a].op);
    assert DoReadRow(s, e.a).value == if next.None? then Leave(s, e.a) else Go(s, e.a, next.value);
  }

  lemma WritesOnBodies(s: State, e: Event)
    requires OnUploads(e) && NextOnUploads(s, e).Some?
    requires e.Truncate? || e.CopyBytes? || e.Rollback? || e.CommitWrite?
    ensures Writes(s, e, NextOnUploads(s, e).value)
  {
  }

  lemma WritesOnUploads(s: State, e: Event)
    requires OnUploads(e) && NextOnUploads(s, e).Some?
    ensures Writes(s, e, NextOnUploads(s, e).value)
  {
    if e.ReadRow? {
      WritesOnRead(s, e);
    } else if e.Truncate? || e.CopyBytes? || e.Rollback? || e.CommitWrite? {
      WritesOnBodies(s, e);
    } else if e.CreatePart? || e.InsertRow? || e.InsertRowFailed? || e.UndoCreate? || e.Begin? || e.Acquire? {
      WritesOnSessions(s, e);
    }
  }

  lemma WritesOnPublication(s: State, e: Event)
    requires OnPublication(e) && NextOnPublication(s, e).Some?
    ensures Writes(s, e, NextOnPublication(s, e).value)
  {
  }

  lemma WritesOnFiles(s: State, e: Event)
    requires OnFiles(e) && NextOnFiles(s, e).Some?
    ensures Writes(s, e, NextOnFiles(s, e).value)
  {
  }

  lemma StepWrites(s: State, e: Event)
    requires Next(s, e).Some? && !e.Tick?
    ensures Writes(s, e, Next(s, e).value)
  {
    if OnUploads(e) {
      WritesOnUploads(s, e);
    } else if OnPublication(e) {
      WritesOnPublication(s, e);
    } else if OnFiles(e) {
      WritesOnFiles(s, e);
    }
  }

  // --- what others leave alone ---

  // As me sees it: its place in its program, the session it has locked, the
  // object it has made and not recorded.
  ghost predicate Unmoved(s: State, s': State, me: Actor) {
    && s.now <= s'.now
    && SameAt(s.procs, s'.procs, me)
    && (me in s.procs && LockOf(s.procs[me]).Some? && LockOf(s.procs[me]).value in s.rows ==>
          var id := LockOf(s.procs[me]).value;
          && SameAt(s.rows, s'.rows, id) && SameAt(s.staging, s'.staging, id) && SameAt(s.accepted, s'.accepted, id)
          && (id in s.dirty <==> id in s'.dirty))
    && (forall k <- s.roles.Keys :: s.roles[k] == Pending(me) ==>
          k in s'.roles && s'.roles[k] == Pending(me) && SameAt(s.objects, s'.objects, k))
  }

  lemma LocalUnmoved(s: State, s': State, a: Actor, x: UploadId, me: Actor)
    requires Inv(s) && Local(s, s', a, x) && s.now <= s'.now && a != me
    ensures Unmoved(s, s', me)
  {
    if me in s.procs && LockOf(s.procs[me]).Some? && LockOf(s.procs[me]).value in s.rows {
      OtherSnapshot(s, s', a, x, me, LockOf(s.procs[me]).value);
    }
  }

  lemma StepLocal(s: State, e: Event)
    requires Inv(s) && Next(s, e).Some? && !Ambient(e)
    ensures Next(s, e).value.now == s.now
    ensures exists x: UploadId :: Local(s, Next(s, e).value, e.a, x)
  {
    if e.Quit? {
      KeepsQuit(s, e.a);
    } else if OnUploads(e) {
      UploadStepKeeps(s, e);
    } else if OnPublication(e) {
      PublishStepKeeps(s, e);
    } else {
      FileStepKeeps(s, e);
    }
  }

  lemma AmbientLeavesUploads(s: State, e: Event)
    requires Ambient(e) && Next(s, e).Some?
    ensures var s' := Next(s, e).value; Untouched(s, s') && s'.procs == s.procs && s.now <= s'.now
  {
  }

  lemma AmbientUnmoved(s: State, e: Event, me: Actor)
    requires Ambient(e) && Next(s, e).Some?
    ensures Unmoved(s, Next(s, e).value, me)
  {
    AmbientLeavesUploads(s, e);
  }

  lemma StepUnmoved(s: State, e: Event, me: Actor)
    requires Inv(s) && Next(s, e).Some? && (!By(e, me) || Ambient(e))
    ensures Unmoved(s, Next(s, e).value, me)
  {
    var s' := Next(s, e).value;
    if Ambient(e) {
      AmbientUnmoved(s, e, me);
    } else {
      StepLocal(s, e);
      var x: UploadId :| Local(s, s', e.a, x);
      LocalUnmoved(s, s', e.a, x, me);
    }
  }

  ghost predicate NoneBy(evs: seq<Event>, me: Actor) {
    forall e <- evs :: !By(e, me)
  }

  lemma {:induction false} RunUnmoved(s: State, evs: seq<Event>, s': State, me: Actor)
    requires Inv(s) && Run(s, evs, s') && NoneBy(evs, me)
    ensures Inv(s') && Unmoved(s, s', me)
    decreases |evs|
  {
    if evs != [] {
      var mid := Next(s, evs[0]).value;
      StepKeeps(s, evs[0]);
      StepUnmoved(s, evs[0], me);
      RunUnmoved(mid, evs[1..], s', me);
    }
  }

  lemma {:induction false} RunAppend(s: State, evs: seq<Event>, mid: State, evs': seq<Event>, s': State)
    requires Run(s, evs, mid) && Run(mid, evs', s')
    ensures Run(s, evs + evs', s')
    decreases |evs|
  {
    if evs == [] {
      assert evs + evs' == evs';
    } else {
      RunAppend(Next(s, evs[0]).value, evs[1..], mid, evs', s');
      assert (evs + evs')[1..] == evs[1..] + evs';
    }
  }

  // The methods over the hub carry "hist is a run of the machine that ends in s"
  // from call to call and hardly ever need to know more. If it stood there as
  // Run(Init(), hist, s), the verifier would unfold it, and with it Next over an
  // unknown event, at every call. So LeadsTo keeps it behind one more quantifier
  // whose only trigger is Look: the verifier opens it where Look(hist) is
  // written, which only LeadsToIsRun does, and passes it on as it is elsewhere.
  predicate Look(hist: seq<Event>) {
    true
  }

  // Run(Init(), hist, s), by LeadsToIsRun.
  ghost predicate LeadsTo(hist: seq<Event>, s: State) {
    forall h {:trigger Look(h)} :: h == hist && Look(h) ==> Run(Init(), h, s)
  }

  lemma LeadsToIsRun(hist: seq<Event>, s: State)
    ensures LeadsTo(hist, s) <==> Run(Init(), hist, s)
  {
    assert Look(hist);
  }
}
