// The browser's chunk loop against the server, over a network that loses,
// duplicates and reorders requests and replies.
module UploadClient {
  import opened Wrappers
  import opened Bytes
  import opened Hub
  import opened HubInvariant
  import opened HubFrame
  import opened UploadSafety

  // One selected file and the upload session made for it.
  datatype Item = Item(file: Data, chunk: nat, id: UploadId)

  // A PATCH request: Upload-Offset and body.
  datatype Patch = Patch(offset: nat, body: Data)

  predicate IsSlice(item: Item, p: Patch) {
    p.offset + |p.body| <= |item.file| && p.body == item.file[p.offset..p.offset + |p.body|]
  }

  function ChunkEnd(file: Data, chunk: nat, offset: nat): nat {
    if offset + chunk < |file| then offset + chunk else |file|
  }

  // The request the loop sends at an offset.
  function NextPatch(file: Data, chunk: nat, offset: nat): (p: Patch)
    requires offset <= |file|
    ensures p.offset == offset && p.body <= file[offset..]
    ensures |p.body| == chunk || (|p.body| < chunk && p.offset + |p.body| == |file|)
  {
    Patch(offset, file[offset..ChunkEnd(file, chunk, offset)])
  }

  // runs: the offset each concurrent run of the item is at. net: every PATCH
  // ever sent; the network may deliver any of them any number of times.
  datatype World = World(hub: State, runs: map<nat, nat>, net: set<Patch>)

  datatype Move =
    | Resume(r: nat)            // create or HEAD told the run the server's offset
    | Send(r: nat)
    | Advance(r: nat)           // a success reply came back
    | GiveUp(r: nat)            // an error, a lost reply, pause, cancel
    | Deliver(p: Patch, a: Actor)
    | Server(e: Event)          // anything else on the server, other sessions included

  predicate ForeignTo(item: Item, e: Event) {
    && (e.Begin? && e.id == item.id ==> !e.op.WriteOp?)
    && (e.CreatePart? && e.id == item.id ==> e.row.length == |item.file|)
  }

  ghost function NextWorld(item: Item, w: World, m: Move): Option<World> {
    match m
    case Resume(r) =>
      if item.id in w.hub.rows then Some(w.(runs := w.runs[r := w.hub.rows[item.id].offset])) else None
    case Send(r) =>
      if r in w.runs && w.runs[r] < |item.file| then
        Some(w.(net := w.net + {NextPatch(item.file, item.chunk, w.runs[r])}))
      else None
    case Advance(r) =>
      if r in w.runs && w.runs[r] < |item.file| then
        Some(w.(runs := w.runs[r := ChunkEnd(item.file, item.chunk, w.runs[r])]))
      else None
    case GiveUp(r) => Some(w.(runs := w.runs - {r}))
    case Deliver(p, a) =>
      var e := Begin(a, item.id, WriteOp(p.offset, p.body));
      if p in w.net && Next(w.hub, e).Some? then Some(w.(hub := Next(w.hub, e).value)) else None
    case Server(e) =>
      if ForeignTo(item, e) && Next(w.hub, e).Some? then Some(w.(hub := Next(w.hub, e).value)) else None
  }

  ghost predicate RunWorld(item: Item, w: World, moves: seq<Move>, w': World)
    decreases |moves|
  {
    if moves == [] then w' == w
    else
      var mid := NextWorld(item, w, moves[0]);
      mid.Some? && RunWorld(item, mid.value, moves[1..], w')
  }

  // --- the invariant ---

  // A request on the item's session that carries a body carries a slice at its offset.
  predicate BodyOk(item: Item, p: Proc) {
    match p
    case Waiting(id, WriteOp(offset, body)) => id == item.id ==> IsSlice(item, Patch(offset, body))
    case Locked(id, WriteOp(offset, body)) => id == item.id ==> IsSlice(item, Patch(offset, body))
    case Truncating(id, row, body) => id == item.id ==> IsSlice(item, Patch(row.offset, body))
    case Copying(id, row, body, _) => id == item.id ==> IsSlice(item, Patch(row.offset, body))
    case Creating(id, row) => id == item.id ==> row.length == |item.file|
    case _ => true
  }

  ghost predicate HubOk(item: Item, s: State) {
    && Inv(s)
    && (forall a <- s.procs.Keys :: BodyOk(item, s.procs[a]))
    && (item.id in s.rows ==> s.rows[item.id].length == |item.file|)
    && Flat(Accepted(s, item.id)) <= item.file
  }

  ghost predicate WorldOk(item: Item, w: World) {
    && HubOk(item, w.hub)
    && (forall r <- w.runs.Keys :: w.runs[r] <= |item.file|)
    && (forall p <- w.net :: IsSlice(item, p))
  }

  lemma ReadBody(item: Item, s: State, id: UploadId, op: Op)
    requires op.WriteOp? && id == item.id ==> IsSlice(item, Patch(op.offset, op.body))
    ensures AfterRead(s, id, op).Some? ==> BodyOk(item, AfterRead(s, id, op).value)
  {
  }

  lemma BodyReadsOn(item: Item, s: State, a: Actor)
    requires HubOk(item, s) && DoReadRow(s, a).Some?
    ensures var s' := DoReadRow(s, a).value; a in s'.procs ==> BodyOk(item, s'.procs[a])
  {
    assert BodyOk(item, s.procs[a]);
    var next := AfterRead(s, s.procs[a].id, s.procs[a].op);
    ReadBody(item, s, s.procs[a].id, s.procs[a].op);
    assert DoReadRow(s, a).value == if next.None? then Leave(s, a) else Go(s, a, next.value);
  }

  lemma BodyMovesOn(item: Item, s: State, e: Event)
    requires HubOk(item, s) && OnUploads(e) && NextOnUploads(s, e).Some? && ForeignTo(item, e)
    requires e.Begin? || e.Acquire? || e.Truncate? || e.CopyBytes? || e.CreatePart?
    ensures var s' := NextOnUploads(s, e).value;
            e.a in s'.procs ==> BodyOk(item, s'.procs[e.a])
  {
    assert e.a in s.procs ==> BodyOk(item, s.procs[e.a]);
  }

  lemma ActorBodyOk(item: Item, s: State, e: Event)
    requires HubOk(item, s) && Next(s, e).Some? && !Ambient(e) && ForeignTo(item, e)
    ensures e.a in Next(s, e).value.procs ==> BodyOk(item, Next(s, e).value.procs[e.a])
  {
    StepWrites(s, e);
    if e.ReadRow? {
      BodyReadsOn(item, s, e.a);
    } else if e.Begin? || e.Acquire? || e.Truncate? || e.CopyBytes? || e.CreatePart? {
      BodyMovesOn(item, s, e);
    }
  }

  lemma BodiesOk(item: Item, s: State, e: Event, s': State)
    requires HubOk(item, s) && Next(s, e) == Some(s')
    requires !Ambient(e) && e.a in s'.procs ==> BodyOk(item, s'.procs[e.a])
    ensures forall a <- s'.procs.Keys :: BodyOk(item, s'.procs[a])
  {
    forall a <- s'.procs.Keys ensures BodyOk(item, s'.procs[a]) {
      if !By(e, a) || Ambient(e) {
        StepUnmoved(s, e, a);
        assert SameAt(s.procs, s'.procs, a);
      }
    }
  }

  // The file bytes an accepted slice adds are the next ones.
  lemma CommitExtends(item: Item, s: State, e: Event)
    requires HubOk(item, s) && e.CommitWrite? && e.id == item.id && Next(s, e).Some?
    ensures Flat(Accepted(Next(s, e).value, item.id)) <= item.file
  {
    assert BodyOk(item, s.procs[e.a]);
    assert RowOk(s, item.id);
    FlatAppend(s.accepted[item.id], e.body);
    assert item.file[..e.offset] + item.file[e.offset..e.offset + |e.body|] == item.file[..e.offset + |e.body|];
  }

  lemma RowLengthKept(item: Item, s: State, e: Event)
    requires HubOk(item, s) && Next(s, e).Some?
    ensures item.id in Next(s, e).value.rows ==> Next(s, e).value.rows[item.id].length == |item.file|
  {
    StepRowLife(s, e, item.id);
    if e.InsertRow? {
      assert BodyOk(item, s.procs[e.a]);
    }
  }

  lemma ServerKeeps(item: Item, s: State, e: Event)
    requires HubOk(item, s) && Next(s, e).Some?
    requires !Ambient(e) && e.a in Next(s, e).value.procs ==> BodyOk(item, Next(s, e).value.procs[e.a])
    ensures HubOk(item, Next(s, e).value)
  {
    var s' := Next(s, e).value;
    StepKeeps(s, e);
    BodiesOk(item, s, e, s');
    RowLengthKept(item, s, e);
    StepAccepts(s, e, item.id);
    if e.CommitWrite? && e.id == item.id {
      CommitExtends(item, s, e);
    } else {
      assert Accepted(s, item.id) + [] == Accepted(s, item.id);
    }
  }

  lemma MoveKeepsWorld(item: Item, w: World, m: Move)
    requires WorldOk(item, w) && NextWorld(item, w, m).Some?
    ensures WorldOk(item, NextWorld(item, w, m).value)
  {
    match m
    case Resume(r) => assert RowOk(w.hub, item.id);
    case Deliver(p, a) => ServerKeeps(item, w.hub, Begin(a, item.id, WriteOp(p.offset, p.body)));
    case Server(e) =>
      if !Ambient(e) { ActorBodyOk(item, w.hub, e); }
      ServerKeeps(item, w.hub, e);
    case _ =>
  }

  lemma {:induction false} RunKeepsWorld(item: Item, w: World, moves: seq<Move>, w': World)
    requires WorldOk(item, w) && RunWorld(item, w, moves, w')
    ensures WorldOk(item, w')
    decreases |moves|
  {
    if moves != [] {
      MoveKeepsWorld(item, w, moves[0]);
      RunKeepsWorld(item, NextWorld(item, w, moves[0]).value, moves[1..], w');
    }
  }

  function Start(): World {
    World(Init(), map[], {})
  }

  // End to end: whatever the network does and however many runs of the item
  // compete, the committed bytes are a prefix of the file.
  lemma CommittedIsPrefixOfFile(item: Item, moves: seq<Move>, w: World)
    requires RunWorld(item, Start(), moves, w)
    ensures Flat(Accepted(w.hub, item.id)) <= item.file
    ensures item.id in w.hub.rows ==> w.hub.rows[item.id].offset == |Flat(Accepted(w.hub, item.id))|
  {
    RunKeepsWorld(item, Start(), moves, w);
    assert item.id in w.hub.rows ==> RowOk(w.hub, item.id);
  }

  // ... and completion succeeds only with the whole file committed, into an
  // object that begins with it and a row of its size.
  lemma CompletedHoldsTheFile(item: Item, moves: seq<Move>, w: World, a: Actor, fid: FileId)
    requires RunWorld(item, Start(), moves, w)
    requires DoCommitUpload(w.hub, a, item.id, fid).Some?
    ensures Flat(Accepted(w.hub, item.id)) == item.file
    ensures var s' := DoCommitUpload(w.hub, a, item.id, fid).value;
            && s'.files[fid].size == |item.file|
            && s'.files[fid].key in s'.objects && item.file <= s'.objects[s'.files[fid].key]
  {
    RunKeepsWorld(item, Start(), moves, w);
    assert ProcOk(w.hub, a, w.hub.procs[a]) && RowOk(w.hub, item.id);
  }

  // --- the loop itself ---

  datatype Progress = Queued | Uploading | Paused | Completed | Failing | Cancelled

  // Where a list of requests ends, if it starts at from.
  function EndOf(from: nat, sent: seq<Patch>): nat {
    if sent == [] then from else var p := sent[|sent| - 1]; p.offset + |p.body|
  }

  // Requests that each take up where the one before ends, a chunk or the rest
  // of the file at a time.
  predicate Tiles(file: Data, chunk: nat, from: nat, sent: seq<Patch>)
    decreases |sent|
  {
    sent == [] ||
      var most, p := sent[..|sent| - 1], sent[|sent| - 1];
      Tiles(file, chunk, from, most) && p.offset == EndOf(from, most) < |file| && p == NextPatch(file, chunk, p.offset)
  }

  function BodiesOf(sent: seq<Patch>): seq<Data>
    decreases |sent|
  {
    if sent == [] then [] else BodiesOf(sent[..|sent| - 1]) + [sent[|sent| - 1].body]
  }

  // Together they carry the file from the first offset to the end of the last.
  lemma {:induction false} TilesCover(file: Data, chunk: nat, from: nat, sent: seq<Patch>)
    requires from <= |file| && Tiles(file, chunk, from, sent)
    ensures from <= EndOf(from, sent) <= |file|
    ensures Flat(BodiesOf(sent)) == file[from..EndOf(from, sent)]
    decreases |sent|
  {
    if sent != [] {
      var most, p := sent[..|sent| - 1], sent[|sent| - 1];
      TilesCover(file, chunk, from, most);
      FlatAppend(BodiesOf(most), p.body);
      assert file[from..p.offset] + file[p.offset..EndOf(from, sent)] == file[from..EndOf(from, sent)];
    }
  }

  // Each is what the server expects of the item: a slice of the file at its own offset.
  lemma {:induction false} TilesAreSlices(item: Item, from: nat, sent: seq<Patch>)
    requires Tiles(item.file, item.chunk, from, sent)
    ensures forall p <- sent :: IsSlice(item, p)
    decreases |sent|
  {
    if sent != [] {
      var most, p := sent[..|sent| - 1], sent[|sent| - 1];
      TilesAreSlices(item, from, most);
      assert IsSlice(item, p) && sent == most + [p];
    }
  }

  lemma SendMore(file: Data, chunk: nat, from: nat, sent: seq<Patch>)
    requires Tiles(file, chunk, from, sent) && EndOf(from, sent) < |file|
    ensures var p := NextPatch(file, chunk, EndOf(from, sent));
            Tiles(file, chunk, from, sent + [p]) && EndOf(from, sent + [p]) == ChunkEnd(file, chunk, EndOf(from, sent))
  {
    assert (sent + [NextPatch(file, chunk, EndOf(from, sent))])[..|sent|] == sent;
  }

  // One selected file in the queue.
  class Selected {
    const file: Data
    // Every request succeeds, and nobody pauses or cancels.
    const smooth: bool
    var session: bool // an upload session has been created
    var chunk: nat
    var offset: nat
    var status: Progress
    ghost var sent: seq<Patch>
    ghost var completions: nat // complete requests sent

    constructor (file: Data, smooth: bool)
      ensures this.file == file && this.smooth == smooth && !session && offset == 0 && status == Queued && sent == [] && completions == 0
    {
      this.smooth := smooth;
      this.file, session, chunk, offset, status, sent, completions := file, false, 1, 0, Queued, [], 0;
    }

    // pause and cancel run while a request is awaited.
    method Awaited()
      modifies this`status
      ensures status == old(status) || (old(status) == Uploading && (status == Paused || status == Progress.Cancelled))
      ensures smooth ==> status == old(status)
    {
      var paused: bool := *;
      var cancelled: bool := *;
      if !smooth && status == Uploading && (paused || cancelled) {
        status := if cancelled then Progress.Cancelled else Paused;
      }
    }

    // The reply to a request: a success, or an error or none at all.
    method Reply() returns (ok: bool)
      modifies this`status
      ensures status == old(status) || (old(status) == Uploading && (status == Paused || status == Progress.Cancelled))
      ensures smooth ==> ok && status == old(status)
    {
      Awaited();
      ok :| smooth ==> ok;
    }

    // The server's answer to create or HEAD: where it wants the next byte, and
    // for a new session its chunk size, which is positive.
    method Ask() returns (ok: bool)
      modifies this`session, this`chunk, this`offset, this`status
      ensures status == old(status) || (old(status) == Uploading && (status == Paused || status == Progress.Cancelled))
      ensures (ok ==> session && offset <= |file|) && (chunk > 0 || chunk == old(chunk))
      ensures !ok ==> offset == old(offset)
      ensures smooth ==> ok && status == old(status)
    {
      ok := Reply();
      if ok {
        if !session {
          var size: nat :| size > 0;
          session, chunk := true, size;
        }
        var at: nat :| at <= |file|;
        offset := at;
      }
    }

    // run: from the server's offset on, one chunk after the other, each at its
    // own offset; complete goes out only after the reply to the last of them.
    method Run() returns (ghost from: nat, ghost part: seq<Patch>)
      requires chunk > 0
      modifies this
      ensures chunk > 0 && sent == old(sent) + part
      ensures from <= |file| && Tiles(file, chunk, from, part)
      ensures old(status) == Progress.Cancelled ==> status == Progress.Cancelled && part == [] && completions == old(completions)
      ensures old(completions) <= completions <= old(completions) + 1
      ensures completions > old(completions) ==> offset == |file| && Flat(BodiesOf(part)) == file[from..]
      ensures status == Completed && old(status) != Progress.Cancelled ==> completions == old(completions) + 1
      ensures smooth && old(status) != Progress.Cancelled ==>
                status == Completed && completions == old(completions) + 1 && EndOf(from, part) == |file|
    {
      from, part := 0, [];
      if status == Progress.Cancelled {
        return;
      }
      status := Uploading;
      var ok := Ask();
      if !ok {
        Fail();
        return;
      }
      from := offset;
      while offset < |file|
        invariant chunk > 0 && from <= offset <= |file| && offset == EndOf(from, part)
        invariant Tiles(file, chunk, from, part) && sent == old(sent) + part
        invariant completions == old(completions) && status in {Uploading, Paused, Progress.Cancelled}
        invariant smooth ==> status == Uploading
        decreases |file| - offset
      {
        if status != Uploading {
          return;
        }
        var end := if offset + chunk < |file| then offset + chunk else |file|;
        SendMore(file, chunk, from, part);
        part := part + [NextPatch(file, chunk, offset)];
        sent := old(sent) + part;
        ok := Reply();
        if !ok {
          Fail();
          return;
        }
        offset := end;
      }
      TilesCover(file, chunk, from, part);
      if status != Uploading {
        return;
      }
      completions := completions + 1;
      ok := Reply();
      if !ok {
        Fail();
        return;
      }
      status := Completed;
    }

    // The catch clause.
    method Fail()
      modifies this`status
      ensures status == if old(status) in {Paused, Progress.Cancelled} then old(status) else Failing
    {
      if status != Paused && status != Progress.Cancelled {
        status := Failing;
      }
    }
  }
}
