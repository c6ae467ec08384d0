// Manager.Recover: one bounded pass that reconciles session rows with staging
// files, for real or as a dry run.
module UploadRecovery {
  import opened Wrappers
  import opened Bytes
  import opened Hub
  import opened HubInvariant
  import opened HubFrame
  import opened UploadSafety
  import opened HubStore
  import opened UploadManager

  datatype Report = Report(checked: nat, kept: nat, cancelled: nat, orphans: nat)

  // --- the rows a pass reads ---

  ghost predicate Least(keys: set<UploadId>, id: UploadId) {
    id in keys && forall k <- keys :: id <= k
  }

  lemma {:induction false} HasLeast(keys: set<UploadId>)
    requires keys != {}
    ensures exists id :: Least(keys, id)
  {
    var id :| id in keys;
    if keys != {id} {
      HasLeast(keys - {id});
      var least :| Least(keys - {id}, least);
      var m := if id < least then id else least;
      assert forall k <- keys :: k == id || k in keys - {id};
      assert Least(keys, m);
    } else {
      assert Least(keys, id);
    }
  }

  predicate Increasing(ids: seq<UploadId>) {
    forall i, j :: 0 <= i < j < |ids| ==> ids[i] < ids[j]
  }

  // The answer to ORDER BY id LIMIT limit.
  predicate IsPage(keys: set<UploadId>, limit: nat, page: seq<UploadId>) {
    && Increasing(page)
    && (forall id <- page :: id in keys)
    && |page| == (if |keys| < limit then |keys| else limit)
    && (forall id <- keys :: id in page || forall k <- page :: k < id)
  }

  lemma PageStartsLeast(keys: set<UploadId>, limit: nat, page: seq<UploadId>)
    requires IsPage(keys, limit, page) && page != []
    ensures Least(keys, page[0])
    ensures IsPage(keys - {page[0]}, limit - 1, page[1..])
  {
    assert page[0] in page && page[0] in keys;
    forall k <- keys ensures page[0] <= k {
      if k in page {
        var i :| 0 <= i < |page| && page[i] == k;
      }
    }
    var rest := page[1..];
    forall id <- rest ensures id in keys - {page[0]} {
      var i :| 0 <= i < |rest| && rest[i] == id;
      assert page[i + 1] == id && page[0] < page[i + 1];
    }
    forall id <- keys - {page[0]} ensures id in rest || forall k <- rest :: k < id {
      assert page == [page[0]] + rest;
      assert forall k <- rest :: k in page;
    }
  }

  // Two reads of one table give the same page.
  lemma {:induction false} PageIsUnique(keys: set<UploadId>, limit: nat, p: seq<UploadId>, q: seq<UploadId>)
    requires IsPage(keys, limit, p) && IsPage(keys, limit, q)
    ensures p == q
    decreases |p|
  {
    if p != [] {
      PageStartsLeast(keys, limit, p);
      PageStartsLeast(keys, limit, q);
      PageIsUnique(keys - {p[0]}, limit - 1, p[1..], q[1..]);
      assert p == [p[0]] + p[1..] && q == [q[0]] + q[1..];
    }
  }

  // --- what a pass finds, if nothing fails and nobody interferes ---

  function Kept(s: State, ids: seq<UploadId>): (n: nat)
    ensures n <= |ids|
  {
    if ids == [] then 0
    else Kept(s, ids[..|ids| - 1]) + if Recoverable(s, ids[|ids| - 1]) then 1 else 0
  }

  function Orphans(rows: map<UploadId, Row>, names: seq<UploadId>): nat {
    if names == [] then 0
    else Orphans(rows, names[..|names| - 1]) + if names[|names| - 1] in rows then 0 else 1
  }

  function Bad(s: State, ids: seq<UploadId>): set<UploadId> {
    set id | id in ids && !Recoverable(s, id)
  }

  function Rowless(rows: map<UploadId, Row>, names: seq<UploadId>): set<UploadId> {
    set id | id in names && id !in rows
  }

  lemma {:induction false} KeptCounts(s: State, ids: seq<UploadId>)
    requires Increasing(ids)
    ensures Kept(s, ids) == |set id | id in ids && Sound(s, id)|
  {
    if ids != [] {
      var most, last := ids[..|ids| - 1], ids[|ids| - 1];
      KeptCounts(s, most);
      assert ids == most + [last] && last !in most;
      var before := set id | id in most && Sound(s, id);
      RecoverableIsSound(s, last);
      assert (set id | id in ids && Sound(s, id)) == if Sound(s, last) then before + {last} else before;
    }
  }

  lemma {:induction false} OrphansCount(rows: map<UploadId, Row>, names: seq<UploadId>)
    ensures Orphans(rows, names) == |set i | 0 <= i < |names| && names[i] !in rows|
  {
    if names != [] {
      var n := |names| - 1;
      var most := names[..n];
      OrphansCount(rows, most);
      var before := set i | 0 <= i < |most| && most[i] !in rows;
      assert (set i | 0 <= i < |names| && names[i] !in rows) == if names[n] in rows then before else before + {n};
    }
  }

  // The report of a pass over page and names, a dry run and a real one alike.
  function Tally(s: State, page: seq<UploadId>, names: seq<UploadId>): Report {
    var orphans := Orphans(s.rows, names);
    Report(|page| + orphans, Kept(s, page), |page| - Kept(s, page), orphans)
  }

  // --- what a pass promises whoever interferes ---

  // While hist grew to hist', the session was once live with all its bytes.
  ghost predicate WasRecoverable(hist: seq<Event>, hist': seq<Event>, id: UploadId) {
    exists h, t :: hist <= h <= hist' && LeadsTo(h, t) && Sound(t, id)
  }

  // Active, unexpired, with a staging file of exactly Offset bytes.
  predicate Sound(s: State, id: UploadId) {
    && id in s.rows && s.rows[id].status == Active && s.rows[id].expires > s.now
    && id in s.staging && |s.staging[id]| == s.rows[id].offset
  }

  lemma RecoverableIsSound(s: State, id: UploadId)
    ensures Recoverable(s, id) <==> Sound(s, id)
  {
  }

  // The row is gone for good, or was found worth keeping.
  ghost predicate Reconciled(s: State, hist: seq<Event>, hist': seq<Event>, id: UploadId) {
    Gone(s, id) || WasRecoverable(hist, hist', id)
  }

  lemma StaysReconciled(hist: seq<Event>, h: seq<Event>, s: State, h': seq<Event>, s': State, id: UploadId)
    requires LeadsTo(h, s) && LeadsTo(h', s') && hist <= h <= h' && Reconciled(s, hist, h, id)
    ensures Reconciled(s', hist, h', id)
  {
    if Gone(s, id) {
      LeadsToIsRun(h, s);
      LeadsToIsRun(h', s');
      LeadsToInv(h, s);
      assert h + h'[|h|..] == h';
      RunSplit(Init(), h, s, h'[|h|..], s');
      GoneForever(s, h'[|h|..], s', id);
    } else {
      var g, t :| hist <= g <= h && LeadsTo(g, t) && Sound(t, id);
      assert hist <= g <= h';
    }
  }

  predicate Removals(evs: seq<Event>) {
    forall e <- evs :: e.DeleteRow? || e.UnlinkOrphan?
  }

  // The outcomes own grew by at most n removals.
  predicate GrewBy(own: seq<Event>, own': seq<Event>, n: int) {
    own <= own' && Removals(own'[|own|..]) && |own'| <= |own| + n
  }

  lemma GrowMore(own: seq<Event>, own': seq<Event>, own'': seq<Event>, n: int, k: int)
    requires GrewBy(own, own', n) && GrewBy(own', own'', k)
    ensures GrewBy(own, own'', n + k)
  {
    assert own''[|own|..] == own'[|own|..] + own''[|own'|..];
  }

  class Recovery {
    const manager: Manager
    const hub: Store

    constructor (manager: Manager)
      ensures this.manager == manager && hub == manager.hub
    {
      this.manager := manager;
      hub := manager.hub;
    }

    ghost predicate Valid()
      reads hub
    {
      hub == manager.hub && hub.Valid()
    }

    method UploadSessions(limit: nat) returns (page: seq<UploadId>)
      ensures IsPage(hub.rows.Keys, limit, page)
      ensures Increasing(page) && |page| <= limit && forall id <- page :: id in hub.rows
    {
      page := [];
      var rest := hub.rows.Keys;
      while rest != {} && |page| < limit
        invariant Increasing(page) && |page| <= limit
        invariant rest <= hub.rows.Keys && |page| + |rest| == |hub.rows.Keys|
        invariant forall id <- page :: id in hub.rows.Keys && forall k <- rest :: id < k
        invariant forall id <- hub.rows.Keys :: id in page || id in rest
        decreases rest
      {
        HasLeast(rest);
        var id :| id in rest && forall k <- rest :: id <= k;
        assert forall i :: 0 <= i < |page| ==> page[i] in page;
        page := page + [id];
        rest := rest - {id};
      }
    }

    // At most limit staging names, in whatever order the directory gives them.
    method StagingNames(limit: int) returns (names: seq<UploadId>)
      ensures |names| <= (if limit <= 0 then 0 else limit)
      ensures forall id <- names :: id in hub.staging
    {
      names := [];
      var rest := hub.staging.Keys;
      while rest != {} && |names| < limit
        invariant rest <= hub.staging.Keys && (limit <= 0 ==> names == []) && (limit > 0 ==> |names| <= limit)
        invariant forall id <- names :: id in hub.staging
        decreases rest
      {
        var id :| id in rest;
        names := names + [id];
        rest := rest - {id};
        var enough: bool := *; // other directory entries count towards the limit
        if enough {
          return;
        }
      }
    }

    method ListNames(me: Actor, limit: int) returns (names: seq<UploadId>, failed: bool)
      requires Valid() && me !in hub.s.procs
      modifies hub
      ensures Valid() && old(hub.hist) <= hub.hist && me !in hub.s.procs && hub.Own(me) == old(hub.Own(me))
      ensures |names| <= (if limit <= 0 then 0 else limit)
      ensures hub.quiet ==> !failed && hub.s == old(hub.s) && forall id <- names :: id in hub.staging
    {
      hub.Yield(me);
      names := StagingNames(limit);
      failed := hub.Fault();
    }

    // One row of a real run. A row that cannot be read back is cleaned up, even
    // if it is only the opening of its file that failed.
    method CheckRow(me: Actor, id: UploadId) returns (kept: bool, err: Option<Error>)
      requires Valid() && me !in hub.s.procs
      modifies hub
      ensures Valid() && old(hub.hist) <= hub.hist && me !in hub.s.procs
      ensures err.None? && kept ==>
                && Recoverable(hub.s, id) && hub.Own(me) == old(hub.Own(me))
                && id in hub.rows && hub.rows[id].status == Active && hub.rows[id].expires > hub.now
                && id in hub.staging && |hub.staging[id]| == hub.rows[id].offset
      ensures err.None? && !kept ==> id !in hub.rows && hub.Own(me) == old(hub.Own(me)) + [DeleteRow(me)]
      ensures err == Some(NotFound) ==> id !in hub.rows
      ensures err.Some? ==> hub.Own(me) == old(hub.Own(me))
      ensures hub.quiet && old(hub.s).procs == map[] && id in old(hub.rows) ==>
                && err.None? && (kept <==> Recoverable(old(hub.s), id)) && Elsewhere(old(hub.s), hub.s)
                && hub.rows == (if kept then old(hub.rows) else old(hub.rows) - {id})
                && hub.staging == (if kept then old(hub.staging) else old(hub.staging) - {id})
                && hub.s.procs == map[]
    {
      kept := false;
      var unreadable := hub.Fault();
      if unreadable {
        err := manager.Cancel(me, id);
        return;
      }
      var row, at, missing := manager.Enter(me, id, CleanOp(IfBroken));
      if missing.Some? {
        return false, missing;
      }
      if IsLive(row.value, hub.now) && id in hub.staging && |hub.staging[id]| == row.value.offset {
        assert hub.quiet && old(hub.s).procs == map[] ==> hub.s.procs.Keys == {};
        return true, None;
      }
      hub.NotComplete(id);
      err := manager.CleanupLocked(me, id, row.value);
    }

    // A row that has vanished counts as cancelled.
    method CountRow(me: Actor, id: UploadId) returns (kept: bool, err: Option<Error>)
      requires Valid() && me !in hub.s.procs
      modifies hub
      ensures Valid() && old(hub.hist) <= hub.hist && me !in hub.s.procs
      ensures GrewBy(old(hub.Own(me)), hub.Own(me), if kept || err.Some? then 0 else 1)
      ensures err.None? ==> if kept then Recoverable(hub.s, id) else id !in hub.rows
      ensures hub.quiet && old(hub.s).procs == map[] && id in old(hub.rows) ==>
                && err.None? && (kept <==> Recoverable(old(hub.s), id)) && Elsewhere(old(hub.s), hub.s)
                && hub.rows == (if kept then old(hub.rows) else old(hub.rows) - {id})
                && hub.staging == (if kept then old(hub.staging) else old(hub.staging) - {id})
                && hub.s.procs == map[]
    {
      kept, err := CheckRow(me, id);
      if err.Some? {
        kept := false;
        err := if err == Some(NotFound) then None else err;
      }
    }

    // The real run over a page that was read when h had led to s0.
    method CheckRows(me: Actor, page: seq<UploadId>, ghost h: seq<Event>, ghost s0: State)
      returns (kept: nat, cancelled: nat, err: Option<Error>)
      requires Valid() && me !in hub.s.procs && Increasing(page)
      requires LeadsTo(h, s0) && h <= hub.hist && forall id <- page :: id in s0.rows
      modifies hub
      ensures Valid() && old(hub.hist) <= hub.hist && me !in hub.s.procs
      ensures kept + cancelled <= |page| && (err.None? ==> kept + cancelled == |page|)
      ensures GrewBy(old(hub.Own(me)), hub.Own(me), cancelled)
      ensures err.None? ==> Settled(h, hub.s, hub.hist, page, |page|)
      ensures hub.quiet && s0 == old(hub.s) && s0.procs == map[] ==> err.None? && Passed(s0, hub.s, page, |page|, kept)
    {
      kept, cancelled, err := 0, 0, None;
      ghost var alone := hub.quiet && s0 == hub.s && s0.procs == map[];
      for i := 0 to |page|
        invariant Valid() && h <= hub.hist && old(hub.hist) <= hub.hist && me !in hub.s.procs && kept + cancelled == i
        invariant GrewBy(old(hub.Own(me)), hub.Own(me), cancelled)
        invariant Settled(h, hub.s, hub.hist, page, i)
        invariant alone ==> Passed(s0, hub.s, page, i, kept)
      {
        ghost var before := hub.Own(me);
        var good, failed := NextRow(me, page, i, h, s0, alone, kept);
        if failed.Some? {
          GrowMore(old(hub.Own(me)), before, hub.Own(me), cancelled, 0);
          return kept, cancelled, failed;
        }
        GrowMore(old(hub.Own(me)), before, hub.Own(me), cancelled, if good then 0 else 1);
        kept := kept + if good then 1 else 0;
        cancelled := cancelled + if good then 0 else 1;
      }
    }

    method NextRow(me: Actor, page: seq<UploadId>, i: nat, ghost h: seq<Event>, ghost s0: State, ghost alone: bool, ghost kept: nat)
      returns (good: bool, failed: Option<Error>)
      requires Valid() && me !in hub.s.procs && i < |page| && Increasing(page)
      requires LeadsTo(h, s0) && h <= hub.hist && page[i] in s0.rows && Settled(h, hub.s, hub.hist, page, i)
      requires alone ==> hub.quiet && s0.procs == map[] && Passed(s0, hub.s, page, i, kept)
      modifies hub
      ensures Valid() && old(hub.hist) <= hub.hist && me !in hub.s.procs
      ensures GrewBy(old(hub.Own(me)), hub.Own(me), if good || failed.Some? then 0 else 1)
      ensures failed.None? ==> Settled(h, hub.s, hub.hist, page, i + 1)
      ensures alone ==> failed.None? && Passed(s0, hub.s, page, i + 1, kept + if good then 1 else 0)
    {
      var stopped := hub.Fault();
      if stopped {
        return false, Some(Broken);
      }
      ghost var h1, s1 := hub.hist, hub.s;
      if alone {
        NotYetChecked(s0, s1, page, i);
      }
      good, failed := CountRow(me, page[i]);
      if failed.None? {
        SettleOne(h, s0, h1, s1, hub.hist, hub.s, page, i);
        if alone {
          PassOne(s0, s1, hub.s, page, i, kept, good);
        }
      }
    }

    // The same look at a row as a dry run takes it: no lock, and the row as listed.
    method PeekRow(id: UploadId, row: Row) returns (kept: bool)
      ensures hub.quiet ==> (kept <==> IsLive(row, hub.now) && id in hub.staging && |hub.staging[id]| == row.offset)
    {
      var unreadable := hub.Fault();
      kept := !unreadable && row.status == Active && row.expires > hub.now && id in hub.staging && |hub.staging[id]| == row.offset;
    }

    method PeekRows(me: Actor, page: seq<UploadId>, listed: map<UploadId, Row>) returns (kept: nat, cancelled: nat, err: Option<Error>)
      requires Valid() && me !in hub.s.procs && forall id <- page :: id in listed
      modifies hub
      ensures Valid() && old(hub.hist) <= hub.hist && me !in hub.s.procs && hub.Own(me) == old(hub.Own(me))
      ensures kept + cancelled <= |page| && (err.None? ==> kept + cancelled == |page|)
      ensures hub.quiet ==> hub.s == old(hub.s)
      ensures hub.quiet && listed == old(hub.rows) ==> err.None? && kept == Kept(old(hub.s), page)
    {
      kept, cancelled, err := 0, 0, None;
      for i := 0 to |page|
        invariant Valid() && old(hub.hist) <= hub.hist && me !in hub.s.procs && hub.Own(me) == old(hub.Own(me))
        invariant kept + cancelled == i && (hub.quiet ==> hub.s == old(hub.s))
        invariant hub.quiet && listed == old(hub.rows) ==> kept == Kept(old(hub.s), page[..i])
      {
        hub.Yield(me);
        var stopped := hub.Fault();
        if stopped {
          return kept, cancelled, Some(Broken);
        }
        var good := PeekRow(page[i], listed[page[i]]);
        assert page[..i + 1][..i] == page[..i];
        kept := kept + if good then 1 else 0;
        cancelled := cancelled + if good then 0 else 1;
      }
      assert page[..|page|] == page;
    }

    // A staging name outside the page. It counts once it has no row, and as an
    // orphan if it still has none under its lock; only then is it unlinked.
    method CheckName(me: Actor, id: UploadId, dryRun: bool) returns (checked: bool, orphan: bool, err: Option<Error>)
      requires Valid() && me !in hub.s.procs
      modifies hub
      ensures Valid() && old(hub.hist) <= hub.hist && me !in hub.s.procs
      ensures orphan ==> checked
      ensures GrewBy(old(hub.Own(me)), hub.Own(me), if orphan then 1 else 0)
      ensures dryRun ==> hub.Own(me) == old(hub.Own(me))
      ensures hub.quiet && old(hub.s).procs == map[] ==>
                && err.None? && (checked <==> orphan) && (orphan <==> id !in old(hub.rows))
                && hub.rows == old(hub.rows) && Elsewhere(old(hub.s), hub.s) && hub.s.procs == map[]
                && hub.staging == if orphan && !dryRun then old(hub.staging) - {id} else old(hub.staging)
    {
      checked, orphan := false, false;
      var row;
      row, err := hub.UploadSessionByID(id);
      if err != Some(NotFound) {
        return;
      }
      checked := true;
      orphan, err := CheckUnderLock(me, id, dryRun);
    }

    method CheckUnderLock(me: Actor, id: UploadId, dryRun: bool) returns (orphan: bool, err: Option<Error>)
      requires Valid() && me !in hub.s.procs
      modifies hub
      ensures Valid() && old(hub.hist) <= hub.hist && me !in hub.s.procs
      ensures GrewBy(old(hub.Own(me)), hub.Own(me), if orphan then 1 else 0)
      ensures dryRun ==> hub.Own(me) == old(hub.Own(me))
      ensures hub.quiet && old(hub.s).procs == map[] ==>
                && err.None? && (orphan <==> id !in old(hub.rows))
                && hub.rows == old(hub.rows) && Elsewhere(old(hub.s), hub.s) && hub.s.procs == map[]
                && hub.staging == if orphan && !dryRun then old(hub.staging) - {id} else old(hub.staging)
    {
      var ok := hub.LockStagingLifecycle(me, id, CleanOp(IfOrphan));
      if !ok {
        return false, Some(Broken);
      }
      orphan, err := CheckLocked(me, id, dryRun);
      assert hub.quiet && old(hub.s).procs == map[] ==> hub.s.procs == map[];
    }

    method CheckLocked(me: Actor, id: UploadId, dryRun: bool) returns (orphan: bool, err: Option<Error>)
      requires Valid() && me in hub.s.procs && hub.s.procs[me] == Locked(id, CleanOp(IfOrphan))
      modifies hub
      ensures Valid() && old(hub.hist) <= hub.hist && hub.s.procs == old(hub.s).procs - {me}
      ensures GrewBy(old(hub.Own(me)), hub.Own(me), if orphan then 1 else 0)
      ensures dryRun ==> hub.Own(me) == old(hub.Own(me))
      ensures orphan && !dryRun && err.None? ==> id !in hub.staging
      ensures hub.quiet ==>
                && err.None? && (orphan <==> id !in old(hub.rows)) && hub.rows == old(hub.rows) && Elsewhere(old(hub.s), hub.s)
                && hub.staging == if orphan && !dryRun then old(hub.staging) - {id} else old(hub.staging)
    {
      var row;
      ghost var next;
      row, next, err := hub.ReadLocked(me, id, CleanOp(IfOrphan));
      if err != Some(NotFound) {
        return false, err;
      }
      if dryRun {
        hub.Return(me);
        return true, None;
      }
      var ok := hub.RemoveOrphan(me, id);
      return true, if ok then None else Some(Broken);
    }

    // One staging name; rows of the page have been dealt with.
    method CheckUnlessSeen(me: Actor, id: UploadId, page: seq<UploadId>, dryRun: bool)
      returns (checked: bool, orphan: bool, err: Option<Error>)
      requires Valid() && me !in hub.s.procs
      modifies hub
      ensures Valid() && old(hub.hist) <= hub.hist && me !in hub.s.procs
      ensures orphan ==> checked
      ensures GrewBy(old(hub.Own(me)), hub.Own(me), if orphan then 1 else 0)
      ensures dryRun ==> hub.Own(me) == old(hub.Own(me))
      ensures hub.quiet && old(hub.s).procs == map[] ==>
                && err.None? && (checked <==> orphan) && (orphan <==> id !in page && id !in old(hub.rows))
                && hub.rows == old(hub.rows) && Elsewhere(old(hub.s), hub.s) && hub.s.procs == map[]
                && hub.staging == if orphan && !dryRun then old(hub.staging) - {id} else old(hub.staging)
    {
      if id in page {
        return false, false, None;
      }
      var stopped := hub.Fault();
      if stopped {
        return false, false, Some(Broken);
      }
      checked, orphan, err := CheckName(me, id, dryRun);
    }

    method CheckNames(me: Actor, names: seq<UploadId>, page: seq<UploadId>, dryRun: bool, ghost rows0: map<UploadId, Row>)
      returns (checked: nat, orphans: nat, err: Option<Error>)
      requires Valid() && me !in hub.s.procs
      modifies hub
      ensures Valid() && old(hub.hist) <= hub.hist && me !in hub.s.procs
      ensures orphans <= checked <= |names|
      ensures GrewBy(old(hub.Own(me)), hub.Own(me), orphans)
      ensures dryRun ==> hub.Own(me) == old(hub.Own(me))
      ensures hub.quiet && old(hub.s).procs == map[] && SameBeyond(old(hub.rows), rows0, page) ==>
                err.None? && checked == orphans && SweptUp(rows0, old(hub.s), hub.s, names, |names|, orphans, dryRun)
    {
      checked, orphans, err := 0, 0, None;
      ghost var s1 := hub.s;
      ghost var alone := hub.quiet && s1.procs == map[] && SameBeyond(s1.rows, rows0, page);
      for i := 0 to |names|
        invariant Valid() && old(hub.hist) <= hub.hist && me !in hub.s.procs && orphans <= checked <= i
        invariant GrewBy(old(hub.Own(me)), hub.Own(me), orphans)
        invariant dryRun ==> hub.Own(me) == old(hub.Own(me))
        invariant alone ==> checked == orphans && SweptUp(rows0, s1, hub.s, names, i, orphans, dryRun)
      {
        ghost var before, s := hub.Own(me), hub.s;
        var counted, orphan, failed := CheckUnlessSeen(me, names[i], page, dryRun);
        GrowMore(old(hub.Own(me)), before, hub.Own(me), orphans, if orphan then 1 else 0);
        if alone {
          SweepOne(rows0, s1, s, hub.s, page, names, i, orphans, dryRun, orphan);
        }
        checked := checked + if counted then 1 else 0;
        orphans := orphans + if orphan then 1 else 0;
        if failed.Some? {
          return checked, orphans, failed;
        }
      }
    }

    method CheckPage(me: Actor, page: seq<UploadId>, listed: map<UploadId, Row>, dryRun: bool, ghost h: seq<Event>, ghost s0: State)
      returns (kept: nat, cancelled: nat, err: Option<Error>)
      requires Valid() && me !in hub.s.procs && Increasing(page)
      requires LeadsTo(h, s0) && h <= hub.hist && listed == s0.rows && forall id <- page :: id in listed
      modifies hub
      ensures Valid() && old(hub.hist) <= hub.hist && me !in hub.s.procs
      ensures kept + cancelled <= |page| && (err.None? ==> kept + cancelled == |page|)
      ensures GrewBy(old(hub.Own(me)), hub.Own(me), cancelled)
      ensures dryRun ==> hub.Own(me) == old(hub.Own(me))
      ensures err.None? && !dryRun ==> Settled(h, hub.s, hub.hist, page, |page|)
      ensures hub.quiet && s0 == old(hub.s) && s0.procs == map[] ==>
                && err.None? && kept == Kept(s0, page)
                && if dryRun then hub.s == s0 else Passed(s0, hub.s, page, |page|, kept)
    {
      if dryRun {
        kept, cancelled, err := PeekRows(me, page, listed);
      } else {
        kept, cancelled, err := CheckRows(me, page, h, s0);
        assert page[..|page|] == page;
      }
    }

    // One pass. read is the state in which the page was listed.
    method Recover(me: Actor, limit: int, dryRun: bool)
      returns (report: Report, err: Option<Error>, ghost page: seq<UploadId>, ghost names: seq<UploadId>, ghost read: State)
      requires Valid() && me !in hub.s.procs
      modifies hub
      ensures Valid() && old(hub.hist) <= hub.hist && me !in hub.s.procs
      ensures report.kept + report.cancelled + report.orphans <= report.checked <= Budget(limit)
      ensures GrewBy(old(hub.Own(me)), hub.Own(me), report.cancelled + report.orphans)
      ensures dryRun ==> hub.Own(me) == old(hub.Own(me))
      ensures err.None? ==> IsPage(read.rows.Keys, Budget(limit), page) && report.kept + report.cancelled == |page|
      ensures err.None? && !dryRun ==> Settled(old(hub.hist), hub.s, hub.hist, page, |page|)
      ensures hub.quiet && old(hub.s).procs == map[] ==>
                && err.None? && read == old(hub.s) && report == Tally(read, page, names)
                && (forall id <- names :: id in read.staging)
                && hub.rows == (if dryRun then read.rows else read.rows - Bad(read, page))
                && hub.staging == (if dryRun then read.staging else read.staging - Bad(read, page) - Rowless(read.rows, names))
                && Elsewhere(read, hub.s)
    {
      report, err, page, names, read := Report(0, 0, 0, 0), None, [], [], hub.s;
      var stopped := hub.Fault();
      if stopped {
        return report, Some(Broken), page, names, read;
      }
      report, err, page, names, read := Pass(me, limit, dryRun);
    }

    method Pass(me: Actor, limit: int, dryRun: bool)
      returns (report: Report, err: Option<Error>, ghost page: seq<UploadId>, ghost names: seq<UploadId>, ghost read: State)
      requires Valid() && me !in hub.s.procs
      modifies hub
      ensures Valid() && old(hub.hist) <= hub.hist && me !in hub.s.procs
      ensures report.kept + report.cancelled + report.orphans <= report.checked <= Budget(limit)
      ensures GrewBy(old(hub.Own(me)), hub.Own(me), report.cancelled + report.orphans)
      ensures dryRun ==> hub.Own(me) == old(hub.Own(me))
      ensures err.None? ==> IsPage(read.rows.Keys, Budget(limit), page) && report.kept + report.cancelled == |page|
      ensures err.None? && !dryRun ==> Settled(old(hub.hist), hub.s, hub.hist, page, |page|)
      ensures hub.quiet && old(hub.s).procs == map[] ==>
                && err.None? && read == old(hub.s) && report == Tally(read, page, names)
                && (forall id <- names :: id in read.staging)
                && hub.rows == (if dryRun then read.rows else read.rows - Bad(read, page))
                && hub.staging == (if dryRun then read.staging else read.staging - Bad(read, page) - Rowless(read.rows, names))
                && Elsewhere(read, hub.s)
    {
      read := hub.s;
      var most := if limit <= 0 || limit > 64 then 64 else limit;
      var ids := UploadSessions(most);
      page := ids;
      var rest, listed := most - |ids|, hub.rows;
      report, err, names := ListAndCheck(me, ids, listed, rest, dryRun, hub.hist, read);
      assert report.checked <= most == Budget(limit);
    }

    // The pass after its rows have been listed.
    method ListAndCheck(me: Actor, page: seq<UploadId>, listed: map<UploadId, Row>, rest: nat, dryRun: bool,
                        ghost h: seq<Event>, ghost s0: State)
      returns (report: Report, err: Option<Error>, ghost names: seq<UploadId>)
      requires Valid() && me !in hub.s.procs && Increasing(page)
      requires LeadsTo(h, s0) && h <= hub.hist && listed == s0.rows && forall id <- page :: id in listed
      modifies hub
      ensures Valid() && old(hub.hist) <= hub.hist && me !in hub.s.procs
      ensures report.kept + report.cancelled + report.orphans <= report.checked <= |page| + rest
      ensures err.None? ==> report.kept + report.cancelled == |page|
      ensures GrewBy(old(hub.Own(me)), hub.Own(me), report.cancelled + report.orphans)
      ensures dryRun ==> hub.Own(me) == old(hub.Own(me))
      ensures err.None? && !dryRun ==> Settled(h, hub.s, hub.hist, page, |page|)
      ensures hub.quiet && s0 == old(hub.s) && s0.procs == map[] ==>
                && err.None? && report == Tally(s0, page, names)
                && (forall id <- names :: id in s0.staging)
                && hub.rows == (if dryRun then s0.rows else s0.rows - Bad(s0, page))
                && hub.staging == (if dryRun then s0.staging else s0.staging - Bad(s0, page) - Rowless(s0.rows, names))
                && Elsewhere(s0, hub.s)
    {
      var found, failed := ListNames(me, rest);
      names := found;
      if failed {
        return Report(0, 0, 0, 0), Some(Broken), names;
      }
      report, err := CheckAll(me, page, listed, found, dryRun, h, s0);
    }

    method CheckAll(me: Actor, page: seq<UploadId>, listed: map<UploadId, Row>, names: seq<UploadId>, dryRun: bool,
                    ghost h: seq<Event>, ghost s0: State)
      returns (report: Report, err: Option<Error>)
      requires Valid() && me !in hub.s.procs && Increasing(page)
      requires LeadsTo(h, s0) && h <= hub.hist && listed == s0.rows && forall id <- page :: id in listed
      modifies hub
      ensures Valid() && old(hub.hist) <= hub.hist && me !in hub.s.procs
      ensures report.kept + report.cancelled + report.orphans <= report.checked <= |page| + |names|
      ensures err.None? ==> report.kept + report.cancelled == |page|
      ensures GrewBy(old(hub.Own(me)), hub.Own(me), report.cancelled + report.orphans)
      ensures dryRun ==> hub.Own(me) == old(hub.Own(me))
      ensures err.None? && !dryRun ==> Settled(h, hub.s, hub.hist, page, |page|)
      ensures hub.quiet && s0 == old(hub.s) && s0.procs == map[] ==>
                && err.None? && report == Tally(s0, page, names)
                && hub.rows == (if dryRun then s0.rows else s0.rows - Bad(s0, page))
                && hub.staging == (if dryRun then s0.staging else s0.staging - Bad(s0, page) - Rowless(s0.rows, names))
                && Elsewhere(s0, hub.s)
    {
      var kept, cancelled;
      kept, cancelled, err := CheckPage(me, page, listed, dryRun, h, s0);
      report := Report(|page|, kept, cancelled, 0);
      if err.Some? {
        return;
      }
      ghost var own1, h1, s1 := hub.Own(me), hub.hist, hub.s;
      var checked, orphans;
      checked, orphans, err := CheckNames(me, names, page, dryRun, listed);
      report := Report(|page| + checked, kept, cancelled, orphans);
      GrowMore(old(hub.Own(me)), own1, hub.Own(me), cancelled, orphans);
      if !dryRun {
        SettledStays(h, h1, s1, hub.hist, hub.s, page);
      }
      assert page[..|page|] == page && names[..|names|] == names;
    }
  }

  function Budget(limit: int): (most: nat)
    ensures most <= 64 && (0 < limit <= 64 ==> most == limit) && (limit <= 0 || limit > 64 ==> most == 64)
  {
    if limit <= 0 || limit > 64 then 64 else limit
  }

  lemma SettledStays(hist: seq<Event>, h: seq<Event>, s: State, h': seq<Event>, s': State, page: seq<UploadId>)
    requires LeadsTo(h, s) && LeadsTo(h', s') && hist <= h <= h' && Settled(hist, s, h, page, |page|)
    ensures Settled(hist, s', h', page, |page|)
  {
    forall j | 0 <= j < |page| ensures Reconciled(s', hist, h', page[j]) {
      StaysReconciled(hist, h, s, h', s', page[j]);
    }
  }

  // The two tables know the same ids outside the page, and the first knew the page.
  predicate SameBeyond(rows: map<UploadId, Row>, rows0: map<UploadId, Row>, page: seq<UploadId>) {
    && (forall id <- page :: id in rows0)
    && (forall id <- rows0.Keys :: id in page || id in rows)
    && rows.Keys <= rows0.Keys
  }

  // A quiet run has dealt with the first i staging names.
  predicate SweptUp(rows0: map<UploadId, Row>, s1: State, s: State, names: seq<UploadId>, i: nat, orphans: nat, dryRun: bool)
    requires i <= |names|
  {
    && orphans == Orphans(rows0, names[..i]) && s.rows == s1.rows && Elsewhere(s1, s) && s.procs == map[]
    && s.staging == if dryRun then s1.staging else s1.staging - Rowless(rows0, names[..i])
  }

  lemma SweepOne(rows0: map<UploadId, Row>, s1: State, s: State, s': State, page: seq<UploadId>, names: seq<UploadId>,
                 i: nat, orphans: nat, dryRun: bool, orphan: bool)
    requires i < |names| && SweptUp(rows0, s1, s, names, i, orphans, dryRun) && SameBeyond(s1.rows, rows0, page)
    requires orphan <==> names[i] !in page && names[i] !in s.rows
    requires s'.rows == s.rows && Elsewhere(s, s') && s'.procs == map[]
    requires s'.staging == if orphan && !dryRun then s.staging - {names[i]} else s.staging
    ensures SweptUp(rows0, s1, s', names, i + 1, orphans + if orphan then 1 else 0, dryRun)
  {
    assert names[..i + 1][..i] == names[..i] && names[..i + 1] == names[..i] + [names[i]];
    assert orphan <==> names[i] !in rows0;
    assert Rowless(rows0, names[..i + 1]) == Rowless(rows0, names[..i]) + if orphan then {names[i]} else {};
  }

  // The first i rows of the page are reconciled.
  ghost predicate Settled(hist: seq<Event>, s: State, h: seq<Event>, page: seq<UploadId>, i: nat)
    requires i <= |page|
  {
    forall j :: 0 <= j < i ==> Reconciled(s, hist, h, page[j])
  }

  lemma SettleOne(hist: seq<Event>, s0: State, h: seq<Event>, s: State, h': seq<Event>, s': State, page: seq<UploadId>, i: nat)
    requires i < |page| && Settled(hist, s, h, page, i) && LeadsTo(hist, s0) && LeadsTo(h, s) && LeadsTo(h', s') && hist <= h <= h'
    requires page[i] in s0.rows && (Recoverable(s', page[i]) || page[i] !in s'.rows)
    ensures Settled(hist, s', h', page, i + 1)
  {
    RowReconciled(hist, s0, h', s', page[i]);
    forall j | 0 <= j < i ensures Reconciled(s', hist, h', page[j]) {
      StaysReconciled(hist, h, s, h', s', page[j]);
    }
  }

  // A quiet real run has dealt with the first i rows of the page.
  predicate Passed(s0: State, s: State, page: seq<UploadId>, i: nat, kept: nat)
    requires i <= |page|
  {
    && kept == Kept(s0, page[..i]) && Elsewhere(s0, s) && s.procs == map[]
    && s.rows == s0.rows - Bad(s0, page[..i]) && s.staging == s0.staging - Bad(s0, page[..i])
  }

  lemma PassOne(s0: State, s: State, s': State, page: seq<UploadId>, i: nat, kept: nat, good: bool)
    requires i < |page| && Increasing(page) && page[i] in s0.rows && Passed(s0, s, page, i, kept)
    requires (good <==> Recoverable(s, page[i])) && Elsewhere(s, s') && s'.procs == map[]
    requires s'.rows == (if good then s.rows else s.rows - {page[i]})
    requires s'.staging == (if good then s.staging else s.staging - {page[i]})
    ensures Passed(s0, s', page, i + 1, kept + if good then 1 else 0)
  {
    NotYetChecked(s0, s, page, i);
    assert page[..i + 1][..i] == page[..i];
  }

  // Whoever was in the table at the start and is not now is gone for good.
  lemma RowReconciled(h: seq<Event>, s: State, h': seq<Event>, s': State, id: UploadId)
    requires LeadsTo(h, s) && LeadsTo(h', s') && h <= h' && id in s.rows
    requires Recoverable(s', id) || id !in s'.rows
    ensures Reconciled(s', h, h', id)
  {
    if Recoverable(s', id) {
      assert h <= h' <= h';
    } else {
      LeadsToIsRun(h, s);
      LeadsToIsRun(h', s');
      LeadsToInv(h, s);
      assert RowOk(s, id);
      assert h + h'[|h|..] == h';
      RunSplit(Init(), h, s, h'[|h|..], s');
      AcceptedForever(s, h'[|h|..], s', id);
    }
  }

  lemma {:induction false} AcceptedForever(s: State, evs: seq<Event>, s': State, id: UploadId)
    requires Inv(s) && Run(s, evs, s') && id in s.accepted
    ensures id in s'.accepted
    decreases |evs|
  {
    if evs != [] {
      StepKeeps(s, evs[0]);
      StepKeepsAccepted(s, evs[0], id);
      AcceptedForever(Next(s, evs[0]).value, evs[1..], s', id);
    }
  }

  // Cleaning up the first i rows of the page leaves the next one as it was.
  lemma NotYetChecked(s0: State, s: State, page: seq<UploadId>, i: nat)
    requires i < |page| && Increasing(page) && page[i] in s0.rows && s.now == s0.now
    requires s.rows == s0.rows - Bad(s0, page[..i]) && s.staging == s0.staging - Bad(s0, page[..i])
    ensures page[i] in s.rows && (Recoverable(s, page[i]) <==> Recoverable(s0, page[i]))
    ensures Bad(s0, page[..i + 1]) == Bad(s0, page[..i]) + if Recoverable(s0, page[i]) then {} else {page[i]}
  {
    assert page[i] !in page[..i];
    assert page[..i + 1] == page[..i] + [page[i]];
  }

  // Two quiet passes from one state, one of them dry, read the same page and,
  // given the same directory listing, report the same.
  lemma DryRunReportsTheSame(s: State, limit: int, page: seq<UploadId>, page': seq<UploadId>, names: seq<UploadId>)
    requires IsPage(s.rows.Keys, Budget(limit), page) && IsPage(s.rows.Keys, Budget(limit), page')
    ensures Tally(s, page, names) == Tally(s, page', names)
  {
    PageIsUnique(s.rows.Keys, Budget(limit), page, page');
  }
}
