// Login sessions and their background garbage collection.
//
// The machine runs the real store beside a reference that knows no garbage
// collection: granted holds every session that was created and not revoked.
module Sessions {
  import opened Wrappers

  type Id = nat
  type Actor = nat

  datatype Session = Session(user: int, expires: int)

  // One runGC goroutine: the clock reading it was started with, and whether its
  // last pass was short or failed.
  datatype Worker = Worker(cutoff: int, done: bool)

  // A UserID call after its Lookup. granted remembers what the reference would
  // have answered at that moment.
  datatype Call =
    | Looked(id: Id, found: Option<Session>, granted: Option<int>)
    | Deleting(id: Id)

  datatype State = State(
    sessions: map<Id, Session>,
    granted: map<Id, Session>,
    issued: set<Id>,
    now: int,
    gcRunning: bool,
    closed: bool,
    workers: map<Actor, Worker>,
    creating: map<Actor, (Id, Session)>,
    calls: map<Actor, Call>)

  datatype Event =
    | Tick(now: int)
    | Prepare(a: Actor, id: Id, user: int, ttl: int)
    | Store(a: Actor)
    | Revoke(id: Id)
    | RevokeUser(user: int)
    | Schedule(w: Actor, cutoff: int)
    | Pass(w: Actor, batch: set<Id>, failed: bool)
    | Exit(w: Actor)
    | ManualGC(batch: set<Id>)
    | Close
    | Lookup(a: Actor, id: Id)
    | Answer(a: Actor)
    | DropExpired(a: Actor)

  const MaxDeletes: nat := 64

  function Init(): State {
    State(map[], map[], {}, 0, false, false, map[], map[], map[])
  }

  // The sessions DeleteExpired may delete: those expiring at or before cutoff.
  function Expired(sessions: map<Id, Session>, cutoff: int): set<Id> {
    set id | id in sessions && sessions[id].expires <= cutoff
  }

  // What a store does in one DeleteExpired call: any expired sessions, at most
  // the limit, and all of them unless the limit is reached.
  ghost predicate IsPass(sessions: map<Id, Session>, cutoff: int, batch: set<Id>) {
    batch <= Expired(sessions, cutoff) && |batch| <= MaxDeletes
    && (|batch| < MaxDeletes ==> batch == Expired(sessions, cutoff))
  }

  // What UserID answers: the user of an unexpired session.
  function UserOf(sessions: map<Id, Session>, now: int, id: Id): Option<int> {
    if id in sessions && now < sessions[id].expires then Some(sessions[id].user) else None
  }

  ghost function Next(s: State, e: Event): Option<State> {
    match e
    case Tick(now) => if s.now <= now then Some(s.(now := now)) else None
    case Prepare(a, id, user, ttl) =>
      if a !in s.creating && id !in s.issued && ttl > 0 then
        Some(s.(issued := s.issued + {id}, creating := s.creating[a := (id, Session(user, s.now + ttl))]))
      else None
    case Store(a) =>
      if a in s.creating then
        var (id, session) := s.creating[a];
        Some(s.(sessions := s.sessions[id := session], granted := s.granted[id := session], creating := s.creating - {a}))
      else None
    case Revoke(id) => Some(s.(sessions := s.sessions - {id}, granted := s.granted - {id}))
    case RevokeUser(user) =>
      Some(s.(sessions := WithoutUser(s.sessions, user), granted := WithoutUser(s.granted, user)))
    case Schedule(w, cutoff) =>
      if w !in s.workers && !s.gcRunning && !s.closed && cutoff <= s.now then
        Some(s.(gcRunning := true, workers := s.workers[w := Worker(cutoff, false)]))
      else None
    case Pass(w, batch, failed) =>
      if w in s.workers && !s.workers[w].done && batch <= Expired(s.sessions, s.workers[w].cutoff)
         && (failed || IsPass(s.sessions, s.workers[w].cutoff, batch))
      then
        Some(s.(sessions := s.sessions - batch,
                workers := s.workers[w := s.workers[w].(done := failed || |batch| < MaxDeletes)]))
      else None
    case Exit(w) =>
      if w in s.workers && s.workers[w].done then Some(s.(gcRunning := false, workers := s.workers - {w})) else None
    case ManualGC(batch) =>
      if batch <= Expired(s.sessions, s.now) then Some(s.(sessions := s.sessions - batch)) else None
    case Close => Some(s.(closed := true))
    case Lookup(a, id) =>
      if a !in s.calls then
        var found := if id in s.sessions then Some(s.sessions[id]) else None;
        Some(s.(calls := s.calls[a := Looked(id, found, UserOf(s.granted, s.now, id))]))
      else None
    case Answer(a) =>
      if a in s.calls && s.calls[a].Looked? then
        var c := s.calls[a];
        Some(s.(calls := if c.found.Some? && c.found.value.expires <= s.now then s.calls[a := Deleting(c.id)] else s.calls - {a}))
      else None
    case DropExpired(a) =>
      if a in s.calls && s.calls[a].Deleting? then
        Some(s.(sessions := s.sessions - {s.calls[a].id}, calls := s.calls - {a}))
      else None
  }

  // What the call by a answers in state s: the found session's user while it has
  // not expired.
  function Reply(s: State, a: Actor): Option<int>
    requires a in s.calls && s.calls[a].Looked?
  {
    var c := s.calls[a];
    if c.found.Some? && s.now < c.found.value.expires then Some(c.found.value.user) else None
  }

  function WithoutUser(m: map<Id, Session>, user: int): map<Id, Session> {
    map id | id in m && m[id].user != user :: m[id]
  }

  ghost predicate Run(s: State, evs: seq<Event>, s': State)
    decreases |evs|
  {
    if evs == [] then s' == s
    else
      var mid := Next(s, evs[0]);
      mid.Some? && Run(mid.value, evs[1..], s')
  }

  // --- invariant ---

  // The store is the reference less some sessions that have expired.
  ghost predicate Shadows(s: State) {
    && (forall id <- s.sessions.Keys :: id in s.granted && s.granted[id] == s.sessions[id])
    && (forall id <- s.granted.Keys :: id !in s.sessions ==> s.granted[id].expires <= s.now)
  }

  ghost predicate CallOk(s: State, c: Call) {
    match c
    case Looked(id, found, granted) =>
      && (found.Some? && id in s.granted ==> s.granted[id] == found.value)
      && (found.None? ==> granted.None?)
      && (found.Some? && s.now < found.value.expires ==> granted == Some(found.value.user))
      && (found.Some? ==> id in s.issued && forall a <- s.creating.Keys :: s.creating[a].0 != id)
    case Deleting(id) =>
      && (id in s.granted ==> s.granted[id].expires <= s.now)
      && id in s.issued && (forall a <- s.creating.Keys :: s.creating[a].0 != id)
  }

  ghost predicate IdsOk(s: State) {
    && s.granted.Keys <= s.issued
    && (forall a <- s.creating.Keys :: s.creating[a].0 in s.issued && s.creating[a].0 !in s.granted)
    && (forall a <- s.creating.Keys, b <- s.creating.Keys :: a != b ==> s.creating[a].0 != s.creating[b].0)
  }

  ghost predicate GcOk(s: State) {
    && (s.gcRunning <==> s.workers != map[])
    && (forall v <- s.workers.Keys, w <- s.workers.Keys :: v == w)
    && (forall w <- s.workers.Keys :: s.workers[w].cutoff <= s.now)
  }

  ghost predicate Inv(s: State) {
    Shadows(s) && IdsOk(s) && GcOk(s) && forall a <- s.calls.Keys {:trigger CallOk(s, s.calls[a])} :: CallOk(s, s.calls[a])
  }

  lemma CallsKept(s: State, e: Event)
    requires Inv(s) && Next(s, e).Some?
    ensures forall a <- Next(s, e).value.calls.Keys :: CallOk(Next(s, e).value, Next(s, e).value.calls[a])
  {
    var s' := Next(s, e).value;
    forall a <- s'.calls.Keys ensures CallOk(s', s'.calls[a]) {
      if a in s.calls {
        assert CallOk(s, s.calls[a]);
      }
    }
  }

  lemma ShadowsKept(s: State, e: Event)
    requires Inv(s) && Next(s, e).Some?
    ensures Shadows(Next(s, e).value)
  {
    if e.DropExpired? {
      assert CallOk(s, s.calls[e.a]);
    }
  }

  lemma TablesKept(s: State, e: Event)
    requires Inv(s) && Next(s, e).Some?
    ensures IdsOk(Next(s, e).value) && GcOk(Next(s, e).value)
  {
  }

  lemma StepKeeps(s: State, e: Event)
    requires Inv(s) && Next(s, e).Some?
    ensures Inv(Next(s, e).value)
  {
    ShadowsKept(s, e);
    TablesKept(s, e);
    CallsKept(s, e);
  }

  lemma {:induction false} RunKeeps(s: State, evs: seq<Event>, s': State)
    requires Inv(s) && Run(s, evs, s')
    ensures Inv(s')
    decreases |evs|
  {
    if evs != [] {
      StepKeeps(s, evs[0]);
      RunKeeps(Next(s, evs[0]).value, evs[1..], s');
    }
  }

  // Garbage collection is invisible: at every moment the store answers for
  // every id what the reference would.
  lemma CollectionIsInvisible(evs: seq<Event>, s: State, id: Id)
    requires Run(Init(), evs, s)
    ensures UserOf(s.sessions, s.now, id) == UserOf(s.granted, s.now, id)
    ensures id in s.sessions && s.now < s.sessions[id].expires <==> id in s.granted && s.now < s.granted[id].expires
    ensures id in s.sessions && s.now < s.sessions[id].expires ==> s.sessions[id].user == s.granted[id].user
  {
    RunKeeps(Init(), evs, s);
  }

  // A UserID call reads the store and the clock at different moments. Its answer
  // is the reference's at one of them: an accepted user and an unknown id at the
  // lookup, an expired session at the clock reading.
  lemma CallAnswersLikeReference(evs: seq<Event>, s: State, a: Actor)
    requires Run(Init(), evs, s) && a in s.calls && s.calls[a].Looked?
    ensures var c := s.calls[a];
            Reply(s, a) == (if c.found.Some? && c.found.value.expires <= s.now then UserOf(s.granted, s.now, c.id) else c.granted)
  {
    RunKeeps(Init(), evs, s);
    assert CallOk(s, s.calls[a]);
  }

  lemma OneCollector(evs: seq<Event>, s: State, v: Actor, w: Actor)
    requires Run(Init(), evs, s) && v in s.workers && w in s.workers
    ensures v == w && s.gcRunning
  {
    RunKeeps(Init(), evs, s);
  }

  // --- the store and one collector ---

  class MemorySessionStore {
    var sessions: map<Id, Session>

    constructor ()
      ensures sessions == map[]
    {
      sessions := map[];
    }

    method Create(id: Id, session: Session)
      modifies this
      ensures sessions == old(sessions)[id := session]
    {
      sessions := sessions[id := session];
    }

    method Lookup(id: Id) returns (session: Option<Session>)
      ensures session == if id in sessions then Some(sessions[id]) else None
    {
      return if id in sessions then Some(sessions[id]) else None;
    }

    method Delete(id: Id)
      modifies this
      ensures sessions == old(sessions) - {id}
    {
      sessions := sessions - {id};
    }

    method DeleteForUser(user: int)
      modifies this
      ensures sessions == WithoutUser(old(sessions), user)
    {
      var todo := sessions.Keys;
      while todo != {}
        invariant sessions.Keys <= old(sessions).Keys
        invariant forall id <- old(sessions).Keys ::
                    if id in sessions then sessions[id] == old(sessions)[id] && (id in todo || sessions[id].user != user)
                    else old(sessions)[id].user == user
        decreases todo
      {
        var id :| id in todo;
        if id in sessions && sessions[id].user == user {
          sessions := sessions - {id};
        }
        todo := todo - {id};
      }
    }

    // Deletes expired sessions in some order until none or the limit is left.
    method DeleteExpired(now: int, limit: nat) returns (deleted: nat, ghost batch: set<Id>)
      modifies this
      ensures batch <= Expired(old(sessions), now) && |batch| == deleted <= limit
      ensures deleted < limit ==> batch == Expired(old(sessions), now)
      ensures sessions == old(sessions) - batch
    {
      deleted, batch := 0, {};
      if limit == 0 {
        return;
      }
      var todo := sessions.Keys;
      while todo != {}
        invariant todo <= sessions.Keys
        invariant batch <= Expired(old(sessions), now) && |batch| == deleted < limit
        invariant sessions == old(sessions) - batch
        invariant Expired(sessions, now) <= todo
        decreases todo
      {
        var id :| id in todo;
        todo := todo - {id};
        if sessions[id].expires <= now {
          sessions := sessions - {id};
          batch := batch + {id};
          deleted := deleted + 1;
          if deleted == limit {
            return;
          }
        }
      }
      assert batch == Expired(old(sessions), now);
    }

    // runGC against a store that does not fail: every expired session goes, in
    // full passes of 64 and one short one.
    method RunGC(now: int) returns (passes: nat)
      modifies this
      ensures sessions == old(sessions) - Expired(old(sessions), now)
      ensures forall id <- old(sessions).Keys :: id in sessions <==> old(sessions)[id].expires > now
      ensures passes == |Expired(old(sessions), now)| / MaxDeletes + 1
    {
      ghost var left := Expired(sessions, now);
      ghost var start := |left|;
      var full: nat := 0;
      var deleted, batch := DeleteExpired(now, MaxDeletes);
      PassLeaves(old(sessions), sessions, now, left, batch);
      while deleted == MaxDeletes
        invariant 0 <= deleted <= MaxDeletes && |Expired(sessions, now)| + deleted + MaxDeletes * full == start
        invariant deleted < MaxDeletes ==> Expired(sessions, now) == {}
        invariant sessions.Keys <= old(sessions).Keys && forall id <- old(sessions).Keys ::
                    if id in sessions then sessions[id] == old(sessions)[id] else old(sessions)[id].expires <= now
        decreases |Expired(sessions, now)| + deleted
      {
        ghost var before := sessions;
        deleted, batch := DeleteExpired(now, MaxDeletes);
        PassLeaves(before, sessions, now, Expired(before, now), batch);
        full := full + 1;
      }
      passes := full + 1;
      assert |Expired(sessions, now)| == 0;
      PassCount(start, full, deleted);
      forall id <- sessions.Keys ensures sessions[id].expires > now {
        assert id !in Expired(sessions, now);
      }
      assert sessions == old(sessions) - Expired(old(sessions), now);
    }
  }

  lemma PassCount(total: nat, full: nat, rest: nat)
    requires total == MaxDeletes * full + rest && rest < MaxDeletes
    ensures total / MaxDeletes == full
  {
  }

  // A pass takes its batch out of the expired sessions and touches nothing else.
  lemma PassLeaves(before: map<Id, Session>, after: map<Id, Session>, now: int, expired: set<Id>, batch: set<Id>)
    requires expired == Expired(before, now) && batch <= expired && after == before - batch
    ensures |Expired(after, now)| == |expired| - |batch|
    ensures batch == expired ==> Expired(after, now) == {}
  {
    assert Expired(after, now) == expired - batch;
  }

  // The manager's fields change in single steps of the machine; granted, issued
  // and the other calls in progress stay in the machine's state s.
  class SessionManager {
    const store: MemorySessionStore
    const ttl: int
    var now: int // the clock
    var gcRunning: bool
    var closed: bool
    ghost var s: State

    ghost predicate Valid()
      reads this, store
    {
      Inv(s) && s.sessions == store.sessions && s.now == now && s.gcRunning == gcRunning && s.closed == closed
    }

    constructor (ttl: int)
      requires ttl > 0
      ensures Valid() && fresh(store) && s == Init() && this.ttl == ttl
    {
      this.ttl := ttl;
      store := new MemorySessionStore();
      now, gcRunning, closed, s := 0, false, false, Init();
    }

    // scheduleGC: at most one worker, none after Close. done names the
    // goroutine that was started.
    method ScheduleGC(cutoff: int, w: Actor) returns (started: bool)
      requires Valid() && cutoff <= now && w !in s.workers
      modifies this`gcRunning, this`s
      ensures Valid() && started == (!old(gcRunning) && !old(closed))
      ensures if started then Some(s) == Next(old(s), Schedule(w, cutoff)) else s == old(s)
      ensures gcRunning == (old(gcRunning) || !old(closed)) && s.sessions == old(s.sessions) && s.granted == old(s.granted)
    {
      if gcRunning || closed {
        return false;
      }
      StepKeeps(s, Schedule(w, cutoff));
      s := Next(s, Schedule(w, cutoff)).value;
      gcRunning := true;
      return true;
    }

    // UserID, with the lookup and the clock reading at one moment: it accepts
    // exactly the sessions granted, not revoked and not expired, and deletes
    // an expired one it meets.
    method UserID(id: Id) returns (user: Option<int>)
      requires Valid()
      modifies store, this`s
      ensures Valid() && user == UserOf(old(s.granted), now, id)
      ensures user.Some? <==> id in old(s.granted) && now < old(s.granted)[id].expires
      ensures user.Some? ==> user.value == old(s.granted)[id].user
      ensures s.granted == old(s.granted) && s.now == old(s.now)
      ensures store.sessions == if id in old(store.sessions) && user.None? then old(store.sessions) - {id} else old(store.sessions)
    {
      var found := store.Lookup(id);
      if found.None? {
        return None;
      }
      if !(now < found.value.expires) {
        DroppingExpired(s, id);
        store.Delete(id);
        s := s.(sessions := s.sessions - {id});
        return None;
      }
      return Some(found.value.user);
    }

    method Close()
      requires Valid()
      modifies this`closed, this`s
      ensures Valid() && closed && Some(s) == Next(old(s), Event.Close)
    {
      StepKeeps(s, Event.Close);
      closed := true;
      s := s.(closed := true);
    }

    // RevokeUser leaves no session of the user, however many cookies are out.
    method RevokeUser(user: int)
      requires Valid()
      modifies store, this`s
      ensures Valid()
      ensures user > 0 ==> forall id :: UserOf(store.sessions, now, id) != Some(user)
      ensures user <= 0 ==> s == old(s)
    {
      if user <= 0 {
        return;
      }
      StepKeeps(s, Event.RevokeUser(user));
      store.DeleteForUser(user);
      s := Next(s, Event.RevokeUser(user)).value;
    }
  }

  // Deleting one expired session is what a collection pass does.
  lemma DroppingExpired(s: State, id: Id)
    requires Inv(s) && id in s.sessions && s.sessions[id].expires <= s.now
    ensures Next(s, ManualGC({id})) == Some(s.(sessions := s.sessions - {id}))
    ensures Inv(s.(sessions := s.sessions - {id}))
  {
    StepKeeps(s, ManualGC({id}));
  }
}
