// The upload limiter at the level of its channel operations and mutex sections.
// Each of them is one step; steps of different callers interleave freely.
module UploadLimiter {
  import opened Wrappers

  // User names and addresses are only ever compared.
  datatype Name = Name(text: string)

  datatype UploadKey = UploadKey(user: Name, ip: Name)

  // A caller that holds a global slot and no lease: before its mutex section,
  // or on its way to give the slot back.
  datatype Ticket = Holding(key: UploadKey) | Returning

  datatype Limits = Limits(global: nat, perUser: nat, perIP: nat)

  datatype State = State(
    occupied: nat,             // elements in the global channel
    users: map<Name, nat>,
    ips: map<Name, nat>,
    leases: map<nat, UploadKey>, // leases not released yet
    tickets: map<nat, Ticket>)   // by caller

  datatype Event =
    | Send(a: nat, key: UploadKey)
    | Admit(a: nat, lease: nat)
    | Refuse(a: nat)
    | Free(a: nat, lease: nat)
    | Receive(a: nat)

  function Count(m: map<Name, nat>, k: Name): nat {
    if k in m then m[k] else 0
  }

  function Up(m: map<Name, nat>, k: Name): map<Name, nat> {
    m[k := Count(m, k) + 1]
  }

  // m[k]--, with the entry deleted when it reaches zero.
  function Down(m: map<Name, nat>, k: Name): map<Name, nat> {
    if k in m && m[k] > 1 then m[k := m[k] - 1] else m - {k}
  }

  function Init(): State {
    State(0, map[], map[], map[], map[])
  }

  function Next(l: Limits, s: State, e: Event): Option<State> {
    match e
    case Send(a, key) =>
      if a !in s.tickets && s.occupied < l.global then
        Some(s.(occupied := s.occupied + 1, tickets := s.tickets[a := Holding(key)]))
      else None
    case Admit(a, lease) =>
      if a in s.tickets && s.tickets[a].Holding? && lease !in s.leases
         && Count(s.users, s.tickets[a].key.user) < l.perUser && Count(s.ips, s.tickets[a].key.ip) < l.perIP
      then
        var key := s.tickets[a].key;
        Some(s.(users := Up(s.users, key.user), ips := Up(s.ips, key.ip),
                leases := s.leases[lease := key], tickets := s.tickets - {a}))
      else None
    case Refuse(a) =>
      if a in s.tickets && s.tickets[a].Holding?
         && (Count(s.users, s.tickets[a].key.user) >= l.perUser || Count(s.ips, s.tickets[a].key.ip) >= l.perIP)
      then Some(s.(tickets := s.tickets[a := Returning]))
      else None
    case Free(a, lease) =>
      if a !in s.tickets && lease in s.leases then
        var key := s.leases[lease];
        Some(s.(users := Down(s.users, key.user), ips := Down(s.ips, key.ip),
                leases := s.leases - {lease}, tickets := s.tickets[a := Returning]))
      else None
    case Receive(a) =>
      if a in s.tickets && s.tickets[a].Returning? && s.occupied > 0 then
        Some(s.(occupied := s.occupied - 1, tickets := s.tickets - {a}))
      else None
  }

  ghost predicate Run(l: Limits, s: State, evs: seq<Event>, s': State)
    decreases |evs|
  {
    if evs == [] then s' == s
    else
      var mid := Next(l, s, evs[0]);
      mid.Some? && Run(l, mid.value, evs[1..], s')
  }

  // --- what the counters count ---

  function UserOf(key: UploadKey): Name { key.user }
  function IpOf(key: UploadKey): Name { key.ip }

  // The live leases of one user, or one address.
  ghost function Held(leases: map<nat, UploadKey>, of: UploadKey -> Name, k: Name): set<nat> {
    set x | x in leases && of(leases[x]) == k
  }

  ghost function Sum(m: map<Name, nat>): nat {
    if m == map[] then 0
    else
      var k :| k in m;
      m[k] + Sum(m - {k})
  }

  ghost predicate Tallies(m: map<Name, nat>, leases: map<nat, UploadKey>, of: UploadKey -> Name) {
    forall k: Name :: Count(m, k) == |Held(leases, of, k)|
  }

  // The counter map counts exactly the live leases, keeps no zero and respects its cap.
  ghost predicate Counts(m: map<Name, nat>, leases: map<nat, UploadKey>, of: UploadKey -> Name, cap: nat) {
    && Tallies(m, leases, of)
    && (forall k <- m.Keys :: 0 < m[k] <= cap)
    && Sum(m) == |leases|
  }

  ghost predicate Inv(l: Limits, s: State) {
    && Counts(s.users, s.leases, UserOf, l.perUser)
    && Counts(s.ips, s.leases, IpOf, l.perIP)
    && s.occupied == |s.leases| + |s.tickets| <= l.global
  }

  lemma {:induction false} SumSplit(m: map<Name, nat>, k: Name)
    requires k in m
    ensures Sum(m) == m[k] + Sum(m - {k})
    decreases |m|
  {
    var j :| j in m && Sum(m) == m[j] + Sum(m - {j});
    if j != k {
      SumSplit(m - {j}, k);
      SumSplit(m - {k}, j);
      assert m - {j} - {k} == m - {k} - {j};
    }
  }

  lemma SumUpdate(m: map<Name, nat>, k: Name, v: nat)
    ensures Sum(m[k := v]) == Sum(m) - Count(m, k) + v
  {
    SumSplit(m[k := v], k);
    assert m[k := v] - {k} == m - {k};
    if k in m {
      SumSplit(m, k);
    } else {
      assert m - {k} == m;
    }
  }

  lemma HeldUp(leases: map<nat, UploadKey>, of: UploadKey -> Name, lease: nat, key: UploadKey, k: Name)
    requires lease !in leases
    ensures |Held(leases[lease := key], of, k)| == |Held(leases, of, k)| + (if of(key) == k then 1 else 0)
  {
    if k == of(key) {
      assert Held(leases[lease := key], of, k) == Held(leases, of, k) + {lease};
    } else {
      assert Held(leases[lease := key], of, k) == Held(leases, of, k);
    }
  }

  lemma HeldDown(leases: map<nat, UploadKey>, of: UploadKey -> Name, lease: nat, k: Name)
    requires lease in leases
    ensures |Held(leases - {lease}, of, k)| == |Held(leases, of, k)| - (if of(leases[lease]) == k then 1 else 0)
  {
    var leases' := leases - {lease};
    HeldUp(leases', of, lease, leases[lease], k);
    assert leases'[lease := leases[lease]] == leases;
  }

  lemma TalliesUp(m: map<Name, nat>, leases: map<nat, UploadKey>, of: UploadKey -> Name, lease: nat, key: UploadKey)
    requires Tallies(m, leases, of) && lease !in leases
    ensures Tallies(Up(m, of(key)), leases[lease := key], of)
  {
    forall k: Name ensures Count(Up(m, of(key)), k) == |Held(leases[lease := key], of, k)| {
      HeldUp(leases, of, lease, key, k);
    }
  }

  lemma CountsUp(m: map<Name, nat>, leases: map<nat, UploadKey>, of: UploadKey -> Name, cap: nat, lease: nat, key: UploadKey)
    requires Counts(m, leases, of, cap) && lease !in leases && Count(m, of(key)) < cap
    ensures Counts(Up(m, of(key)), leases[lease := key], of, cap)
  {
    var m', leases' := Up(m, of(key)), leases[lease := key];
    SumUpdate(m, of(key), Count(m, of(key)) + 1);
    TalliesUp(m, leases, of, lease, key);
    assert leases'.Keys == leases.Keys + {lease};
  }

  lemma CountsDown(m: map<Name, nat>, leases: map<nat, UploadKey>, of: UploadKey -> Name, cap: nat, lease: nat)
    requires Counts(m, leases, of, cap) && lease in leases
    ensures Counts(Down(m, of(leases[lease])), leases - {lease}, of, cap)
  {
    var k0, leases' := of(leases[lease]), leases - {lease};
    var m' := Down(m, k0);
    assert lease in Held(leases, of, k0);
    assert Count(m, k0) > 0;
    if m[k0] > 1 {
      SumUpdate(m, k0, m[k0] - 1);
    } else {
      SumSplit(m, k0);
    }
    forall k: Name ensures Count(m', k) == |Held(leases', of, k)| {
      HeldDown(leases, of, lease, k);
    }
    assert leases'.Keys == leases.Keys - {lease};
  }

  lemma AdmitKeeps(l: Limits, s: State, a: nat, lease: nat)
    requires Inv(l, s) && Next(l, s, Admit(a, lease)).Some?
    ensures Inv(l, Next(l, s, Admit(a, lease)).value)
  {
    var s', key := Next(l, s, Admit(a, lease)).value, s.tickets[a].key;
    CountsUp(s.users, s.leases, UserOf, l.perUser, lease, key);
    CountsUp(s.ips, s.leases, IpOf, l.perIP, lease, key);
    assert s'.tickets.Keys == s.tickets.Keys - {a};
    assert s'.leases.Keys == s.leases.Keys + {lease};
  }

  lemma FreeKeeps(l: Limits, s: State, a: nat, lease: nat)
    requires Inv(l, s) && Next(l, s, Free(a, lease)).Some?
    ensures Inv(l, Next(l, s, Free(a, lease)).value)
  {
    var s' := Next(l, s, Free(a, lease)).value;
    CountsDown(s.users, s.leases, UserOf, l.perUser, lease);
    CountsDown(s.ips, s.leases, IpOf, l.perIP, lease);
    assert s'.tickets.Keys == s.tickets.Keys + {a};
    assert s'.leases.Keys == s.leases.Keys - {lease};
  }

  // The other steps move tickets and slots only.
  lemma TicketKeeps(l: Limits, s: State, e: Event)
    requires Inv(l, s) && !e.Admit? && !e.Free? && Next(l, s, e).Some?
    ensures Inv(l, Next(l, s, e).value)
  {
    var s' := Next(l, s, e).value;
    assert s'.tickets.Keys == if e.Send? then s.tickets.Keys + {e.a} else if e.Refuse? then s.tickets.Keys else s.tickets.Keys - {e.a};
  }

  lemma StepKeeps(l: Limits, s: State, e: Event)
    requires Inv(l, s) && Next(l, s, e).Some?
    ensures Inv(l, Next(l, s, e).value)
  {
    if e.Admit? {
      AdmitKeeps(l, s, e.a, e.lease);
    } else if e.Free? {
      FreeKeeps(l, s, e.a, e.lease);
    } else {
      TicketKeeps(l, s, e);
    }
  }

  lemma {:induction false} RunKeeps(l: Limits, s: State, evs: seq<Event>, s': State)
    requires Inv(l, s) && Run(l, s, evs, s')
    ensures Inv(l, s')
    decreases |evs|
  {
    if evs != [] {
      StepKeeps(l, s, evs[0]);
      RunKeeps(l, Next(l, s, evs[0]).value, evs[1..], s');
    }
  }

  // In every interleaving: each counter is its number of live leases, within
  // its cap and never a stored zero; both sums are the live leases, which the
  // occupied slots cover, and those never exceed the channel's capacity.
  lemma CapsHold(l: Limits, evs: seq<Event>, s: State)
    requires Run(l, Init(), evs, s)
    ensures forall u: Name :: Count(s.users, u) == |Held(s.leases, UserOf, u)| <= l.perUser
    ensures forall i: Name :: Count(s.ips, i) == |Held(s.leases, IpOf, i)| <= l.perIP
    ensures (forall u <- s.users.Keys :: s.users[u] > 0) && (forall i <- s.ips.Keys :: s.ips[i] > 0)
    ensures Sum(s.users) == Sum(s.ips) == |s.leases| <= s.occupied <= l.global
  {
    RunKeeps(l, Init(), evs, s);
  }

  // A caller that has to give its slot back always finds one in the channel.
  lemma ReceiveNeverBlocks(l: Limits, evs: seq<Event>, s: State, a: nat)
    requires Run(l, Init(), evs, s) && a in s.tickets && s.tickets[a].Returning?
    ensures Next(l, s, Receive(a)).Some?
  {
    RunKeeps(l, Init(), evs, s);
    assert s.tickets.Keys == s.tickets.Keys - {a} + {a};
  }

  lemma SendThenAdmit(l: Limits, s: State, key: UploadKey, ticket: nat)
    requires Inv(l, s) && ticket !in s.leases && s.tickets == map[] && s.occupied < l.global
    requires Count(s.users, key.user) < l.perUser && Count(s.ips, key.ip) < l.perIP
    ensures var s' := State(s.occupied + 1, Up(s.users, key.user), Up(s.ips, key.ip), s.leases[ticket := key], map[]);
            Run(l, s, [Send(0, key), Admit(0, ticket)], s') && Inv(l, s')
  {
    var s1 := Next(l, s, Send(0, key)).value;
    StepKeeps(l, s, Send(0, key));
    StepKeeps(l, s1, Admit(0, ticket));
    assert s1.tickets - {0} == map[];
    assert Run(l, s1, [Admit(0, ticket)], Next(l, s1, Admit(0, ticket)).value);
  }

  lemma FreeThenReceive(l: Limits, s: State, ticket: nat)
    requires Inv(l, s) && ticket in s.leases && s.tickets == map[]
    ensures s.occupied > 0
    ensures var key := s.leases[ticket];
            var s' := State(s.occupied - 1, Down(s.users, key.user), Down(s.ips, key.ip), s.leases - {ticket}, map[]);
            Run(l, s, [Free(0, ticket), Receive(0)], s') && Inv(l, s')
  {
    var s1 := Next(l, s, Free(0, ticket)).value;
    StepKeeps(l, s, Free(0, ticket));
    assert s1.tickets == map[0 := Returning];
    StepKeeps(l, s1, Receive(0));
    assert s1.tickets - {0} == map[];
    assert Run(l, s1, [Receive(0)], Next(l, s1, Receive(0)).value);
  }

  // --- the limiter object ---

  // Calls that run without interruption. The two halves of each call are the
  // two steps of the machine.
  class Limiter {
    const limits: Limits
    var global: nat
    var users: map<Name, nat>
    var ips: map<Name, nat>
    ghost var leases: map<nat, UploadKey>

    ghost function View(): State
      reads this
    {
      State(global, users, ips, leases, map[])
    }

    ghost predicate Valid()
      reads this
    {
      Inv(limits, View())
    }

    constructor (global: nat, perUser: nat, perIP: nat)
      requires global > 0 && perUser > 0 && perIP > 0
      ensures Valid() && View() == Init() && limits == Limits(global, perUser, perIP)
    {
      limits := Limits(global, perUser, perIP);
      this.global := 0;
      users, ips, leases := map[], map[], map[];
    }

    // The lease is granted exactly when all three limits have room; otherwise
    // nothing changes. ticket names the lease in the model.
    method TryAcquire(user: Name, ip: Name, ghost ticket: nat) returns (lease: Lease?)
      requires Valid() && ticket !in leases
      modifies this
      ensures Valid()
      ensures lease != null <==>
              && old(global) < limits.global
              && Count(old(users), user) < limits.perUser && Count(old(ips), ip) < limits.perIP
      ensures lease != null ==>
              && fresh(lease) && lease.limiter == this && lease.key == UploadKey(user, ip) && lease.ticket == ticket
              && lease.Valid() && !lease.done
              && Run(limits, old(View()), [Send(0, UploadKey(user, ip)), Admit(0, ticket)], View())
      ensures lease == null ==> View() == old(View())
      ensures lease != null ==>
                && global == old(global) + 1
                && (forall u: Name :: Count(users, u) == Count(old(users), u) + if u == user then 1 else 0)
                && (forall i: Name :: Count(ips, i) == Count(old(ips), i) + if i == ip then 1 else 0)
    {
      if global >= limits.global {
        return null;
      }
      global := global + 1;
      if Count(users, user) >= limits.perUser || Count(ips, ip) >= limits.perIP {
        global := global - 1;
        return null;
      }
      Grant(UploadKey(user, ip), ticket);
      lease := new Lease(this, UploadKey(user, ip), ticket);
    }

    // The slot in the channel is taken already.
    method Grant(key: UploadKey, ghost ticket: nat)
      requires global > 0 && Inv(limits, View().(occupied := global - 1)) && ticket !in leases
      requires global <= limits.global && Count(users, key.user) < limits.perUser && Count(ips, key.ip) < limits.perIP
      modifies this`users, this`ips, this`leases
      ensures Valid() && leases == old(leases)[ticket := key]
      ensures users == Up(old(users), key.user) && ips == Up(old(ips), key.ip)
      ensures Run(limits, old(View()).(occupied := global - 1), [Send(0, key), Admit(0, ticket)], View())
    {
      SendThenAdmit(limits, View().(occupied := global - 1), key, ticket);
      users := Up(users, key.user);
      ips := Up(ips, key.ip);
      leases := leases[ticket := key];
    }

    // The body of the sync.Once in Lease.Release.
    method GiveBack(key: UploadKey, ghost ticket: nat)
      requires Valid() && ticket in leases && leases[ticket] == key
      modifies this
      ensures Valid() && ticket !in leases
      ensures Run(limits, old(View()), [Free(0, ticket), Receive(0)], View())
      ensures global == old(global) - 1
      ensures forall u: Name :: Count(users, u) == Count(old(users), u) - if u == key.user then 1 else 0
      ensures forall i: Name :: Count(ips, i) == Count(old(ips), i) - if i == key.ip then 1 else 0
    {
      FreeThenReceive(limits, View(), ticket);
      users := Down(users, key.user);
      ips := Down(ips, key.ip);
      leases := leases - {ticket};
      global := global - 1;
    }
  }

  class Lease {
    const limiter: Limiter
    const key: UploadKey
    var done: bool // the sync.Once
    ghost const ticket: nat

    ghost predicate Valid()
      reads this, limiter
    {
      limiter.Valid() && (!done <==> ticket in limiter.leases) && (!done ==> limiter.leases[ticket] == key)
    }

    constructor (limiter: Limiter, key: UploadKey, ghost ticket: nat)
      requires limiter.Valid() && ticket in limiter.leases && limiter.leases[ticket] == key
      ensures this.limiter == limiter && this.key == key && this.ticket == ticket && Valid() && !done
    {
      this.limiter, this.key, this.ticket, this.done := limiter, key, ticket, false;
    }

    // The first call takes the lease out of all three counts; any later call
    // changes nothing.
    method Release()
      requires Valid()
      modifies this`done, limiter
      ensures Valid() && done
      ensures old(done) ==> limiter.View() == old(limiter.View())
      ensures !old(done) ==>
                && limiter.global == old(limiter.global) - 1
                && (forall u: Name :: Count(limiter.users, u) == Count(old(limiter.users), u) - if u == key.user then 1 else 0)
                && (forall i: Name :: Count(limiter.ips, i) == Count(old(limiter.ips), i) - if i == key.ip then 1 else 0)
      ensures !old(done) ==> Run(limiter.limits, old(limiter.View()), [Free(0, ticket), Receive(0)], limiter.View())
    {
      if done {
        return;
      }
      done := true;
      limiter.GiveBack(key, ticket);
    }
  }
}
