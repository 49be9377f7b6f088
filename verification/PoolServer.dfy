/** NetworkPluginServer itself: methods that update backends, users and the queue in
    place.  Each is proved to do to the heap exactly what its function in PoolModel does
    to a snapshot, and to keep the links between the objects. */
module PoolServer {
  import opened Lists
  import opened PoolModel
  import opened PoolLinks
  import LogSlots
  import M = PoolModel

  /** A handler working for u never touches the list of the dying backend x. */
  lemma {:induction false} DisconnectSparesDying(cfg: Config, s: Pool, u: User, network: bool, x: Backend)
    requires x in s.backends && s.backends[x].willDie && Who(s, u).data != x
    ensures var t := M.HandleDisconnected(cfg, s, u, network);
      x in t.backends && t.backends[x].users == s.backends[x].users
  {
    if !Who(s, u).ignoreDisconnect {
      if network && MayRetry(Who(s, u)) {
        var s1 := M.SetUser(s, u, Who(s, u).(reconnects := Who(s, u).reconnects + 1));
        var s2 := M.HandleUserDestroyed(cfg, s1, u);
        DestroySpares(cfg, s1, u, x);
        CreateSpares(cfg, s2, u, x);
        var s3 := M.HandleUserCreated(cfg, s2, u);
        FireReadyTrace(s3, u, Who(s3, u).handlers);
        hide M.HandleUserDestroyed, M.HandleUserCreated, M.FireReady;
      } else {
        DestroySpares(cfg, s, u, x);
        hide M.HandleUserDestroyed;
      }
    }
  }

  lemma {:induction false} DestroySpares(cfg: Config, s: Pool, u: User, x: Backend)
    requires x in s.backends && s.backends[x].willDie && Who(s, u).data != x
    ensures var t := M.HandleUserDestroyed(cfg, s, u);
      x in t.backends && t.backends[x] == s.backends[x]
  {
  }

  lemma {:induction false} CreateSpares(cfg: Config, s: Pool, u: User, x: Backend)
    requires x in s.backends && s.backends[x].willDie
    ensures var t := M.HandleUserCreated(cfg, s, u);
      x in t.backends && t.backends[x] == s.backends[x]
  {
  }

  lemma {:induction false} NewUserLinks(cfg: Config, s: Pool, u: User, limit: int)
    requires Links(cfg, s, null, []) && u !in s.users
    ensures var s1 := Tick(s);
      var s2 := SetUser(s1, u, NewUser(limit, s1.desk.clock));
      Links(cfg, s2, null, []) && Loose(s2, u)
  {
    var s1 := Tick(s);
    var s2 := SetUser(s1, u, NewUser(limit, s1.desk.clock));
    forall b | b in s2.clients
      ensures b in s2.backends && SeatsOk(cfg, s2, b, Held(s2, b, null, []))
    {
      assert SeatsOk(cfg, s, b, Held(s, b, null, []));
    }
  }

  lemma {:induction false} ListedUsers(cfg: Config, s: Pool, b: Backend)
    requires Links(cfg, s, null, []) && b in s.clients
    ensures forall u :: u in At(s, b).users ==> u in s.users
  {
    assert SeatsOk(cfg, s, b, Held(s, b, null, []));
  }

  /** The clients from i on are still as they were in s. */
  ghost predicate Untouched(s: Pool, t: Pool, cs: seq<Backend>, i: nat) {
    forall j :: i <= j < |cs| ==> At(t, cs[j]) == At(s, cs[j])
  }

  lemma {:induction false} RemovalsSame(s: Pool, t: Pool, cs: seq<Backend>)
    requires s.backends == t.backends
    ensures RemovalList(s, cs) == RemovalList(t, cs)
    decreases |cs|
  {
    if cs != [] { RemovalsSame(s, t, cs[1..]); }
    hide Removals;
  }

  lemma {:induction false} UntouchedAtFirst(s: Pool, t: Pool, cs: seq<Backend>)
    requires t.backends == s.backends
    ensures Untouched(s, t, cs, 0)
  {
  }

  /** One round of the loop over the clients in pingTimeout. */
  lemma {:induction false} CheckNext(s: Pool, t: Pool, cs: seq<Backend>, i: nat)
    requires NoDup(cs) && i < |cs| && Untouched(s, t, cs, i)
    ensures Untouched(s, M.Ping(t, cs[i]), cs, i + 1)
    ensures PingAll(t, cs[i..]) == PingAll(M.Ping(t, cs[i]), cs[i + 1..])
    ensures RemovalList(s, cs[i..]) == Removals(At(t, cs[i]), cs[i]) + RemovalList(s, cs[i + 1..])
  {
    assert cs[i..][1..] == cs[i + 1..];
    hide Removals;
  }

  lemma {:induction false} CheckedAll(s: Pool, t: Pool)
    ensures PingAll(t, []) == t && RemovalList(s, []) == []
  {
  }

  /** The head of the queue, once popped, is in no list. */
  lemma {:induction false} HeadIsLoose(cfg: Config, s: Pool)
    requires Links(cfg, s, null, []) && s.waiting != []
    ensures var s0 := s.(waiting := s.waiting[1..]);
      Links(cfg, s0, null, []) && Loose(s0, s.waiting[0])
  {
    var s0 := s.(waiting := s.waiting[1..]);
    NoDupTail(s.waiting, 1);
    forall b | b in s0.clients
      ensures SeatsOk(cfg, s0, b, Held(s0, b, null, []))
    {
      assert SeatsOk(cfg, s, b, Held(s, b, null, []));
    }
  }

  lemma {:induction false} ListedClients(s: Pool)
    ensures forall c :: c in RemovalList(s, s.clients) ==> c in s.clients
  {
    NamedAmong(s, s.clients);
  }

  lemma {:induction false} NamedAmong(s: Pool, cs: seq<Backend>)
    ensures forall c :: c in RemovalList(s, cs) ==> c in cs
    decreases |cs|
  {
    if cs != [] {
      NamedAmong(s, cs[1..]);
    }
  }

  lemma {:induction false} CheckedClients(s: Pool)
    ensures M.CheckPings(s).clients == s.clients
  {
    PingedClients(s.(desk := s.desk.(starting := false)), s.clients);
    hide PingAll;
  }

  class NetworkPluginServer {
    const cfg: Config
    var clients: seq<Backend>
    var waiting: seq<User>
    var starting: bool
    var nextLongRun: bool
    var lastLogin: int
    var pids: seq<nat>

    // supplied by the environment
    var clock: int
    var ticks: seq<nat>
    var pid: nat

    ghost var backends: set<Backend>
    ghost var users: set<User>
    ghost var trace: seq<Obs>

    ghost function DeskNow(): Desk
      reads this
    {
      Desk(starting, nextLongRun, lastLogin, pids, clock, ticks, pid)
    }

    ghost function Abs(): Pool
      reads this, backends, users
    {
      Pool(clients, map b | b in backends :: b.State(), map u | u in users :: u.State(),
           waiting, DeskNow(), trace)
    }

    lemma {:induction false} SnapshotOf(b: Backend?, u: User?)
      ensures b != null && b in backends ==> b in Abs().backends && At(Abs(), b) == b.State()
      ensures u != null && u in users ==> u in Abs().users && Who(Abs(), u) == u.State()
      ensures Abs().waiting == waiting && Abs().clients == clients && Abs().desk == DeskNow()
      ensures Abs().backends.Keys == backends && Abs().users.Keys == users
    {
    }

    /** One backend was written to: the snapshot changes there and nowhere else. */
    twostate lemma {:induction false} WroteBackend(c: Backend)
      requires old(c in backends) && unchanged(this)
      requires forall b :: b in old(backends) && b != c ==> unchanged(b)
      requires forall u :: u in old(users) ==> unchanged(u)
      ensures Abs() == SetBackend(old(Abs()), c, c.State())
      ensures At(old(Abs()), c) == old(c.State())
    {
    }

    twostate lemma {:induction false} WroteUser(u: User)
      requires old(u in users) && unchanged(this)
      requires forall b :: b in old(backends) ==> unchanged(b)
      requires forall v :: v in old(users) && v != u ==> unchanged(v)
      ensures Abs() == SetUser(old(Abs()), u, u.State())
      ensures Who(old(Abs()), u) == old(u.State())
    {
    }

    /** Only the server's own fields were written to. */
    twostate lemma {:induction false} WroteServer()
      requires old(backends) == backends && old(users) == users
      requires forall b :: b in old(backends) ==> unchanged(b)
      requires forall u :: u in old(users) ==> unchanged(u)
      ensures Abs() == Pool(clients, old(Abs()).backends, old(Abs()).users, waiting, DeskNow(), trace)
      ensures old(Abs()).clients == old(clients) && old(Abs()).waiting == old(waiting)
      ensures old(Abs()).desk == old(DeskNow()) && old(Abs()).trace == old(trace)
    {
    }

    /** The links hold, with only `rest` of x's list still to be visited. */
    ghost predicate Linked(x: Backend?, rest: seq<User>)
      reads this, backends, users
    {
      Links(cfg, Abs(), x, rest)
    }

    constructor (config: Config, firstPid: nat, now: int)
      ensures cfg == config && Abs() == Initial(firstPid, now) && Linked(null, [])
    {
      cfg := config;
      clients, waiting := [], [];
      starting, nextLongRun, lastLogin, pids := false, false, 0, [firstPid];
      clock, ticks, pid := now, [], 0;
      backends, users, trace := {}, {}, [];
    }

    method Time() returns (now: int)
      modifies this`clock, this`ticks
      ensures Abs() == Tick(old(Abs())) && now == clock
    {
      if ticks != [] {
        clock, ticks := clock + ticks[0], ticks[1..];
      }
      now := clock;
      WroteServer();
      hide Abs;
    }

    method GetFreeClient(accept: bool, longRun: bool, check: bool) returns (c: Backend?)
      requires forall b :: b in clients ==> b in backends
      modifies this, backends
      ensures backends == old(backends) && users == old(users)
      ensures (Abs(), c) == M.GetFreeClient(cfg, old(Abs()), accept, longRun, check)
    {
      hide Abs, FirstFree, Claim, StampLogin, SpawnBackend;
      SnapshotOf(null, null);
      ghost var s := Abs();
      var now := Time();
      SnapshotOf(null, null);
      if cfg.loginDelay != 0 && now - lastLogin < cfg.loginDelay {
        return null;
      }
      if !check {
        StampNow();
      }
      c := FindFree(accept, longRun);
      SnapshotOf(null, null);
      if c != null {
        if !check {
          StopAcceptingIfFull(c);
        }
      } else {
        StartBackend(longRun);
      }
    }

    method StampNow()
      modifies this`clock, this`ticks, this`lastLogin
      ensures Abs() == old(Abs()).(desk := StampLogin(old(Abs()).desk))
    {
      var now := Time();
      label timed:
      lastLogin := now;
      WroteServer@timed();
      hide Abs;
    }

    method StartBackend(longRun: bool)
      modifies this`nextLongRun, this`starting, this`pids
      ensures Abs() == old(Abs()).(desk := SpawnBackend(old(Abs()).desk, longRun))
    {
      if !starting {
        nextLongRun := longRun;
        starting := true;
        RecordPid();
      }
      WroteServer();
      hide Abs, LogSlots.Spawn;
    }

    method StopAcceptingIfFull(c: Backend)
      requires c in backends
      modifies c`acceptUsers
      ensures Abs() == old(Abs()).(backends := Claim(cfg, old(Abs()).backends, c))
    {
      if !cfg.reuseOldBackends && |c.users| + 1 >= cfg.usersPerBackend {
        c.acceptUsers := false;
      }
      WroteBackend(c);
      hide Abs;
    }

    method FindFree(accept: bool, longRun: bool) returns (c: Backend?)
      requires forall b :: b in clients ==> b in backends
      ensures c == FirstFree(cfg, Abs().backends, clients, accept, longRun)
    {
      c := null;
      var i := 0;
      while i < |clients|
        invariant 0 <= i <= |clients|
        invariant FirstFree(cfg, Abs().backends, clients, accept, longRun)
               == FirstFree(cfg, Abs().backends, clients[i..], accept, longRun)
      {
        var b := clients[i];
        assert clients[i..][1..] == clients[i + 1..];
        assert Look(Abs().backends, b) == b.State();
        if !b.willDie && b.acceptUsers == accept && |b.users| < cfg.usersPerBackend && b.longRun == longRun {
          return b;
        }
        i := i + 1;
      }
    }

    method RecordPid()
      modifies this`pids
      ensures pids == LogSlots.Spawn(old(pids), pid)
      ensures Abs() == old(Abs()).(desk := DeskNow())
    {
      var i := LogSlots.IndexOf(pids, 0);
      if i == |pids| {
        pids := pids + [pid];
      } else {
        pids := pids[i := pid];
      }
    }

    // -------------------------------------------------------------- users come and go

    /** The two assignments handleUserCreated and moveToLongRunBackend share. */
    method Place(u: User, c: Backend)
      requires u in users && c in backends
      modifies u`data, c`users, this`trace
      ensures Abs() == M.Place(old(Abs()), u, c)
    {
      u.data := c;
      WroteUser(u);
      label linked:
      c.users := c.users + [u];
      WroteBackend@linked(c);
      label listed:
      trace := trace + [Assigned(u, c, lastLogin)];
      WroteServer@listed();
      hide Abs;
    }

    method ConnectHandlers(u: User)
      requires u in users
      modifies u`handlers
      ensures Abs() == M.ConnectHandlers(old(Abs()), u)
    {
      u.handlers := u.handlers + 1;
      WroteUser(u);
      hide Abs;
    }

    method Enqueue(u: User)
      modifies this`waiting
      ensures Abs() == old(Abs()).(waiting := old(Abs()).waiting + [u])
    {
      waiting := waiting + [u];
      WroteServer();
      hide Abs;
    }

    method HandleUserCreated(u: User, ghost x: Backend?, ghost rest: seq<User>)
      requires Linked(x, rest) && Loose(Abs(), u)
      modifies this, backends, u
      ensures backends == old(backends) && users == old(users)
      ensures Abs() == M.HandleUserCreated(cfg, old(Abs()), u)
      ensures Linked(x, rest)
    {
      CreatedLinks(cfg, Abs(), u, x, rest);
      GetFreeCalm(cfg, Abs(), true, false, false);
      var c := GetFreeClient(true, false, false);
      if c == null {
        Enqueue(u);
      } else {
        Place(u, c);
        ConnectHandlers(u);
      }
      hide Links, M.GetFreeClient, M.Place, M.ConnectHandlers;
    }

    method Leave(u: User, c: Backend)
      requires u in users && c in backends
      modifies c`users, c`willDie
      ensures Abs() == M.Leave(cfg, old(Abs()), u, c)
    {
      hide Remove;
      c.users := Remove(c.users, u);
      if c.users == [] && cfg.usersPerBackend == 1 {
        c.willDie := true;
      }
      WroteBackend(c);
      hide Abs;
    }

    method Observe(ghost o: Obs)
      modifies this`trace
      ensures Abs() == Note(old(Abs()), o)
    {
      trace := trace + [o];
      WroteServer();
      hide Abs;
    }

    method Unhook(u: User)
      requires u in users
      modifies this`waiting, u`handlers
      ensures var s1 := old(Abs()).(waiting := Remove(old(Abs()).waiting, u));
        Abs() == SetUser(s1, u, Who(s1, u).(handlers := 0))
    {
      hide Remove;
      waiting := Remove(waiting, u);
      WroteServer();
      label queued:
      u.handlers := 0;
      WroteUser@queued(u);
      hide Abs;
    }

    method HandleUserDestroyed(u: User)
      requires u in users && (u.data != null ==> u.data in backends)
      modifies this, backends, u
      ensures backends == old(backends) && users == old(users)
      ensures Abs() == M.HandleUserDestroyed(cfg, old(Abs()), u)
    {
      Unhook(u);
      var c := u.data;
      assert Who(Abs(), u) == u.State();
      if c != null {
        Observe(Logout(u, c));
        Leave(u, c);
      }
      hide Abs, M.Leave;
    }

    method HandleUserReadyToConnect(u: User)
      requires u in users
      modifies this`trace
      ensures Abs() == M.HandleUserReadyToConnect(old(Abs()), u)
    {
      if u.data != null {
        trace := trace + [Login(u, u.data)];
      }
    }

    /** Emitting onReadyToConnect: one call per connected slot. */
    method FireReady(u: User)
      requires u in users
      modifies this`trace
      ensures Abs() == M.FireReady(old(Abs()), u, Who(old(Abs()), u).handlers)
    {
      ghost var s := Abs();
      var i := 0;
      while i < u.handlers
        invariant i <= u.handlers
        invariant Abs() == s.(trace := trace)
        invariant M.FireReady(s, u, u.handlers) == M.FireReady(Abs(), u, u.handlers - i)
      {
        HandleUserReadyToConnect(u);
        i := i + 1;
      }
    }

    // -------------------------------------------------------------- User::handleDisconnected

    method CountRetry(u: User, ghost x: Backend?, ghost rest: seq<User>)
      requires Linked(x, rest) && u in users
      modifies u`reconnects
      ensures Abs() == SetUser(old(Abs()), u, Who(old(Abs()), u).(reconnects := Who(old(Abs()), u).reconnects + 1))
      ensures Linked(x, rest)
    {
      ghost var s := Abs();
      SnapshotOf(null, u);
      u.reconnects := u.reconnects + 1;
      WroteUser(u);
      hide Abs, Links;
      FlagsLinks(cfg, s, u, u.State(), x, rest);
    }

    /** handleUserDestroyed for a user still managed: it ends up in no list. */
    method Detach(u: User, ghost x: Backend?, ghost rest: seq<User>)
      requires Linked(x, rest) && u in users && (x != null ==> u.data != x)
      modifies this, backends, u
      ensures backends == old(backends) && users == old(users)
      ensures Abs() == M.HandleUserDestroyed(cfg, old(Abs()), u)
      ensures Linked(x, rest) && Loose(Abs(), u)
    {
      assert Abs().users[u] == u.State();
      DestroyedLinks(cfg, Abs(), u, x, rest);
      HandleUserDestroyed(u);
      hide M.HandleUserDestroyed, Links, Loose;
    }

    /** Simulated destruction and resurrection. */
    method Resurrect(u: User, ghost x: Backend?, ghost rest: seq<User>)
      requires Linked(x, rest) && u in users && (x != null ==> u.data != x)
      modifies this, backends, u
      ensures backends == old(backends) && users == old(users)
      ensures Abs() == M.Resurrect(cfg, old(Abs()), u)
    {
      hide Links, Abs, Loose, M.HandleUserDestroyed, M.HandleUserCreated, M.FireReady;
      CountRetry(u, x, rest);
      Detach(u, x, rest);
      HandleUserCreated(u, x, rest);
      FireReady(u);
    }

    method RemoveUser(u: User, ghost x: Backend?, ghost rest: seq<User>)
      requires Linked(x, rest) && u in users && (x != null ==> u.data != x)
      modifies this, backends, u
      ensures backends == old(backends) && users == old(users) - {u}
      ensures Abs() == M.RemoveUser(cfg, old(Abs()), u)
      ensures Linked(x, rest)
    {
      assert Abs().users[u] == u.State();
      RemoveUserLinks(cfg, Abs(), u, x, rest);
      HandleUserDestroyed(u);
      Forget(u);
      hide Links, Abs, M.HandleUserDestroyed;
    }

    method Forget(u: User)
      modifies this`users
      ensures users == old(users) - {u}
      ensures Abs() == old(Abs()).(users := old(Abs()).users - {u})
    {
      users := users - {u};
    }

    method HandleDisconnected(u: User, network: bool, ghost x: Backend?, ghost rest: seq<User>)
      requires Linked(x, rest) && u in users && (x != null ==> u.data != x)
      modifies this, backends, u
      ensures backends == old(backends) && users <= old(users)
      ensures Abs() == M.HandleDisconnected(cfg, old(Abs()), u, network)
      ensures Linked(x, rest)
    {
      ghost var s := Abs();
      assert s.users[u] == u.State();
      DisconnectedLinks(cfg, s, u, network, x, rest);
      if u.ignoreDisconnect {
        return;
      }
      if network && (u.reconnectLimit < 0 || u.reconnects < u.reconnectLimit) {
        Resurrect(u, x, rest);
      } else {
        RemoveUser(u, x, rest);
      }
      hide Links, Abs, M.Resurrect, M.RemoveUser;
    }

    // -------------------------------------------------------------- the waiting queue

    method PopWaiting() returns (u: User)
      requires Linked(null, []) && waiting != []
      modifies this`waiting
      ensures u == old(waiting)[0]
      ensures Abs() == old(Abs()).(waiting := old(Abs()).waiting[1..])
      ensures Linked(null, []) && Loose(Abs(), u) && u in users
    {
      HeadIsLoose(cfg, Abs());
      u := waiting[0];
      waiting := waiting[1..];
      hide Links;
    }

    /** One round of connectWaitingUsers after a successful check. */
    method ServeFirst()
      requires Linked(null, []) && waiting != []
      modifies this, backends, users
      ensures backends == old(backends) && users == old(users)
      ensures Abs() == M.ServeFirst(cfg, old(Abs()))
      ensures Linked(null, [])
    {
      hide Links, Abs, M.HandleUserCreated, M.HandleUserReadyToConnect;
      SnapshotOf(null, null);
      ServeFirstLinks(cfg, Abs());
      var u := PopWaiting();
      HandleUserCreated(u, null, []);
      SnapshotOf(null, u);
      if u.ready {
        HandleUserReadyToConnect(u);
      }
    }

    method ConnectWaitingUsers()
      requires Linked(null, [])
      modifies this, backends, users
      ensures backends == old(backends) && users == old(users)
      ensures Abs() == M.ConnectWaitingUsers(cfg, old(Abs()))
      ensures Linked(null, [])
    {
      ghost var s := Abs();
      ConnectWaitingLinks(cfg, s);
      while waiting != []
        invariant backends == old(backends) && users == old(users)
        invariant Linked(null, [])
        invariant M.ConnectWaitingUsers(cfg, Abs()) == M.ConnectWaitingUsers(cfg, s)
        decreases |waiting|
      {
        ghost var s0 := Abs();
        assert s0.waiting == waiting;
        var c := Check();
        if c == null {
          return;
        }
        CheckedServeShrinks(cfg, s0);
        assert Abs().waiting == waiting;
        ServeFirst();
        assert Abs().waiting == waiting;
        hide M.ServeFirst, M.GetFreeClient, Links;
      }
    }

    /** getFreeClient(true, false, true): is anybody free? */
    method Check() returns (c: Backend?)
      requires Linked(null, [])
      modifies this, backends
      ensures backends == old(backends) && users == old(users)
      ensures (Abs(), c) == M.GetFreeClient(cfg, old(Abs()), true, false, true)
      ensures Linked(null, [])
    {
      ghost var s := Abs();
      GetFreeCalm(cfg, s, true, false, true);
      c := GetFreeClient(true, false, true);
      CalmLinks(cfg, s, Abs(), null, []);
      hide Links, M.GetFreeClient;
    }

    /** service.login_delay has passed. */
    method LoginDelayFinished()
      requires Linked(null, [])
      modifies this, backends, users
      ensures Abs() == Apply(cfg, old(Abs()), LoginTimer) && Linked(null, [])
    {
      ConnectWaitingUsers();
    }

    // -------------------------------------------------------------- backends come and go

    method HandleNewClientConnection() returns (c: Backend)
      requires Linked(null, [])
      modifies this
      ensures fresh(c) && backends == old(backends) + {c} && users == old(users)
      ensures Abs() == M.HandleNewClientConnection(old(Abs()), c)
      ensures Linked(null, [])
    {
      ghost var s := Abs();
      c := new Backend(nextLongRun);
      NewClientLinks(cfg, s, c);
      Register(c);
      hide Links;
    }

    method Register(c: Backend)
      requires c !in backends && c.State() == Connected(nextLongRun)
      modifies this
      ensures backends == old(backends) + {c} && users == old(users)
      ensures Abs() == M.HandleNewClientConnection(old(Abs()), c)
    {
      starting := false;
      clients := [c] + clients;
      backends := backends + {c};
    }

    method SetPong(c: Backend, p: Pong)
      requires c in backends
      modifies c`pong
      ensures Abs() == SetBackend(old(Abs()), c, At(old(Abs()), c).(pong := p))
    {
      c.pong := p;
      WroteBackend(c);
      hide Abs;
    }

    method SetWillDie(c: Backend, dying: bool)
      requires c in backends
      modifies c`willDie
      ensures Abs() == SetBackend(old(Abs()), c, At(old(Abs()), c).(willDie := dying))
    {
      c.willDie := dying;
      WroteBackend(c);
      hide Abs;
    }

    /** The part of handleDataRead that proves the backend alive. */
    method HandleFrame(c: Backend)
      requires Linked(null, []) && c in clients
      modifies c`pong
      ensures Abs() == M.HandleFrame(old(Abs()), c)
      ensures Linked(null, [])
    {
      PingStateLinks(cfg, Abs(), c, Received);
      assert c in Abs().backends && At(Abs(), c) == c.State();
      if c.pong == Missing {
        SetPong(c, Received);
      }
      hide Links;
    }

    method HandlePongReceived(c: Backend)
      requires Linked(null, []) && c in clients
      modifies this, backends, users
      ensures backends == old(backends) && users == old(users)
      ensures Abs() == M.HandlePongReceived(cfg, old(Abs()), c)
      ensures Linked(null, [])
    {
      ghost var s := Abs();
      PongLinks(cfg, s, c);
      assert c in s.backends;
      HandleFrame(c);
      ghost var s0 := Abs();
      Observe(Ponged(c));
      NotedLinks(cfg, s0, Abs(), null, []);
      assert At(Abs(), c) == c.State();
      if c.pong == Unseen {
        ReviveLinks(cfg, Abs(), c);
        SetWillDie(c, false);
        ConnectWaitingUsers();
      }
      SetPong(c, Received);
      hide Links, Abs, M.ConnectWaitingUsers;
    }

    method ClearData(u: User)
      requires u in users
      modifies u`data
      ensures Abs() == SetUser(old(Abs()), u, Who(old(Abs()), u).(data := null))
    {
      u.data := null;
      WroteUser(u);
      hide Abs;
    }

    /** The body of the loop in handleSessionFinished. */
    method Orphan(u: User, c: Backend, ghost rest: seq<User>)
      requires c in backends && rest != [] && rest[0] == u && Linked(c, rest)
      modifies this, backends, users
      ensures backends == old(backends) && users <= old(users)
      ensures Abs() == M.Orphan(cfg, old(Abs()), u)
      ensures Linked(c, rest[1..])
      ensures c.users == old(c.users)
    {
      UnlinkLinks(cfg, Abs(), c, rest);
      assert c.willDie && u in users by { SnapshotOf(c, u); }
      hide Links, M.HandleDisconnected, Abs;
      SnapshotOf(c, u);
      ClearData(u);
      SnapshotOf(c, u);
      DisconnectSparesDying(cfg, Abs(), u, true, c);
      HandleDisconnected(u, true, c, rest[1..]);
      SnapshotOf(c, null);
    }

    /** Walks the list of the dying backend while its users leave for other backends. */
    method OrphanAll(c: Backend)
      requires c in backends && Linked(c, c.users)
      modifies this, backends, users
      ensures backends == old(backends) && users <= old(users)
      ensures Abs() == M.OrphanAll(cfg, old(Abs()), old(c.users))
      ensures Linked(c, [])
    {
      hide Links, M.Orphan, Abs;
      ghost var s := Abs();
      ghost var us := c.users;
      var i := 0;
      while i < |c.users|
        invariant backends == old(backends) && users <= old(users)
        invariant i <= |us| && c.users == us
        invariant Linked(c, us[i..])
        invariant M.OrphanAll(cfg, Abs(), us[i..]) == M.OrphanAll(cfg, s, us)
      {
        assert us[i..][1..] == us[i + 1..];
        Orphan(c.users[i], c, us[i..]);
        i := i + 1;
      }
      assert us[i..] == [];
    }

    method HandleSessionFinished(c: Backend)
      requires Linked(null, []) && c in clients
      modifies this, backends, users
      ensures backends == old(backends) && users <= old(users)
      ensures Abs() == M.HandleSessionFinished(cfg, old(Abs()), c)
      ensures Linked(null, []) && clients == Remove(old(clients), c)
    {
      assert c in backends by { SnapshotOf(null, null); }
      hide Links, M.OrphanAll, Abs;
      SnapshotOf(c, null);
      SessionFinishedLinks(cfg, Abs(), c);
      CondemnLinks(cfg, Abs(), c);
      SetWillDie(c, true);
      SnapshotOf(c, null);
      OrphanAll(c);
      DropClient(c);
      SnapshotOf(null, null);
    }

    method DropClient(c: Backend)
      modifies this`clients
      ensures Abs() == old(Abs()).(clients := Remove(old(Abs()).clients, c))
      ensures c !in clients
    {
      clients := Remove(clients, c);
    }

    method SetRes(c: Backend, res: nat)
      requires c in backends
      modifies c`res
      ensures Abs() == SetBackend(old(Abs()), c, At(old(Abs()), c).(res := res))
    {
      c.res := res;
      WroteBackend(c);
      hide Abs;
    }

    method HandleStatsPayload(c: Backend, res: nat)
      requires Linked(null, []) && c in clients
      modifies c`res
      ensures Abs() == Apply(cfg, old(Abs()), Stats(c, res)) && Linked(null, [])
    {
      CalmLinks(cfg, Abs(), SetBackend(Abs(), c, At(Abs(), c).(res := res)), null, []);
      assert c in backends by { SnapshotOf(null, null); }
      hide Links, Abs;
      SetRes(c, res);
    }

    // -------------------------------------------------------------- moving idle users

    method SetIgnoreDisconnect(u: User, ignore: bool)
      requires u in users
      modifies u`ignoreDisconnect
      ensures Abs() == SetUser(old(Abs()), u, Who(old(Abs()), u).(ignoreDisconnect := ignore))
    {
      u.ignoreDisconnect := ignore;
      WroteUser(u);
      hide Abs;
    }

    method Unlist(u: User, c: Backend)
      requires c in backends
      modifies c`users
      ensures Abs() == SetBackend(old(Abs()), c, At(old(Abs()), c).(users := Remove(At(old(Abs()), c).users, u)))
    {
      hide Remove;
      c.users := Remove(c.users, u);
      WroteBackend(c);
      hide Abs;
    }

    /** Moves u from prev to c and logs it in there. */
    method Reseat(u: User, prev: Backend, c: Backend)
      requires u in users && prev in backends && c in backends
      modifies this`trace, prev`users, c`users, u`data, u`ignoreDisconnect
      ensures Abs() == M.Reseat(old(Abs()), u, prev, c)
    {
      hide Abs, M.Place, M.HandleUserReadyToConnect;
      SetIgnoreDisconnect(u, true);
      Unlist(u, prev);
      Place(u, c);
      HandleUserReadyToConnect(u);
    }

    lemma {:induction false} SeatedIsLinked(u: User)
      requires Linked(null, []) && Seated(Abs(), u)
      ensures u in users && (u.data != null ==> u.data in backends)
      ensures forall b :: b in clients ==> b in backends
      ensures Links(cfg, M.MoveToLongRunBackend(cfg, Abs(), u).0, null, [])
      ensures var (t, c) := M.GetFreeClient(cfg, Abs(), false, true, false);
        (c != null ==> c in backends) && t.users == Abs().users && t.backends.Keys == backends
    {
      MoveLinks(cfg, Abs(), u);
      GetFreeCalm(cfg, Abs(), false, true, false);
      SnapshotOf(null, u);
      hide M.MoveToLongRunBackend, M.GetFreeClient;
    }

    method MoveToLongRunBackend(u: User) returns (ok: bool)
      requires Linked(null, []) && Seated(Abs(), u)
      modifies this, backends, users
      ensures backends == old(backends) && users == old(users)
      ensures (Abs(), ok) == M.MoveToLongRunBackend(cfg, old(Abs()), u)
      ensures Linked(null, [])
    {
      hide Links, Abs, M.GetFreeClient, M.Reseat, Seated;
      SeatedIsLinked(u);
      var prev := u.data;
      SnapshotOf(prev, u);
      if prev == null || prev.longRun {
        return true;
      }
      var c := GetFreeClient(false, true, false);
      if c == null {
        return false;
      }
      Reseat(u, prev, c);
      ok := true;
    }

    /** usersToMove, collected before anybody moves. */
    method CollectIdle() returns (us: seq<User>)
      requires Linked(null, [])
      ensures us == UsersToMove(cfg, Abs(), clients)
    {
      hide Links, Abs, IdleOf;
      us := [];
      var i := 0;
      ghost var s := Abs();
      while i < |clients|
        invariant i <= |clients|
        invariant us + UsersToMove(cfg, s, clients[i..]) == UsersToMove(cfg, s, clients)
      {
        var mine := IdleUsersOf(clients[i]);
        assert clients[i..][1..] == clients[i + 1..];
        SeqAssoc(us, mine, UsersToMove(cfg, s, clients[i + 1..]));
        us := us + mine;
        i := i + 1;
      }
    }

    method IdleUsersOf(c: Backend) returns (us: seq<User>)
      requires Linked(null, []) && c in clients
      ensures us == IdleOf(cfg, Abs(), c)
    {
      assert c in backends by { SnapshotOf(null, null); }
      ListedUsers(cfg, Abs(), c);
      hide Links, Abs;
      SnapshotOf(c, null);
      us := [];
      if !c.longRun {
        us := IdleUsers(c.users);
      }
    }

    method IdleUsers(list: seq<User>) returns (us: seq<User>)
      requires forall u :: u in list ==> u in users
      ensures us == IdleAmong(cfg, Abs(), list)
    {
      hide Abs;
      ghost var s := Abs();
      us := [];
      var i := 0;
      while i < |list|
        invariant i <= |list|
        invariant us + IdleAmong(cfg, s, list[i..]) == IdleAmong(cfg, s, list)
      {
        var u := list[i];
        SnapshotOf(null, u);
        ghost var rest := IdleAmong(cfg, s, list[i + 1..]);
        assert list[i..][1..] == list[i + 1..];
        if clock - u.lastActivity > cfg.idleReconnectTime {
          SeqAssoc(us, [u], rest);
          us := us + [u];
        } else {
          assert [] + rest == rest;
        }
        i := i + 1;
      }
    }

    method MoveIdleUsers()
      requires Linked(null, [])
      modifies this, backends, users
      ensures backends == old(backends) && users == old(users)
      ensures Abs() == M.MoveIdleUsers(cfg, old(Abs()))
      ensures Linked(null, [])
    {
      ghost var s := Abs();
      ghost var s1 := Tick(s);
      CalmLinks(cfg, s, s1, null, []);
      hide Links, Abs, M.MoveAll, Seated;
      var now := Time();
      if cfg.idleReconnectTime != 0 {
        var us := CollectIdle();
        SnapshotOf(null, null);
        AllToMoveSeated(cfg, s1);
        MoveAllInTurn(us);
      }
    }

    method MoveAllInTurn(us: seq<User>)
      requires Linked(null, []) && forall u :: u in us ==> Seated(Abs(), u)
      modifies this, backends, users
      ensures backends == old(backends) && users == old(users)
      ensures Abs() == M.MoveAll(cfg, old(Abs()), us)
      ensures Linked(null, [])
    {
      ghost var s := Abs();
      MoveAllLinks(cfg, s, us);
      hide Links, Abs, Seated, M.MoveToLongRunBackend;
      var i := 0;
      while i < |us|
        invariant backends == old(backends) && users == old(users)
        invariant i <= |us| && Linked(null, [])
        invariant forall u :: u in us ==> Seated(Abs(), u)
        invariant M.MoveAll(cfg, Abs(), us[i..]) == M.MoveAll(cfg, s, us)
      {
        assert us[i..][1..] == us[i + 1..];
        MoveLinks(cfg, Abs(), us[i]);
        var ok := MoveToLongRunBackend(us[i]);
        if !ok {
          return;
        }
        i := i + 1;
      }
    }

    method StopStarting()
      modifies this`starting
      ensures Abs() == old(Abs()).(desk := old(Abs()).desk.(starting := false))
    {
      starting := false;
      WroteServer();
      hide Abs;
    }

    method CheckOne(c: Backend) returns (mine: seq<Backend>)
      requires c in backends
      modifies c`pong
      ensures Abs() == Ping(old(Abs()), c)
      ensures mine == Removals(At(old(Abs()), c), c)
    {
      SnapshotOf(c, null);
      mine := [];
      if c.pong == Missing {
        mine := mine + [c];
      } else {
        SetPong(c, Missing);
      }
      if c.users == [] {
        mine := mine + [c];
      }
    }

    /** The loop over the clients in pingTimeout. */
    method CheckAll() returns (toRemove: seq<Backend>)
      requires NoDup(clients) && forall b :: b in clients ==> b in backends
      modifies backends
      ensures Abs() == PingAll(old(Abs()), clients) && toRemove == RemovalList(old(Abs()), clients)
    {
      hide Abs, NoDup, PingAll, RemovalList, Untouched, Ping, Removals;
      ghost var s := Abs();
      toRemove := [];
      var i := 0;
      UntouchedAtFirst(s, s, clients);
      while i < |clients|
        invariant i <= |clients|
        invariant Untouched(s, Abs(), clients, i)
        invariant PingAll(s, clients) == PingAll(Abs(), clients[i..])
        invariant RemovalList(s, clients) == toRemove + RemovalList(s, clients[i..])
      {
        CheckNext(s, Abs(), clients, i);
        var mine := CheckOne(clients[i]);
        SeqAssoc(toRemove, mine, RemovalList(s, clients[i + 1..]));
        toRemove := toRemove + mine;
        i := i + 1;
      }
      assert clients[i..] == [];
      CheckedAll(s, Abs());
    }

    /** The second half of pingTimeout; toRemove are the sessions it will finish. */
    method CheckPings() returns (toRemove: seq<Backend>)
      requires Linked(null, [])
      modifies this, backends
      ensures backends == old(backends) && users == old(users)
      ensures Abs() == M.CheckPings(old(Abs())) && toRemove == RemovalList(old(Abs()), old(clients))
      ensures Linked(null, [])
    {
      ghost var s := Abs();
      PingCheckLinks(cfg, s);
      assert NoDup(clients) && forall b :: b in clients ==> b in backends by { SnapshotOf(null, null); }
      hide Links, Abs, NoDup, PingAll, RemovalList;
      SnapshotOf(null, null);
      StopStarting();
      ghost var s1 := Abs();
      toRemove := CheckAll();
      RemovalsSame(s, s1, clients);
    }

    /** The removals of pingTimeout.  A user moved on to a backend further down the list is
        moved again when its turn comes. */
    method FinishAll(bs: seq<Backend>)
      requires Linked(null, []) && NoDup(bs) && forall b :: b in bs ==> b in clients
      modifies this, backends, users
      ensures backends == old(backends) && users <= old(users)
      ensures Abs() == M.FinishAll(cfg, old(Abs()), bs)
      ensures Linked(null, []) && forall b :: b in clients <==> b in old(clients) && b !in bs
    {
      hide Links, Abs, M.HandleSessionFinished;
      ghost var s := Abs();
      var i := 0;
      while i < |bs|
        invariant backends == old(backends) && users <= old(users)
        invariant i <= |bs| && Linked(null, [])
        invariant forall b :: b in clients <==> b in old(clients) && b !in bs[..i]
        invariant M.FinishAll(cfg, Abs(), bs[i..]) == M.FinishAll(cfg, s, bs)
      {
        assert bs[i..][1..] == bs[i + 1..];
        assert bs[..i + 1] == bs[..i] + [bs[i]];
        HandleSessionFinished(bs[i]);
        i := i + 1;
      }
      assert bs[i..] == [] && bs[..i] == bs;
    }

    /** pingTimeout.  The list names a client twice when it is both silent and empty, and the
        source then finishes a session that is gone; this is where the list names none twice. */
    method PingTimeout()
      requires Linked(null, [])
      requires var s := M.MoveIdleUsers(cfg, Abs()); NoDup(RemovalList(s, s.clients))
      modifies this, backends, users
      ensures backends == old(backends) && users <= old(users)
      ensures Abs() == M.PingTimeout(cfg, old(Abs()))
      ensures Linked(null, [])
    {
      hide Links, Abs, M.MoveIdleUsers, M.CheckPings, NoDup;
      MoveIdleUsers();
      SnapshotOf(null, null);
      ghost var s := Abs();
      var toRemove := CheckPings();
      ListedClients(s);
      CheckedClients(s);
      SnapshotOf(null, null);
      FinishAll(toRemove);
    }

    // -------------------------------------------------------------- collecting

    method FindBiggest() returns (best: Backend?)
      requires Linked(null, [])
      ensures best == Biggest(Abs(), clients, null, 0)
    {
      var max: nat := 0;
      best := null;
      var i := 0;
      assert forall b :: b in clients ==> b in backends by { SnapshotOf(null, null); }
      while i < |clients|
        invariant i <= |clients|
        invariant Biggest(Abs(), clients, null, 0) == Biggest(Abs(), clients[i..], best, max)
      {
        hide Links, Abs;
        var c := clients[i];
        SnapshotOf(c, null);
        assert clients[i..][1..] == clients[i + 1..];
        if c.res > max {
          max, best := c.res, c;
        }
        i := i + 1;
      }
    }

    method StopAccepting(c: Backend)
      requires c in backends
      modifies c`acceptUsers
      ensures Abs() == SetBackend(old(Abs()), c, At(old(Abs()), c).(acceptUsers := false))
    {
      c.acceptUsers := false;
      WroteBackend(c);
      hide Abs;
    }

    method CollectBackend()
      requires Linked(null, [])
      modifies backends
      ensures Abs() == M.CollectBackend(old(Abs())) && Linked(null, [])
    {
      ghost var s := Abs();
      CollectLinks(cfg, s);
      BiggestIsLargest(s, s.clients, null, 0);
      var best := FindBiggest();
      assert best != null ==> best in backends by { SnapshotOf(null, null); }
      if best != null {
        StopAccepting(best);
      }
      hide Links, Abs;
      SnapshotOf(null, null);
    }

    // -------------------------------------------------------------- users

    /** UserManager::addUser for a new User. */
    method AddUser(limit: int) returns (u: User)
      requires Linked(null, [])
      modifies this, backends
      ensures fresh(u) && backends == old(backends) && users == old(users) + {u}
      ensures Abs() == Apply(cfg, old(Abs()), PoolModel.AddUser(u, limit))
      ensures Linked(null, [])
    {
      hide Links, Abs, Loose, M.HandleUserCreated;
      u := CreateUser(limit);
      HandleUserCreated(u, null, []);
    }

    method CreateUser(limit: int) returns (u: User)
      requires Linked(null, [])
      modifies this
      ensures fresh(u) && backends == old(backends) && users == old(users) + {u}
      ensures var s1 := Tick(old(Abs()));
        Abs() == SetUser(s1, u, NewUser(limit, s1.desk.clock))
      ensures Linked(null, []) && Loose(Abs(), u)
    {
      ghost var s := Abs();
      var now := Time();
      u := new User(limit, now);
      NewUserLinks(cfg, s, u, limit);
      hide Links, Loose;
      assert Abs() == Tick(s);
      Manage(u);
    }

    method Manage(u: User)
      requires u !in users
      modifies this`users
      ensures users == old(users) + {u}
      ensures Abs() == SetUser(old(Abs()), u, u.State())
    {
      users := users + {u};
    }

    method MarkReady(u: User)
      requires u in users
      modifies u`ready
      ensures Abs() == SetUser(old(Abs()), u, Who(old(Abs()), u).(ready := true))
    {
      u.ready := true;
      WroteUser(u);
      hide Abs;
    }

    /** The user became ready to connect, by joining a room or otherwise: the signal reaches
        the pool if it listens. */
    method SetReady(u: User, joining: bool)
      requires Linked(null, []) && u in users
      modifies u`ready, this`trace
      ensures Abs() == Apply(cfg, old(Abs()), BecomeReady(u, joining)) && Linked(null, [])
    {
      SnapshotOf(null, u);
      if u.ready || (u.connected && !joining) {
        return;
      }
      ReadyLinks(cfg, Abs(), u);
      hide Links, Abs, M.FireReady;
      MarkReady(u);
      FireReady(u);
    }

    method Refresh(u: User, connected: bool, now: int)
      requires u in users
      modifies u
      ensures var r := Who(old(Abs()), u);
        Abs() == SetUser(old(Abs()), u,
          if connected then r.(connected := true, reconnects := 0, ignoreDisconnect := false, lastActivity := now)
          else r.(lastActivity := now))
    {
      if connected {
        u.connected := true;
        u.reconnects := 0;
        u.ignoreDisconnect := false;
      }
      u.lastActivity := now;
      WroteUser(u);
      hide Abs;
    }

    /** User::setConnected, when the backend reports a login. */
    method SetConnected(u: User)
      requires Linked(null, []) && u in users
      modifies this, u
      ensures backends == old(backends) && users == old(users)
      ensures Abs() == Apply(cfg, old(Abs()), PoolModel.SetConnected(u)) && Linked(null, [])
    {
      ghost var s := Abs();
      SnapshotOf(null, u);
      TouchedLinks(cfg, s, u, Apply(cfg, s, PoolModel.SetConnected(u)).users[u]);
      hide Links, Abs;
      var now := Time();
      SnapshotOf(null, u);
      Refresh(u, true, now);
    }

    method UpdateLastActivity(u: User)
      requires Linked(null, []) && u in users
      modifies this, u
      ensures backends == old(backends) && users == old(users)
      ensures Abs() == Apply(cfg, old(Abs()), Activity(u)) && Linked(null, [])
    {
      ghost var s := Abs();
      SnapshotOf(null, u);
      TouchedLinks(cfg, s, u, Apply(cfg, s, Activity(u)).users[u]);
      hide Links, Abs;
      var now := Time();
      SnapshotOf(null, u);
      Refresh(u, false, now);
    }

    method FreePid(p: nat)
      modifies this`pids
      ensures Abs() == old(Abs()).(desk := old(Abs()).desk.(pids := LogSlots.Terminate(old(Abs()).desk.pids, p)))
    {
      var i := LogSlots.IndexOf(pids, p);
      if i != |pids| {
        pids := pids[i := 0];
      }
      WroteServer();
      hide Abs;
    }

    method HandlePIDTerminated(p: nat)
      requires Linked(null, [])
      modifies this`pids
      ensures Abs() == Apply(cfg, old(Abs()), PidTerminated(p)) && Linked(null, [])
    {
      ghost var s := Abs();
      CalmLinks(cfg, s, s.(desk := s.desk.(pids := LogSlots.Terminate(s.desk.pids, p))), null, []);
      hide Links, Abs;
      FreePid(p);
    }
  }
}
