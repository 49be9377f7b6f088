/** The other handlers of the pool in the same plain terms as PoolEffects. */
module PoolEvents {
  import opened Lists
  import opened PoolModel
  import opened PoolLinks
  import opened PoolEffects
  import LogSlots

  // --------------------------------------------------------------- backends come and go

  /** A new backend joins at the front, of the kind that was asked for: dying until its first
      PONG, taking users by itself unless long-running; the next one may be started. */
  lemma {:induction false} NewClientMeans(s: Pool, c: Backend)
    ensures var t := HandleNewClientConnection(s, c);
      t == s.(clients := [c] + s.clients, desk := t.desk,
              backends := s.backends[c := BackendState([], true, !s.desk.nextLongRun, s.desk.nextLongRun, Unseen, 0)]) &&
      t.desk == s.desk.(starting := false)
  {
  }

  /** A frame counts as the PONG that is missing, and as nothing else. */
  lemma {:induction false} FrameMeans(s: Pool, c: Backend)
    requires c in s.backends
    ensures HandleFrame(s, c) ==
      if s.backends[c].pong == Missing then s.(backends := s.backends[c := s.backends[c].(pong := Received)]) else s
  {
  }

  /** A later PONG is only noted. */
  lemma {:induction false} LaterPongMeans(cfg: Config, s: Pool, c: Backend)
    requires c in s.backends && s.backends[c].pong != Unseen
    ensures HandlePongReceived(cfg, s, c) ==
      s.(trace := s.trace + [Ponged(c)], backends := s.backends[c := s.backends[c].(pong := Received)])
  {
    assert s.backends[c := s.backends[c].(pong := Received)][c := s.backends[c].(pong := Received)] ==
           s.backends[c := s.backends[c].(pong := Received)];
  }

  lemma {:induction false} PingAllMeans(s: Pool, cs: seq<Backend>)
    requires forall b :: b in cs ==> b in s.backends
    ensures var t := PingAll(s, cs);
      t == s.(backends := t.backends) && t.backends.Keys == s.backends.Keys &&
      forall b :: b in s.backends ==> t.backends[b] == if b in cs then s.backends[b].(pong := Missing) else s.backends[b]
    decreases |cs|
  {
    if cs != [] {
      PingAllMeans(Ping(s, cs[0]), cs[1..]);
    }
  }

  /** After the check every client owes a PONG, whatever it owed before, and another backend
      may be started; nothing else changes. */
  lemma {:induction false} CheckPingsMeans(s: Pool)
    requires forall b :: b in s.clients ==> b in s.backends
    ensures var t := CheckPings(s);
      t == s.(backends := t.backends, desk := s.desk.(starting := false)) && t.backends.Keys == s.backends.Keys &&
      forall b :: b in s.backends ==> t.backends[b] == if b in s.clients then s.backends[b].(pong := Missing) else s.backends[b]
  {
    PingAllMeans(s.(desk := s.desk.(starting := false)), s.clients);
    hide PingAll;
  }

  /** The i-th client has the most memory, and the ones before it less. */
  ghost predicate FirstBiggest(s: Pool, i: nat)
    requires forall b :: b in s.clients ==> b in s.backends
  {
    i < |s.clients| && (forall b :: b in s.clients ==> s.backends[b].res <= s.backends[s.clients[i]].res) &&
    forall j :: 0 <= j < i ==> s.backends[s.clients[j]].res < s.backends[s.clients[i]].res
  }

  /** The first client with the most memory stops accepting users, if any reports some. */
  lemma {:induction false} CollectMeans(s: Pool)
    requires forall b :: b in s.clients ==> b in s.backends
    ensures var t := CollectBackend(s);
      if forall b :: b in s.clients ==> s.backends[b].res == 0 then t == s
      else exists i: nat :: FirstBiggest(s, i) &&
             t == s.(backends := s.backends[s.clients[i] := s.backends[s.clients[i]].(acceptUsers := false)])
  {
    BiggestIsLargest(s, s.clients, null, 0);
    var b := Biggest(s, s.clients, null, 0);
    hide Biggest;
    if b != null {
      var i :| 0 <= i < |s.clients| && s.clients[i] == b && forall j :: 0 <= j < i ==> At(s, s.clients[j]).res < At(s, b).res;
      assert FirstBiggest(s, i);
    }
  }

  // ------------------------------------------------------------------------ users

  /** One reading of the clock. */
  ghost predicate TimePasses(s: Pool, t: Pool) {
    t.desk == s.desk.(clock := t.desk.clock, ticks := t.desk.ticks) && t.desk.clock == NextTime(s.desk)
  }

  /** A user starts without a backend and with its retries unused, and is then created. */
  function Newcomer(s: Pool, u: User, limit: int): Pool {
    var d := if s.desk.ticks == [] then s.desk else s.desk.(clock := s.desk.clock + s.desk.ticks[0], ticks := s.desk.ticks[1..]);
    s.(desk := d, users := s.users[u := UserState(null, false, false, false, 0, limit, 0, d.clock)])
  }

  lemma {:induction false} NewcomerIs(s: Pool, u: User, limit: int)
    ensures SetUser(Tick(s), u, NewUser(limit, Tick(s).desk.clock)) == Newcomer(s, u, limit)
  {
  }

  lemma {:induction false} AddUserMeans(cfg: Config, s: Pool, u: User, limit: int)
    requires Links(cfg, s, null, []) && u !in s.users
    ensures CreatedAs(cfg, Newcomer(s, u, limit), Apply(cfg, s, AddUser(u, limit)), u)
  {
    NewcomerIs(s, u, limit);
    NewLoose(cfg, s, u);
    LooseNewcomer(s, u, limit);
    hide Links, Newcomer, Tick, NewUser, Loose;
    CreatedMeans(cfg, Newcomer(s, u, limit), u);
    hide HandleUserCreated, CreatedAs;
  }

  lemma {:induction false} LooseNewcomer(s: Pool, u: User, limit: int)
    requires u !in s.waiting && forall b :: b in s.clients ==> b in s.backends
    ensures var t := Newcomer(s, u, limit); Loose(t, u) && forall b :: b in t.clients ==> b in t.backends
  {
  }

  lemma {:induction false} NewLoose(cfg: Config, s: Pool, u: User)
    requires Links(cfg, s, null, []) && u !in s.users
    ensures u !in s.waiting && forall b :: b in s.clients ==> b in s.backends
  {
  }

  lemma {:induction false} DeleteUserMeans(cfg: Config, s: Pool, u: User)
    requires u in s.users && (s.users[u].data != null ==> s.users[u].data in s.backends)
    ensures Apply(cfg, s, DeleteUser(u)) == Left(cfg, s, u).(users := s.users - {u})
  {
    DestroyedMeans(cfg, s, u);
    LeftKeeps(cfg, s, u);
    hide HandleUserDestroyed, Left;
  }

  lemma {:induction false} SetConnectedMeans(cfg: Config, s: Pool, u: User)
    requires u in s.users
    ensures var t := Apply(cfg, s, SetConnected(u));
      TimePasses(s, t) && t == s.(desk := t.desk,
        users := s.users[u := s.users[u].(connected := true, reconnects := 0, ignoreDisconnect := false, lastActivity := t.desk.clock)])
  {
  }

  lemma {:induction false} ActivityMeans(cfg: Config, s: Pool, u: User)
    requires u in s.users
    ensures var t := Apply(cfg, s, Activity(u));
      TimePasses(s, t) && t == s.(desk := t.desk, users := s.users[u := s.users[u].(lastActivity := t.desk.clock)])
  {
  }

  /** A user becomes ready once, also when it joins a room, and each connected handler sends
      one LOGIN to its backend, if it has one. */
  lemma {:induction false} BecomeReadyMeans(cfg: Config, s: Pool, u: User, joining: bool)
    requires u in s.users && s.users[u].handlers <= 1
    ensures var t := Apply(cfg, s, BecomeReady(u, joining));
      var r := s.users[u];
      if r.ready || (r.connected && !joining) then t == s
      else t == s.(users := s.users[u := r.(ready := true)],
                   trace := if r.handlers == 1 && r.data != null then s.trace + [Login(u, r.data)] else s.trace)
  {
    var s1 := SetUser(s, u, Who(s, u).(ready := true));
    FiresOnce(s1, u, s.users[u].handlers);
    if s.users[u].handlers == 1 && s.users[u].data == null {
      assert FireReady(s1, u, 1) == FireReady(HandleUserReadyToConnect(s1, u), u, 0);
    }
  }

  /** Serving the queue's head, when the login is due and a client fits: it is put there, and its
      LOGIN is sent when it is ready. */
  lemma {:induction false} ServeFirstMeans(cfg: Config, s: Pool)
    requires Links(cfg, s, null, []) && s.waiting != [] && !Early(cfg, s.desk) && SomeFit(cfg, s)
    ensures var u := s.waiting[0];
      var t := ServeFirst(cfg, s);
      exists c :: c in s.clients && FirstFit(cfg, s, c, true, false) && ServedOn(s, t, u, c)
  {
    var u := s.waiting[0];
    var s0 := s.(waiting := s.waiting[1..]);
    var s1 := HandleUserCreated(cfg, s0, u);
    NoDupTail(s.waiting, 1);
    assert Loose(s0, u);
    LinkedClients(cfg, s, null, []);
    CreatedMeans(cfg, s0, u);
    SameFit(cfg, s, s0);
    hide Links, HandleUserCreated, FirstFit, SomeFit;
    var c :| c in s0.clients && FirstFit(cfg, s0, c, true, false) && PutOn(s0, s1, u, c);
    SameFirstFit(cfg, s, s0, c);
    assert ServedOn(s, ServeFirst(cfg, s), u, c);
  }

  /** The head u left the queue for client c. */
  ghost predicate ServedOn(s: Pool, t: Pool, u: User, c: Backend)
    requires s.waiting != []
  {
    var toC := s.trace + [Assigned(u, c, t.desk.lastLogin)];
    u in s.users && PutOn(s.(waiting := s.waiting[1..]), t.(trace := toC), u, c) &&
    t.trace == if s.users[u].ready then toC + [Login(u, c)] else toC
  }

  lemma {:induction false} SameFit(cfg: Config, s: Pool, t: Pool)
    requires t.clients == s.clients && t.backends == s.backends
    ensures SomeFit(cfg, t) <==> SomeFit(cfg, s)
  {
  }

  lemma {:induction false} SameFirstFit(cfg: Config, s: Pool, t: Pool, c: Backend)
    requires t.clients == s.clients && t.backends == s.backends && FirstFit(cfg, t, c, true, false)
    ensures FirstFit(cfg, s, c, true, false)
  {
    var i :| 0 <= i < |t.clients| && t.clients[i] == c && Fits(cfg, At(t, c), true, false) &&
      forall j :: 0 <= j < i ==> !Fits(cfg, At(t, t.clients[j]), true, false);
    assert s.clients[i] == c;
  }

  // ------------------------------------------------------------------- moving idle users

  /** u leaves the list of prev for the end of c's, its disconnection will be ignored, and it is
      logged in on c. */
  ghost predicate MovedTo(s: Pool, t: Pool, u: User, prev: Backend, c: Backend) {
    && u in s.users && prev in s.backends && c in s.backends && c in s.clients && c != prev
    && t.users == s.users[u := s.users[u].(data := c, ignoreDisconnect := true)]
    && t.backends == s.backends[prev := s.backends[prev].(users := Remove(s.backends[prev].users, u))]
                               [c := s.backends[c].(users := s.backends[c].users + [u])]
    && t.trace == s.trace + [Assigned(u, c, t.desk.lastLogin), Login(u, c)]
    && t.waiting == s.waiting && t.clients == s.clients
  }

  /** A user without a backend or on a long-running one stays and counts as moved; another moves
      to the first long-running client with room, or fails to when there is none or the login
      has to be postponed. */
  lemma {:induction false} MoveMeans(cfg: Config, s: Pool, u: User)
    requires u in s.users && (s.users[u].data != null ==> s.users[u].data in s.backends)
    requires forall b :: b in s.clients ==> b in s.backends
    ensures var (t, ok) := MoveToLongRunBackend(cfg, s, u);
      var prev := s.users[u].data;
      if prev == null || s.backends[prev].longRun then ok && t == s
      else if ok then exists c :: c in s.clients && FirstFit(cfg, s, c, false, true) && !Early(cfg, s.desk) && MovedTo(s, t, u, prev, c)
      else t == s.(desk := t.desk) && (Early(cfg, s.desk) || forall b :: b in s.clients ==> !Fits(cfg, At(s, b), false, true))
  {
    var prev := s.users[u].data;
    if prev != null && !s.backends[prev].longRun {
      GrantFinds(cfg, s, false, true, false);
      GrantChanges(cfg, s, false, true, false);
      var (s1, c) := GetFreeClient(cfg, s, false, true, false);
      hide GetFreeClient, Remove;
      if c != null {
        assert FirstFit(cfg, s, c, false, true) && c in s.clients && c != prev;
        SameAccepting(s.backends, c);
        assert s1.backends == s.backends;
        ReseatMeans(s1, u, prev, c);
      }
    }
  }

  lemma {:induction false} SameAccepting(bs: map<Backend, BackendState>, c: Backend)
    requires c in bs && !bs[c].acceptUsers
    ensures bs[c := bs[c].(acceptUsers := false)] == bs
  {
  }

  lemma {:induction false} ReseatMeans(s: Pool, u: User, prev: Backend, c: Backend)
    requires u in s.users && prev in s.backends && c in s.backends && c in s.clients && c != prev
    ensures MovedTo(s, Reseat(s, u, prev, c), u, prev, c)
  {
    hide Remove;
    var t := Reseat(s, u, prev, c);
    assert t.trace == s.trace + [Assigned(u, c, s.desk.lastLogin)] + [Login(u, c)];
  }

  /** The users to move are exactly those inactive for longer than the limit on clients that are
      not long-running. */
  lemma {:induction false} UsersToMoveMeans(cfg: Config, s: Pool, cs: seq<Backend>, u: User)
    ensures u in UsersToMove(cfg, s, cs) <==>
      exists c :: c in cs && !At(s, c).longRun && u in At(s, c).users &&
        s.desk.clock - Who(s, u).lastActivity > cfg.idleReconnectTime
    decreases |cs|
  {
    if cs != [] {
      UsersToMoveMeans(cfg, s, cs[1..], u);
      IdleAmongMeans(cfg, s, At(s, cs[0]).users, u);
    }
  }

  lemma {:induction false} IdleAmongMeans(cfg: Config, s: Pool, us: seq<User>, u: User)
    ensures u in IdleAmong(cfg, s, us) <==> u in us && s.desk.clock - Who(s, u).lastActivity > cfg.idleReconnectTime
    decreases |us|
  {
    if us != [] {
      IdleAmongMeans(cfg, s, us[1..], u);
    }
  }

  /** u is to be moved away from c. */
  ghost predicate Moves(cfg: Config, s: Pool, c: Backend, u: User) {
    !At(s, c).longRun && u in At(s, c).users && s.desk.clock - Who(s, u).lastActivity > cfg.idleReconnectTime
  }

  /** They are moved client by client and, on one client, in the order of its list. */
  lemma {:induction false} UsersToMoveInOrder(cfg: Config, s: Pool, cs: seq<Backend>, i: nat, j: nat, u: User, v: User)
    requires i <= j < |cs| && Moves(cfg, s, cs[i], u) && Moves(cfg, s, cs[j], v)
    requires i == j ==> Before(At(s, cs[i]).users, u, v)
    ensures Before(UsersToMove(cfg, s, cs), u, v)
    decreases |cs|
  {
    if i > 0 {
      UsersToMoveInOrder(cfg, s, cs[1..], i - 1, j - 1, u, v);
    } else if j > 0 {
      IdleAmongMeans(cfg, s, At(s, cs[0]).users, u);
      UsersToMoveMeans(cfg, s, cs[1..], v);
      assert cs[1..][j - 1] == cs[j];
    } else {
      IdleAmongInOrder(cfg, s, At(s, cs[0]).users, u, v);
    }
    hide Before;
    BeforeConcat(IdleOf(cfg, s, cs[0]), UsersToMove(cfg, s, cs[1..]), u, v);
  }

  lemma {:induction false} IdleAmongInOrder(cfg: Config, s: Pool, us: seq<User>, u: User, v: User)
    requires Before(us, u, v) && Idle(cfg, s, u) && Idle(cfg, s, v)
    ensures Before(IdleAmong(cfg, s, us), u, v)
    decreases |us|
  {
    BeforeTail(us, u, v);
    hide Before;
    var first := if Idle(cfg, s, us[0]) then [us[0]] else [];
    if u == us[0] && v in us[1..] {
      IdleAmongMeans(cfg, s, us[1..], v);
    } else {
      IdleAmongInOrder(cfg, s, us[1..], u, v);
    }
    BeforeConcat(first, IdleAmong(cfg, s, us[1..]), u, v);
  }

  /** v has no backend or sits on a long-running one. */
  ghost predicate Settled(s: Pool, v: User) {
    v in s.users && (s.users[v].data == null || (s.users[v].data in s.backends && s.backends[s.users[v].data].longRun))
  }

  ghost predicate Sound(s: Pool) {
    (forall u :: u in s.users && s.users[u].data != null ==> s.users[u].data in s.backends) &&
    forall b :: b in s.clients ==> b in s.backends
  }

  lemma {:induction false} MoveSettles(cfg: Config, s: Pool, u: User, v: User)
    requires Sound(s) && u in s.users && v in s.users
    ensures var (t, ok) := MoveToLongRunBackend(cfg, s, u);
      && Sound(t) && t.users.Keys == s.users.Keys && t.clients == s.clients && t.waiting == s.waiting
      && (v != u ==> t.users[v] == s.users[v])
      && (Settled(s, v) ==> Settled(t, v)) && (ok ==> Settled(t, u))
      && (!ok ==> t.users == s.users)
  {
    MoveMeans(cfg, s, u);
    hide MoveToLongRunBackend, Early, Remove;
  }

  lemma {:induction false} SettledStays(cfg: Config, s: Pool, us: seq<User>, v: User)
    requires Sound(s) && (forall u :: u in us ==> u in s.users) && v in s.users
    ensures var t := MoveAll(cfg, s, us);
      (Settled(s, v) ==> Settled(t, v)) && v in t.users && (v !in us ==> t.users[v] == s.users[v])
    decreases |us|
  {
    hide MoveToLongRunBackend, Settled, Sound;
    if us != [] {
      MoveSettles(cfg, s, us[0], v);
      var (s1, ok) := MoveToLongRunBackend(cfg, s, us[0]);
      if ok {
        SettledStays(cfg, s1, us[1..], v);
      }
    }
  }

  /** No long-running client has room, or the login has to be postponed. */
  ghost predicate NoRoom(cfg: Config, s: Pool) {
    (cfg.loginDelay != 0 && s.desk.clock - s.desk.lastLogin < cfg.loginDelay) ||
    forall b :: b in s.clients ==> !Fits(cfg, At(s, b), false, true)
  }

  lemma {:induction false} FailsForRoom(cfg: Config, s: Pool, u: User)
    requires Sound(s) && u in s.users && !MoveToLongRunBackend(cfg, s, u).1
    ensures NoRoom(cfg, MoveToLongRunBackend(cfg, s, u).0)
  {
    MoveMeans(cfg, s, u);
    hide FirstFree;
  }

  /** The first k users end without a backend or on long-running ones; the moves stop there only
      for want of room, and nobody behind is touched. */
  lemma {:induction false} MoveAllMeans(cfg: Config, s: Pool, us: seq<User>) returns (k: nat)
    requires Sound(s) && forall u :: u in us ==> u in s.users
    ensures var t := MoveAll(cfg, s, us);
      && k <= |us| && (k < |us| ==> NoRoom(cfg, t))
      && (forall j :: 0 <= j < k ==> Settled(t, us[j]))
      && (forall v :: v in s.users && v !in us[..k] ==> v in t.users && t.users[v] == s.users[v])
    decreases |us|
  {
    hide MoveToLongRunBackend, Settled, Sound, NoRoom;
    k := 0;
    if us != [] {
      MoveSettles(cfg, s, us[0], us[0]);
      var (s1, ok) := MoveToLongRunBackend(cfg, s, us[0]);
      OthersAlone(cfg, s, us[0]);
      if ok {
        var n := MoveAllMeans(cfg, s1, us[1..]);
        SettledStays(cfg, s1, us[1..], us[0]);
        k := n + 1;
        assert us[..k] == [us[0]] + us[1..][..n];
        assert forall j :: 1 <= j < k ==> us[j] == us[1..][j - 1];
      } else {
        FailsForRoom(cfg, s, us[0]);
      }
    }
  }

  lemma {:induction false} OthersAlone(cfg: Config, s: Pool, u: User)
    requires Sound(s) && u in s.users
    ensures forall v :: v in s.users && v != u ==>
      v in MoveToLongRunBackend(cfg, s, u).0.users && MoveToLongRunBackend(cfg, s, u).0.users[v] == s.users[v]
  {
    MoveMeans(cfg, s, u);
    hide MoveToLongRunBackend, Early, Remove;
  }

  /** v has been inactive for too long, as of the next reading of the clock, on a client that is
      not long-running. */
  ghost predicate Overdue(cfg: Config, s: Pool, v: User)
    requires v in s.users
  {
    NextTime(s.desk) - s.users[v].lastActivity > cfg.idleReconnectTime &&
    exists c :: c in s.clients && !At(s, c).longRun && v in At(s, c).users
  }

  /** Without an idle time nobody is moved.  With one, each overdue user ends on a long-running
      backend unless there was no room, and nobody else is touched. */
  lemma {:induction false} MoveIdleMeans(cfg: Config, s: Pool, v: User)
    requires Links(cfg, s, null, []) && v in s.users
    ensures var t := MoveIdleUsers(cfg, s);
      if cfg.idleReconnectTime == 0 then TimePasses(s, t) && t == s.(desk := t.desk)
      else
        v in t.users &&
        if Overdue(cfg, s, v) then Settled(t, v) || NoRoom(cfg, t) else t.users[v] == s.users[v]
  {
    var s1 := Tick(s);
    CalmLinks(cfg, s, s1, null, []);
    AllToMoveSeated(cfg, s1);
    LinkedSound(cfg, s1);
    hide Links, MoveAll, Sound, UsersToMove, NoRoom, Settled;
    if cfg.idleReconnectTime != 0 {
      var us := UsersToMove(cfg, s1, s1.clients);
      UsersToMoveMeans(cfg, s1, s1.clients, v);
      assert v in us <==> Overdue(cfg, s, v);
      var k := MoveAllMeans(cfg, s1, us);
      SettledStays(cfg, s1, us, v);
    }
  }

  lemma {:induction false} LinkedSound(cfg: Config, s: Pool)
    requires Links(cfg, s, null, [])
    ensures Sound(s)
  {
  }

  // ----------------------------------------------------------------------- statistics

  /** The figure is kept for the next collection, and nothing else changes. */
  lemma {:induction false} StatsMeans(cfg: Config, s: Pool, c: Backend, res: nat)
    requires c in s.backends
    ensures var t := Apply(cfg, s, Stats(c, res));
      t == s.(backends := t.backends) && t.backends == s.backends[c := s.backends[c].(res := res)]
  {
  }
}
