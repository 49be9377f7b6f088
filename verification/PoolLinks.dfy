/** Who is where: the links between users, backends and the waiting queue, and that
    every handler keeps them.  While handleSessionFinished walks the list of backend x,
    only the part `rest` of that list not yet visited still counts as a list of x. */
module PoolLinks {
  import opened Lists
  import opened PoolModel
  import LogSlots

  ghost function Held(s: Pool, b: Backend, x: Backend?, rest: seq<User>): seq<User> {
    if b == x then rest else At(s, b).users
  }

  ghost predicate SeatsOk(cfg: Config, s: Pool, b: Backend, us: seq<User>) {
    && NoDup(us)
    && (us != [] ==> |us| <= cfg.usersPerBackend)
    && (forall u :: u in us ==> u in s.users && s.users[u].data == b && s.users[u].handlers == 1)
  }

  ghost predicate QueueOk(s: Pool) {
    && NoDup(s.waiting)
    && (forall u :: u in s.waiting ==> u in s.users && s.users[u].handlers == 0)
  }

  ghost predicate Links(cfg: Config, s: Pool, x: Backend?, rest: seq<User>) {
    && NoDup(s.clients)
    && (forall b :: b in s.clients ==> b in s.backends
                                       && SeatsOk(cfg, s, b, Held(s, b, x, rest))
                                       && (s.backends[b].longRun ==> !s.backends[b].acceptUsers))
    && (forall u :: u in s.users ==> (s.users[u].data != null ==> s.users[u].data in s.backends)
                                     && s.users[u].handlers <= 1)
    && QueueOk(s)
    && (x != null ==> x in s.clients && s.backends[x].willDie)
  }

  /** In no list and not connected to the pool, so ready to be created. */
  ghost predicate Loose(s: Pool, u: User) {
    u in s.users && s.users[u].handlers == 0 && u !in s.waiting
  }

  /** t differs from s at most in clocks, pids, ping state, memory and acceptUsers going off. */
  ghost predicate Calm(s: Pool, t: Pool) {
    && t.clients == s.clients && t.users == s.users && t.waiting == s.waiting && t.trace == s.trace
    && t.backends.Keys == s.backends.Keys
    && (forall b :: b in s.backends ==>
          && t.backends[b].users == s.backends[b].users
          && t.backends[b].willDie == s.backends[b].willDie
          && t.backends[b].longRun == s.backends[b].longRun
          && (t.backends[b].acceptUsers ==> s.backends[b].acceptUsers))
  }

  lemma {:induction false} CalmLinks(cfg: Config, s: Pool, t: Pool, x: Backend?, rest: seq<User>)
    requires Links(cfg, s, x, rest) && Calm(s, t)
    ensures Links(cfg, t, x, rest)
  {
    forall b | b in t.clients
      ensures b in t.backends && SeatsOk(cfg, t, b, Held(t, b, x, rest))
    {
      assert SeatsOk(cfg, s, b, Held(s, b, x, rest));
    }
  }

  /** What getFreeClient promises about its backend c; its own state change is Calm. */
  ghost predicate Granted(cfg: Config, s: Pool, t: Pool, c: Backend?, accept: bool, longRun: bool) {
    && Calm(s, t)
    && (forall b :: b in s.backends ==> t.backends[b].pong == s.backends[b].pong)
    && (c != null ==> c in t.clients && c in s.backends && Free(cfg, s.backends[c], accept, longRun))
  }

  lemma {:induction false} GetFreeCalm(cfg: Config, s: Pool, accept: bool, longRun: bool, check: bool)
    requires forall b :: b in s.clients ==> b in s.backends
    ensures var (t, c) := GetFreeClient(cfg, s, accept, longRun, check);
      Granted(cfg, s, t, c, accept, longRun)
  {
    hide FirstFree, TooEarly, ReadClock, StampLogin, SpawnBackend;
  }

  lemma {:induction false} AdmitLinks(cfg: Config, s: Pool, u: User, c: Backend, x: Backend?, rest: seq<User>)
    requires Links(cfg, s, x, rest) && Loose(s, u)
    requires c in s.clients && c != x && |s.backends[c].users| < cfg.usersPerBackend
    ensures Links(cfg, ConnectHandlers(Place(s, u, c), u), x, rest)
    ensures u !in s.backends[c].users
  {
    var t := ConnectHandlers(Place(s, u, c), u);
    forall b | b in t.clients
      ensures b in t.backends && SeatsOk(cfg, t, b, Held(t, b, x, rest))
    {
      assert SeatsOk(cfg, s, b, Held(s, b, x, rest));
      if b == c { NoDupAppend(s.backends[c].users, u); }
    }
    assert SeatsOk(cfg, s, c, Held(s, c, x, rest));
  }

  lemma {:induction false} CreatedLinks(cfg: Config, s: Pool, u: User, x: Backend?, rest: seq<User>)
    requires Links(cfg, s, x, rest) && Loose(s, u)
    ensures Links(cfg, HandleUserCreated(cfg, s, u), x, rest)
  {
    var (s1, c) := GetFreeClient(cfg, s, true, false, false);
    GetFreeCalm(cfg, s, true, false, false);
    CalmLinks(cfg, s, s1, x, rest);
    if c == null {
      QueuedLinks(cfg, s1, u, x, rest);
    } else {
      AdmitLinks(cfg, s1, u, c, x, rest);
    }
  }

  lemma {:induction false} QueuedLinks(cfg: Config, s: Pool, u: User, x: Backend?, rest: seq<User>)
    requires Links(cfg, s, x, rest) && Loose(s, u)
    ensures Links(cfg, s.(waiting := s.waiting + [u]), x, rest)
  {
    var t := s.(waiting := s.waiting + [u]);
    NoDupAppend(s.waiting, u);
    forall b | b in t.clients
      ensures SeatsOk(cfg, t, b, Held(t, b, x, rest))
    {
      assert SeatsOk(cfg, s, b, Held(s, b, x, rest));
    }
  }

  /** handleUserDestroyed takes u out of the one list it can be in. */
  lemma {:induction false} LeaveSeats(cfg: Config, s: Pool, u: User, b: Backend, x: Backend?, rest: seq<User>)
    requires Links(cfg, s, x, rest) && u in s.users && b in s.clients
    requires x != null ==> s.users[u].data != x
    ensures var t := HandleUserDestroyed(cfg, s, u);
      b in t.backends && SeatsOk(cfg, t, b, Held(t, b, x, rest))
  {
    var t := HandleUserDestroyed(cfg, s, u);
    assert SeatsOk(cfg, s, b, Held(s, b, x, rest));
    if b != x { RemoveNoDup(At(s, b).users, u); }
    var us := Held(t, b, x, rest);
    assert us == if b != x && s.users[u].data == b then Remove(At(s, b).users, u) else Held(s, b, x, rest);
    assert u !in us;
  }

  lemma {:induction false} DestroyedUsers(cfg: Config, s: Pool, u: User)
    requires u in s.users
    ensures var t := HandleUserDestroyed(cfg, s, u);
      && t.users == s.users[u := s.users[u].(handlers := 0)]
      && t.waiting == Remove(s.waiting, u)
      && t.clients == s.clients
      && t.backends.Keys == s.backends.Keys + (if s.users[u].data == null then {} else {s.users[u].data})
      && (forall b :: b in s.backends ==>
            && t.backends[b].longRun == s.backends[b].longRun
            && t.backends[b].acceptUsers == s.backends[b].acceptUsers
            && (s.backends[b].willDie ==> t.backends[b].willDie))
  {
  }

  lemma {:induction false} DestroyedLinks(cfg: Config, s: Pool, u: User, x: Backend?, rest: seq<User>)
    requires Links(cfg, s, x, rest) && u in s.users
    requires x != null ==> s.users[u].data != x
    ensures var t := HandleUserDestroyed(cfg, s, u);
      Links(cfg, t, x, rest) && Loose(t, u) && t.users == s.users[u := s.users[u].(handlers := 0)]
  {
    var t := HandleUserDestroyed(cfg, s, u);
    DestroyedUsers(cfg, s, u);
    RemoveNoDup(s.waiting, u);
    forall b | b in t.clients
      ensures b in t.backends && SeatsOk(cfg, t, b, Held(t, b, x, rest))
    {
      LeaveSeats(cfg, s, u, b, x, rest);
    }
  }

  lemma {:induction false} NotedLinks(cfg: Config, s: Pool, t: Pool, x: Backend?, rest: seq<User>)
    requires Links(cfg, s, x, rest)
    requires t == s.(trace := t.trace)
    ensures Links(cfg, t, x, rest)
  {
    forall b | b in t.clients
      ensures b in t.backends && SeatsOk(cfg, t, b, Held(t, b, x, rest))
    {
      assert SeatsOk(cfg, s, b, Held(s, b, x, rest));
    }
  }

  lemma {:induction false} FireReadyTrace(s: Pool, u: User, times: nat)
    ensures var t := FireReady(s, u, times); t == s.(trace := t.trace)
    decreases times
  {
    if times > 0 { FireReadyTrace(HandleUserReadyToConnect(s, u), u, times - 1); }
  }

  /** Changing what the links do not speak of (retries, flags, readiness) keeps them. */
  lemma {:induction false} FlagsLinks(cfg: Config, s: Pool, u: User, r: UserState, x: Backend?, rest: seq<User>)
    requires Links(cfg, s, x, rest) && u in s.users
    requires r.data == s.users[u].data && r.handlers == s.users[u].handlers
    ensures Links(cfg, SetUser(s, u, r), x, rest)
  {
    var t := SetUser(s, u, r);
    forall b | b in t.clients
      ensures b in t.backends && SeatsOk(cfg, t, b, Held(t, b, x, rest))
    {
      assert SeatsOk(cfg, s, b, Held(s, b, x, rest));
    }
  }

  lemma {:induction false} FiredLinks(cfg: Config, s: Pool, u: User, n: nat, x: Backend?, rest: seq<User>)
    requires Links(cfg, s, x, rest)
    ensures Links(cfg, FireReady(s, u, n), x, rest)
  {
    FireReadyTrace(s, u, n);
    NotedLinks(cfg, s, FireReady(s, u, n), x, rest);
  }

  lemma {:induction false} RecreatedLinks(cfg: Config, s: Pool, u: User, x: Backend?, rest: seq<User>)
    requires Links(cfg, s, x, rest) && u in s.users
    requires x != null ==> s.users[u].data != x
    ensures Links(cfg, HandleUserCreated(cfg, HandleUserDestroyed(cfg, s, u), u), x, rest)
  {
    DestroyedLinks(cfg, s, u, x, rest);
    CreatedLinks(cfg, HandleUserDestroyed(cfg, s, u), u, x, rest);
  }

  lemma {:induction false} ResurrectLinks(cfg: Config, s: Pool, u: User, x: Backend?, rest: seq<User>)
    requires Links(cfg, s, x, rest) && u in s.users
    requires x != null ==> s.users[u].data != x
    ensures Links(cfg, Resurrect(cfg, s, u), x, rest)
  {
    hide Links, HandleUserCreated, HandleUserDestroyed, FireReady;
    var s1 := SetUser(s, u, Who(s, u).(reconnects := Who(s, u).reconnects + 1));
    FlagsLinks(cfg, s, u, s1.users[u], x, rest);
    RecreatedLinks(cfg, s1, u, x, rest);
    var s3 := HandleUserCreated(cfg, HandleUserDestroyed(cfg, s1, u), u);
    FiredLinks(cfg, s3, u, Who(s3, u).handlers, x, rest);
  }

  lemma {:induction false} RemoveUserLinks(cfg: Config, s: Pool, u: User, x: Backend?, rest: seq<User>)
    requires Links(cfg, s, x, rest) && u in s.users
    requires x != null ==> s.users[u].data != x
    ensures Links(cfg, RemoveUser(cfg, s, u), x, rest)
  {
    DestroyedLinks(cfg, s, u, x, rest);
    var s1 := HandleUserDestroyed(cfg, s, u);
    var t := RemoveUser(cfg, s, u);
    forall b | b in t.clients
      ensures b in t.backends && SeatsOk(cfg, t, b, Held(t, b, x, rest))
    {
      assert SeatsOk(cfg, s1, b, Held(s1, b, x, rest));
    }
  }

  lemma {:induction false} DisconnectedLinks(cfg: Config, s: Pool, u: User, network: bool, x: Backend?, rest: seq<User>)
    requires Links(cfg, s, x, rest) && u in s.users
    requires x != null ==> s.users[u].data != x
    ensures Links(cfg, HandleDisconnected(cfg, s, u, network), x, rest)
  {
    if Who(s, u).ignoreDisconnect {
    } else if network && MayRetry(Who(s, u)) {
      ResurrectLinks(cfg, s, u, x, rest);
    } else {
      RemoveUserLinks(cfg, s, u, x, rest);
    }
  }

  lemma {:induction false} ServeFirstLinks(cfg: Config, s: Pool)
    requires Links(cfg, s, null, []) && s.waiting != []
    ensures Links(cfg, ServeFirst(cfg, s), null, [])
  {
    var u := s.waiting[0];
    var s0 := s.(waiting := s.waiting[1..]);
    NoDupTail(s.waiting, 1);
    forall b | b in s0.clients
      ensures SeatsOk(cfg, s0, b, Held(s0, b, null, []))
    {
      assert SeatsOk(cfg, s, b, Held(s, b, null, []));
    }
    CreatedLinks(cfg, s0, u, null, []);
    var s1 := HandleUserCreated(cfg, s0, u);
    NotedLinks(cfg, s1, ServeFirst(cfg, s), null, []);
  }

  lemma {:induction false} ConnectWaitingLinks(cfg: Config, s: Pool)
    requires Links(cfg, s, null, [])
    ensures Links(cfg, ConnectWaitingUsers(cfg, s), null, [])
    decreases |s.waiting|
  {
    if s.waiting != [] {
      var (s1, c) := GetFreeClient(cfg, s, true, false, true);
      GetFreeCalm(cfg, s, true, false, true);
      CalmLinks(cfg, s, s1, null, []);
      if c != null {
        CheckedServeShrinks(cfg, s);
        ServeFirstLinks(cfg, s1);
        ConnectWaitingLinks(cfg, ServeFirst(cfg, s1));
      }
    }
  }

  /** Only a client with users of its own may be freed to take more. */
  lemma {:induction false} ReviveLinks(cfg: Config, s: Pool, c: Backend)
    requires Links(cfg, s, null, []) && c in s.clients
    ensures Links(cfg, SetBackend(s, c, At(s, c).(willDie := false)), null, [])
  {
    var t := SetBackend(s, c, At(s, c).(willDie := false));
    forall b | b in t.clients
      ensures b in t.backends && SeatsOk(cfg, t, b, Held(t, b, null, []))
    {
      assert SeatsOk(cfg, s, b, Held(s, b, null, []));
    }
  }

  lemma {:induction false} PingStateLinks(cfg: Config, s: Pool, c: Backend, p: Pong)
    requires Links(cfg, s, null, []) && c in s.clients
    ensures Links(cfg, SetBackend(s, c, At(s, c).(pong := p)), null, [])
  {
    CalmLinks(cfg, s, SetBackend(s, c, At(s, c).(pong := p)), null, []);
  }

  lemma {:induction false} PongLinks(cfg: Config, s: Pool, c: Backend)
    requires Links(cfg, s, null, []) && c in s.clients
    ensures Links(cfg, HandlePongReceived(cfg, s, c), null, [])
  {
    var s0 := HandleFrame(s, c);
    PingStateLinks(cfg, s, c, Received);
    var s1 := Note(s0, Ponged(c));
    NotedLinks(cfg, s0, s1, null, []);
    var r := SetBackend(s1, c, At(s1, c).(willDie := false));
    ReviveLinks(cfg, s1, c);
    ConnectWaitingLinks(cfg, r);
    ConnectWaitingClients(cfg, r);
    var s2 := if At(s1, c).pong != Unseen then s1 else ConnectWaitingUsers(cfg, r);
    PingStateLinks(cfg, s2, c, Received);
    hide Links, ConnectWaitingUsers;
  }

  lemma {:induction false} ServeFirstClients(cfg: Config, s: Pool)
    requires s.waiting != []
    ensures ServeFirst(cfg, s).clients == s.clients
  {
    var s0 := s.(waiting := s.waiting[1..]);
    CreatedClients(cfg, s0, s.waiting[0]);
    hide HandleUserCreated;
  }

  lemma {:induction false} CreatedClients(cfg: Config, s: Pool, u: User)
    ensures HandleUserCreated(cfg, s, u).clients == s.clients
  {
  }

  lemma {:induction false} ConnectWaitingClients(cfg: Config, s: Pool)
    ensures ConnectWaitingUsers(cfg, s).clients == s.clients
    decreases |s.waiting|
  {
    if s.waiting != [] {
      var (s1, c) := GetFreeClient(cfg, s, true, false, true);
      if c != null {
        CheckedServeShrinks(cfg, s);
        ServeFirstClients(cfg, s1);
        ConnectWaitingClients(cfg, ServeFirst(cfg, s1));
      }
    }
    hide GetFreeClient, ServeFirst;
  }

  // ---------------------------------------------------------------- session finished

  /** Once its data is cleared, the first user left to visit counts no more. */
  lemma {:induction false} UnlinkLinks(cfg: Config, s: Pool, x: Backend, rest: seq<User>)
    requires Links(cfg, s, x, rest) && rest != []
    ensures rest[0] in s.users
    ensures Links(cfg, SetUser(s, rest[0], Who(s, rest[0]).(data := null)), x, rest[1..])
  {
    var u := rest[0];
    assert SeatsOk(cfg, s, x, Held(s, x, x, rest));
    NoDupTail(rest, 1);
    var s1 := SetUser(s, u, Who(s, u).(data := null));
    forall b | b in s1.clients
      ensures b in s1.backends && SeatsOk(cfg, s1, b, Held(s1, b, x, rest[1..]))
    {
      assert SeatsOk(cfg, s, b, Held(s, b, x, rest));
    }
  }

  lemma {:induction false} OrphanLinks(cfg: Config, s: Pool, x: Backend, rest: seq<User>)
    requires Links(cfg, s, x, rest) && rest != []
    ensures Links(cfg, Orphan(cfg, s, rest[0]), x, rest[1..])
  {
    var u := rest[0];
    UnlinkLinks(cfg, s, x, rest);
    DisconnectedLinks(cfg, SetUser(s, u, Who(s, u).(data := null)), u, true, x, rest[1..]);
    hide Links, HandleDisconnected;
  }

  lemma {:induction false} OrphanAllLinks(cfg: Config, s: Pool, x: Backend, rest: seq<User>)
    requires Links(cfg, s, x, rest)
    ensures Links(cfg, OrphanAll(cfg, s, rest), x, [])
    decreases |rest|
  {
    if rest != [] {
      OrphanLinks(cfg, s, x, rest);
      OrphanAllLinks(cfg, Orphan(cfg, s, rest[0]), x, rest[1..]);
    }
  }

  lemma {:induction false} CondemnLinks(cfg: Config, s: Pool, c: Backend)
    requires Links(cfg, s, null, []) && c in s.clients
    ensures var s1 := SetBackend(s, c, At(s, c).(willDie := true));
      Links(cfg, s1, c, At(s1, c).users)
  {
    var s1 := SetBackend(s, c, At(s, c).(willDie := true));
    forall b | b in s1.clients
      ensures b in s1.backends && SeatsOk(cfg, s1, b, Held(s1, b, c, At(s1, c).users))
    {
      assert SeatsOk(cfg, s, b, Held(s, b, null, []));
    }
  }

  lemma {:induction false} OrphanClients(cfg: Config, s: Pool, u: User)
    ensures Orphan(cfg, s, u).clients == s.clients
  {
    hide FireReady;
    var s1 := SetUser(s, u, Who(s, u).(data := null));
    var s2 := SetUser(s1, u, Who(s1, u).(reconnects := Who(s1, u).reconnects + 1));
    var s3 := HandleUserCreated(cfg, HandleUserDestroyed(cfg, s2, u), u);
    FireReadyTrace(s3, u, Who(s3, u).handlers);
  }

  lemma {:induction false} OrphanAllClients(cfg: Config, s: Pool, us: seq<User>)
    ensures OrphanAll(cfg, s, us).clients == s.clients
    decreases |us|
  {
    hide Orphan;
    if us != [] {
      OrphanClients(cfg, s, us[0]);
      OrphanAllClients(cfg, Orphan(cfg, s, us[0]), us[1..]);
    }
  }

  /** The session's end keeps the invariant and takes c, and no other, out of the pool. */
  lemma {:induction false} SessionFinishedLinks(cfg: Config, s: Pool, c: Backend)
    requires Links(cfg, s, null, []) && c in s.clients
    ensures Links(cfg, HandleSessionFinished(cfg, s, c), null, [])
    ensures HandleSessionFinished(cfg, s, c).clients == Remove(s.clients, c)
  {
    var s1 := SetBackend(s, c, At(s, c).(willDie := true));
    var us := At(s1, c).users;
    CondemnLinks(cfg, s, c);
    OrphanAllLinks(cfg, s1, c, us);
    OrphanAllClients(cfg, s1, us);
    var s2 := OrphanAll(cfg, s1, us);
    var t := HandleSessionFinished(cfg, s, c);
    RemoveNoDup(s2.clients, c);
    forall b | b in t.clients
      ensures b in t.backends && SeatsOk(cfg, t, b, Held(t, b, null, []))
    {
      assert SeatsOk(cfg, s2, b, Held(s2, b, c, []));
    }
  }

  // ---------------------------------------------------------------- idle moves

  /** u has no backend, or sits in the list of the one it points to. */
  ghost predicate Seated(s: Pool, u: User) {
    u in s.users && (s.users[u].data != null ==> s.users[u].data in s.clients && u in At(s, s.users[u].data).users)
  }

  lemma {:induction false} MoveLinks(cfg: Config, s: Pool, u: User)
    requires Links(cfg, s, null, []) && Seated(s, u)
    ensures var t := MoveToLongRunBackend(cfg, s, u).0;
      Links(cfg, t, null, []) && (forall v :: Seated(s, v) ==> Seated(t, v))
  {
    var prev := Who(s, u).data;
    if prev != null && !At(s, prev).longRun {
      var (s1, c) := GetFreeClient(cfg, s, false, true, false);
      GetFreeCalm(cfg, s, false, true, false);
      CalmLinks(cfg, s, s1, null, []);
      if c != null {
        MoveSeatLinks(cfg, s1, u, prev, c);
      }
    }
  }

  lemma {:induction false} MoveSeatLinks(cfg: Config, s: Pool, u: User, prev: Backend, c: Backend)
    requires Links(cfg, s, null, []) && prev in s.clients && u in At(s, prev).users
    requires c in s.clients && c != prev && |At(s, c).users| < cfg.usersPerBackend
    ensures Links(cfg, Reseat(s, u, prev, c), null, [])
    ensures forall v :: Seated(s, v) ==> Seated(Reseat(s, u, prev, c), v)
  {
    var t := Reseat(s, u, prev, c);
    assert SeatsOk(cfg, s, prev, Held(s, prev, null, []));
    assert SeatsOk(cfg, s, c, Held(s, c, null, []));
    forall b | b in t.clients
      ensures b in t.backends && SeatsOk(cfg, t, b, Held(t, b, null, []))
    {
      assert SeatsOk(cfg, s, b, Held(s, b, null, []));
      if b == c { NoDupAppend(At(s, c).users, u); }
      if b == prev { RemoveNoDup(At(s, prev).users, u); }
    }
  }

  lemma {:induction false} MoveAllLinks(cfg: Config, s: Pool, us: seq<User>)
    requires Links(cfg, s, null, []) && forall u :: u in us ==> Seated(s, u)
    ensures Links(cfg, MoveAll(cfg, s, us), null, [])
    decreases |us|
  {
    if us != [] {
      MoveLinks(cfg, s, us[0]);
      var (s1, ok) := MoveToLongRunBackend(cfg, s, us[0]);
      if ok { MoveAllLinks(cfg, s1, us[1..]); }
    }
  }

  lemma {:induction false} IdleAmongSubset(cfg: Config, s: Pool, us: seq<User>, u: User)
    ensures u in IdleAmong(cfg, s, us) <==> u in us && Idle(cfg, s, u)
  {
    if us != [] { IdleAmongSubset(cfg, s, us[1..], u); }
  }

  lemma {:induction false} UsersToMoveSeated(cfg: Config, s: Pool, cs: seq<Backend>, u: User)
    requires Links(cfg, s, null, []) && forall b :: b in cs ==> b in s.clients
    requires u in UsersToMove(cfg, s, cs)
    ensures Seated(s, u)
  {
    var b := cs[0];
    assert SeatsOk(cfg, s, b, Held(s, b, null, []));
    if !At(s, b).longRun && u in IdleAmong(cfg, s, At(s, b).users) {
      IdleAmongSubset(cfg, s, At(s, b).users, u);
    } else {
      UsersToMoveSeated(cfg, s, cs[1..], u);
    }
  }

  lemma {:induction false} AllToMoveSeated(cfg: Config, s: Pool)
    requires Links(cfg, s, null, [])
    ensures forall u :: u in UsersToMove(cfg, s, s.clients) ==> Seated(s, u)
  {
    forall u | u in UsersToMove(cfg, s, s.clients)
      ensures Seated(s, u)
    {
      UsersToMoveSeated(cfg, s, s.clients, u);
    }
  }

  lemma {:induction false} MoveIdleLinks(cfg: Config, s: Pool)
    requires Links(cfg, s, null, [])
    ensures Links(cfg, MoveIdleUsers(cfg, s), null, [])
  {
    var s1 := Tick(s);
    CalmLinks(cfg, s, s1, null, []);
    if cfg.idleReconnectTime != 0 {
      AllToMoveSeated(cfg, s1);
      MoveAllLinks(cfg, s1, UsersToMove(cfg, s1, s1.clients));
    }
  }

  // ---------------------------------------------------------------- the rest

  lemma {:induction false} PingAllCalm(s: Pool, cs: seq<Backend>)
    requires forall b :: b in cs ==> b in s.backends
    ensures Calm(s, PingAll(s, cs))
    ensures forall b :: b in s.backends ==>
      At(PingAll(s, cs), b).pong == (if b in cs && At(s, b).pong != Missing then Missing else At(s, b).pong)
    decreases |cs|
  {
    if cs != [] {
      PingAllCalm(Ping(s, cs[0]), cs[1..]);
    }
  }

  lemma {:induction false} PingAllDesk(s: Pool, cs: seq<Backend>)
    ensures PingAll(s, cs).desk == s.desk
    decreases |cs|
  {
    if cs != [] {
      PingAllDesk(Ping(s, cs[0]), cs[1..]);
    }
  }

  lemma {:induction false} PingedClients(s: Pool, cs: seq<Backend>)
    ensures PingAll(s, cs).clients == s.clients
    decreases |cs|
  {
    if cs != [] {
      PingedClients(Ping(s, cs[0]), cs[1..]);
    }
  }

  /** collectBackend picks the first client with the most memory, if any reports some. */
  lemma {:induction false} BiggestIsLargest(s: Pool, cs: seq<Backend>, best: Backend?, max: nat)
    requires best != null ==> At(s, best).res == max
    requires best == null ==> max == 0
    ensures var b := Biggest(s, cs, best, max);
      var top := if b == null then 0 else At(s, b).res;
      && (b != best ==> b != null && b in cs)
      && top >= max && (forall c :: c in cs ==> At(s, c).res <= top)
      && (b != best ==> top > max && exists i :: 0 <= i < |cs| && cs[i] == b && forall j :: 0 <= j < i ==> At(s, cs[j]).res < top)
  {
    if cs != [] {
      if At(s, cs[0]).res > max { BiggestIsLargest(s, cs[1..], cs[0], At(s, cs[0]).res); }
      else { BiggestIsLargest(s, cs[1..], best, max); }
    }
  }

  lemma {:induction false} NewClientLinks(cfg: Config, s: Pool, c: Backend)
    requires Links(cfg, s, null, []) && c !in s.backends
    ensures Links(cfg, HandleNewClientConnection(s, c), null, [])
  {
    var t := HandleNewClientConnection(s, c);
    forall b | b in t.clients
      ensures b in t.backends && SeatsOk(cfg, t, b, Held(t, b, null, []))
    {
      if b != c { assert SeatsOk(cfg, s, b, Held(s, b, null, [])); }
    }
    NoDupCons(c, s.clients);
  }

  lemma {:induction false} AddUserLinks(cfg: Config, s: Pool, u: User, limit: int)
    requires Links(cfg, s, null, []) && u !in s.users
    ensures Links(cfg, Apply(cfg, s, AddUser(u, limit)), null, [])
  {
    var s1 := Tick(s);
    var s2 := SetUser(s1, u, NewUser(limit, s1.desk.clock));
    forall b | b in s2.clients
      ensures b in s2.backends && SeatsOk(cfg, s2, b, Held(s2, b, null, []))
    {
      assert SeatsOk(cfg, s, b, Held(s, b, null, []));
    }
    CreatedLinks(cfg, s2, u, null, []);
  }

  lemma {:induction false} ReadyLinks(cfg: Config, s: Pool, u: User)
    requires Links(cfg, s, null, []) && u in s.users
    ensures Links(cfg, MakeReady(s, u), null, [])
  {
    var r := Who(s, u).(ready := true);
    var s1 := SetUser(s, u, r);
    FlagsLinks(cfg, s, u, r, null, []);
    FiredLinks(cfg, s1, u, Who(s1, u).handlers, null, []);
    hide Links, FireReady;
  }

  lemma {:induction false} TouchedLinks(cfg: Config, s: Pool, u: User, r: UserState)
    requires Links(cfg, s, null, []) && u in s.users
    requires r.data == s.users[u].data && r.handlers == s.users[u].handlers
    ensures Links(cfg, SetUser(Tick(s), u, r), null, [])
  {
    CalmLinks(cfg, s, Tick(s), null, []);
    FlagsLinks(cfg, Tick(s), u, r, null, []);
  }

  lemma {:induction false} PingCheckLinks(cfg: Config, s: Pool)
    requires Links(cfg, s, null, [])
    ensures Links(cfg, CheckPings(s), null, [])
  {
    PingAllCalm(s.(desk := s.desk.(starting := false)), s.clients);
    CalmLinks(cfg, s, CheckPings(s), null, []);
  }

  lemma {:induction false} CollectLinks(cfg: Config, s: Pool)
    requires Links(cfg, s, null, [])
    ensures Links(cfg, CollectBackend(s), null, [])
  {
    BiggestIsLargest(s, s.clients, null, 0);
    CalmLinks(cfg, s, CollectBackend(s), null, []);
  }

  lemma {:induction false} ApplyLinks(cfg: Config, s: Pool, e: Event)
    requires Links(cfg, s, null, []) && Enabled(s, e)
    ensures Links(cfg, Apply(cfg, s, e), null, [])
  {
    match e
    case NewClient(c) => NewClientLinks(cfg, s, c);
    case Frame(c) => PingStateLinks(cfg, s, c, Received);
    case Pong(c) => PongLinks(cfg, s, c);
    case SessionFinished(c) => SessionFinishedLinks(cfg, s, c);
    case Stats(c, res) => CalmLinks(cfg, s, SetBackend(s, c, At(s, c).(res := res)), null, []);
    case AddUser(u, limit) => AddUserLinks(cfg, s, u, limit);
    case DeleteUser(u) => RemoveUserLinks(cfg, s, u, null, []);
    case Disconnected(u, network) => DisconnectedLinks(cfg, s, u, network, null, []);
    case BecomeReady(u, joining) => if !StaysSilent(Who(s, u), joining) { ReadyLinks(cfg, s, u); }
    case SetConnected(u) => TouchedLinks(cfg, s, u, Apply(cfg, s, e).users[u]);
    case Activity(u) => TouchedLinks(cfg, s, u, Apply(cfg, s, e).users[u]);
    case MoveIdle => MoveIdleLinks(cfg, s);
    case PingCheck => PingCheckLinks(cfg, s);
    case Collect => CollectLinks(cfg, s);
    case LoginTimer => ConnectWaitingLinks(cfg, s);
    case PidTerminated(pid) => CalmLinks(cfg, s, s.(desk := s.desk.(pids := LogSlots.Terminate(s.desk.pids, pid))), null, []);
  }

  /** Every event of the pool keeps every link. */
  lemma {:induction false} StepLinks(cfg: Config, s: Pool, i: Input)
    requires Links(cfg, s, null, [])
    ensures Links(cfg, Step(cfg, s, i), null, [])
  {
    var s0 := s.(desk := s.desk.(ticks := i.ticks, pid := i.pid));
    CalmLinks(cfg, s, s0, null, []);
    if Enabled(s0, i.e) { ApplyLinks(cfg, s0, i.e); }
    hide Links, Apply;
  }
}
