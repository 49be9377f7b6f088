/** What the observable trace of a run says: PONG before the first user, login_delay
    between any two assignments, and one user per backend when backends are not shared.
    p is the backend whose first PONG is being handled, if any. */
module PoolHistory {
  import opened Lists
  import opened PoolModel
  import opened PoolLinks
  import LogSlots

  /** One user per backend, and idle users never move. */
  ghost predicate OneUser(cfg: Config) {
    cfg.usersPerBackend == 1 && cfg.idleReconnectTime == 0
  }

  ghost predicate PongFirst(tr: seq<Obs>) {
    forall i :: 0 <= i < |tr| && tr[i].Assigned? ==> Ponged(tr[i].b) in tr[..i]
  }

  ghost predicate Spaced(tr: seq<Obs>, delay: int) {
    forall i, j :: 0 <= i < j < |tr| && tr[i].Assigned? && tr[j].Assigned? ==> tr[i].at + delay <= tr[j].at
  }

  ghost predicate OneEach(tr: seq<Obs>) {
    forall i, j :: 0 <= i < j < |tr| && tr[i].Assigned? && tr[j].Assigned? ==> tr[i].b != tr[j].b
  }

  ghost predicate BackendsSeen(s: Pool, p: Backend?) {
    forall b :: b in s.clients ==>
      && (!At(s, b).willDie || At(s, b).users != [] ==> Ponged(b) in s.trace)
      && (!At(s, b).willDie || At(s, b).users != [] ==> b == p || At(s, b).pong != Unseen)
  }

  /** A used one-user backend is occupied or dying, and past its first PONG. */
  ghost predicate Spent(s: Pool, b: Backend, p: Backend?) {
    (At(s, b).willDie || At(s, b).users != []) && (b == p || At(s, b).pong != Unseen)
  }

  ghost predicate Past(cfg: Config, tr: seq<Obs>, last: int) {
    && PongFirst(tr)
    && Spaced(tr, cfg.loginDelay)
    && (OneUser(cfg) ==> OneEach(tr))
    && (forall i :: 0 <= i < |tr| && tr[i].Assigned? ==> tr[i].at <= last)
  }

  ghost predicate Present(cfg: Config, s: Pool, p: Backend?) {
    && BackendsSeen(s, p)
    && (forall i :: 0 <= i < |s.trace| && s.trace[i].Assigned? ==>
          s.trace[i].b in s.backends && (OneUser(cfg) ==> Spent(s, s.trace[i].b, p)))
  }

  ghost predicate History(cfg: Config, s: Pool, p: Backend?) {
    && Past(cfg, s.trace, s.desk.lastLogin)
    && s.desk.lastLogin <= s.desk.clock
    && Present(cfg, s, p)
  }

  /** u may be assigned to c at time `now`. */
  ghost predicate MayAssign(cfg: Config, tr: seq<Obs>, c: Backend, now: int) {
    && Ponged(c) in tr
    && (forall i :: 0 <= i < |tr| && tr[i].Assigned? ==> tr[i].at + cfg.loginDelay <= now && tr[i].at <= now)
    && (OneUser(cfg) ==> forall i :: 0 <= i < |tr| && tr[i].Assigned? ==> tr[i].b != c)
  }

  lemma {:induction false} PastLater(cfg: Config, tr: seq<Obs>, last: int, now: int)
    requires Past(cfg, tr, last) && last <= now
    ensures Past(cfg, tr, now)
  {
  }

  lemma {:induction false} PastAssigned(cfg: Config, tr: seq<Obs>, u: User, c: Backend, now: int)
    requires Past(cfg, tr, now) && MayAssign(cfg, tr, c, now)
    ensures Past(cfg, tr + [Assigned(u, c, now)], now)
  {
    PongFirstAppend(tr, Assigned(u, c, now));
  }

  lemma {:induction false} PastNoted(cfg: Config, tr: seq<Obs>, o: Obs, now: int)
    requires Past(cfg, tr, now) && !o.Assigned?
    ensures Past(cfg, tr + [o], now)
  {
    PongFirstAppend(tr, o);
  }

  lemma {:induction false} PongFirstAppend(tr: seq<Obs>, o: Obs)
    requires PongFirst(tr) && (o.Assigned? ==> Ponged(o.b) in tr)
    ensures PongFirst(tr + [o])
  {
    var t := tr + [o];
    forall i | 0 <= i < |t| && t[i].Assigned?
      ensures Ponged(t[i].b) in t[..i]
    {
      assert t[..i] == tr[..i];
      assert tr[..|tr|] == tr;
    }
  }

  // ---------------------------------------------------------------- one handler at a time

  /** A granted login is login_delay after the last one. */
  lemma {:induction false} GrantTimes(cfg: Config, s: Pool, accept: bool, longRun: bool, check: bool)
    requires s.desk.lastLogin <= s.desk.clock
    ensures var (t, c) := GetFreeClient(cfg, s, accept, longRun, check);
      && t.trace == s.trace && t.clients == s.clients
      && s.desk.lastLogin <= t.desk.lastLogin <= t.desk.clock
      && (c != null && !check ==>
            t.desk.lastLogin == t.desk.clock && s.desk.lastLogin + cfg.loginDelay <= t.desk.lastLogin)
      && (check ==> t.desk.lastLogin == s.desk.lastLogin)
      && (c != null ==> c in s.clients && Free(cfg, At(s, c), accept, longRun))
  {
    hide FirstFree, Claim, LogSlots.Spawn;
  }

  lemma {:induction false} GrantPast(cfg: Config, s: Pool, accept: bool, longRun: bool, check: bool, p: Backend?)
    requires History(cfg, s, p) && forall b :: b in s.clients ==> b in s.backends
    ensures var (t, c) := GetFreeClient(cfg, s, accept, longRun, check);
      && t.trace == s.trace && t.desk.lastLogin <= t.desk.clock
      && Past(cfg, t.trace, t.desk.lastLogin)
      && (c != null && !check ==> MayAssign(cfg, t.trace, c, t.desk.lastLogin))
  {
    var (t, c) := GetFreeClient(cfg, s, accept, longRun, check);
    GrantTimes(cfg, s, accept, longRun, check);
    PastLater(cfg, s.trace, s.desk.lastLogin, t.desk.lastLogin);
    hide GetFreeClient;
  }

  ghost predicate SamePings(s: Pool, t: Pool) {
    forall b :: b in s.backends ==> At(t, b).pong == At(s, b).pong
  }

  lemma {:induction false} CalmPresent(cfg: Config, s: Pool, t: Pool, p: Backend?)
    requires Present(cfg, s, p) && Calm(s, t) && SamePings(s, t)
    requires forall b :: b in s.clients ==> b in s.backends
    ensures Present(cfg, t, p)
  {
  }

  /** getFreeClient keeps the history, and a backend it grants may be given a user. */
  lemma {:induction false} GrantHistory(cfg: Config, s: Pool, accept: bool, longRun: bool, check: bool, p: Backend?)
    requires History(cfg, s, p) && forall b :: b in s.clients ==> b in s.backends
    ensures var (t, c) := GetFreeClient(cfg, s, accept, longRun, check);
      && History(cfg, t, p)
      && (c != null ==> c in t.backends && (c == p || At(t, c).pong != Unseen))
      && (c != null && !check ==> MayAssign(cfg, t.trace, c, t.desk.lastLogin))
  {
    GetFreeCalm(cfg, s, accept, longRun, check);
    GrantPast(cfg, s, accept, longRun, check, p);
    var (t, c) := GetFreeClient(cfg, s, accept, longRun, check);
    CalmPresent(cfg, s, t, p);
    hide GetFreeClient, Past, MayAssign;
  }

  lemma {:induction false} PlaceHistory(cfg: Config, s: Pool, u: User, c: Backend, p: Backend?)
    requires History(cfg, s, p)
    requires c in s.backends && (c == p || At(s, c).pong != Unseen)
    requires MayAssign(cfg, s.trace, c, s.desk.lastLogin)
    ensures History(cfg, Place(s, u, c), p)
    ensures History(cfg, ConnectHandlers(Place(s, u, c), u), p)
  {
    PastAssigned(cfg, s.trace, u, c, s.desk.lastLogin);
    hide Past;
  }

  lemma {:induction false} CreatedHistory(cfg: Config, s: Pool, u: User, p: Backend?)
    requires History(cfg, s, p) && forall b :: b in s.clients ==> b in s.backends
    ensures History(cfg, HandleUserCreated(cfg, s, u), p)
  {
    var (s1, c) := GetFreeClient(cfg, s, true, false, false);
    GrantHistory(cfg, s, true, false, false, p);
    if c != null { PlaceHistory(cfg, s1, u, c, p); }
    hide GetFreeClient, Past, MayAssign, Place, ConnectHandlers;
  }

  lemma {:induction false} NotedHistory(cfg: Config, s: Pool, o: Obs, p: Backend?)
    requires History(cfg, s, p) && !o.Assigned?
    ensures History(cfg, Note(s, o), p)
  {
    PastNoted(cfg, s.trace, o, s.desk.lastLogin);
    hide Past;
  }

  lemma {:induction false} LeaveHistory(cfg: Config, s: Pool, u: User, c: Backend, p: Backend?)
    requires History(cfg, s, p)
    ensures History(cfg, Leave(cfg, s, u, c), p)
  {
    hide Past;
  }

  lemma {:induction false} DestroyedHistory(cfg: Config, s: Pool, u: User, p: Backend?)
    requires History(cfg, s, p)
    ensures History(cfg, HandleUserDestroyed(cfg, s, u), p)
  {
    var s1 := s.(waiting := Remove(s.waiting, u));
    var s2 := SetUser(s1, u, Who(s1, u).(handlers := 0));
    assert History(cfg, s2, p);
    var c := Who(s2, u).data;
    if c != null {
      NotedHistory(cfg, s2, Logout(u, c), p);
      LeaveHistory(cfg, Note(s2, Logout(u, c)), u, c, p);
    }
    hide Past, Leave;
  }

  lemma {:induction false} FiredHistory(cfg: Config, s: Pool, u: User, n: nat, p: Backend?)
    requires History(cfg, s, p)
    ensures History(cfg, FireReady(s, u, n), p)
    decreases n
  {
    if n > 0 {
      var c := Who(s, u).data;
      if c != null { NotedHistory(cfg, s, Login(u, c), p); }
      FiredHistory(cfg, HandleUserReadyToConnect(s, u), u, n - 1, p);
    }
    hide Past, Present;
  }

  ghost predicate SamePool(s: Pool, t: Pool) {
    t.clients == s.clients && t.backends == s.backends && t.desk == s.desk && t.trace == s.trace
  }

  lemma {:induction false} UsersHistory(cfg: Config, s: Pool, t: Pool, p: Backend?)
    requires History(cfg, s, p) && SamePool(s, t)
    ensures History(cfg, t, p)
  {
    hide Past;
  }

  lemma {:induction false} RecreatedHistory(cfg: Config, s: Pool, u: User, p: Backend?, x: Backend?, rest: seq<User>)
    requires History(cfg, s, p) && Links(cfg, s, x, rest) && u in s.users
    requires x != null ==> s.users[u].data != x
    ensures History(cfg, HandleUserCreated(cfg, HandleUserDestroyed(cfg, s, u), u), p)
  {
    var t := HandleUserDestroyed(cfg, s, u);
    DestroyedHistory(cfg, s, u, p);
    DestroyedLinks(cfg, s, u, x, rest);
    assert forall b :: b in t.clients ==> b in t.backends by {
      hide HandleUserDestroyed, SeatsOk, QueueOk;
    }
    CreatedHistory(cfg, t, u, p);
    hide History, Links, HandleUserDestroyed, HandleUserCreated;
  }

  lemma {:induction false} ResurrectHistory(cfg: Config, s: Pool, u: User, p: Backend?, x: Backend?, rest: seq<User>)
    requires History(cfg, s, p) && Links(cfg, s, x, rest) && u in s.users
    requires x != null ==> s.users[u].data != x
    ensures History(cfg, Resurrect(cfg, s, u), p)
  {
    hide History, HandleUserDestroyed, HandleUserCreated, FireReady, Links;
    var r := Who(s, u).(reconnects := Who(s, u).reconnects + 1);
    var s1 := SetUser(s, u, r);
    UsersHistory(cfg, s, s1, p);
    FlagsLinks(cfg, s, u, r, x, rest);
    RecreatedHistory(cfg, s1, u, p, x, rest);
    var s3 := HandleUserCreated(cfg, HandleUserDestroyed(cfg, s1, u), u);
    FiredHistory(cfg, s3, u, Who(s3, u).handlers, p);
  }

  lemma {:induction false} RemoveUserHistory(cfg: Config, s: Pool, u: User, p: Backend?)
    requires History(cfg, s, p)
    ensures History(cfg, RemoveUser(cfg, s, u), p)
  {
    DestroyedHistory(cfg, s, u, p);
    UsersHistory(cfg, HandleUserDestroyed(cfg, s, u), RemoveUser(cfg, s, u), p);
    hide History, HandleUserDestroyed;
  }

  lemma {:induction false} DisconnectedHistory(cfg: Config, s: Pool, u: User, network: bool, p: Backend?, x: Backend?, rest: seq<User>)
    requires History(cfg, s, p) && Links(cfg, s, x, rest) && u in s.users
    requires x != null ==> s.users[u].data != x
    ensures History(cfg, HandleDisconnected(cfg, s, u, network), p)
  {
    ResurrectHistory(cfg, s, u, p, x, rest);
    RemoveUserHistory(cfg, s, u, p);
    hide History, Links, Resurrect, RemoveUser;
  }

  lemma {:induction false} ServeFirstHistory(cfg: Config, s: Pool, p: Backend?)
    requires History(cfg, s, p) && s.waiting != [] && forall b :: b in s.clients ==> b in s.backends
    ensures History(cfg, ServeFirst(cfg, s), p)
  {
    var u := s.waiting[0];
    var s0 := s.(waiting := s.waiting[1..]);
    UsersHistory(cfg, s, s0, p);
    CreatedHistory(cfg, s0, u, p);
    var s1 := HandleUserCreated(cfg, s0, u);
    var c := Who(s1, u).data;
    if c != null { NotedHistory(cfg, s1, Login(u, c), p); }
    hide History, HandleUserCreated;
  }

  lemma {:induction false} ConnectWaitingHistory(cfg: Config, s: Pool, p: Backend?)
    requires History(cfg, s, p) && Links(cfg, s, null, [])
    ensures History(cfg, ConnectWaitingUsers(cfg, s), p)
    decreases |s.waiting|
  {
    if s.waiting != [] {
      var (s1, c) := GetFreeClient(cfg, s, true, false, true);
      GrantHistory(cfg, s, true, false, true, p);
      GetFreeCalm(cfg, s, true, false, true);
      CalmLinks(cfg, s, s1, null, []);
      if c != null {
        CheckedServeShrinks(cfg, s);
        ServeFirstHistory(cfg, s1, p);
        ServeFirstLinks(cfg, s1);
        ConnectWaitingHistory(cfg, ServeFirst(cfg, s1), p);
      }
    }
    hide History, GetFreeClient, ServeFirst, SeatsOk, QueueOk;
  }

  // ---------------------------------------------------------------- pongs

  lemma {:induction false} PingStateHistory(cfg: Config, s: Pool, c: Backend, to: Pong, p: Backend?)
    requires History(cfg, s, p) && to != Unseen && (p == c || p == null)
    ensures History(cfg, SetBackend(s, c, At(s, c).(pong := to)), null)
    ensures At(s, c).pong != Unseen ==> History(cfg, SetBackend(s, c, At(s, c).(pong := to)), p)
  {
    hide Past;
  }

  /** The first PONG makes c usable; with one user per backend c has had none so far. */
  lemma {:induction false} ReviveHistory(cfg: Config, s: Pool, c: Backend)
    requires History(cfg, s, null) && c in s.clients && Ponged(c) in s.trace && At(s, c).pong == Unseen
    ensures History(cfg, SetBackend(s, c, At(s, c).(willDie := false)), c)
  {
    hide Past;
  }

  lemma {:induction false} PongHistory(cfg: Config, s: Pool, c: Backend)
    requires History(cfg, s, null) && Links(cfg, s, null, []) && c in s.clients
    ensures History(cfg, HandlePongReceived(cfg, s, c), null)
  {
    var s0 := HandleFrame(s, c);
    PingStateHistory(cfg, s, c, Received, null);
    PingStateLinks(cfg, s, c, Received);
    var s1 := Note(s0, Ponged(c));
    NotedHistory(cfg, s0, Ponged(c), null);
    NotedLinks(cfg, s0, s1, null, []);
    if At(s1, c).pong != Unseen {
      PingStateHistory(cfg, s1, c, Received, null);
    } else {
      ReviveHistory(cfg, s1, c);
      ReviveLinks(cfg, s1, c);
      var r := SetBackend(s1, c, At(s1, c).(willDie := false));
      ConnectWaitingHistory(cfg, r, c);
      PingStateHistory(cfg, ConnectWaitingUsers(cfg, r), c, Received, c);
    }
    hide History, Links, ConnectWaitingUsers;
  }

  // ---------------------------------------------------------------- session finished

  lemma {:induction false} OrphanHistory(cfg: Config, s: Pool, x: Backend, rest: seq<User>)
    requires History(cfg, s, null) && Links(cfg, s, x, rest) && rest != []
    ensures History(cfg, Orphan(cfg, s, rest[0]), null)
  {
    var u := rest[0];
    var s1 := SetUser(s, u, Who(s, u).(data := null));
    UsersHistory(cfg, s, s1, null);
    UnlinkLinks(cfg, s, x, rest);
    DisconnectedHistory(cfg, s1, u, true, null, x, rest[1..]);
    hide History, Links, HandleDisconnected;
  }

  lemma {:induction false} OrphanAllHistory(cfg: Config, s: Pool, x: Backend, rest: seq<User>)
    requires History(cfg, s, null) && Links(cfg, s, x, rest)
    ensures History(cfg, OrphanAll(cfg, s, rest), null)
    decreases |rest|
  {
    if rest != [] {
      OrphanHistory(cfg, s, x, rest);
      OrphanLinks(cfg, s, x, rest);
      OrphanAllHistory(cfg, Orphan(cfg, s, rest[0]), x, rest[1..]);
    }
    hide History, Links, Orphan;
  }

  lemma {:induction false} CondemnHistory(cfg: Config, s: Pool, c: Backend)
    requires History(cfg, s, null)
    ensures History(cfg, SetBackend(s, c, At(s, c).(willDie := true)), null)
  {
    hide Past;
  }

  lemma {:induction false} DropHistory(cfg: Config, s: Pool, c: Backend)
    requires History(cfg, s, null)
    ensures History(cfg, s.(clients := Remove(s.clients, c)), null)
  {
    hide Past;
  }

  lemma {:induction false} SessionFinishedHistory(cfg: Config, s: Pool, c: Backend)
    requires History(cfg, s, null) && Links(cfg, s, null, []) && c in s.clients
    ensures History(cfg, HandleSessionFinished(cfg, s, c), null)
  {
    var s1 := SetBackend(s, c, At(s, c).(willDie := true));
    var us := At(s1, c).users;
    CondemnHistory(cfg, s, c);
    CondemnLinks(cfg, s, c);
    OrphanAllHistory(cfg, s1, c, us);
    DropHistory(cfg, OrphanAll(cfg, s1, us), c);
    hide History, Links, OrphanAll;
  }

  // ---------------------------------------------------------------- idle moves

  lemma {:induction false} MoveHistory(cfg: Config, s: Pool, u: User)
    requires History(cfg, s, null) && Links(cfg, s, null, []) && !OneUser(cfg) && Seated(s, u)
    ensures History(cfg, MoveToLongRunBackend(cfg, s, u).0, null)
  {
    var prev := Who(s, u).data;
    if prev != null && !At(s, prev).longRun {
      var (s1, c) := GetFreeClient(cfg, s, false, true, false);
      GrantHistory(cfg, s, false, true, false, null);
      GetFreeCalm(cfg, s, false, true, false);
      if c != null { ReseatHistory(cfg, s1, u, prev, c); }
      hide GetFreeClient, History, MayAssign, Links, Reseat;
    }
  }

  lemma {:induction false} ReseatHistory(cfg: Config, s: Pool, u: User, prev: Backend, c: Backend)
    requires History(cfg, s, null) && !OneUser(cfg) && c != prev
    requires c in s.backends && prev in s.backends && At(s, c).pong != Unseen
    requires MayAssign(cfg, s.trace, c, s.desk.lastLogin)
    ensures History(cfg, Reseat(s, u, prev, c), null)
  {
    var s2 := SetUser(s, u, Who(s, u).(ignoreDisconnect := true));
    UsersHistory(cfg, s, s2, null);
    var s3 := SetBackend(s2, prev, At(s2, prev).(users := Remove(At(s2, prev).users, u)));
    assert History(cfg, s3, null);
    PlaceHistory(cfg, s3, u, c, null);
    NotedHistory(cfg, Place(s3, u, c), Login(u, c), null);
    hide Past;
  }

  lemma {:induction false} MoveAllHistory(cfg: Config, s: Pool, us: seq<User>)
    requires History(cfg, s, null) && Links(cfg, s, null, []) && !OneUser(cfg)
    requires forall u :: u in us ==> Seated(s, u)
    ensures History(cfg, MoveAll(cfg, s, us), null)
    decreases |us|
  {
    if us != [] {
      MoveHistory(cfg, s, us[0]);
      MoveLinks(cfg, s, us[0]);
      var (s1, ok) := MoveToLongRunBackend(cfg, s, us[0]);
      if ok { MoveAllHistory(cfg, s1, us[1..]); }
    }
    hide History, Links, MoveToLongRunBackend;
  }

  lemma {:induction false} TickHistory(cfg: Config, s: Pool)
    requires History(cfg, s, null)
    ensures History(cfg, Tick(s), null)
  {
    hide Past;
  }

  lemma {:induction false} MoveIdleHistory(cfg: Config, s: Pool)
    requires History(cfg, s, null) && Links(cfg, s, null, [])
    ensures History(cfg, MoveIdleUsers(cfg, s), null)
  {
    var s1 := Tick(s);
    TickHistory(cfg, s);
    CalmLinks(cfg, s, s1, null, []);
    if cfg.idleReconnectTime != 0 {
      AllToMoveSeated(cfg, s1);
      MoveAllHistory(cfg, s1, UsersToMove(cfg, s1, s1.clients));
    }
    hide History, SeatsOk, QueueOk;
  }

  // ---------------------------------------------------------------- the rest

  lemma {:induction false} NewClientHistory(cfg: Config, s: Pool, c: Backend)
    requires History(cfg, s, null) && c !in s.backends
    ensures History(cfg, HandleNewClientConnection(s, c), null)
  {
    hide Past;
  }

  lemma {:induction false} AddUserHistory(cfg: Config, s: Pool, u: User, limit: int)
    requires History(cfg, s, null) && forall b :: b in s.clients ==> b in s.backends
    ensures History(cfg, Apply(cfg, s, AddUser(u, limit)), null)
  {
    var s1 := Tick(s);
    TickHistory(cfg, s);
    var s2 := SetUser(s1, u, NewUser(limit, s1.desk.clock));
    UsersHistory(cfg, s1, s2, null);
    CreatedHistory(cfg, s2, u, null);
    hide History, HandleUserCreated;
  }

  /** Changes that leave every user list, willDie and seen PONG alone. */
  lemma {:induction false} CalmHistory(cfg: Config, s: Pool, t: Pool)
    requires History(cfg, s, null) && Calm(s, t) && t.desk.lastLogin == s.desk.lastLogin
    requires t.desk.clock >= s.desk.clock
    requires forall b :: b in s.clients ==> b in s.backends
    requires forall b :: b in s.backends && At(s, b).pong != Unseen ==> At(t, b).pong != Unseen
    ensures History(cfg, t, null)
  {
    hide Past;
  }

  lemma {:induction false} ReadyHistory(cfg: Config, s: Pool, u: User)
    requires History(cfg, s, null)
    ensures History(cfg, MakeReady(s, u), null)
  {
    var s1 := SetUser(s, u, Who(s, u).(ready := true));
    UsersHistory(cfg, s, s1, null);
    FiredHistory(cfg, s1, u, Who(s1, u).handlers, null);
    hide History, FireReady;
  }

  lemma {:induction false} PingCheckHistory(cfg: Config, s: Pool)
    requires History(cfg, s, null) && forall b :: b in s.clients ==> b in s.backends
    ensures History(cfg, CheckPings(s), null)
  {
    var s1 := s.(desk := s.desk.(starting := false));
    PingAllCalm(s1, s1.clients);
    PingAllDesk(s1, s1.clients);
    CalmHistory(cfg, s, CheckPings(s));
    hide History;
  }

  lemma {:induction false} CollectHistory(cfg: Config, s: Pool)
    requires History(cfg, s, null) && forall b :: b in s.clients ==> b in s.backends
    ensures History(cfg, CollectBackend(s), null)
  {
    BiggestIsLargest(s, s.clients, null, 0);
    CalmHistory(cfg, s, CollectBackend(s));
    hide History;
  }

  lemma {:induction false} TouchedHistory(cfg: Config, s: Pool, u: User, r: UserState)
    requires History(cfg, s, null)
    ensures History(cfg, SetUser(Tick(s), u, r), null)
  {
    TickHistory(cfg, s);
    UsersHistory(cfg, Tick(s), SetUser(Tick(s), u, r), null);
    hide History;
  }

  lemma {:induction false} ApplyHistory(cfg: Config, s: Pool, e: Event)
    requires History(cfg, s, null) && Links(cfg, s, null, []) && Enabled(s, e)
    ensures History(cfg, Apply(cfg, s, e), null)
  {
    assert forall b :: b in s.clients ==> b in s.backends;
    hide History, Links;
    match e
    case NewClient(c) => NewClientHistory(cfg, s, c);
    case Frame(c) => PingStateHistory(cfg, s, c, Received, null);
    case Pong(c) => PongHistory(cfg, s, c);
    case SessionFinished(c) => SessionFinishedHistory(cfg, s, c);
    case Stats(c, res) => CalmHistory(cfg, s, SetBackend(s, c, At(s, c).(res := res)));
    case AddUser(u, limit) => AddUserHistory(cfg, s, u, limit);
    case DeleteUser(u) => RemoveUserHistory(cfg, s, u, null);
    case Disconnected(u, network) => DisconnectedHistory(cfg, s, u, network, null, null, []);
    case BecomeReady(u, joining) => if !StaysSilent(Who(s, u), joining) { ReadyHistory(cfg, s, u); }
    case SetConnected(u) => TouchedHistory(cfg, s, u, Apply(cfg, s, e).users[u]);
    case Activity(u) => TouchedHistory(cfg, s, u, Apply(cfg, s, e).users[u]);
    case MoveIdle => MoveIdleHistory(cfg, s);
    case PingCheck => PingCheckHistory(cfg, s);
    case Collect => CollectHistory(cfg, s);
    case LoginTimer => ConnectWaitingHistory(cfg, s, null);
    case PidTerminated(pid) =>
      CalmHistory(cfg, s, s.(desk := s.desk.(pids := LogSlots.Terminate(s.desk.pids, pid))));
  }

  lemma {:induction false} StepHistory(cfg: Config, s: Pool, i: Input)
    requires History(cfg, s, null) && Links(cfg, s, null, [])
    ensures History(cfg, Step(cfg, s, i), null)
  {
    var s0 := s.(desk := s.desk.(ticks := i.ticks, pid := i.pid));
    CalmLinks(cfg, s, s0, null, []);
    CalmHistory(cfg, s, s0);
    if Enabled(s0, i.e) { ApplyHistory(cfg, s0, i.e); }
    hide History, Apply;
  }
}
