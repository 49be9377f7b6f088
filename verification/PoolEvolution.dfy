/** What no handler ever undoes: traces only grow, a closed backend takes no more
    users, and at most one process is spawned while an event is handled. */
module PoolEvolution {
  import opened Lists
  import opened PoolModel
  import opened PoolLinks
  import LogSlots

  /** Collected or filled for good, or dying after its first PONG. */
  predicate Closed(r: BackendState) {
    (!r.longRun && !r.acceptUsers) || (r.willDie && r.pong != Unseen)
  }

  ghost predicate Ages(r: BackendState, q: BackendState) {
    && q.longRun == r.longRun
    && (q.acceptUsers ==> r.acceptUsers)
    && (r.pong != Unseen ==> q.pong != Unseen && (r.willDie ==> q.willDie))
    && (Closed(r) ==> forall u :: u in q.users ==> u in r.users)
  }

  ghost predicate Evolves(s: Pool, t: Pool) {
    && s.trace <= t.trace
    && (forall b :: b in s.backends ==> b in t.backends && Ages(s.backends[b], t.backends[b]))
  }

  /** At most one process started, with the pid at hand. */
  ghost predicate SpawnsOnce(d: Desk, e: Desk) {
    && e.pid == d.pid
    && (|| (e.pids == d.pids && e.starting == d.starting && e.nextLongRun == d.nextLongRun)
        || (!d.starting && e.starting && e.pids == LogSlots.Spawn(d.pids, d.pid)))
  }

  ghost predicate Grows(s: Pool, t: Pool) {
    Evolves(s, t) && SpawnsOnce(s.desk, t.desk)
  }

  lemma {:induction false} EvolvesTrans(s: Pool, t: Pool, v: Pool)
    requires Evolves(s, t) && Evolves(t, v)
    ensures Evolves(s, v)
  {
    forall b | b in s.backends
      ensures b in v.backends && Ages(s.backends[b], v.backends[b])
    {
      assert Ages(s.backends[b], t.backends[b]) && Ages(t.backends[b], v.backends[b]);
    }
  }

  lemma {:induction false} GrowsTrans(s: Pool, t: Pool, v: Pool)
    requires Grows(s, t) && Grows(t, v)
    ensures Grows(s, v)
  {
    EvolvesTrans(s, t, v);
    hide Evolves;
  }

  lemma {:induction false} GrantGrows(cfg: Config, s: Pool, accept: bool, longRun: bool, check: bool)
    ensures var (t, c) := GetFreeClient(cfg, s, accept, longRun, check);
      && Grows(s, t)
      && (c != null ==> (&& c in s.backends && c in t.backends
                         && Free(cfg, s.backends[c], accept, longRun)
                         && t.backends == s.backends[c := t.backends[c]]))
  {
    GrantDesk(cfg, s, accept, longRun, check);
    hide FirstFree, TooEarly, ReadClock, StampLogin, SpawnBackend;
  }

  lemma {:induction false} GrantDesk(cfg: Config, s: Pool, accept: bool, longRun: bool, check: bool)
    ensures SpawnsOnce(s.desk, GetFreeClient(cfg, s, accept, longRun, check).0.desk)
  {
    hide FirstFree, Claim;
  }

  /** A user is only put on a backend that was open before the request. */
  lemma {:induction false} FillGrows(s: Pool, s1: Pool, t: Pool, c: Backend)
    requires Grows(s, s1) && SpawnsOnce(s1.desk, t.desk) && t.desk == s1.desk && s1.trace <= t.trace
    requires c in s.backends && c in s1.backends && !Closed(s.backends[c])
    requires t.backends.Keys == s1.backends.Keys
    requires forall b :: b in s1.backends && b != c ==> Ages(s1.backends[b], t.backends[b])
    requires t.backends[c] == s1.backends[c].(users := t.backends[c].users)
    ensures Grows(s, t)
  {
    forall b | b in s.backends
      ensures b in t.backends && Ages(s.backends[b], t.backends[b])
    {
      assert Ages(s.backends[b], s1.backends[b]);
    }
  }

  lemma {:induction false} CreatedGrows(cfg: Config, s: Pool, u: User)
    ensures Grows(s, HandleUserCreated(cfg, s, u))
  {
    var (s1, c) := GetFreeClient(cfg, s, true, false, false);
    GrantGrows(cfg, s, true, false, false);
    if c != null { FillGrows(s, s1, HandleUserCreated(cfg, s, u), c); }
    hide GetFreeClient, Grows;
  }

  lemma {:induction false} DestroyedGrows(cfg: Config, s: Pool, u: User)
    ensures Grows(s, HandleUserDestroyed(cfg, s, u))
  {
  }

  lemma {:induction false} FiredGrows(s: Pool, u: User, n: nat)
    ensures Grows(s, FireReady(s, u, n))
    decreases n
  {
    if n > 0 {
      FiredGrows(HandleUserReadyToConnect(s, u), u, n - 1);
      assert Grows(s, HandleUserReadyToConnect(s, u));
      GrowsTrans(s, HandleUserReadyToConnect(s, u), FireReady(s, u, n));
    }
  }

  /** Changes to users and the queue only. */
  lemma {:induction false} UsersGrow(s: Pool, t: Pool)
    requires t.backends == s.backends && t.desk == s.desk && t.trace == s.trace
    ensures Grows(s, t)
  {
  }

  lemma {:induction false} ResurrectGrows(cfg: Config, s: Pool, u: User)
    ensures Grows(s, Resurrect(cfg, s, u))
  {
    hide Grows, HandleUserCreated, HandleUserDestroyed, FireReady;
    var s1 := SetUser(s, u, Who(s, u).(reconnects := Who(s, u).reconnects + 1));
    var s2 := HandleUserDestroyed(cfg, s1, u);
    var s3 := HandleUserCreated(cfg, s2, u);
    var n := Who(s3, u).handlers;
    UsersGrow(s, s1);
    DestroyedGrows(cfg, s1, u);
    CreatedGrows(cfg, s2, u);
    FiredGrows(s3, u, n);
    GrowsTrans(s, s1, s2);
    GrowsTrans(s, s2, s3);
    GrowsTrans(s, s3, FireReady(s3, u, n));
  }

  lemma {:induction false} RemoveUserGrows(cfg: Config, s: Pool, u: User)
    ensures Grows(s, RemoveUser(cfg, s, u))
  {
    hide Grows, HandleUserDestroyed;
    DestroyedGrows(cfg, s, u);
    UsersGrow(HandleUserDestroyed(cfg, s, u), RemoveUser(cfg, s, u));
    GrowsTrans(s, HandleUserDestroyed(cfg, s, u), RemoveUser(cfg, s, u));
  }

  lemma {:induction false} DisconnectedGrows(cfg: Config, s: Pool, u: User, network: bool)
    ensures Grows(s, HandleDisconnected(cfg, s, u, network))
  {
    hide Grows, Resurrect, RemoveUser;
    UsersGrow(s, s);
    ResurrectGrows(cfg, s, u);
    RemoveUserGrows(cfg, s, u);
  }

  lemma {:induction false} ServeFirstGrows(cfg: Config, s: Pool)
    requires s.waiting != []
    ensures Grows(s, ServeFirst(cfg, s))
  {
    hide Grows, HandleUserCreated;
    var u := s.waiting[0];
    var s0 := s.(waiting := s.waiting[1..]);
    var s1 := HandleUserCreated(cfg, s0, u);
    UsersGrow(s, s0);
    CreatedGrows(cfg, s0, u);
    GrowsTrans(s, s0, s1);
    FiredGrows(s1, u, 1);
    GrowsTrans(s, s1, FireReady(s1, u, 1));
  }

  lemma {:induction false} ConnectWaitingGrows(cfg: Config, s: Pool)
    ensures Grows(s, ConnectWaitingUsers(cfg, s))
    decreases |s.waiting|
  {
    hide Grows, GetFreeClient, ServeFirst;
    UsersGrow(s, s);
    if s.waiting != [] {
      var (s1, c) := GetFreeClient(cfg, s, true, false, true);
      GrantGrows(cfg, s, true, false, true);
      if c != null {
        CheckedServeShrinks(cfg, s);
        ServeFirstGrows(cfg, s1);
        GrowsTrans(s, s1, ServeFirst(cfg, s1));
        ConnectWaitingGrows(cfg, ServeFirst(cfg, s1));
        GrowsTrans(s, ServeFirst(cfg, s1), ConnectWaitingUsers(cfg, s));
      }
    }
  }

  lemma {:induction false} BackendGrows(s: Pool, c: Backend, r: BackendState)
    requires Ages(At(s, c), r)
    ensures Grows(s, SetBackend(s, c, r))
  {
  }

  lemma {:induction false} PongGrows(cfg: Config, s: Pool, c: Backend)
    ensures Grows(s, HandlePongReceived(cfg, s, c))
  {
    hide Grows, ConnectWaitingUsers;
    var s0 := HandleFrame(s, c);
    UsersGrow(s, s);
    BackendGrows(s, c, At(s, c).(pong := Received));
    var s1 := Note(s0, Ponged(c));
    assert Grows(s0, s1) by { NoteGrows(s0, Ponged(c)); }
    GrowsTrans(s, s0, s1);
    var r := SetBackend(s1, c, At(s1, c).(willDie := false));
    var s2 := if At(s1, c).pong != Unseen then s1 else ConnectWaitingUsers(cfg, r);
    if At(s1, c).pong == Unseen {
      BackendGrows(s1, c, At(s1, c).(willDie := false));
      ConnectWaitingGrows(cfg, r);
      GrowsTrans(s1, r, s2);
      GrowsTrans(s, s1, s2);
    }
    BackendGrows(s2, c, At(s2, c).(pong := Received));
    GrowsTrans(s, s2, HandlePongReceived(cfg, s, c));
  }

  lemma {:induction false} NoteGrows(s: Pool, o: Obs)
    ensures Grows(s, Note(s, o))
  {
  }

  lemma {:induction false} OrphanAllGrows(cfg: Config, s: Pool, us: seq<User>)
    ensures Grows(s, OrphanAll(cfg, s, us))
    decreases |us|
  {
    hide Grows, HandleDisconnected;
    UsersGrow(s, s);
    if us != [] {
      var u := us[0];
      var s1 := SetUser(s, u, Who(s, u).(data := null));
      UsersGrow(s, s1);
      DisconnectedGrows(cfg, s1, u, true);
      GrowsTrans(s, s1, Orphan(cfg, s, u));
      OrphanAllGrows(cfg, Orphan(cfg, s, u), us[1..]);
      GrowsTrans(s, Orphan(cfg, s, u), OrphanAll(cfg, s, us));
    }
  }

  lemma {:induction false} SessionFinishedGrows(cfg: Config, s: Pool, c: Backend)
    ensures Grows(s, HandleSessionFinished(cfg, s, c))
  {
    hide Grows, OrphanAll;
    var s1 := SetBackend(s, c, At(s, c).(willDie := true));
    var s2 := OrphanAll(cfg, s1, At(s1, c).users);
    BackendGrows(s, c, At(s, c).(willDie := true));
    OrphanAllGrows(cfg, s1, At(s1, c).users);
    GrowsTrans(s, s1, s2);
    UsersGrow(s2, HandleSessionFinished(cfg, s, c));
    GrowsTrans(s, s2, HandleSessionFinished(cfg, s, c));
  }

  lemma {:induction false} SeatGrows(s: Pool, s1: Pool, u: User, prev: Backend, c: Backend)
    requires Grows(s, s1) && c in s.backends && c in s1.backends && !Closed(s.backends[c]) && c != prev
    ensures Grows(s, Reseat(s1, u, prev, c))
  {
    var s3 := SetBackend(s1, prev, At(s1, prev).(users := Remove(At(s1, prev).users, u)));
    BackendGrows(s1, prev, At(s1, prev).(users := Remove(At(s1, prev).users, u)));
    GrowsTrans(s, s1, s3);
    var s2' := SetUser(s1, u, Who(s1, u).(ignoreDisconnect := true));
    var s3' := SetBackend(s2', prev, At(s2', prev).(users := Remove(At(s2', prev).users, u)));
    var s4 := Place(s3', u, c);
    FillGrows(s, s3, s4, c);
    NoteGrows(s4, Login(u, c));
    GrowsTrans(s, s4, HandleUserReadyToConnect(s4, u));
    hide Grows, Ages;
  }

  lemma {:induction false} MoveGrows(cfg: Config, s: Pool, u: User)
    ensures Grows(s, MoveToLongRunBackend(cfg, s, u).0)
  {
    hide Grows, GetFreeClient, Reseat;
    UsersGrow(s, s);
    var prev := Who(s, u).data;
    if prev != null && !At(s, prev).longRun {
      var (s1, c) := GetFreeClient(cfg, s, false, true, false);
      GrantGrows(cfg, s, false, true, false);
      if c != null {
        SeatGrows(s, s1, u, prev, c);
      }
    }
  }

  lemma {:induction false} MoveAllGrows(cfg: Config, s: Pool, us: seq<User>)
    ensures Grows(s, MoveAll(cfg, s, us))
    decreases |us|
  {
    hide Grows, MoveToLongRunBackend;
    UsersGrow(s, s);
    if us != [] {
      MoveGrows(cfg, s, us[0]);
      var (s1, ok) := MoveToLongRunBackend(cfg, s, us[0]);
      if ok {
        MoveAllGrows(cfg, s1, us[1..]);
        GrowsTrans(s, s1, MoveAll(cfg, s, us));
      }
    }
  }

  lemma {:induction false} TickGrows(s: Pool)
    ensures Grows(s, Tick(s))
  {
  }

  lemma {:induction false} MoveIdleGrows(cfg: Config, s: Pool)
    ensures Grows(s, MoveIdleUsers(cfg, s))
  {
    hide Grows, MoveAll;
    var s1 := Tick(s);
    var us := UsersToMove(cfg, s1, s1.clients);
    TickGrows(s);
    MoveAllGrows(cfg, s1, us);
    GrowsTrans(s, s1, MoveAll(cfg, s1, us));
  }

  lemma {:induction false} PingAllEvolves(s: Pool, cs: seq<Backend>)
    ensures Grows(s, PingAll(s, cs))
    decreases |cs|
  {
    hide Grows;
    UsersGrow(s, s);
    if cs != [] {
      var r := At(s, cs[0]).(pong := Missing);
      var s1 := Ping(s, cs[0]);
      BackendGrows(s, cs[0], r);
      PingAllEvolves(s1, cs[1..]);
      GrowsTrans(s, s1, PingAll(s, cs));
    }
  }

  lemma {:induction false} TouchedGrows(s: Pool, u: User, r: UserState)
    ensures Grows(s, SetUser(Tick(s), u, r))
  {
    hide Grows;
    TickGrows(s);
    UsersGrow(Tick(s), SetUser(Tick(s), u, r));
    GrowsTrans(s, Tick(s), SetUser(Tick(s), u, r));
  }

  lemma {:induction false} AddUserGrows(cfg: Config, s: Pool, u: User, limit: int)
    ensures Grows(s, Apply(cfg, s, AddUser(u, limit)))
  {
    hide Grows, HandleUserCreated;
    var s1 := Tick(s);
    var s2 := SetUser(s1, u, NewUser(limit, s1.desk.clock));
    TouchedGrows(s, u, NewUser(limit, s1.desk.clock));
    CreatedGrows(cfg, s2, u);
    GrowsTrans(s, s2, HandleUserCreated(cfg, s2, u));
  }

  lemma {:induction false} ReadyGrows(cfg: Config, s: Pool, u: User)
    ensures Grows(s, MakeReady(s, u))
  {
    hide Grows, FireReady;
    var s1 := SetUser(s, u, Who(s, u).(ready := true));
    UsersGrow(s, s1);
    FiredGrows(s1, u, Who(s1, u).handlers);
    GrowsTrans(s, s1, FireReady(s1, u, Who(s1, u).handlers));
  }

  lemma {:induction false} CollectGrows(s: Pool)
    ensures Grows(s, CollectBackend(s))
  {
  }

  /** The events that release the starting flag or a log slot. */
  predicate Releases(e: Event) {
    e.NewClient? || e.PingCheck? || e.PidTerminated?
  }

  lemma {:induction false} ReleaseEvolves(cfg: Config, s: Pool, e: Event)
    requires Enabled(s, e) && Releases(e)
    ensures Evolves(s, Apply(cfg, s, e))
    ensures Apply(cfg, s, e).desk.pids == if e.PidTerminated? then LogSlots.Terminate(s.desk.pids, e.pid) else s.desk.pids
  {
    if e.PingCheck? {
      var s1 := s.(desk := s.desk.(starting := false));
      PingAllEvolves(s1, s1.clients);
      PingAllDesk(s1, s1.clients);
    }
  }

  lemma {:induction false} ApplyGrows(cfg: Config, s: Pool, e: Event)
    requires Enabled(s, e) && !Releases(e)
    ensures Grows(s, Apply(cfg, s, e))
  {
    hide Grows;
    match e
    case Frame(c) =>
      UsersGrow(s, s);
      BackendGrows(s, c, At(s, c).(pong := Received));
    case Pong(c) => PongGrows(cfg, s, c);
    case SessionFinished(c) => SessionFinishedGrows(cfg, s, c);
    case Stats(c, res) => BackendGrows(s, c, At(s, c).(res := res));
    case AddUser(u, limit) => AddUserGrows(cfg, s, u, limit);
    case DeleteUser(u) => RemoveUserGrows(cfg, s, u);
    case Disconnected(u, network) => DisconnectedGrows(cfg, s, u, network);
    case BecomeReady(u, joining) => if !StaysSilent(Who(s, u), joining) { ReadyGrows(cfg, s, u); } else { UsersGrow(s, s); }
    case SetConnected(u) => TouchedGrows(s, u, Apply(cfg, s, e).users[u]);
    case Activity(u) => TouchedGrows(s, u, Apply(cfg, s, e).users[u]);
    case MoveIdle => MoveIdleGrows(cfg, s);
    case Collect => CollectGrows(s);
    case LoginTimer => ConnectWaitingGrows(cfg, s);
  }

  /** Every step: nothing is unsaid, and a closed backend stays closed and only loses users. */
  lemma {:induction false} StepEvolves(cfg: Config, s: Pool, i: Input)
    ensures Evolves(s, Step(cfg, s, i))
  {
    hide Apply;
    var s0 := s.(desk := s.desk.(ticks := i.ticks, pid := i.pid));
    if Enabled(s0, i.e) {
      if Releases(i.e) { ReleaseEvolves(cfg, s0, i.e); } else { ApplyGrows(cfg, s0, i.e); }
    }
    assert Evolves(s, s0);
    EvolvesTrans(s, s0, Step(cfg, s, i));
  }

  /** Every step changes the log slots in one of three ways. */
  lemma {:induction false} StepSlots(cfg: Config, s: Pool, i: Input)
    ensures var pids := Step(cfg, s, i).desk.pids;
      || pids == s.desk.pids
      || (!s.desk.starting && pids == LogSlots.Spawn(s.desk.pids, i.pid))
      || (i.e.PidTerminated? && pids == LogSlots.Terminate(s.desk.pids, i.e.pid))
  {
    hide Apply;
    var s0 := s.(desk := s.desk.(ticks := i.ticks, pid := i.pid));
    if Enabled(s0, i.e) {
      if Releases(i.e) { ReleaseEvolves(cfg, s0, i.e); } else { ApplyGrows(cfg, s0, i.e); }
    }
  }
}
