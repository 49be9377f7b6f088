/** The waiting queue over whole runs: who waits longer is served first; and the process that
    is started for a queued user takes users. */
module PoolQueue {
  import opened Lists
  import opened PoolModel
  import opened PoolLinks
  import opened PoolHistory
  import opened PoolEvolution
  import opened PoolEffects
  import opened PoolEvents
  import opened PoolTheorems
  import LogSlots

  // --------------------------------------------------------------------- order

  lemma {:induction false} BeforeLonger(w: seq<User>, more: seq<User>, u: User, v: User)
    requires Before(w, u, v) && w <= more
    ensures Before(more, u, v)
  {
    var i, j :| 0 <= i < j < |w| && w[i] == u && w[j] == v;
    assert more[i] == u && more[j] == v;
  }

  lemma {:induction false} BeforeLater(w: seq<User>, k: nat, u: User, v: User)
    requires NoDup(w) && Before(w, u, v) && k <= |w| && u in w[k..]
    ensures Before(w[k..], u, v)
  {
    var i, j :| 0 <= i < j < |w| && w[i] == u && w[j] == v;
    var n :| 0 <= n < |w[k..]| && w[k..][n] == u;
    assert w[k + n] == u && k + n == i;
    assert w[k..][i - k] == u && w[k..][j - k] == v;
  }

  lemma {:induction false} BeforeRemove(w: seq<User>, x: User, u: User, v: User)
    requires Before(w, u, v) && x != u && x != v
    ensures Before(Remove(w, x), u, v)
    decreases |w|
  {
    BeforeTail(w, u, v);
    if w[0] == u && v in w[1..] {
      BeforeConcat([u], Remove(w[1..], x), u, v);
    } else {
      BeforeRemove(w[1..], x, u, v);
      BeforeConcat([w[0]], Remove(w[1..], x), u, v);
    }
  }

  /** v taken out and put last is behind u as before. */
  lemma {:induction false} BeforeLast(w: seq<User>, u: User, v: User)
    requires u in w
    ensures Before(w + [v], u, v)
  {
    BeforeConcat(w, [v], u, v);
  }

  // ---------------------------------------------------------- what events do to the queue

  lemma {:induction false} DisconnectedQueue(cfg: Config, s: Pool, u: User, network: bool, x: Backend?, rest: seq<User>)
    requires Links(cfg, s, x, rest) && u in s.users && (x != null ==> s.users[u].data != x)
    ensures var w := HandleDisconnected(cfg, s, u, network).waiting;
      w == s.waiting || w == Remove(s.waiting, u) || w == Remove(s.waiting, u) + [u]
  {
    hide Links, HandleDisconnected, Remove;
    DisconnectedMeans(cfg, s, u, network, x, rest);
    hide FirstFit, Early, SomeFit;
  }

  lemma {:induction false} OrphanAllQueue(cfg: Config, s: Pool, x: Backend, rest: seq<User>)
    requires Links(cfg, s, x, rest)
    ensures s.waiting <= OrphanAll(cfg, s, rest).waiting
    decreases |rest|
  {
    hide Links, HandleDisconnected, Remove;
    if rest != [] {
      var u := rest[0];
      UnlinkLinks(cfg, s, x, rest);
      NotQueued(cfg, s, x, rest);
      DisconnectedQueue(cfg, SetUser(s, u, Who(s, u).(data := null)), u, true, x, rest[1..]);
      OrphanLinks(cfg, s, x, rest);
      OrphanAllQueue(cfg, Orphan(cfg, s, u), x, rest[1..]);
    }
  }

  /** Users of a lost backend that end in the queue come there in the order of its list. */
  lemma {:induction false} OrphansQueueInOrder(cfg: Config, s: Pool, x: Backend, rest: seq<User>, u: User, v: User)
    requires Links(cfg, s, x, rest) && Before(rest, u, v)
    requires var w := OrphanAll(cfg, s, rest).waiting; u in w && v in w
    ensures Before(OrphanAll(cfg, s, rest).waiting, u, v)
    decreases |rest|
  {
    hide Links, Orphan, Before;
    BeforeTail(rest, u, v);
    var t := Orphan(cfg, s, rest[0]);
    OrphanLinks(cfg, s, x, rest);
    if u == rest[0] && v in rest[1..] {
      NotTwice(cfg, s, x, rest);
      LaterOrphans(cfg, t, x, rest[1..], u);
      OrphanAllQueue(cfg, t, x, rest[1..]);
      SeatedNotQueued(cfg, t, x, rest[1..], v);
      var w := OrphanAll(cfg, t, rest[1..]).waiting;
      assert w == t.waiting + w[|t.waiting|..];
      BeforeConcat(t.waiting, w[|t.waiting|..], u, v);
    } else {
      OrphansQueueInOrder(cfg, t, x, rest[1..], u, v);
    }
  }

  lemma {:induction false} SeatedNotQueued(cfg: Config, s: Pool, x: Backend, rest: seq<User>, v: User)
    requires Links(cfg, s, x, rest) && v in rest
    ensures v !in s.waiting
  {
    assert SeatsOk(cfg, s, x, Held(s, x, x, rest));
  }

  /** The same for the whole event. */
  lemma {:induction false} SessionQueuesInOrder(cfg: Config, s: Pool, c: Backend, u: User, v: User)
    requires Links(cfg, s, null, []) && c in s.clients && Before(At(s, c).users, u, v)
    requires var w := HandleSessionFinished(cfg, s, c).waiting; u in w && v in w
    ensures Before(HandleSessionFinished(cfg, s, c).waiting, u, v)
  {
    CondemnLinks(cfg, s, c);
    var s1 := SetBackend(s, c, At(s, c).(willDie := true));
    hide Links, OrphanAll, Before;
    OrphansQueueInOrder(cfg, s1, c, At(s1, c).users, u, v);
  }

  lemma {:induction false} NotQueued(cfg: Config, s: Pool, x: Backend, rest: seq<User>)
    requires Links(cfg, s, x, rest) && rest != []
    ensures rest[0] !in s.waiting && Remove(s.waiting, rest[0]) == s.waiting
  {
    assert SeatsOk(cfg, s, x, Held(s, x, x, rest));
  }

  lemma {:induction false} MoveAllQueue(cfg: Config, s: Pool, us: seq<User>)
    requires Sound(s) && forall u :: u in us ==> u in s.users
    ensures MoveAll(cfg, s, us).waiting == s.waiting
    decreases |us|
  {
    hide MoveToLongRunBackend, Sound;
    if us != [] {
      MoveSettles(cfg, s, us[0], us[0]);
      MoveAllQueue(cfg, MoveToLongRunBackend(cfg, s, us[0]).0, if MoveToLongRunBackend(cfg, s, us[0]).1 then us[1..] else []);
    }
  }

  lemma {:induction false} MoveIdleQueue(cfg: Config, s: Pool)
    requires Links(cfg, s, null, [])
    ensures MoveIdleUsers(cfg, s).waiting == s.waiting
  {
    var s1 := Tick(s);
    CalmLinks(cfg, s, s1, null, []);
    AllToMoveSeated(cfg, s1);
    LinkedSound(cfg, s1);
    hide Links, MoveAll, Sound;
    if cfg.idleReconnectTime != 0 {
      MoveAllQueue(cfg, s1, UsersToMove(cfg, s1, s1.clients));
    }
  }

  lemma {:induction false} PongQueue(cfg: Config, s: Pool, c: Backend)
    ensures exists k: nat :: k <= |s.waiting| && HandlePongReceived(cfg, s, c).waiting == s.waiting[k..]
  {
    var s1 := Note(HandleFrame(s, c), Ponged(c));
    var r := SetBackend(s1, c, At(s1, c).(willDie := false));
    QueueServedInOrder(cfg, r);
    hide ConnectWaitingUsers;
    if At(s1, c).pong == Unseen {
      assert HandlePongReceived(cfg, s, c).waiting == s.waiting[|s.waiting| - |ConnectWaitingUsers(cfg, r).waiting|..];
    } else {
      assert s.waiting[0..] == s.waiting;
    }
  }

  /** The first PONG serves the queue: its first k users are assigned, in order, and if others
      stay, no client can take one or the login has to be postponed. */
  lemma {:induction false} FirstPongServes(cfg: Config, s: Pool, c: Backend)
    requires At(s, c).pong == Unseen
    ensures var t := HandlePongReceived(cfg, s, c);
      var k := |s.waiting| - |t.waiting|;
      && 0 <= k && t.waiting == s.waiting[k..]
      && AssignedUsers(t.trace) == AssignedUsers(s.trace) + s.waiting[..k]
      && (t.waiting == [] || Refused(cfg, t))
      && At(t, c).pong == Received
  {
    var s1 := Note(s, Ponged(c));
    var r := SetBackend(s1, c, At(s1, c).(willDie := false));
    QueueServedInOrder(cfg, r);
    AssignedNote(s.trace, c);
    hide ConnectWaitingUsers, AssignedUsers;
    assert HandleFrame(s, c) == s;
  }

  lemma {:induction false} AssignedNote(trace: seq<Obs>, c: Backend)
    ensures AssignedUsers(trace + [Ponged(c)]) == AssignedUsers(trace)
  {
    AssignedUsersConcat(trace, [Ponged(c)]);
    assert [Ponged(c)][1..] == [];
  }

  /** The possible changes of the queue: users leave, one comes or comes again at the end, or
      the lost backend's users come at the end. */
  ghost predicate QueueStep(w: seq<User>, w': seq<User>, e: Event) {
    || w <= w'
    || (exists k: nat :: k <= |w| && w' == w[k..])
    || (e.DeleteUser? && w' == Remove(w, e.u))
    || (e.Disconnected? && (w' == Remove(w, e.u) || w' == Remove(w, e.u) + [e.u]))
  }

  lemma {:induction false} ApplyQueue(cfg: Config, s: Pool, e: Event)
    requires Links(cfg, s, null, []) && Enabled(s, e)
    ensures QueueStep(s.waiting, Apply(cfg, s, e).waiting, e)
  {
    hide Links, Remove;
    match e
    case Pong(c) => PongQueue(cfg, s, c);
    case SessionFinished(c) =>
      CondemnLinks(cfg, s, c);
      var s1 := SetBackend(s, c, At(s, c).(willDie := true));
      OrphanAllQueue(cfg, s1, c, At(s1, c).users);
      hide OrphanAll;
    case AddUser(u, limit) =>
      AddUserMeans(cfg, s, u, limit);
      CreatedQueue(cfg, Newcomer(s, u, limit), Apply(cfg, s, e), u);
    case DeleteUser(u) =>
      LinkedData(cfg, s, null, [], u);
      DeleteUserMeans(cfg, s, u);
    case Disconnected(u, network) => DisconnectedQueue(cfg, s, u, network, null, []);
    case BecomeReady(u, joining) =>
      FireReadyTrace(SetUser(s, u, Who(s, u).(ready := true)), u, Who(s, u).handlers);
      hide FireReady;
    case MoveIdle => MoveIdleQueue(cfg, s);
    case PingCheck =>
      LinkedClients(cfg, s, null, []);
      CheckPingsMeans(s);
      hide CheckPings;
    case LoginTimer =>
      QueueServedInOrder(cfg, s);
      hide ConnectWaitingUsers;
      assert Apply(cfg, s, e).waiting == s.waiting[|s.waiting| - |Apply(cfg, s, e).waiting|..];
    case _ =>
  }

  lemma {:induction false} CreatedQueue(cfg: Config, s: Pool, t: Pool, u: User)
    requires CreatedAs(cfg, s, t, u)
    ensures s.waiting <= t.waiting
  {
    hide FirstFit, Early, SomeFit;
  }

  /** While both wait, no event puts v in front of u, unless u is taken out and created anew by
      a disconnection of its own. */
  lemma {:induction false} StepKeepsOrder(cfg: Config, s: Pool, i: Input, u: User, v: User)
    requires Links(cfg, s, null, []) && Before(s.waiting, u, v)
    requires var w := Step(cfg, s, i).waiting; u in w && v in w
    requires !(i.e.Disconnected? && i.e.u == u)
    ensures Before(Step(cfg, s, i).waiting, u, v)
  {
    var s0 := s.(desk := s.desk.(ticks := i.ticks, pid := i.pid));
    CalmLinks(cfg, s, s0, null, []);
    QueueNoDup(cfg, s);
    if Enabled(s0, i.e) {
      ApplyQueue(cfg, s0, i.e);
      hide Links, Apply, Remove;
      StepOrder(s.waiting, Apply(cfg, s0, i.e).waiting, i.e, u, v);
    }
  }

  lemma {:induction false} QueueNoDup(cfg: Config, s: Pool)
    requires Links(cfg, s, null, [])
    ensures NoDup(s.waiting)
  {
  }

  lemma {:induction false} StepOrder(w: seq<User>, w': seq<User>, e: Event, u: User, v: User)
    requires NoDup(w) && Before(w, u, v) && QueueStep(w, w', e) && u in w' && v in w'
    requires !(e.Disconnected? && e.u == u)
    ensures Before(w', u, v)
  {
    hide Remove;
    var i, j :| 0 <= i < j < |w| && w[i] == u && w[j] == v;
    if w <= w' {
      BeforeLonger(w, w', u, v);
    } else if k: nat :| k <= |w| && w' == w[k..] {
      BeforeLater(w, k, u, v);
    } else if e.u != u && e.u != v {
      BeforeRemove(w, e.u, u, v);
      BeforeLonger(Remove(w, e.u), Remove(w, e.u) + [e.u], u, v);
    } else if w' == Remove(w, e.u) + [e.u] {
      BeforeLast(Remove(w, v), u, v);
    }
  }

  /** Both wait in every state of the run, and u is not disconnected on the way. */
  ghost predicate BothWait(cfg: Config, s: Pool, ins: seq<Input>, u: User, v: User)
    decreases |ins|
  {
    u in s.waiting && v in s.waiting &&
    (ins == [] || (!(ins[0].e.Disconnected? && ins[0].e.u == u) && BothWait(cfg, Step(cfg, s, ins[0]), ins[1..], u, v)))
  }

  lemma {:induction false} RunKeepsOrder(cfg: Config, s: Pool, ins: seq<Input>, u: User, v: User)
    requires Links(cfg, s, null, []) && Before(s.waiting, u, v) && BothWait(cfg, s, ins, u, v)
    ensures Before(Run(cfg, s, ins).waiting, u, v)
    decreases |ins|
  {
    hide Links, Step, Before;
    if ins != [] {
      StepKeepsOrder(cfg, s, ins[0], u, v);
      StepLinks(cfg, s, ins[0]);
      RunKeepsOrder(cfg, Step(cfg, s, ins[0]), ins[1..], u, v);
    }
  }

  /** First come, first served: of two users that keep waiting from some reachable state on, the
      one in front stays in front. */
  lemma {:induction false} FirstComeFirstServed(cfg: Config, firstPid: nat, now: nat, before: seq<Input>, ins: seq<Input>, u: User, v: User)
    requires var s := Run(cfg, Initial(firstPid, now), before);
      Before(s.waiting, u, v) && BothWait(cfg, s, ins, u, v)
    ensures Before(Run(cfg, Run(cfg, Initial(firstPid, now), before), ins).waiting, u, v)
  {
    RunFromStart(cfg, firstPid, now, before);
    RunKeepsOrder(cfg, Run(cfg, Initial(firstPid, now), before), ins, u, v);
    hide Links, History, Run;
  }

  // ------------------------------------------------------------------ what is started

  /** Started for a user that asks for a backend by itself: a process that takes users. */
  ghost predicate ForUsers(d: Desk, e: Desk) {
    (d.starting ==> e.starting && e.nextLongRun == d.nextLongRun) && (!d.starting && e.starting ==> !e.nextLongRun)
  }

  lemma {:induction false} GrantForUsers(cfg: Config, s: Pool, check: bool)
    ensures ForUsers(s.desk, GetFreeClient(cfg, s, true, false, check).0.desk)
  {
    GrantSpawns(cfg, s, true, false, check);
    hide GetFreeClient;
  }

  lemma {:induction false} CreatedForUsers(cfg: Config, s: Pool, u: User)
    ensures ForUsers(s.desk, HandleUserCreated(cfg, s, u).desk)
  {
    GrantForUsers(cfg, s, false);
    hide GetFreeClient;
  }

  lemma {:induction false} DestroyedDesk(cfg: Config, s: Pool, u: User)
    ensures HandleUserDestroyed(cfg, s, u).desk == s.desk
  {
  }

  lemma {:induction false} DisconnectedForUsers(cfg: Config, s: Pool, u: User, network: bool)
    ensures ForUsers(s.desk, HandleDisconnected(cfg, s, u, network).desk)
  {
    hide HandleUserCreated, HandleUserDestroyed, FireReady;
    DestroyedDesk(cfg, s, u);
    var s1 := SetUser(s, u, Who(s, u).(reconnects := Who(s, u).reconnects + 1));
    DestroyedDesk(cfg, s1, u);
    var s2 := HandleUserDestroyed(cfg, s1, u);
    CreatedForUsers(cfg, s2, u);
    var s3 := HandleUserCreated(cfg, s2, u);
    FireReadyTrace(s3, u, Who(s3, u).handlers);
  }

  lemma {:induction false} OrphanAllForUsers(cfg: Config, s: Pool, us: seq<User>)
    ensures ForUsers(s.desk, OrphanAll(cfg, s, us).desk)
    decreases |us|
  {
    hide HandleDisconnected;
    if us != [] {
      DisconnectedForUsers(cfg, SetUser(s, us[0], Who(s, us[0]).(data := null)), us[0], true);
      OrphanAllForUsers(cfg, Orphan(cfg, s, us[0]), us[1..]);
    }
  }

  /** If an event queues a user and a process is started for it, that process takes users. */
  lemma {:induction false} QueuedIsForUsers(cfg: Config, s: Pool, e: Event)
    requires Links(cfg, s, null, []) && Enabled(s, e) && |Apply(cfg, s, e).waiting| > |s.waiting|
    ensures ForUsers(s.desk, Apply(cfg, s, e).desk)
  {
    hide Remove;
    match e
    case AddUser(u, limit) => CreatedForUsers(cfg, SetUser(Tick(s), u, NewUser(limit, Tick(s).desk.clock)), u);
    case SessionFinished(c) =>
      var s1 := SetBackend(s, c, At(s, c).(willDie := true));
      OrphanAllForUsers(cfg, s1, At(s1, c).users);
      hide OrphanAll;
    case Disconnected(u, network) => DisconnectedForUsers(cfg, s, u, network);
    case _ =>
      hide Apply;
      ApplyQueue(cfg, s, e);
      NotLonger(cfg, s, e);
  }

  lemma {:induction false} NotLonger(cfg: Config, s: Pool, e: Event)
    requires Links(cfg, s, null, []) && Enabled(s, e) && !e.AddUser? && !e.SessionFinished? && !e.Disconnected?
    ensures |Apply(cfg, s, e).waiting| <= |s.waiting|
  {
    hide Links, Remove;
    match e
    case Pong(c) => PongQueue(cfg, s, c);
    case DeleteUser(u) =>
      LinkedData(cfg, s, null, [], u);
      DeleteUserMeans(cfg, s, u);
    case BecomeReady(u, joining) =>
      FireReadyTrace(SetUser(s, u, Who(s, u).(ready := true)), u, Who(s, u).handlers);
      hide FireReady;
    case MoveIdle => MoveIdleQueue(cfg, s);
    case PingCheck =>
      LinkedClients(cfg, s, null, []);
      CheckPingsMeans(s);
      hide CheckPings;
    case LoginTimer => QueueServedInOrder(cfg, s);
    case _ =>
  }

  lemma {:induction false} StartingStays(cfg: Config, s: Pool, i: Input)
    requires s.desk.starting && !i.e.NewClient? && !i.e.PingCheck?
    ensures var d := Step(cfg, s, i).desk; d.starting && d.nextLongRun == s.desk.nextLongRun
  {
    hide Apply;
    var s0 := s.(desk := s.desk.(ticks := i.ticks, pid := i.pid));
    if Enabled(s0, i.e) {
      if i.e.PidTerminated? { PidDesk(cfg, s0, i.e); } else { ApplyGrows(cfg, s0, i.e); }
    }
  }

  lemma {:induction false} PidDesk(cfg: Config, s: Pool, e: Event)
    requires e.PidTerminated?
    ensures Apply(cfg, s, e) == s.(desk := s.desk.(pids := LogSlots.Terminate(s.desk.pids, e.pid)))
  {
  }

  ghost predicate NothingElseStarted(ins: seq<Input>) {
    forall i :: 0 <= i < |ins| ==> !ins[i].e.NewClient? && !ins[i].e.PingCheck?
  }

  lemma {:induction false} StartingStaysAll(cfg: Config, s: Pool, ins: seq<Input>)
    requires s.desk.starting && NothingElseStarted(ins)
    ensures var d := Run(cfg, s, ins).desk; d.starting && d.nextLongRun == s.desk.nextLongRun
    decreases |ins|
  {
    hide Step;
    if ins != [] {
      StartingStays(cfg, s, ins[0]);
      StartingStaysAll(cfg, Step(cfg, s, ins[0]), ins[1..]);
    }
  }

  /** The backend that connects next, after a process was started for a queued user and before
      the ping timer gives up on it, takes users and is not long-running. */
  lemma {:induction false} NextClientTakesUsers(cfg: Config, s: Pool, i: Input, ins: seq<Input>, c: Backend)
    requires Links(cfg, s, null, []) && NothingElseStarted(ins)
    requires var t := Step(cfg, s, i); |t.waiting| > |s.waiting| && !s.desk.starting && t.desk.starting
    ensures var w := Run(cfg, Step(cfg, s, i), ins);
      var r := At(HandleNewClientConnection(w, c), c);
      r.acceptUsers && !r.longRun
  {
    var s0 := s.(desk := s.desk.(ticks := i.ticks, pid := i.pid));
    CalmLinks(cfg, s, s0, null, []);
    hide Links, Run, Apply;
    QueuedIsForUsers(cfg, s0, i.e);
    StartingStaysAll(cfg, Step(cfg, s, i), ins);
  }
}
