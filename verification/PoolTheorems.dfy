/** The pool over whole runs: what holds after any sequence of events from start-up. */
module PoolTheorems {
  import opened Lists
  import opened PoolModel
  import opened PoolLinks
  import opened PoolHistory
  import opened PoolEvolution
  import LogSlots

  lemma {:induction false} RunKeeps(cfg: Config, s: Pool, ins: seq<Input>)
    requires Links(cfg, s, null, []) && History(cfg, s, null)
    ensures Links(cfg, Run(cfg, s, ins), null, []) && History(cfg, Run(cfg, s, ins), null)
    decreases |ins|
  {
    hide Links, History, Step;
    if ins != [] {
      StepLinks(cfg, s, ins[0]);
      StepHistory(cfg, s, ins[0]);
      RunKeeps(cfg, Step(cfg, s, ins[0]), ins[1..]);
    }
  }

  lemma {:induction false} RunFromStart(cfg: Config, firstPid: nat, now: nat, ins: seq<Input>)
    ensures var s := Run(cfg, Initial(firstPid, now), ins);
      Links(cfg, s, null, []) && History(cfg, s, null)
  {
    RunKeeps(cfg, Initial(firstPid, now), ins);
    hide Links, History, Run;
  }

  /** In every reachable state a user sits in at most one place, its backend's list is
      the one it points to and not too long, long-running backends take nobody by
      themselves, and the pool listens to exactly the users that are on a backend. */
  lemma {:induction false} OnePlacePerUser(cfg: Config, firstPid: nat, now: nat, ins: seq<Input>, u: User)
    ensures var s := Run(cfg, Initial(firstPid, now), ins);
      && (forall b :: b in s.clients ==>
            && NoDup(At(s, b).users)
            && (At(s, b).users != [] ==> |At(s, b).users| <= cfg.usersPerBackend)
            && (At(s, b).longRun ==> !At(s, b).acceptUsers))
      && (forall b :: b in s.clients && u in At(s, b).users ==>
            Who(s, u).data == b && Who(s, u).handlers == 1 && u !in s.waiting)
      && (forall b, c :: b in s.clients && c in s.clients && u in At(s, b).users && u in At(s, c).users ==> b == c)
      && NoDup(s.waiting)
      && (u in s.waiting ==> u in s.users && Who(s, u).handlers == 0)
  {
    RunFromStart(cfg, firstPid, now, ins);
    var s := Run(cfg, Initial(firstPid, now), ins);
    hide Run, History;
    forall b | b in s.clients
      ensures SeatsOk(cfg, s, b, At(s, b).users)
    {
      assert SeatsOk(cfg, s, b, Held(s, b, null, []));
    }
  }

  /** Nobody is put on a backend, or sits on one, before its first PONG was handled. */
  lemma {:induction false} PongBeforeUsers(cfg: Config, firstPid: nat, now: nat, ins: seq<Input>)
    ensures var s := Run(cfg, Initial(firstPid, now), ins);
      && (forall i :: 0 <= i < |s.trace| && s.trace[i].Assigned? ==> Ponged(s.trace[i].b) in s.trace[..i])
      && (forall b :: b in s.clients && At(s, b).users != [] ==> Ponged(b) in s.trace)
  {
    RunFromStart(cfg, firstPid, now, ins);
    hide Run, Links;
  }

  /** With one user per backend and no idle moves, no backend ever gets a second user. */
  lemma {:induction false} OneUserPerBackendLifetime(cfg: Config, firstPid: nat, now: nat, ins: seq<Input>)
    requires cfg.usersPerBackend == 1 && cfg.idleReconnectTime == 0
    ensures var tr := Run(cfg, Initial(firstPid, now), ins).trace;
      forall i, j :: 0 <= i < j < |tr| && tr[i].Assigned? && tr[j].Assigned? ==> tr[i].b != tr[j].b
  {
    RunFromStart(cfg, firstPid, now, ins);
    hide Run, Links;
  }

  function CountAssigned(tr: seq<Obs>): nat {
    if tr == [] then 0 else CountAssigned(tr[..|tr| - 1]) + (if tr[|tr| - 1].Assigned? then 1 else 0)
  }

  lemma {:induction false} SpacedSpan(tr: seq<Obs>, delay: nat, i: nat, j: nat)
    requires Spaced(tr, delay) && i < j < |tr| && tr[i].Assigned? && tr[j].Assigned?
    ensures tr[i].at + CountAssigned(tr[i + 1..j + 1]) * delay <= tr[j].at
    decreases j
  {
    var mid := tr[i + 1..j];
    assert tr[i + 1..j + 1] == mid + [tr[j]];
    var k := LastAssigned(tr, i, j);
    if k > i {
      SpacedSpan(tr, delay, i, k);
    } else {
      assert tr[i + 1..i + 1] == [];
    }
    var before := CountAssigned(tr[i + 1..k + 1]);
    assert CountAssigned(tr[i + 1..j + 1]) == before + 1;
    assert tr[k].at + delay <= tr[j].at;
    assert (before + 1) * delay == before * delay + delay;
    hide CountAssigned, Spaced;
  }

  /** The last assignment before j, which is i or later. */
  lemma {:induction false} LastAssigned(tr: seq<Obs>, i: nat, j: nat) returns (k: nat)
    requires i < j < |tr| && tr[i].Assigned?
    ensures i <= k < j && tr[k].Assigned?
    ensures CountAssigned(tr[i + 1..j]) == CountAssigned(tr[i + 1..k + 1])
    decreases j
  {
    if tr[j - 1].Assigned? {
      k := j - 1;
    } else {
      assert tr[i + 1..j] == tr[i + 1..j - 1] + [tr[j - 1]];
      k := LastAssigned(tr, i, j - 1);
    }
  }

  /** k assignments after one at time t end no earlier than t + k * login_delay. */
  lemma {:induction false} AssignmentsSpan(cfg: Config, firstPid: nat, now: nat, ins: seq<Input>, i: nat, j: nat)
    requires cfg.loginDelay >= 0
    requires var tr := Run(cfg, Initial(firstPid, now), ins).trace;
      i < j < |tr| && tr[i].Assigned? && tr[j].Assigned?
    ensures var tr := Run(cfg, Initial(firstPid, now), ins).trace;
      tr[i].at + CountAssigned(tr[i + 1..j + 1]) * cfg.loginDelay <= tr[j].at
  {
    RunFromStart(cfg, firstPid, now, ins);
    SpacedSpan(Run(cfg, Initial(firstPid, now), ins).trace, cfg.loginDelay, i, j);
    hide Run, Links;
  }

  /** Once closed, a backend stays closed and its users are among those it had, whatever
      happens; and no observation is ever taken back. */
  lemma {:induction false} ClosedBackendsDrain(cfg: Config, s: Pool, ins: seq<Input>)
    ensures var t := Run(cfg, s, ins);
      && s.trace <= t.trace
      && (forall b :: b in s.backends && Closed(At(s, b)) ==>
            Closed(At(t, b)) && forall u :: u in At(t, b).users ==> u in At(s, b).users)
  {
    RunEvolves(cfg, s, ins);
    hide Run;
    var t := Run(cfg, s, ins);
    forall b | b in s.backends && Closed(At(s, b))
      ensures Closed(At(t, b)) && forall u :: u in At(t, b).users ==> u in At(s, b).users
    {
      assert Ages(s.backends[b], t.backends[b]);
    }
  }

  lemma {:induction false} RunEvolves(cfg: Config, s: Pool, ins: seq<Input>)
    ensures Evolves(s, Run(cfg, s, ins))
    decreases |ins|
  {
    hide Step;
    if ins != [] {
      StepEvolves(cfg, s, ins[0]);
      RunEvolves(cfg, Step(cfg, s, ins[0]), ins[1..]);
      EvolvesTrans(s, Step(cfg, s, ins[0]), Run(cfg, s, ins));
    }
  }

  // ---------------------------------------------------------------- log slots

  /** The environment hands out pids that are non-zero and not in use. */
  ghost predicate PidsFresh(cfg: Config, s: Pool, ins: seq<Input>)
    decreases |ins|
  {
    ins == [] ||
    (&& ins[0].pid != 0 && ins[0].pid !in s.desk.pids
     && (ins[0].e.PidTerminated? ==> ins[0].e.pid != 0)
     && PidsFresh(cfg, Step(cfg, s, ins[0]), ins[1..]))
  }

  /** Most processes alive at once during the run. */
  function Peak(cfg: Config, s: Pool, ins: seq<Input>): nat
    decreases |ins|
  {
    var here := LogSlots.Live(s.desk.pids);
    if ins == [] then here else
    var later := Peak(cfg, Step(cfg, s, ins[0]), ins[1..]);
    if here > later then here else later
  }

  lemma {:induction false} SlotStep(cfg: Config, s: Pool, i: Input)
    requires LogSlots.Distinct(s.desk.pids) && i.pid != 0 && i.pid !in s.desk.pids
    requires i.e.PidTerminated? ==> i.e.pid != 0
    ensures var q := Step(cfg, s, i).desk.pids;
      && LogSlots.Distinct(q)
      && |q| <= (if |s.desk.pids| > LogSlots.Live(q) then |s.desk.pids| else LogSlots.Live(q))
  {
    hide Step, LogSlots.Spawn, LogSlots.Terminate, LogSlots.Distinct, LogSlots.Live;
    StepSlots(cfg, s, i);
    LogSlots.SpawnTakesOwnSlot(s.desk.pids, i.pid);
    if i.e.PidTerminated? { LogSlots.TerminateFreesOneSlot(s.desk.pids, i.e.pid); }
  }

  /** Running backends have different log ids, and there are never more log ids than there
      were backends running at the same time. */
  lemma {:induction false} LogIdsDistinctAndFew(cfg: Config, s: Pool, ins: seq<Input>)
    requires LogSlots.Distinct(s.desk.pids) && PidsFresh(cfg, s, ins)
    ensures var q := Run(cfg, s, ins).desk.pids;
      && LogSlots.Distinct(q)
      && |q| <= (if |s.desk.pids| > Peak(cfg, s, ins) then |s.desk.pids| else Peak(cfg, s, ins))
    decreases |ins|
  {
    hide Step, LogSlots.Distinct;
    if ins != [] {
      SlotStep(cfg, s, ins[0]);
      LogIdsDistinctAndFew(cfg, Step(cfg, s, ins[0]), ins[1..]);
      PeakAtStart(cfg, Step(cfg, s, ins[0]), ins[1..]);
    }
  }

  /** The same from start-up, where the first process already has slot 1. */
  lemma {:induction false} LogIdsFromStart(cfg: Config, firstPid: nat, now: nat, ins: seq<Input>)
    requires firstPid != 0 && PidsFresh(cfg, Initial(firstPid, now), ins)
    ensures var q := Run(cfg, Initial(firstPid, now), ins).desk.pids;
      LogSlots.Distinct(q) && |q| <= Peak(cfg, Initial(firstPid, now), ins)
  {
    var s := Initial(firstPid, now);
    LogIdsDistinctAndFew(cfg, s, ins);
    PeakAtStart(cfg, s, ins);
    assert s.desk.pids == [firstPid] && LogSlots.Live([firstPid]) == 1;
    hide Run, Peak;
  }

  lemma {:induction false} PeakAtStart(cfg: Config, s: Pool, ins: seq<Input>)
    ensures Peak(cfg, s, ins) >= LogSlots.Live(s.desk.pids)
  {
  }

  // ---------------------------------------------------------------- queue and logins

  function AssignedUsers(tr: seq<Obs>): seq<User> {
    if tr == [] then []
    else (if tr[0].Assigned? then [tr[0].u] else []) + AssignedUsers(tr[1..])
  }

  lemma {:induction false} AssignedUsersHead(o: Obs, tr: seq<Obs>)
    ensures AssignedUsers([o] + tr) == (if o.Assigned? then [o.u] else []) + AssignedUsers(tr)
  {
    assert ([o] + tr)[1..] == tr;
  }

  lemma {:induction false} AssignedUsersConcat(a: seq<Obs>, b: seq<Obs>)
    ensures AssignedUsers(a + b) == AssignedUsers(a) + AssignedUsers(b)
  {
    if a == [] {
      assert a + b == b;
    } else {
      assert a == [a[0]] + a[1..];
      AssignedUsersConcat(a[1..], b);
      AssignedUsersHead(a[0], a[1..] + b);
      AssignedUsersHead(a[0], a[1..]);
      assert a + b == [a[0]] + (a[1..] + b);
      hide AssignedUsers;
    }
  }

  /** What serving the head of the queue adds to the trace: one assignment, then one login
      if the user is ready. */
  lemma {:induction false} ServedTrace(cfg: Config, s: Pool)
    requires s.waiting != [] && GetFreeClient(cfg, s, true, false, true).1 != null
    ensures var (s1, c) := GetFreeClient(cfg, s, true, false, true);
      var u := s.waiting[0];
      var t := ServeFirst(cfg, s1);
      t.trace == s.trace + [Assigned(u, c, t.desk.lastLogin)] + (if Who(s, u).ready then [Login(u, c)] else [])
  {
  }

  lemma {:induction false} ServedAssigns(cfg: Config, s: Pool)
    requires s.waiting != [] && GetFreeClient(cfg, s, true, false, true).1 != null
    ensures var t := ServeFirst(cfg, GetFreeClient(cfg, s, true, false, true).0);
      AssignedUsers(t.trace) == AssignedUsers(s.trace) + [s.waiting[0]] && t.waiting == s.waiting[1..]
  {
    CheckedServeShrinks(cfg, s);
    ServedTrace(cfg, s);
    var (s1, c) := GetFreeClient(cfg, s, true, false, true);
    var t := ServeFirst(cfg, s1);
    var u := s.waiting[0];
    hide ServeFirst, GetFreeClient;
    var one := [Assigned(u, c, t.desk.lastLogin)];
    AssignedUsersConcat(s.trace, one);
    if Who(s, u).ready {
      AssignedUsersConcat(s.trace + one, [Login(u, c)]);
    } else {
      assert t.trace == s.trace + one;
    }
  }

  lemma {:induction false} HeadAndTail<T>(xs: seq<T>, n: nat)
    requires n < |xs|
    ensures xs[1..][n..] == xs[n + 1..] && [xs[0]] + xs[1..][..n] == xs[..n + 1]
  {
  }

  /** The login has to be postponed, or no client can take a user. */
  ghost predicate Refused(cfg: Config, s: Pool) {
    (cfg.loginDelay != 0 && s.desk.clock - s.desk.lastLogin < cfg.loginDelay) ||
    forall b :: b in s.clients ==>
      At(s, b).willDie || !At(s, b).acceptUsers || |At(s, b).users| >= cfg.usersPerBackend || At(s, b).longRun
  }

  lemma {:induction false} CheckRefused(cfg: Config, s: Pool)
    requires GetFreeClient(cfg, s, true, false, true).1 == null
    ensures var t := GetFreeClient(cfg, s, true, false, true).0;
      Refused(cfg, t) && t.waiting == s.waiting && t.trace == s.trace
  {
  }

  /** From s to t the first users of the queue were assigned, in order. */
  ghost predicate Served(s: Pool, t: Pool) {
    var k := |s.waiting| - |t.waiting|;
    0 <= k && t.waiting == s.waiting[k..] && AssignedUsers(t.trace) == AssignedUsers(s.trace) + s.waiting[..k]
  }

  lemma {:induction false} ServedOneMore(s: Pool, s1: Pool, t: Pool)
    requires s.waiting != [] && s1.waiting == s.waiting[1..]
    requires AssignedUsers(s1.trace) == AssignedUsers(s.trace) + [s.waiting[0]] && Served(s1, t)
    ensures Served(s, t)
  {
    hide AssignedUsers;
    var n := |s1.waiting| - |t.waiting|;
    HeadAndTail(s.waiting, n);
    SeqAssoc(AssignedUsers(s.trace), [s.waiting[0]], s.waiting[1..][..n]);
  }

  lemma {:induction false} ServesInOrder(cfg: Config, s: Pool)
    ensures var t := ConnectWaitingUsers(cfg, s); Served(s, t) && (t.waiting == [] || Refused(cfg, t))
    decreases |s.waiting|
  {
    hide GetFreeClient, ServeFirst, Refused, AssignedUsers;
    if s.waiting != [] {
      var (s1, c) := GetFreeClient(cfg, s, true, false, true);
      if c == null {
        CheckRefused(cfg, s);
      } else {
        CheckedServeShrinks(cfg, s);
        ServedAssigns(cfg, s);
        var s2 := ServeFirst(cfg, s1);
        assert ConnectWaitingUsers(cfg, s) == ConnectWaitingUsers(cfg, s2);
        hide Served;
        ServesInOrder(cfg, s2);
        ServedOneMore(s, s2, ConnectWaitingUsers(cfg, s2));
      }
    }
  }

  /** connectWaitingUsers serves the queue in order: it assigns exactly its first k users,
      first come first served, and stops only when the queue is empty, nobody is free or
      the next login has to be postponed. */
  lemma {:induction false} QueueServedInOrder(cfg: Config, s: Pool)
    ensures var t := ConnectWaitingUsers(cfg, s);
      var k := |s.waiting| - |t.waiting|;
      && 0 <= k
      && t.waiting == s.waiting[k..]
      && AssignedUsers(t.trace) == AssignedUsers(s.trace) + s.waiting[..k]
      && (t.waiting == [] || Refused(cfg, t))
  {
    ServesInOrder(cfg, s);
    hide ConnectWaitingUsers, AssignedUsers, Refused;
  }

  /** In every reachable state a user that becomes ready is logged in exactly once, on its
      own backend, and a waiting user or one that was ready before not at all. */
  lemma {:induction false} OneLoginPerReadyEvent(cfg: Config, s: Pool, u: User, joining: bool)
    requires Links(cfg, s, null, []) && u in s.users
    ensures var t := Apply(cfg, s, BecomeReady(u, joining));
      if StaysSilent(Who(s, u), joining) then t == s
      else
        && (forall b :: b in s.clients && u in At(s, b).users ==> t.trace == s.trace + [Login(u, b)])
        && (u in s.waiting ==> t.trace == s.trace)
  {
    var s1 := SetUser(s, u, Who(s, u).(ready := true));
    forall b | b in s.clients && u in At(s, b).users
      ensures MakeReady(s, u).trace == s.trace + [Login(u, b)]
    {
      assert SeatsOk(cfg, s, b, Held(s, b, null, []));
      assert FireReady(s1, u, 1) == FireReady(Note(s1, Login(u, b)), u, 0);
    }
  }

  // ---------------------------------------------------------------- newcomers

  /** A client that has not had its first PONG is set to die and has no users. */
  lemma {:induction false} NewcomersIdle(cfg: Config, firstPid: nat, now: nat, ins: seq<Input>, c: Backend)
    ensures var s := Run(cfg, Initial(firstPid, now), ins);
      c in s.clients && At(s, c).pong == Unseen ==> c in s.backends && At(s, c).willDie && At(s, c).users == []
  {
    RunFromStart(cfg, firstPid, now, ins);
    hide Run;
  }

  lemma {:induction false} GrantSparesDying(cfg: Config, s: Pool, accept: bool, longRun: bool, check: bool, b: Backend)
    ensures At(GetFreeClient(cfg, s, accept, longRun, check).0, b).willDie == At(s, b).willDie
  {
  }

  lemma {:induction false} ServeSparesDying(cfg: Config, s: Pool, b: Backend)
    requires s.waiting != []
    ensures At(ServeFirst(cfg, s), b).willDie == At(s, b).willDie
  {
    GrantSparesDying(cfg, s.(waiting := s.waiting[1..]), true, false, false, b);
    hide GetFreeClient;
  }

  lemma {:induction false} WaitingSparesDying(cfg: Config, s: Pool, b: Backend)
    ensures At(ConnectWaitingUsers(cfg, s), b).willDie == At(s, b).willDie
    decreases |s.waiting|
  {
    hide GetFreeClient, ServeFirst, At;
    if s.waiting != [] {
      GrantSparesDying(cfg, s, true, false, true, b);
      var (s1, c) := GetFreeClient(cfg, s, true, false, true);
      if c != null {
        CheckedServeShrinks(cfg, s);
        ServeSparesDying(cfg, s1, b);
        WaitingSparesDying(cfg, ServeFirst(cfg, s1), b);
      }
    }
  }

  /** A PONG makes a dying backend usable exactly when pongReceived is still -1. */
  lemma {:induction false} PongRevivesIff(cfg: Config, s: Pool, c: Backend)
    requires At(s, c).willDie
    ensures !At(HandlePongReceived(cfg, s, c), c).willDie <==> At(s, c).pong == Unseen
  {
    var s1 := Note(HandleFrame(s, c), Ponged(c));
    var r := SetBackend(s1, c, At(s1, c).(willDie := false));
    WaitingSparesDying(cfg, r, c);
    hide ConnectWaitingUsers;
  }

  // ---------------------------------------------------------------- ping timeout

  lemma {:induction false} RemovalListMembers(s: Pool, cs: seq<Backend>, c: Backend)
    ensures c in RemovalList(s, cs) <==> c in cs && (At(s, c).pong == Missing || At(s, c).users == [])
    decreases |cs|
  {
    if cs != [] { RemovalListMembers(s, cs[1..], c); }
  }

  /** They are listed in the order of the clients. */
  lemma {:induction false} RemovalsInOrder(s: Pool, cs: seq<Backend>, i: nat, j: nat)
    requires i < j < |cs|
    requires forall k :: k == i || k == j ==> At(s, cs[k]).pong == Missing || At(s, cs[k]).users == []
    ensures Before(RemovalList(s, cs), cs[i], cs[j])
    decreases |cs|
  {
    hide Before;
    if i > 0 {
      RemovalsInOrder(s, cs[1..], i - 1, j - 1);
    } else {
      RemovalListMembers(s, cs[1..], cs[j]);
      assert cs[1..][j - 1] == cs[j];
    }
    BeforeConcat(Removals(At(s, cs[0]), cs[0]), RemovalList(s, cs[1..]), cs[i], cs[j]);
  }

  /** pingTimeout names every backend to remove once, exactly when no client is both
      silent and empty; such a client is named twice. */
  lemma {:induction false} RemovedOnce(s: Pool, cs: seq<Backend>)
    requires NoDup(cs)
    ensures NoDup(RemovalList(s, cs)) <==> forall c :: c in cs ==> !(At(s, c).pong == Missing && At(s, c).users == [])
    decreases |cs|
  {
    if cs != [] {
      NoDupTail(cs, 1);
      RemovedOnce(s, cs[1..]);
      RemovalListMembers(s, cs[1..], cs[0]);
      NamedOnce(cs[0], At(s, cs[0]), RemovalList(s, cs[1..]));
      hide Removals, NoDup;
    }
  }

  lemma {:induction false} NamedOnce(c: Backend, r: BackendState, rest: seq<Backend>)
    requires c !in rest
    ensures NoDup(Removals(r, c) + rest) <==> NoDup(rest) && !(r.pong == Missing && r.users == [])
  {
    if r.pong == Missing && r.users == [] {
      assert (Removals(r, c) + rest)[0] == (Removals(r, c) + rest)[1];
    } else if Removals(r, c) == [c] {
      if NoDup(rest) { NoDupCons(c, rest); } else { NotNoDupCons(c, rest); }
    } else {
      assert Removals(r, c) + rest == rest;
    }
  }

  lemma {:induction false} NotNoDupCons<T>(x: T, xs: seq<T>)
    requires !NoDup(xs)
    ensures !NoDup([x] + xs)
  {
    var i, j :| 0 <= i < j < |xs| && xs[i] == xs[j];
    assert ([x] + xs)[i + 1] == ([x] + xs)[j + 1];
  }

  lemma {:induction false} PingAllMisses(s: Pool, cs: seq<Backend>, c: Backend)
    ensures At(PingAll(s, cs), c) == At(s, c) || At(PingAll(s, cs), c) == At(s, c).(pong := Missing)
    ensures c in cs ==> At(PingAll(s, cs), c).pong == Missing
    ensures c in s.backends ==> c in PingAll(s, cs).backends
    decreases |cs|
  {
    if cs != [] {
      PingAllMisses(Ping(s, cs[0]), cs[1..], c);
    }
  }

  lemma {:induction false} SomeOf<T>(q: seq<T>, r: seq<T>)
    requires forall x :: x in q ==> x in r
    ensures q != [] ==> r != []
  {
    if q != [] {
      assert q[0] in r;
    }
  }

  /** A newcomer that the ping timer reaches never gets a user, in any continuation. */
  lemma {:induction false} EarlyPingStrands(cfg: Config, firstPid: nat, now: nat, before: seq<Input>, c: Backend, ins: seq<Input>)
    requires var s := Run(cfg, Initial(firstPid, now), before);
      c in s.clients && At(s, c).pong == Unseen
    ensures var s := Run(cfg, Initial(firstPid, now), before);
      At(Run(cfg, CheckPings(s), ins), c).users == []
  {
    var s := Run(cfg, Initial(firstPid, now), before);
    NewcomersIdle(cfg, firstPid, now, before, c);
    hide Run;
    var s0 := s.(desk := s.desk.(starting := false));
    PingAllMisses(s0, s.clients, c);
    var t := CheckPings(s);
    hide PingAll;
    assert Closed(At(t, c)) && At(t, c).users == [];
    ClosedBackendsDrain(cfg, t, ins);
    SomeOf(At(Run(cfg, t, ins), c).users, At(t, c).users);
  }

  /** The ping timer sends a newcomer a second PING (-1 is non-zero, against the comment beside
      it), and removes it in the same call whatever its pongReceived: it has no users.  The -1
      that handleNewClientConnection restores so that the first check ignores it is of no
      use. */
  lemma {:induction false} NewcomersRemoved(cfg: Config, firstPid: nat, now: nat, ins: seq<Input>, c: Backend)
    ensures var s := Run(cfg, Initial(firstPid, now), ins);
      c in s.clients && At(s, c).pong == Unseen ==>
        c in RemovalList(s, s.clients) && At(CheckPings(s), c).pong == Missing
  {
    var s := Run(cfg, Initial(firstPid, now), ins);
    NewcomersIdle(cfg, firstPid, now, ins, c);
    hide Run;
    RemovalListMembers(s, s.clients, c);
    PingAllMisses(s.(desk := s.desk.(starting := false)), s.clients, c);
    hide PingAll, RemovalList;
  }

  /** These inputs finish the sessions of bs in turn. */
  ghost predicate Finishes(ins: seq<Input>, bs: seq<Backend>) {
    |ins| == |bs| && forall i :: 0 <= i < |bs| ==> ins[i].e == SessionFinished(bs[i])
  }

  /** The removals of pingTimeout, when no backend is named twice: each named backend leaves
      the pool, though users are moved on to others of the list meanwhile, and no other does. */
  lemma {:induction false} RemovalsLeave(cfg: Config, s: Pool, bs: seq<Backend>, ins: seq<Input>)
    requires Links(cfg, s, null, []) && NoDup(bs) && Finishes(ins, bs) && forall b :: b in bs ==> b in s.clients
    ensures forall b :: b in Run(cfg, s, ins).clients <==> b in s.clients && b !in bs
    decreases |bs|
  {
    if bs != [] {
      var s1 := Step(cfg, s, ins[0]);
      var s0 := s.(desk := s.desk.(ticks := ins[0].ticks, pid := ins[0].pid));
      CalmLinks(cfg, s, s0, null, []);
      SessionFinishedLinks(cfg, s0, bs[0]);
      NoDupTail(bs, 1);
      hide Links, HandleSessionFinished, Remove;
      assert s1 == HandleSessionFinished(cfg, s0, bs[0]);
      assert forall b :: b in s1.clients <==> b in s.clients && b != bs[0];
      assert forall b :: b in bs <==> b == bs[0] || b in bs[1..];
      RemovalsLeave(cfg, s1, bs[1..], ins[1..]);
    }
  }

  /** After a ping check with its removals, every client left has had its first PONG and has
      users: exactly those that had answered and had users stay. */
  lemma {:induction false} PingTimeoutKeeps(cfg: Config, firstPid: nat, now: nat, ins: seq<Input>, check: Input, finish: seq<Input>, b: Backend)
    requires check.e == PingCheck
    requires var s := Run(cfg, Initial(firstPid, now), ins);
      NoDup(RemovalList(s, s.clients)) && Finishes(finish, RemovalList(s, s.clients))
    ensures var s := Run(cfg, Initial(firstPid, now), ins);
      b in Run(cfg, Step(cfg, s, check), finish).clients <==>
        b in s.clients && At(s, b).pong == Received && At(s, b).users != []
  {
    var s := Run(cfg, Initial(firstPid, now), ins);
    var list := RemovalList(s, s.clients);
    RunFromStart(cfg, firstPid, now, ins);
    NewcomersIdle(cfg, firstPid, now, ins, b);
    StepLinks(cfg, s, check);
    CheckClients(cfg, s, check);
    hide Links, History, Step, RemovalList, Run;
    forall c | c in list ensures c in s.clients { RemovalListMembers(s, s.clients, c); }
    RemovalListMembers(s, s.clients, b);
    RemovalsLeave(cfg, Step(cfg, s, check), list, finish);
  }

  lemma {:induction false} CheckClients(cfg: Config, s: Pool, check: Input)
    requires check.e == PingCheck
    ensures Step(cfg, s, check).clients == s.clients
  {
    var s1 := s.(desk := s.desk.(ticks := check.ticks, pid := check.pid, starting := false));
    PingedClients(s1, s.clients);
    hide PingAll;
  }

  function Now(e: Event): Input {
    Input(e, [], 1)
  }

  lemma {:induction false} WitnessJoins(cfg: Config, firstPid: nat, now: nat, c: Backend)
    ensures var s := Step(cfg, Initial(firstPid, now), Now(NewClient(c)));
      s.clients == [c] && At(s, c) == Connected(false) && c in s.backends && s.waiting == [] && s.users == map[] &&
      s.desk.clock == now && s.desk.lastLogin == 0
  {
  }

  lemma {:induction false} WitnessAnswers(cfg: Config, s: Pool, c: Backend)
    requires s.clients == [c] && At(s, c) == Connected(false) && c in s.backends && s.waiting == []
    ensures var t := Step(cfg, s, Now(Pong(c)));
      t.clients == [c] && At(t, c) == Connected(false).(willDie := false, pong := Received) && c in t.backends &&
      t.users == s.users && t.desk.clock == s.desk.clock && t.desk.lastLogin == s.desk.lastLogin
  {
  }

  lemma {:induction false} WitnessServes(cfg: Config, s: Pool, c: Backend, u: User)
    requires cfg.usersPerBackend >= 1 && cfg.loginDelay <= s.desk.clock && s.desk.lastLogin == 0 && u !in s.users
    requires s.clients == [c] && At(s, c) == Connected(false).(willDie := false, pong := Received) && c in s.backends
    ensures var t := Step(cfg, s, Now(Event.AddUser(u, 0)));
      t.clients == [c] && At(t, c).users == [u] && At(t, c).pong == Received && c in t.backends &&
      u in t.users && Who(t, u).data == c
  {
    assert FirstFree(cfg, s.backends, [c], true, false) == c;
    hide FirstFree;
  }

  lemma {:induction false} WitnessPinged(cfg: Config, s: Pool, c: Backend, u: User)
    requires s.clients == [c] && At(s, c).users == [u] && At(s, c).pong == Received && c in s.backends
    requires u in s.users && Who(s, u).data == c
    ensures var t := Step(cfg, s, Now(PingCheck));
      t.clients == [c] && At(t, c).users == [u] && At(t, c).pong == Missing && c in t.backends &&
      u in t.users && Who(t, u).data == c
  {
    var s' := s.(desk := s.desk.(ticks := [], pid := 1, starting := false));
    assert PingAll(s', [c]) == PingAll(Ping(s', c), [c][1..]);
  }

  lemma {:induction false} WitnessLeaves(cfg: Config, s: Pool, c: Backend, u: User)
    requires s.clients == [c] && At(s, c).users == [u] && At(s, c).pong == Missing && c in s.backends
    requires u in s.users && Who(s, u).data == c
    ensures var t := Step(cfg, s, Now(DeleteUser(u)));
      t.clients == [c] && At(t, c).users == [] && At(t, c).pong == Missing
  {
    assert Remove([u], u) == Remove([u][1..], u) == [];
  }

  /** A client that is silent and empty, so named twice, does come about: its only user
      leaves between a ping check and the answer to it. */
  lemma {:induction false} SilentAndEmpty(cfg: Config, firstPid: nat, now: nat, c: Backend, u: User)
    requires cfg.usersPerBackend >= 1 && cfg.loginDelay <= now
    ensures exists ins :: var s := Run(cfg, Initial(firstPid, now), ins);
      c in s.clients && At(s, c).pong == Missing && At(s, c).users == [] && !NoDup(RemovalList(s, s.clients))
  {
    var ins := [Now(NewClient(c)), Now(Pong(c)), Now(Event.AddUser(u, 0)), Now(PingCheck), Now(DeleteUser(u))];
    var s0 := Initial(firstPid, now);
    hide Step, Run, NoDup, RemovalList;
    WitnessJoins(cfg, firstPid, now, c);
    var s1 := Step(cfg, s0, ins[0]);
    WitnessAnswers(cfg, s1, c);
    var s2 := Step(cfg, s1, ins[1]);
    WitnessServes(cfg, s2, c, u);
    var s3 := Step(cfg, s2, ins[2]);
    WitnessPinged(cfg, s3, c, u);
    var s4 := Step(cfg, s3, ins[3]);
    WitnessLeaves(cfg, s4, c, u);
    FiveSteps(cfg, s0, ins);
    OneIsNoDup(c);
    RemovedOnce(Run(cfg, s0, ins), [c]);
  }

  lemma {:induction false} OneIsNoDup<T>(x: T)
    ensures NoDup([x]) && x in [x]
  {
  }

  lemma {:induction false} FiveSteps(cfg: Config, s: Pool, ins: seq<Input>)
    requires |ins| == 5
    ensures Run(cfg, s, ins) ==
      Step(cfg, Step(cfg, Step(cfg, Step(cfg, Step(cfg, s, ins[0]), ins[1]), ins[2]), ins[3]), ins[4])
  {
    hide Step;
    var s1 := Step(cfg, s, ins[0]);
    var s2 := Step(cfg, s1, ins[1]);
    var s3 := Step(cfg, s2, ins[2]);
    var s4 := Step(cfg, s3, ins[3]);
    assert Run(cfg, s, ins) == Run(cfg, s1, ins[1..]);
    assert Run(cfg, s1, ins[1..]) == Run(cfg, s2, ins[1..][1..]) && ins[1..][1..] == ins[2..];
    assert Run(cfg, s2, ins[2..]) == Run(cfg, s3, ins[2..][1..]) && ins[2..][1..] == ins[3..];
    assert Run(cfg, s3, ins[3..]) == Run(cfg, s4, ins[3..][1..]) && ins[3..][1..] == ins[4..];
    assert Run(cfg, s4, ins[4..]) == Run(cfg, Step(cfg, s4, ins[4]), ins[4..][1..]);
  }
}
