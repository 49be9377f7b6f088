/** What each handler of the pool does, told with the tests and fields of the source and
    without the functions of PoolModel that compute it. */
module PoolEffects {
  import opened Lists
  import opened PoolModel
  import opened PoolLinks
  import LogSlots

  // ----------------------------------------------------------------- getFreeClient

  /** A backend getFreeClient may return. */
  predicate Fits(cfg: Config, r: BackendState, accept: bool, longRun: bool) {
    r.willDie == false && r.acceptUsers == accept && |r.users| < cfg.usersPerBackend && r.longRun == longRun
  }

  /** The time the next reading of the clock gives. */
  function NextTime(d: Desk): int {
    if d.ticks == [] then d.clock else d.clock + d.ticks[0]
  }

  predicate Early(cfg: Config, d: Desk) {
    cfg.loginDelay != 0 && NextTime(d) - d.lastLogin < cfg.loginDelay
  }

  /** c is the first client that fits. */
  ghost predicate FirstFit(cfg: Config, s: Pool, c: Backend, accept: bool, longRun: bool) {
    exists i :: 0 <= i < |s.clients| && s.clients[i] == c && Fits(cfg, At(s, c), accept, longRun) &&
      forall j :: 0 <= j < i ==> !Fits(cfg, At(s, s.clients[j]), accept, longRun)
  }

  lemma {:induction false} FirstFreeMeans(cfg: Config, bs: map<Backend, BackendState>, cs: seq<Backend>, accept: bool, longRun: bool)
    returns (i: nat)
    ensures var c := FirstFree(cfg, bs, cs, accept, longRun);
      if c == null then forall b :: b in cs ==> !Fits(cfg, Look(bs, b), accept, longRun)
      else i < |cs| && cs[i] == c && Fits(cfg, Look(bs, c), accept, longRun) &&
           forall j :: 0 <= j < i ==> !Fits(cfg, Look(bs, cs[j]), accept, longRun)
    decreases |cs|
  {
    i := 0;
    if cs != [] && !Free(cfg, Look(bs, cs[0]), accept, longRun) {
      var k := FirstFreeMeans(cfg, bs, cs[1..], accept, longRun);
      i := k + 1;
    }
  }

  /** Which backend is found: the first that fits, unless the login has to be postponed. */
  lemma {:induction false} GrantFinds(cfg: Config, s: Pool, accept: bool, longRun: bool, check: bool)
    ensures var c := GetFreeClient(cfg, s, accept, longRun, check).1;
      if c == null then Early(cfg, s.desk) || forall b :: b in s.clients ==> !Fits(cfg, At(s, b), accept, longRun)
      else !Early(cfg, s.desk) && FirstFit(cfg, s, c, accept, longRun)
  {
    var i := FirstFreeMeans(cfg, s.backends, s.clients, accept, longRun);
    hide FirstFree, Claim;
  }

  /** What it changes: acceptUsers of the backend it fills, when old ones are not reused, and
      otherwise the desk only. */
  lemma {:induction false} GrantChanges(cfg: Config, s: Pool, accept: bool, longRun: bool, check: bool)
    ensures var (t, c) := GetFreeClient(cfg, s, accept, longRun, check);
      && t == s.(desk := t.desk, backends := t.backends)
      && (if c != null && !check && !cfg.reuseOldBackends && |At(s, c).users| + 1 >= cfg.usersPerBackend
          then t.backends == s.backends[c := At(s, c).(acceptUsers := false)]
          else t.backends == s.backends)
      && t.desk.lastLogin == (if Early(cfg, s.desk) || check then s.desk.lastLogin else t.desk.clock)
      && t.desk.clock >= NextTime(s.desk) && t.desk.pid == s.desk.pid
  {
    hide FirstFree, LogSlots.Spawn;
  }

  /** A process is started exactly when nothing is found though the login is due, and none is
      starting already; it is of the kind asked for, under the first free log id. */
  lemma {:induction false} GrantSpawns(cfg: Config, s: Pool, accept: bool, longRun: bool, check: bool)
    ensures var (t, c) := GetFreeClient(cfg, s, accept, longRun, check);
      if c == null && !Early(cfg, s.desk) && !s.desk.starting
      then t.desk.starting && t.desk.nextLongRun == longRun && TookSlot(s.desk.pids, t.desk.pids, s.desk.pid)
      else t.desk.starting == s.desk.starting && t.desk.nextLongRun == s.desk.nextLongRun && t.desk.pids == s.desk.pids
  {
    hide FirstFree, Claim, LogSlots.Spawn;
    SpawnTakes(s.desk.pids, s.desk.pid);
  }

  /** pid is put into slot i, the first that is 0, or a new one at the end. */
  ghost predicate TookSlotAt(before: seq<nat>, after: seq<nat>, pid: nat, i: nat) {
    i <= |before| && (forall j :: 0 <= j < i ==> before[j] != 0) &&
    if i < |before| then before[i] == 0 && after == before[i := pid] else after == before + [pid]
  }

  ghost predicate TookSlot(before: seq<nat>, after: seq<nat>, pid: nat) {
    exists i: nat :: TookSlotAt(before, after, pid, i)
  }

  lemma {:induction false} SpawnTakes(pids: seq<nat>, pid: nat)
    ensures TookSlot(pids, LogSlots.Spawn(pids, pid), pid)
  {
    assert TookSlotAt(pids, LogSlots.Spawn(pids, pid), pid, LogSlots.Find(pids, 0));
  }

  /** The number of live processes is one higher. */
  lemma {:induction false} TookSlotLive(before: seq<nat>, after: seq<nat>, pid: nat)
    requires TookSlot(before, after, pid) && pid != 0
    ensures pid in after && LogSlots.Live(after) == LogSlots.Live(before) + 1
  {
    var i: nat :| TookSlotAt(before, after, pid, i);
    assert after[i] == pid;
    if i < |before| {
      LogSlots.LiveUpdate(before, i, pid);
    } else {
      LogSlots.LiveAppend(before, pid);
    }
  }

  // -------------------------------------------------------------- handleUserCreated

  /** u is put on client c: at the end of its list, and of no other. */
  ghost predicate PutOn(s: Pool, t: Pool, u: User, c: Backend) {
    && c in s.clients && c in s.backends && u in s.users
    && t.backends == s.backends[c := s.backends[c].(users := s.backends[c].users + [u], acceptUsers := At(t, c).acceptUsers)]
    && t.users == s.users[u := s.users[u].(data := c, handlers := 1)]
    && t.waiting == s.waiting && t.clients == s.clients
    && t.trace == s.trace + [Assigned(u, c, t.desk.lastLogin)]
  }

  /** u joins the queue at its end; no list changes. */
  ghost predicate PutLast(s: Pool, t: Pool, u: User) {
    && t.waiting == s.waiting + [u]
    && t.backends == s.backends && t.users == s.users && t.clients == s.clients && t.trace == s.trace
  }

  ghost predicate SomeFit(cfg: Config, s: Pool) {
    exists b :: b in s.clients && Fits(cfg, At(s, b), true, false)
  }

  /** A new user is put on the first client that fits, at once when there is one and the login
      is due, and otherwise joins the queue at its end. */
  ghost predicate CreatedAs(cfg: Config, s: Pool, t: Pool, u: User) {
    if Early(cfg, s.desk) || !SomeFit(cfg, s) then PutLast(s, t, u)
    else exists c :: c in s.clients && FirstFit(cfg, s, c, true, false) && PutOn(s, t, u, c)
  }

  lemma {:induction false} CreatedMeans(cfg: Config, s: Pool, u: User)
    requires Loose(s, u) && forall b :: b in s.clients ==> b in s.backends
    ensures CreatedAs(cfg, s, HandleUserCreated(cfg, s, u), u)
  {
    var (s1, c) := GetFreeClient(cfg, s, true, false, false);
    GrantFinds(cfg, s, true, false, false);
    GrantChanges(cfg, s, true, false, false);
    hide GetFreeClient, FirstFree;
    if c != null {
      assert FirstFit(cfg, s, c, true, false) && c in s.clients;
      assert PutOn(s, HandleUserCreated(cfg, s, u), u, c);
    }
  }

  // ------------------------------------------------------------ handleUserDestroyed

  /** u leaves the queue, its handlers are disconnected, and if it has a backend, a LOGOUT is
      sent and it leaves the list there, which sets an emptied one-user backend to die. */
  function Left(cfg: Config, s: Pool, u: User): Pool
    requires u in s.users && (s.users[u].data != null ==> s.users[u].data in s.backends)
  {
    var c := s.users[u].data;
    var away := s.(waiting := Remove(s.waiting, u), users := s.users[u := s.users[u].(handlers := 0)]);
    if c == null then away
    else
      var left := Remove(s.backends[c].users, u);
      var dies := s.backends[c].willDie || (|left| == 0 && cfg.usersPerBackend == 1);
      away.(trace := s.trace + [Logout(u, c)], backends := s.backends[c := s.backends[c].(users := left, willDie := dies)])
  }

  lemma {:induction false} DestroyedMeans(cfg: Config, s: Pool, u: User)
    requires u in s.users && (s.users[u].data != null ==> s.users[u].data in s.backends)
    ensures HandleUserDestroyed(cfg, s, u) == Left(cfg, s, u)
  {
    hide Remove;
  }

  // ----------------------------------------------------------- User::handleDisconnected

  /** u is put on client c and logged in there. */
  ghost predicate PutOnLoggedIn(s: Pool, t: Pool, u: User, c: Backend) {
    PutOn(s, t.(trace := s.trace + [Assigned(u, c, t.desk.lastLogin)]), u, c) &&
    t.trace == s.trace + [Assigned(u, c, t.desk.lastLogin)] + [Login(u, c)]
  }

  /** One more attempt is counted, u leaves and is created anew: on the first client that then
      fits, with a LOGIN, or last in the queue. */
  ghost predicate Retried(cfg: Config, s: Pool, t: Pool, u: User)
    requires u in s.users && (s.users[u].data != null ==> s.users[u].data in s.backends)
  {
    CreatedLoggedIn(cfg, Left(cfg, s.(users := s.users[u := s.users[u].(reconnects := s.users[u].reconnects + 1)]), u), t, u)
  }

  ghost predicate CreatedLoggedIn(cfg: Config, l: Pool, t: Pool, u: User) {
    if Early(cfg, l.desk) || !SomeFit(cfg, l) then PutLast(l, t, u)
    else exists c :: c in l.clients && FirstFit(cfg, l, c, true, false) && PutOnLoggedIn(l, t, u, c)
  }

  lemma {:induction false} FiresOnce(s: Pool, u: User, times: nat)
    ensures times == 0 ==> FireReady(s, u, times) == s
    ensures times == 1 && Who(s, u).data != null ==>
      FireReady(s, u, times) == s.(trace := s.trace + [Login(u, Who(s, u).data)])
  {
    if times == 1 {
      assert FireReady(s, u, 1) == FireReady(HandleUserReadyToConnect(s, u), u, 0);
    }
  }

  lemma {:induction false} CreatedThenFired(cfg: Config, l: Pool, t: Pool, u: User)
    requires CreatedAs(cfg, l, t, u) && Loose(l, u)
    ensures CreatedLoggedIn(cfg, l, FireReady(t, u, Who(t, u).handlers), u)
  {
    FiresOnce(t, u, Who(t, u).handlers);
    hide FireReady, FirstFit, SomeFit, Early;
    if !Early(cfg, l.desk) && SomeFit(cfg, l) {
      var c :| c in l.clients && FirstFit(cfg, l, c, true, false) && PutOn(l, t, u, c);
      assert PutOnLoggedIn(l, FireReady(t, u, Who(t, u).handlers), u, c);
    }
  }

  lemma {:induction false} LinkedData(cfg: Config, s: Pool, x: Backend?, rest: seq<User>, u: User)
    requires Links(cfg, s, x, rest) && u in s.users
    ensures s.users[u].data != null ==> s.users[u].data in s.backends
  {
  }

  lemma {:induction false} ResurrectMeans(cfg: Config, s: Pool, u: User, x: Backend?, rest: seq<User>)
    requires Links(cfg, s, x, rest) && u in s.users && (x != null ==> s.users[u].data != x)
    ensures s.users[u].data != null ==> s.users[u].data in s.backends
    ensures Retried(cfg, s, Resurrect(cfg, s, u), u)
  {
    hide Links, HandleUserDestroyed, HandleUserCreated, FireReady, Left, CreatedLoggedIn, CreatedAs, Loose;
    LinkedData(cfg, s, x, rest, u);
    var r := s.users[u].(reconnects := s.users[u].reconnects + 1);
    var s1 := SetUser(s, u, r);
    FlagsLinks(cfg, s, u, r, x, rest);
    DestroyedLinks(cfg, s1, u, x, rest);
    DestroyedMeans(cfg, s1, u);
    var l := Left(cfg, s1, u);
    LinkedClients(cfg, l, x, rest);
    CreatedMeans(cfg, l, u);
    CreatedThenFired(cfg, l, HandleUserCreated(cfg, l, u), u);
  }

  lemma {:induction false} LinkedClients(cfg: Config, s: Pool, x: Backend?, rest: seq<User>)
    requires Links(cfg, s, x, rest)
    ensures forall b :: b in s.clients ==> b in s.backends
  {
  }

  /** handleDisconnected: nothing happens to a user that ignores it; one that may try again is
      retried; any other is removed. */
  lemma {:induction false} DisconnectedMeans(cfg: Config, s: Pool, u: User, network: bool, x: Backend?, rest: seq<User>)
    requires Links(cfg, s, x, rest) && u in s.users && (x != null ==> s.users[u].data != x)
    ensures s.users[u].data != null ==> s.users[u].data in s.backends
    ensures var t := HandleDisconnected(cfg, s, u, network);
      var r := s.users[u];
      && (u in t.users <==> r.ignoreDisconnect || (network && (r.reconnectLimit < 0 || r.reconnects < r.reconnectLimit)))
      && (r.ignoreDisconnect ==> t == s)
      && (!r.ignoreDisconnect && u in t.users ==> t.users[u].reconnects == r.reconnects + 1 && Retried(cfg, s, t, u))
      && (u !in t.users ==> t == Left(cfg, s, u).(users := s.users - {u}))
      && t.clients == s.clients && (forall v :: v in t.users ==> v in s.users)
      && (forall v :: v in s.users && v != u ==> v in t.users && t.users[v] == s.users[v])
  {
    hide Links, Resurrect, HandleUserDestroyed, Retried;
    ResurrectMeans(cfg, s, u, x, rest);
    DestroyedMeans(cfg, s, u);
    RetriedKeeps(cfg, s, Resurrect(cfg, s, u), u);
    LeftKeeps(cfg, s, u);
    hide Left;
  }

  /** Who stays does not depend on the lists: it is so in any state at all. */
  lemma {:induction false} StaysIff(cfg: Config, s: Pool, u: User, network: bool)
    requires u in s.users
    ensures var t := HandleDisconnected(cfg, s, u, network);
      var r := s.users[u];
      && (u in t.users <==> r.ignoreDisconnect || (network && (r.reconnectLimit < 0 || r.reconnects < r.reconnectLimit)))
      && (r.ignoreDisconnect ==> t == s)
      && (!r.ignoreDisconnect && u in t.users ==> t.users[u].reconnects == r.reconnects + 1)
  {
    hide HandleUserCreated, HandleUserDestroyed, FireReady;
    var s1 := SetUser(s, u, Who(s, u).(reconnects := Who(s, u).reconnects + 1));
    DestroyedStays(cfg, s, u);
    DestroyedStays(cfg, s1, u);
    var s2 := HandleUserDestroyed(cfg, s1, u);
    CreatedStays(cfg, s2, u);
    var s3 := HandleUserCreated(cfg, s2, u);
    FiredStays(s3, u, Who(s3, u).handlers);
  }

  lemma {:induction false} DestroyedStays(cfg: Config, s: Pool, u: User)
    requires u in s.users
    ensures var t := HandleUserDestroyed(cfg, s, u); u in t.users && t.users[u].reconnects == s.users[u].reconnects
  {
    hide Remove;
  }

  lemma {:induction false} CreatedStays(cfg: Config, s: Pool, u: User)
    requires u in s.users
    ensures var t := HandleUserCreated(cfg, s, u); u in t.users && t.users[u].reconnects == s.users[u].reconnects
  {
    GrantChanges(cfg, s, true, false, false);
    hide GetFreeClient;
  }

  lemma {:induction false} FiredStays(s: Pool, u: User, times: nat)
    ensures FireReady(s, u, times).users == s.users
    decreases times
  {
    if times > 0 { FiredStays(HandleUserReadyToConnect(s, u), u, times - 1); }
  }

  lemma {:induction false} LeftKeeps(cfg: Config, s: Pool, u: User)
    requires u in s.users && (s.users[u].data != null ==> s.users[u].data in s.backends)
    ensures var l := Left(cfg, s, u);
      l.users == s.users[u := s.users[u].(handlers := 0)] && l.clients == s.clients && l.desk == s.desk
    ensures forall b :: b in s.backends ==> b in Left(cfg, s, u).backends && (s.backends[b].willDie ==> Left(cfg, s, u).backends[b].willDie)
  {
    hide Remove;
  }

  lemma {:induction false} RetriedKeeps(cfg: Config, s: Pool, t: Pool, u: User)
    requires u in s.users && (s.users[u].data != null ==> s.users[u].data in s.backends) && Retried(cfg, s, t, u)
    ensures t.users.Keys == s.users.Keys && t.users[u].reconnects == s.users[u].reconnects + 1
    ensures forall v :: v in s.users && v != u ==> t.users[v] == s.users[v]
    ensures t.clients == s.clients
  {
    hide FirstFit, SomeFit, Early, Remove;
  }

  /** In linked lists a user is in the queue, in one list, or in neither. */
  lemma {:induction false} OnePlace(cfg: Config, t: Pool, u: User, x: Backend?, rest: seq<User>)
    requires Links(cfg, t, x, rest)
    ensures u in t.waiting ==> forall b :: b in t.clients ==> u !in Held(t, b, x, rest)
    ensures forall b, c :: b in t.clients && c in t.clients && u in Held(t, b, x, rest) && u in Held(t, c, x, rest) ==> b == c
  {
    forall b | b in t.clients ensures SeatsOk(cfg, t, b, Held(t, b, x, rest)) {
    }
  }

  lemma {:induction false} DyingClient(cfg: Config, s: Pool, u: User, x: Backend?, rest: seq<User>, c: Backend)
    requires Links(cfg, s, x, rest) && u in s.users && (s.users[u].data != null ==> s.users[u].data in s.backends)
    requires FirstFit(cfg, Left(cfg, s, u), c, true, false)
    ensures c != x
  {
    LeftKeeps(cfg, s, u);
    hide Left;
  }

  /** Where a retried user is afterwards: in exactly one client's list, with one LOGIN there, or
      last in the queue and in no list. */
  lemma {:induction false} RetriedPlaces(cfg: Config, s: Pool, u: User, x: Backend?, rest: seq<User>)
    requires Links(cfg, s, x, rest) && u in s.users && (x != null ==> s.users[u].data != x)
    requires !s.users[u].ignoreDisconnect && (s.users[u].reconnectLimit < 0 || s.users[u].reconnects < s.users[u].reconnectLimit)
    ensures var t := HandleDisconnected(cfg, s, u, true);
      || (exists c :: c in t.clients && u in Held(t, c, x, rest) && u !in t.waiting && |t.trace| > 0 &&
            t.trace[|t.trace| - 1] == Login(u, c) && forall b :: b in t.clients && u in Held(t, b, x, rest) ==> b == c)
      || (|t.waiting| > 0 && t.waiting[|t.waiting| - 1] == u && forall b :: b in t.clients ==> u !in Held(t, b, x, rest))
  {
    hide Links, HandleDisconnected, Left, FirstFit, Early, SomeFit;
    var t := HandleDisconnected(cfg, s, u, true);
    DisconnectedMeans(cfg, s, u, true, x, rest);
    DisconnectedLinks(cfg, s, u, true, x, rest);
    OnePlace(cfg, t, u, x, rest);
    var r := s.users[u].(reconnects := s.users[u].reconnects + 1);
    var s1 := s.(users := s.users[u := r]);
    FlagsLinks(cfg, s, u, r, x, rest);
    var l := Left(cfg, s1, u);
    if Early(cfg, l.desk) || !SomeFit(cfg, l) {
      assert t.waiting[|t.waiting| - 1] == u && u in t.waiting;
    } else {
      var c :| c in l.clients && FirstFit(cfg, l, c, true, false) && PutOnLoggedIn(l, t, u, c);
      DyingClient(cfg, s1, u, x, rest, c);
      OnLists(l, t, u, c);
      assert Held(t, c, x, rest) == At(t, c).users;
    }
  }

  lemma {:induction false} OnLists(l: Pool, t: Pool, u: User, c: Backend)
    requires PutOnLoggedIn(l, t, u, c)
    ensures c in t.clients && u in At(t, c).users && |t.trace| > 0 && t.trace[|t.trace| - 1] == Login(u, c)
  {
  }

  /** Other users stay where they are. */
  ghost predicate SamePlace(s: Pool, t: Pool, v: User) {
    (v in s.waiting <==> v in t.waiting) &&
    forall b :: b in s.clients ==> (v in At(s, b).users <==> v in At(t, b).users)
  }

  lemma {:induction false} LeftOthers(cfg: Config, s: Pool, u: User, v: User)
    requires u in s.users && (s.users[u].data != null ==> s.users[u].data in s.backends) && v != u
    ensures SamePlace(s, Left(cfg, s, u), v)
  {
  }

  lemma {:induction false} PutLastOthers(s: Pool, t: Pool, u: User, v: User)
    requires PutLast(s, t, u) && v != u
    ensures SamePlace(s, t, v)
  {
  }

  lemma {:induction false} PutOnOthers(s: Pool, t: Pool, u: User, c: Backend, v: User)
    requires PutOn(s, t, u, c) && v != u
    ensures SamePlace(s, t, v)
  {
  }

  lemma {:induction false} SamePlaceTrans(s: Pool, t: Pool, w: Pool, v: User)
    requires SamePlace(s, t, v) && SamePlace(t, w, v) && t.clients == s.clients
    ensures SamePlace(s, w, v)
  {
  }

  lemma {:induction false} SamePlaceParts(s: Pool, t: Pool, w: Pool, v: User)
    requires SamePlace(s, t, v) && w.waiting == t.waiting && w.backends == t.backends
    ensures SamePlace(s, w, v)
  {
  }

  lemma {:induction false} CreatedOthers(cfg: Config, l: Pool, t: Pool, u: User, v: User)
    requires CreatedLoggedIn(cfg, l, t, u) && v != u
    ensures SamePlace(l, t, v)
  {
    hide SamePlace, FirstFit, Early, SomeFit, PutLast, PutOn;
    if Early(cfg, l.desk) || !SomeFit(cfg, l) {
      PutLastOthers(l, t, u, v);
    } else {
      var c :| c in l.clients && FirstFit(cfg, l, c, true, false) && PutOnLoggedIn(l, t, u, c);
      var t0 := t.(trace := l.trace + [Assigned(u, c, t.desk.lastLogin)]);
      PutOnOthers(l, t0, u, c, v);
      SamePlaceParts(l, t0, t, v);
    }
  }

  lemma {:induction false} RetriedOthers(cfg: Config, s: Pool, t: Pool, u: User, v: User)
    requires u in s.users && (s.users[u].data != null ==> s.users[u].data in s.backends) && Retried(cfg, s, t, u) && v != u
    ensures SamePlace(s, t, v)
  {
    hide CreatedLoggedIn, Left, SamePlace;
    var s1 := s.(users := s.users[u := s.users[u].(reconnects := s.users[u].reconnects + 1)]);
    var l := Left(cfg, s1, u);
    LeftOthers(cfg, s1, u, v);
    LeftKeeps(cfg, s1, u);
    SamePlaceFrom(s, s1, l, v);
    CreatedOthers(cfg, l, t, u, v);
    SamePlaceTrans(s, l, t, v);
  }

  lemma {:induction false} DisconnectedOthers(cfg: Config, s: Pool, u: User, network: bool, x: Backend?, rest: seq<User>, v: User)
    requires Links(cfg, s, x, rest) && u in s.users && (x != null ==> s.users[u].data != x) && v != u
    ensures SamePlace(s, HandleDisconnected(cfg, s, u, network), v)
  {
    hide Links, HandleDisconnected, Retried, Left;
    DisconnectedMeans(cfg, s, u, network, x, rest);
    var t := HandleDisconnected(cfg, s, u, network);
    if u !in t.users {
      LeftOthers(cfg, s, u, v);
      SamePlaceParts(s, Left(cfg, s, u), t, v);
    } else if !s.users[u].ignoreDisconnect {
      RetriedOthers(cfg, s, t, u, v);
    }
  }

  // --------------------------------------------------------------- handleSessionFinished

  /** One user of the lost backend: kept when it ignores disconnects or may try again, and
      without a backend before anything else. */
  ghost predicate OrphanedAs(r: UserState, t: Pool, u: User) {
    (u in t.users <==> r.ignoreDisconnect || r.reconnectLimit < 0 || r.reconnects < r.reconnectLimit) &&
    (r.ignoreDisconnect ==> u in t.users && t.users[u] == r.(data := null)) &&
    (!r.ignoreDisconnect && u in t.users ==> t.users[u].reconnects == r.reconnects + 1)
  }

  /** A user that was retried is in the queue or on a client other than x. */
  ghost predicate Somewhere(t: Pool, u: User, x: Backend) {
    u in t.waiting || exists b :: b in t.clients && b != x && u in At(t, b).users
  }

  lemma {:induction false} OrphanMeans(cfg: Config, s: Pool, x: Backend, rest: seq<User>)
    requires Links(cfg, s, x, rest) && rest != []
    ensures var u := rest[0];
      var t := Orphan(cfg, s, u);
      && u in s.users && OrphanedAs(s.users[u], t, u) && t.clients == s.clients
      && (!s.users[u].ignoreDisconnect && u in t.users ==> Somewhere(t, u, x))
      && (forall v :: v in t.users ==> v in s.users)
      && (forall v :: v in s.users && v != u ==> v in t.users && t.users[v] == s.users[v])
  {
    var u := rest[0];
    UnlinkLinks(cfg, s, x, rest);
    assert u in s.users by { assert SeatsOk(cfg, s, x, Held(s, x, x, rest)); }
    var s1 := SetUser(s, u, Who(s, u).(data := null));
    hide Links, HandleDisconnected, Retried;
    DisconnectedMeans(cfg, s1, u, true, x, rest[1..]);
    if !s.users[u].ignoreDisconnect && u in Orphan(cfg, s, u).users {
      NotTwice(cfg, s, x, rest);
      RetriedSomewhere(cfg, s1, u, x, rest[1..]);
    }
    hide Somewhere;
  }

  lemma {:induction false} RetriedSomewhere(cfg: Config, s: Pool, u: User, x: Backend, rest: seq<User>)
    requires Links(cfg, s, x, rest) && u in s.users && s.users[u].data != x && u !in rest
    requires !s.users[u].ignoreDisconnect && (s.users[u].reconnectLimit < 0 || s.users[u].reconnects < s.users[u].reconnectLimit)
    ensures Somewhere(HandleDisconnected(cfg, s, u, true), u, x)
  {
    RetriedPlaces(cfg, s, u, x, rest);
    hide Links, HandleDisconnected;
  }

  /** v once the loop has walked rest: orphaned if it was on it, unchanged otherwise. */
  ghost predicate OrphanedOrNot(s: Pool, t: Pool, v: User, x: Backend, rest: seq<User>)
    requires v in s.users
  {
    if v in rest then
      OrphanedAs(s.users[v], t, v) && (!s.users[v].ignoreDisconnect && v in t.users ==> Somewhere(t, v, x))
    else v in t.users && t.users[v] == s.users[v]
  }

  lemma {:induction false} OrphanAllMeans(cfg: Config, s: Pool, x: Backend, rest: seq<User>, v: User)
    requires Links(cfg, s, x, rest) && v in s.users
    ensures OrphanedOrNot(s, OrphanAll(cfg, s, rest), v, x, rest)
    decreases |rest|
  {
    hide Links, Orphan, Somewhere, OrphanedAs;
    if rest != [] {
      OrphanMeans(cfg, s, x, rest);
      OrphanLinks(cfg, s, x, rest);
      var t := Orphan(cfg, s, rest[0]);
      if v in t.users {
        OrphanAllMeans(cfg, t, x, rest[1..], v);
      } else {
        NeverBack(cfg, t, x, rest[1..], v);
      }
      if v == rest[0] {
        NotTwice(cfg, s, x, rest);
        if v in t.users {
          LaterOrphans(cfg, t, x, rest[1..], v);
        }
        OrphanedLater(s.users[v], t, OrphanAll(cfg, s, rest), v, x);
      }
    }
  }

  lemma {:induction false} NotTwice(cfg: Config, s: Pool, x: Backend, rest: seq<User>)
    requires Links(cfg, s, x, rest) && rest != []
    ensures rest[0] !in rest[1..]
  {
    assert SeatsOk(cfg, s, x, Held(s, x, x, rest));
    NoDupTail(rest, 1);
  }

  lemma {:induction false} NeverBack(cfg: Config, s: Pool, x: Backend, rest: seq<User>, v: User)
    requires Links(cfg, s, x, rest) && v !in s.users
    ensures v !in OrphanAll(cfg, s, rest).users
    decreases |rest|
  {
    hide Links, Orphan;
    if rest != [] {
      OrphanMeans(cfg, s, x, rest);
      OrphanLinks(cfg, s, x, rest);
      NeverBack(cfg, Orphan(cfg, s, rest[0]), x, rest[1..], v);
    }
  }

  lemma {:induction false} LaterOrphans(cfg: Config, s: Pool, x: Backend, rest: seq<User>, v: User)
    requires Links(cfg, s, x, rest) && v !in rest
    ensures SamePlace(s, OrphanAll(cfg, s, rest), v) && OrphanAll(cfg, s, rest).clients == s.clients
    decreases |rest|
  {
    hide Links, HandleDisconnected, SamePlace;
    SamePlaceSelf(s, v);
    if rest != [] {
      var u := rest[0];
      UnlinkLinks(cfg, s, x, rest);
      var s1 := SetUser(s, u, Who(s, u).(data := null));
      DisconnectedOthers(cfg, s1, u, true, x, rest[1..], v);
      OrphanMeans(cfg, s, x, rest);
      OrphanLinks(cfg, s, x, rest);
      var t := Orphan(cfg, s, u);
      LaterOrphans(cfg, t, x, rest[1..], v);
      SamePlaceFrom(s, s1, t, v);
      SamePlaceTrans(s, t, OrphanAll(cfg, s, rest), v);
    }
  }

  lemma {:induction false} SamePlaceSelf(s: Pool, v: User)
    ensures SamePlace(s, s, v)
  {
  }

  lemma {:induction false} SamePlaceFrom(s: Pool, s1: Pool, t: Pool, v: User)
    requires SamePlace(s1, t, v) && s1.waiting == s.waiting && s1.backends == s.backends && s1.clients == s.clients
    ensures SamePlace(s, t, v)
  {
  }

  lemma {:induction false} OrphanedLater(r: UserState, t: Pool, w: Pool, v: User, x: Backend)
    requires OrphanedAs(r, t, v) && (v in t.users <==> v in w.users) && (v in t.users ==> w.users[v] == t.users[v])
    requires !r.ignoreDisconnect && v in t.users ==> Somewhere(t, v, x)
    requires v in t.users ==> SamePlace(t, w, v) && w.clients == t.clients
    ensures OrphanedAs(r, w, v) && (!r.ignoreDisconnect && v in w.users ==> Somewhere(w, v, x))
  {
  }

  /** The end of a session: of the backend's users exactly those stay that ignore disconnects
      or may try again; those are in the queue or on another client; nobody else is touched. */
  lemma {:induction false} SessionFinishedMeans(cfg: Config, s: Pool, c: Backend, v: User)
    requires Links(cfg, s, null, []) && c in s.clients && v in s.users
    ensures var t := HandleSessionFinished(cfg, s, c);
      var r := s.users[v];
      if v !in At(s, c).users then v in t.users && t.users[v] == r
      else
        && (v in t.users <==> r.ignoreDisconnect || r.reconnectLimit < 0 || r.reconnects < r.reconnectLimit)
        && (r.ignoreDisconnect ==> t.users[v] == r.(data := null))
        && (!r.ignoreDisconnect && v in t.users ==> t.users[v].reconnects == r.reconnects + 1)
        && (!r.ignoreDisconnect && v in t.users ==> v in t.waiting || exists b :: b in t.clients && v in At(t, b).users)
    ensures HandleSessionFinished(cfg, s, c).clients == Remove(s.clients, c)
  {
    var s1 := SetBackend(s, c, At(s, c).(willDie := true));
    var us := At(s1, c).users;
    CondemnLinks(cfg, s, c);
    OrphanAllMeans(cfg, s1, c, us, v);
    SessionFinishedLinks(cfg, s, c);
    hide Links, OrphanAll, Remove;
    var t := HandleSessionFinished(cfg, s, c);
    var t2 := OrphanAll(cfg, s1, us);
    OrphanAllClients(cfg, s1, us);
    assert forall b :: b in t2.clients && b != c ==> b in t.clients;
  }
}
