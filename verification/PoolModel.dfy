/** The backend pool of NetworkPluginServer as a state machine.

    Backend and User are the objects the server mutates in place; PoolServer.dfy
    has the methods that do it.  A Pool value is a snapshot of all of them, and
    the functions below say what one handler does to a snapshot. */
module PoolModel {
  import opened Lists
  import LogSlots

  /** pongReceived: -1 until the first PONG, then false or true. */
  datatype Pong = Unseen | Missing | Received

  datatype BackendState = BackendState(
    users: seq<User>, willDie: bool, acceptUsers: bool, longRun: bool, pong: Pong, res: nat)

  datatype UserState = UserState(
    data: Backend?, ignoreDisconnect: bool, ready: bool, connected: bool, reconnects: nat,
    reconnectLimit: int, handlers: nat, lastActivity: int)

  class Backend {
    var users: seq<User>
    var willDie: bool
    var acceptUsers: bool
    var longRun: bool
    var pong: Pong
    var res: nat

    /** A connection just accepted; it must not be used before its first PONG. */
    constructor (isLongRun: bool)
      ensures State() == Connected(isLongRun)
    {
      users, willDie, acceptUsers, longRun, pong, res := [], true, !isLongRun, isLongRun, Unseen, 0;
    }

    function State(): BackendState
      reads this
    {
      BackendState(users, willDie, acceptUsers, longRun, pong, res)
    }
  }

  class User {
    var data: Backend?
    var ignoreDisconnect: bool
    var ready: bool
    var connected: bool
    var reconnects: nat
    const reconnectLimit: int
    /** How many times the pool's slots are connected to this user's signals. */
    var handlers: nat
    var lastActivity: int

    constructor (limit: int, now: int)
      ensures State() == NewUser(limit, now)
    {
      data, ignoreDisconnect, ready, connected, reconnects := null, false, false, false, 0;
      reconnectLimit, handlers, lastActivity := limit, 0, now;
    }

    function State(): UserState
      reads this
    {
      UserState(data, ignoreDisconnect, ready, connected, reconnects, reconnectLimit, handlers, lastActivity)
    }
  }

  function Connected(isLongRun: bool): BackendState {
    BackendState([], true, !isLongRun, isLongRun, Unseen, 0)
  }

  function NewUser(limit: int, now: int): UserState {
    UserState(null, false, false, false, 0, limit, 0, now)
  }

  datatype Config = Config(usersPerBackend: int, loginDelay: int, reuseOldBackends: bool, idleReconnectTime: int)

  /** What an outside observer of the pool could write down, in order. */
  datatype Obs =
    | Ponged(b: Backend)
    | Assigned(u: User, b: Backend, at: int)
    | Login(u: User, b: Backend)
    | Logout(u: User, b: Backend)

  /** The scalars getFreeClient works with.  clock, ticks and pid belong to the
      environment: each read of the clock lets the next tick pass, and pid is what the
      next spawned process will get. */
  datatype Desk = Desk(
    starting: bool, nextLongRun: bool, lastLogin: int, pids: seq<nat>,
    clock: int, ticks: seq<nat>, pid: nat)

  datatype Pool = Pool(
    clients: seq<Backend>,
    backends: map<Backend, BackendState>,
    users: map<User, UserState>,
    waiting: seq<User>,
    desk: Desk,
    trace: seq<Obs>)

  const Gone := BackendState([], true, false, false, Received, 0)
  const Nobody := UserState(null, true, false, false, 0, 0, 0, 0)

  function Initial(firstPid: nat, now: int): Pool {
    Pool([], map[], map[], [], Desk(false, false, 0, [firstPid], now, [], 0), [])
  }

  function Look(bs: map<Backend, BackendState>, b: Backend): BackendState {
    if b in bs then bs[b] else Gone
  }

  function At(s: Pool, b: Backend): BackendState {
    Look(s.backends, b)
  }

  function Who(s: Pool, u: User): UserState {
    if u in s.users then s.users[u] else Nobody
  }

  function SetBackend(s: Pool, b: Backend, r: BackendState): Pool {
    s.(backends := s.backends[b := r])
  }

  function SetUser(s: Pool, u: User, r: UserState): Pool {
    s.(users := s.users[u := r])
  }

  function Note(s: Pool, o: Obs): Pool {
    s.(trace := s.trace + [o])
  }

  // ---------------------------------------------------------------- getFreeClient

  /** time(NULL): the clock never runs backwards. */
  function ReadClock(d: Desk): Desk {
    if d.ticks == [] then d else d.(clock := d.clock + d.ticks[0], ticks := d.ticks[1..])
  }

  function Tick(s: Pool): Pool {
    s.(desk := ReadClock(s.desk))
  }

  /** True when service.login_delay forbids another login at the current time. */
  predicate TooEarly(cfg: Config, d: Desk) {
    cfg.loginDelay != 0 && d.clock - d.lastLogin < cfg.loginDelay
  }

  function StampLogin(d: Desk): Desk {
    var t := ReadClock(d); t.(lastLogin := t.clock)
  }

  function SpawnBackend(d: Desk, longRun: bool): Desk {
    if d.starting then d
    else d.(nextLongRun := longRun, starting := true, pids := LogSlots.Spawn(d.pids, d.pid))
  }

  predicate Free(cfg: Config, r: BackendState, accept: bool, longRun: bool) {
    !r.willDie && r.acceptUsers == accept && |r.users| < cfg.usersPerBackend && r.longRun == longRun
  }

  function FirstFree(cfg: Config, bs: map<Backend, BackendState>, cs: seq<Backend>, accept: bool, longRun: bool): (c: Backend?)
    ensures c != null ==> c in cs && Free(cfg, Look(bs, c), accept, longRun)
    ensures c == null ==> forall b :: b in cs ==> !Free(cfg, Look(bs, b), accept, longRun)
    decreases |cs|
  {
    if cs == [] then null
    else if Free(cfg, Look(bs, cs[0]), accept, longRun) then cs[0]
    else FirstFree(cfg, bs, cs[1..], accept, longRun)
  }

  /** A backend about to be filled stops accepting users unless old ones are reused. */
  function Claim(cfg: Config, bs: map<Backend, BackendState>, c: Backend): map<Backend, BackendState> {
    if !cfg.reuseOldBackends && |Look(bs, c).users| + 1 >= cfg.usersPerBackend
    then bs[c := Look(bs, c).(acceptUsers := false)]
    else bs
  }

  function GetFreeClient(cfg: Config, s: Pool, accept: bool, longRun: bool, check: bool): (Pool, Backend?) {
    var d1 := ReadClock(s.desk);
    if TooEarly(cfg, d1) then (s.(desk := d1), null) else
    var d2 := if check then d1 else StampLogin(d1);
    var c := FirstFree(cfg, s.backends, s.clients, accept, longRun);
    if c == null then (s.(desk := SpawnBackend(d2, longRun)), null)
    else (s.(desk := d2, backends := if check then s.backends else Claim(cfg, s.backends, c)), c)
  }

  // ---------------------------------------------------------------- users come and go

  /** Puts u on backend c, as both handleUserCreated and moveToLongRunBackend do. */
  function Place(s: Pool, u: User, c: Backend): Pool {
    var s1 := SetUser(s, u, Who(s, u).(data := c));
    var s2 := SetBackend(s1, c, At(s1, c).(users := At(s1, c).users + [u]));
    Note(s2, Assigned(u, c, s.desk.lastLogin))
  }

  function ConnectHandlers(s: Pool, u: User): Pool {
    SetUser(s, u, Who(s, u).(handlers := Who(s, u).handlers + 1))
  }

  function HandleUserCreated(cfg: Config, s: Pool, u: User): Pool {
    var (s1, c) := GetFreeClient(cfg, s, true, false, false);
    if c == null then s1.(waiting := s1.waiting + [u])
    else ConnectHandlers(Place(s1, u, c), u)
  }

  /** Takes u off backend c; the last user of a one-user backend leaves it to die. */
  function Leave(cfg: Config, s: Pool, u: User, c: Backend): Pool {
    var left := Remove(At(s, c).users, u);
    var r := At(s, c).(users := left);
    SetBackend(s, c, if left == [] && cfg.usersPerBackend == 1 then r.(willDie := true) else r)
  }

  function HandleUserDestroyed(cfg: Config, s: Pool, u: User): Pool {
    var s1 := s.(waiting := Remove(s.waiting, u));
    var s2 := SetUser(s1, u, Who(s1, u).(handlers := 0));
    var c := Who(s2, u).data;
    if c == null then s2 else Leave(cfg, Note(s2, Logout(u, c)), u, c)
  }

  function HandleUserReadyToConnect(s: Pool, u: User): Pool {
    var c := Who(s, u).data;
    if c == null then s else Note(s, Login(u, c))
  }

  /** The onReadyToConnect signal calls the handler once per connection. */
  function FireReady(s: Pool, u: User, times: nat): Pool
    decreases times
  {
    if times == 0 then s else FireReady(HandleUserReadyToConnect(s, u), u, times - 1)
  }

  /** A user that is ready is not made ready again, nor one that is connected, unless it
      joins a room. */
  predicate StaysSilent(r: UserState, joining: bool) {
    r.ready || (r.connected && !joining)
  }

  function MakeReady(s: Pool, u: User): Pool {
    var s1 := SetUser(s, u, Who(s, u).(ready := true));
    FireReady(s1, u, Who(s1, u).handlers)
  }

  // ---------------------------------------------------------------- User::handleDisconnected

  predicate MayRetry(r: UserState) {
    r.reconnectLimit < 0 || r.reconnects < r.reconnectLimit
  }

  function Resurrect(cfg: Config, s: Pool, u: User): Pool {
    var s1 := SetUser(s, u, Who(s, u).(reconnects := Who(s, u).reconnects + 1));
    var s2 := HandleUserCreated(cfg, HandleUserDestroyed(cfg, s1, u), u);
    FireReady(s2, u, Who(s2, u).handlers)
  }

  function RemoveUser(cfg: Config, s: Pool, u: User): Pool {
    var s1 := HandleUserDestroyed(cfg, s, u);
    s1.(users := s1.users - {u})
  }

  /** network: the error is CONNECTION_ERROR_OTHER_ERROR or _NETWORK_ERROR. */
  function HandleDisconnected(cfg: Config, s: Pool, u: User, network: bool): Pool {
    if Who(s, u).ignoreDisconnect then s
    else if network && MayRetry(Who(s, u)) then Resurrect(cfg, s, u)
    else RemoveUser(cfg, s, u)
  }

  // ---------------------------------------------------------------- the waiting queue

  /** One round of the loop in connectWaitingUsers, once a free backend is known. */
  function ServeFirst(cfg: Config, s: Pool): Pool
    requires s.waiting != []
  {
    var u := s.waiting[0];
    var s1 := HandleUserCreated(cfg, s.(waiting := s.waiting[1..]), u);
    if Who(s1, u).ready then HandleUserReadyToConnect(s1, u) else s1
  }

  function ConnectWaitingUsers(cfg: Config, s: Pool): Pool
    decreases |s.waiting|
  {
    if s.waiting == [] then s else
    var (s1, c) := GetFreeClient(cfg, s, true, false, true);
    if c == null then s1 else
    CheckedServeShrinks(cfg, s);
    ConnectWaitingUsers(cfg, ServeFirst(cfg, s1))
  }

  /** A successful check makes the next getFreeClient return the same backend, so the
      served user is never put back and the queue loses exactly its head. */
  lemma {:induction false} CheckedServeShrinks(cfg: Config, s: Pool)
    requires s.waiting != []
    requires GetFreeClient(cfg, s, true, false, true).1 != null
    ensures var (s1, c) := GetFreeClient(cfg, s, true, false, true);
      && s1 == Tick(s)
      && GetFreeClient(cfg, s1.(waiting := s.waiting[1..]), true, false, false).1 == c
      && ServeFirst(cfg, s1).waiting == s.waiting[1..]
  {
  }

  // ---------------------------------------------------------------- backends come and go

  function HandleNewClientConnection(s: Pool, c: Backend): Pool {
    s.(clients := [c] + s.clients, backends := s.backends[c := Connected(s.desk.nextLongRun)],
       desk := s.desk.(starting := false))
  }

  /** Any parsed frame proves the backend alive, but only a PONG seen before the
      first ping check makes it usable. */
  function HandleFrame(s: Pool, c: Backend): Pool {
    if At(s, c).pong == Missing then SetBackend(s, c, At(s, c).(pong := Received)) else s
  }

  function HandlePongReceived(cfg: Config, s: Pool, c: Backend): Pool {
    var s0 := HandleFrame(s, c);
    var s1 := Note(s0, Ponged(c));
    var s2 := if At(s1, c).pong != Unseen then s1
              else ConnectWaitingUsers(cfg, SetBackend(s1, c, At(s1, c).(willDie := false)));
    SetBackend(s2, c, At(s2, c).(pong := Received))
  }

  /** The body of the loop in handleSessionFinished. */
  function Orphan(cfg: Config, s: Pool, u: User): Pool {
    HandleDisconnected(cfg, SetUser(s, u, Who(s, u).(data := null)), u, true)
  }

  function OrphanAll(cfg: Config, s: Pool, us: seq<User>): Pool
    decreases |us|
  {
    if us == [] then s else OrphanAll(cfg, Orphan(cfg, s, us[0]), us[1..])
  }

  function HandleSessionFinished(cfg: Config, s: Pool, c: Backend): Pool {
    var s1 := SetBackend(s, c, At(s, c).(willDie := true));
    var s2 := OrphanAll(cfg, s1, At(s1, c).users);
    s2.(clients := Remove(s2.clients, c))
  }

  // ---------------------------------------------------------------- moving idle users

  /** u leaves prev for c and logs in there; the disconnection this causes is ignored. */
  function Reseat(s: Pool, u: User, prev: Backend, c: Backend): Pool {
    var s2 := SetUser(s, u, Who(s, u).(ignoreDisconnect := true));
    var s3 := SetBackend(s2, prev, At(s2, prev).(users := Remove(At(s2, prev).users, u)));
    HandleUserReadyToConnect(Place(s3, u, c), u)
  }

  function MoveToLongRunBackend(cfg: Config, s: Pool, u: User): (Pool, bool) {
    var prev := Who(s, u).data;
    if prev == null || At(s, prev).longRun then (s, true) else
    var (s1, c) := GetFreeClient(cfg, s, false, true, false);
    if c == null then (s1, false) else (Reseat(s1, u, prev, c), true)
  }

  predicate Idle(cfg: Config, s: Pool, u: User) {
    s.desk.clock - Who(s, u).lastActivity > cfg.idleReconnectTime
  }

  function IdleAmong(cfg: Config, s: Pool, us: seq<User>): seq<User> {
    if us == [] then []
    else (if Idle(cfg, s, us[0]) then [us[0]] else []) + IdleAmong(cfg, s, us[1..])
  }

  /** Users of long-running backends are never moved. */
  function IdleOf(cfg: Config, s: Pool, c: Backend): seq<User> {
    if At(s, c).longRun then [] else IdleAmong(cfg, s, At(s, c).users)
  }

  /** usersToMove: the idle users of every client that is not long-running, in order. */
  function UsersToMove(cfg: Config, s: Pool, cs: seq<Backend>): seq<User> {
    if cs == [] then [] else IdleOf(cfg, s, cs[0]) + UsersToMove(cfg, s, cs[1..])
  }

  function MoveAll(cfg: Config, s: Pool, us: seq<User>): Pool
    decreases |us|
  {
    if us == [] then s else
    var (s1, ok) := MoveToLongRunBackend(cfg, s, us[0]);
    if ok then MoveAll(cfg, s1, us[1..]) else s1
  }

  /** The first half of pingTimeout. */
  function MoveIdleUsers(cfg: Config, s: Pool): Pool {
    var s1 := Tick(s);
    if cfg.idleReconnectTime == 0 then s1 else MoveAll(cfg, s1, UsersToMove(cfg, s1, s1.clients))
  }

  /** -1 and true are both non-zero, so only a missing PONG skips the new PING. */
  function Ping(s: Pool, c: Backend): Pool {
    if At(s, c).pong == Missing then s else SetBackend(s, c, At(s, c).(pong := Missing))
  }

  function PingAll(s: Pool, cs: seq<Backend>): Pool
    decreases |cs|
  {
    if cs == [] then s else PingAll(Ping(s, cs[0]), cs[1..])
  }

  /** The second half of pingTimeout up to the removals, which are SessionFinished steps. */
  function CheckPings(s: Pool): Pool {
    PingAll(s.(desk := s.desk.(starting := false)), s.clients)
  }

  /** A client is named once for a missing PONG and once more for having no users. */
  function Removals(r: BackendState, c: Backend): seq<Backend> {
    (if r.pong == Missing then [c] else []) + (if r.users == [] then [c] else [])
  }

  /** toRemove in pingTimeout. */
  function RemovalList(s: Pool, cs: seq<Backend>): seq<Backend>
    decreases |cs|
  {
    if cs == [] then [] else Removals(At(s, cs[0]), cs[0]) + RemovalList(s, cs[1..])
  }

  function FinishAll(cfg: Config, s: Pool, bs: seq<Backend>): Pool
    decreases |bs|
  {
    if bs == [] then s else FinishAll(cfg, HandleSessionFinished(cfg, s, bs[0]), bs[1..])
  }

  /** The whole of pingTimeout, for a list that names nobody twice.  Runs have its parts as
      events: MoveIdle, PingCheck and one SessionFinished for each backend of the list. */
  function PingTimeout(cfg: Config, s: Pool): Pool {
    var s1 := MoveIdleUsers(cfg, s);
    FinishAll(cfg, CheckPings(s1), RemovalList(s1, s1.clients))
  }

  // ---------------------------------------------------------------- collecting

  /** The client with the most memory, the first of several equals; null if all report 0. */
  function Biggest(s: Pool, cs: seq<Backend>, best: Backend?, max: nat): Backend? {
    if cs == [] then best
    else if At(s, cs[0]).res > max then Biggest(s, cs[1..], cs[0], At(s, cs[0]).res)
    else Biggest(s, cs[1..], best, max)
  }

  function CollectBackend(s: Pool): Pool {
    var b := Biggest(s, s.clients, null, 0);
    if b == null then s else SetBackend(s, b, At(s, b).(acceptUsers := false))
  }

  // ---------------------------------------------------------------- runs

  datatype Event =
    | NewClient(c: Backend)
    | Frame(c: Backend)
    | Pong(c: Backend)
    | SessionFinished(c: Backend)
    | Stats(c: Backend, res: nat)
    | AddUser(u: User, limit: int)
    | DeleteUser(u: User)
    | Disconnected(u: User, network: bool)
    | BecomeReady(u: User, joining: bool)
    | SetConnected(u: User)
    | Activity(u: User)
    | MoveIdle
    | PingCheck
    | Collect
    | LoginTimer
    | PidTerminated(pid: nat)

  /** An event with what the environment supplies while it is handled. */
  datatype Input = Input(e: Event, ticks: seq<nat>, pid: nat)

  predicate Enabled(s: Pool, e: Event) {
    match e
    case NewClient(c) => c !in s.backends
    case Frame(c) => c in s.clients
    case Pong(c) => c in s.clients
    case SessionFinished(c) => c in s.clients
    case Stats(c, _) => c in s.clients
    case AddUser(u, _) => u !in s.users
    case DeleteUser(u) => u in s.users
    case Disconnected(u, _) => u in s.users
    case BecomeReady(u, _) => u in s.users
    case SetConnected(u) => u in s.users
    case Activity(u) => u in s.users
    case _ => true
  }

  function Apply(cfg: Config, s: Pool, e: Event): Pool {
    match e
    case NewClient(c) => HandleNewClientConnection(s, c)
    case Frame(c) => HandleFrame(s, c)
    case Pong(c) => HandlePongReceived(cfg, s, c)
    case SessionFinished(c) => HandleSessionFinished(cfg, s, c)
    case Stats(c, res) => SetBackend(s, c, At(s, c).(res := res))
    case AddUser(u, limit) =>
      var s1 := Tick(s);
      HandleUserCreated(cfg, SetUser(s1, u, NewUser(limit, s1.desk.clock)), u)
    case DeleteUser(u) => RemoveUser(cfg, s, u)
    case Disconnected(u, network) => HandleDisconnected(cfg, s, u, network)
    case BecomeReady(u, joining) => if StaysSilent(Who(s, u), joining) then s else MakeReady(s, u)
    case SetConnected(u) =>
      var s1 := Tick(s);
      SetUser(s1, u, Who(s1, u).(connected := true, reconnects := 0, ignoreDisconnect := false, lastActivity := s1.desk.clock))
    case Activity(u) =>
      var s1 := Tick(s);
      SetUser(s1, u, Who(s1, u).(lastActivity := s1.desk.clock))
    case MoveIdle => MoveIdleUsers(cfg, s)
    case PingCheck => CheckPings(s)
    case Collect => CollectBackend(s)
    case LoginTimer => ConnectWaitingUsers(cfg, s)
    case PidTerminated(pid) => s.(desk := s.desk.(pids := LogSlots.Terminate(s.desk.pids, pid)))
  }

  /** One step of a run; an event that cannot happen in s changes nothing. */
  function Step(cfg: Config, s: Pool, i: Input): Pool {
    var s1 := s.(desk := s.desk.(ticks := i.ticks, pid := i.pid));
    if Enabled(s1, i.e) then Apply(cfg, s1, i.e) else s1
  }

  function Run(cfg: Config, s: Pool, ins: seq<Input>): Pool
    decreases |ins|
  {
    if ins == [] then s else Run(cfg, Step(cfg, s, ins[0]), ins[1..])
  }
}
