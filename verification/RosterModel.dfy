/** One user's roster: the buddies, the queue of buddies to store, the tables behind it, and
    what happened to every Buddy object.  Every operation is a function of the roster.  The
    storage is attached before the first buddy appears. */
module RosterModel {
  import opened Wrappers

  datatype Subscription = Ask | Both

  datatype Info = Info(id: int, name: string, alias: string, groups: seq<string>, subscription: Subscription, iconHash: string)

  class Buddy {
    var info: Info
    constructor (i: Info)
      ensures info == i
    { info := i; }
  }

  // --------------------------------------------------------------------- the tables

  /** A row of the buddies table, and the icon_hash rows of the settings table by buddy id. */
  datatype Record = Record(uin: string, subscription: string, groups: seq<string>, alias: string)
  datatype Tables = Tables(rows: map<int, Record>, icons: map<int, string>)

  function RecordOf(i: Info): Record {
    Record(i.name, if i.subscription == Ask then "ask" else "both", i.groups, i.alias)
  }

  /** INSERT: the database picks the id. */
  function AddBuddy(t: Tables, i: Info, id: int): Tables {
    Tables(t.rows[id := RecordOf(i)], t.icons[id := i.iconHash])
  }

  /** UPDATE finds its row by uin, the setting by id. */
  function UpdateBuddy(t: Tables, i: Info): Tables {
    Tables(map n | n in t.rows :: if t.rows[n].uin == i.name then RecordOf(i) else t.rows[n], t.icons[i.id := i.iconHash])
  }

  function DeleteBuddy(t: Tables, id: int): Tables {
    Tables(t.rows - {id}, t.icons - {id})
  }

  // --------------------------------------------------------------------- the roster

  /** created, deleted and inserted record Buddy objects in order. */
  datatype Roster = Roster(buddies: map<string, Buddy>, queue: map<string, Buddy>, info: map<Buddy, Info>, tables: Tables,
                           created: seq<Buddy>, deleted: seq<Buddy>, inserted: seq<Buddy>)

  /** lower is the locale's to_lower, newId the id the database gives a new row, usable
      whether a stored name makes a valid JID. */
  datatype World = World(lower: string -> string, newId: map<int, Record> -> int, usable: string -> bool)

  ghost predicate Sane(w: World) {
    (forall s :: w.lower(w.lower(s)) == w.lower(s)) && (forall s :: w.lower(s) == "" <==> s == "") &&
    forall rows :: w.newId(rows) !in rows && w.newId(rows) != -1
  }

  function InfoAt(r: Roster, b: Buddy): Info {
    if b in r.info then r.info[b] else Info(-1, "", "", [], Ask, "")
  }

  function StoreBuddy(r: Roster, b: Buddy): Roster {
    var name := InfoAt(r, b).name;
    if name == "" then r else r.(queue := r.queue[name := b])
  }

  function StoreOne(w: World, r: Roster, b: Buddy): Roster {
    var i := InfoAt(r, b);
    if i.id != -1 then r.(tables := UpdateBuddy(r.tables, i))
    else
      var id := w.newId(r.tables.rows);
      r.(tables := AddBuddy(r.tables, i, id), info := r.info[b := i.(id := id)], inserted := r.inserted + [b])
  }

  function StoreAll(w: World, r: Roster, bs: seq<Buddy>): Roster
    decreases |bs|
  {
    if bs == [] then r else StoreAll(w, StoreOne(w, r, bs[0]), bs[1..])
  }

  /** The buddies of a queue in the order its map is walked. */
  ghost predicate Walk(queue: map<string, Buddy>, order: seq<string>) {
    (forall n :: n in queue <==> n in order) && forall i, j :: 0 <= i < j < |order| ==> order[i] != order[j]
  }

  lemma {:induction false} NothingToWalk(queue: map<string, Buddy>, order: seq<string>)
    requires Walk(queue, order)
    ensures order != [] ==> order[0] in queue
  {
    if order != [] {
      assert order[0] in order;
    }
  }

  function Walked(queue: map<string, Buddy>, order: seq<string>): (bs: seq<Buddy>)
    requires forall n :: n in order ==> n in queue
    ensures |bs| == |order|
  {
    seq(|order|, i requires 0 <= i < |order| => queue[order[i]])
  }

  function StoreBuddies(w: World, r: Roster, order: seq<string>): Roster
    requires Walk(r.queue, order)
  {
    StoreAll(w, r, Walked(r.queue, order)).(queue := map[])
  }

  function Create(r: Roster, b: Buddy, i: Info): Roster {
    r.(created := r.created + [b], info := r.info[b := i])
  }

  function SetBuddy(w: World, r: Roster, b: Buddy): Roster {
    StoreBuddy(r.(buddies := r.buddies[w.lower(InfoAt(r, b).name) := b]), b)
  }

  function RemoveBuddy(w: World, r: Roster, name: string): Roster {
    var key := w.lower(w.lower(name));
    if key !in r.buddies then r
    else
      var b := r.buddies[key];
      var i := InfoAt(r, b);
      r.(tables := if i.id != -1 then DeleteBuddy(r.tables, i.id) else r.tables,
         buddies := r.buddies - {w.lower(i.name)}, queue := r.queue - {i.name}, deleted := r.deleted + [b])
  }

  /** The setters store the buddy when the field really changes. */
  function Edit(r: Roster, b: Buddy, i: Info): Roster {
    if i == InfoAt(r, b) then r else StoreBuddy(r.(info := r.info[b := i]), b)
  }

  function SetAlias(r: Roster, b: Buddy, alias: string): Roster {
    Edit(r, b, InfoAt(r, b).(alias := alias))
  }

  function SetGroups(r: Roster, b: Buddy, groups: seq<string>): Roster {
    Edit(r, b, InfoAt(r, b).(groups := groups))
  }

  function SetIconHash(r: Roster, b: Buddy, iconHash: string): Roster {
    Edit(r, b, InfoAt(r, b).(iconHash := iconHash))
  }

  // ------------------------------------------------------------------ subscriptions

  /** The name a JID's node stands for: the roster's spelling when the buddy is known. */
  function LegacyName(w: World, r: Roster, name: string): string {
    if w.lower(name) in r.buddies then InfoAt(r, r.buddies[w.lower(name)]).name else name
  }

  function Delete(r: Roster, b: Buddy): Roster {
    r.(deleted := r.deleted + [b])
  }

  /** A subscription presence in gateway mode; temp is the object made for an unknown contact. */
  function HandleSubscription(w: World, r: Roster, node: string, ptype: PresenceType, temp: Buddy): Roster {
    var name := LegacyName(w, r, node);
    if name == "" then r
    else if w.lower(name) !in r.buddies then
      var r' := Create(r, temp, Info(-1, name, "", [], Both, ""));
      if ptype == Subscribe || ptype == Subscribed then SetBuddy(w, r', temp) else Delete(r', temp)
    else
      var b := r.buddies[w.lower(name)];
      match ptype
      case Subscribe | Subscribed => Edit(r, b, InfoAt(r, b).(subscription := Both))
      case Unsubscribe => RemoveBuddy(w, r, InfoAt(r, b).name)
      case Unsubscribed => if InfoAt(r, b).subscription == Ask then RemoveBuddy(w, r, InfoAt(r, b).name) else r
      case _ => r
  }

  /** The presences sent back: the answer, and the contact's own request acted out. */
  function Replies(w: World, r: Roster, node: string, ptype: PresenceType): seq<PresenceType> {
    var name := LegacyName(w, r, node);
    if name == "" then []
    else
      match ptype
      case Subscribe => [Subscribed, Subscribe]
      case Unsubscribe => [Unsubscribed, Unsubscribe]
      case Unsubscribed => if Status(w, r, name) == Waiting then [Unsubscribe] else []
      case _ => []
  }

  lemma {:induction false} NamelessIgnored(w: World, r: Roster, node: string, ptype: PresenceType, temp: Buddy)
    requires LegacyName(w, r, node) == ""
    ensures HandleSubscription(w, r, node, ptype, temp) == r && Replies(w, r, node, ptype) == []
  {
  }

  /** A contact is handled alike under the name it came by and the roster's spelling. */
  lemma {:induction false} SameContact(w: World, r: Roster, node: string, spelled: string, ptype: PresenceType)
    requires spelled == LegacyName(w, r, node) && w.lower(spelled) == w.lower(node)
    ensures Replies(w, r, node, ptype) == Replies(w, r, spelled, ptype)
    ensures forall temp :: HandleSubscription(w, r, node, ptype, temp) == HandleSubscription(w, r, spelled, ptype, temp)
  {
  }

  // ------------------------------------------------------------------- backend events

  /** handleBuddyChangedPayload: temp is the object made for an unknown buddy, valid whether
      its JID is usable, uin the user's own legacy name. */
  datatype Payload = Payload(name: string, alias: string, groups: seq<string>, iconHash: string)

  function BuddyChanged(w: World, r: Roster, p: Payload, temp: Buddy, valid: bool, uin: string): Roster {
    if w.lower(p.name) in r.buddies then
      var b := r.buddies[w.lower(p.name)];
      var r1 := if p.alias != "" then SetAlias(r, b, p.alias) else r;
      var r2 := if p.groups != [] then SetGroups(r1, b, p.groups) else r1;
      SetIconHash(r2, b, p.iconHash)
    else if p.name == uin then r
    else
      var r1 := Create(r, temp, Info(-1, p.name, p.alias, p.groups, Ask, ""));
      if !valid then Delete(r1, temp) else SetIconHash(SetBuddy(w, r1, temp), temp, p.iconHash)
  }

  // ----------------------------------------------------------------------- loading

  /** setStorageBackend: one object per stored buddy, in the order of the rows; one whose
      name is not usable is deleted again. */
  function Load(w: World, t: Tables, infos: seq<Info>, objs: seq<Buddy>): Roster
    requires |infos| == |objs|
  {
    if infos == [] then Roster(map[], map[], map[], t, [], [], [])
    else
      var n := |infos| - 1;
      LoadOne(w, Create(Load(w, t, infos[..n], objs[..n]), objs[n], infos[n]), infos[n].name, objs[n])
  }

  function LoadOne(w: World, r: Roster, name: string, b: Buddy): Roster {
    if w.usable(name) then r.(buddies := r.buddies[w.lower(name) := b]) else Delete(r, b)
  }

  lemma {:induction false} LoadNext(w: World, t: Tables, infos: seq<Info>, objs: seq<Buddy>, b: Buddy)
    requires |objs| < |infos|
    ensures var n := |objs|;
      Load(w, t, infos[..n + 1], objs + [b]) == LoadOne(w, Create(Load(w, t, infos[..n], objs), b, infos[n]), infos[n].name, b)
  {
    var n := |objs|;
    assert infos[..n + 1][..n] == infos[..n] && (objs + [b])[..n] == objs;
  }

  // -------------------------------------------------------------------- roster edits

  /** handleBuddyUpdated: the client sets alias and groups, empty ones too. */
  function BuddyUpdated(w: World, r: Roster, name: string, alias: string, groups: seq<string>): Roster {
    if w.lower(name) !in r.buddies then r
    else
      var b := r.buddies[w.lower(name)];
      SetGroups(SetAlias(r, b, alias), b, groups)
  }

  /** sendBuddyRosterPush: a buddy that was pushed into the client's roster is mutual. */
  function RosterPushed(w: World, r: Roster, name: string): Roster {
    if w.lower(name) !in r.buddies then r
    else
      var b := r.buddies[w.lower(name)];
      Edit(r, b, InfoAt(r, b).(subscription := Both))
  }

  datatype Event =
    | Presence(node: string, ptype: PresenceType, temp: Buddy)
    | Edited(name: string, alias: string, groups: seq<string>)
    | Pushed(name: string)
    | Changed(p: Payload, temp: Buddy, valid: bool, uin: string)
    | Removed(name: string)
    | Flush(order: seq<string>)

  /** Objects are new when they are made; a valid buddy has a name. */
  ghost predicate Enabled(r: Roster, e: Event) {
    match e
    case Presence(_, _, temp) => temp !in r.created
    case Changed(p, temp, valid, _) => temp !in r.created && (valid ==> p.name != "")
    case Edited(_, _, _) => true
    case Pushed(_) => true
    case Removed(_) => true
    case Flush(order) => Walk(r.queue, order)
  }

  function Apply(w: World, r: Roster, e: Event): Roster
    requires Enabled(r, e)
  {
    match e
    case Presence(node, ptype, temp) => HandleSubscription(w, r, node, ptype, temp)
    case Changed(p, temp, valid, uin) => BuddyChanged(w, r, p, temp, valid, uin)
    case Edited(name, alias, groups) => BuddyUpdated(w, r, name, alias, groups)
    case Pushed(name) => RosterPushed(w, r, name)
    case Removed(name) => RemoveBuddy(w, r, name)
    case Flush(order) => StoreBuddies(w, r, order)
  }

  // ------------------------------------------------------------------- the machine

  datatype Standing = Absent | Waiting | Mutual

  function Status(w: World, r: Roster, name: string): Standing {
    if w.lower(name) !in r.buddies then Absent
    else if InfoAt(r, r.buddies[w.lower(name)]).subscription == Ask then Waiting else Mutual
  }

  function Machine(s: Standing, ptype: PresenceType): Standing {
    match ptype
    case Subscribe | Subscribed => Mutual
    case Unsubscribe => Absent
    case Unsubscribed => if s == Waiting then Absent else s
    case _ => s
  }

  /** What an event does to one contact's standing. */
  function Next(w: World, s: Standing, e: Event, name: string): Standing {
    match e
    case Presence(node, ptype, _) => if w.lower(node) == w.lower(name) && node != "" then Machine(s, ptype) else s
    case Changed(p, _, valid, uin) =>
      if w.lower(p.name) == w.lower(name) && s == Absent && p.name != uin && valid then Waiting else s
    case Edited(_, _, _) => s
    case Pushed(pushed) => if w.lower(pushed) == w.lower(name) && s == Waiting then Mutual else s
    case Removed(removed) => if w.lower(removed) == w.lower(name) then Absent else s
    case Flush(_) => s
  }

  function NextAll(w: World, s: Standing, es: seq<Event>, name: string): Standing
    decreases |es|
  {
    if es == [] then s else NextAll(w, Next(w, s, es[0], name), es[1..], name)
  }

  ghost predicate Reaches(w: World, r: Roster, es: seq<Event>, q: Roster)
    decreases |es|
  {
    if es == [] then q == r else Enabled(r, es[0]) && Reaches(w, Apply(w, r, es[0]), es[1..], q)
  }
}