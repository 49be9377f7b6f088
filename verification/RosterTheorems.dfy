/** What every event keeps of a roster, and what that means over whole runs. */
module RosterTheorems {
  import opened Lists
  import opened Wrappers
  import opened RosterModel

  // -------------------------------------------------------------------- invariant

  /** Buddies lie under their lower-case name. */
  ghost predicate Placed(w: World, r: Roster) {
    forall k :: k in r.buddies ==>
      r.buddies[k] in r.info && w.lower(r.info[r.buddies[k]].name) == k && r.info[r.buddies[k]].name != ""
  }

  ghost predicate Known(w: World, r: Roster, name: string, b: Buddy) {
    w.lower(name) in r.buddies && r.buddies[w.lower(name)] == b && b in r.info && r.info[b].name == name
  }

  /** Only buddies of the roster are queued, under their own name. */
  ghost predicate Queued(w: World, r: Roster) {
    forall n :: n in r.queue ==> Known(w, r, n, r.queue[n])
  }

  /** A buddy without a row is queued; one with a row and not queued equals it. */
  ghost predicate Backed(i: Info, queue: map<string, Buddy>, t: Tables) {
    if i.id == -1 then i.name in queue
    else
      i.id in t.rows && i.id in t.icons && t.rows[i.id].uin == i.name &&
      (i.name in queue || (t.rows[i.id] == RecordOf(i) && t.icons[i.id] == i.iconHash))
  }

  ghost predicate AllBacked(r: Roster) {
    forall k :: k in r.buddies ==> r.buddies[k] in r.info && Backed(r.info[r.buddies[k]], r.queue, r.tables)
  }

  /** Every row is the row of a buddy. */
  ghost predicate Owned(w: World, r: Roster) {
    r.tables.icons.Keys == r.tables.rows.Keys &&
    forall id :: id in r.tables.rows ==>
      id != -1 && w.lower(r.tables.rows[id].uin) in r.buddies &&
      InfoAt(r, r.buddies[w.lower(r.tables.rows[id].uin)]).id == id
  }

  ghost predicate InRoster(w: World, r: Roster, b: Buddy) {
    var k := w.lower(InfoAt(r, b).name);
    k in r.buddies && r.buddies[k] == b
  }

  /** Each object made is either in the roster or deleted, and deleted only once. */
  ghost predicate Lives(w: World, r: Roster) {
    NoDup(r.deleted) && (forall b :: b in r.info ==> b in r.created) && (forall b :: b in r.created ==> b in r.info) &&
    (forall b :: b in r.created ==> (b in r.deleted <==> !InRoster(w, r, b))) &&
    forall b :: b in r.deleted ==> b in r.created
  }

  /** A buddy is inserted at most once: it has an id from then on. */
  ghost predicate InsertedOnce(r: Roster) {
    NoDup(r.inserted) && forall b :: b in r.inserted ==> b in r.info && r.info[b].id != -1
  }

  ghost predicate Good(w: World, r: Roster) {
    Placed(w, r) && Queued(w, r) && AllBacked(r) && Owned(w, r) && Lives(w, r) && InsertedOnce(r)
  }

  // ------------------------------------------------------------------ single steps

  lemma {:induction false} EditRoster(w: World, r: Roster, b: Buddy, i: Info)
    requires Placed(w, r) && Queued(w, r) && InRoster(w, r, b) && b in r.info
    requires i.name == InfoAt(r, b).name && i.id == InfoAt(r, b).id
    ensures Placed(w, Edit(r, b, i)) && Queued(w, Edit(r, b, i)) && InRoster(w, Edit(r, b, i), b)
    ensures InfoAt(Edit(r, b, i), b) == i
  {
  }

  lemma {:induction false} EditTables(w: World, r: Roster, b: Buddy, i: Info)
    requires Placed(w, r) && AllBacked(r) && Owned(w, r) && InRoster(w, r, b) && b in r.info
    requires i.name == InfoAt(r, b).name && i.id == InfoAt(r, b).id
    ensures AllBacked(Edit(r, b, i)) && Owned(w, Edit(r, b, i))
  {
  }

  lemma {:induction false} EditLives(w: World, r: Roster, b: Buddy, i: Info)
    requires Lives(w, r) && InsertedOnce(r) && b in r.info
    requires i.name == InfoAt(r, b).name && i.id == InfoAt(r, b).id
    ensures Lives(w, Edit(r, b, i)) && InsertedOnce(Edit(r, b, i))
  {
  }

  /** Changing a buddy of the roster: the change is queued, its name and its row stay. */
  lemma {:induction false} EditKeeps(w: World, r: Roster, b: Buddy, i: Info)
    requires Good(w, r) && InRoster(w, r, b)
    requires i.name == InfoAt(r, b).name && i.id == InfoAt(r, b).id
    ensures Good(w, Edit(r, b, i)) && InRoster(w, Edit(r, b, i), b) && InfoAt(Edit(r, b, i), b) == i
  {
    assert b in r.info;
    hide Placed, Queued, AllBacked, Owned, Lives, InsertedOnce, InRoster, Edit;
    EditRoster(w, r, b, i);
    EditTables(w, r, b, i);
    EditLives(w, r, b, i);
  }

  lemma {:induction false} SetRoster(w: World, r: Roster, b: Buddy, i: Info)
    requires Placed(w, r) && Queued(w, r) && b !in r.info && i.name != "" && w.lower(i.name) !in r.buddies
    ensures var q := SetBuddy(w, Create(r, b, i), b); Placed(w, q) && Queued(w, q) && InRoster(w, q, b)
  {
  }

  lemma {:induction false} SetTables(w: World, r: Roster, b: Buddy, i: Info)
    requires Placed(w, r) && AllBacked(r) && Owned(w, r)
    requires b !in r.info && i.id == -1 && i.name != "" && w.lower(i.name) !in r.buddies
    ensures var q := SetBuddy(w, Create(r, b, i), b); AllBacked(q) && Owned(w, q)
  {
  }

  lemma {:induction false} SetLives(w: World, r: Roster, b: Buddy, i: Info)
    requires Lives(w, r) && InsertedOnce(r) && b !in r.info && i.name != "" && w.lower(i.name) !in r.buddies
    ensures var q := SetBuddy(w, Create(r, b, i), b); Lives(w, q) && InsertedOnce(q)
  {
  }

  /** A new buddy enters the roster and the queue. */
  lemma {:induction false} SetBuddyKeeps(w: World, r: Roster, b: Buddy, i: Info)
    requires Good(w, r) && b !in r.created && i.id == -1 && i.name != "" && w.lower(i.name) !in r.buddies
    ensures var q := SetBuddy(w, Create(r, b, i), b); Good(w, q) && InRoster(w, q, b)
  {
    assert b !in r.info;
    hide Placed, Queued, AllBacked, Owned, Lives, InsertedOnce, InRoster, SetBuddy, Create;
    SetRoster(w, r, b, i);
    SetTables(w, r, b, i);
    SetLives(w, r, b, i);
  }

  /** A temporary buddy is made and deleted, and nothing else happens. */
  lemma {:induction false} TempKeeps(w: World, r: Roster, b: Buddy, i: Info)
    requires Good(w, r) && b !in r.created
    ensures Good(w, Delete(Create(r, b, i), b))
  {
    assert b !in r.info;
    hide Backed, InsertedOnce;
    TempRest(w, r, b, i);
  }

  lemma {:induction false} TempRest(w: World, r: Roster, b: Buddy, i: Info)
    requires InsertedOnce(r) && b !in r.info
    ensures InsertedOnce(Delete(Create(r, b, i), b))
  {
  }

  lemma {:induction false} RemoveRoster(w: World, r: Roster, name: string)
    requires Placed(w, r) && Queued(w, r)
    ensures var q := RemoveBuddy(w, r, name); Placed(w, q) && Queued(w, q)
  {
  }

  lemma {:induction false} RemoveTables(w: World, r: Roster, name: string)
    requires Placed(w, r) && AllBacked(r) && Owned(w, r)
    ensures var q := RemoveBuddy(w, r, name); AllBacked(q) && Owned(w, q)
  {
  }

  lemma {:induction false} RemoveLives(w: World, r: Roster, name: string)
    requires Placed(w, r) && Lives(w, r) && InsertedOnce(r)
    ensures var q := RemoveBuddy(w, r, name); Lives(w, q) && InsertedOnce(q)
  {
  }

  /** The buddy, its queue entry and its row go together. */
  lemma {:induction false} RemoveKeeps(w: World, r: Roster, name: string)
    requires Good(w, r)
    ensures Good(w, RemoveBuddy(w, r, name))
  {
    hide Placed, Queued, AllBacked, Owned, Lives, InsertedOnce, RemoveBuddy;
    RemoveRoster(w, r, name);
    RemoveTables(w, r, name);
    RemoveLives(w, r, name);
  }

  /** A queued buddy after its turn in the flush. */
  function Stored(w: World, r: Roster, name: string): Roster
    requires name in r.queue
  {
    StoreOne(w, r, r.queue[name]).(queue := r.queue - {name})
  }

  lemma {:induction false} StoredRoster(w: World, r: Roster, name: string)
    requires Placed(w, r) && Queued(w, r) && name in r.queue
    ensures var q := Stored(w, r, name); Placed(w, q) && Queued(w, q)
  {
  }

  lemma {:induction false} StoredBacked(w: World, r: Roster, name: string)
    requires Sane(w) && Placed(w, r) && Queued(w, r) && AllBacked(r) && Owned(w, r) && name in r.queue
    ensures AllBacked(Stored(w, r, name))
  {
  }

  lemma {:induction false} StoredOwned(w: World, r: Roster, name: string)
    requires Sane(w) && Placed(w, r) && Queued(w, r) && AllBacked(r) && Owned(w, r) && name in r.queue
    ensures Owned(w, Stored(w, r, name))
  {
  }

  lemma {:induction false} StoredLives(w: World, r: Roster, name: string)
    requires Sane(w) && Queued(w, r) && Lives(w, r) && InsertedOnce(r) && name in r.queue
    ensures var q := Stored(w, r, name); Lives(w, q) && InsertedOnce(q)
  {
  }

  /** What the turn does to the tables: a row is made for a buddy that has none, and either
      way the buddy's row holds its present values. */
  lemma {:induction false} StoredRow(w: World, r: Roster, name: string)
    requires Sane(w) && Good(w, r) && name in r.queue
    ensures var b := r.queue[name];
      var q := Stored(w, r, name);
      q.inserted == r.inserted + (if InfoAt(r, b).id == -1 then [b] else []) &&
      (InfoAt(r, b).id != -1 ==> InfoAt(q, b).id == InfoAt(r, b).id) &&
      Mirrored(InfoAt(q, b), q.tables)
  {
    assert Known(w, r, name, r.queue[name]);
    hide Lives, InsertedOnce;
  }

  /** One buddy of the flush: its row is made or brought up to date. */
  lemma {:induction false} StoredKeeps(w: World, r: Roster, name: string)
    requires Sane(w) && Good(w, r) && name in r.queue
    ensures Good(w, Stored(w, r, name))
  {
    hide Placed, Queued, AllBacked, Owned, Lives, InsertedOnce, Stored;
    StoredRoster(w, r, name);
    StoredBacked(w, r, name);
    StoredOwned(w, r, name);
    StoredLives(w, r, name);
  }

  // ------------------------------------------------------------------------ flush

  lemma {:induction false} WalkTail(queue: map<string, Buddy>, order: seq<string>)
    requires Walk(queue, order) && order != []
    ensures order[0] in queue && Walk(queue - {order[0]}, order[1..])
  {
    assert order == [order[0]] + order[1..];
    assert forall i :: 0 < i < |order| ==> order[i] == order[1..][i - 1];
  }

  lemma {:induction false} WalkOn(queue: map<string, Buddy>, order: seq<string>)
    requires Walk(queue, order) && order != []
    ensures order[0] in queue && Walk(queue - {order[0]}, order[1..])
    ensures Walked(queue, order)[0] == queue[order[0]]
    ensures Walked(queue, order)[1..] == Walked(queue - {order[0]}, order[1..])
  {
    WalkTail(queue, order);
    assert forall n :: n in order[1..] ==> n in queue - {order[0]};
    hide Walk;
  }

  /** What a flush leaves alone. */
  ghost predicate SameRoster(r: Roster, q: Roster) {
    q.buddies == r.buddies && q.created == r.created && q.deleted == r.deleted && q.info.Keys == r.info.Keys &&
    forall b :: b in r.info ==> q.info[b] == r.info[b].(id := q.info[b].id)
  }

  lemma {:induction false} StoredSame(w: World, r: Roster, name: string)
    requires Queued(w, r) && name in r.queue
    ensures SameRoster(r, Stored(w, r, name))
  {
  }

  /** The flush in progress: queue holds the buddies still to be walked. */
  lemma {:induction false} StoreAllKeeps(w: World, r: Roster, queue: map<string, Buddy>, order: seq<string>)
    requires Sane(w) && Walk(queue, order) && Good(w, r.(queue := queue))
    ensures var q := StoreAll(w, r, Walked(queue, order)).(queue := map[]); Good(w, q) && SameRoster(r, q)
    decreases |order|
  {
    hide Good, SameRoster;
    if order == [] {
      assert queue == map[];
      SameSelf(r, map[]);
    } else {
      WalkOn(queue, order);
      var r0 := r.(queue := queue);
      var r1 := StoreOne(w, r, queue[order[0]]);
      StoredKeeps(w, r0, order[0]);
      GoodQueued(w, r0);
      StoredSame(w, r0, order[0]);
      assert Stored(w, r0, order[0]) == r1.(queue := queue - {order[0]});
      StoreAllKeeps(w, r1, queue - {order[0]}, order[1..]);
      SameTrans(r, queue, r1, StoreAll(w, r, Walked(queue, order)).(queue := map[]), queue - {order[0]});
    }
  }

  lemma {:induction false} SameSelf(r: Roster, queue: map<string, Buddy>)
    ensures SameRoster(r, r.(queue := queue))
  {
  }

  lemma {:induction false} GoodQueued(w: World, r: Roster)
    requires Good(w, r)
    ensures Queued(w, r) && Placed(w, r)
  {
  }

  lemma {:induction false} SameTrans(a: Roster, qa: map<string, Buddy>, b: Roster, c: Roster, qb: map<string, Buddy>)
    requires SameRoster(a.(queue := qa), b.(queue := qb)) && SameRoster(b, c)
    ensures SameRoster(a, c)
  {
  }

  lemma {:induction false} FlushKeeps(w: World, r: Roster, order: seq<string>)
    requires Sane(w) && Good(w, r) && Walk(r.queue, order)
    ensures Good(w, StoreBuddies(w, r, order)) && SameRoster(r, StoreBuddies(w, r, order))
  {
    assert r.(queue := r.queue) == r;
    StoreAllKeeps(w, r, r.queue, order);
  }

  /** One row per buddy with its present values, and no other rows. */
  ghost predicate Mirrors(r: Roster) {
    (forall k :: k in r.buddies ==> Mirrored(InfoAt(r, r.buddies[k]), r.tables)) &&
    (forall k, l :: k in r.buddies && l in r.buddies && k != l ==> InfoAt(r, r.buddies[k]).id != InfoAt(r, r.buddies[l]).id) &&
    (forall id :: id in r.tables.rows ==> exists k :: k in r.buddies && InfoAt(r, r.buddies[k]).id == id) &&
    r.tables.icons.Keys == r.tables.rows.Keys
  }

  ghost predicate Mirrored(i: Info, t: Tables) {
    i.id != -1 && i.id in t.rows && i.id in t.icons &&
    t.rows[i.id].uin == i.name && t.rows[i.id].alias == i.alias && t.rows[i.id].groups == i.groups &&
    t.rows[i.id].subscription == (if i.subscription == Ask then "ask" else "both") && t.icons[i.id] == i.iconHash
  }

  lemma {:induction false} EmptyQueueMirrors(w: World, r: Roster)
    requires Good(w, r) && r.queue == map[]
    ensures Mirrors(r)
  {
    forall k, l | k in r.buddies && l in r.buddies && k != l
      ensures InfoAt(r, r.buddies[k]).id != InfoAt(r, r.buddies[l]).id
    {
      assert r.buddies[k] in r.info && r.buddies[l] in r.info;
    }
    forall id | id in r.tables.rows ensures exists k :: k in r.buddies && InfoAt(r, r.buddies[k]).id == id {
      assert w.lower(r.tables.rows[id].uin) in r.buddies;
    }
  }

  /** After a flush the tables are the roster, exactly. */
  lemma {:induction false} FlushMirrors(w: World, r: Roster, order: seq<string>)
    requires Sane(w) && Good(w, r) && Walk(r.queue, order)
    ensures Mirrors(StoreBuddies(w, r, order)) && SameRoster(r, StoreBuddies(w, r, order))
  {
    FlushKeeps(w, r, order);
    EmptyQueueMirrors(w, StoreBuddies(w, r, order));
  }

  /** A flush walks living buddies of the roster only. */
  lemma {:induction false} FlushTouchesLiving(w: World, r: Roster, order: seq<string>, j: nat)
    requires Good(w, r) && Walk(r.queue, order) && j < |order|
    ensures var b := Walked(r.queue, order)[j]; b in r.created && b !in r.deleted && InRoster(w, r, b)
  {
    assert Known(w, r, order[j], r.queue[order[j]]);
  }

  // ------------------------------------------------------------------------ events

  /** A known contact's legacy name lies under the same key as the name it came by. */
  lemma {:induction false} LegacyNameKey(w: World, r: Roster, node: string)
    requires Good(w, r)
    ensures w.lower(LegacyName(w, r, node)) == w.lower(node)
    ensures w.lower(node) in r.buddies ==>
      InRoster(w, r, r.buddies[w.lower(node)]) && InfoAt(r, r.buddies[w.lower(node)]).name == LegacyName(w, r, node) &&
      LegacyName(w, r, node) != ""
  {
  }

  lemma {:induction false} UnknownKeeps(w: World, r: Roster, node: string, ptype: PresenceType, temp: Buddy)
    requires Good(w, r) && temp !in r.created && w.lower(node) !in r.buddies
    ensures Good(w, HandleSubscription(w, r, node, ptype, temp))
  {
    hide Good, InRoster, SetBuddy, RemoveBuddy, Delete, Create, Edit;
    if node != "" {
      SetBuddyKeeps(w, r, temp, Info(-1, node, "", [], Both, ""));
      TempKeeps(w, r, temp, Info(-1, node, "", [], Both, ""));
    }
  }

  lemma {:induction false} KnownKeeps(w: World, r: Roster, node: string, ptype: PresenceType, temp: Buddy, b: Buddy)
    requires Good(w, r) && w.lower(node) in r.buddies && r.buddies[w.lower(node)] == b && InRoster(w, r, b)
    requires InfoAt(r, b).name == LegacyName(w, r, node) && w.lower(LegacyName(w, r, node)) == w.lower(node)
    ensures Good(w, HandleSubscription(w, r, node, ptype, temp))
  {
    hide Good, InRoster, LegacyName, SetBuddy, RemoveBuddy, Delete, Create, Edit, InfoAt;
    EditKeeps(w, r, b, InfoAt(r, b).(subscription := Both));
    RemoveKeeps(w, r, LegacyName(w, r, node));
  }

  lemma {:induction false} SubscriptionKeeps(w: World, r: Roster, node: string, ptype: PresenceType, temp: Buddy)
    requires Good(w, r) && temp !in r.created
    ensures Good(w, HandleSubscription(w, r, node, ptype, temp))
  {
    hide HandleSubscription;
    if w.lower(node) !in r.buddies {
      UnknownKeeps(w, r, node, ptype, temp);
    } else {
      LegacyNameKey(w, r, node);
      hide *;
      KnownKeeps(w, r, node, ptype, temp, r.buddies[w.lower(node)]);
    }
  }

  lemma {:induction false} ChangedKeeps(w: World, r: Roster, p: Payload, temp: Buddy, valid: bool, uin: string)
    requires Good(w, r) && temp !in r.created && (valid ==> p.name != "")
    ensures Good(w, BuddyChanged(w, r, p, temp, valid, uin))
  {
    LegacyNameKey(w, r, p.name);
    hide Good, InRoster, SetBuddy, Delete, Create, Edit, InfoAt;
    if w.lower(p.name) in r.buddies {
      var b := r.buddies[w.lower(p.name)];
      EditKeeps(w, r, b, InfoAt(r, b).(alias := p.alias));
      var r1 := if p.alias != "" then SetAlias(r, b, p.alias) else r;
      EditKeeps(w, r1, b, InfoAt(r1, b).(groups := p.groups));
      var r2 := if p.groups != [] then SetGroups(r1, b, p.groups) else r1;
      EditKeeps(w, r2, b, InfoAt(r2, b).(iconHash := p.iconHash));
    } else if p.name != uin {
      var i := Info(-1, p.name, p.alias, p.groups, Ask, "");
      if valid {
        SetBuddyKeeps(w, r, temp, i);
        var r1 := SetBuddy(w, Create(r, temp, i), temp);
        EditKeeps(w, r1, temp, InfoAt(r1, temp).(iconHash := p.iconHash));
      } else {
        TempKeeps(w, r, temp, i);
      }
    }
  }

  lemma {:induction false} UpdatedKeeps(w: World, r: Roster, name: string, alias: string, groups: seq<string>)
    requires Good(w, r)
    ensures Good(w, BuddyUpdated(w, r, name, alias, groups))
  {
    LegacyNameKey(w, r, name);
    hide Good, InRoster, Edit, InfoAt;
    if w.lower(name) in r.buddies {
      var b := r.buddies[w.lower(name)];
      EditKeeps(w, r, b, InfoAt(r, b).(alias := alias));
      var r1 := SetAlias(r, b, alias);
      EditKeeps(w, r1, b, InfoAt(r1, b).(groups := groups));
    }
  }

  lemma {:induction false} PushedKeeps(w: World, r: Roster, name: string)
    requires Good(w, r)
    ensures Good(w, RosterPushed(w, r, name))
  {
    LegacyNameKey(w, r, name);
    hide Good, InRoster, Edit, InfoAt;
    if w.lower(name) in r.buddies {
      var b := r.buddies[w.lower(name)];
      EditKeeps(w, r, b, InfoAt(r, b).(subscription := Both));
    }
  }

  lemma {:induction false} StepKeeps(w: World, r: Roster, e: Event)
    requires Sane(w) && Good(w, r) && Enabled(r, e)
    ensures Good(w, Apply(w, r, e))
  {
    hide Good, HandleSubscription, BuddyChanged, BuddyUpdated, RosterPushed, RemoveBuddy, StoreBuddies;
    match e
    case Presence(node, ptype, temp) => SubscriptionKeeps(w, r, node, ptype, temp);
    case Changed(p, temp, valid, uin) => ChangedKeeps(w, r, p, temp, valid, uin);
    case Edited(name, alias, groups) => UpdatedKeeps(w, r, name, alias, groups);
    case Pushed(name) => PushedKeeps(w, r, name);
    case Removed(name) => RemoveKeeps(w, r, name);
    case Flush(order) => FlushKeeps(w, r, order);
  }

  // ------------------------------------------------------------------- the machine

  lemma {:induction false} RemoveStatus(w: World, r: Roster, removed: string, name: string)
    requires Sane(w) && Placed(w, r)
    ensures Status(w, RemoveBuddy(w, r, removed), name) ==
      if w.lower(removed) == w.lower(name) then Absent else Status(w, r, name)
  {
  }

  lemma {:induction false} EditStatus(w: World, r: Roster, b: Buddy, i: Info, name: string)
    requires Placed(w, r) && InRoster(w, r, b)
    ensures Status(w, Edit(r, b, i), name) ==
      if w.lower(InfoAt(r, b).name) == w.lower(name) then if i.subscription == Ask then Waiting else Mutual
      else Status(w, r, name)
  {
  }

  lemma {:induction false} SetStatus(w: World, r: Roster, b: Buddy, i: Info, name: string)
    requires Placed(w, r) && b !in r.info
    ensures Status(w, SetBuddy(w, Create(r, b, i), b), name) ==
      if w.lower(i.name) == w.lower(name) then if i.subscription == Ask then Waiting else Mutual
      else Status(w, r, name)
  {
  }

  lemma {:induction false} TempStatus(w: World, r: Roster, b: Buddy, i: Info, name: string)
    requires Placed(w, r) && b !in r.info
    ensures Status(w, Delete(Create(r, b, i), b), name) == Status(w, r, name)
  {
  }

  lemma {:induction false} FlushStatus(w: World, r: Roster, q: Roster, name: string)
    requires Placed(w, r) && SameRoster(r, q)
    ensures Status(w, q, name) == Status(w, r, name)
  {
  }

  lemma {:induction false} UnknownStatus(w: World, r: Roster, node: string, ptype: PresenceType, temp: Buddy, name: string)
    requires Placed(w, r) && temp !in r.info && w.lower(node) !in r.buddies && node != ""
    ensures Status(w, HandleSubscription(w, r, node, ptype, temp), name) ==
      if w.lower(node) == w.lower(name) then Machine(Absent, ptype) else Status(w, r, name)
  {
    SetStatus(w, r, temp, Info(-1, node, "", [], Both, ""), name);
    TempStatus(w, r, temp, Info(-1, node, "", [], Both, ""), name);
    hide SetBuddy, Create, Delete, Placed;
  }

  lemma {:induction false} KnownStatus(w: World, r: Roster, node: string, ptype: PresenceType, temp: Buddy, b: Buddy, name: string)
    requires Sane(w) && Placed(w, r) && w.lower(node) in r.buddies && r.buddies[w.lower(node)] == b && InRoster(w, r, b)
    requires InfoAt(r, b).name == LegacyName(w, r, node) && w.lower(LegacyName(w, r, node)) == w.lower(node)
    requires LegacyName(w, r, node) != ""
    ensures Status(w, HandleSubscription(w, r, node, ptype, temp), name) ==
      if w.lower(node) == w.lower(name) then Machine(Status(w, r, name), ptype) else Status(w, r, name)
  {
    hide InRoster, Edit, RemoveBuddy, Placed, LegacyName;
    EditStatus(w, r, b, InfoAt(r, b).(subscription := Both), name);
    RemoveStatus(w, r, LegacyName(w, r, node), name);
  }

  lemma {:induction false} SubscriptionStatus(w: World, r: Roster, node: string, ptype: PresenceType, temp: Buddy, name: string)
    requires Sane(w) && Good(w, r) && temp !in r.created
    ensures Status(w, HandleSubscription(w, r, node, ptype, temp), name) ==
      if w.lower(node) == w.lower(name) && node != "" then Machine(Status(w, r, name), ptype) else Status(w, r, name)
  {
    LegacyNameKey(w, r, node);
    FreshObject(w, r, temp);
    if w.lower(node) in r.buddies {
      assert node != "";
      hide HandleSubscription, LegacyName, InRoster, Placed;
      KnownStatus(w, r, node, ptype, temp, r.buddies[w.lower(node)], name);
    } else if node != "" {
      hide HandleSubscription, Placed;
      UnknownStatus(w, r, node, ptype, temp, name);
    }
  }

  lemma {:induction false} FreshObject(w: World, r: Roster, temp: Buddy)
    requires Good(w, r) && temp !in r.created
    ensures temp !in r.info
  {
  }

  lemma {:induction false} ChangedStatus(w: World, r: Roster, p: Payload, temp: Buddy, valid: bool, uin: string, name: string)
    requires Sane(w) && Good(w, r) && temp !in r.created && (valid ==> p.name != "")
    ensures Status(w, BuddyChanged(w, r, p, temp, valid, uin), name) ==
      Next(w, Status(w, r, name), Changed(p, temp, valid, uin), name)
  {
    LegacyNameKey(w, r, p.name);
    FreshObject(w, r, temp);
    var i := Info(-1, p.name, p.alias, p.groups, Ask, "");
    if w.lower(p.name) in r.buddies {
      KnownChangedStatus(w, r, p, r.buddies[w.lower(p.name)], name);
    } else if p.name != uin && valid {
      SetBuddyKeeps(w, r, temp, i);
      SetStatus(w, r, temp, i, name);
      var r1 := SetBuddy(w, Create(r, temp, i), temp);
      assert InfoAt(r1, temp) == i;
      hide SetBuddy, Create, Edit, Delete, Placed, Queued, Lives, AllBacked, Owned, InsertedOnce, InRoster;
      EditStatus(w, r1, temp, InfoAt(r1, temp).(iconHash := p.iconHash), name);
    } else if p.name != uin {
      TempStatus(w, r, temp, i, name);
    }
  }

  lemma {:induction false} KnownChangedStatus(w: World, r: Roster, p: Payload, b: Buddy, name: string)
    requires Good(w, r) && w.lower(p.name) in r.buddies && r.buddies[w.lower(p.name)] == b && InRoster(w, r, b)
    ensures Status(w, BuddyChanged(w, r, p, b, true, ""), name) == Status(w, r, name)
  {
    var r1 := if p.alias != "" then SetAlias(r, b, p.alias) else r;
    var r2 := if p.groups != [] then SetGroups(r1, b, p.groups) else r1;
    EditKeeps(w, r, b, InfoAt(r, b).(alias := p.alias));
    EditStatus(w, r, b, InfoAt(r, b).(alias := p.alias), name);
    EditKeeps(w, r1, b, InfoAt(r1, b).(groups := p.groups));
    EditStatus(w, r1, b, InfoAt(r1, b).(groups := p.groups), name);
    EditStatus(w, r2, b, InfoAt(r2, b).(iconHash := p.iconHash), name);
  }

  lemma {:induction false} UpdatedStatus(w: World, r: Roster, edited: string, alias: string, groups: seq<string>, name: string)
    requires Good(w, r)
    ensures Status(w, BuddyUpdated(w, r, edited, alias, groups), name) == Status(w, r, name)
  {
    LegacyNameKey(w, r, edited);
    if w.lower(edited) in r.buddies {
      var b := r.buddies[w.lower(edited)];
      EditKeeps(w, r, b, InfoAt(r, b).(alias := alias));
      EditStatus(w, r, b, InfoAt(r, b).(alias := alias), name);
      var r1 := SetAlias(r, b, alias);
      EditStatus(w, r1, b, InfoAt(r1, b).(groups := groups), name);
    }
  }

  lemma {:induction false} PushedStatus(w: World, r: Roster, pushed: string, name: string)
    requires Good(w, r)
    ensures Status(w, RosterPushed(w, r, pushed), name) ==
      if w.lower(pushed) == w.lower(name) && Status(w, r, name) == Waiting then Mutual else Status(w, r, name)
  {
    LegacyNameKey(w, r, pushed);
    if w.lower(pushed) in r.buddies {
      var b := r.buddies[w.lower(pushed)];
      EditStatus(w, r, b, InfoAt(r, b).(subscription := Both), name);
    }
  }

  /** Every event moves every contact as the machine says. */
  lemma {:induction false} StepStanding(w: World, r: Roster, e: Event, name: string)
    requires Sane(w) && Good(w, r) && Enabled(r, e)
    ensures Status(w, Apply(w, r, e), name) == Next(w, Status(w, r, name), e, name)
  {
    match e
    case Presence(node, ptype, temp) => SubscriptionStatus(w, r, node, ptype, temp, name);
    case Changed(p, temp, valid, uin) => ChangedStatus(w, r, p, temp, valid, uin, name);
    case Edited(edited, alias, groups) => UpdatedStatus(w, r, edited, alias, groups, name);
    case Pushed(pushed) => PushedStatus(w, r, pushed, name);
    case Removed(removed) => RemoveStatus(w, r, removed, name);
    case Flush(order) =>
      FlushKeeps(w, r, order);
      FlushStatus(w, r, StoreBuddies(w, r, order), name);
  }

  // -------------------------------------------------------------------------- runs

  /** Over any run: the roster stays sound and each contact stands where the machine,
      fed with the events that concern it, ends. */
  lemma {:induction false} RunKeeps(w: World, r: Roster, es: seq<Event>, q: Roster, name: string)
    requires Sane(w) && Good(w, r) && Reaches(w, r, es, q)
    ensures Good(w, q)
    ensures Status(w, q, name) == NextAll(w, Status(w, r, name), es, name)
    decreases |es|
  {
    hide Good, Status, Apply;
    if es != [] {
      StepKeeps(w, r, es[0]);
      StepStanding(w, r, es[0], name);
      RunKeeps(w, Apply(w, r, es[0]), es[1..], q, name);
    }
  }

  /** The stored buddies fit their rows, under names that differ in more than case. */
  ghost predicate Storable(w: World, t: Tables, infos: seq<Info>) {
    AllUsable(w, infos) && Distinct(w, t, infos)
  }

  ghost predicate AllUsable(w: World, infos: seq<Info>) {
    forall i :: 0 <= i < |infos| ==> w.usable(infos[i].name)
  }

  ghost predicate Distinct(w: World, t: Tables, infos: seq<Info>) {
    t.icons.Keys == t.rows.Keys &&
    (forall i :: 0 <= i < |infos| ==> infos[i].name != "" && Mirrored(infos[i], t)) &&
    (forall i, j :: 0 <= i < j < |infos| ==> w.lower(infos[i].name) != w.lower(infos[j].name)) &&
    forall id :: id in t.rows ==> exists i :: 0 <= i < |infos| && infos[i].id == id
  }

  ghost predicate Loadable(w: World, t: Tables, infos: seq<Info>, objs: seq<Buddy>) {
    |infos| == |objs| && NoDup(objs) && Storable(w, t, infos)
  }

  /** The roster holds exactly the given buddies, each with its own object. */
  ghost predicate Holds(w: World, r: Roster, infos: seq<Info>, objs: seq<Buddy>) {
    |infos| == |objs| &&
    (forall b :: b in r.info ==> b in objs) &&
    (forall k :: k in r.buddies ==> exists i :: 0 <= i < |infos| && HeldAt(w, r, k, infos[i], objs[i])) &&
    forall i :: 0 <= i < |infos| ==> HeldAt(w, r, w.lower(infos[i].name), infos[i], objs[i])
  }

  ghost predicate HeldAt(w: World, r: Roster, k: string, i: Info, b: Buddy) {
    k == w.lower(i.name) && k in r.buddies && r.buddies[k] == b && b in r.info && r.info[b] == i
  }

  lemma {:induction false} HeldOneMore(w: World, r: Roster, j: Info, bj: Buddy, i: Info, b: Buddy)
    requires HeldAt(w, r, w.lower(j.name), j, bj) && b != bj && w.lower(j.name) != w.lower(i.name)
    ensures HeldAt(w, Create(r, b, i).(buddies := r.buddies[w.lower(i.name) := b]), w.lower(j.name), j, bj)
  {
  }

  lemma {:induction false} HoldsOneMore(w: World, r: Roster, infos: seq<Info>, objs: seq<Buddy>, i: Info, b: Buddy)
    requires Holds(w, r, infos, objs) && b !in objs
    requires forall j :: 0 <= j < |infos| ==> w.lower(infos[j].name) != w.lower(i.name)
    ensures Holds(w, Create(r, b, i).(buddies := r.buddies[w.lower(i.name) := b]), infos + [i], objs + [b])
  {
    var q := Create(r, b, i).(buddies := r.buddies[w.lower(i.name) := b]);
    assert HeldAt(w, q, w.lower(i.name), i, b);
    assert q.buddies.Keys == r.buddies.Keys + {w.lower(i.name)} && q.info.Keys == r.info.Keys + {b};
    forall j | 0 <= j < |infos| ensures HeldAt(w, q, w.lower(infos[j].name), infos[j], objs[j]) {
      assert objs[j] in objs;
      HeldOneMore(w, r, infos[j], objs[j], i, b);
    }
    hide HeldAt;
    HoldsFrom(w, r, q, infos, objs, i, b);
  }

  lemma {:induction false} HoldsFrom(w: World, r: Roster, q: Roster, infos: seq<Info>, objs: seq<Buddy>, i: Info, b: Buddy)
    requires Holds(w, r, infos, objs) && HeldAt(w, q, w.lower(i.name), i, b)
    requires q.buddies.Keys == r.buddies.Keys + {w.lower(i.name)} && q.info.Keys == r.info.Keys + {b}
    requires forall j :: 0 <= j < |infos| ==> HeldAt(w, q, w.lower(infos[j].name), infos[j], objs[j])
    ensures Holds(w, q, infos + [i], objs + [b])
  {
    var infos', objs' := infos + [i], objs + [b];
    forall k | k in q.buddies ensures exists j :: 0 <= j < |infos'| && HeldAt(w, q, k, infos'[j], objs'[j]) {
      if k == w.lower(i.name) {
        hide HeldAt, Holds;
        assert HeldAt(w, q, k, infos'[|infos|], objs'[|infos|]);
      } else {
        OtherKey(w, r, infos, objs, k);
        var j :| 0 <= j < |infos| && k == w.lower(infos[j].name);
        hide HeldAt, Holds;
        assert HeldAt(w, q, k, infos'[j], objs'[j]);
      }
    }
    hide HeldAt;
  }

  lemma {:induction false} OtherKey(w: World, r: Roster, infos: seq<Info>, objs: seq<Buddy>, k: string)
    requires Holds(w, r, infos, objs) && k in r.buddies
    ensures exists j :: 0 <= j < |infos| && k == w.lower(infos[j].name)
  {
    var j :| 0 <= j < |infos| && HeldAt(w, r, k, infos[j], objs[j]);
  }

  lemma {:induction false} LoadIs(w: World, t: Tables, infos: seq<Info>, objs: seq<Buddy>)
    requires |infos| == |objs| && NoDup(objs) && AllUsable(w, infos)
    requires forall i, j :: 0 <= i < j < |infos| ==> w.lower(infos[i].name) != w.lower(infos[j].name)
    ensures var r := Load(w, t, infos, objs);
      Holds(w, r, infos, objs) && r.created == objs &&
      r.queue == map[] && r.tables == t && r.deleted == [] && r.inserted == []
    decreases |infos|
  {
    if infos != [] {
      var n := |infos| - 1;
      assert objs == objs[..n] + [objs[n]] && infos == infos[..n] + [infos[n]];
      LoadIs(w, t, infos[..n], objs[..n]);
      HoldsOneMore(w, Load(w, t, infos[..n], objs[..n]), infos[..n], objs[..n], infos[n], objs[n]);
    }
  }

  lemma {:induction false} HeldBacked(w: World, r: Roster, k: string, i: Info, b: Buddy)
    requires HeldAt(w, r, k, i, b) && Mirrored(i, r.tables) && i.name != ""
    ensures b in r.info && r.info[b] == i && w.lower(i.name) == k && Backed(i, r.queue, r.tables)
    ensures r.tables.rows[i.id].uin == i.name && InfoAt(r, b) == i && k in r.buddies && r.buddies[k] == b
  {
  }

  lemma {:induction false} HoldsRoster(w: World, r: Roster, infos: seq<Info>, objs: seq<Buddy>)
    requires Holds(w, r, infos, objs) && Loadable(w, r.tables, infos, objs)
    ensures Placed(w, r) && AllBacked(r)
  {
    forall k | k in r.buddies
      ensures r.buddies[k] in r.info && w.lower(r.info[r.buddies[k]].name) == k && r.info[r.buddies[k]].name != ""
      ensures Backed(r.info[r.buddies[k]], r.queue, r.tables)
    {
      var i :| 0 <= i < |infos| && HeldAt(w, r, k, infos[i], objs[i]);
      assert Mirrored(infos[i], r.tables);
      hide HeldAt, Mirrored, Backed;
      HeldBacked(w, r, k, infos[i], objs[i]);
      assert r.buddies[k] == objs[i];
    }
    hide Holds, Loadable, HeldAt, Mirrored, Backed;
  }

  lemma {:induction false} HoldsRows(w: World, r: Roster, infos: seq<Info>, objs: seq<Buddy>)
    requires Holds(w, r, infos, objs) && Loadable(w, r.tables, infos, objs)
    ensures Owned(w, r)
  {
    forall id | id in r.tables.rows
      ensures id != -1 && w.lower(r.tables.rows[id].uin) in r.buddies
      ensures InfoAt(r, r.buddies[w.lower(r.tables.rows[id].uin)]).id == id
    {
      var i :| 0 <= i < |infos| && infos[i].id == id;
      assert Mirrored(infos[i], r.tables) && id != -1;
      hide Mirrored, HeldAt, Backed;
      HeldBacked(w, r, w.lower(infos[i].name), infos[i], objs[i]);
    }
    hide Holds, HeldAt, Mirrored;
  }

  lemma {:induction false} HoldsLives(w: World, r: Roster, infos: seq<Info>, objs: seq<Buddy>)
    requires Holds(w, r, infos, objs) && r.created == objs && r.deleted == [] && r.inserted == []
    ensures Lives(w, r) && InsertedOnce(r)
  {
    forall b | b in r.created ensures b in r.info && InRoster(w, r, b) {
      var i :| 0 <= i < |objs| && objs[i] == b;
      assert HeldAt(w, r, w.lower(infos[i].name), infos[i], objs[i]);
    }
  }

  lemma {:induction false} LoadGood(w: World, t: Tables, infos: seq<Info>, objs: seq<Buddy>)
    requires Loadable(w, t, infos, objs)
    ensures Good(w, Load(w, t, infos, objs))
  {
    LoadIs(w, t, infos, objs);
    HoldsRoster(w, Load(w, t, infos, objs), infos, objs);
    HoldsRows(w, Load(w, t, infos, objs), infos, objs);
    HoldsLives(w, Load(w, t, infos, objs), infos, objs);
    hide Load, Loadable, Holds, Placed, AllBacked, Owned, Lives, InsertedOnce;
  }

  lemma {:induction false} LoadedNames(w: World, t: Tables, infos: seq<Info>, objs: seq<Buddy>, k: string)
    requires |infos| == |objs| && k in Load(w, t, infos, objs).buddies
    ensures exists i :: 0 <= i < |infos| && w.usable(infos[i].name) && k == w.lower(infos[i].name)
    decreases |infos|
  {
    var n := |infos| - 1;
    if k in Load(w, t, infos[..n], objs[..n]).buddies {
      LoadedNames(w, t, infos[..n], objs[..n], k);
      var i :| 0 <= i < n && w.usable(infos[..n][i].name) && k == w.lower(infos[..n][i].name);
      assert infos[..n][i] == infos[i];
    }
  }

  /** Among rows whose names differ in more than case, a load gives a sound roster exactly when
      every name is usable: the row of another stays and belongs to nobody. */
  lemma {:induction false} LoadGoodIff(w: World, t: Tables, infos: seq<Info>, objs: seq<Buddy>)
    requires |infos| == |objs| && NoDup(objs) && Distinct(w, t, infos)
    ensures Good(w, Load(w, t, infos, objs)) <==> AllUsable(w, infos)
  {
    if AllUsable(w, infos) {
      LoadGood(w, t, infos, objs);
    } else {
      var i :| 0 <= i < |infos| && !w.usable(infos[i].name);
      LoadTables(w, t, infos, objs);
      var r := Load(w, t, infos, objs);
      assert Mirrored(infos[i], t);
      hide Load, Mirrored;
      if w.lower(infos[i].name) in r.buddies {
        LoadedNames(w, t, infos, objs, w.lower(infos[i].name));
        assert false;
      }
      RowOf(infos[i], t);
      assert !Owned(w, r);
    }
  }

  lemma {:induction false} RowOf(i: Info, t: Tables)
    requires Mirrored(i, t)
    ensures i.id in t.rows && t.rows[i.id].uin == i.name
  {
  }

  lemma {:induction false} LoadTables(w: World, t: Tables, infos: seq<Info>, objs: seq<Buddy>)
    requires |infos| == |objs|
    ensures Load(w, t, infos, objs).tables == t
    decreases |infos|
  {
    if infos != [] {
      LoadTables(w, t, infos[..|infos| - 1], objs[..|infos| - 1]);
    }
  }

  /** From a loaded roster, whatever happens, a flush makes the tables equal the roster;
      every object made is in the roster or deleted, once; every insert is of another buddy. */
  lemma {:induction false} FlushedRunMirrors(w: World, t: Tables, infos: seq<Info>, objs: seq<Buddy>, es: seq<Event>, q: Roster, order: seq<string>)
    requires Sane(w) && Loadable(w, t, infos, objs) && Reaches(w, Load(w, t, infos, objs), es, q) && Walk(q.queue, order)
    ensures Mirrors(StoreBuddies(w, q, order)) && SameRoster(q, StoreBuddies(w, q, order))
    ensures Lives(w, q) && InsertedOnce(q)
  {
    LoadGood(w, t, infos, objs);
    RunKeeps(w, Load(w, t, infos, objs), es, q, "");
    FlushMirrors(w, q, order);
  }
}