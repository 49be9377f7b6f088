/** What the roster's operations do to its fields, said without the operations: which object
    changes, which fields of it, what is queued, what goes, and what is answered. */
module RosterEffects {
  import opened Lists
  import opened Wrappers
  import opened RosterModel
  import opened RosterTheorems

  /** The one object b now holds j, and it is queued if that is something new. */
  ghost predicate OnlyBuddy(r: Roster, q: Roster, b: Buddy, j: Info) {
    q.buddies == r.buddies && q.tables == r.tables && q.created == r.created && q.deleted == r.deleted &&
    q.inserted == r.inserted && b in r.info && q.info == r.info[b := j] &&
    q.queue == if j == r.info[b] then r.queue else r.queue[j.name := b]
  }

  lemma {:induction false} EditMeans(r: Roster, b: Buddy, j: Info)
    requires b in r.info && r.info[b].name == j.name && j.name != ""
    ensures OnlyBuddy(r, Edit(r, b, j), b, j)
  {
    if j == r.info[b] { assert r.info[b := j] == r.info; }
  }

  lemma {:induction false} ThenEdit(r: Roster, q: Roster, s: Roster, b: Buddy, j: Info, k: Info)
    requires OnlyBuddy(r, q, b, j) && OnlyBuddy(q, s, b, k) && k.name == j.name
    requires b in r.info && k == r.info[b] ==> j == k
    ensures OnlyBuddy(r, s, b, k)
  {
    assert r.info[b := j][b := k] == r.info[b := k];
    assert r.queue[j.name := b][k.name := b] == r.queue[j.name := b];
  }

  // ----------------------------------------------------------------- reported buddies

  /** A buddy of the roster that a backend reports: an empty alias and empty groups leave the
      old ones, the icon hash is taken as it is, the subscription and the row stay. */
  lemma {:induction false} ChangedMeans(w: World, r: Roster, p: Payload, b: Buddy, temp: Buddy, valid: bool, uin: string)
    requires Good(w, r) && w.lower(p.name) in r.buddies && r.buddies[w.lower(p.name)] == b
    ensures b in r.info
    ensures var i := r.info[b];
      OnlyBuddy(r, BuddyChanged(w, r, p, temp, valid, uin), b,
                Info(i.id, i.name, if p.alias == "" then i.alias else p.alias, if p.groups == [] then i.groups else p.groups,
                     i.subscription, p.iconHash))
  {
    LegacyNameKey(w, r, p.name);
    assert b in r.info && r.info[b].name != "";
    hide Good, InRoster, Edit, OnlyBuddy;
    ThreeEdits(r, b, p.alias, p.groups, p.iconHash);
  }

  lemma {:induction false} ThreeEdits(r: Roster, b: Buddy, alias: string, groups: seq<string>, iconHash: string)
    requires b in r.info && r.info[b].name != ""
    ensures var r1 := if alias != "" then SetAlias(r, b, alias) else r;
      var r2 := if groups != [] then SetGroups(r1, b, groups) else r1;
      var i := r.info[b];
      OnlyBuddy(r, SetIconHash(r2, b, iconHash), b,
                Info(i.id, i.name, if alias == "" then i.alias else alias, if groups == [] then i.groups else groups,
                     i.subscription, iconHash))
  {
    var i := r.info[b];
    var r1 := if alias != "" then SetAlias(r, b, alias) else r;
    var i1 := if alias == "" then i else i.(alias := alias);
    EditMeans(r, b, i1);
    assert OnlyBuddy(r, r1, b, i1);
    assert r1.info[b] == i1;
    var r2 := if groups != [] then SetGroups(r1, b, groups) else r1;
    var i2 := if groups == [] then i1 else i1.(groups := groups);
    EditMeans(r1, b, i2);
    ThenEdit(r, r1, r2, b, i1, i2);
    assert r2.info[b] == i2;
    hide Edit, OnlyBuddy;
    EditMeans(r2, b, i2.(iconHash := iconHash));
    ThenEdit(r, r2, SetIconHash(r2, b, iconHash), b, i2, i2.(iconHash := iconHash));
  }

  /** b enters the roster with the fields j, queued, and nothing is written. */
  ghost predicate Enters(w: World, r: Roster, q: Roster, b: Buddy, j: Info) {
    q.buddies == r.buddies[w.lower(j.name) := b] && q.queue == r.queue[j.name := b] && q.info == r.info[b := j] &&
    q.created == r.created + [b] && q.tables == r.tables && q.deleted == r.deleted && q.inserted == r.inserted
  }

  /** b was made and deleted. */
  ghost predicate MadeAndGone(r: Roster, q: Roster, b: Buddy) {
    q.buddies == r.buddies && q.queue == r.queue && q.tables == r.tables && q.inserted == r.inserted &&
    q.created == r.created + [b] && q.deleted == r.deleted + [b] && q.info == r.info[b := InfoAt(q, b)]
  }

  /** A reported buddy that the roster does not know: ignored under the user's own name, given
      up when its JID is not usable, and otherwise asked for and queued with all its fields. */
  lemma {:induction false} ReportedMeans(w: World, r: Roster, p: Payload, temp: Buddy, valid: bool, uin: string)
    requires w.lower(p.name) !in r.buddies && (valid ==> p.name != "")
    ensures var q := BuddyChanged(w, r, p, temp, valid, uin);
      if p.name == uin then q == r
      else if valid then Enters(w, r, q, temp, Info(-1, p.name, p.alias, p.groups, Ask, p.iconHash))
      else MadeAndGone(r, q, temp)
  {
    if p.name != uin && valid {
      var i := Info(-1, p.name, p.alias, p.groups, Ask, "");
      var r1 := SetBuddy(w, Create(r, temp, i), temp);
      assert Enters(w, r, r1, temp, i);
      EditMeans(r1, temp, i.(iconHash := p.iconHash));
      assert r.info[temp := i][temp := i.(iconHash := p.iconHash)] == r.info[temp := i.(iconHash := p.iconHash)];
    }
  }

  // ------------------------------------------------------------------------- edits

  /** The client's edit sets alias and groups, empty ones too. */
  lemma {:induction false} UpdatedMeans(w: World, r: Roster, name: string, alias: string, groups: seq<string>)
    requires Good(w, r)
    ensures w.lower(name) !in r.buddies ==> BuddyUpdated(w, r, name, alias, groups) == r
    ensures w.lower(name) in r.buddies ==>
      var b := r.buddies[w.lower(name)];
      OnlyBuddy(r, BuddyUpdated(w, r, name, alias, groups), b, InfoAt(r, b).(alias := alias, groups := groups))
  {
    if w.lower(name) in r.buddies {
      var b := r.buddies[w.lower(name)];
      assert b in r.info && r.info[b].name != "";
      hide Good, Edit;
      var i := r.info[b].(alias := alias);
      EditMeans(r, b, i);
      EditMeans(SetAlias(r, b, alias), b, i.(groups := groups));
      ThenEdit(r, SetAlias(r, b, alias), BuddyUpdated(w, r, name, alias, groups), b, i, i.(groups := groups));
    }
  }

  /** A push makes the buddy mutual and touches no other field. */
  lemma {:induction false} PushedMeans(w: World, r: Roster, name: string)
    requires Good(w, r)
    ensures w.lower(name) !in r.buddies ==> RosterPushed(w, r, name) == r
    ensures w.lower(name) in r.buddies ==>
      var b := r.buddies[w.lower(name)];
      OnlyBuddy(r, RosterPushed(w, r, name), b, InfoAt(r, b).(subscription := Both))
  {
    if w.lower(name) in r.buddies {
      var b := r.buddies[w.lower(name)];
      assert b in r.info && r.info[b].name != "";
      EditMeans(r, b, r.info[b].(subscription := Both));
    }
  }

  // ---------------------------------------------------------------------- removal

  /** b leaves the roster and the queue and is deleted, and its row goes if it has one. */
  ghost predicate Leaves(w: World, r: Roster, q: Roster, b: Buddy) {
    var i := InfoAt(r, b);
    q.buddies == r.buddies - {w.lower(i.name)} && q.queue == r.queue - {i.name} && q.deleted == r.deleted + [b] &&
    (forall id :: id in q.tables.rows <==> id in r.tables.rows && id != i.id) &&
    (forall id :: id in q.tables.icons <==> id in r.tables.icons && id != i.id) &&
    (forall id :: id in q.tables.rows ==> q.tables.rows[id] == r.tables.rows[id]) &&
    (forall id :: id in q.tables.icons ==> q.tables.icons[id] == r.tables.icons[id]) &&
    q.info == r.info && q.created == r.created && q.inserted == r.inserted
  }

  lemma {:induction false} RemovedMeans(w: World, r: Roster, name: string)
    requires Sane(w) && Good(w, r)
    ensures w.lower(name) !in r.buddies ==> RemoveBuddy(w, r, name) == r
    ensures w.lower(name) in r.buddies ==> Leaves(w, r, RemoveBuddy(w, r, name), r.buddies[w.lower(name)])
  {
    assert w.lower(w.lower(name)) == w.lower(name);
    assert -1 !in r.tables.rows && -1 !in r.tables.icons;
  }

  // ----------------------------------------------------------------- subscriptions

  /** A subscription presence of each type, for a contact the roster knows and one it does not. */
  lemma {:induction false} SubscriptionMeans(w: World, r: Roster, node: string, ptype: PresenceType, temp: Buddy)
    requires Sane(w) && Good(w, r) && node != ""
    ensures var q := HandleSubscription(w, r, node, ptype, temp);
      if w.lower(node) !in r.buddies then
        if ptype.Subscribe? || ptype.Subscribed? then Enters(w, r, q, temp, Info(-1, node, "", [], Both, ""))
        else MadeAndGone(r, q, temp)
      else
        var b := r.buddies[w.lower(node)];
        match ptype
        case Subscribe => OnlyBuddy(r, q, b, InfoAt(r, b).(subscription := Both))
        case Subscribed => OnlyBuddy(r, q, b, InfoAt(r, b).(subscription := Both))
        case Unsubscribe => Leaves(w, r, q, b)
        case Unsubscribed => if InfoAt(r, b).subscription == Ask then Leaves(w, r, q, b) else q == r
        case Available => q == r
        case Unavailable => q == r
        case Error => q == r
        case Probe => q == r
  {
    LegacyNameKey(w, r, node);
    if w.lower(node) in r.buddies {
      KnownMeans(w, r, node, ptype, temp, r.buddies[w.lower(node)]);
    } else {
      hide Good, Sane;
    }
  }

  lemma {:induction false} KnownMeans(w: World, r: Roster, node: string, ptype: PresenceType, temp: Buddy, b: Buddy)
    requires Sane(w) && Good(w, r) && w.lower(node) in r.buddies && r.buddies[w.lower(node)] == b
    ensures var q := HandleSubscription(w, r, node, ptype, temp);
      match ptype
      case Subscribe | Subscribed => OnlyBuddy(r, q, b, InfoAt(r, b).(subscription := Both))
      case Unsubscribe => Leaves(w, r, q, b)
      case Unsubscribed => if InfoAt(r, b).subscription == Ask then Leaves(w, r, q, b) else q == r
      case _ => q == r
  {
    LegacyNameKey(w, r, node);
    RemovedMeans(w, r, LegacyName(w, r, node));
    assert b in r.info && r.info[b].name != "" && InfoAt(r, b).name == LegacyName(w, r, node);
    hide Good, Sane, InRoster, Edit, RemoveBuddy, Leaves, OnlyBuddy;
    EditMeans(r, b, InfoAt(r, b).(subscription := Both));
  }

  /** A presence without a node changes and answers nothing. */
  lemma {:induction false} NamelessMeans(w: World, r: Roster, ptype: PresenceType, temp: Buddy)
    requires Sane(w) && Good(w, r)
    ensures HandleSubscription(w, r, "", ptype, temp) == r && Replies(w, r, "", ptype) == []
  {
    LegacyNameKey(w, r, "");
  }

  /** A request and its end are answered and then asked back, in that order; the contact's own
      end is asked back exactly when the contact had not agreed yet. */
  lemma {:induction false} AnswersMean(w: World, r: Roster, node: string, ptype: PresenceType)
    requires Sane(w) && Good(w, r) && node != ""
    ensures var rs := Replies(w, r, node, ptype);
      (ptype == Subscribe ==> rs == [Subscribed, Subscribe]) &&
      (ptype == Unsubscribe ==> rs == [Unsubscribed, Unsubscribe]) &&
      (ptype == Unsubscribed ==>
        rs == if w.lower(node) in r.buddies && InfoAt(r, r.buddies[w.lower(node)]).subscription == Ask then [Unsubscribe] else []) &&
      (ptype !in {Subscribe, Unsubscribe, Unsubscribed} ==> rs == [])
  {
    LegacyNameKey(w, r, node);
    hide Good;
  }

  // ---------------------------------------------------------------------- loading

  lemma {:induction false} LoadStep(w: World, t: Tables, infos: seq<Info>, objs: seq<Buddy>)
    requires |infos| == |objs| > 0
    ensures var n := |infos| - 1;
      Load(w, t, infos, objs) ==
        LoadOne(w, Create(Load(w, t, infos[..n], objs[..n]), objs[n], infos[n]), infos[n].name, objs[n])
  {
  }

  /** After a load: an object for each row, the tables untouched, nothing queued or inserted. */
  lemma {:induction false} LoadMeans(w: World, t: Tables, infos: seq<Info>, objs: seq<Buddy>)
    requires |infos| == |objs|
    ensures var r := Load(w, t, infos, objs);
      r.created == objs && r.tables == t && r.queue == map[] && r.inserted == [] &&
      (forall b :: b in r.info <==> b in objs) && forall b :: b in r.deleted ==> b in objs
    decreases |infos|
  {
    if infos != [] {
      var n := |infos| - 1;
      LoadMeans(w, t, infos[..n], objs[..n]);
      LoadStep(w, t, infos, objs);
      assert objs == objs[..n] + [objs[n]];
      hide Load;
    }
  }

  /** Object i carries row i, and is deleted exactly when the name is not usable. */
  lemma {:induction false} LoadedObject(w: World, t: Tables, infos: seq<Info>, objs: seq<Buddy>, i: nat)
    requires |infos| == |objs| && NoDup(objs) && i < |infos|
    ensures var r := Load(w, t, infos, objs);
      objs[i] in r.info && r.info[objs[i]] == infos[i] && (objs[i] in r.deleted <==> !w.usable(infos[i].name))
    decreases |infos|
  {
    var n := |infos| - 1;
    LoadStep(w, t, infos, objs);
    hide Load;
    LoadMeans(w, t, infos[..n], objs[..n]);
    if i < n {
      LoadedObject(w, t, infos[..n], objs[..n], i);
    } else {
      assert objs[n] !in objs[..n];
    }
  }

  /** A usable name lies under its lower-case form, the last row winning. */
  lemma {:induction false} LoadedUnder(w: World, t: Tables, infos: seq<Info>, objs: seq<Buddy>, i: nat)
    requires |infos| == |objs| && i < |infos| && w.usable(infos[i].name)
    requires forall j :: i < j < |infos| && w.usable(infos[j].name) ==> w.lower(infos[j].name) != w.lower(infos[i].name)
    ensures var r := Load(w, t, infos, objs);
      w.lower(infos[i].name) in r.buddies && r.buddies[w.lower(infos[i].name)] == objs[i]
    decreases |infos|
  {
    var n := |infos| - 1;
    LoadStep(w, t, infos, objs);
    hide Load;
    if i < n {
      LoadedUnder(w, t, infos[..n], objs[..n], i);
    }
  }
}
