/** The roster in place.  The manager's map of buddies and its RosterStorage's queue are fields
    of one object here; each method performs one operation of RosterModel. */
module RosterManager {
  import opened Lists
  import opened Wrappers
  import M = RosterModel
  import T = RosterTheorems
  type Buddy = M.Buddy

  class RosterManager {
    const w: M.World
    var buddies: map<string, Buddy>
    var queue: map<string, Buddy>
    var tables: M.Tables
    ghost var created: seq<Buddy>
    ghost var deleted: seq<Buddy>
    ghost var inserted: seq<Buddy>

    ghost function Infos(): map<Buddy, M.Info>
      reads created, this`created
    {
      map b | b in created :: b.info
    }

    ghost function Abs(): M.Roster
      reads this, created
    {
      M.Roster(buddies, queue, Infos(), tables, created, deleted, inserted)
    }

    /** An empty roster on empty tables. */
    constructor (w: M.World)
      ensures T.Good(w, Abs()) && this.w == w && Abs() == M.Load(w, M.Tables(map[], map[]), [], [])
    {
      this.w := w;
      buddies, queue, tables := map[], map[], M.Tables(map[], map[]);
      created, deleted, inserted := [], [], [];
      new;
      T.LoadGood(w, M.Tables(map[], map[]), [], []);
      assert Infos() == map[];
    }

    twostate lemma {:induction false} WroteInfo(b: Buddy)
      requires created == old(created) && b in created
      requires forall c :: c in created && c != b ==> c.info == old(c.info)
      ensures Infos() == old(Infos())[b := b.info]
    {
    }

    /** RosterStorage::storeBuddy. */
    method StoreBuddy(b: Buddy)
      requires b in created
      modifies this`queue
      ensures Abs() == M.StoreBuddy(old(Abs()), b)
    {
      if b.info.name == "" {
        return;
      }
      queue := queue[b.info.name := b];
    }

    /** LocalBuddy::setAlias. */
    method SetAlias(b: Buddy, alias: string)
      requires b in created
      modifies this`queue, b
      ensures Abs() == M.SetAlias(old(Abs()), b, alias)
    {
      var changed := b.info.alias != alias;
      b.info := b.info.(alias := alias);
      WroteInfo(b);
      if changed {
        StoreBuddy(b);
      }
    }

    /** LocalBuddy::setGroups: sizes first, then group by group. */
    method SetGroups(b: Buddy, groups: seq<string>)
      requires b in created
      modifies this`queue, b
      ensures Abs() == M.SetGroups(old(Abs()), b, groups)
    {
      var changed := |b.info.groups| != |groups|;
      if !changed {
        for i := 0 to |groups|
          invariant !changed && forall j :: 0 <= j < i ==> b.info.groups[j] == groups[j]
        {
          if b.info.groups[i] != groups[i] {
            changed := true;
            break;
          }
        }
      }
      assert changed == (b.info.groups != groups);
      b.info := b.info.(groups := groups);
      WroteInfo(b);
      if changed {
        StoreBuddy(b);
      }
    }

    /** LocalBuddy::setIconHash. */
    method SetIconHash(b: Buddy, iconHash: string)
      requires b in created
      modifies this`queue, b
      ensures Abs() == M.SetIconHash(old(Abs()), b, iconHash)
    {
      var changed := b.info.iconHash != iconHash;
      b.info := b.info.(iconHash := iconHash);
      WroteInfo(b);
      if changed {
        StoreBuddy(b);
      }
    }

    /** The body of the storeBuddies loop. */
    method StoreOne(b: Buddy)
      requires b in created
      modifies this`tables, this`inserted, b
      ensures Abs() == M.StoreOne(w, old(Abs()), b)
    {
      if b.info.id != -1 {
        tables := M.UpdateBuddy(tables, b.info);
      } else {
        var id := w.newId(tables.rows);
        tables := M.AddBuddy(tables, b.info, id);
        b.info := b.info.(id := id);
        inserted := inserted + [b];
        WroteInfo(b);
      }
    }

    /** The loop of storeBuddies. */
    method StoreWalk(order: seq<string>)
      requires forall n :: n in order ==> n in queue && queue[n] in created
      modifies this`tables, this`inserted, created
      ensures queue == old(queue) && created == old(created)
      ensures Abs() == M.StoreAll(w, old(Abs()), M.Walked(old(queue), order))
    {
      ghost var r := Abs();
      ghost var bs := M.Walked(queue, order);
      assert bs[0..] == bs;
      hide Abs, M.StoreOne;
      for j := 0 to |order|
        invariant queue == r.queue && created == r.created
        invariant M.StoreAll(w, Abs(), bs[j..]) == M.StoreAll(w, r, bs)
      {
        assert order[j] in order;
        assert bs[j..][0] == queue[order[j]] && bs[j..][1..] == bs[j + 1..];
        StoreOne(queue[order[j]]);
      }
    }

    /** RosterStorage::storeBuddies; order is the order in which the queue is walked. */
    method StoreBuddies(order: seq<string>) returns (stored: bool)
      requires M.Sane(w) && T.Good(w, Abs()) && M.Walk(queue, order)
      modifies this, created
      ensures T.Good(w, Abs()) && T.Mirrors(Abs())
      ensures Abs() == M.StoreBuddies(w, old(Abs()), order) && stored == (old(queue) != map[])
    {
      T.FlushMirrors(w, Abs(), order);
      T.FlushKeeps(w, Abs(), order);
      AllCreated();
      hide T.Good, T.Mirrors, M.Sane;
      stored := Flush(order);
    }

    method Flush(order: seq<string>) returns (stored: bool)
      requires M.Walk(queue, order) && forall n :: n in queue ==> queue[n] in created
      modifies this, created
      ensures Abs() == M.StoreBuddies(w, old(Abs()), order) && stored == (old(queue) != map[])
    {
      if |queue| == 0 {
        M.NothingToWalk(queue, order);
        return false;
      }
      StoreWalk(order);
      hide Infos;
      queue := map[];
      stored := true;
    }

    lemma {:induction false} AllCreated()
      requires T.Good(w, Abs())
      ensures forall n :: n in queue ==> queue[n] in created
    {
    }

    /** RosterManager::setBuddy. */
    method SetBuddy(b: Buddy)
      requires b in created
      modifies this`buddies, this`queue
      ensures Abs() == M.SetBuddy(w, old(Abs()), b)
    {
      var name := w.lower(b.info.name);
      buddies := buddies[name := b];
      StoreBuddy(b);
    }

    /** RosterManager::getBuddy. */
    function GetBuddy(name: string): M.Buddy?
      reads this
    {
      if w.lower(name) in buddies then buddies[w.lower(name)] else null
    }

    /** The three places a known buddy leaves. */
    method Forget(b: Buddy, key: string)
      requires key in buddies && buddies[key] == b && b in created && w.lower(b.info.name) == key
      modifies this
      ensures created == old(created)
      ensures forall name :: w.lower(w.lower(name)) == key ==> Abs() == M.RemoveBuddy(w, old(Abs()), name)
    {
      hide Infos, M.Sane;
      InfoIs(b);
      var i := b.info;
      if i.id != -1 {
        tables := M.DeleteBuddy(tables, i.id);
      }
      buddies := buddies - {w.lower(i.name)};
      queue := queue - {i.name};
      deleted := deleted + [b];
    }

    /** RosterManager::removeBuddy with RosterStorage::removeBuddy and unsetBuddy. */
    method RemoveBuddy(name: string)
      requires T.Good(w, Abs())
      modifies this
      ensures T.Good(w, Abs()) && Abs() == M.RemoveBuddy(w, old(Abs()), name) && created == old(created)
    {
      T.RemoveKeeps(w, Abs(), name);
      hide T.Good, Infos;
      var key := w.lower(name);
      var b := GetBuddy(key);
      if b == null {
        return;
      }
      InCreated(w.lower(key));
      Forget(b, w.lower(key));
    }

    lemma {:induction false} InfoIs(b: Buddy)
      requires b in created
      ensures M.InfoAt(Abs(), b) == b.info
    {
    }

    lemma {:induction false} InCreated(key: string)
      requires T.Good(w, Abs()) && key in buddies
      ensures buddies[key] in created && w.lower(buddies[key].info.name) == key && buddies[key].info.name != ""
    {
    }

    /** The object that stands for an unknown contact until its fate is known. */
    method CreateBuddy(i: M.Info) returns (b: Buddy)
      modifies this`created
      ensures fresh(b) && created == old(created) + [b] && Abs() == M.Create(old(Abs()), b, i)
    {
      b := new M.Buddy(i);
      created := created + [b];
      assert Infos() == old(Infos())[b := i];
    }

    /** A subscription presence from an unknown contact. */
    method HandleUnknown(legacyName: string, ptype: PresenceType) returns (response: PresenceType, ghost temp: Buddy)
      requires legacyName != "" && w.lower(legacyName) !in buddies
      modifies this
      ensures fresh(temp)
      ensures Abs() == M.HandleSubscription(w, old(Abs()), legacyName, ptype, temp)
      ensures response == if ptype == Subscribe then Subscribed else if ptype == Unsubscribe then Unsubscribed else Unavailable
    {
      hide Infos;
      response := Unavailable;
      var made := CreateBuddy(M.Info(-1, legacyName, "", [], M.Both, ""));
      temp := made;
      match ptype {
        case Subscribe | Subscribed =>
          SetBuddy(made);
          if ptype == Subscribe { response := Subscribed; }
        case _ =>
          if ptype == Unsubscribe { response := Unsubscribed; }
          deleted := deleted + [made];
      }
    }

    /** A subscription presence from a contact in the roster. */
    method HandleKnown(b: Buddy, ptype: PresenceType) returns (response: PresenceType)
      requires b in created && w.lower(b.info.name) in buddies && buddies[w.lower(b.info.name)] == b
      requires b.info.name != "" && M.Sane(w)
      modifies this, b
      ensures forall any :: Abs() == M.HandleSubscription(w, old(Abs()), old(b.info.name), ptype, any)
      ensures response ==
        match ptype
        case Subscribe => Subscribed
        case Unsubscribe => Unsubscribed
        case Unsubscribed => if old(b.info.subscription) == M.Ask then Unsubscribe else Unavailable
        case _ => Unavailable
    {
      InfoIs(b);
      hide Infos, M.RemoveBuddy;
      response := Unavailable;
      match ptype {
        case Subscribe | Subscribed =>
          if b.info.subscription != M.Both {
            b.info := b.info.(subscription := M.Both);
            WroteInfo(b);
            StoreBuddy(b);
          }
          if ptype == Subscribe { response := Subscribed; }
        case Unsubscribe =>
          Forget(b, w.lower(b.info.name));
          response := Unsubscribed;
        case Unsubscribed =>
          if b.info.subscription == M.Ask {
            Forget(b, w.lower(b.info.name));
            response := Unsubscribe;
          }
        case _ =>
      }
    }

    /** RosterManager::handleSubscription in gateway mode; temp is the object it makes for
        an unknown contact, and replies are the presences it sends back. */
    method HandleSubscription(node: string, ptype: PresenceType, ghost any: Buddy)
      returns (replies: seq<PresenceType>, ghost temp: Buddy)
      requires M.Sane(w) && T.Good(w, Abs()) && any !in created
      modifies this, created
      ensures T.Good(w, Abs()) && (temp == any || fresh(temp))
      ensures Abs() == M.HandleSubscription(w, old(Abs()), node, ptype, temp)
      ensures replies == M.Replies(w, old(Abs()), node, ptype)
    {
      hide M.HandleSubscription, M.Replies, M.Sane, T.Good;
      ghost var r := Abs();
      replies, temp := Answer(node, ptype, any);
      T.SubscriptionKeeps(w, r, node, ptype, temp);
    }

    method Answer(node: string, ptype: PresenceType, ghost any: Buddy)
      returns (replies: seq<PresenceType>, ghost temp: Buddy)
      requires M.Sane(w) && T.Good(w, Abs())
      modifies this, created
      ensures temp == any || fresh(temp)
      ensures Abs() == M.HandleSubscription(w, old(Abs()), node, ptype, temp)
      ensures replies == M.Replies(w, old(Abs()), node, ptype)
    {
      ghost var r := Abs();
      temp := any;
      replies := [];
      hide T.Good, T.InRoster, Infos, M.HandleSubscription;
      T.LegacyNameKey(w, r, node);
      var known := GetBuddy(node);
      var legacyName := node;
      if known != null {
        InCreated(w.lower(node));
        InfoIs(known);
        legacyName := known.info.name;
      }
      if legacyName == "" {
        M.NamelessIgnored(w, r, node, ptype, any);
        return;
      }
      M.SameContact(w, r, node, legacyName, ptype);
      var response;
      var b := GetBuddy(legacyName);
      if b == null {
        response, temp := HandleUnknown(legacyName, ptype);
      } else {
        response := HandleKnown(b, ptype);
      }
      if response != Unavailable {
        replies := replies + [response];
      }
      match response {
        case Unsubscribed => replies := replies + [Unsubscribe];
        case Subscribed => replies := replies + [Subscribe];
        case _ =>
      }
    }

    /** NetworkPluginServer::handleBuddyPayload. */
    method HandleBuddyPayload(b: Buddy, p: M.Payload)
      requires b in created && w.lower(p.name) in buddies && buddies[w.lower(p.name)] == b
      modifies this`queue, b
      ensures forall temp, valid, uin :: Abs() == M.BuddyChanged(w, old(Abs()), p, temp, valid, uin)
    {
      hide Infos, M.SetAlias, M.SetGroups, M.SetIconHash;
      if p.alias != "" {
        SetAlias(b, p.alias);
      }
      if p.groups != [] {
        SetGroups(b, p.groups);
      }
      SetIconHash(b, p.iconHash);
    }

    /** NetworkPluginServer::handleBuddyChangedPayload. */
    method HandleBuddyChanged(p: M.Payload, valid: bool, uin: string, ghost any: Buddy) returns (ghost temp: Buddy)
      requires T.Good(w, Abs()) && (valid ==> p.name != "") && any !in created
      modifies this, created
      ensures T.Good(w, Abs()) && (temp == any || fresh(temp))
      ensures Abs() == M.BuddyChanged(w, old(Abs()), p, temp, valid, uin)
    {
      ghost var r := Abs();
      temp := any;
      var b := GetBuddy(p.name);
      if b != null {
        InCreated(w.lower(p.name));
        T.ChangedKeeps(w, r, p, any, valid, uin);
        hide *;
        HandleBuddyPayload(b, p);
      } else if p.name != uin {
        hide T.Good, Infos, M.BuddyChanged;
        temp := HandleNewBuddy(p, valid, uin);
        T.ChangedKeeps(w, r, p, temp, valid, uin);
      }
    }

    /** A backend's buddy that the roster does not know. */
    method HandleNewBuddy(p: M.Payload, valid: bool, uin: string) returns (ghost temp: Buddy)
      requires w.lower(p.name) !in buddies && p.name != uin
      modifies this
      ensures fresh(temp) && Abs() == M.BuddyChanged(w, old(Abs()), p, temp, valid, uin)
    {
      hide Infos;
      var made := CreateBuddy(M.Info(-1, p.name, p.alias, p.groups, M.Ask, ""));
      temp := made;
      if !valid {
        deleted := deleted + [made];
        return;
      }
      SetBuddy(made);
      SetIconHash(made, p.iconHash);
    }

    /** NetworkPluginServer::handleBuddyUpdated, for a buddy of the roster. */
    method HandleBuddyUpdated(b: Buddy, ghost name: string, alias: string, groups: seq<string>)
      requires T.Good(w, Abs()) && w.lower(name) in buddies && buddies[w.lower(name)] == b
      modifies this`queue, b
      ensures T.Good(w, Abs()) && Abs() == M.BuddyUpdated(w, old(Abs()), name, alias, groups)
    {
      InCreated(w.lower(name));
      T.UpdatedKeeps(w, Abs(), name, alias, groups);
      hide T.Good, Infos, M.SetAlias, M.SetGroups;
      SetAlias(b, alias);
      SetGroups(b, groups);
    }

    /** The end of XMPPRosterManager::sendBuddyRosterPush. */
    method SendBuddyRosterPush(b: Buddy, ghost name: string)
      requires T.Good(w, Abs()) && w.lower(name) in buddies && buddies[w.lower(name)] == b
      modifies this`queue, b
      ensures T.Good(w, Abs()) && Abs() == M.RosterPushed(w, old(Abs()), name)
    {
      InCreated(w.lower(name));
      InfoIs(b);
      T.PushedKeeps(w, Abs(), name);
      hide T.Good, Infos;
      if b.info.subscription != M.Both {
        b.info := b.info.(subscription := M.Both);
        WroteInfo(b);
        StoreBuddy(b);
      }
    }

    /** RosterManager::setStorageBackend: one buddy per stored row, before any other. */
    method SetStorageBackend(stored: M.Tables, infos: seq<M.Info>)
      requires Abs() == M.Load(w, M.Tables(map[], map[]), [], [])
      modifies this
      ensures |created| == |infos| && Abs() == M.Load(w, stored, infos, created)
      ensures T.Storable(w, stored, infos) ==> T.Good(w, Abs())
    {
      LoadRows(stored, infos);
      hide M.Load, T.Good, T.Storable;
      if T.Storable(w, stored, infos) {
        T.LoadGood(w, stored, infos, created);
      }
    }

    method LoadRows(stored: M.Tables, infos: seq<M.Info>)
      requires Abs() == M.Load(w, M.Tables(map[], map[]), [], [])
      modifies this
      ensures |created| == |infos| && NoDup(created) && Abs() == M.Load(w, stored, infos, created)
    {
      StartLoad(stored);
      assert infos[..0] == [];
      hide Infos, M.Load, NoDup, Abs;
      for n := 0 to |infos|
        invariant |created| == n && NoDup(created)
        invariant Abs() == M.Load(w, stored, infos[..n], created)
      {
        LoadRow(stored, infos, n);
      }
      assert infos[..|infos|] == infos;
    }

    method StartLoad(stored: M.Tables)
      requires Abs() == M.Load(w, M.Tables(map[], map[]), [], [])
      modifies this`tables
      ensures created == [] && NoDup(created) && Abs() == M.Load(w, stored, [], created)
    {
      tables := stored;
    }

    method LoadRow(stored: M.Tables, infos: seq<M.Info>, n: nat)
      requires n < |infos| && |created| == n && NoDup(created)
      requires Abs() == M.Load(w, stored, infos[..n], created)
      modifies this
      ensures |created| == n + 1 && NoDup(created)
      ensures Abs() == M.Load(w, stored, infos[..n + 1], created)
    {
      ghost var objs := created;
      hide Infos, NoDup;
      var b := CreateBuddy(infos[n]);
      M.LoadNext(w, stored, infos, objs, b);
      NoDupAppend(objs, b);
      hide M.Load;
      LoadOne(infos[n].name, b);
    }

    method LoadOne(name: string, b: Buddy)
      modifies this`buddies, this`deleted
      ensures Abs() == M.LoadOne(w, old(Abs()), name, b)
    {
      hide Infos;
      if w.usable(name) {
        buddies := buddies[w.lower(name) := b];
      } else {
        deleted := deleted + [b];
      }
    }
  }
}
