/** The presences each user's clients last sent to the gateway: a map from bare JID to a map
    from JID to presence, which also keeps some unavailable entries. */
module PresenceOracle {
  import opened Wrappers

  datatype JID = JID(node: string, domain: string, resource: Option<string>) {
    predicate IsBare() { resource.None? }
    function ToBare(): JID { JID(node, domain, None) }
  }

  datatype Presence = Presence(ptype: PresenceType, from: JID, to: JID, priority: int, availability: int, status: string)

  type PresenceMap = map<JID, Presence>

  datatype Event = Incoming(p: Presence) | Cleared(bareJID: JID) | ChannelAvailable(available: bool)

  function At(entries: map<JID, PresenceMap>, bareJID: JID): PresenceMap {
    if bareJID in entries then entries[bareJID] else map[]
  }

  /** Presences about a contact, and subscription requests and grants, pass by. */
  predicate Heeded(p: Presence) {
    p.to.node == "" && p.ptype != Subscribe && p.ptype != Subscribed
  }

  /** An end of a subscription stands for the bare JID going offline. */
  function Passed(p: Presence): Presence {
    if p.ptype == Unsubscribe || p.ptype == Unsubscribed
    then Presence(Unavailable, p.from.ToBare(), JID("", "", None), 0, 0, p.status)
    else p
  }

  /** What the method below leaves under the sender's bare JID. */
  function Updated(before: PresenceMap, p: Presence): PresenceMap {
    var passed := Passed(p);
    var m :=
      if passed.from.IsBare() && p.ptype == Unavailable then map[]
      else if passed.ptype == Available then before - {p.from.ToBare()}
      else before;
    if passed.ptype == Unavailable && |m| > 1 then m - {passed.from} else m[passed.from := passed]
  }

  function Apply(entries: map<JID, PresenceMap>, e: Event): map<JID, PresenceMap> {
    match e
    case Incoming(p) =>
      if !Heeded(p) then entries
      else var bareJID := p.from.ToBare(); entries[bareJID := Updated(At(entries, bareJID), p)]
    case Cleared(bareJID) => entries[bareJID := map[]]
    case ChannelAvailable(available) => if available then map[] else entries
  }

  function Run(es: seq<Event>): map<JID, PresenceMap> {
    if es == [] then map[] else Apply(Run(es[..|es| - 1]), es[|es| - 1])
  }

  // ------------------------------------------------------------ the simple reading

  /** What one event says about one JID. */
  datatype Word = Online(p: Presence) | Gone | Nothing

  function Says(e: Event, j: JID): Word {
    match e
    case ChannelAvailable(available) => if available then Gone else Nothing
    case Cleared(bareJID) => if j.(resource := None) == bareJID then Gone else Nothing
    case Incoming(p) =>
      if p.to.node != "" then Nothing
      else
        match p.ptype
        case Available => if p.from == j then Online(p) else if p.from.(resource := None) == j then Gone else Nothing
        case Unavailable => if p.from == j || p.from == j.(resource := None) then Gone else Nothing
        case Error | Probe => if p.from == j then Gone else Nothing
        case Unsubscribe | Unsubscribed => if p.from.(resource := None) == j then Gone else Nothing
        case Subscribe | Subscribed => Nothing
  }

  /** What is signalled for one presence: itself, or for the end of a subscription an unavailable
      presence of the bare JID with the same status, which 3921bis leaves out. */
  function Signals(p: Presence): seq<Presence> {
    if p.to.node != "" then []
    else
      match p.ptype
      case Subscribe | Subscribed => []
      case Unsubscribe | Unsubscribed =>
        [Presence(Unavailable, JID(p.from.node, p.from.domain, None), JID("", "", None), 0, 0, p.status)]
      case _ => [p]
  }

  /** The last event that says anything about j decides. */
  function LastWord(es: seq<Event>, j: JID): Option<Presence> {
    if es == [] then None
    else
      match Says(es[|es| - 1], j)
      case Online(p) => Some(p)
      case Gone => None
      case Nothing => LastWord(es[..|es| - 1], j)
  }

  /** The stored available presence of j. */
  function OnlineEntry(entries: map<JID, PresenceMap>, j: JID): Option<Presence> {
    OnlineIn(At(entries, j.ToBare()), j)
  }

  function OnlineIn(m: PresenceMap, j: JID): Option<Presence> {
    if j in m && m[j].ptype == Available then Some(m[j]) else None
  }

  /** The store is sound: entries lie under their own bare JID and are their sender's, only
      types that are stored occur, and at most two of them are offline ones. */
  ghost predicate Sound(entries: map<JID, PresenceMap>) {
    forall b :: b in entries ==> SoundMap(b, entries[b])
  }

  ghost predicate SoundMap(b: JID, m: PresenceMap) {
    OwnKeys(b, m) && |Tombstones(m)| <= 2
  }

  ghost predicate OwnKeys(b: JID, m: PresenceMap) {
    forall j :: j in m ==> j.ToBare() == b && m[j].from == j && m[j].ptype in {Available, Error, Probe, Unavailable}
  }

  function Tombstones(m: PresenceMap): set<JID> {
    set j | j in m && m[j].ptype == Unavailable
  }

  lemma {:induction false} SubsetSize<T>(a: set<T>, b: set<T>)
    requires a <= b
    ensures |a| <= |b|
  {
    assert b == a + (b - a);
  }

  lemma {:induction false} UpdatedKeys(b: JID, m: PresenceMap, p: Presence)
    requires p.from.ToBare() == b && Heeded(p) && OwnKeys(b, m)
    ensures OwnKeys(b, Updated(m, p))
  {
  }

  lemma {:induction false} UpdatedCount(m: PresenceMap, p: Presence)
    requires Heeded(p) && |Tombstones(m)| <= 2
    ensures |Tombstones(Updated(m, p))| <= 2
  {
    var m', passed := Updated(m, p), Passed(p);
    var cleared := if passed.from.IsBare() && p.ptype == Unavailable then map[] else m;
    if passed.ptype == Unavailable && |cleared| <= 1 {
      assert m'.Keys == cleared.Keys + {passed.from};
      SubsetSize(Tombstones(m'), m'.Keys);
    } else {
      SubsetSize(Tombstones(m'), Tombstones(m));
    }
  }

  lemma {:induction false} UpdatedSays(b: JID, m: PresenceMap, p: Presence, j: JID)
    requires p.from.ToBare() == b && j.ToBare() == b && Heeded(p)
    ensures OnlineIn(Updated(m, p), j) ==
      match Says(Incoming(p), j)
      case Online(p) => Some(p)
      case Gone => None
      case Nothing => OnlineIn(m, j)
  {
  }

  lemma {:induction false} SoundPut(entries: map<JID, PresenceMap>, b: JID, m: PresenceMap)
    requires Sound(entries) && SoundMap(b, m)
    ensures Sound(entries[b := m])
  {
    hide SoundMap;
  }

  lemma {:induction false} SoundAt(entries: map<JID, PresenceMap>, b: JID)
    requires Sound(entries)
    ensures SoundMap(b, At(entries, b))
  {
    if b !in entries {
      assert Tombstones(map[]) == {};
    }
  }

  lemma {:induction false} ApplySound(entries: map<JID, PresenceMap>, e: Event)
    requires Sound(entries)
    ensures Sound(Apply(entries, e))
  {
    hide Sound, Updated;
    match e
    case Incoming(p) =>
      if Heeded(p) {
        var b := p.from.ToBare();
        SoundAt(entries, b);
        UpdatedKeys(b, At(entries, b), p);
        UpdatedCount(At(entries, b), p);
        SoundPut(entries, b, Updated(At(entries, b), p));
      }
    case Cleared(b) =>
      assert Tombstones(map[]) == {};
      SoundPut(entries, b, map[]);
    case ChannelAvailable(_) => EmptySound();
  }

  lemma {:induction false} EmptySound()
    ensures Sound(map[])
  {
  }

  /** Each event changes the stored online presence of each JID by what it says about it. */
  lemma {:induction false} ApplySays(entries: map<JID, PresenceMap>, e: Event, j: JID)
    ensures OnlineEntry(Apply(entries, e), j) ==
      match Says(e, j)
      case Online(p) => Some(p)
      case Gone => None
      case Nothing => OnlineEntry(entries, j)
  {
    hide Updated;
    match e
    case Incoming(p) =>
      if Heeded(p) && j.ToBare() == p.from.ToBare() {
        UpdatedSays(j.ToBare(), At(entries, j.ToBare()), p, j);
        hide Says;
      }
    case Cleared(_) =>
    case ChannelAvailable(_) =>
  }

  /** After any events the store's online entries are exactly what each JID's last word was,
      and the store is sound: never more than two offline entries for one bare JID. */
  lemma {:induction false} StoreIsLastWord(es: seq<Event>, j: JID)
    ensures Sound(Run(es)) && OnlineEntry(Run(es), j) == LastWord(es, j)
  {
    if es == [] {
      EmptySound();
    } else {
      var before, e := Run(es[..|es| - 1]), es[|es| - 1];
      StoreIsLastWord(es[..|es| - 1], j);
      hide Says, Sound, Apply, OnlineEntry;
      ApplySound(before, e);
      ApplySays(before, e, j);
    }
  }

  /** p was received, or simulated for a subscription that ended. */
  ghost predicate Told(es: seq<Event>, p: Presence) {
    exists i :: 0 <= i < |es| && es[i].Incoming? && p in Signals(es[i].p)
  }

  lemma {:induction false} SignalsPassed(p: Presence)
    ensures Signals(p) == if Heeded(p) then [Passed(p)] else []
  {
  }

  /** Whatever is stored, offline entries included, was told. */
  lemma {:induction false} StoredWasTold(es: seq<Event>, b: JID, j: JID)
    requires j in At(Run(es), b)
    ensures Told(es, At(Run(es), b)[j])
  {
    if es != [] {
      var earlier, e := es[..|es| - 1], es[|es| - 1];
      if e.Incoming? && Heeded(e.p) && At(Run(es), b)[j] == Passed(e.p) {
        SignalsPassed(e.p);
        assert es[|es| - 1].Incoming?;
      } else {
        StaysStored(Run(earlier), e, b, j);
        StoredWasTold(earlier, b, j);
        var i :| 0 <= i < |earlier| && earlier[i].Incoming? && At(Run(es), b)[j] in Signals(earlier[i].p);
        assert es[i] == earlier[i];
      }
    }
  }

  lemma {:induction false} StaysStored(entries: map<JID, PresenceMap>, e: Event, b: JID, j: JID)
    requires j in At(Apply(entries, e), b)
    requires !(e.Incoming? && Heeded(e.p) && At(Apply(entries, e), b)[j] == Passed(e.p))
    ensures j in At(entries, b) && At(entries, b)[j] == At(Apply(entries, e), b)[j]
  {
  }

  /** An available presence to the gateway itself is always stored. */
  lemma {:induction false} AvailableIsOnline(entries: map<JID, PresenceMap>, p: Presence)
    requires p.to.node == "" && p.ptype == Available
    ensures OnlineEntry(Apply(entries, Incoming(p)), p.from) == Some(p) && Signals(p) == [p]
  {
    ApplySays(entries, Incoming(p), p.from);
  }

  /** Subscription requests and grants, and anything sent to a contact, change nothing. */
  lemma {:induction false} OthersPassBy(entries: map<JID, PresenceMap>, p: Presence)
    requires p.to.node != "" || p.ptype == Subscribe || p.ptype == Subscribed
    ensures Apply(entries, Incoming(p)) == entries && Signals(p) == []
  {
  }

  /** What stays of a presence that is not available: errors and probes always; an offline one
      only when at most one entry is left of the JID's others, none if it is of the bare JID. */
  lemma {:induction false} OfflineStoredIff(entries: map<JID, PresenceMap>, p: Presence)
    requires p.to.node == "" && p.ptype in {Error, Probe, Unavailable}
    ensures var b := JID(p.from.node, p.from.domain, None);
      var left := if p.ptype == Unavailable && p.from == b then map[] else At(entries, b);
      var m := At(Apply(entries, Incoming(p)), b);
      if p.ptype != Unavailable || |left| <= 1 then m == left[p.from := p] else m == left - {p.from}
  {
  }

  /** Two offline entries do occur: the bound is met. */
  lemma {:induction false} TwoTombstones(j: JID, k: JID, p: Presence, q: Presence)
    requires j.ToBare() == k.ToBare() && j != k && !j.IsBare() && !k.IsBare()
    requires p.ptype == Unavailable && p.from == j && p.to.node == ""
    requires q.ptype == Unavailable && q.from == k && q.to.node == ""
    ensures Tombstones(At(Run([Incoming(p), Incoming(q)]), j.ToBare())) == {j, k}
  {
    var es := [Incoming(p), Incoming(q)];
    assert es[..1] == [Incoming(p)] && es[..1][..0] == [];
    assert Run(es[..1]) == map[j.ToBare() := map[j := p]];
  }

  // ------------------------------------------------------------------ priority

  /** a is preferred over b. */
  predicate Outranks(a: Presence, b: Presence) {
    a.priority > b.priority || (a.priority == b.priority && a.availability > b.availability)
  }

  /** Among the first n keys, best is at k: none outranks it, and it outranks all before it. */
  predicate FirstBest(m: PresenceMap, order: seq<JID>, n: nat, k: nat, best: Presence) {
    k < n <= |order| && (forall i :: 0 <= i < n ==> order[i] in m) && best == m[order[k]] &&
    (forall i :: 0 <= i < n ==> !Outranks(m[order[i]], best)) &&
    (forall i :: 0 <= i < k ==> Outranks(best, m[order[i]]))
  }

  // ------------------------------------------------------------------ the class

  class PresenceOracle {
    var entries: map<JID, PresenceMap>
    /** The onPresenceChange signals so far. */
    ghost var changes: seq<Presence>
    /** The events so far. */
    ghost var seen: seq<Event>

    ghost predicate Valid()
      reads this
    {
      entries == Run(seen)
    }

    constructor ()
      ensures Valid() && seen == [] && changes == []
    {
      entries := map[];
      changes, seen := [], [];
    }

    method HandleStanzaChannelAvailableChanged(available: bool)
      requires Valid()
      modifies this
      ensures Valid() && seen == old(seen) + [ChannelAvailable(available)] && changes == old(changes)
    {
      if available {
        entries := map[];
      }
      ghost var e := ChannelAvailable(available);
      assert (seen + [e])[..|seen|] == seen;
      seen := seen + [e];
    }

    method ClearPresences(bareJID: JID)
      requires Valid()
      modifies this
      ensures Valid() && seen == old(seen) + [Cleared(bareJID)] && changes == old(changes)
    {
      var jidMap := At(entries, bareJID);
      jidMap := map[];
      entries := entries[bareJID := jidMap];
      ghost var e := Cleared(bareJID);
      assert (seen + [e])[..|seen|] == seen;
      seen := seen + [e];
    }

    method HandleIncomingPresence(p: Presence)
      requires Valid()
      modifies this
      ensures Valid() && seen == old(seen) + [Incoming(p)]
      ensures changes == old(changes) + Signals(p)
    {
      SignalsPassed(p);
      ghost var e := Incoming(p);
      assert (seen + [e])[..|seen|] == seen;
      seen := seen + [e];
      if p.to.node != "" {
        return;
      }
      var bareJID := p.from.ToBare();
      if p.ptype == Subscribe || p.ptype == Subscribed {
      } else {
        var passed := p;
        if p.ptype == Unsubscribe || p.ptype == Unsubscribed {
          passed := Presence(Unavailable, bareJID, JID("", "", None), 0, 0, p.status);
        }
        var jidMap := At(entries, bareJID);
        if passed.from.IsBare() && p.ptype == Unavailable {
          jidMap := map[];
        } else if passed.ptype == Available {
          jidMap := jidMap - {bareJID};
        }
        if passed.ptype == Unavailable && |jidMap| > 1 {
          jidMap := jidMap - {passed.from};
        } else {
          jidMap := jidMap[passed.from := passed];
        }
        entries := entries[bareJID := jidMap];
        changes := changes + [passed];
      }
    }

    /** The stored presence of jid; None when there is none. */
    method GetLastPresence(jid: JID) returns (r: Option<Presence>)
      requires Valid()
      ensures r.Some? && r.value.ptype == Available <==> LastWord(seen, jid).Some?
      ensures LastWord(seen, jid).Some? ==> r == LastWord(seen, jid)
      ensures r.Some? ==> r.value.from == jid && r.value.ptype in {Available, Error, Probe, Unavailable} && Told(seen, r.value)
    {
      StoreIsLastWord(seen, jid);
      if jid in At(entries, jid.ToBare()) {
        StoredWasTold(seen, jid.ToBare(), jid);
      }
      hide Run, LastWord, Told;
      if jid.ToBare() !in entries {
        return None;
      }
      var presenceMap := entries[jid.ToBare()];
      if jid in presenceMap {
        r := Some(presenceMap[jid]);
      } else {
        r := None;
      }
    }

    /** The first stored presence, in the map's key order, that none outranks.  Offline
        entries take part. */
    method GetHighestPriorityPresence(bareJID: JID, order: seq<JID>) returns (highest: Option<Presence>)
      requires forall j :: j in At(entries, bareJID) <==> j in order
      ensures highest.None? <==> At(entries, bareJID) == map[]
      ensures highest.Some? ==> exists k :: 0 <= k < |order| && FirstBest(At(entries, bareJID), order, |order|, k, highest.value)
    {
      highest := None;
      if bareJID !in entries {
        return;
      }
      var presenceMap := entries[bareJID];
      assert forall i :: 0 <= i < |order| ==> order[i] in order;
      ghost var k := 0;
      for n := 0 to |order|
        invariant highest.None? <==> n == 0
        invariant highest.Some? ==> FirstBest(presenceMap, order, n, k, highest.value)
      {
        var current := presenceMap[order[n]];
        if highest.None? || current.priority > highest.value.priority ||
           (current.priority == highest.value.priority && current.availability > highest.value.availability) {
          highest := Some(current);
          k := n;
        }
      }
      if presenceMap != map[] {
        var j :| j in presenceMap;
        assert j in order;
      }
    }
  }
}
