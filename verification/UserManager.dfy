/** The users by bare JID, with the one looked up last kept aside. */
module UserManager {

  class User {
    const bareJID: string
    constructor (jid: string)
      ensures bareJID == jid
    { bareJID := jid; }
  }

  /** The cached user is the one the map holds under its JID. */
  predicate Coherent(users: map<string, User>, cached: User?) {
    cached == null || (cached.bareJID in users && users[cached.bareJID] == cached)
  }

  /** Users lie under their own JID. */
  ghost predicate Keyed(users: map<string, User>) {
    forall jid :: jid in users ==> users[jid].bareJID == jid
  }

  function Lookup(users: map<string, User>, jid: string): User? {
    if jid in users then users[jid] else null
  }

  /** Putting a user under its JID leaves the cache right exactly when it does not replace
      another user that is cached. */
  lemma {:induction false} AddCoherentIff(users: map<string, User>, cached: User?, user: User)
    requires Coherent(users, cached)
    ensures Coherent(users[user.bareJID := user], cached) <==> cached == null || cached.bareJID != user.bareJID || cached == user
  {
  }

  /** Taking a user out leaves the cache right exactly when the map held this user, or the
      cached one has another JID. */
  lemma {:induction false} RemoveCoherentIff(users: map<string, User>, cached: User?, user: User)
    requires Coherent(users, cached)
    ensures Coherent(users - {user.bareJID}, if cached == user then null else cached) <==>
      cached == null || cached == user || cached.bareJID != user.bareJID
  {
  }

  lemma {:induction false} ValuesWithout(users: map<string, User>, jid: string)
    requires Keyed(users) && jid in users
    ensures users[jid] !in (users - {jid}).Values
    ensures users.Values == (users - {jid}).Values + {users[jid]}
  {
    forall v | v in users.Values ensures v in (users - {jid}).Values + {users[jid]} {
      var k :| k in users && users[k] == v;
      assert k != jid ==> k in users - {jid} && (users - {jid})[k] == v;
    }
  }

  class UserManager {
    var users: map<string, User>
    var cachedUser: User?
    /** The users onUserCreated and onUserDestroyed were fired for. */
    ghost var created: seq<User>
    ghost var destroyed: seq<User>

    ghost predicate Valid()
      reads this
    {
      Keyed(users) && Coherent(users, cachedUser)
    }

    constructor ()
      ensures Valid() && users == map[] && created == [] && destroyed == []
    {
      users, cachedUser, created, destroyed := map[], null, [], [];
    }

    /** The cache goes wrong when another user that is cached is replaced; the callers look
        the JID up first. */
    method AddUser(user: User)
      requires Valid()
      modifies this
      ensures users == old(users)[user.bareJID := user] && cachedUser == old(cachedUser)
      ensures Valid() <==> cachedUser == null || cachedUser.bareJID != user.bareJID || cachedUser == user
      ensures created == old(created) + [user] && destroyed == old(destroyed)
    {
      users := users[user.bareJID := user];
      created := created + [user];
    }

    /** The answer is the map's, through the cache or not. */
    method GetUser(bareJID: string) returns (user: User?)
      requires Valid()
      modifies this`cachedUser
      ensures Valid() && user == Lookup(users, bareJID)
    {
      if cachedUser != null && bareJID == cachedUser.bareJID {
        return cachedUser;
      }
      if bareJID in users {
        user := users[bareJID];
        cachedUser := user;
        return;
      }
      user := null;
    }

    /** Whatever the map holds under the JID goes, this user or another. */
    method RemoveUser(user: User)
      requires Valid()
      modifies this
      ensures users == old(users) - {user.bareJID} && cachedUser == if old(cachedUser) == user then null else old(cachedUser)
      ensures Valid() <==> cachedUser == null || cachedUser.bareJID != user.bareJID
      ensures created == old(created) && destroyed == old(destroyed) + [user]
    {
      users := users - {user.bareJID};
      if cachedUser == user {
        cachedUser := null;
      }
      destroyed := destroyed + [user];
    }

    /** Every user is destroyed, each once. */
    method RemoveAllUsers()
      requires Valid()
      modifies this
      ensures Valid() && users == map[] && created == old(created)
      ensures multiset(destroyed) == multiset(old(destroyed)) + multiset(old(users.Values))
    {
      while users != map[]
        invariant Valid() && created == old(created)
        invariant multiset(destroyed) + multiset(users.Values) == multiset(old(destroyed)) + multiset(old(users.Values))
        decreases |users|
      {
        var jid :| jid in users;
        ghost var before := users;
        RemoveUser(users[jid]);
        ValuesWithout(before, jid);
      }
      assert users.Values == {};
    }
  }
}
