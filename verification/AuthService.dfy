/**
 The login store as an object whose tables are updated in place, and the login service on it.
 Every method is tied to the function of AuthTables that says what its statements do; `fault`
 stands for the statement that the database refuses (0 for none).
 */
module AuthServices {
  import opened Wrappers
  import opened AuthTables

  class AuthStore {
    var links: map<nat, Link>
    var sessions: map<nat, Session>
    var directory: map<string, nat>
    var active: set<nat>

    function Tables(): Auth
      reads this
    {
      Auth(links, sessions, directory, active)
    }

    constructor (a: Auth)
      ensures Tables() == a
    {
      links, sessions, directory, active := a.links, a.sessions, a.directory, a.active;
    }

    method CreateMagicLink(email: string, hash: nat, expires: int, fails: bool) returns (ok: bool)
      modifies this`links
      ensures fails ==> !ok && Tables() == old(Tables())
      ensures !fails ==> (Tables(), ok) == AuthTables.CreateMagicLink(old(Tables()), email, hash, expires)
    {
      if fails || hash in links {
        return false;
      }
      links := links[hash := Link(email, expires, None)];
      return true;
    }

    method ConsumeMagicLink(hash: nat, now: int, fails: bool) returns (email: Option<string>)
      modifies this`links
      ensures fails ==> email == None && Tables() == old(Tables())
      ensures !fails ==> (Tables(), email) == AuthTables.ConsumeMagicLink(old(Tables()), hash, now)
    {
      if fails || hash !in links {
        return None;
      }
      var row := links[hash];
      if row.consumed.Some? || row.expires <= now {
        return None;
      }
      links := links[hash := row.(consumed := Some(now))];
      return Some(row.email);
    }

    method ActiveUserByEmail(email: string) returns (user: Option<nat>)
      ensures user == AuthTables.ActiveUserByEmail(Tables(), email)
      ensures user.Some? <==> email in directory && directory[email] in active
      ensures user.Some? ==> directory[email] == user.value
    {
      if email in directory && directory[email] in active {
        return Some(directory[email]);
      }
      return None;
    }

    method CreateSession(user: nat, email: string, hash: nat, expires: int, now: int, fails: bool) returns (ok: bool)
      modifies this`sessions
      ensures fails ==> !ok && Tables() == old(Tables())
      ensures !fails ==> (Tables(), ok) == AuthTables.CreateSession(old(Tables()), user, email, hash, expires, now)
    {
      if fails || hash in sessions {
        return false;
      }
      sessions := sessions[hash := Session(user, email, expires, None, now)];
      return true;
    }

    method ValidateSession(hash: nat, now: int) returns (email: Option<string>)
      modifies this`sessions
      ensures (Tables(), email) == AuthTables.ValidateSession(old(Tables()), hash, now)
      ensures email.Some? <==>
                && hash in old(sessions) && old(sessions)[hash].expires > now && old(sessions)[hash].revoked.None?
                && old(sessions)[hash].user in active
      ensures email.Some? ==> email.value == old(sessions)[hash].email && sessions[hash].seen == now
    {
      if hash !in sessions {
        return None;
      }
      var row := sessions[hash];
      if row.expires <= now || row.revoked.Some? || row.user !in active {
        return None;
      }
      sessions := sessions[hash := row.(seen := now)];
      return Some(row.email);
    }

    method UserBySession(hash: nat, now: int) returns (user: Option<nat>)
      modifies this`sessions
      ensures (Tables(), user) == AuthTables.UserBySession(old(Tables()), hash, now)
      ensures user.Some? <==>
                && hash in old(sessions) && old(sessions)[hash].expires > now && old(sessions)[hash].revoked.None?
                && old(sessions)[hash].user in active
      ensures user.Some? ==> user.value == old(sessions)[hash].user && sessions[hash].seen == now
    {
      if hash !in sessions {
        return None;
      }
      var row := sessions[hash];
      if row.expires <= now || row.revoked.Some? || row.user !in active {
        return None;
      }
      sessions := sessions[hash := row.(seen := now)];
      return Some(row.user);
    }

    method RevokeSession(hash: nat, now: int) returns (found: bool)
      modifies this`sessions
      ensures (Tables(), found) == AuthTables.RevokeSession(old(Tables()), hash, now)
      ensures found <==> hash in old(sessions) && old(sessions)[hash].revoked.None?
      ensures found ==> sessions[hash].revoked == Some(now)
    {
      found := hash in sessions && sessions[hash].revoked.None?;
      if found {
        sessions := sessions[hash := sessions[hash].(revoked := Some(now))];
      }
    }

    /** Two deletes, each reporting how many rows it removed. */
    method CleanupAuthArtifacts(now: int, retention: int, fault: nat)
      returns (deletedLinks: nat, deletedSessions: nat, ok: bool)
      modifies this`links, this`sessions
      ensures Tables() == Cleanup(old(Tables()), now, retention, fault)
      ensures ok <==> fault != 1 && fault != 2
      ensures deletedLinks == |old(links)| - |links| && deletedSessions == |old(sessions)| - |sessions|
    {
      deletedLinks, deletedSessions, ok := 0, 0, false;
      if fault == 1 {
        return;
      }
      var before := links;
      links := map h | h in before && !SpentLink(before[h], now) :: before[h];
      Fewer(before, links);
      deletedLinks := |before| - |links|;
      if fault == 2 {
        return;
      }
      var cutoff, all := now - retention, sessions;
      sessions := map h | h in all && !SpentSession(all[h], now, cutoff) :: all[h];
      Fewer(all, sessions);
      deletedSessions := |all| - |sessions|;
      ok := true;
    }
  }

  /** Deleting rows leaves no more than there were. */
  lemma Fewer<T>(all: map<nat, T>, kept: map<nat, T>)
    requires kept.Keys <= all.Keys
    ensures |kept| <= |all|
  {
    Subset(kept.Keys, all.Keys);
  }

  lemma {:induction false} Subset(part: set<nat>, whole: set<nat>)
    requires part <= whole
    ensures |part| <= |whole|
  {
    if part != {} {
      var x :| x in part;
      Subset(part - {x}, whole - {x});
    }
  }

  class AuthService {
    const store: AuthStore

    constructor (store: AuthStore)
      ensures this.store == store
    {
      this.store := store;
    }

    /** Consumes the link and opens a session for its address; the token of the session is drawn beforehand. */
    method VerifyMagicLink(hash: nat, session: nat, now: int, later: int, fault: nat) returns (login: Login)
      modifies store
      ensures (store.Tables(), login) == AuthTables.VerifyMagicLink(old(store.Tables()), hash, session, now, later, fault)
      ensures fault == 0 && session !in old(store.sessions) ==>
                (login.session.Some? <==>
                 && hash in old(store.links) && OpenLink(old(store.links)[hash], now)
                 && var email := old(store.links)[hash].email;
                    email in store.directory && store.directory[email] in store.active)
      ensures login.session.Some? ==>
                && session !in old(store.sessions) && Answers(store.Tables(), session, later)
                && store.sessions == old(store.sessions)[session := store.sessions[session]]
      ensures login.email.Some? ==> hash in store.links && forall at :: !OpenLink(store.links[hash], at)
      ensures login.email.None? ==> store.Tables() == old(store.Tables())
    {
      var email := store.ConsumeMagicLink(hash, now, fault == 1);
      if email.None? {
        return Login(None, None);
      }
      var user := store.ActiveUserByEmail(email.value);
      if fault == 2 || user.None? {
        return Login(email, None);
      }
      var ok := store.CreateSession(user.value, email.value, session, later + SESSION_TTL, later, fault == 3);
      if !ok {
        return Login(email, None);
      }
      return Login(email, Some(session));
    }
  }
}
