/**
 The login tables and the statements on them: one-time links, sessions, and the housekeeping
 that deletes what is spent. Token hashes are opaque numbers; the hash is taken as injective.
 A statement that the database refuses changes nothing and reports an error.
 */
module AuthTables {
  import opened Wrappers

  datatype Link = Link(email: string, expires: int, consumed: Option<int>)

  datatype Session = Session(user: nat, email: string, expires: int, revoked: Option<int>, seen: int)

  /** Links and sessions by token hash; users by lower-case address, and which of them are active. */
  datatype Auth = Auth(
    links: map<nat, Link>, sessions: map<nat, Session>, directory: map<string, nat>, active: set<nat>)

  const LINK_TTL := 15 * 60
  const SESSION_TTL := 30 * 24 * 60 * 60

  predicate OpenLink(l: Link, now: int) {
    l.consumed.None? && l.expires > now
  }

  predicate OpenSession(s: Session, now: int) {
    s.expires > now && s.revoked.None?
  }

  // ----- statements -----

  /** Inserting a link; the hash column is unique. */
  function CreateMagicLink(a: Auth, email: string, hash: nat, expires: int): (Auth, bool) {
    if hash in a.links then (a, false) else (a.(links := a.links[hash := Link(email, expires, None)]), true)
  }

  /** Select for update, then mark as consumed. */
  function ConsumeMagicLink(a: Auth, hash: nat, now: int): (Auth, Option<string>) {
    if hash in a.links && OpenLink(a.links[hash], now) then
      (a.(links := a.links[hash := a.links[hash].(consumed := Some(now))]), Some(a.links[hash].email))
    else (a, None)
  }

  function ActiveUserByEmail(a: Auth, email: string): Option<nat> {
    if email in a.directory && a.directory[email] in a.active then Some(a.directory[email]) else None
  }

  function CreateSession(a: Auth, user: nat, email: string, hash: nat, expires: int, now: int): (Auth, bool) {
    if hash in a.sessions then (a, false)
    else (a.(sessions := a.sessions[hash := Session(user, email, expires, None, now)]), true)
  }

  predicate Answers(a: Auth, hash: nat, now: int) {
    hash in a.sessions && OpenSession(a.sessions[hash], now) && a.sessions[hash].user in a.active
  }

  /** Both session lookups update the time of last use. */
  function Touched(a: Auth, hash: nat, now: int): Auth {
    if Answers(a, hash, now) then a.(sessions := a.sessions[hash := a.sessions[hash].(seen := now)]) else a
  }

  function ValidateSession(a: Auth, hash: nat, now: int): (Auth, Option<string>) {
    (Touched(a, hash, now), if Answers(a, hash, now) then Some(a.sessions[hash].email) else None)
  }

  function UserBySession(a: Auth, hash: nat, now: int): (Auth, Option<nat>) {
    (Touched(a, hash, now), if Answers(a, hash, now) then Some(a.sessions[hash].user) else None)
  }

  /** The answer says whether a row was revoked. */
  function RevokeSession(a: Auth, hash: nat, now: int): (Auth, bool) {
    if hash in a.sessions && a.sessions[hash].revoked.None? then
      (a.(sessions := a.sessions[hash := a.sessions[hash].(revoked := Some(now))]), true)
    else (a, false)
  }

  // ----- housekeeping -----

  predicate SpentLink(l: Link, now: int) {
    l.consumed.Some? || l.expires <= now
  }

  predicate SpentSession(s: Session, now: int, cutoff: int) {
    s.expires <= now || (s.revoked.Some? && s.revoked.value <= cutoff)
  }

  function SweepLinks(a: Auth, now: int): Auth {
    a.(links := (map h | h in a.links && !SpentLink(a.links[h], now) :: a.links[h]))
  }

  function SweepSessions(a: Auth, now: int, cutoff: int): Auth {
    a.(sessions := (map h | h in a.sessions && !SpentSession(a.sessions[h], now, cutoff) :: a.sessions[h]))
  }

  /** The two deletes; the second is not reached when the first fails. */
  function Cleanup(a: Auth, now: int, retention: int, fault: nat): Auth {
    if fault == 1 then a
    else if fault == 2 then SweepLinks(a, now)
    else SweepSessions(SweepLinks(a, now), now, now - retention)
  }

  // ----- logging in -----

  /** What became of a link: the address it was consumed for, and the session opened. */
  datatype Login = Login(email: Option<string>, session: Option<nat>)

  /** Consume the link, look the user up, open a session: three transactions, of which `fault` may name the failing one. */
  function VerifyMagicLink(a: Auth, hash: nat, session: nat, now: int, later: int, fault: nat): (Auth, Login) {
    if fault == 1 then (a, Login(None, None))
    else
      var (consumed, email) := ConsumeMagicLink(a, hash, now);
      if email.None? then (a, Login(None, None))
      else
        var user := ActiveUserByEmail(consumed, email.value);
        if fault == 2 || user.None? then (consumed, Login(email, None))
        else
          var (after, ok) := CreateSession(consumed, user.value, email.value, session, later + SESSION_TTL, later);
          if fault == 3 || !ok then (consumed, Login(email, None)) else (after, Login(email, Some(session)))
  }

  // ----- runs -----

  /** One call of the login service or the housekeeper; `fault` names the failing statement, 0 for none. */
  datatype Step =
    | Request(email: string, hash: nat, at: int, fault: nat)
    | Verify(hash: nat, session: nat, at: int, later: int, fault: nat)
    | Validate(session: nat, at: int, fault: nat)
    | Lookup(session: nat, at: int, fault: nat)
    | Logout(session: nat, at: int, fault: nat)
    | Switch(user: nat, on: bool, at: int)
    | Sweep(at: int, retention: int, fault: nat)

  datatype Reply =
    | Done(ok: bool)
    | Verified(login: Login)
    | Address(email: Option<string>)
    | Identity(user: Option<nat>)

  function Apply(a: Auth, step: Step): (Auth, Reply) {
    match step
    case Request(email, hash, at, fault) =>
      var (next, ok) := CreateMagicLink(a, email, hash, at + LINK_TTL);
      if fault > 0 then (a, Done(false)) else (next, Done(ok))
    case Verify(hash, session, at, later, fault) =>
      var (next, login) := VerifyMagicLink(a, hash, session, at, later, fault);
      (next, Verified(login))
    case Validate(session, at, fault) =>
      var (next, email) := ValidateSession(a, session, at);
      if fault > 0 then (a, Address(None)) else (next, Address(email))
    case Lookup(session, at, fault) =>
      var (next, user) := UserBySession(a, session, at);
      if fault > 0 then (a, Identity(None)) else (next, Identity(user))
    case Logout(session, at, fault) =>
      var (next, ok) := RevokeSession(a, session, at);
      if fault > 0 then (a, Done(false)) else (next, Done(ok))
    case Switch(user, on, at) =>
      (a.(active := if on then a.active + {user} else a.active - {user}), Done(true))
    case Sweep(at, retention, fault) =>
      (Cleanup(a, at, retention, fault), Done(fault == 0))
  }

  datatype Steps = NoSteps | Then(step: Step, rest: Steps)

  datatype Replies = NoReplies | Answered(reply: Reply, rest: Replies)

  function After(a: Auth, steps: Steps): Auth
    decreases steps
  {
    match steps
    case NoSteps => a
    case Then(step, rest) => After(Apply(a, step).0, rest)
  }

  /** The times of the steps never decrease. */
  predicate Chronological(steps: Steps, now: int) {
    match steps
    case NoSteps => true
    case Then(step, rest) => now <= step.at <= End(step) && Chronological(rest, End(step))
  }

  function End(step: Step): int {
    if step.Verify? then step.later else step.at
  }

  /** The token a step issues. */
  function Issued(step: Step): set<nat> {
    match step
    case Request(_, hash, _, _) => {hash}
    case Verify(_, session, _, _, _) => {session}
    case _ => {}
  }

  /** Tokens are random: no step issues one that was issued before. */
  predicate FreshTokens(steps: Steps, used: set<nat>) {
    match steps
    case NoSteps => true
    case Then(step, rest) => Issued(step) !! used && FreshTokens(rest, used + Issued(step))
  }

  /** The tokens of a state are among the issued ones. */
  predicate KnownTokens(a: Auth, used: set<nat>) {
    a.links.Keys <= used && a.sessions.Keys <= used
  }
}
