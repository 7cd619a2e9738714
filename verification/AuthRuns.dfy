/**
 Properties of every run of the login service: housekeeping cannot be observed, a one-time
 link opens at most one session, and a session that has died stays dead.
 */
module AuthRuns {
  import opened Wrappers
  import opened AuthTables

  // ----- housekeeping is unobservable -----

  function WithoutSweeps(steps: Steps): Steps {
    match steps
    case NoSteps => NoSteps
    case Then(step, rest) => if step.Sweep? then WithoutSweeps(rest) else Then(step, WithoutSweeps(rest))
  }

  /** What callers see of a step: nothing of a sweep, and not whether a logout found a row. */
  function Seen(step: Step, reply: Reply): Reply {
    if step.Logout? then Done(true) else reply
  }

  function Observations(a: Auth, steps: Steps): Replies
    decreases steps
  {
    match steps
    case NoSteps => NoReplies
    case Then(step, rest) =>
      var (next, reply) := Apply(a, step);
      if step.Sweep? then Observations(next, rest) else Answered(Seen(step, reply), Observations(next, rest))
  }

  /** The swept tables miss only rows that can never matter again. */
  ghost predicate Swept(full: Auth, swept: Auth, now: int) {
    && swept.directory == full.directory && swept.active == full.active
    && (forall h :: h in swept.links ==> h in full.links && swept.links[h] == full.links[h])
    && (forall h :: h in full.links && h !in swept.links ==> SpentLink(full.links[h], now))
    && (forall h :: h in swept.sessions ==> h in full.sessions && swept.sessions[h] == full.sessions[h])
    && (forall h :: h in full.sessions && h !in swept.sessions ==> !OpenSession(full.sessions[h], now))
  }

  lemma SweptLater(full: Auth, swept: Auth, now: int, later: int)
    requires Swept(full, swept, now) && now <= later
    ensures Swept(full, swept, later)
  {
  }

  lemma SweepStays(full: Auth, swept: Auth, now: int, retention: int, fault: nat)
    requires Swept(full, swept, now)
    ensures Swept(full, Cleanup(swept, now, retention, fault), now)
  {
  }

  lemma VerifyAgrees(full: Auth, swept: Auth, hash: nat, session: nat, now: int, later: int, fault: nat)
    requires Swept(full, swept, now) && now <= later && session !in full.sessions
    ensures var f, s := VerifyMagicLink(full, hash, session, now, later, fault),
                        VerifyMagicLink(swept, hash, session, now, later, fault);
            f.1 == s.1 && Swept(f.0, s.0, later)
  {
    SweptLater(full, swept, now, later);
  }

  lemma SessionStepAgrees(full: Auth, swept: Auth, step: Step)
    requires Swept(full, swept, step.at) && (step.Validate? || step.Lookup? || step.Logout?)
    ensures Seen(step, Apply(full, step).1) == Seen(step, Apply(swept, step).1)
    ensures Swept(Apply(full, step).0, Apply(swept, step).0, step.at)
  {
  }

  /** Steps other than sweeps answer the same and keep the tables related. */
  lemma StepAgrees(full: Auth, swept: Auth, step: Step, now: int)
    requires Swept(full, swept, now) && now <= step.at <= End(step) && !step.Sweep?
    requires Issued(step) !! (full.links.Keys + full.sessions.Keys)
    ensures Seen(step, Apply(full, step).1) == Seen(step, Apply(swept, step).1)
    ensures Swept(Apply(full, step).0, Apply(swept, step).0, End(step))
  {
    SweptLater(full, swept, now, step.at);
    match step
    case Verify(hash, session, at, later, fault) => VerifyAgrees(full, swept, hash, session, at, later, fault);
    case Request(_, _, _, _) =>
    case Switch(_, _, _) =>
    case _ => SessionStepAgrees(full, swept, step);
  }

  lemma StepKnowsTokens(a: Auth, step: Step, used: set<nat>)
    requires KnownTokens(a, used)
    ensures KnownTokens(Apply(a, step).0, used + Issued(step))
  {
  }

  lemma {:induction false} SweepsUnobservableFrom(full: Auth, swept: Auth, steps: Steps, now: int, used: set<nat>)
    requires Swept(full, swept, now) && KnownTokens(full, used)
    requires Chronological(steps, now) && FreshTokens(steps, used)
    ensures Observations(swept, steps) == Observations(full, WithoutSweeps(steps))
    decreases steps
  {
    match steps
    case NoSteps =>
    case Then(step, rest) =>
      if step.Sweep? {
        SweptLater(full, swept, now, step.at);
        SweepStays(full, swept, step.at, step.retention, step.fault);
        SweepsUnobservableFrom(full, Apply(swept, step).0, rest, step.at, used + Issued(step));
      } else {
        StepAgrees(full, swept, step, now);
        StepKnowsTokens(full, step, used);
        SweepsUnobservableFrom(Apply(full, step).0, Apply(swept, step).0, rest, End(step), used + Issued(step));
      }
  }

  /** Housekeeping at any moments, with any retention, whole or cut short, changes no answer. */
  lemma SweepsAreUnobservable(a: Auth, steps: Steps, now: int, used: set<nat>)
    requires KnownTokens(a, used) && Chronological(steps, now) && FreshTokens(steps, used)
    ensures Observations(a, steps) == Observations(a, WithoutSweeps(steps))
  {
    SweepsUnobservableFrom(a, a, steps, now, used);
  }

  /** The one answer left out: a logout can notice a sweep only of a session that had expired. */
  lemma LogoutNoticesOnlyExpired(full: Auth, swept: Auth, session: nat, at: int)
    requires Swept(full, swept, at)
    requires RevokeSession(full, session, at).1 != RevokeSession(swept, session, at).1
    ensures session in full.sessions && full.sessions[session].expires <= at && session !in swept.sessions
  {
  }

  // ----- a link opens at most one session -----

  /** The sessions opened with one token. */
  function SessionsOpened(a: Auth, steps: Steps, hash: nat): nat
    decreases steps
  {
    match steps
    case NoSteps => 0
    case Then(step, rest) =>
      var (next, reply) := Apply(a, step);
      (if step.Verify? && step.hash == hash && reply.login.session.Some? then 1 else 0) + SessionsOpened(next, rest, hash)
  }

  /** The link cannot be consumed any more: it is gone for good, or spent. */
  predicate LinkSpent(a: Auth, hash: nat, now: int, used: set<nat>) {
    hash in used && (hash in a.links ==> SpentLink(a.links[hash], now))
  }

  lemma SpentStaysSpent(a: Auth, step: Step, hash: nat, now: int, used: set<nat>)
    requires LinkSpent(a, hash, now, used) && Issued(step) !! used && now <= step.at <= End(step)
    ensures LinkSpent(Apply(a, step).0, hash, End(step), used + Issued(step))
    ensures step.Verify? && step.hash == hash ==> Apply(a, step).1.login == Login(None, None)
  {
  }

  lemma {:induction false} SpentOpensNothing(a: Auth, steps: Steps, hash: nat, now: int, used: set<nat>)
    requires LinkSpent(a, hash, now, used) && Chronological(steps, now) && FreshTokens(steps, used)
    ensures SessionsOpened(a, steps, hash) == 0
    decreases steps
  {
    match steps
    case NoSteps =>
    case Then(step, rest) =>
      SpentStaysSpent(a, step, hash, now, used);
      SpentOpensNothing(Apply(a, step).0, rest, hash, End(step), used + Issued(step));
  }

  /** A login that opens a session has spent the link. */
  lemma LoginSpends(a: Auth, step: Step, used: set<nat>)
    requires KnownTokens(a, used) && step.Verify? && Apply(a, step).1.login.session.Some?
    ensures LinkSpent(Apply(a, step).0, step.hash, End(step), used + Issued(step))
  {
  }

  /** Over every run, faults and housekeeping included, one token yields at most one session. */
  lemma {:induction false} LinkIsSingleUse(a: Auth, steps: Steps, hash: nat, now: int, used: set<nat>)
    requires KnownTokens(a, used) && Chronological(steps, now) && FreshTokens(steps, used)
    ensures SessionsOpened(a, steps, hash) <= 1
    decreases steps
  {
    match steps
    case NoSteps =>
    case Then(step, rest) =>
      var (next, reply) := Apply(a, step);
      StepKnowsTokens(a, step, used);
      if step.Verify? && step.hash == hash && reply.login.session.Some? {
        LoginSpends(a, step, used);
        SpentOpensNothing(next, rest, hash, End(step), used + Issued(step));
      } else {
        LinkIsSingleUse(next, rest, hash, End(step), used + Issued(step));
      }
  }

  // ----- a dead session stays dead -----

  /** Expired, revoked or deleted. */
  predicate SessionDead(a: Auth, session: nat, now: int, used: set<nat>) {
    session in used && (session in a.sessions ==> !OpenSession(a.sessions[session], now))
  }

  /** No step of the run recognises the session. */
  ghost predicate NeverAnswers(a: Auth, steps: Steps, session: nat)
    decreases steps
  {
    match steps
    case NoSteps => true
    case Then(step, rest) =>
      && (step.Validate? && step.session == session ==> Apply(a, step).1 == Address(None))
      && (step.Lookup? && step.session == session ==> Apply(a, step).1 == Identity(None))
      && NeverAnswers(Apply(a, step).0, rest, session)
  }

  lemma DeadStaysDead(a: Auth, step: Step, session: nat, now: int, used: set<nat>)
    requires SessionDead(a, session, now, used) && Issued(step) !! used && now <= step.at <= End(step)
    ensures SessionDead(Apply(a, step).0, session, End(step), used + Issued(step))
    ensures step.Validate? && step.session == session ==> Apply(a, step).1 == Address(None)
    ensures step.Lookup? && step.session == session ==> Apply(a, step).1 == Identity(None)
  {
  }

  /** Once a session has expired, been revoked or been swept away, nobody is ever let in with it again. */
  lemma {:induction false} DeadForever(a: Auth, steps: Steps, session: nat, now: int, used: set<nat>)
    requires SessionDead(a, session, now, used) && Chronological(steps, now) && FreshTokens(steps, used)
    ensures NeverAnswers(a, steps, session)
    decreases steps
  {
    match steps
    case NoSteps =>
    case Then(step, rest) =>
      DeadStaysDead(a, step, session, now, used);
      DeadForever(Apply(a, step).0, rest, session, End(step), used + Issued(step));
  }

  /** A logout that succeeds kills the session for every run that follows. */
  lemma LoggedOutForever(a: Auth, steps: Steps, session: nat, at: int, used: set<nat>)
    requires KnownTokens(a, used) && Chronological(steps, at) && FreshTokens(steps, used)
    requires RevokeSession(a, session, at).1
    ensures NeverAnswers(RevokeSession(a, session, at).0, steps, session)
  {
    DeadForever(RevokeSession(a, session, at).0, steps, session, at, used);
  }

  // ----- whom a link and a session stand for -----

  /** A login opens a session exactly for an open link whose address has an active user, with the user's own session. */
  lemma LoginOpensIff(a: Auth, hash: nat, session: nat, now: int, later: int, fault: nat)
    requires fault == 0 && session !in a.sessions
    ensures var (next, login) := VerifyMagicLink(a, hash, session, now, later, fault);
            && (login.session.Some? <==>
                  hash in a.links && OpenLink(a.links[hash], now) && ActiveUserByEmail(a, a.links[hash].email).Some?)
            && (login.session.Some? ==>
                  var email := a.links[hash].email;
                  && email in a.directory && a.directory[email] in a.active
                  && next.sessions == a.sessions[session := Session(a.directory[email], email, later + SESSION_TTL, None, later)])
  {
  }

  /** The link, as long as it exists, is the one sent to this address. */
  predicate LinkFor(a: Auth, hash: nat, email: string, used: set<nat>) {
    hash in used && (hash in a.links ==> a.links[hash].email == email)
  }

  /** No login of the run takes the link for another address's. */
  ghost predicate SpeaksFor(a: Auth, steps: Steps, hash: nat, email: string)
    decreases steps
  {
    match steps
    case NoSteps => true
    case Then(step, rest) =>
      && (step.Verify? && step.hash == hash ==> Apply(a, step).1.login.email in {None, Some(email)})
      && SpeaksFor(Apply(a, step).0, rest, hash, email)
  }

  lemma LinkKeepsAddress(a: Auth, step: Step, hash: nat, email: string, used: set<nat>)
    requires LinkFor(a, hash, email, used) && Issued(step) !! used
    ensures LinkFor(Apply(a, step).0, hash, email, used + Issued(step))
    ensures step.Verify? && step.hash == hash ==> Apply(a, step).1.login.email in {None, Some(email)}
  {
  }

  lemma {:induction false} LinkSpeaksForAddress(a: Auth, steps: Steps, hash: nat, email: string, used: set<nat>)
    requires LinkFor(a, hash, email, used) && FreshTokens(steps, used)
    ensures SpeaksFor(a, steps, hash, email)
    decreases steps
  {
    match steps
    case NoSteps =>
    case Then(step, rest) =>
      LinkKeepsAddress(a, step, hash, email, used);
      LinkSpeaksForAddress(Apply(a, step).0, rest, hash, email, used + Issued(step));
  }

  /** From the request on, over every run, a link logs nobody in but the address it was sent to. */
  lemma RequestedLinkSpeaks(a: Auth, step: Step, steps: Steps, used: set<nat>)
    requires KnownTokens(a, used) && step.Request? && FreshTokens(Then(step, steps), used)
    ensures SpeaksFor(Apply(a, step).0, steps, step.hash, step.email)
  {
    LinkSpeaksForAddress(Apply(a, step).0, steps, step.hash, step.email, used + Issued(step));
  }

  /** The session, as long as it exists, is this user's. */
  predicate SessionFor(a: Auth, session: nat, email: string, user: nat, used: set<nat>) {
    session in used && (session in a.sessions ==> a.sessions[session].email == email && a.sessions[session].user == user)
  }

  /** No step of the run takes the session for somebody else's. */
  ghost predicate Identifies(a: Auth, steps: Steps, session: nat, email: string, user: nat)
    decreases steps
  {
    match steps
    case NoSteps => true
    case Then(step, rest) =>
      && (step.Validate? && step.session == session ==> Apply(a, step).1.email in {None, Some(email)})
      && (step.Lookup? && step.session == session ==> Apply(a, step).1.user in {None, Some(user)})
      && Identifies(Apply(a, step).0, rest, session, email, user)
  }

  lemma SessionKeepsUser(a: Auth, step: Step, session: nat, email: string, user: nat, used: set<nat>)
    requires SessionFor(a, session, email, user, used) && Issued(step) !! used
    ensures SessionFor(Apply(a, step).0, session, email, user, used + Issued(step))
    ensures step.Validate? && step.session == session ==> Apply(a, step).1.email in {None, Some(email)}
    ensures step.Lookup? && step.session == session ==> Apply(a, step).1.user in {None, Some(user)}
  {
  }

  lemma {:induction false} SessionStaysHis(a: Auth, steps: Steps, session: nat, email: string, user: nat, used: set<nat>)
    requires SessionFor(a, session, email, user, used) && FreshTokens(steps, used)
    ensures Identifies(a, steps, session, email, user)
    decreases steps
  {
    match steps
    case NoSteps =>
    case Then(step, rest) =>
      SessionKeepsUser(a, step, session, email, user, used);
      SessionStaysHis(Apply(a, step).0, rest, session, email, user, used + Issued(step));
  }

  /** A login opens the session of the user whose address the link was sent to. */
  lemma LoginOpensHis(a: Auth, step: Step, used: set<nat>)
    requires KnownTokens(a, used) && step.Verify? && Issued(step) !! used && Apply(a, step).1.login.session.Some?
    ensures step.hash in a.links
    ensures var email := a.links[step.hash].email;
            email in a.directory
            && SessionFor(Apply(a, step).0, step.session, email, a.directory[email], used + Issued(step))
  {
  }

  /** From the login on, over every run, a session never answers for anybody but the user whose address the link was for. */
  lemma SessionIdentifiesUser(a: Auth, step: Step, steps: Steps, used: set<nat>)
    requires KnownTokens(a, used) && FreshTokens(Then(step, steps), used)
    requires step.Verify? && Apply(a, step).1.login.session.Some?
    ensures step.hash in a.links && a.links[step.hash].email in a.directory
    ensures var email := a.links[step.hash].email;
            Identifies(Apply(a, step).0, steps, step.session, email, a.directory[email])
  {
    LoginOpensHis(a, step, used);
    var email := a.links[step.hash].email;
    SessionStaysHis(Apply(a, step).0, steps, step.session, email, a.directory[email], used + Issued(step));
  }

  /** The sessions that logins with this link open answer for the address and its user only, for the rest of the run. */
  ghost predicate LoginsIdentify(a: Auth, steps: Steps, hash: nat, email: string)
    decreases steps
  {
    match steps
    case NoSteps => true
    case Then(step, rest) =>
      var (next, reply) := Apply(a, step);
      && (step.Verify? && step.hash == hash && reply.login.session.Some? ==>
            email in a.directory && Identifies(next, rest, step.session, email, a.directory[email]))
      && LoginsIdentify(next, rest, hash, email)
  }

  lemma {:induction false} LinkIdentifies(a: Auth, steps: Steps, hash: nat, email: string, used: set<nat>)
    requires KnownTokens(a, used) && LinkFor(a, hash, email, used) && FreshTokens(steps, used)
    ensures LoginsIdentify(a, steps, hash, email)
    decreases steps
  {
    match steps
    case NoSteps =>
    case Then(step, rest) =>
      var (next, reply) := Apply(a, step);
      StepKnowsTokens(a, step, used);
      LinkKeepsAddress(a, step, hash, email, used);
      if step.Verify? && step.hash == hash && reply.login.session.Some? {
        SessionIdentifiesUser(a, step, rest, used);
      }
      LinkIdentifies(next, rest, hash, email, used + Issued(step));
  }

  /** From the request of a link to the last use of a session it opened: nobody is taken for anybody but the address asked for. */
  lemma RequestedLinkIdentifies(a: Auth, step: Step, steps: Steps, used: set<nat>)
    requires KnownTokens(a, used) && step.Request? && FreshTokens(Then(step, steps), used)
    ensures LoginsIdentify(Apply(a, step).0, steps, step.hash, step.email)
  {
    StepKnowsTokens(a, step, used);
    LinkIdentifies(Apply(a, step).0, steps, step.hash, step.email, used + Issued(step));
  }
}
