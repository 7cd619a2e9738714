/**
 What the login service owes its users: a link that was asked for logs in, a session that was opened
 is recognised until it ends, and a logout ends it.
 */
module AuthAnswers {
  import opened Wrappers
  import opened AuthTables
  import opened AuthRuns

  // ----- one call -----

  /** The row is stored, has neither expired nor been revoked, and its user may log in. */
  predicate Live(a: Auth, session: nat, now: int) {
    session in a.sessions && a.sessions[session].expires > now && a.sessions[session].revoked == None
    && a.sessions[session].user in a.active
  }

  /** Only the time of last use changes, and only for a live session. */
  ghost predicate Noted(a: Auth, after: Auth, session: nat, now: int) {
    if Live(a, session, now)
    then after == a.(sessions := a.sessions[session := a.sessions[session].(seen := now)])
    else after == a
  }

  /** Both lookups recognise exactly the live sessions, with the user and the address of the row. */
  lemma RecognisedIff(a: Auth, session: nat, now: int)
    ensures var (after, user) := UserBySession(a, session, now);
            && (user.Some? <==> Live(a, session, now))
            && (user.Some? ==> user.value == a.sessions[session].user)
            && Noted(a, after, session, now)
    ensures var (after, email) := ValidateSession(a, session, now);
            && (email.Some? <==> Live(a, session, now))
            && (email.Some? ==> email.value == a.sessions[session].email)
            && Noted(a, after, session, now)
  {
  }

  /** A logout finds every stored session that was not revoked before, and revokes it only. */
  lemma RevokedIff(a: Auth, session: nat, now: int)
    ensures var (after, found) := RevokeSession(a, session, now);
            && (found <==> session in a.sessions && a.sessions[session].revoked == None)
            && (found ==> after == a.(sessions := a.sessions[session := a.sessions[session].(revoked := Some(now))]))
            && (!found ==> after == a)
  {
  }

  /** Housekeeping deletes exactly the links that are consumed or expired, and the sessions that expired or were revoked long ago. */
  lemma SweptExactly(a: Auth, now: int, retention: int)
    ensures var after := Cleanup(a, now, retention, 0);
            && after.directory == a.directory && after.active == a.active
            && (forall h :: h in after.links <==> h in a.links && a.links[h].consumed == None && a.links[h].expires > now)
            && (forall h :: h in after.links ==> after.links[h] == a.links[h])
            && (forall h :: h in after.sessions <==>
                  && h in a.sessions && a.sessions[h].expires > now
                  && (a.sessions[h].revoked.Some? ==> a.sessions[h].revoked.value > now - retention))
            && (forall h :: h in after.sessions ==> after.sessions[h] == a.sessions[h])
  {
  }

  // ----- a session, until it ends -----

  /** Somebody logs the session out, or the user is switched off. */
  predicate Ends(step: Step, session: nat, user: nat) {
    || (step.Logout? && step.session == session && step.fault == 0)
    || (step.Switch? && step.user == user && !step.on)
  }

  /** The answer to a lookup of the session, if the step is one that goes well. */
  predicate Recognises(step: Step, reply: Reply, session: nat, email: string, user: nat) {
    && (step.Validate? && step.session == session && step.fault == 0 ==> reply == Address(Some(email)))
    && (step.Lookup? && step.session == session && step.fault == 0 ==> reply == Identity(Some(user)))
  }

  /** Until it expires, or something ends it, every lookup of the session answers its user. */
  ghost predicate RecognisedUntilEnd(a: Auth, steps: Steps, session: nat, email: string, user: nat, expires: int)
    decreases steps
  {
    match steps
    case NoSteps => true
    case Then(step, rest) =>
      step.at < expires && !Ends(step, session, user) ==>
        && Recognises(step, Apply(a, step).1, session, email, user)
        && RecognisedUntilEnd(Apply(a, step).0, rest, session, email, user, expires)
  }

  /** The session is stored, open, and its user may log in. */
  predicate OpenFor(a: Auth, session: nat, email: string, user: nat, expires: int) {
    && session in a.sessions && user in a.active
    && var row := a.sessions[session];
       row.user == user && row.email == email && row.expires == expires && row.revoked == None
  }

  lemma StaysOpen(a: Auth, step: Step, session: nat, email: string, user: nat, expires: int)
    requires OpenFor(a, session, email, user, expires) && step.at < expires && !Ends(step, session, user)
    ensures Recognises(step, Apply(a, step).1, session, email, user)
    ensures OpenFor(Apply(a, step).0, session, email, user, expires)
  {
  }

  lemma {:induction false} OpenIsRecognised(a: Auth, steps: Steps, session: nat, email: string, user: nat, expires: int)
    requires OpenFor(a, session, email, user, expires)
    ensures RecognisedUntilEnd(a, steps, session, email, user, expires)
    decreases steps
  {
    match steps
    case NoSteps =>
    case Then(step, rest) =>
      if step.at < expires && !Ends(step, session, user) {
        StaysOpen(a, step, session, email, user, expires);
        OpenIsRecognised(Apply(a, step).0, rest, session, email, user, expires);
      }
  }

  /**
   A login that opened a session: for thirty days, whatever else is called and whatever is swept, the
   session is recognised as the user's, until it is logged out or the user is switched off.
   */
  lemma LoginIsRecognised(a: Auth, step: Step, steps: Steps)
    requires step.Verify? && Apply(a, step).1.login.session.Some?
    ensures step.hash in a.links && a.links[step.hash].email in a.directory
    ensures var email := a.links[step.hash].email;
            RecognisedUntilEnd(Apply(a, step).0, steps, step.session, email, a.directory[email],
                               step.later + 30 * 24 * 60 * 60)
  {
    var email := a.links[step.hash].email;
    OpenIsRecognised(Apply(a, step).0, steps, step.session, email, a.directory[email], step.later + 30 * 24 * 60 * 60);
  }

  /** Logging out of a session that is recognised goes well, and it is never recognised again. */
  lemma LogoutEnds(a: Auth, session: nat, at: int, steps: Steps, used: set<nat>)
    requires KnownTokens(a, used) && Chronological(steps, at) && FreshTokens(steps, used) && Live(a, session, at)
    ensures Apply(a, Logout(session, at, 0)).1 == Done(true)
    ensures NeverAnswers(Apply(a, Logout(session, at, 0)).0, steps, session)
  {
    LoggedOutForever(a, steps, session, at, used);
  }

  // ----- a link, until it expires -----

  /** The login with the link that goes well opens the session, if the address has an active user. */
  predicate LogsIn(a: Auth, step: Step, reply: Reply, email: string) {
    step.Verify? && step.fault == 0 && step.session !in a.sessions && email in a.directory && a.directory[email] in a.active ==>
      reply == Verified(Login(Some(email), Some(step.session)))
  }

  /** The first login with the link that reaches it before it expires opens a session. */
  ghost predicate LogsInUntilUsed(a: Auth, steps: Steps, hash: nat, email: string, expires: int)
    decreases steps
  {
    match steps
    case NoSteps => true
    case Then(step, rest) =>
      if step.at >= expires then true
      else if step.Verify? && step.hash == hash && step.fault != 1 then LogsIn(a, step, Apply(a, step).1, email)
      else LogsInUntilUsed(Apply(a, step).0, rest, hash, email, expires)
  }

  predicate OpenLinkFor(a: Auth, hash: nat, email: string, expires: int) {
    hash in a.links && a.links[hash] == Link(email, expires, None)
  }

  lemma LinkStaysOpen(a: Auth, step: Step, hash: nat, email: string, expires: int)
    requires OpenLinkFor(a, hash, email, expires) && step.at < expires
    requires !(step.Verify? && step.hash == hash && step.fault != 1)
    ensures OpenLinkFor(Apply(a, step).0, hash, email, expires)
  {
  }

  lemma {:induction false} OpenLinkLogsIn(a: Auth, steps: Steps, hash: nat, email: string, expires: int)
    requires OpenLinkFor(a, hash, email, expires)
    ensures LogsInUntilUsed(a, steps, hash, email, expires)
    decreases steps
  {
    match steps
    case NoSteps =>
    case Then(step, rest) =>
      if step.at < expires && !(step.Verify? && step.hash == hash && step.fault != 1) {
        LinkStaysOpen(a, step, hash, email, expires);
        OpenLinkLogsIn(Apply(a, step).0, rest, hash, email, expires);
      }
  }

  /** A link that was asked for: for fifteen minutes, whatever else is called and swept, the first login that reaches it opens a session. */
  lemma RequestedLinkLogsIn(a: Auth, step: Step, steps: Steps)
    requires step.Request? && step.fault == 0 && step.hash !in a.links
    ensures Apply(a, step).1 == Done(true)
    ensures LogsInUntilUsed(Apply(a, step).0, steps, step.hash, step.email, step.at + 15 * 60)
  {
    OpenLinkLogsIn(Apply(a, step).0, steps, step.hash, step.email, step.at + 15 * 60);
  }
}
