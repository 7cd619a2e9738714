/**
 Properties of every sequential run of the membership use cases: who keeps an owner, and
 what a token can still do.
 */
module MembershipRuns {
  import opened Wrappers
  import opened Text
  import opened Membership

  // ----- owners -----

  /** Every organization has an owner. */
  ghost predicate AllOwned(t: Tables) {
    forall org :: org in t.orgs ==> Owners(t, org) != {}
  }

  lemma OwnersAre(t: Tables, org: nat)
    ensures forall user :: user in Owners(t, org) <==> IsOwner(t, org, user)
  {
    forall user ensures user in Owners(t, org) <==> IsOwner(t, org, user) {
      if IsOwner(t, org, user) {
        assert Seat(org, user).user == user;
      }
    }
  }

  /** Giving a user a role changes the owners by that user only. */
  lemma OwnersOfWithMember(t: Tables, org: nat, user: nat, role: Role, other: nat)
    ensures Owners(WithMember(t, org, user, role), other) ==
            if other != org then Owners(t, other)
            else if role.Owner? then Owners(t, org) + {user}
            else Owners(t, org) - {user}
  {
    var next := WithMember(t, org, user, role);
    OwnersAre(t, other);
    OwnersAre(next, other);
    forall u ensures IsOwner(next, other, u) <==>
                     if Seat(other, u) == Seat(org, user) then role.Owner? else IsOwner(t, other, u) {}
  }

  lemma OwnersOfRemoved(t: Tables, org: nat, user: nat, other: nat)
    ensures Owners(t.(members := t.members - {Seat(org, user)}), other) ==
            if other != org then Owners(t, other) else Owners(t, org) - {user}
  {
    var next := t.(members := t.members - {Seat(org, user)});
    OwnersAre(t, other);
    OwnersAre(next, other);
    forall u ensures IsOwner(next, other, u) <==> Seat(other, u) != Seat(org, user) && IsOwner(t, other, u) {}
  }

  /** The invitation is open to this address: not accepted yet, not expired, and addressed to it. */
  predicate OpenTo(inv: Invitation, email: string, now: int) {
    inv.expires > now && inv.accepted.None? && Lower(inv.email) == Lower(email)
  }

  /** The step is the sole owner accepting an open invitation to his own organization. */
  predicate DemotesLastOwner(t: Tables, step: Step) {
    && step.Joining? && !step.fails && step.token in t.byToken && t.byToken[step.token] in t.invitations
    && var inv := t.invitations[t.byToken[step.token]];
       OpenTo(inv, step.email, step.at) && inv.org in t.orgs && LastOwner(t, inv.org, step.user)
  }

  /** The step accepts the invitation with this id. */
  predicate Joins(t: Tables, step: Step, id: nat) {
    && step.Joining? && !step.fails && id in t.invitations
    && t.invitations[id].token == step.token && OpenTo(t.invitations[id], step.email, step.at)
  }

  /** The owners after a step, for one organization. */
  lemma StepOnOwners(t: Tables, step: Step, org: nat)
    requires Valid(t) && Owners(t, org) != {}
    ensures Owners(Apply(t, step).0, org) == {} <==>
            exists id :: Joins(t, step, id) && t.invitations[id].org == org && LastOwner(t, org, step.user)
  {
    if !step.fails {
      match step
      case Create(o, owner, _) => OwnersOfWithMember(t, o, owner, Owner, org);
      case ChangeRole(_, o, user, role, _) =>
        if ParseRole(role).Some? {
          OwnersOfWithMember(t, o, user, ParseRole(role).value, org);
        }
      case Remove(_, o, user, _) => OwnersOfRemoved(t, o, user, org);
      case Asking(_, _, _, _, _, _, _, _) =>
      case AskingAgain(_, _, _, _, _, _) =>
      case Joining(user, email, token, at, _) => JoiningOnOwners(t, user, email, token, at, org);
    }
  }

  lemma SameMembersSameOwners(t: Tables, t': Tables, org: nat)
    requires t.members == t'.members
    ensures Owners(t, org) == Owners(t', org)
  {
  }

  /**
   Accepting works exactly with the current token of an invitation, for its address, in its time, and
   once: then the outcome names the invitation that has the token.
   */
  lemma AcceptNeedsCurrentToken(t: Tables, user: nat, email: string, token: nat, now: int, id: nat)
    requires Valid(t)
    ensures Accept(t, user, email, token, now).1 == Joined(id) <==>
            id in t.invitations && t.invitations[id].token == token && OpenTo(t.invitations[id], email, now)
  {
  }

  lemma JoiningOnOwners(t: Tables, user: nat, email: string, token: nat, now: int, org: nat)
    requires Valid(t) && Owners(t, org) != {}
    ensures Owners(Accept(t, user, email, token, now).0, org) == {} <==>
            exists id :: Joins(t, Joining(user, email, token, now, false), id) && t.invitations[id].org == org
                         && LastOwner(t, org, user)
  {
    var (next, outcome) := Accept(t, user, email, token, now);
    if outcome.Joined? {
      var inv := t.invitations[outcome.invitation];
      AcceptNeedsCurrentToken(t, user, email, token, now, outcome.invitation);
      assert Joins(t, Joining(user, email, token, now, false), outcome.invitation);
      OwnersOfWithMember(t, inv.org, user, inv.role, org);
      SameMembersSameOwners(WithMember(t, inv.org, user, inv.role), next, org);
    } else {
      forall id
        ensures !Joins(t, Joining(user, email, token, now, false), id)
      {
        AcceptNeedsCurrentToken(t, user, email, token, now, id);
      }
    }
  }

  lemma CreatedIsOwned(t: Tables, step: Step)
    requires step.Create? && Apply(t, step).1.Done?
    ensures Owners(Apply(t, step).0, step.org) != {}
  {
    OwnersOfWithMember(t, step.org, step.owner, Owner, step.org);
    SameMembersSameOwners(WithMember(t, step.org, step.owner, Owner), Apply(t, step).0, step.org);
    assert step.owner in Owners(Apply(t, step).0, step.org);
  }

  /** An organization whose last owner accepts an invitation to it. */
  lemma DemotionIs(t: Tables, step: Step)
    requires Valid(t)
    ensures DemotesLastOwner(t, step) <==>
            exists id :: Joins(t, step, id) && t.invitations[id].org in t.orgs && LastOwner(t, t.invitations[id].org, step.user)
  {
    if DemotesLastOwner(t, step) {
      assert Joins(t, step, t.byToken[step.token]);
    }
  }

  /** Exactly one step can leave an organization without an owner: its last owner accepting an invitation to it. */
  lemma StepKeepsOwnersIff(t: Tables, step: Step)
    requires Valid(t) && AllOwned(t)
    ensures AllOwned(Apply(t, step).0) <==> !DemotesLastOwner(t, step)
  {
    var next := Apply(t, step).0;
    DemotionIs(t, step);
    forall org | org in t.orgs
      ensures Owners(next, org) == {} <==>
              exists id :: Joins(t, step, id) && t.invitations[id].org == org && LastOwner(t, org, step.user)
    {
      StepOnOwners(t, step, org);
    }
    if step.Create? && Apply(t, step).1.Done? {
      CreatedIsOwned(t, step);
    }
    if DemotesLastOwner(t, step) {
      var id :| Joins(t, step, id) && t.invitations[id].org in t.orgs && LastOwner(t, t.invitations[id].org, step.user);
      assert Owners(next, t.invitations[id].org) == {};
    }
  }

  /** Every state of the run has owners everywhere. */
  ghost predicate AlwaysOwned(t: Tables, steps: Steps)
    decreases steps
  {
    AllOwned(t) && (steps.Then? ==> AlwaysOwned(Apply(t, steps.step).0, steps.rest))
  }

  ghost predicate LastOwnersNeverJoin(t: Tables, steps: Steps)
    decreases steps
  {
    steps.Then? ==> !DemotesLastOwner(t, steps.step) && LastOwnersNeverJoin(Apply(t, steps.step).0, steps.rest)
  }

  /** Over every run: owners everywhere, throughout, if and only if no last owner accepts an invitation to his own organization. */
  lemma {:induction false} OwnersOverRuns(t: Tables, steps: Steps)
    requires Valid(t) && AllOwned(t)
    ensures AlwaysOwned(t, steps) <==> LastOwnersNeverJoin(t, steps)
    decreases steps
  {
    if steps.Then? {
      var next := Apply(t, steps.step).0;
      StepKeepsOwnersIff(t, steps.step);
      StepKeepsValid(t, steps.step);
      if AllOwned(next) {
        OwnersOverRuns(next, steps.rest);
      }
    }
  }

  /** And it can happen: an organization whose last owner is invited under his own address, and accepts. */
  lemma LastOwnerDemotedByInvitation(t: Tables, org: nat, user: nat, id: nat, inv: Invitation, email: string, now: int)
    requires Valid(t) && org in t.orgs && LastOwner(t, org, user)
    requires id !in t.invitations && inv.token !in t.byToken
    requires inv.org == org && !inv.role.Owner? && inv.accepted.None? && inv.expires > now
    requires Lower(inv.email) == Lower(email)
    ensures var invited := Insert(t, id, inv);
            var joined := Accept(invited.0, user, email, inv.token, now);
            invited.1.Done? && joined.1 == Joined(id) && Owners(joined.0, org) == {}
  {
    var invited := Insert(t, id, inv).0;
    InsertKeepsValid(t, id, inv);
    SameMembersSameOwners(t, invited, org);
    JoiningOnOwners(invited, user, email, inv.token, now, org);
    assert Joins(invited, Joining(user, email, inv.token, now, false), id);
  }

  // ----- invitations -----

  /** How often the invitation was accepted in a run. */
  function TimesAccepted(t: Tables, steps: Steps, id: nat): nat
    decreases steps
  {
    match steps
    case NoSteps => 0
    case Then(step, rest) =>
      var (next, outcome) := Apply(t, step);
      (if outcome == Joined(id) then 1 else 0) + TimesAccepted(next, rest, id)
  }

  predicate IsAccepted(t: Tables, id: nat) {
    id in t.invitations && t.invitations[id].accepted.Some?
  }

  lemma InsertOnAccepted(t: Tables, id: nat, inv: Invitation, other: nat)
    ensures IsAccepted(t, other) ==> IsAccepted(Insert(t, id, inv).0, other)
  {
  }

  lemma AcceptOnAccepted(t: Tables, user: nat, email: string, token: nat, now: int, id: nat)
    ensures var (next, outcome) := Accept(t, user, email, token, now);
            && (IsAccepted(t, id) ==> IsAccepted(next, id) && outcome != Joined(id))
            && (outcome == Joined(id) ==> IsAccepted(next, id))
  {
  }

  lemma ResendOnAccepted(t: Tables, actor: Role, org: nat, id: nat, token: nat, now: int, other: nat)
    ensures IsAccepted(t, other) ==> IsAccepted(Resend(t, actor, org, id, token, now).0, other)
    ensures !Resend(t, actor, org, id, token, now).1.Joined?
  {
  }

  lemma StepOnAccepted(t: Tables, step: Step, id: nat)
    ensures IsAccepted(t, id) ==> IsAccepted(Apply(t, step).0, id) && Apply(t, step).1 != Joined(id)
    ensures Apply(t, step).1 == Joined(id) ==> IsAccepted(Apply(t, step).0, id)
  {
    if !step.fails {
      match step
      case Asking(actor, org, email, role, i, token, at, _) =>
        var inv := InvitationFor(actor, org, email, role, token, at);
        if inv.Some? {
          InsertOnAccepted(t, i, inv.value, id);
        }
      case AskingAgain(actor, org, i, token, at, _) => ResendOnAccepted(t, actor, org, i, token, at, id);
      case Joining(user, email, token, at, _) => AcceptOnAccepted(t, user, email, token, at, id);
      case _ =>
    }
  }

  lemma {:induction false} AcceptedNeverAgain(t: Tables, steps: Steps, id: nat)
    requires IsAccepted(t, id)
    ensures TimesAccepted(t, steps, id) == 0
    decreases steps
  {
    if steps.Then? {
      StepOnAccepted(t, steps.step, id);
      AcceptedNeverAgain(Apply(t, steps.step).0, steps.rest, id);
    }
  }

  /** Over every run, an invitation changes a membership at most once. */
  lemma {:induction false} AcceptedAtMostOnce(t: Tables, steps: Steps, id: nat)
    ensures TimesAccepted(t, steps, id) <= 1
    decreases steps
  {
    if steps.Then? {
      StepOnAccepted(t, steps.step, id);
      if Apply(t, steps.step).1 == Joined(id) {
        AcceptedNeverAgain(Apply(t, steps.step).0, steps.rest, id);
      } else {
        AcceptedAtMostOnce(Apply(t, steps.step).0, steps.rest, id);
      }
    }
  }

  function Issued(step: Step): set<nat> {
    if step.Asking? || step.AskingAgain? then {step.token} else {}
  }

  predicate FreshTokens(steps: Steps, used: set<nat>) {
    steps.Then? ==> Issued(steps.step) !! used && FreshTokens(steps.rest, used + Issued(steps.step))
  }

  /** No step of the run gets anywhere with the token. */
  ghost predicate TokenUseless(t: Tables, steps: Steps, token: nat)
    decreases steps
  {
    steps.Then? ==>
      && (steps.step.Joining? && steps.step.token == token ==> Apply(t, steps.step) == (t, Refused))
      && TokenUseless(Apply(t, steps.step).0, steps.rest, token)
  }

  lemma UnknownTokenStays(t: Tables, step: Step, token: nat)
    requires token !in t.byToken && token !in Issued(step)
    ensures token !in Apply(t, step).0.byToken
    ensures step.Joining? && step.token == token ==> Apply(t, step) == (t, Refused)
  {
  }

  lemma {:induction false} UnknownTokenIsUseless(t: Tables, steps: Steps, token: nat, used: set<nat>)
    requires token !in t.byToken && token in used && FreshTokens(steps, used)
    ensures TokenUseless(t, steps, token)
    decreases steps
  {
    if steps.Then? {
      UnknownTokenStays(t, steps.step, token);
      UnknownTokenIsUseless(Apply(t, steps.step).0, steps.rest, token, used + Issued(steps.step));
    }
  }

  /** After a resend the token it replaced is useless in every run that follows. */
  lemma ResendReplacesToken(t: Tables, step: Step, steps: Steps, used: set<nat>)
    requires Valid(t) && step.AskingAgain? && Apply(t, step).1.Done?
    requires t.byToken.Keys <= used && FreshTokens(Then(step, steps), used)
    ensures TokenUseless(Apply(t, step).0, steps, t.invitations[step.id].token)
  {
    UnknownTokenIsUseless(Apply(t, step).0, steps, t.invitations[step.id].token, used + Issued(step));
  }
}
