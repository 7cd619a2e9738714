/**
 What each membership request does: when it is granted, which seat or invitation it changes, and
 that an invitation that was granted lets its addressee in.
 */
module MembershipEffects {
  import opened Wrappers
  import opened Text
  import opened Membership
  import opened MembershipRuns

  // ----- the rules, on the rows -----

  /** Owners and admins manage members. */
  predicate Manages(actor: Role) {
    actor == Owner || actor == Admin
  }

  /** The text names the role, up to case and white space around it. */
  predicate Names(text: string, role: Role) {
    match role
    case Owner => Normal(text) == "owner"
    case Admin => Normal(text) == "admin"
    case Member => Normal(text) == "member"
    case Viewer => Normal(text) == "viewer"
  }

  predicate HasRole(t: Tables, org: nat, user: nat, role: Role) {
    Seat(org, user) in t.members && t.members[Seat(org, user)] == role
  }

  /** He is an owner, and nobody else is. */
  ghost predicate OnlyOwnerIs(t: Tables, org: nat, user: nat) {
    HasRole(t, org, user, Owner) && forall other :: other != user ==> !HasRole(t, org, other, Owner)
  }

  /** All seats but this one are as before, and so is everything else. */
  ghost predicate OnlySeat(t: Tables, after: Tables, org: nat, user: nat) {
    && after == t.(members := after.members)
    && forall seat: Seat :: seat != Seat(org, user) ==>
         (seat in after.members <==> seat in t.members) && (seat in t.members ==> after.members[seat] == t.members[seat])
  }

  lemma LastOwnerIs(t: Tables, org: nat, user: nat)
    ensures LastOwner(t, org, user) <==> OnlyOwnerIs(t, org, user)
  {
    OwnersAre(t, org);
    if LastOwner(t, org, user) {
      assert user in Owners(t, org);
      forall other | other != user
        ensures !HasRole(t, org, other, Owner)
      {
        assert other !in Owners(t, org);
      }
    }
    if OnlyOwnerIs(t, org, user) {
      assert user in Owners(t, org);
      forall other | other in Owners(t, org)
        ensures other == user
      {
        assert HasRole(t, org, other, Owner);
      }
      assert Owners(t, org) == {user};
    }
  }

  lemma ParsedIsNamed(text: string, role: Role)
    ensures ParseRole(text) == Some(role) <==> Names(text, role)
  {
  }

  /** Refused changes nothing; the requests about members end in one or the other. */
  ghost predicate DoneOrNothing(t: Tables, after: Tables, outcome: Outcome) {
    outcome == Done || (outcome == Refused && after == t)
  }

  // ----- members -----

  /** Removing a member: granted to those who manage members, for a seat that is taken, unless by the last owner. */
  lemma RemoveExactly(t: Tables, actor: Role, org: nat, user: nat, fails: bool)
    ensures var (after, outcome) := Apply(t, Remove(actor, org, user, fails));
            && (outcome == Done <==>
                  !fails && Manages(actor) && Seat(org, user) in t.members && !OnlyOwnerIs(t, org, user))
            && (outcome == Done ==> Seat(org, user) !in after.members && OnlySeat(t, after, org, user))
            && DoneOrNothing(t, after, outcome)
  {
    LastOwnerIs(t, org, user);
  }

  /** Changing a role: granted likewise, if the text names a role; the last owner stays an owner. */
  lemma ChangeRoleExactly(t: Tables, actor: Role, org: nat, user: nat, text: string, fails: bool, role: Role)
    requires Names(text, role)
    ensures var (after, outcome) := Apply(t, ChangeRole(actor, org, user, text, fails));
            && (outcome == Done <==>
                  && !fails && Manages(actor) && Seat(org, user) in t.members
                  && (role == Owner || !OnlyOwnerIs(t, org, user)))
            && (outcome == Done ==> HasRole(after, org, user, role) && OnlySeat(t, after, org, user))
            && DoneOrNothing(t, after, outcome)
  {
    LastOwnerIs(t, org, user);
    ParsedIsNamed(text, role);
  }

  lemma UnnamedRoleRefused(t: Tables, actor: Role, org: nat, user: nat, text: string, fails: bool)
    requires forall role :: !Names(text, role)
    ensures Apply(t, ChangeRole(actor, org, user, text, fails)) == (t, Refused)
  {
    forall role
      ensures ParseRole(text) != Some(role)
    {
      ParsedIsNamed(text, role);
    }
  }

  /** A new organization has its creator as owner, and changes no other seat. */
  lemma CreateExactly(t: Tables, org: nat, owner: nat, fails: bool)
    ensures var (after, outcome) := Apply(t, Create(org, owner, fails));
            && (outcome == Done <==> !fails && org !in t.orgs)
            && (outcome == Done ==>
                && HasRole(after, org, owner, Owner) && after.orgs == t.orgs + {org}
                && OnlySeat(t.(orgs := after.orgs), after, org, owner))
            && DoneOrNothing(t, after, outcome)
  {
  }

  // ----- invitations -----

  predicate Address(text: string) {
    Normal(text) != "" && '@' in Normal(text)
  }

  /** The invitation as it is stored: to the normalized address, for seven days. */
  function Invited(org: nat, email: string, role: Role, token: nat, at: int): Invitation {
    Invitation(org, Normal(email), role, token, at + 7 * 24 * 60 * 60, None)
  }

  /** Inviting: granted to those who manage members, for an address and any role but owner; it stores the invitation and nothing else. */
  lemma InviteExactly(t: Tables, actor: Role, org: nat, email: string, text: string, id: nat, token: nat, at: int, fails: bool,
                      role: Role)
    requires Names(text, role)
    ensures var (after, outcome) := Apply(t, Asking(actor, org, email, text, id, token, at, fails));
            && (outcome == Done <==>
                  && !fails && Manages(actor) && Address(email) && role != Owner
                  && org in t.orgs && id !in t.invitations && token !in t.byToken)
            && (outcome == Done ==>
                  after == t.(invitations := t.invitations[id := Invited(org, email, role, token, at)],
                              byToken := t.byToken[token := id]))
            && DoneOrNothing(t, after, outcome)
  {
    ParsedIsNamed(text, role);
  }

  /** Sending again: granted for an invitation of the organization that was not accepted; it has the new token and seven days more. */
  lemma ResendExactly(t: Tables, actor: Role, org: nat, id: nat, token: nat, at: int, fails: bool)
    requires Valid(t)
    ensures var (after, outcome) := Apply(t, AskingAgain(actor, org, id, token, at, fails));
            && (outcome == Done <==>
                  && !fails && Manages(actor) && id in t.invitations && token !in t.byToken
                  && t.invitations[id].org == org && t.invitations[id].accepted == None)
            && (outcome == Done ==>
                  var inv := t.invitations[id];
                  && after == t.(invitations := after.invitations, byToken := after.byToken)
                  && after.invitations == t.invitations[id := inv.(token := token, expires := at + 7 * 24 * 60 * 60)]
                  && after.byToken == (t.byToken - {inv.token})[token := id])
            && DoneOrNothing(t, after, outcome)
  {
  }

  /** Joining: the invitation's role on the user's seat, the invitation marked, and nothing else. */
  lemma JoinExactly(t: Tables, user: nat, email: string, token: nat, at: int, fails: bool, id: nat)
    requires Valid(t)
    ensures var (after, outcome) := Apply(t, Joining(user, email, token, at, fails));
            && (outcome == Joined(id) <==>
                  !fails && id in t.invitations && t.invitations[id].token == token && OpenTo(t.invitations[id], email, at))
            && (outcome == Joined(id) ==>
                  var inv := t.invitations[id];
                  && HasRole(after, inv.org, user, inv.role) && after.orgs == t.orgs && after.byToken == t.byToken
                  && after.invitations == t.invitations[id := inv.(accepted := Some(at))]
                  && OnlySeat(t.(invitations := after.invitations), after, inv.org, user))
            && (outcome.Joined? || (outcome == Refused && after == t))
  {
    AcceptNeedsCurrentToken(t, user, email, token, at, id);
  }

  // ----- an invitation, until it is used -----

  /** The step sends this invitation again, or joins with its token. */
  predicate Uses(step: Step, id: nat, token: nat) {
    (step.AskingAgain? && step.id == id) || (step.Joining? && step.token == token)
  }

  /** Whoever first joins with the token, under the address and in time, gets the seat with the role. */
  ghost predicate LetsIn(t: Tables, steps: Steps, id: nat, inv: Invitation)
    decreases steps
  {
    steps.Then? ==>
      var step := steps.step;
      var (next, outcome) := Apply(t, step);
      if !Uses(step, id, inv.token) || step.fails then LetsIn(next, steps.rest, id, inv)
      else step.Joining? && OpenTo(inv, step.email, step.at) ==>
             outcome == Joined(id) && HasRole(next, inv.org, step.user, inv.role)
  }

  predicate Stored(t: Tables, id: nat, inv: Invitation) {
    id in t.invitations && t.invitations[id] == inv
  }

  lemma StaysStored(t: Tables, step: Step, id: nat, inv: Invitation)
    requires Valid(t) && Stored(t, id, inv) && (!Uses(step, id, inv.token) || step.fails)
    ensures Valid(Apply(t, step).0) && Stored(Apply(t, step).0, id, inv)
  {
    StepKeepsValid(t, step);
  }

  lemma {:induction false} StoredLetsIn(t: Tables, steps: Steps, id: nat, inv: Invitation)
    requires Valid(t) && Stored(t, id, inv)
    ensures LetsIn(t, steps, id, inv)
    decreases steps
  {
    if steps.Then? {
      var step := steps.step;
      if !Uses(step, id, inv.token) || step.fails {
        StaysStored(t, step, id, inv);
        StoredLetsIn(Apply(t, step).0, steps.rest, id, inv);
      } else if step.Joining? {
        JoinExactly(t, step.user, step.email, step.token, step.at, step.fails, id);
      }
    }
  }

  /** An invitation that was granted lets its addressee in, whatever else is requested in between. */
  lemma InvitedIsLetIn(t: Tables, step: Step, steps: Steps, role: Role)
    requires Valid(t) && step.Asking? && Names(step.role, role) && Apply(t, step).1 == Done
    ensures LetsIn(Apply(t, step).0, steps, step.id, Invited(step.org, step.email, role, step.token, step.at))
  {
    InviteExactly(t, step.actor, step.org, step.email, step.role, step.id, step.token, step.at, step.fails, role);
    StepKeepsValid(t, step);
    StoredLetsIn(Apply(t, step).0, steps, step.id, Invited(step.org, step.email, role, step.token, step.at));
  }
}
