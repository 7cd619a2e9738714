/**
 Organizations: members and their roles, invitations, and the rule that an organization
 never loses its last owner. Specification functions, one per use case; a use case that
 the database refuses changes nothing.
 */
module Membership {
  import opened Wrappers
  import opened Text

  datatype Role = Owner | Admin | Member | Viewer

  datatype Seat = Seat(org: nat, user: nat)

  datatype Invitation = Invitation(org: nat, email: string, role: Role, token: nat, expires: int, accepted: Option<int>)

  /** Members by organization and user, invitations by id, and the unique index on their token hashes. */
  datatype Tables = Tables(
    orgs: set<nat>, members: map<Seat, Role>, invitations: map<nat, Invitation>, byToken: map<nat, nat>)

  const INVITATION_TTL := 7 * 24 * 60 * 60

  function ParseRole(text: string): Option<Role> {
    var role := Normal(text);
    if role == "owner" then Some(Owner)
    else if role == "admin" then Some(Admin)
    else if role == "member" then Some(Member)
    else if role == "viewer" then Some(Viewer)
    else None
  }

  predicate CanManageMembers(role: Role) {
    role.Owner? || role.Admin?
  }

  // ----- the rows -----

  predicate IsOwner(t: Tables, org: nat, user: nat) {
    Seat(org, user) in t.members && t.members[Seat(org, user)].Owner?
  }

  /** The set of an organization's owners. */
  function Owners(t: Tables, org: nat): set<nat> {
    set seat | seat in t.members && seat.org == org && t.members[seat].Owner? :: seat.user
  }

  predicate LastOwner(t: Tables, org: nat, user: nat) {
    Owners(t, org) == {user}
  }

  function WithMember(t: Tables, org: nat, user: nat, role: Role): Tables {
    t.(members := t.members[Seat(org, user) := role])
  }

  function WithInvitation(t: Tables, id: nat, inv: Invitation): Tables {
    t.(invitations := t.invitations[id := inv], byToken := t.byToken[inv.token := id])
  }

  /** The index is the inverse of the token column, and nobody is invited as an owner. */
  ghost predicate Valid(t: Tables) {
    && (forall token :: token in t.byToken ==>
          t.byToken[token] in t.invitations && t.invitations[t.byToken[token]].token == token)
    && (forall id :: id in t.invitations ==>
          t.invitations[id].token in t.byToken && t.byToken[t.invitations[id].token] == id)
    && (forall id :: id in t.invitations ==> !t.invitations[id].role.Owner?)
  }

  // ----- the use cases -----

  datatype Outcome = Refused | Done | Joined(invitation: nat)

  function CreateOrganization(t: Tables, org: nat, owner: nat): (Tables, Outcome) {
    if org in t.orgs then (t, Refused)
    else (WithMember(t, org, owner, Owner).(orgs := t.orgs + {org}), Done)
  }

  function UpdateRole(t: Tables, actor: Role, org: nat, user: nat, role: string): (Tables, Outcome) {
    if !CanManageMembers(actor) then (t, Refused)
    else
      match ParseRole(role)
      case None => (t, Refused)
      case Some(parsed) =>
        if !parsed.Owner? && LastOwner(t, org, user) then (t, Refused)
        else if Seat(org, user) !in t.members then (t, Refused)
        else (WithMember(t, org, user, parsed), Done)
  }

  function RemoveMember(t: Tables, actor: Role, org: nat, user: nat): (Tables, Outcome) {
    if !CanManageMembers(actor) || LastOwner(t, org, user) || Seat(org, user) !in t.members then (t, Refused)
    else (t.(members := t.members - {Seat(org, user)}), Done)
  }

  /** The row for an invitation: a normalised address, and any role but owner. */
  function InvitationFor(actor: Role, org: nat, email: string, role: string, token: nat, now: int)
    : (r: Option<Invitation>)
    ensures r.Some? ==> !r.value.role.Owner? && r.value.accepted.None? && r.value.token == token && r.value.org == org
  {
    var address, parsed := Normal(email), ParseRole(role);
    if !CanManageMembers(actor) || address == "" || '@' !in address then None
    else if parsed.None? || parsed.value.Owner? then None
    else Some(Invitation(org, address, parsed.value, token, now + INVITATION_TTL, None))
  }

  /** Inserting it; ids and token hashes are unique. */
  function Insert(t: Tables, id: nat, inv: Invitation): (Tables, Outcome) {
    if inv.token in t.byToken || id in t.invitations || inv.org !in t.orgs then (t, Refused)
    else (WithInvitation(t, id, inv), Done)
  }

  function InsertIf(t: Tables, id: nat, inv: Option<Invitation>): (Tables, Outcome) {
    if inv.None? then (t, Refused) else Insert(t, id, inv.value)
  }

  function Invite(t: Tables, actor: Role, org: nat, email: string, role: string, id: nat, token: nat, now: int)
    : (Tables, Outcome)
  {
    InsertIf(t, id, InvitationFor(actor, org, email, role, token, now))
  }

  /** A new token and a new period of validity, for an invitation not accepted yet. */
  function Resend(t: Tables, actor: Role, org: nat, id: nat, token: nat, now: int): (Tables, Outcome) {
    if !CanManageMembers(actor) || id !in t.invitations || token in t.byToken then (t, Refused)
    else
      var inv := t.invitations[id];
      if inv.org != org || inv.accepted.Some? then (t, Refused)
      else
        var dropped := t.(byToken := t.byToken - {inv.token});
        (WithInvitation(dropped, id, inv.(token := token, expires := now + INVITATION_TTL)), Done)
  }

  /** Joining: the role of the invitation replaces whatever role the user had. */
  function Accept(t: Tables, user: nat, email: string, token: nat, now: int): (Tables, Outcome) {
    if token !in t.byToken || t.byToken[token] !in t.invitations then (t, Refused)
    else
      var id := t.byToken[token];
      var inv := t.invitations[id];
      if inv.expires <= now || Lower(inv.email) != Lower(email) || inv.accepted.Some? then (t, Refused)
      else
        var joined := WithMember(t, inv.org, user, inv.role);
        (joined.(invitations := t.invitations[id := inv.(accepted := Some(now))]), Joined(id))
  }

  // ----- runs -----

  datatype Step =
    | Create(org: nat, owner: nat, fails: bool)
    | ChangeRole(actor: Role, org: nat, user: nat, role: string, fails: bool)
    | Remove(actor: Role, org: nat, user: nat, fails: bool)
    | Asking(actor: Role, org: nat, email: string, role: string, id: nat, token: nat, at: int, fails: bool)
    | AskingAgain(actor: Role, org: nat, id: nat, token: nat, at: int, fails: bool)
    | Joining(user: nat, email: string, token: nat, at: int, fails: bool)

  function Apply(t: Tables, step: Step): (Tables, Outcome) {
    if step.fails then (t, Refused)
    else
      match step
      case Create(org, owner, _) => CreateOrganization(t, org, owner)
      case ChangeRole(actor, org, user, role, _) => UpdateRole(t, actor, org, user, role)
      case Remove(actor, org, user, _) => RemoveMember(t, actor, org, user)
      case Asking(actor, org, email, role, id, token, at, _) => Invite(t, actor, org, email, role, id, token, at)
      case AskingAgain(actor, org, id, token, at, _) => Resend(t, actor, org, id, token, at)
      case Joining(user, email, token, at, _) => Accept(t, user, email, token, at)
  }

  datatype Steps = NoSteps | Then(step: Step, rest: Steps)

  function After(t: Tables, steps: Steps): Tables
    decreases steps
  {
    match steps
    case NoSteps => t
    case Then(step, rest) => After(Apply(t, step).0, rest)
  }

  lemma StepKeepsValid(t: Tables, step: Step)
    requires Valid(t)
    ensures Valid(Apply(t, step).0)
  {
    if !step.fails && step.Asking? {
      var inv := InvitationFor(step.actor, step.org, step.email, step.role, step.token, step.at);
      if inv.Some? {
        InsertKeepsValid(t, step.id, inv.value);
      }
    }
  }

  lemma InsertKeepsValid(t: Tables, id: nat, inv: Invitation)
    requires Valid(t) && !inv.role.Owner?
    ensures Valid(Insert(t, id, inv).0)
  {
  }
}
