/**
 The organization tables as an object, and the membership service on it. The rule about last
 owners is a counting loop over the member list; it is tied to the set of owners here.
 */
module MembershipServices {
  import opened Wrappers
  import opened Text
  import opened Membership
  import opened MembershipRuns
  import ME = MembershipEffects

  datatype MemberRow = MemberRow(user: nat, role: Role)

  /** The rows are the members of the organization, each once. */
  ghost predicate Lists(rows: seq<MemberRow>, t: Tables, org: nat) {
    && (forall i, j :: 0 <= i < j < |rows| ==> rows[i].user != rows[j].user)
    && (forall i :: 0 <= i < |rows| ==>
          Seat(org, rows[i].user) in t.members && t.members[Seat(org, rows[i].user)] == rows[i].role)
    && (forall user :: Seat(org, user) in t.members ==> exists i :: 0 <= i < |rows| && rows[i].user == user)
  }

  /** The owners among the rows. */
  function OwnersAmong(rows: seq<MemberRow>): set<nat> {
    set i | 0 <= i < |rows| && rows[i].role.Owner? :: rows[i].user
  }

  lemma OwnersAmongStep(rows: seq<MemberRow>, i: nat)
    requires i < |rows|
    requires forall j, k :: 0 <= j < k < |rows| ==> rows[j].user != rows[k].user
    ensures OwnersAmong(rows[..i + 1]) ==
            if rows[i].role.Owner? then OwnersAmong(rows[..i]) + {rows[i].user} else OwnersAmong(rows[..i])
    ensures rows[i].user !in OwnersAmong(rows[..i])
  {
    var more, less := rows[..i + 1], rows[..i];
    forall u ensures u in OwnersAmong(more) <==> u in OwnersAmong(less) || (rows[i].role.Owner? && u == rows[i].user) {
      if u in OwnersAmong(less) {
        var j :| 0 <= j < |less| && less[j].role.Owner? && less[j].user == u;
        assert more[j] == less[j];
      }
      if rows[i].role.Owner? && u == rows[i].user {
        assert more[i] == rows[i];
      }
    }
  }

  /** The listed owners are the owners. */
  lemma ListedOwners(rows: seq<MemberRow>, t: Tables, org: nat)
    requires Lists(rows, t, org)
    ensures OwnersAmong(rows) == Owners(t, org)
  {
    OwnersAre(t, org);
    forall user ensures user in OwnersAmong(rows) <==> IsOwner(t, org, user) {
      if IsOwner(t, org, user) {
        var i :| 0 <= i < |rows| && rows[i].user == user;
        assert rows[i].role.Owner?;
      }
    }
  }

  /** Counting to one is being the set of one. */
  lemma OneOwner(owners: set<nat>, user: nat)
    ensures user in owners && |owners| <= 1 <==> owners == {user}
  {
    if user in owners && |owners| <= 1 {
      assert |owners - {user}| == 0;
    }
  }

  /** The counting loop: the target is an owner and no other owner was counted. */
  method OnlyOwner(rows: seq<MemberRow>, user: nat) returns (last: bool)
    requires forall i, j :: 0 <= i < j < |rows| ==> rows[i].user != rows[j].user
    ensures last <==> OwnersAmong(rows) == {user}
  {
    var ownerCount, isTargetOwner := 0, false;
    var i := 0;
    while i < |rows|
      invariant 0 <= i <= |rows|
      invariant ownerCount == |OwnersAmong(rows[..i])|
      invariant isTargetOwner <==> user in OwnersAmong(rows[..i])
    {
      OwnersAmongStep(rows, i);
      var member := rows[i];
      i := i + 1;
      if !member.role.Owner? {
        continue;
      }
      ownerCount := ownerCount + 1;
      if member.user == user {
        isTargetOwner := true;
      }
    }
    assert rows[..i] == rows;
    OneOwner(OwnersAmong(rows), user);
    return isTargetOwner && ownerCount <= 1;
  }

  class OrganizationStore {
    var orgs: set<nat>
    var members: map<Seat, Role>
    var invitations: map<nat, Invitation>
    var byToken: map<nat, nat>

    function State(): Tables
      reads this
    {
      Tables(orgs, members, invitations, byToken)
    }

    constructor (t: Tables)
      ensures State() == t
    {
      orgs, members, invitations, byToken := t.orgs, t.members, t.invitations, t.byToken;
    }

    /** The rows come in some order. */
    method ListOrganizationMembers(org: nat, fails: bool) returns (rows: Option<seq<MemberRow>>)
      ensures rows.None? <==> fails
      ensures rows.Some? ==> Lists(rows.value, State(), org)
    {
      if fails {
        return None;
      }
      var out: seq<MemberRow> := [];
      var rest := set seat | seat in members && seat.org == org;
      while rest != {}
        invariant rest <= set seat | seat in members && seat.org == org
        invariant forall i, j :: 0 <= i < j < |out| ==> out[i].user != out[j].user
        invariant forall i :: 0 <= i < |out| ==>
          Seat(org, out[i].user) in members && members[Seat(org, out[i].user)] == out[i].role
          && Seat(org, out[i].user) !in rest
        invariant forall user :: Seat(org, user) in members && Seat(org, user) !in rest ==>
          exists i :: 0 <= i < |out| && out[i].user == user
        decreases rest
      {
        var seat :| seat in rest;
        ghost var before := out;
        rest := rest - {seat};
        out := out + [MemberRow(seat.user, members[seat])];
        assert out[|before|].user == seat.user;
        forall user | Seat(org, user) in members && Seat(org, user) !in rest
          ensures exists i :: 0 <= i < |out| && out[i].user == user
        {
          if user != seat.user {
            var i :| 0 <= i < |before| && before[i].user == user;
            assert out[i].user == user;
          }
        }
      }
      return Some(out);
    }

    method CreateOrganizationWithOwner(org: nat, owner: nat, fails: bool) returns (ok: bool)
      modifies this`orgs, this`members
      ensures (State(), if ok then Done else Refused) == Apply(old(State()), Create(org, owner, fails))
    {
      if fails || org in orgs {
        return false;
      }
      orgs := orgs + {org};
      members := members[Seat(org, owner) := Owner];
      return true;
    }

    method UpdateOrganizationMemberRole(org: nat, user: nat, role: Role, fails: bool) returns (ok: bool)
      modifies this`members
      ensures ok <==> !fails && Seat(org, user) in old(members)
      ensures State() == if ok then WithMember(old(State()), org, user, role) else old(State())
    {
      ok := !fails && Seat(org, user) in members;
      if ok {
        members := members[Seat(org, user) := role];
      }
    }

    method RemoveOrganizationMember(org: nat, user: nat, fails: bool) returns (ok: bool)
      modifies this`members
      ensures ok <==> !fails && Seat(org, user) in old(members)
      ensures State() == if ok then old(State()).(members := old(members) - {Seat(org, user)}) else old(State())
    {
      ok := !fails && Seat(org, user) in members;
      if ok {
        members := members - {Seat(org, user)};
      }
    }

    method CreateOrganizationInvitation(id: nat, inv: Invitation, fails: bool) returns (ok: bool)
      modifies this`invitations, this`byToken
      ensures fails ==> !ok && State() == old(State())
      ensures !fails ==> (State(), if ok then Done else Refused) == Insert(old(State()), id, inv)
    {
      if fails || inv.token in byToken || id in invitations || inv.org !in orgs {
        return false;
      }
      invitations := invitations[id := inv];
      byToken := byToken[inv.token := id];
      return true;
    }

    method UpdateOrganizationInvitationToken(org: nat, id: nat, token: nat, now: int, fails: bool) returns (ok: bool)
      modifies this`invitations, this`byToken
      ensures fails ==> !ok && State() == old(State())
      ensures !fails ==> (State(), if ok then Done else Refused) == Resend(old(State()), Owner, org, id, token, now)
    {
      if fails || id !in invitations || token in byToken {
        return false;
      }
      var inv := invitations[id];
      if inv.org != org || inv.accepted.Some? {
        return false;
      }
      invitations := invitations[id := inv.(token := token, expires := now + INVITATION_TTL)];
      byToken := (byToken - {inv.token})[token := id];
      return true;
    }

    /** The row with a token that has not expired, accepted or not. */
    method GetOrganizationInvitation(token: nat, now: int) returns (inv: Option<Invitation>)
      ensures inv ==
              if token in byToken && byToken[token] in invitations && invitations[byToken[token]].expires > now then
                Some(invitations[byToken[token]])
              else None
    {
      if token !in byToken || byToken[token] !in invitations || invitations[byToken[token]].expires <= now {
        return None;
      }
      return Some(invitations[byToken[token]]);
    }

    method AcceptOrganizationInvitation(token: nat, now: int, user: nat, fails: bool) returns (id: Option<nat>)
      modifies this`members, this`invitations
      ensures id.Some? <==>
              && !fails && token in old(byToken) && old(byToken)[token] in old(invitations)
              && var inv := old(invitations)[old(byToken)[token]]; inv.expires > now && inv.accepted.None?
      ensures id.None? ==> State() == old(State())
      ensures id.Some? ==>
                var inv := old(invitations)[old(byToken)[token]];
                && id.value == old(byToken)[token]
                && State() == WithMember(old(State()), inv.org, user, inv.role).
                  (invitations := old(invitations)[id.value := inv.(accepted := Some(now))])
    {
      var found := GetOrganizationInvitation(token, now);
      if fails || found.None? || found.value.accepted.Some? {
        return None;
      }
      var inv := found.value;
      members := members[Seat(inv.org, user) := inv.role];
      invitations := invitations[byToken[token] := inv.(accepted := Some(now))];
      return Some(byToken[token]);
    }
  }

  lemma InviteIsInsert(t: Tables, step: Step, inv: Option<Invitation>)
    requires step.Asking?
    requires inv == InvitationFor(step.actor, step.org, step.email, step.role, step.token, step.at)
    ensures Apply(t, step) == if step.fails then (t, Refused) else InsertIf(t, step.id, inv)
  {
  }

  /** A change of role, whichever role the text names, if it names one. */
  lemma RoleChangeIs(t: Tables, actor: Role, org: nat, user: nat, text: string, fails: bool)
    ensures var (after, outcome) := Apply(t, ChangeRole(actor, org, user, text, fails));
            && (outcome == Done ==> ME.OnlySeat(t, after, org, user))
            && (outcome == Done ==> exists r :: ME.Names(text, r) && ME.HasRole(after, org, user, r))
            && (outcome != Done ==> after == t)
            && (outcome == Done <==>
                  && !fails && ME.Manages(actor) && Seat(org, user) in t.members
                  && exists r :: ME.Names(text, r) && (r == Owner || !ME.OnlyOwnerIs(t, org, user)))
  {
    if role :| ME.Names(text, role) {
      ME.ChangeRoleExactly(t, actor, org, user, text, fails, role);
      forall r | ME.Names(text, r)
        ensures r == role
      {
      }
    } else {
      ME.UnnamedRoleRefused(t, actor, org, user, text, fails);
    }
  }

  class MembershipService {
    const store: OrganizationStore

    constructor (store: OrganizationStore)
      ensures this.store == store
    {
      this.store := store;
    }

    method EnsureNotLastOwner(org: nat, user: nat, fails: bool) returns (ok: bool)
      ensures ok <==> !fails && !LastOwner(store.State(), org, user)
    {
      var rows := store.ListOrganizationMembers(org, fails);
      if rows.None? {
        return false;
      }
      var last := OnlyOwner(rows.value, user);
      ListedOwners(rows.value, store.State(), org);
      return !last;
    }

    method UpdateOrganizationMemberRole(actor: Role, org: nat, user: nat, role: string, fails: bool)
      returns (outcome: Outcome)
      modifies store
      ensures (store.State(), outcome) == Apply(old(store.State()), ChangeRole(actor, org, user, role, fails))
      ensures outcome == Done ==> ME.OnlySeat(old(store.State()), store.State(), org, user)
      ensures outcome == Done ==> exists r :: ME.Names(role, r) && ME.HasRole(store.State(), org, user, r)
      ensures outcome != Done ==> store.State() == old(store.State())
      ensures outcome == Done <==>
                && !fails && ME.Manages(actor) && Seat(org, user) in old(store.State()).members
                && exists r :: ME.Names(role, r) && (r == Owner || !ME.OnlyOwnerIs(old(store.State()), org, user))
    {
      RoleChangeIs(store.State(), actor, org, user, role, fails);
      var parsed := ParseRole(role);
      if !CanManageMembers(actor) || parsed.None? {
        return Refused;
      }
      if !parsed.value.Owner? {
        var allowed := EnsureNotLastOwner(org, user, fails);
        if !allowed {
          return Refused;
        }
      }
      var ok := store.UpdateOrganizationMemberRole(org, user, parsed.value, fails);
      return if ok then Done else Refused;
    }

    method RemoveOrganizationMember(actor: Role, org: nat, user: nat, fails: bool) returns (outcome: Outcome)
      modifies store
      ensures (store.State(), outcome) == Apply(old(store.State()), Remove(actor, org, user, fails))
      ensures outcome == Done ==>
                Seat(org, user) !in store.State().members && ME.OnlySeat(old(store.State()), store.State(), org, user)
      ensures outcome != Done ==> store.State() == old(store.State())
      ensures outcome == Done <==>
                && !fails && ME.Manages(actor) && Seat(org, user) in old(store.State()).members
                && !ME.OnlyOwnerIs(old(store.State()), org, user)
    {
      ME.RemoveExactly(store.State(), actor, org, user, fails);
      if !CanManageMembers(actor) {
        return Refused;
      }
      var allowed := EnsureNotLastOwner(org, user, fails);
      if !allowed {
        return Refused;
      }
      var ok := store.RemoveOrganizationMember(org, user, fails);
      return if ok then Done else Refused;
    }

    method InviteOrganizationMember(actor: Role, org: nat, email: string, role: string, id: nat, token: nat, now: int,
                                    fails: bool)
      returns (outcome: Outcome)
      modifies store
      ensures (store.State(), outcome) == Apply(old(store.State()), Asking(actor, org, email, role, id, token, now, fails))
    {
      var inv := InvitationFor(actor, org, email, role, token, now);
      InviteIsInsert(store.State(), Asking(actor, org, email, role, id, token, now, fails), inv);
      if inv.None? {
        return Refused;
      }
      var ok := store.CreateOrganizationInvitation(id, inv.value, fails);
      return if ok then Done else Refused;
    }

    method ResendOrganizationInvitation(actor: Role, org: nat, id: nat, token: nat, now: int, fails: bool)
      returns (outcome: Outcome)
      modifies store
      ensures (store.State(), outcome) == Apply(old(store.State()), AskingAgain(actor, org, id, token, now, fails))
    {
      if !CanManageMembers(actor) {
        return Refused;
      }
      var ok := store.UpdateOrganizationInvitationToken(org, id, token, now, fails);
      return if ok then Done else Refused;
    }

    /** The session's user accepts; the invitation must be for his address. */
    method AcceptOrganizationInvitation(user: nat, email: string, token: nat, now: int, fails: bool)
      returns (outcome: Outcome)
      modifies store
      ensures (store.State(), outcome) == Apply(old(store.State()), Joining(user, email, token, now, fails))
    {
      var inv := store.GetOrganizationInvitation(token, now);
      if inv.None? || Lower(inv.value.email) != Lower(email) {
        return Refused;
      }
      var id := store.AcceptOrganizationInvitation(token, now, user, fails);
      return if id.Some? then Joined(id.value) else Refused;
    }
  }
}
