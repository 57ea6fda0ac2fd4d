/**
 * The session context: the signed-in user, the organizations they belong to,
 * the active organization with the user's role in it, and the rule that picks
 * that organization. The remembered organization of each user (kept by the
 * browser under `last_org_<user id>`) is a field; the answers of the store
 * and the current instant are parameters.
 */
module AuthContext {
  import opened Common
  import OrgMembers

  datatype Organization = Organization(id: string, name: string, slug: string, ownerId: string,
                                       kind: string, createdAt: string)

  /** A membership row with its organization embedded: `organization_id, role, organizations(*)`. */
  datatype MemberRow = MemberRow(organizationId: string, role: OrgMembers.Role, organization: Organization)

  datatype Session = Session(userId: string)

  function IsOrg(id: Option<string>): MemberRow -> bool {
    (m: MemberRow) => id.Some? && m.organizationId == id.value
  }

  function IsBusiness(): MemberRow -> bool {
    (m: MemberRow) => m.organization.kind == "business"
  }

  /**
   * The membership that becomes active: the one of the remembered organization,
   * else the first business organization, else the first membership.
   */
  function ActiveMember(rows: seq<MemberRow>, last: Option<string>): (r: MemberRow)
    requires |rows| > 0
    ensures r in rows
    ensures last.Some? && (exists k :: 0 <= k < |rows| && rows[k].organizationId == last.value) ==>
      r.organizationId == last.value
    ensures (last.None? || forall k :: 0 <= k < |rows| ==> rows[k].organizationId != last.value) ==>
      ((exists k :: 0 <= k < |rows| && rows[k].organization.kind == "business") <==> r.organization.kind == "business")
    ensures ((last.None? || forall k :: 0 <= k < |rows| ==> rows[k].organizationId != last.value) &&
      (forall k :: 0 <= k < |rows| ==> rows[k].organization.kind != "business")) ==> r == rows[0]
  {
    match FindIndex(rows, IsOrg(last))
    case Some(i) => rows[i]
    case None =>
      assert forall k :: 0 <= k < |rows| ==> !IsOrg(last)(rows[k]);
      match FindIndex(rows, IsBusiness())
      case Some(j) => rows[j]
      case None => rows[0]
  }

  /** Among several business organizations, the first one listed wins. */
  lemma FirstBusinessWins(rows: seq<MemberRow>, last: Option<string>, k: int)
    requires 0 <= k < |rows|
    requires last.None? || forall j :: 0 <= j < |rows| ==> rows[j].organizationId != last.value
    requires rows[k].organization.kind == "business"
    requires forall j :: 0 <= j < k ==> rows[j].organization.kind != "business"
    ensures ActiveMember(rows, last) == rows[k]
  {
    assert forall j :: 0 <= j < |rows| ==> !IsOrg(last)(rows[j]);
    assert IsBusiness()(rows[k]);
  }

  /** `m => m.organizations`. */
  function Orgs(rows: seq<MemberRow>): (r: seq<Organization>)
    ensures |r| == |rows|
    ensures forall k :: 0 <= k < |rows| ==> r[k] == rows[k].organization
  {
    seq(|rows|, k requires 0 <= k < |rows| => rows[k].organization)
  }

  /** `w-<first 8 characters of the user id>-<Date.now()>`. */
  function WorkspaceSlug(userId: string, now: int): (r: string)
    ensures var p := if |userId| <= 8 then userId else userId[..8];
      r == "w-" + p + "-" + IntToString(now) && p <= userId && |p| <= 8
  {
    "w-" + (if |userId| <= 8 then userId else userId[..8]) + "-" + IntToString(now)
  }

  const WorkspaceName: string := "Personal Workspace"

  /** The organization `createPersonalWorkspace` inserts, with the id and creation time the store assigns. */
  function PersonalWorkspace(id: string, userId: string, now: int, createdAt: string): (o: Organization)
    ensures o.id == id && o.ownerId == userId && o.kind == "personal" && o.name == WorkspaceName
    ensures o.slug == WorkspaceSlug(userId, now)
  {
    Organization(id, WorkspaceName, WorkspaceSlug(userId, now), userId, "personal", createdAt)
  }

  /** `localStorage.getItem('last_org_' + userId)`: null when nothing was remembered. */
  function Remembered(lastOrg: map<string, string>, userId: string): (r: Option<string>)
    ensures r.Some? <==> userId in lastOrg
    ensures r.Some? ==> r.value == lastOrg[userId]
  {
    if userId in lastOrg then Some(lastOrg[userId]) else None
  }

  /**
   * A switch is remembered: once the organization of a membership has been
   * chosen, the next load of the same memberships chooses it again.
   */
  lemma SwitchIsRestored(rows: seq<MemberRow>, lastOrg: map<string, string>, userId: string, orgId: string)
    requires exists k :: 0 <= k < |rows| && rows[k].organizationId == orgId
    ensures ActiveMember(rows, Remembered(lastOrg[userId := orgId], userId)).organizationId == orgId
  {
  }

  class Auth {
    var user: Option<string>
    var session: Option<Session>
    var organization: Option<Organization>
    var organizations: seq<Organization>
    var userRole: Option<OrgMembers.Role>
    var loading: bool
    /** The remembered organization id, per user id. */
    var lastOrg: map<string, string>

    /** The active organization is one of the listed ones, and a listed one is always active with a role. */
    predicate Consistent()
      reads this
    {
      && (organization.Some? ==> organization.value in organizations)
      && (organizations != [] ==> organization.Some? && userRole.Some?)
    }

    constructor (lastOrg: map<string, string>)
      ensures Consistent()
      ensures user.None? && session.None? && organization.None? && organizations == [] && userRole.None?
      ensures loading && this.lastOrg == lastOrg
    {
      user := None;
      session := None;
      organization := None;
      organizations := [];
      userRole := None;
      loading := true;
      this.lastOrg := lastOrg;
    }

    /**
     * `fetchOrganization`: the memberships (`none` when the query gave no data,
     * an error included) decide the list and the active organization; without
     * any the personal workspace is created, `created` being the id the store
     * gives it or none on an error.
     */
    method FetchOrganization(userId: string, memberData: Option<seq<MemberRow>>,
                             created: Option<string>, now: int, createdAt: string)
      requires Consistent()
      modifies this`organization, this`organizations, this`userRole
      ensures Consistent()
      ensures memberData.Some? && |memberData.value| > 0 ==>
        var m := ActiveMember(memberData.value, Remembered(lastOrg, userId));
        && organizations == Orgs(memberData.value)
        && organization == Some(m.organization)
        && userRole == Some(m.role)
      ensures (memberData.None? || memberData.value == []) && created.Some? ==>
        var w := PersonalWorkspace(created.value, userId, now, createdAt);
        organizations == [w] && organization == Some(w) && userRole == Some(OrgMembers.Owner)
      ensures (memberData.None? || memberData.value == []) && created.None? ==>
        organizations == old(organizations) && organization == old(organization) && userRole == old(userRole)
    {
      if memberData.Some? && |memberData.value| > 0 {
        var rows := memberData.value;
        organizations := Orgs(rows);
        var m := ActiveMember(rows, Remembered(lastOrg, userId));
        var k :| 0 <= k < |rows| && rows[k] == m;
        assert organizations[k] == m.organization;
        organization := Some(m.organization);
        userRole := Some(m.role);
      } else {
        CreatePersonalWorkspace(userId, created, now, createdAt);
      }
    }

    /** `createPersonalWorkspace`: on success the new organization is the only one, and the user owns it. */
    method CreatePersonalWorkspace(userId: string, created: Option<string>, now: int, createdAt: string)
      requires Consistent()
      modifies this`organization, this`organizations, this`userRole
      ensures Consistent()
      ensures created.Some? ==>
        var w := PersonalWorkspace(created.value, userId, now, createdAt);
        organizations == [w] && organization == Some(w) && userRole == Some(OrgMembers.Owner)
      ensures created.None? ==>
        organizations == old(organizations) && organization == old(organization) && userRole == old(userRole)
    {
      if created.None? {
        return;
      }
      var w := PersonalWorkspace(created.value, userId, now, createdAt);
      organizations := [w];
      organization := Some(w);
      userRole := Some(OrgMembers.Owner);
    }

    /**
     * `switchOrganization`: with a user and a listed id the organization is
     * switched and remembered; the role changes only when the store answers
     * with one (`role`).
     */
    method SwitchOrganization(orgId: string, role: Option<OrgMembers.Role>)
      requires Consistent()
      modifies this`organization, this`lastOrg, this`userRole
      ensures Consistent()
      ensures user.None? || (forall k :: 0 <= k < |organizations| ==> organizations[k].id != orgId) ==>
        organization == old(organization) && lastOrg == old(lastOrg) && userRole == old(userRole)
      ensures user.Some? && (exists k :: 0 <= k < |organizations| && organizations[k].id == orgId) ==>
        && organization.Some? && organization.value.id == orgId && organization.value in organizations
        && lastOrg == old(lastOrg)[user.value := orgId]
        && userRole == (if role.Some? then role else old(userRole))
    {
      if user.None? {
        return;
      }
      var i := FindIndex(organizations, (o: Organization) => o.id == orgId);
      if i.None? {
        return;
      }
      organization := Some(organizations[i.value]);
      lastOrg := lastOrg[user.value := orgId];
      if role.Some? {
        userRole := role;
      }
    }

    /** `signOut`: everything about the session is cleared, the remembered organizations too. */
    method SignOut()
      modifies this
      ensures Consistent()
      ensures organization.None? && organizations == [] && userRole.None?
      ensures session.None? && user.None? && lastOrg == map[]
      ensures loading == old(loading)
    {
      lastOrg := map[];
      organization := None;
      organizations := [];
      userRole := None;
      session := None;
      user := None;
    }

    /** The listener of auth changes: without a session the organization state is cleared. */
    method AuthChange(s: Option<Session>, memberData: Option<seq<MemberRow>>,
                      created: Option<string>, now: int, createdAt: string)
      requires Consistent()
      modifies this
      ensures Consistent()
      ensures session == s && user == (if s.Some? then Some(s.value.userId) else None) && !loading
      ensures lastOrg == old(lastOrg)
      ensures s.None? ==> organization.None? && organizations == [] && userRole.None?
      ensures s.Some? && memberData.Some? && |memberData.value| > 0 ==>
        var m := ActiveMember(memberData.value, Remembered(lastOrg, s.value.userId));
        organizations == Orgs(memberData.value) && organization == Some(m.organization) && userRole == Some(m.role)
    {
      session := s;
      if s.Some? {
        user := Some(s.value.userId);
        FetchOrganization(s.value.userId, memberData, created, now, createdAt);
      } else {
        user := None;
        organization := None;
        organizations := [];
        userRole := None;
      }
      loading := false;
    }

    /** The first session read: with a user the organizations are fetched, otherwise loading ends. */
    method InitialSession(s: Option<Session>, memberData: Option<seq<MemberRow>>,
                          created: Option<string>, now: int, createdAt: string)
      requires Consistent()
      modifies this
      ensures Consistent()
      ensures session == s && user == (if s.Some? then Some(s.value.userId) else None)
      ensures lastOrg == old(lastOrg)
      ensures s.None? ==> !loading && organization == old(organization) && organizations == old(organizations)
      ensures s.Some? ==> loading == old(loading)
      ensures s.Some? && memberData.Some? && |memberData.value| > 0 ==>
        var m := ActiveMember(memberData.value, Remembered(lastOrg, s.value.userId));
        organizations == Orgs(memberData.value) && organization == Some(m.organization) && userRole == Some(m.role)
    {
      session := s;
      if s.Some? {
        user := Some(s.value.userId);
        FetchOrganization(s.value.userId, memberData, created, now, createdAt);
      } else {
        user := None;
        loading := false;
      }
    }
  }
}
