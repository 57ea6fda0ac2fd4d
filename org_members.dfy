/**
 * The member list of the current organization: membership rows merged with
 * the users' profiles, and the role change and removal that update it after a
 * successful write. The answers of the store are parameters.
 */
module OrgMembers {
  import opened Common

  datatype Role = Owner | Admin | Member

  /** A membership row (`user_id, role`) and a profile row (`id, full_name`). */
  datatype MembershipRow = MembershipRow(userId: string, role: Role)
  datatype Profile = Profile(id: string, fullName: Option<string>)

  /** A member as the hook exposes it. */
  datatype MemberProfile = MemberProfile(id: string, fullName: string, role: Role)

  const UnknownName: string := "Usuario Desconocido"

  /** `profiles.find(p => p.id === id)`. */
  function FindProfile(profiles: seq<Profile>, id: string): (r: Option<Profile>)
    ensures r.None? <==> forall k :: 0 <= k < |profiles| ==> profiles[k].id != id
    ensures r.Some? ==> r.value in profiles && r.value.id == id
  {
    if profiles == [] then None
    else if profiles[0].id == id then Some(profiles[0])
    else
      var r := FindProfile(profiles[1..], id);
      assert forall k :: 1 <= k < |profiles| ==> profiles[k] == profiles[1..][k - 1];
      r
  }

  /** The shown name: the profile's name, or the placeholder when it is missing or empty. */
  function DisplayName(profile: Option<Profile>): (name: string)
    ensures name == UnknownName <==>
      (profile.None? || profile.value.fullName.None? || profile.value.fullName.value == "" || profile.value.fullName.value == UnknownName)
  {
    if profile.Some? && profile.value.fullName.Some? && profile.value.fullName.value != "" then profile.value.fullName.value
    else UnknownName
  }

  /** The merge: one member per membership row, in order, named from the profile with the same id. */
  function Merge(rows: seq<MembershipRow>, profiles: seq<Profile>): (r: seq<MemberProfile>)
    ensures |r| == |rows|
    ensures forall k :: 0 <= k < |rows| ==>
      r[k] == MemberProfile(rows[k].userId, DisplayName(FindProfile(profiles, rows[k].userId)), rows[k].role)
  {
    seq(|rows|, k requires 0 <= k < |rows| =>
      MemberProfile(rows[k].userId, DisplayName(FindProfile(profiles, rows[k].userId)), rows[k].role))
  }

  /** A member whose profile carries a name shows it; one with no profile shows the placeholder. */
  lemma MergeNames(rows: seq<MembershipRow>, profiles: seq<Profile>, k: int)
    requires 0 <= k < |rows|
    ensures (forall j :: 0 <= j < |profiles| ==> profiles[j].id != rows[k].userId) ==> Merge(rows, profiles)[k].fullName == UnknownName
    ensures forall p ::
      (p in profiles && p.id == rows[k].userId && p.fullName.Some? && p.fullName.value != "" && (forall q :: q in profiles && q.id == p.id ==> q == p))
      ==> Merge(rows, profiles)[k].fullName == p.fullName.value
  {
  }

  function WithRole(ms: seq<MemberProfile>, id: string, role: Role): (r: seq<MemberProfile>)
    ensures |r| == |ms|
    ensures forall k :: 0 <= k < |ms| ==> r[k] == if ms[k].id == id then ms[k].(role := role) else ms[k]
  {
    seq(|ms|, k requires 0 <= k < |ms| => if ms[k].id == id then ms[k].(role := role) else ms[k])
  }

  function IsNot(id: string): MemberProfile -> bool {
    (m: MemberProfile) => m.id != id
  }

  /** Removal keeps every other member in order. */
  lemma RemoveOnlyThatId(ms: seq<MemberProfile>, id: string)
    ensures forall m :: m in Filter(ms, IsNot(id)) <==> m in ms && m.id != id
  {
    forall m
      ensures m in Filter(ms, IsNot(id)) <==> m in ms && m.id != id
    {
      FilterIff(ms, IsNot(id), m);
    }
  }

  class MemberList {
    var members: seq<MemberProfile>
    var isLoading: bool

    constructor ()
      ensures members == [] && isLoading
    {
      members := [];
      isLoading := true;
    }

    /**
     * The effect on the organization: none empties the list; otherwise the
     * membership rows and then the profiles of their users are read, and
     * either error keeps the list.
     */
    method Load(organization: Option<string>, membership: Answer<seq<MembershipRow>>, profiles: Answer<seq<Profile>>)
      modifies this
      ensures !isLoading
      ensures organization.None? ==> members == []
      ensures organization.Some? ==>
        members == if membership.Data? && profiles.Data? then Merge(membership.value, profiles.value) else old(members)
    {
      if organization.None? {
        members := [];
        isLoading := false;
        return;
      }
      isLoading := true;
      if membership.Failed? {
        isLoading := false;
        return;
      }
      if membership.Data? {
        if profiles.Data? {
          members := Merge(membership.value, profiles.value);
        }
      }
      isLoading := false;
    }

    /** `updateMemberRole`: nothing without an organization (no result); on an error false and no change. */
    method UpdateRole(organization: Option<string>, userId: string, role: Role, fail: bool) returns (r: Option<bool>)
      modifies this`members
      ensures organization.None? ==> r.None? && members == old(members)
      ensures organization.Some? ==> r == Some(!fail)
      ensures members == if organization.Some? && !fail then WithRole(old(members), userId, role) else old(members)
    {
      if organization.None? {
        return None;
      }
      if fail {
        return Some(false);
      }
      members := WithRole(members, userId, role);
      r := Some(true);
    }

    /** `removeMember`. */
    method Remove(organization: Option<string>, userId: string, fail: bool) returns (r: Option<bool>)
      modifies this`members
      ensures organization.None? ==> r.None?
      ensures organization.Some? ==> r == Some(!fail)
      ensures members == if organization.Some? && !fail then Filter(old(members), IsNot(userId)) else old(members)
    {
      if organization.None? {
        return None;
      }
      if fail {
        return Some(false);
      }
      members := Filter(members, IsNot(userId));
      r := Some(true);
    }
  }
}
