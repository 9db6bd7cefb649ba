/**
 * The organisation context of the console: the orgs the user can see, the
 * current org (restored from the saved id, otherwise the first org), the
 * members of the current org and the user's role in it.
 */
module OrgState {
  import opened Wrappers

  datatype Org = Org(id: string, name: string, createdBy: string)

  datatype Member = Member(id: string, orgId: string, userId: string, role: string)

  /** The writes the context asks the database for. */
  datatype Write =
    | InsertOrg(name: string, createdBy: string)
    | InsertMember(orgId: string, userId: string, role: string)
    | DeleteMember(memberId: string)
    | UpdateRole(memberId: string, role: string)

  /** `data.find(o => o.id === savedOrgId)`: the first org with the saved id; nothing is saved when the key is absent. */
  function FindOrg(orgs: seq<Org>, saved: Option<string>): (r: Option<Org>)
    ensures r.None? <==> saved.None? || forall k :: 0 <= k < |orgs| ==> orgs[k].id != saved.value
    ensures r.Some? ==>
      && saved == Some(r.value.id)
      && (exists k :: 0 <= k < |orgs| && orgs[k] == r.value && forall j :: 0 <= j < k ==> orgs[j].id != saved.value)
  {
    if saved.None? || orgs == [] then None
    else if orgs[0].id == saved.value then Some(orgs[0])
    else
      var r := FindOrg(orgs[1..], saved);
      assert r.Some? ==> exists k :: 0 <= k < |orgs| && orgs[k] == r.value && forall j :: 0 <= j < k ==> orgs[j].id != saved.value by {
        if r.Some? {
          var k :| 0 <= k < |orgs[1..]| && orgs[1..][k] == r.value && forall j :: 0 <= j < k ==> orgs[1..][j].id != saved.value;
          assert orgs[k + 1] == r.value;
          forall j | 0 <= j < k + 1 ensures orgs[j].id != saved.value {
            if j > 0 { assert orgs[j] == orgs[1..][j - 1]; }
          }
        }
      }
      r
  }

  /** `data.find(m => m.user_id === userId)?.role || null`: the role of the user's first membership, an empty role counting as none. */
  function RoleOf(members: seq<Member>, userId: string): (r: Option<string>)
    ensures r.Some? ==>
      && r.value != ""
      && (exists k :: 0 <= k < |members| && members[k].userId == userId
            && members[k].role == r.value && forall j :: 0 <= j < k ==> members[j].userId != userId)
    ensures (forall k :: 0 <= k < |members| ==> members[k].userId != userId) ==> r.None?
  {
    if members == [] then None
    else if members[0].userId == userId then (if members[0].role == "" then None else Some(members[0].role))
    else
      var r := RoleOf(members[1..], userId);
      assert r.Some? ==> (exists k :: 0 <= k < |members| && members[k].userId == userId
                                && members[k].role == r.value && forall j :: 0 <= j < k ==> members[j].userId != userId) by {
        if r.Some? {
          var k :| 0 <= k < |members[1..]| && members[1..][k].userId == userId
            && members[1..][k].role == r.value && forall j :: 0 <= j < k ==> members[1..][j].userId != userId;
          assert members[k + 1] == members[1..][k];
          forall j | 0 <= j < k + 1 ensures members[j].userId != userId {
            if j > 0 { assert members[j] == members[1..][j - 1]; }
          }
        }
      }
      r
  }

  /** The user's role is the role of their first membership, not of a later one. */
  lemma FirstMembershipWins(members: seq<Member>, userId: string, k: nat)
    requires k < |members| && members[k].userId == userId && members[k].role != ""
    requires forall j :: 0 <= j < k ==> members[j].userId != userId
    ensures RoleOf(members, userId) == Some(members[k].role)
  {
    if k > 0 {
      assert forall j :: 0 <= j < k - 1 ==> members[1..][j] == members[j + 1];
      FirstMembershipWins(members[1..], userId, k - 1);
    }
  }

  /**
   * The provider's state: the fields a component reads, plus `savedOrgId`, the
   * `nano_claw_org_id` entry of local storage.
   */
  class OrgContext {
    const userId: string
    var orgs: seq<Org>
    var currentOrg: Option<Org>
    var currentRole: Option<string>
    var members: seq<Member>
    var loading: bool
    var savedOrgId: Option<string>

    /** The current org, when there is one, is the one whose id is saved. */
    predicate Persisted()
      reads this
    {
      currentOrg.Some? ==> savedOrgId == Some(currentOrg.value.id)
    }

    /** The state on mount: nothing loaded yet, whatever id local storage holds. */
    constructor(userId: string, saved: Option<string>)
      ensures this.userId == userId && savedOrgId == saved
      ensures orgs == [] && currentOrg == None && currentRole == None && members == [] && loading
      ensures Persisted()
    {
      this.userId := userId;
      orgs, currentOrg, currentRole, members, loading, savedOrgId := [], None, None, [], true, saved;
    }

    /**
     * `fetchOrgs` with the query's outcome: an error empties the list; a list
     * restores the org with the saved id, otherwise selects and saves the
     * first org, and leaves the current org alone when empty. Loading ends
     * either way.
     */
    method FetchOrgs(result: Result<seq<Org>, string>)
      modifies this
      ensures !loading
      ensures old(Persisted()) ==> Persisted()
      ensures currentRole == old(currentRole) && members == old(members)
      ensures result.Failure? ==> orgs == [] && currentOrg == old(currentOrg) && savedOrgId == old(savedOrgId)
      ensures result.Success? ==> orgs == result.value
      ensures result.Success? && FindOrg(result.value, old(savedOrgId)).Some? ==>
        currentOrg == FindOrg(result.value, old(savedOrgId)) && savedOrgId == old(savedOrgId)
      ensures result.Success? && FindOrg(result.value, old(savedOrgId)).None? && result.value != [] ==>
        currentOrg == Some(result.value[0]) && savedOrgId == Some(result.value[0].id)
      ensures result.Success? && result.value == [] ==> currentOrg == old(currentOrg) && savedOrgId == old(savedOrgId)
      ensures result.Success? && result.value != [] ==> currentOrg.Some? && currentOrg.value in orgs && Persisted()
    {
      if result.Failure? {
        orgs := [];
      } else {
        orgs := result.value;
        var found := FindOrg(result.value, savedOrgId);
        if found.Some? {
          currentOrg := found;
        } else if result.value != [] {
          currentOrg := Some(result.value[0]);
          savedOrgId := Some(result.value[0].id);
        }
      }
      loading := false;
    }

    /** `fetchMembers`: the org's memberships (none when the query returns nothing) and the user's role among them. */
    method FetchMembers(data: Option<seq<Member>>)
      modifies this
      ensures members == data.GetOr([]) && currentRole == RoleOf(members, userId)
      ensures orgs == old(orgs) && currentOrg == old(currentOrg) && loading == old(loading) && savedOrgId == old(savedOrgId)
    {
      members := data.GetOr([]);
      currentRole := RoleOf(members, userId);
    }

    /** `setCurrentOrg`: select the org and save its id. */
    method SetCurrentOrg(org: Org)
      modifies this
      ensures currentOrg == Some(org) && savedOrgId == Some(org.id) && Persisted()
      ensures orgs == old(orgs) && currentRole == old(currentRole) && members == old(members) && loading == old(loading)
    {
      currentOrg := Some(org);
      savedOrgId := Some(org.id);
    }

    /**
     * `createOrg(name)`, given the outcomes of the org insert, of the owner
     * membership insert and of the refetch. A failing insert stops there with
     * the state unchanged; otherwise the creator becomes the org's `owner`,
     * the list is fetched again and the new org is current.
     */
    method CreateOrg(name: string, orgInsert: Result<Org, string>, memberError: Option<string>,
                     refetch: Result<seq<Org>, string>)
      returns (writes: seq<Write>)
      modifies this
      ensures |writes| >= 1 && writes[0] == InsertOrg(name, userId)
      ensures orgInsert.Failure? ==> writes == [InsertOrg(name, userId)]
      ensures orgInsert.Success? ==> writes == [InsertOrg(name, userId), InsertMember(orgInsert.value.id, userId, "owner")]
      ensures orgInsert.Failure? || memberError.Some? ==>
        orgs == old(orgs) && currentOrg == old(currentOrg) && savedOrgId == old(savedOrgId) && loading == old(loading)
      ensures orgInsert.Success? && memberError.None? ==>
        && currentOrg == Some(orgInsert.value) && savedOrgId == Some(orgInsert.value.id) && Persisted()
        && orgs == (if refetch.Success? then refetch.value else []) && !loading
      ensures currentRole == old(currentRole) && members == old(members)
    {
      writes := [InsertOrg(name, userId)];
      if orgInsert.Failure? {
        return;
      }
      var org := orgInsert.value;
      writes := writes + [InsertMember(org.id, userId, "owner")];
      if memberError.Some? {
        return;
      }
      FetchOrgs(refetch);
      SetCurrentOrg(org);
    }

    /** `inviteMember`: without a current org nothing happens; otherwise the org id to share is shown. */
    method InviteMember(email: string, role: string) returns (notice: Option<string>)
      ensures currentOrg.None? <==> notice.None?
      ensures notice.Some? ==>
        notice.value == "Share this org ID with the user: " + currentOrg.value.id + ". They can join via Settings."
    {
      if currentOrg.None? {
        return None;
      }
      return Some("Share this org ID with the user: " + currentOrg.value.id + ". They can join via Settings.");
    }

    /**
     * `removeMember`: without a current org nothing is written; otherwise the
     * membership is deleted and, when that succeeds, the members are fetched again.
     */
    method RemoveMember(memberId: string, deleteError: Option<string>, refreshed: Option<seq<Member>>)
      returns (writes: seq<Write>)
      modifies this
      ensures old(currentOrg).None? ==> writes == [] && unchanged(this)
      ensures old(currentOrg).Some? ==> writes == [DeleteMember(memberId)]
      ensures old(currentOrg).Some? && deleteError.Some? ==> unchanged(this)
      ensures old(currentOrg).Some? && deleteError.None? ==>
        members == refreshed.GetOr([]) && currentRole == RoleOf(members, userId)
      ensures orgs == old(orgs) && currentOrg == old(currentOrg) && savedOrgId == old(savedOrgId) && loading == old(loading)
    {
      if currentOrg.None? {
        return [];
      }
      writes := [DeleteMember(memberId)];
      if deleteError.None? {
        FetchMembers(refreshed);
      }
    }

    /**
     * `updateMemberRole`: without a current org nothing is written; otherwise
     * the role is updated and, when that succeeds, the members are fetched again.
     */
    method UpdateMemberRole(memberId: string, role: string, updateError: Option<string>, refreshed: Option<seq<Member>>)
      returns (writes: seq<Write>)
      modifies this
      ensures old(currentOrg).None? ==> writes == [] && unchanged(this)
      ensures old(currentOrg).Some? ==> writes == [UpdateRole(memberId, role)]
      ensures old(currentOrg).Some? && updateError.Some? ==> unchanged(this)
      ensures old(currentOrg).Some? && updateError.None? ==>
        members == refreshed.GetOr([]) && currentRole == RoleOf(members, userId)
      ensures orgs == old(orgs) && currentOrg == old(currentOrg) && savedOrgId == old(savedOrgId) && loading == old(loading)
    {
      if currentOrg.None? {
        return [];
      }
      writes := [UpdateRole(memberId, role)];
      if updateError.None? {
        FetchMembers(refreshed);
      }
    }
  }
}
