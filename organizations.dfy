/** The Organizations page: the follow toggle, the search filter, the selected
    organization with its tab, and its recent posts. */
module Organizations {
  import opened Records
  import opened Text
  import Lists

  /** One organization after the Follow button: only the flag flips. */
  function Follow(org: Organization): Organization
  {
    org.(isFollowing := !org.isFollowing)
  }

  /** `handleFollow(id)`: flips `isFollowing` of every organization with that id.
      The follower count, like every other field, is left as it was. */
  function HandleFollow(orgs: seq<Organization>, id: int): (r: seq<Organization>)
    ensures |r| == |orgs|
    ensures forall i :: 0 <= i < |orgs| && orgs[i].id != id ==> r[i] == orgs[i]
    ensures forall i :: 0 <= i < |orgs| && orgs[i].id == id ==>
      r[i].isFollowing == !orgs[i].isFollowing && r[i] == orgs[i].(isFollowing := r[i].isFollowing)
    ensures forall i :: 0 <= i < |orgs| ==> r[i].followers == orgs[i].followers
  {
    Lists.MapWhere(orgs, (o: Organization) => o.id == id, Follow)
  }

  /** Following twice with the same id restores the list. */
  lemma HandleFollowInvolution(orgs: seq<Organization>, id: int)
    ensures HandleFollow(HandleFollow(orgs, id), id) == orgs
  {
  }

  /** The search test: the name or the handle contains the term, ignoring case. */
  predicate OrganizationMatches(org: Organization, searchTerm: string)
  {
    MatchesTerm(org.name, searchTerm) || MatchesTerm(org.handle, searchTerm)
  }

  /** `filteredOrganizations`: the matching organizations, in their original order. */
  function FilteredOrganizations(orgs: seq<Organization>, searchTerm: string): (r: seq<Organization>)
    ensures Lists.IsSubsequence(r, orgs)
    ensures forall o :: o in r <==> o in orgs && OrganizationMatches(o, searchTerm)
    ensures forall o :: o in orgs && OrganizationMatches(o, searchTerm) ==> multiset(r)[o] == multiset(orgs)[o]
  {
    var r := Lists.Filter(orgs, (o: Organization) => OrganizationMatches(o, searchTerm));
    assert forall o :: o in orgs && OrganizationMatches(o, searchTerm) ==> multiset(orgs)[o] > 0;
    r
  }

  /** An empty search box shows every organization. */
  lemma {:induction false} FilteredOrganizationsEmptyTerm(orgs: seq<Organization>)
    ensures FilteredOrganizations(orgs, "") == orgs
  {
    forall i | 0 <= i < |orgs| ensures OrganizationMatches(orgs[i], "") {
      EmptyTermMatches(orgs[i].name);
    }
    Lists.FilterAll(orgs, (o: Organization) => OrganizationMatches(o, ""));
  }

  /** The "Recent Posts" of an organization: the posts whose handle is its handle, in order. */
  function RecentPosts(posts: seq<Post>, org: Organization): (r: seq<Post>)
    ensures Lists.IsSubsequence(r, posts)
    ensures forall p :: p in r <==> p in posts && p.handle == org.handle
    ensures forall p :: p in posts && p.handle == org.handle ==> multiset(r)[p] == multiset(posts)[p]
  {
    var r := Lists.Filter(posts, (p: Post) => p.handle == org.handle);
    assert forall p :: p in posts && p.handle == org.handle ==> multiset(posts)[p] > 0;
    r
  }

  datatype Tab = About | Pledges | Missions | Management

  /** The navigation state of the page. */
  class OrganizationsPage {
    var searchTerm: string
    var selectedOrg: Option<Organization>
    var activeTab: Tab

    constructor ()
      ensures searchTerm == "" && selectedOrg == None && activeTab == About
    {
      searchTerm := "";
      selectedOrg := None;
      activeTab := About;
    }

    /** `handleOrgClick`: opens the organization on its About tab. The selection is
        a copy: a later follow toggle does not reach it. */
    method OrgClick(org: Organization)
      modifies this
      ensures selectedOrg == Some(org) && activeTab == About
      ensures searchTerm == old(searchTerm)
    {
      selectedOrg := Some(org);
      activeTab := About;
    }

    /** The Back button: returns to the list; the tab is kept. */
    method Back()
      modifies this
      ensures selectedOrg == None
      ensures activeTab == old(activeTab) && searchTerm == old(searchTerm)
    {
      selectedOrg := None;
    }
  }
}
