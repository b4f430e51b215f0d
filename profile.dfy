/** The Profile page: the profile header taken from the user's ranking, the
    user's posts and the first organizations. */
module Profile {
  import opened Records
  import Lists

  /** The `user` object the page renders. */
  datatype UserProfile = UserProfile(
    name: string,
    handle: string,
    bio: string,
    location: string,
    website: string,
    joinDate: string,
    following: int,
    followers: int,
    coverImage: string,
    avatar: string)

  /** Name, handle and avatar come from the ranking; every other field is a fixed
      placeholder, so the follower figures do not reflect any follow state. */
  function ProfileOf(ranking: UserRanking): (u: UserProfile)
    ensures u.name == ranking.name && u.handle == ranking.handle && u.avatar == ranking.avatar
    ensures u.following == 250 && u.followers == 1000
  {
    UserProfile(
      ranking.name,
      ranking.handle,
      "Passionate about Hindu culture and traditions. Software engineer by profession.",
      "Mumbai, India",
      "https://example.com",
      "Joined September 2022",
      250,
      1000,
      "https://source.unsplash.com/random/1500x500/?india",
      ranking.avatar)
  }

  /** `userPosts`: the posts whose handle is the profile's handle, in their original order. */
  function UserPosts(posts: seq<Post>, ranking: UserRanking): (r: seq<Post>)
    ensures Lists.IsSubsequence(r, posts)
    ensures forall p :: p in r ==> p in posts && p.handle == ranking.handle
    ensures forall p :: p in posts && p.handle == ranking.handle ==> p in r && multiset(r)[p] == multiset(posts)[p]
  {
    var handle := ProfileOf(ranking).handle;
    var r := Lists.Filter(posts, (p: Post) => p.handle == handle);
    assert forall p :: p in posts && p.handle == handle ==> multiset(posts)[p] > 0;
    r
  }

  /** `organizations.slice(0, 4)`: at most four organizations, the first ones, in order. */
  function ShownOrganizations(orgs: seq<Organization>): (r: seq<Organization>)
    ensures |r| <= 4 && |r| <= |orgs| && r == orgs[..|r|]
    ensures |orgs| >= 4 ==> |r| == 4
    ensures |orgs| < 4 ==> r == orgs
  {
    if |orgs| <= 4 then orgs else orgs[..4]
  }
}
