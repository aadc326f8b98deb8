/**
  client/src/components/Profile.jsx: a user's profile page.  The flags the
  page shows are derived from the logged-in user and the profile on
  display; following or unfollowing rebuilds both the viewer's `following`
  list and the profile's `followers` list once the server agrees.
 */
module Profile {
  import opened Common
  import opened Db
  import opened ClientTypes

  function UserId(user: Option<AuthUser>): Option<Id> {
    if user.Some? then Some(user.value.id) else None
  }

  function ProfileId(profile: Option<UserProfile>): Option<Id> {
    if profile.Some? then Some(profile.value.id) else None
  }

  /** `user?.id === userProfile?._id`: with neither loaded both sides are
      undefined and the page counts as the viewer's own. */
  function IsOwnProfile(user: Option<AuthUser>, profile: Option<UserProfile>): (r: bool)
    ensures user.Some? && profile.Some? ==> (r <==> user.value.id == profile.value.id)
    ensures user.Some? != profile.Some? ==> !r
    ensures user.None? && profile.None? ==> r
  {
    UserId(user) == ProfileId(profile)
  }

  /** `userProfile?.followers?.includes(user?.id) || false`. */
  function IsFollowing(user: Option<AuthUser>, profile: Option<UserProfile>): (r: bool)
    ensures r <==> user.Some? && profile.Some? && profile.value.followers.Some?
                   && user.value.id in profile.value.followers.value
  {
    match (user, profile)
    case (Some(u), Some(p)) => p.followers.Some? && u.id in p.followers.value
    case _ => false
  }

  /** `userProfile?.followers?.length || 0`. */
  function FollowersCount(profile: Option<UserProfile>): (r: nat)
    ensures profile.Some? && profile.value.followers.Some? ==> r == |profile.value.followers.value|
    ensures profile.None? || profile.value.followers.None? ==> r == 0
  {
    if profile.Some? && profile.value.followers.Some? then |profile.value.followers.value| else 0
  }

  /** `displayedPost`: the "posts" tab shows the profile's posts, every
      other tab its bookmarks; nothing without a profile. */
  function DisplayedPosts(activeTab: string, profile: Option<UserProfile>): (r: Option<seq<Id>>)
    ensures profile.None? <==> r.None?
    ensures profile.Some? && activeTab == "posts" ==> r == Some(profile.value.posts)
    ensures profile.Some? && activeTab != "posts" ==> r == Some(profile.value.bookmarks)
  {
    if profile.None? then None
    else if activeTab == "posts" then Some(profile.value.posts)
    else Some(profile.value.bookmarks)
  }

  /** The viewer's `following` after a successful click. */
  function FollowingAfter(following: seq<Id>, profileId: Id, wasFollowing: bool): seq<Id> {
    if wasFollowing then Removed(following, profileId) else following + [profileId]
  }

  /** The profile's `followers` after a successful click; a missing list
      cannot be extended (spreading it throws), so it stays missing. */
  function FollowersAfter(followers: Option<seq<Id>>, userId: Id, wasFollowing: bool): Option<seq<Id>> {
    if followers.None? then None
    else if wasFollowing then Some(Removed(followers.value, userId))
    else Some(followers.value + [userId])
  }

  /** The two sides of the follow edge between viewer and profile agree. */
  predicate EdgeAgrees(user: AuthUser, profile: UserProfile) {
    profile.followers.Some? ==> (profile.id in user.following <==> user.id in profile.followers.value)
  }

  /** Rebuilding both lists from the same `isFollowing` keeps the two sides
      in agreement, and flips the edge. */
  lemma FollowKeepsEdgeAgreement(user: AuthUser, profile: UserProfile)
    requires user.id != profile.id && EdgeAgrees(user, profile) && profile.followers.Some?
    ensures var wasFollowing := user.id in profile.followers.value;
            var user' := user.(following := FollowingAfter(user.following, profile.id, wasFollowing));
            var profile' := profile.(followers := FollowersAfter(profile.followers, user.id, wasFollowing));
            EdgeAgrees(user', profile') && (profile.id in user'.following <==> !wasFollowing)
  {
  }

  class ProfilePage {
    var user: Option<AuthUser>
    var userProfile: Option<UserProfile>
    var isLoading: bool
    var activeTab: string

    constructor (user: Option<AuthUser>, userProfile: Option<UserProfile>)
      ensures this.user == user && this.userProfile == userProfile
      ensures !isLoading && activeTab == "posts"
    {
      this.user, this.userProfile := user, userProfile;
      isLoading, activeTab := false, "posts";
    }

    /** Viewer and profile are both loaded, distinct, and agree on the edge
        between them. */
    predicate Consistent()
      reads this
    {
      user.Some? && userProfile.Some? && user.value.id != userProfile.value.id
      && EdgeAgrees(user.value, userProfile.value)
    }

    method HandleTabChange(tab: string)
      modifies this
      ensures activeTab == tab
      ensures user == old(user) && userProfile == old(userProfile) && isLoading == old(isLoading)
    {
      activeTab := tab;
    }

    /** `followUnfollowHandler`.  A no-op while loading and on one's own
        profile.  Otherwise one request for the profile's id is made; on
        success both lists are rebuilt from the `isFollowing` flag; the
        loading flag is down afterwards. */
    method FollowUnfollowHandler(outcome: Outcome<()>) returns (request: Option<Id>)
      modifies this
      ensures old(isLoading) || old(IsOwnProfile(user, userProfile)) ==> request.None? && unchanged(this)
      ensures !old(isLoading) && !old(IsOwnProfile(user, userProfile)) ==>
                && request == old(ProfileId(userProfile))
                && !isLoading
                && activeTab == old(activeTab)
                && (outcome.Success? && old(user).Some? && old(userProfile).Some? ==>
                      var wasFollowing := old(IsFollowing(user, userProfile));
                      && user == Some(old(user).value.(following := FollowingAfter(old(user).value.following, old(userProfile).value.id, wasFollowing)))
                      && userProfile == Some(old(userProfile).value.(followers := FollowersAfter(old(userProfile).value.followers, old(user).value.id, wasFollowing))))
                && (!(outcome.Success? && old(user).Some? && old(userProfile).Some?) ==>
                      user == old(user) && userProfile == old(userProfile))
      ensures old(Consistent()) ==> Consistent()
    {
      if isLoading || IsOwnProfile(user, userProfile) {
        return None;
      }
      isLoading := true;
      if userProfile.None? {
        // `userProfile._id` throws before the request is made.
        request := None;
      } else {
        var profile := userProfile.value;
        request := Some(profile.id);
        var wasFollowing := IsFollowing(user, userProfile);
        if outcome.Success? && user.Some? {
          var u := user.value;
          user := Some(u.(following := FollowingAfter(u.following, profile.id, wasFollowing)));
          // With `followers` missing, rebuilding it throws and the profile is kept.
          userProfile := Some(profile.(followers := FollowersAfter(profile.followers, u.id, wasFollowing)));
          if profile.followers.Some? && old(Consistent()) {
            FollowKeepsEdgeAgreement(u, profile);
          }
        }
      }
      isLoading := false;
    }
  }
}
