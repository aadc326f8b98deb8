/**
  client/src/components/SuggestedUsers.jsx: the "Suggested for you" panel.
  Following is optimistic: a per-user override shows the new state at once,
  a per-user loading flag blocks repeated clicks, and the override is put
  back when the request fails.  The panel lists at most five users until
  "See All" is pressed.
 */
module Suggested {
  import opened Common
  import opened Db
  import opened ClientTypes

  /** Users listed while "See All" is off. */
  const CollapsedCount := 5

  /** `usersToDisplay`. */
  function UsersToDisplay(users: seq<UserCard>, showAll: bool): (r: seq<UserCard>)
    ensures r <= users
    ensures showAll ==> r == users
    ensures !showAll ==> |r| == if |users| < CollapsedCount then |users| else CollapsedCount
  {
    if showAll || |users| <= CollapsedCount then users else users[..CollapsedCount]
  }

  /** "See All" is offered exactly when the collapsed list hides someone. */
  predicate ShowSeeAll(users: seq<UserCard>, showAll: bool) {
    |users| > CollapsedCount && !showAll
  }

  lemma SeeAllIffUsersHidden(users: seq<UserCard>, showAll: bool)
    ensures ShowSeeAll(users, showAll) <==> |UsersToDisplay(users, showAll)| < |users|
  {
  }

  /** The panel renders nothing for a missing or empty list, otherwise the
      users to display. */
  function Panel(suggested: Option<seq<UserCard>>, showAll: bool): (r: Option<seq<UserCard>>)
    ensures r.None? <==> suggested.None? || suggested.value == []
    ensures r.Some? ==> r.value != [] && r.value <= suggested.value
  {
    if suggested.None? || suggested.value == [] then None
    else Some(UsersToDisplay(suggested.value, showAll))
  }

  class SuggestedUsersPanel {
    /** The local override of the follow state, per user. */
    var followingStates: map<Id, bool>
    /** Users whose follow request is in flight (a missing key is false). */
    var loadingStates: map<Id, bool>
    var showAll: bool
    /** `store.auth.user.following`: the rest of the user record is copied
        unchanged by the update. */
    var following: seq<Id>

    constructor (following: seq<Id>)
      ensures followingStates == map[] && loadingStates == map[] && !showAll
      ensures this.following == following
    {
      followingStates, loadingStates, showAll := map[], map[], false;
      this.following := following;
    }

    /** `followingStates[id] ?? user.following.includes(id)`. */
    function IsFollowingShown(target: Id): bool
      reads this
    {
      if target in followingStates then followingStates[target] else target in following
    }

    predicate IsLoading(target: Id)
      reads this
    {
      target in loadingStates && loadingStates[target]
    }

    /** Every override shown agrees with the stored following list. */
    predicate OverridesAgree()
      reads this
    {
      forall t :: t in followingStates ==> followingStates[t] == (t in following)
    }

    /** The synchronous part of a click: ignored while the user's request is
        in flight; otherwise the prior state is read, the override flips to
        its opposite and the loading flag goes up. */
    method BeginFollow(target: Id) returns (started: bool, wasFollowing: bool)
      modifies this
      ensures started <==> !old(IsLoading(target))
      ensures !started ==> unchanged(this)
      ensures started ==>
                && wasFollowing == old(IsFollowingShown(target))
                && followingStates == old(followingStates)[target := !wasFollowing]
                && loadingStates == old(loadingStates)[target := true]
                && following == old(following) && showAll == old(showAll)
    {
      if IsLoading(target) {
        return false, false;
      }
      wasFollowing := IsFollowingShown(target);
      followingStates := followingStates[target := !wasFollowing];
      loadingStates := loadingStates[target := true];
      started := true;
    }

    /** What follows the reply: on success the following list drops every
        occurrence of the target or gains it at the end; on a declined reply
        or an error the override goes back to the prior state; either way
        the loading flag comes down. */
    method FinishFollow(target: Id, wasFollowing: bool, outcome: Outcome<()>)
      modifies this
      ensures outcome.Success? ==>
                && following == (if wasFollowing then Removed(old(following), target) else old(following) + [target])
                && followingStates == old(followingStates)
      ensures !outcome.Success? ==>
                following == old(following) && followingStates == old(followingStates)[target := wasFollowing]
      ensures loadingStates == old(loadingStates)[target := false] && showAll == old(showAll)
    {
      if outcome.Success? {
        following := if wasFollowing then Removed(following, target) else following + [target];
      } else {
        followingStates := followingStates[target := wasFollowing];
      }
      loadingStates := loadingStates[target := false];
    }

    /** `followUnfollowHandler` as one step.  Whatever the outcome, the
        target's loading flag is down afterwards and, when every override
        agreed with the following list before, they still agree. */
    method FollowUnfollowHandler(target: Id, outcome: Outcome<()>) returns (started: bool)
      modifies this
      ensures started <==> !old(IsLoading(target))
      ensures !started ==> unchanged(this)
      ensures started ==>
                && !IsLoading(target)
                && (outcome.Success? ==> IsFollowingShown(target) == !old(IsFollowingShown(target)))
                && (!outcome.Success? ==> IsFollowingShown(target) == old(IsFollowingShown(target)))
                && (outcome.Success? ==> (target in following <==> !old(IsFollowingShown(target))))
                && (old(OverridesAgree()) ==> OverridesAgree())
    {
      var wasFollowing;
      started, wasFollowing := BeginFollow(target);
      if started {
        FinishFollow(target, wasFollowing, outcome);
        if outcome.Success? && wasFollowing {
          assert target !in following;
        }
      }
    }

    method ToggleShowAll(value: bool)
      modifies this
      ensures showAll == value
      ensures following == old(following) && followingStates == old(followingStates)
      ensures loadingStates == old(loadingStates)
    {
      showAll := value;
    }
  }
}
