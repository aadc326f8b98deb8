/**
  client/src/components/SearchPage.jsx: the search box over the suggested
  users.  A blank query lists everyone; otherwise a user is kept when the
  lower-cased, trimmed query occurs in the lower-cased username, bio or full
  name.  Which section is shown depends on the raw query only.
 */
module Search {
  import opened Common
  import opened Db
  import opened ClientTypes

  /** `field?.toLowerCase().includes(q)`: a missing field never matches. */
  predicate FieldMatches(field: Option<string>, q: string) {
    field.Some? && Contains(Lower(field.value), q)
  }

  predicate Matches(u: UserCard, q: string) {
    Contains(Lower(u.username), q) || FieldMatches(u.bio, q) || FieldMatches(u.fullName, q)
  }

  /** `users.filter(u => Matches(u, q))`. */
  function KeepMatching(users: seq<UserCard>, q: string): (r: seq<UserCard>)
    ensures forall u :: u in r <==> u in users && Matches(u, q)
    ensures forall u :: multiset(r)[u] == if Matches(u, q) then multiset(users)[u] else 0
    ensures |r| <= |users|
  {
    if users == [] then []
    else
      assert users == [users[0]] + users[1..];
      if Matches(users[0], q) then [users[0]] + KeepMatching(users[1..], q)
      else KeepMatching(users[1..], q)
  }

  lemma {:induction false} KeepMatchingIsSubsequence(users: seq<UserCard>, q: string)
    ensures IsSubsequence(KeepMatching(users, q), users)
  {
    if users != [] {
      var rest := KeepMatching(users[1..], q);
      KeepMatchingIsSubsequence(users[1..], q);
      if Matches(users[0], q) {
        assert ([users[0]] + rest)[1..] == rest;
      } else {
        SubsequenceOfTail(rest, users);
      }
    }
  }

  /** `suggestedUsers || []`. */
  function OrEmpty(suggested: Option<seq<UserCard>>): seq<UserCard> {
    if suggested.Some? then suggested.value else []
  }

  /** The `filteredUsers` memo. */
  function FilteredUsers(searchQuery: string, suggested: Option<seq<UserCard>>): (r: seq<UserCard>)
    ensures IsBlank(searchQuery) ==> r == OrEmpty(suggested)
    ensures !IsBlank(searchQuery) ==>
              forall u :: u in r <==> u in OrEmpty(suggested) && Matches(u, Trim(Lower(searchQuery)))
    ensures !IsBlank(searchQuery) ==>
              forall u :: multiset(r)[u] ==
                          if Matches(u, Trim(Lower(searchQuery))) then multiset(OrEmpty(suggested))[u] else 0
  {
    TrimEmptyIffBlank(searchQuery);
    if Trim(searchQuery) == [] then OrEmpty(suggested)
    else KeepMatching(OrEmpty(suggested), Trim(Lower(searchQuery)))
  }

  /** The result keeps the order of the suggested list. */
  lemma FilterIsSubsequence(searchQuery: string, suggested: Option<seq<UserCard>>)
    ensures IsSubsequence(FilteredUsers(searchQuery, suggested), OrEmpty(suggested))
  {
    TrimEmptyIffBlank(searchQuery);
    if IsBlank(searchQuery) {
      SubsequenceReflexive(OrEmpty(suggested));
    } else {
      KeepMatchingIsSubsequence(OrEmpty(suggested), Trim(Lower(searchQuery)));
    }
  }

  /** Typing the query in capitals finds the same users. */
  lemma FilterIgnoresCase(searchQuery: string, suggested: Option<seq<UserCard>>)
    ensures FilteredUsers(Lower(searchQuery), suggested) == FilteredUsers(searchQuery, suggested)
  {
    LowerKeepsBlank(searchQuery);
    LowerIdempotent(searchQuery);
    TrimEmptyIffBlank(searchQuery);
    TrimEmptyIffBlank(Lower(searchQuery));
  }

  /** Surrounding the query with any whitespace finds the same users. */
  lemma FilterIgnoresPadding(p: string, searchQuery: string, q: string, suggested: Option<seq<UserCard>>)
    requires IsBlank(p) && IsBlank(q)
    ensures FilteredUsers(p + searchQuery + q, suggested) == FilteredUsers(searchQuery, suggested)
  {
    var padded := p + searchQuery + q;
    TrimIgnoresPadding(p, searchQuery, q);
    TrimEmptyIffBlank(padded);
    TrimEmptyIffBlank(searchQuery);
    assert IsBlank(padded) <==> IsBlank(searchQuery);
    LowerOfPadded(p, searchQuery, q);
    assert Trim(Lower(padded)) == Trim(Lower(searchQuery));
  }

  /** Lower-casing a padded query pads the lower-cased query with whitespace. */
  lemma LowerOfPadded(p: string, searchQuery: string, q: string)
    requires IsBlank(p) && IsBlank(q)
    ensures Trim(Lower(p + searchQuery + q)) == Trim(Lower(searchQuery))
  {
    LowerConcat(p + searchQuery, q);
    LowerConcat(p, searchQuery);
    LowerKeepsBlank(p);
    LowerKeepsBlank(q);
    TrimIgnoresPadding(Lower(p), Lower(searchQuery), Lower(q));
  }

  /** The heading and list below the search box. */
  datatype Section =
    | SuggestedSection(count: nat, users: seq<UserCard>)   // "Suggested Users (n)"
    | ResultsSection(count: nat, users: seq<UserCard>)     // "Search Results (n)"

  /** `!searchQuery` picks the section: the raw query, not the trimmed one. */
  function ShownSection(searchQuery: string, suggested: Option<seq<UserCard>>): (s: Section)
    ensures s.SuggestedSection? <==> searchQuery == ""
    ensures s.count == |s.users|
    ensures s.SuggestedSection? ==> s.users == OrEmpty(suggested)
    ensures s.ResultsSection? ==> s.users == FilteredUsers(searchQuery, suggested)
  {
    if searchQuery == "" then SuggestedSection(|OrEmpty(suggested)|, OrEmpty(suggested))
    else
      var filtered := FilteredUsers(searchQuery, suggested);
      ResultsSection(|filtered|, filtered)
  }

  /** A query of spaces shows every suggested user, but under "Search
      Results" with the full count. */
  lemma WhitespaceQueryListsEveryone(searchQuery: string, suggested: Option<seq<UserCard>>)
    requires searchQuery != "" && IsBlank(searchQuery)
    ensures ShownSection(searchQuery, suggested) == ResultsSection(|OrEmpty(suggested)|, OrEmpty(suggested))
  {
  }

  /** The page's only state: the text of the search box. */
  class SearchPage {
    var searchQuery: string

    constructor ()
      ensures searchQuery == ""
    {
      searchQuery := "";
    }

    /** `handleInputChange`: the box holds exactly what was typed. */
    method HandleInputChange(value: string)
      modifies this
      ensures searchQuery == value
    {
      searchQuery := value;
    }

    /** `handleClearSearch`: back to the suggested list. */
    method HandleClearSearch(suggested: Option<seq<UserCard>>) returns (shown: Section)
      modifies this
      ensures searchQuery == ""
      ensures shown == SuggestedSection(|OrEmpty(suggested)|, OrEmpty(suggested))
    {
      searchQuery := "";
      shown := ShownSection(searchQuery, suggested);
    }
  }
}
