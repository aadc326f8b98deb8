/**
  client/src/components/ChatPage.jsx: the chat screen.  It switches between
  the list of users and one conversation, filters the list by username, and
  sends the typed text to the selected user.  The network call is a
  parameter: `outcome` is what the POST to the send route hands back.
 */
module Chat {
  import opened Common
  import opened Db
  import opened ClientTypes
  import Search

  /** `currentView`: "userList" or "chat". */
  datatype View = UserList | ChatView

  /** The POST a send makes: the receiver from the route (missing when no
      user is selected) and the text exactly as typed. */
  datatype SendRequest = SendRequest(receiverId: Option<Id>, textMessage: string)

  /** `users.filter(u => u.username.toLowerCase().includes(q))`. */
  function UsernameContains(users: seq<UserCard>, q: string): (r: seq<UserCard>)
    ensures forall u :: u in r <==> u in users && Contains(Lower(u.username), q)
    ensures forall u :: multiset(r)[u] == if Contains(Lower(u.username), q) then multiset(users)[u] else 0
  {
    if users == [] then []
    else
      assert users == [users[0]] + users[1..];
      if Contains(Lower(users[0].username), q) then [users[0]] + UsernameContains(users[1..], q)
      else UsernameContains(users[1..], q)
  }

  lemma {:induction false} UsernameContainsIsSubsequence(users: seq<UserCard>, q: string)
    ensures IsSubsequence(UsernameContains(users, q), users)
  {
    if users != [] {
      var rest := UsernameContains(users[1..], q);
      UsernameContainsIsSubsequence(users[1..], q);
      if Contains(Lower(users[0].username), q) {
        assert ([users[0]] + rest)[1..] == rest;
      } else {
        SubsequenceOfTail(rest, users);
      }
    }
  }

  /** The `filteredUsers` memo of the chat list: everyone for a blank query,
      otherwise the users whose lower-cased username contains the
      lower-cased query; unlike the search page, the query is not trimmed. */
  function ChatFilter(searchQuery: string, users: seq<UserCard>): (r: seq<UserCard>)
    ensures IsBlank(searchQuery) ==> r == users
    ensures !IsBlank(searchQuery) ==>
              forall u :: u in r <==> u in users && Contains(Lower(u.username), Lower(searchQuery))
    ensures !IsBlank(searchQuery) ==>
              forall u :: multiset(r)[u] ==
                          if Contains(Lower(u.username), Lower(searchQuery)) then multiset(users)[u] else 0
  {
    TrimEmptyIffBlank(searchQuery);
    if Trim(searchQuery) == [] then users
    else UsernameContains(users, Lower(searchQuery))
  }

  lemma ChatFilterIsSubsequence(searchQuery: string, users: seq<UserCard>)
    ensures IsSubsequence(ChatFilter(searchQuery, users), users)
  {
    TrimEmptyIffBlank(searchQuery);
    if IsBlank(searchQuery) {
      SubsequenceReflexive(users);
    } else {
      UsernameContainsIsSubsequence(users, Lower(searchQuery));
    }
  }

  lemma PaddedQueryFacts()
    ensures !IsBlank(" al") && Lower(" al") == " al" && Trim(" al") == "al" && Lower("al") == "al"
  {
    PaddedQueryNotBlank();
    PaddedQueryIsLower();
    PaddedQueryTrims();
  }

  lemma PaddedQueryNotBlank()
    ensures !IsBlank(" al")
  {
    assert !IsWhitespace(" al"[1]);
  }

  lemma PaddedQueryIsLower()
    ensures Lower(" al") == " al" && Lower("al") == "al"
  {
    assert Lower(" al")[0] == ' ' && Lower(" al")[1] == 'a' && Lower(" al")[2] == 'l';
    assert Lower("al")[0] == 'a' && Lower("al")[1] == 'l';
  }

  lemma PaddedQueryTrims()
    ensures Trim(" al") == "al"
  {
    PaddedQueryLosesSpace();
    UnpaddedQueryIsTrimmed();
  }

  lemma PaddedQueryLosesSpace()
    ensures TrimStart(" al") == TrimStart("al")
  {
    assert IsWhitespace(" al"[0]) && " al"[1..] == "al";
  }

  lemma UnpaddedQueryIsTrimmed()
    ensures TrimStart("al") == "al" && TrimEnd("al") == "al"
  {
    assert !IsWhitespace("al"[0]) && !IsWhitespace("al"[1]);
  }

  /** The chat page does not trim: for every query that opens with a
      whitespace character `c` and is not blank, each user it keeps has `c`
      in their username, so a user whose name lacks it is never found. */
  lemma PaddedChatQueryNeedsTheSpace(c: char, s: string, users: seq<UserCard>)
    requires IsWhitespace(c) && !IsBlank(s)
    ensures forall u :: u in ChatFilter([c] + s, users) ==> c in u.username
  {
    var q := [c] + s;
    assert !IsBlank(q) by {
      var i :| 0 <= i < |s| && !IsWhitespace(s[i]);
      assert q[i + 1] == s[i];
    }
    forall u | u in ChatFilter(q, users) ensures c in u.username {
      var hay := Lower(u.username);
      ContainsOccurs(hay, Lower(q));
      var k :| OccursAt(hay, Lower(q), k);
      assert hay[k] == hay[k..k + |q|][0] == Lower(q)[0] == LowerChar(c) == c;
      assert u.username[k] == c;
    }
  }

  /** A leading space makes the chat filter miss a user the search page
      finds: " al" is not in "al", while the search page trims it away. */
  lemma ChatFilterDoesNotTrim()
    ensures var users := [UserCard(0, "al", None, None, "")];
            ChatFilter(" al", users) == [] && Search.FilteredUsers(" al", Some(users)) == users
  {
    var users := [UserCard(0, "al", None, None, "")];
    PaddedQueryFacts();
    ChatFilterMissesPadded(users);
    SearchFindsPadded(users);
  }

  lemma ChatFilterMissesPadded(users: seq<UserCard>)
    requires users == [UserCard(0, "al", None, None, "")]
    ensures ChatFilter(" al", users) == []
  {
    PaddedQueryFacts();
    assert !Contains("", " al");
    assert !Contains("l", " al");
    assert !Contains("al", " al");
    assert UsernameContains(users[1..], " al") == [];
  }

  lemma SearchFindsPadded(users: seq<UserCard>)
    requires users == [UserCard(0, "al", None, None, "")]
    ensures Search.FilteredUsers(" al", Some(users)) == users
  {
    PaddedQueryFacts();
    assert Contains("al", "al") by { assert "al" <= "al"; }
    assert Search.Matches(users[0], "al");
    assert Search.KeepMatching(users[1..], "al") == [];
  }

  /** The chat screen's local state, with the store slices it reads and
      writes (`store.chat.messages`, `store.auth.selectedUser`). */
  class ChatPage {
    var textMessage: string
    var isLoading: bool
    var searchQuery: string
    var currentView: View
    var messages: seq<ChatMessage>
    var selectedUser: Option<UserCard>

    constructor (messages: seq<ChatMessage>, selectedUser: Option<UserCard>)
      ensures textMessage == "" && !isLoading && searchQuery == "" && currentView == UserList
      ensures this.messages == messages && this.selectedUser == selectedUser
    {
      textMessage, isLoading, searchQuery, currentView := "", false, "", UserList;
      this.messages, this.selectedUser := messages, selectedUser;
    }

    /** `selectedUser?._id`. */
    function SelectedId(): Option<Id>
      reads this
    {
      if selectedUser.Some? then Some(selectedUser.value.id) else None
    }

    /** The send button's `disabled={!textMessage.trim() || isLoading}`:
        disabled exactly for blank text and while a send runs. */
    function SendDisabled(): (r: bool)
      reads this
      ensures r <==> IsBlank(textMessage) || isLoading
    {
      TrimEmptyIffBlank(textMessage);
      Trim(textMessage) == [] || isLoading
    }

    /** The effect of one send to `receiverId`: nothing for blank text;
        otherwise one request with the text as typed, the new message
        appended and the box cleared on success, nothing else on failure,
        and the loading flag down again in every case. */
    twostate predicate SendEffect(receiverId: Option<Id>, outcome: Outcome<ChatMessage>, new request: Option<SendRequest>)
      reads this
    {
      && searchQuery == old(searchQuery) && currentView == old(currentView) && selectedUser == old(selectedUser)
      && (IsBlank(old(textMessage)) ==>
            request.None? && textMessage == old(textMessage) && messages == old(messages)
            && isLoading == old(isLoading))
      && (!IsBlank(old(textMessage)) ==>
            && request == Some(SendRequest(receiverId, old(textMessage)))
            && !isLoading
            && (outcome.Success? ==> messages == old(messages) + [outcome.payload] && textMessage == "")
            && (!outcome.Success? ==> messages == old(messages) && textMessage == old(textMessage)))
    }

    /** `sendMessageHandler`. */
    method SendMessageHandler(receiverId: Option<Id>, outcome: Outcome<ChatMessage>)
      returns (request: Option<SendRequest>)
      modifies this
      ensures SendEffect(receiverId, outcome, request)
    {
      TrimEmptyIffBlank(textMessage);
      if Trim(textMessage) == [] {
        return None;
      }
      isLoading := true;
      request := Some(SendRequest(receiverId, textMessage));
      if outcome.Success? {
        messages := messages + [outcome.payload];
        textMessage := "";
      }
      isLoading := false;
    }

    /** The send button's `onClick`: a disabled button does nothing; an
        enabled one sends exactly the typed text to the selected user. */
    method ClickSend(outcome: Outcome<ChatMessage>) returns (request: Option<SendRequest>)
      modifies this
      ensures old(SendDisabled()) ==> request.None? && unchanged(this)
      ensures !old(SendDisabled()) ==>
                && request == Some(SendRequest(old(SelectedId()), old(textMessage)))
                && SendEffect(old(SelectedId()), outcome, request)
    {
      if SendDisabled() {
        return None;
      }
      request := SendMessageHandler(SelectedId(), outcome);
    }

    /** `handleKeyPress`: Enter without Shift sends to the selected user;
        any other key leaves everything as it was.  Unlike the button, the
        key handler does not test `isLoading`: the input it is attached to is
        disabled while a send runs instead. */
    method HandleKeyPress(key: string, shiftKey: bool, outcome: Outcome<ChatMessage>)
      returns (request: Option<SendRequest>)
      modifies this
      ensures key == "Enter" && !shiftKey ==> SendEffect(old(SelectedId()), outcome, request)
      ensures !(key == "Enter" && !shiftKey) ==> request.None? && unchanged(this)
    {
      request := None;
      if key == "Enter" && !shiftKey {
        request := SendMessageHandler(SelectedId(), outcome);
      }
    }

    /** `handleUserSelect`. */
    method HandleUserSelect(u: UserCard)
      modifies this
      ensures selectedUser == Some(u) && currentView == ChatView
      ensures textMessage == old(textMessage) && isLoading == old(isLoading)
      ensures searchQuery == old(searchQuery) && messages == old(messages)
    {
      selectedUser := Some(u);
      currentView := ChatView;
    }

    /** `handleBackToUserList`: the selection is kept. */
    method HandleBackToUserList()
      modifies this
      ensures currentView == UserList
      ensures selectedUser == old(selectedUser) && textMessage == old(textMessage) && isLoading == old(isLoading)
      ensures searchQuery == old(searchQuery) && messages == old(messages)
    {
      currentView := UserList;
    }
  }
}
