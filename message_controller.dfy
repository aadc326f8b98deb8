/**
  server/controllers/message.controller.js: `sendMessage` resolves (or
  creates) the conversation of a pair of users and appends a new message id
  to it; `getMessage` reads a pair's history back.

  Two field names in the source disagree with the ones used elsewhere:
  the lookup in `sendMessage` filters on `participant` while the created
  record and `getMessage` use `participants`, and the push goes to
  `conversation.message` while `getMessage` reads `conversation.messages`.
  The model uses the intended fields, `participants` and `messages`.
 */
module MessageController {
  import opened Common
  import opened Db

  /** The `$all` filter: both ids occur among the participants, in any order. */
  predicate HasBoth(c: Conversation, a: Id, b: Id) {
    a in c.participants && b in c.participants
  }

  /** `Conversation.findOne({ participants: { $all: [a, b] } })`: the first
      conversation, in natural order, whose participants include both ids. */
  function FindConversation(convs: seq<Conversation>, a: Id, b: Id): (r: Option<Id>)
    ensures r.Some? ==> r.value < |convs| && HasBoth(convs[r.value], a, b)
    ensures r.Some? ==> forall j :: 0 <= j < r.value ==> !HasBoth(convs[j], a, b)
    ensures r.None? ==> forall j :: 0 <= j < |convs| ==> !HasBoth(convs[j], a, b)
  {
    if convs == [] then None
    else if HasBoth(convs[0], a, b) then Some(0)
    else match FindConversation(convs[1..], a, b)
      case None => None
      case Some(i) => Some(i + 1)
  }

  /** The order of the two ids does not matter: (A, B) and (B, A) resolve to
      the same conversation. */
  lemma {:induction false} FindIsSymmetric(convs: seq<Conversation>, a: Id, b: Id)
    ensures FindConversation(convs, a, b) == FindConversation(convs, b, a)
  {
    if convs != [] {
      FindIsSymmetric(convs[1..], a, b);
    }
  }

  /** Appending message ids to a conversation never changes what a lookup
      resolves to, since only participants are consulted. */
  lemma {:induction false} FindIgnoresMessages(convs: seq<Conversation>, c: nat, ids: seq<Id>, a: Id, b: Id)
    requires c < |convs|
    ensures FindConversation(convs[c := convs[c].(messages := ids)], a, b) == FindConversation(convs, a, b)
  {
    var updated := convs[c := convs[c].(messages := ids)];
    if c > 0 {
      assert updated[1..] == convs[1..][c - 1 := convs[c].(messages := ids)];
      FindIgnoresMessages(convs[1..], c - 1, ids, a, b);
    } else {
      assert updated[1..] == convs[1..];
    }
  }

  /** Adding a conversation at the end never hides an earlier match, and it
      is found when nothing earlier matched. */
  lemma {:induction false} FindAfterAppend(convs: seq<Conversation>, c: Conversation, a: Id, b: Id)
    ensures FindConversation(convs + [c], a, b) ==
      match FindConversation(convs, a, b)
      case Some(i) => Some(i)
      case None => if HasBoth(c, a, b) then Some(|convs|) else None
  {
    if convs != [] {
      assert (convs + [c])[1..] == convs[1..] + [c];
      FindAfterAppend(convs[1..], c, a, b);
    } else {
      assert (convs + [c])[1..] == [];
    }
  }

  /** The conversation a send between `senderId` and `receiverId` uses, and
      the conversation list after it, before the message is filed. */
  function Resolve(convs: seq<Conversation>, senderId: Id, receiverId: Id): (r: (seq<Conversation>, Id))
    ensures r.1 < |r.0|
    ensures FindConversation(convs, senderId, receiverId).Some? ==>
              r == (convs, FindConversation(convs, senderId, receiverId).value)
    ensures FindConversation(convs, senderId, receiverId).None? ==>
              r == (convs + [Conversation([senderId, receiverId], [])], |convs|)
  {
    match FindConversation(convs, senderId, receiverId)
    case Some(i) => (convs, i)
    case None => (convs + [Conversation([senderId, receiverId], [])], |convs|)
  }

  /** Resolving twice (in either order of the ids) lands on the same
      conversation and creates nothing the second time. */
  lemma ResolveIsIdempotent(convs: seq<Conversation>, a: Id, b: Id)
    ensures var (convs', c) := Resolve(convs, a, b);
            Resolve(convs', a, b) == (convs', c) && Resolve(convs', b, a) == (convs', c)
  {
    var (convs', c) := Resolve(convs, a, b);
    if FindConversation(convs, a, b).None? {
      FindAfterAppend(convs, Conversation([a, b], []), a, b);
    }
    FindIsSymmetric(convs', a, b);
  }

  /** `sendMessage`.  The sender comes from the session, the receiver from
      the route and the text from the body; `now` is the creation time the
      store stamps on the message.  Nothing is validated: empty text and a
      message to oneself are both accepted. */
  method SendMessage(db: Store, senderId: Id, receiverId: Id, text: string, now: int)
    returns (status: int, body: Body)
    requires db.Valid()
    modifies db
    ensures db.Valid()
    ensures status == 200
    ensures var (convs, c) := Resolve(old(db.conversations), senderId, receiverId);
            && body == Sent(|old(db.messages)|, Message(senderId, receiverId, text, c, now))
            && db.messages == old(db.messages) + [body.newMessage]
            && db.conversations == convs[c := convs[c].(messages := convs[c].messages + [body.newMessageId])]
    ensures db.users == old(db.users) && db.posts == old(db.posts)
    ensures db.comments == old(db.comments) && db.nextId == old(db.nextId)
  {
    var found := FindConversation(db.conversations, senderId, receiverId);
    var conversationId: Id;
    if found.None? {
      // no conversation for the pair yet: append one
      conversationId := |db.conversations|;
      db.conversations := db.conversations + [Conversation([senderId, receiverId], [])];
    } else {
      conversationId := found.value;
    }
    var newMessageId := |db.messages|;
    var newMessage := Message(senderId, receiverId, text, conversationId, now);
    // `if (newMessage)` in the source always holds: a constructed document is truthy.
    db.messages := db.messages + [newMessage];
    var conversation := db.conversations[conversationId];
    db.conversations := db.conversations[conversationId := conversation.(messages := conversation.messages + [newMessageId])];
    status, body := 200, Sent(newMessageId, newMessage);
  }

  /** The message ids stored for the pair `a`, `b`: those of the conversation
      the lookup finds, and none when there is no conversation. */
  function HistoryOf(convs: seq<Conversation>, a: Id, b: Id): seq<Id> {
    match FindConversation(convs, a, b)
    case None => []
    case Some(i) => convs[i].messages
  }

  /** `getMessage`: read-only.  Without a conversation the reply succeeds
      with the literal string "[]"; otherwise it carries the stored message
      ids in stored order. */
  method GetMessage(db: Store, senderId: Id, receiverId: Id) returns (status: int, body: Body)
    ensures status == 200
    ensures FindConversation(db.conversations, senderId, receiverId).None? ==> body == NoHistory("[]")
    ensures FindConversation(db.conversations, senderId, receiverId).Some? ==>
              body == History(db.conversations[FindConversation(db.conversations, senderId, receiverId).value].messages)
    ensures body.History? ==> body.messages == HistoryOf(db.conversations, senderId, receiverId)
  {
    var found := FindConversation(db.conversations, senderId, receiverId);
    if found.None? {
      return 200, NoHistory("[]");
    }
    return 200, History(db.conversations[found.value].messages);
  }

  /** A read, a send and a read of the same pair (the second read either
      way round): the first read is the stored history, the second the
      stored history after the send, which is the first with the new message
      id last. */
  method SendThenRead(db: Store, senderId: Id, receiverId: Id, text: string, now: int)
    returns (before: seq<Id>, after: seq<Id>)
    requires db.Valid()
    modifies db
    ensures db.Valid()
    ensures before == HistoryOf(old(db.conversations), senderId, receiverId)
    ensures after == HistoryOf(db.conversations, receiverId, senderId)
    ensures after == before + [|old(db.messages)|]
    ensures |db.messages| == |old(db.messages)| + 1
    ensures db.messages[|old(db.messages)|].message == text
  {
    var s0, b0 := GetMessage(db, senderId, receiverId);
    before := if b0.History? then b0.messages else [];
    ghost var convs0 := db.conversations;
    var s1, sent := SendMessage(db, senderId, receiverId, text, now);
    var (convs, c) := Resolve(convs0, senderId, receiverId);
    FindIsSymmetric(db.conversations, receiverId, senderId);
    ResolveIsIdempotent(convs0, senderId, receiverId);
    FindIgnoresMessages(convs, c, convs[c].messages + [sent.newMessageId], senderId, receiverId);
    var s2, b2 := GetMessage(db, receiverId, senderId);
    after := b2.messages;
  }
}
