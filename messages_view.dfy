/**
  client/src/components/Messages.jsx: how the open chat lays out its
  messages.  Consecutive messages from one sender form a run; the first
  message of a run carries the avatar slot and a message shows its time when
  it ends a run or when the next message of the run came more than five
  minutes later.  Times are integer milliseconds; `formatTime` is not part of
  this model.
 */
module MessagesView {
  import opened Common
  import opened Db
  import opened ClientTypes

  /** The gap, in ms, above which the next message of a run gets its own time. */
  const TimeGapMs := 300000

  /** `msg.senderId === user?.id`: never true without a logged-in user. */
  predicate IsOwnMessage(msg: ChatMessage, user: Option<AuthUser>) {
    user.Some? && msg.senderId == user.value.id
  }

  /** The first message, or one whose predecessor has another sender. */
  predicate ShowAvatar(msgs: seq<ChatMessage>, i: nat)
    requires i < |msgs|
  {
    i == 0 || msgs[i - 1].senderId != msgs[i].senderId
  }

  /** The last message, one whose successor has another sender, or one whose
      successor came strictly more than `TimeGapMs` later. */
  predicate ShowTime(msgs: seq<ChatMessage>, i: nat)
    requires i < |msgs|
  {
    || i == |msgs| - 1
    || msgs[i + 1].senderId != msgs[i].senderId
    || msgs[i + 1].createdAt - msgs[i].createdAt > TimeGapMs
  }

  /** Messages i..j (inclusive) all come from the sender of message i. */
  predicate SameSender(msgs: seq<ChatMessage>, i: nat, j: nat)
    requires i <= j < |msgs|
  {
    forall k :: i <= k <= j ==> msgs[k].senderId == msgs[i].senderId
  }

  /** Messages i..j form a run that cannot be extended on either side. */
  predicate MaximalRun(msgs: seq<ChatMessage>, i: nat, j: nat)
    requires i <= j < |msgs|
  {
    && SameSender(msgs, i, j)
    && (i == 0 || msgs[i - 1].senderId != msgs[i].senderId)
    && (j == |msgs| - 1 || msgs[j + 1].senderId != msgs[j].senderId)
  }

  /** Every maximal run has exactly one avatar slot, on its first message,
      and its last message shows its time. */
  lemma OneAvatarPerRun(msgs: seq<ChatMessage>, i: nat, j: nat)
    requires i <= j < |msgs| && MaximalRun(msgs, i, j)
    ensures ShowAvatar(msgs, i)
    ensures forall k :: i < k <= j ==> !ShowAvatar(msgs, k)
    ensures ShowTime(msgs, j)
  {
    forall k | i < k <= j ensures !ShowAvatar(msgs, k) {
      assert msgs[k - 1].senderId == msgs[i].senderId == msgs[k].senderId;
    }
  }

  /** Every message belongs to a run that opened with an avatar slot. */
  lemma {:induction false} RunStartsWithAvatar(msgs: seq<ChatMessage>, k: nat)
    requires k < |msgs|
    ensures exists i :: 0 <= i <= k && ShowAvatar(msgs, i) && SameSender(msgs, i, k)
  {
    if ShowAvatar(msgs, k) {
      assert SameSender(msgs, k, k);
    } else {
      RunStartsWithAvatar(msgs, k - 1);
      var i :| 0 <= i <= k - 1 && ShowAvatar(msgs, i) && SameSender(msgs, i, k - 1);
      assert SameSender(msgs, i, k);
    }
  }

  /** Inside a run, a message shows its time exactly when the next one came
      strictly more than `TimeGapMs` later: a gap of exactly five minutes
      hides it. */
  lemma TimeShownIffGapExceeded(msgs: seq<ChatMessage>, i: nat)
    requires i + 1 < |msgs| && msgs[i + 1].senderId == msgs[i].senderId
    ensures ShowTime(msgs, i) <==> msgs[i + 1].createdAt - msgs[i].createdAt > TimeGapMs
  {
  }

  /** What is drawn left of a bubble: nothing for one's own messages, the
      peer's avatar, or a spacer of the avatar's width. */
  datatype AvatarSlot = NoSlot | PeerAvatar | Spacer

  datatype Bubble = Bubble(msg: ChatMessage, own: bool, slot: AvatarSlot, time: bool)

  datatype Screen = EmptyState | Bubbles(bubbles: seq<Bubble>)

  function BubbleAt(msgs: seq<ChatMessage>, i: nat, user: Option<AuthUser>): Bubble
    requires i < |msgs|
  {
    var own := IsOwnMessage(msgs[i], user);
    Bubble(msgs[i], own,
           if own then NoSlot else if ShowAvatar(msgs, i) then PeerAvatar else Spacer,
           ShowTime(msgs, i))
  }

  /** The messages pane: the empty state for a missing or empty list,
      otherwise one bubble per message, in order. */
  function Render(messages: Option<seq<ChatMessage>>, user: Option<AuthUser>): (v: Screen)
    ensures v.EmptyState? <==> messages.None? || messages.value == []
    ensures v.Bubbles? ==> |v.bubbles| == |messages.value|
    ensures v.Bubbles? ==> forall i :: 0 <= i < |v.bubbles| ==> v.bubbles[i] == BubbleAt(messages.value, i, user)
  {
    if messages.None? || messages.value == [] then EmptyState
    else Bubbles(seq(|messages.value|, i requires 0 <= i < |messages.value| => BubbleAt(messages.value, i, user)))
  }

  /** A run of the peer's messages is drawn with the avatar on its first
      bubble and spacers on the others; one's own messages get no slot. */
  lemma PeerRunDrawsOneAvatar(msgs: seq<ChatMessage>, user: Option<AuthUser>, i: nat, j: nat)
    requires i <= j < |msgs| && MaximalRun(msgs, i, j)
    ensures var v := Render(Some(msgs), user);
            v.Bubbles? &&
            if IsOwnMessage(msgs[i], user) then
              forall k :: i <= k <= j ==> v.bubbles[k].slot == NoSlot
            else
              && v.bubbles[i].slot == PeerAvatar
              && (forall k :: i < k <= j ==> v.bubbles[k].slot == Spacer)
              && v.bubbles[j].time
  {
    OneAvatarPerRun(msgs, i, j);
    var v := Render(Some(msgs), user);
    forall k | i <= k <= j ensures IsOwnMessage(msgs[k], user) == IsOwnMessage(msgs[i], user) {
      assert msgs[k].senderId == msgs[i].senderId;
    }
  }
}
