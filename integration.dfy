/** How the two ends fit together: the frames the browser components send
    and receive, read against what the server consumer does with them. */
module Integration {
  import opened Wire
  import opened Models
  import Consumer
  import MessagesPane
  import FriendsPage

  /** The conversation pane puts its receiver under "receiver", and the
      consumer only saves and broadcasts a `send_message` frame that has a
      truthy "receiver_id". So a live send from the pane is dropped by the
      server: it is neither saved nor broadcast, whoever sends it. */
  lemma LiveSendIsDropped(friendUserId: int, content: string, user: Option<User>, users: map<nat, User>)
    ensures Consumer.ReceivePlan(MessagesPane.OutboundFrame(friendUserId, content), user, users)
            == Consumer.Nothing
  {
    var f := MessagesPane.OutboundFrame(friendUserId, content);
    assert "receiver_id" !in f;
    assert !PyTruthy(Get(f, "receiver_id"));
  }

  /** A frame that does carry "receiver_id" (as a number of a known user)
      and non-empty content from a signed-in sender is saved: what the pane
      drops is the key name, not the guard. */
  lemma RenamedKeyWouldBeSaved(friendUserId: nat, content: string, sender: User, users: map<nat, User>)
    requires content != "" && friendUserId != 0 && friendUserId in users
    ensures Consumer.ReceivePlan(
              map["event" := JStr("send_message"), "receiver_id" := JNum(friendUserId),
                  "content" := JStr(content)],
              Some(sender), users).Save?
  {
    var f := map["event" := JStr("send_message"), "receiver_id" := JNum(friendUserId),
                 "content" := JStr(content)];
    assert PyTruthy(Get(f, "receiver_id")) && PyTruthy(Get(f, "content"));
    assert Consumer.ResolveUserId(f["receiver_id"]) == Some(friendUserId as int);
  }

  /** A broadcast chat message arrives at the pane as a `new_message` frame,
      and the pane open on friend `x` appends it exactly when `x` sent it or
      is to receive it, adding the serialized row unchanged. */
  lemma BroadcastReachesPane(m: Message, friendUserId: int, messages: seq<Json>)
    ensures MessagesPane.IsMessageEvent(Consumer.HandlerFrame(Consumer.ChatMessage(Consumer.SerializeMessage(m))))
    ensures MessagesPane.Appends(Consumer.HandlerFrame(Consumer.ChatMessage(Consumer.SerializeMessage(m))), friendUserId)
            <==> m.sender == friendUserId || m.receiver == friendUserId
    ensures MessagesPane.AfterFrame(messages, friendUserId,
              Consumer.HandlerFrame(Consumer.ChatMessage(Consumer.SerializeMessage(m))))
            == if m.sender == friendUserId || m.receiver == friendUserId
               then messages + [Consumer.SerializeMessage(m)] else messages
  {
  }

  /** Of the three labels the pane listens for, the server only ever sends
      "new_message": no handler frame is labelled "chat_message" or
      "message_sent". */
  lemma OnlyNewMessageIsSent(ev: Consumer.GroupEvent)
    ensures !HasEvent(Consumer.HandlerFrame(ev), "chat_message")
    ensures !HasEvent(Consumer.HandlerFrame(ev), "message_sent")
    ensures MessagesPane.IsMessageEvent(Consumer.HandlerFrame(ev)) <==> ev.ChatMessage?
  {
    var f := Consumer.HandlerFrame(ev);
    assert f["event"] == JStr(Consumer.ClientLabel(ev));
    Consumer.HandlerLabels(ev);
  }

  /** On the friends page only the presence handler's frame causes
      anything, and what it causes is a single friends refetch. */
  lemma PresenceRefetchesFriends(ev: Consumer.GroupEvent)
    ensures FriendsPage.MessageEffects(Consumer.HandlerFrame(ev))
            == if ev.OnlineStatus? then [FriendsPage.FetchFriends] else []
  {
    var f := Consumer.HandlerFrame(ev);
    assert f["event"] == JStr(Consumer.ClientLabel(ev));
  }

  /** Every notice `notify_friends_status` sends goes to one friend's group,
      and its frame makes that friend's page refetch its friends list. */
  lemma NoticesRefetchEachFriend(friends: seq<User>, me: User, isOnline: bool, i: nat)
    requires i < |friends|
    ensures Consumer.StatusNotices(friends, me, isOnline)[i].GroupSend?
    ensures Consumer.StatusNotices(friends, me, isOnline)[i].group == Consumer.UserGroup(friends[i].id)
    ensures FriendsPage.MessageEffects(Consumer.HandlerFrame(Consumer.StatusNotices(friends, me, isOnline)[i].event))
            == [FriendsPage.FetchFriends]
  {
    Consumer.StatusNoticeAt(friends, me, isOnline, i);
    PresenceRefetchesFriends(Consumer.OnlineStatus(me.id, me.username, isOnline));
  }
}
