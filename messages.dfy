/** The conversation pane (frontend/src/components/Messages.jsx): the
    message list of the open conversation, the compose box, and what the
    pane sends. Socket sends and REST calls are recorded as effects. */
module MessagesPane {
  import opened Wire
  import Text

  /** The three event labels whose frames carry a chat message. */
  predicate IsMessageEvent(f: Frame)
  {
    HasEvent(f, "new_message") || HasEvent(f, "chat_message") || HasEvent(f, "message_sent")
  }

  /** `msg.sender === friend.user_id || msg.receiver === friend.user_id`.
      A missing or null `message` throws in the listener and a non-object
      has no such fields; either way it concerns nobody. */
  predicate ConcernsFriend(msg: Json, friendUserId: int)
  {
    && msg.JObj?
    && (|| ("sender" in msg.fields && msg.fields["sender"] == JNum(friendUserId))
        || ("receiver" in msg.fields && msg.fields["receiver"] == JNum(friendUserId)))
  }

  /** A frame that the listener appends to the list. */
  predicate Appends(f: Frame, friendUserId: int)
  {
    IsMessageEvent(f) && "message" in f && ConcernsFriend(f["message"], friendUserId)
  }

  /** The list after the socket listener has seen one frame. */
  function AfterFrame(messages: seq<Json>, friendUserId: int, f: Frame): (r: seq<Json>)
    ensures |r| == |messages| + (if Appends(f, friendUserId) then 1 else 0)
  {
    if Appends(f, friendUserId) then messages + [f["message"]] else messages
  }

  /** The list after a run of frames, in arrival order. */
  function AfterFrames(messages: seq<Json>, friendUserId: int, fs: seq<Frame>): seq<Json>
    decreases |fs|
  {
    if fs == [] then messages
    else AfterFrames(AfterFrame(messages, friendUserId, fs[0]), friendUserId, fs[1..])
  }

  /** The messages of the frames that concern the friend, in arrival order. */
  function RelevantMessages(fs: seq<Frame>, friendUserId: int): seq<Json>
  {
    if fs == [] then []
    else (if Appends(fs[0], friendUserId) then [fs[0]["message"]] else [])
         + RelevantMessages(fs[1..], friendUserId)
  }

  /** The listener neither sorts nor drops duplicates: a run of frames
      leaves every earlier message in place and adds exactly the messages
      that concern the friend, in the order they arrived. */
  lemma {:induction false} AfterFramesAppendsInOrder(messages: seq<Json>, friendUserId: int, fs: seq<Frame>)
    ensures AfterFrames(messages, friendUserId, fs) == messages + RelevantMessages(fs, friendUserId)
    decreases |fs|
  {
    if fs != [] {
      var next := AfterFrame(messages, friendUserId, fs[0]);
      AfterFramesAppendsInOrder(next, friendUserId, fs[1..]);
      if Appends(fs[0], friendUserId) {
        assert messages + ([fs[0]["message"]] + RelevantMessages(fs[1..], friendUserId))
            == messages + [fs[0]["message"]] + RelevantMessages(fs[1..], friendUserId);
      } else {
        assert [] + RelevantMessages(fs[1..], friendUserId) == RelevantMessages(fs[1..], friendUserId);
      }
    }
  }

  /** Frames of any other event, and message frames about someone else,
      leave the list as it was; a frame that concerns the friend grows it by
      exactly its message. */
  lemma FrameEffect(messages: seq<Json>, friendUserId: int, f: Frame)
    ensures !IsMessageEvent(f) ==> AfterFrame(messages, friendUserId, f) == messages
    ensures !Appends(f, friendUserId) ==> AfterFrame(messages, friendUserId, f) == messages
    ensures Appends(f, friendUserId) ==>
      |AfterFrame(messages, friendUserId, f)| == |messages| + 1
      && AfterFrame(messages, friendUserId, f)[..|messages|] == messages
      && AfterFrame(messages, friendUserId, f)[|messages|] == f["message"]
  {
    if Appends(f, friendUserId) {
      var r := messages + [f["message"]];
      assert r[..|messages|] == messages;
    }
  }

  /** Re-delivery of the same frame appends the same message a second time. */
  lemma RedeliveryDuplicates(messages: seq<Json>, friendUserId: int, f: Frame)
    requires Appends(f, friendUserId)
    ensures AfterFrames(messages, friendUserId, [f, f]) == messages + [f["message"], f["message"]]
  {
    AfterFramesAppendsInOrder(messages, friendUserId, [f, f]);
    assert [f, f][1..] == [f] && [f][1..] == [];
    assert RelevantMessages([f], friendUserId) == [f["message"]];
  }

  // ------------------------------------------------------------- sending

  /** The browser socket's state as `ws.current` shows it; `NoSocket` is a
      ref that holds nothing. */
  datatype SocketState = NoSocket | Connecting | Open | Closing | Closed

  datatype ClientEffect =
    | SocketSend(frame: Frame)
    | PostMessage(receiver: int, content: string)
    | FetchHistory(friendUserId: int)

  /** The frame `sendMessage` writes to the socket. Its receiver goes under
      the key "receiver". */
  function OutboundFrame(friendUserId: int, content: string): (f: Frame)
    ensures HasEvent(f, "send_message")
    ensures f.Keys == {"event", "receiver", "content"}
    ensures f["receiver"] == JNum(friendUserId) && f["content"] == JStr(content)
  {
    map["event" := JStr("send_message"), "receiver" := JNum(friendUserId), "content" := JStr(content)]
  }

  datatype SendResult = SendResult(effects: seq<ClientEffect>, text: string)

  /** `sendMessage` for compose text `text`. Blank text does nothing. A
      socket that does not exist or is still connecting throws on `send`,
      which ends the call before the REST post and before the box is
      cleared. A closing or closed socket drops the frame silently. Otherwise
      the frame is sent, the trimmed text is posted, and the box is cleared
      whatever the post's outcome. */
  function SendPlan(text: string, friendUserId: int, socket: SocketState): (r: SendResult)
    ensures r.text == text || r.text == ""
    ensures r.effects == [] <==> r.text == text
  {
    var content := Text.Trim(text);
    if content == "" then SendResult([], text)
    else if socket.NoSocket? || socket.Connecting? then SendResult([], text)
    else
      var sent := if socket.Open? then [SocketSend(OutboundFrame(friendUserId, content))] else [];
      SendResult(sent + [PostMessage(friendUserId, content)], "")
  }

  /** Whitespace-only text, or a socket the send would throw on, sends and
      posts nothing and keeps the text. Any other attempt posts the trimmed,
      non-empty content last, is preceded by exactly one socket frame when
      the socket is open (and by none otherwise), and clears the box. */
  lemma SendPlanRule(text: string, friendUserId: int, socket: SocketState)
    ensures Text.AllSpace(text) ==> SendPlan(text, friendUserId, socket) == SendResult([], text)
    ensures socket.NoSocket? || socket.Connecting? ==> SendPlan(text, friendUserId, socket) == SendResult([], text)
    ensures !Text.AllSpace(text) && !socket.NoSocket? && !socket.Connecting? ==>
      var r := SendPlan(text, friendUserId, socket);
      && r.text == ""
      && Text.Trim(text) != ""
      && r.effects == (if socket.Open? then [SocketSend(OutboundFrame(friendUserId, Text.Trim(text)))] else [])
                      + [PostMessage(friendUserId, Text.Trim(text))]
  {
    Text.TrimEmptyIff(text);
  }

  /** `handleKeyPress`: only Enter without Shift sends. */
  predicate SendsOnKey(key: string, shift: bool)
  {
    key == "Enter" && !shift
  }

  class MessagesView {
    var friendId: int
    var friendUserId: int
    var messages: seq<Json>
    var text: string
    var effects: seq<ClientEffect>

    /** Mounting for a friend: empty list and box, history requested. */
    constructor (friendId: int, friendUserId: int)
      ensures this.friendId == friendId && this.friendUserId == friendUserId
      ensures messages == [] && text == ""
      ensures effects == [FetchHistory(friendUserId)]
    {
      this.friendId := friendId;
      this.friendUserId := friendUserId;
      messages := [];
      text := "";
      effects := [FetchHistory(friendUserId)];
    }

    /** A new `friend` prop. A different `friend.id` requests that friend's
        history; the old list stays on screen until a response arrives. */
    method SelectFriend(newFriendId: int, newFriendUserId: int)
      modifies this
      ensures messages == old(messages) && text == old(text)
      ensures newFriendId != old(friendId) ==>
        friendId == newFriendId && friendUserId == newFriendUserId
        && effects == old(effects) + [FetchHistory(newFriendUserId)]
      ensures newFriendId == old(friendId) ==>
        friendId == old(friendId) && friendUserId == old(friendUserId) && effects == old(effects)
    {
      if newFriendId != friendId {
        friendId := newFriendId;
        friendUserId := newFriendUserId;
        effects := effects + [FetchHistory(newFriendUserId)];
      }
    }

    /** A history response: a fetched list replaces the current one
        wholesale; a failed fetch leaves it as it was. No check ties the
        response to the friend now open. */
    method HistoryLoaded(response: Option<seq<Json>>)
      modifies this`messages
      ensures response.Some? ==> messages == response.value
      ensures response.None? ==> messages == old(messages)
    {
      if response.Some? {
        messages := response.value;
      }
    }

    /** `handleMessage`: the socket listener. */
    method HandleMessage(f: Frame)
      modifies this`messages
      ensures messages == AfterFrame(old(messages), friendUserId, f)
    {
      messages := AfterFrame(messages, friendUserId, f);
    }

    /** The compose box's `onChange`. */
    method EditText(newText: string)
      modifies this`text
      ensures text == newText
    {
      text := newText;
    }

    /** `sendMessage`. */
    method SendMessage(socket: SocketState)
      modifies this`text, this`effects
      ensures effects == old(effects) + SendPlan(old(text), friendUserId, socket).effects
      ensures text == SendPlan(old(text), friendUserId, socket).text
    {
      var r := SendPlan(text, friendUserId, socket);
      effects := effects + r.effects;
      text := r.text;
    }

    /** `handleKeyPress`: Enter without Shift prevents the newline and
        sends; any other key changes nothing. */
    method HandleKeyPress(key: string, shift: bool, socket: SocketState) returns (prevented: bool)
      modifies this`text, this`effects
      ensures prevented == SendsOnKey(key, shift)
      ensures prevented ==>
        effects == old(effects) + SendPlan(old(text), friendUserId, socket).effects
        && text == SendPlan(old(text), friendUserId, socket).text
      ensures !prevented ==> effects == old(effects) && text == old(text)
    {
      prevented := SendsOnKey(key, shift);
      if prevented {
        SendMessage(socket);
      }
    }
  }
}
