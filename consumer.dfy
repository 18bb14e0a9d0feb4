/** The server side of the socket (backend/api/consumers.py): one
    `FriendConsumer` per connection. It joins a per-user group, marks the
    user online and tells each friend, routes the frames its client sends,
    and turns the channel layer's group events into frames for its client.
    The channel layer and the socket are a trace of effects. */
module Consumer {
  import opened Wire
  import opened Models
  import Text

  /** The events the channel layer carries between consumers; each names
      the handler that receives it (its "type" key). */
  datatype GroupEvent =
    | ChatMessage(message: Json)
    | TypingIndicator(userId: nat, username: string, isTyping: Json)
    | FriendRequestNotice(fromUser: Json, requestId: Json)
    | FriendRequestAccepted(fromUser: Json, toUser: Json, requestId: Json)
    | OnlineStatus(userId: nat, username: string, isOnline: bool)

  /** What a consumer does to the outside world, in order. */
  datatype ChannelEffect =
    | GroupAdd(group: string)
    | GroupDiscard(group: string)
    | GroupSend(group: string, event: GroupEvent)
    | SendToClient(frame: Frame)
    | AcceptConnection

  /** The group every consumer of one user joins. */
  function UserGroup(id: nat): string
  {
    "user_" + Text.NatStr(id)
  }

  /** `f"user_{self.user.id if self.user else 'anonymous'}"`. */
  function GroupName(user: Option<User>): (g: string)
    ensures user.None? ==> g == "user_anonymous"
    ensures user.Some? ==> g == UserGroup(user.value.id)
    ensures g[..5] == "user_"
  {
    if user.Some? then UserGroup(user.value.id) else "user_anonymous"
  }

  /** Distinct users get distinct groups, and no user's group is the
      anonymous one. */
  lemma GroupNamesSeparateUsers(a: Option<User>, b: Option<User>)
    requires GroupName(a) == GroupName(b)
    ensures a.None? <==> b.None?
    ensures a.Some? ==> a.value.id == b.value.id
  {
    if a.Some? {
      assert GroupName(a)[5..] == Text.NatStr(a.value.id);
      assert Text.IsDigit(GroupName(a)[5]);
    }
    if b.Some? {
      assert GroupName(b)[5..] == Text.NatStr(b.value.id);
      assert Text.IsDigit(GroupName(b)[5]);
    }
    if a.Some? && b.Some? {
      Text.NatStrInjective(a.value.id, b.value.id);
    }
  }

  // ------------------------------------------------------------- handlers

  /** The handler method that a group event is delivered to. */
  function HandlerName(ev: GroupEvent): string
  {
    match ev
    case ChatMessage(_) => "chat_message"
    case TypingIndicator(_, _, _) => "typing_indicator"
    case FriendRequestNotice(_, _) => "friend_request"
    case FriendRequestAccepted(_, _, _) => "friend_request_accepted"
    case OnlineStatus(_, _, _) => "online_status"
  }

  /** The `event` label of the frame each handler sends to its client. */
  function ClientLabel(ev: GroupEvent): string
  {
    if ev.ChatMessage? then "new_message" else HandlerName(ev)
  }

  /** The frame a handler sends its client for a group event. */
  function HandlerFrame(ev: GroupEvent): (f: Frame)
    ensures HasEvent(f, ClientLabel(ev))
    ensures ev.ChatMessage? ==> f.Keys == {"event", "message"} && f["message"] == ev.message
    ensures ev.TypingIndicator? ==>
      && f.Keys == {"event", "user_id", "username", "is_typing"}
      && f["user_id"] == JNum(ev.userId) && f["username"] == JStr(ev.username)
      && f["is_typing"] == ev.isTyping
    ensures ev.FriendRequestNotice? ==>
      && f.Keys == {"event", "from_user", "request_id"}
      && f["from_user"] == ev.fromUser && f["request_id"] == ev.requestId
    ensures ev.FriendRequestAccepted? ==>
      && f.Keys == {"event", "from_user", "to_user", "request_id"}
      && f["from_user"] == ev.fromUser && f["to_user"] == ev.toUser && f["request_id"] == ev.requestId
    ensures ev.OnlineStatus? ==>
      && f.Keys == {"event", "user_id", "username", "is_online"}
      && f["user_id"] == JNum(ev.userId) && f["username"] == JStr(ev.username)
      && f["is_online"] == JBool(ev.isOnline)
  {
    match ev
    case ChatMessage(m) =>
      map["event" := JStr("new_message"), "message" := m]
    case TypingIndicator(u, name, t) =>
      map["event" := JStr("typing_indicator"), "user_id" := JNum(u),
          "username" := JStr(name), "is_typing" := t]
    case FriendRequestNotice(from, rid) =>
      map["event" := JStr("friend_request"), "from_user" := from, "request_id" := rid]
    case FriendRequestAccepted(from, to, rid) =>
      map["event" := JStr("friend_request_accepted"), "from_user" := from,
          "to_user" := to, "request_id" := rid]
    case OnlineStatus(u, name, on) =>
      map["event" := JStr("online_status"), "user_id" := JNum(u),
          "username" := JStr(name), "is_online" := JBool(on)]
  }

  /** Only the chat handler relabels: every other handler's frame carries
      its own name, and the chat frame is the one labelled "new_message". */
  lemma HandlerLabels(ev: GroupEvent)
    ensures HasEvent(HandlerFrame(ev), "new_message") <==> ev.ChatMessage?
    ensures !ev.ChatMessage? ==> HasEvent(HandlerFrame(ev), HandlerName(ev))
  {
    var f := HandlerFrame(ev);
    if HasEvent(f, "new_message") {
      assert JStr(ClientLabel(ev)) == f["event"] == JStr("new_message");
    }
  }

  // ------------------------------------------------------------ receiving

  /** `str(value)` for the scalar JSON values; a JSON object is not rendered. */
  function PyStr(j: Json): Option<string>
  {
    match j
    case JNull => Some("None")
    case JBool(b) => Some(if b then "True" else "False")
    case JNum(n) => Some(Text.IntStr(n))
    case JStr(s) => Some(s)
    case JObj(_) => None
  }

  /** The user id the ORM looks up for `User.objects.get(id=value)`: an
      integer, a bool (Python's bool is an int), or a string of ASCII digits.
      Anything else fails the lookup. */
  function ResolveUserId(j: Json): (r: Option<int>)
    ensures r.Some? ==> PyStr(j).Some?
    ensures j.JNum? ==> r == Some(j.n)
    ensures j.JStr? && j.s != "" && Text.AllDigits(j.s) ==> r == Some(Text.ParseDigits(j.s) as int)
    ensures j.JBool? ==> r == Some(if j.b then 1 else 0)
    ensures j.JStr? && (j.s == "" || !Text.AllDigits(j.s)) ==> r.None?
    ensures j.JNull? || j.JObj? ==> r.None?
  {
    match j
    case JNum(n) => Some(n)
    case JBool(b) => Some(if b then 1 else 0)
    case JStr(s) => if s != "" && Text.AllDigits(s) then Some(Text.ParseDigits(s) as int) else None
    case _ => None
  }

  /** What one inbound frame asks of the consumer. */
  datatype Plan =
    | Nothing
    | Raise
    | Save(sender: User, receiverId: nat, content: string, receiverGroup: string)
    | Forward(group: string, event: GroupEvent)

  /** The guards of `receive`: which frames are saved and broadcast, which
      are forwarded as typing notices, which are dropped, and which raise
      (an anonymous sender, an unknown receiver, an unrenderable value). */
  function ReceivePlan(f: Frame, user: Option<User>, users: map<nat, User>): (p: Plan)
    ensures !HasEvent(f, "send_message") && !HasEvent(f, "typing") ==> p == Nothing
    ensures HasEvent(f, "send_message") ==>
      (p == Nothing <==> !PyTruthy(Get(f, "receiver_id")) || !PyTruthy(Get(f, "content")))
    ensures p.Save? ==>
      && HasEvent(f, "send_message")
      && user == Some(p.sender)
      && ResolveUserId(f["receiver_id"]) == Some(p.receiverId as int) && p.receiverId in users
      && PyStr(f["content"]) == Some(p.content) && p.content != ""
      && p.receiverGroup == "user_" + PyStr(f["receiver_id"]).value
    ensures HasEvent(f, "send_message") && PyTruthy(Get(f, "receiver_id")) && PyTruthy(Get(f, "content")) ==>
      var id := ResolveUserId(f["receiver_id"]);
      && (p.Save? <==> id.Some? && id.value >= 0 && id.value as nat in users
                       && user.Some? && PyStr(f["content"]).Some?)
      && (!p.Save? ==> p == Raise)
    ensures HasEvent(f, "typing") ==>
      (p == Nothing <==> !PyTruthy(Get(f, "receiver_id")))
    ensures HasEvent(f, "typing") && PyTruthy(Get(f, "receiver_id")) ==>
      && (p.Forward? <==> user.Some? && PyStr(f["receiver_id"]).Some?)
      && (!p.Forward? ==> p == Raise)
    ensures p.Forward? ==>
      && HasEvent(f, "typing") && user.Some?
      && p.event == TypingIndicator(user.value.id, user.value.username, GetOr(f, "is_typing", JBool(false)))
      && PyStr(f["receiver_id"]).Some? && p.group == "user_" + PyStr(f["receiver_id"]).value
    ensures user.None? ==> !p.Save? && !p.Forward?
  {
    if HasEvent(f, "send_message") then
      var rid := Get(f, "receiver_id");
      var content := Get(f, "content");
      if !PyTruthy(rid) || !PyTruthy(content) then Nothing
      else
        var id := ResolveUserId(rid.value);
        if id.None? || id.value < 0 || id.value as nat !in users then Raise
        else if user.None? then Raise
        else if PyStr(content.value).None? then Raise
        else Save(user.value, id.value as nat, PyStr(content.value).value,
                  "user_" + PyStr(rid.value).value)
    else if HasEvent(f, "typing") then
      var rid := Get(f, "receiver_id");
      if !PyTruthy(rid) then Nothing
      else if user.None? || PyStr(rid.value).None? then Raise
      else Forward("user_" + PyStr(rid.value).value,
                   TypingIndicator(user.value.id, user.value.username,
                                   GetOr(f, "is_typing", JBool(false))))
    else Nothing
  }

  /** A saved row as its serializer lays it out. */
  function SerializeMessage(m: Message): (j: Json)
    ensures j.JObj?
    ensures j.fields.Keys == {"id", "sender", "receiver", "content", "timestamp", "is_read"}
    ensures j.fields["sender"] == JNum(m.sender) && j.fields["receiver"] == JNum(m.receiver)
    ensures j.fields["content"] == JStr(m.content)
  {
    JObj(map["id" := JNum(m.id), "sender" := JNum(m.sender), "receiver" := JNum(m.receiver),
             "content" := JStr(m.content), "timestamp" := JNum(m.timestamp),
             "is_read" := JBool(m.isRead)])
  }

  /** The two sends of a saved message: to the receiver's group, then to
      the sender's own group, both carrying the same serialized row. */
  function Broadcast(receiverGroup: string, sender: User, m: Message): (es: seq<ChannelEffect>)
    ensures |es| == 2
    ensures es[0] == GroupSend(receiverGroup, ChatMessage(SerializeMessage(m)))
    ensures es[1] == GroupSend(UserGroup(sender.id), ChatMessage(SerializeMessage(m)))
  {
    [GroupSend(receiverGroup, ChatMessage(SerializeMessage(m))),
     GroupSend(UserGroup(sender.id), ChatMessage(SerializeMessage(m)))]
  }

  // --------------------------------------------------------------- friends

  /** An accepted request that has the user on either side. */
  predicate AcceptedWith(r: FriendRequest, u: nat)
  {
    r.status == Accepted && (r.fromUser.id == u || r.toUser.id == u)
  }

  /** The queryset: accepted requests involving the user, in table order. */
  function AcceptedInvolving(t: seq<FriendRequest>, u: nat): (q: seq<FriendRequest>)
    ensures forall k :: 0 <= k < |q| ==> AcceptedWith(q[k], u)
    ensures |q| <= |t|
  {
    if t == [] then []
    else AcceptedInvolving(t[..|t| - 1], u) + (if AcceptedWith(t[|t| - 1], u) then [t[|t| - 1]] else [])
  }

  /** The queryset keeps table order: one more row in the table adds that
      row at the end exactly when it is accepted and involves the user. */
  lemma AcceptedInvolvingSnoc(t: seq<FriendRequest>, r: FriendRequest, u: nat)
    ensures AcceptedInvolving(t + [r], u)
            == AcceptedInvolving(t, u) + (if AcceptedWith(r, u) then [r] else [])
  {
    assert (t + [r])[..|t|] == t;
  }

  /** The queryset holds exactly the accepted requests involving the user:
      every such row of the table is in it, and nothing else is. */
  lemma {:induction false} AcceptedInvolvingComplete(t: seq<FriendRequest>, u: nat, r: FriendRequest)
    ensures r in AcceptedInvolving(t, u) <==> r in t && AcceptedWith(r, u)
  {
    if t != [] {
      var p := t[..|t| - 1];
      assert t == p + [t[|t| - 1]];
      AcceptedInvolvingSnoc(p, t[|t| - 1], u);
      AcceptedInvolvingComplete(p, u, r);
    }
  }

  /** `req.to_user if req.from_user == self.user else req.from_user`. */
  function OtherParty(r: FriendRequest, u: nat): User
  {
    if r.fromUser.id == u then r.toUser else r.fromUser
  }

  function OtherParties(q: seq<FriendRequest>, u: nat): (fs: seq<User>)
    ensures |fs| == |q|
  {
    if q == [] then [] else OtherParties(q[..|q| - 1], u) + [OtherParty(q[|q| - 1], u)]
  }

  /** `get_friends`: nobody without a user, otherwise the other party of
      every accepted request involving the user. */
  function FriendsOf(t: seq<FriendRequest>, user: Option<User>): (fs: seq<User>)
    ensures user.None? ==> fs == []
  {
    if user.None? then [] else OtherParties(AcceptedInvolving(t, user.value.id), user.value.id)
  }

  /** One more request adds exactly its other party, at the end, when it is
      accepted and involves the user, and nothing otherwise: one entry per
      such request, in request order. */
  lemma FriendsOfSnoc(t: seq<FriendRequest>, r: FriendRequest, u: User)
    ensures FriendsOf(t + [r], Some(u)) ==
      FriendsOf(t, Some(u)) + (if AcceptedWith(r, u.id) then [OtherParty(r, u.id)] else [])
  {
    assert (t + [r])[..|t|] == t;
    var q := AcceptedInvolving(t, u.id);
    if AcceptedWith(r, u.id) {
      assert (q + [r])[..|q|] == q;
    } else {
      assert q + [] == q;
    }
  }

  /** Someone is among the user's friends exactly when an accepted request
      has them on one side and the user on the other. */
  lemma {:induction false} FriendsOfMembership(t: seq<FriendRequest>, u: User, x: User)
    ensures x in FriendsOf(t, Some(u)) <==>
      exists i :: 0 <= i < |t| && AcceptedWith(t[i], u.id) && OtherParty(t[i], u.id) == x
  {
    if t == [] {
      assert FriendsOf(t, Some(u)) == [];
    } else {
      var p := t[..|t| - 1];
      var r := t[|t| - 1];
      assert t == p + [r];
      FriendsOfSnoc(p, r, u);
      FriendsOfMembership(p, u, x);
      var before := FriendsOf(p, Some(u));
      var extra := if AcceptedWith(r, u.id) then [OtherParty(r, u.id)] else [];
      assert FriendsOf(t, Some(u)) == before + extra;
      assert x in extra <==> AcceptedWith(r, u.id) && OtherParty(r, u.id) == x;
      if x in before {
        var i :| 0 <= i < |p| && AcceptedWith(p[i], u.id) && OtherParty(p[i], u.id) == x;
        assert t[i] == p[i];
      } else if x in extra {
        assert t[|p|] == r;
      }
      if exists i :: 0 <= i < |t| && AcceptedWith(t[i], u.id) && OtherParty(t[i], u.id) == x {
        var i :| 0 <= i < |t| && AcceptedWith(t[i], u.id) && OtherParty(t[i], u.id) == x;
        if i < |p| {
          assert p[i] == t[i];
        } else {
          assert x in extra;
        }
      }
    }
  }

  /** How many entries of a friend list are the user with this id. */
  function CountId(fs: seq<User>, id: nat): nat
  {
    if fs == [] then 0
    else CountId(fs[..|fs| - 1], id) + (if fs[|fs| - 1].id == id then 1 else 0)
  }

  lemma CountIdAppend(a: seq<User>, b: seq<User>, id: nat)
    ensures CountId(a + b, id) == CountId(a, id) + CountId(b, id)
    decreases |b|
  {
    if b != [] {
      assert (a + b)[..|a + b| - 1] == a + b[..|b| - 1];
      CountIdAppend(a, b[..|b| - 1], id);
    } else {
      assert a + b == a;
    }
  }

  /** A friend appears once per accepted request between the two of them. */
  lemma {:induction false} FriendCountBound(t: seq<FriendRequest>, u: User, x: nat)
    requires x != u.id
    ensures CountId(FriendsOf(t, Some(u)), x) <= CountPair(t, u.id, x) + CountPair(t, x, u.id)
  {
    if t != [] {
      var p := t[..|t| - 1];
      var r := t[|t| - 1];
      assert t == p + [r];
      FriendsOfSnoc(p, r, u);
      FriendCountBound(p, u, x);
      var extra := if AcceptedWith(r, u.id) then [OtherParty(r, u.id)] else [];
      CountIdAppend(FriendsOf(p, Some(u)), extra, x);
      if extra != [] {
        assert extra[..0] == [];
      }
    }
  }

  /** Because the (from, to) key is unique, a friend appears at most twice:
      once for a request in each direction. */
  lemma FriendAppearsAtMostTwice(t: seq<FriendRequest>, u: User, x: nat)
    requires UniquePairs(t)
    requires x != u.id
    ensures CountId(FriendsOf(t, Some(u)), x) <= 2
  {
    FriendCountBound(t, u, x);
    UniquePairsCountAtMostOne(t, u.id, x);
    UniquePairsCountAtMostOne(t, x, u.id);
  }

  /** The presence notices of `notify_friends_status`, one per friend. */
  function StatusNotices(friends: seq<User>, me: User, isOnline: bool): (es: seq<ChannelEffect>)
    ensures |es| == |friends|
  {
    if friends == [] then []
    else StatusNotices(friends[..|friends| - 1], me, isOnline)
         + [GroupSend(UserGroup(friends[|friends| - 1].id), OnlineStatus(me.id, me.username, isOnline))]
  }

  /** Notice `i` goes to friend `i`'s group and carries the user's id and
      the flag. */
  lemma {:induction false} StatusNoticeAt(friends: seq<User>, me: User, isOnline: bool, i: nat)
    requires i < |friends|
    ensures StatusNotices(friends, me, isOnline)[i]
            == GroupSend(UserGroup(friends[i].id), OnlineStatus(me.id, me.username, isOnline))
  {
    if i < |friends| - 1 {
      var p := friends[..|friends| - 1];
      StatusNoticeAt(p, me, isOnline, i);
      assert p[i] == friends[i];
    }
  }

  /** The notices for one more friend of the list are the notices so far
      and that friend's. */
  lemma StatusNoticesPrefix(friends: seq<User>, me: User, isOnline: bool, i: nat)
    requires i < |friends|
    ensures StatusNotices(friends[..i + 1], me, isOnline)
            == StatusNotices(friends[..i], me, isOnline)
               + [GroupSend(UserGroup(friends[i].id), OnlineStatus(me.id, me.username, isOnline))]
  {
    assert friends[..i + 1][..i] == friends[..i];
  }

  // -------------------------------------------------------------- consumer

  class FriendConsumer {
    const db: Database
    var user: Option<User>
    var groupName: string
    var effects: seq<ChannelEffect>

    ghost predicate Valid()
      reads this, db
    {
      db.Valid()
    }

    /** A consumer before `connect`: no user, nothing done yet. */
    constructor (db: Database)
      requires db.Valid()
      ensures Valid() && this.db == db
      ensures user.None? && effects == []
    {
      this.db := db;
      user := None;
      groupName := "";
      effects := [];
    }

    /** Builds the friend list with a loop over the queryset. */
    method GetFriends() returns (friends: seq<User>)
      ensures friends == FriendsOf(db.requests, user)
    {
      if user.None? {
        return [];
      }
      var u := user.value.id;
      var qs := AcceptedInvolving(db.requests, u);
      friends := [];
      var i := 0;
      while i < |qs|
        invariant 0 <= i <= |qs|
        invariant friends == OtherParties(qs[..i], u)
      {
        var req := qs[i];
        if req.fromUser.id == u {
          friends := friends + [req.toUser];
        } else {
          friends := friends + [req.fromUser];
        }
        assert qs[..i + 1][..i] == qs[..i];
        i := i + 1;
      }
      assert qs[..|qs|] == qs;
    }

    /** `notify_friends_status`: one online-status send per friend. */
    method NotifyFriendsStatus(isOnline: bool)
      modifies this`effects
      ensures user.None? ==> effects == old(effects)
      ensures user.Some? ==>
        effects == old(effects) + StatusNotices(FriendsOf(db.requests, user), user.value, isOnline)
    {
      if user.None? {
        return;
      }
      var me := user.value;
      var friends := GetFriends();
      var i := 0;
      while i < |friends|
        invariant 0 <= i <= |friends|
        invariant effects == old(effects) + StatusNotices(friends[..i], me, isOnline)
      {
        var notice := GroupSend(UserGroup(friends[i].id), OnlineStatus(me.id, me.username, isOnline));
        StatusNoticesPrefix(friends, me, isOnline, i);
        effects := effects + [notice];
        i := i + 1;
      }
      assert friends[..|friends|] == friends;
    }

    /** `connect`: resolve the user from the query string's id, join the
        user's group (or the anonymous one), go online and tell the friends
        only when a user was found, then accept the socket. */
    method Connect(queryUserId: Option<nat>, now: int)
      requires Valid()
      modifies this, db`profiles
      ensures Valid()
      ensures user == (if queryUserId.Some? && queryUserId.value in db.users
                       then Some(db.users[queryUserId.value]) else None)
      ensures groupName == GroupName(user)
      ensures user.None? ==> effects == old(effects) + [GroupAdd(groupName), AcceptConnection]
      ensures user.None? ==> db.profiles == old(db.profiles)
      ensures user.Some? ==>
        effects == old(effects) + [GroupAdd(groupName)]
                   + StatusNotices(FriendsOf(db.requests, user), user.value, true)
                   + [AcceptConnection]
      ensures user.Some? && user.value.id in old(db.profiles) ==>
        db.profiles == old(db.profiles)[user.value.id :=
          old(db.profiles)[user.value.id].(isOnline := true, lastSeen := now)]
      ensures user.Some? && user.value.id !in old(db.profiles) ==> db.profiles == old(db.profiles)
    {
      user := if queryUserId.Some? && queryUserId.value in db.users
              then Some(db.users[queryUserId.value]) else None;
      groupName := GroupName(user);
      effects := effects + [GroupAdd(groupName)];
      ghost var joined := effects;
      if user.Some? {
        db.SetPresence(user.value, true, now);
        NotifyFriendsStatus(true);
        assert effects == joined + StatusNotices(FriendsOf(db.requests, user), user.value, true);
      }
      effects := effects + [AcceptConnection];
    }

    /** `disconnect`: with a user, leave the group, go offline and tell the
        friends; without one, do nothing. */
    method Disconnect(closeCode: int, now: int)
      requires Valid()
      modifies this`effects, db`profiles
      ensures Valid()
      ensures user.None? ==> effects == old(effects) && db.profiles == old(db.profiles)
      ensures user.Some? ==>
        effects == old(effects) + [GroupDiscard(groupName)]
                   + StatusNotices(FriendsOf(db.requests, user), user.value, false)
      ensures user.Some? && user.value.id in old(db.profiles) ==>
        db.profiles == old(db.profiles)[user.value.id :=
          old(db.profiles)[user.value.id].(isOnline := false, lastSeen := now)]
      ensures user.Some? && user.value.id !in old(db.profiles) ==> db.profiles == old(db.profiles)
    {
      if user.Some? {
        effects := effects + [GroupDiscard(groupName)];
        db.SetPresence(user.value, false, now);
        NotifyFriendsStatus(false);
      }
    }

    /** `receive`: carries out the frame's plan. A saved message is sent to
        the receiver's group and then the sender's; `raised` reports an
        exception, after which nothing has been saved or sent. */
    method Receive(f: Frame, now: int) returns (raised: bool)
      requires Valid()
      modifies this`effects, db`messages, db`nextMessageId
      ensures Valid()
      ensures raised <==> ReceivePlan(f, user, db.users).Raise?
      ensures match ReceivePlan(f, user, db.users)
        case Save(sender, receiverId, content, group) =>
          var m := NewMessage(old(db.nextMessageId), sender.id, receiverId, content, now);
          && db.messages == old(db.messages) + [m]
          && effects == old(effects) + Broadcast(group, sender, m)
        case Forward(group, ev) =>
          effects == old(effects) + [GroupSend(group, ev)] && db.messages == old(db.messages)
        case _ =>
          effects == old(effects) && db.messages == old(db.messages)
    {
      var plan := ReceivePlan(f, user, db.users);
      raised := false;
      match plan {
        case Nothing =>
        case Raise =>
          raised := true;
        case Save(sender, receiverId, content, group) =>
          var m := db.CreateMessage(sender.id, receiverId, content, now);
          effects := effects + Broadcast(group, sender, m);
        case Forward(group, ev) =>
          effects := effects + [GroupSend(group, ev)];
      }
    }

    /** A group event reaches its handler, which sends one frame to the
        client. */
    method Handle(ev: GroupEvent)
      modifies this`effects
      ensures effects == old(effects) + [SendToClient(HandlerFrame(ev))]
    {
      effects := effects + [SendToClient(HandlerFrame(ev))];
    }
  }
}
