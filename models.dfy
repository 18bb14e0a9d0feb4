/** The three tables of the chat backend (backend/api/models.py): profiles,
    friend requests with their status and their uniqueness constraint, and
    messages with their default ordering. The ORM is an in-memory database
    object whose fields are the tables. */
module Models {
  import opened Wire

  /** A row of Django's user table, as far as the chat code reads it. */
  datatype User = User(id: nat, username: string)

  // ---------------------------------------------------------------- Profile

  /** `max_length` of the two name fields. */
  const NameMaxLength: nat := 30

  datatype Profile = Profile(
    user: User,
    firstName: string,
    lastName: string,
    picture: Option<string>,
    isOnline: bool,
    lastSeen: int)

  datatype FieldError = FirstNameBlank | FirstNameTooLong | LastNameBlank | LastNameTooLong

  /** A profile as field validation admits it. Both name fields are
      required (`blank` is not allowed) and at most 30 characters long;
      every failing field is reported, together. A new profile is offline
      and was last seen at creation time. */
  function NewProfile(user: User, firstName: string, lastName: string,
                      picture: Option<string>, now: int): (r: Result<Profile, set<FieldError>>)
    ensures r.Ok? <==> 0 < |firstName| <= NameMaxLength && 0 < |lastName| <= NameMaxLength
    ensures r.Err? ==> r.error != {}
    ensures r.Err? ==> (FirstNameBlank in r.error <==> firstName == "")
    ensures r.Err? ==> (FirstNameTooLong in r.error <==> |firstName| > NameMaxLength)
    ensures r.Err? ==> (LastNameBlank in r.error <==> lastName == "")
    ensures r.Err? ==> (LastNameTooLong in r.error <==> |lastName| > NameMaxLength)
    ensures r.Ok? ==> r.value.user == user && r.value.firstName == firstName
                      && r.value.lastName == lastName && r.value.picture == picture
    ensures r.Ok? ==> !r.value.isOnline && r.value.lastSeen == now
  {
    var errors := NameErrors(firstName, FirstNameBlank, FirstNameTooLong)
                + NameErrors(lastName, LastNameBlank, LastNameTooLong);
    if errors != {} then Err(errors)
    else Ok(Profile(user, firstName, lastName, picture, false, now))
  }

  /** The errors one required name field of at most 30 characters reports. */
  function NameErrors(name: string, blank: FieldError, tooLong: FieldError): set<FieldError>
  {
    (if name == "" then {blank} else {}) + (if |name| > NameMaxLength then {tooLong} else {})
  }

  // ---------------------------------------------------------- FriendRequest

  datatype Status = Pending | Accepted | Rejected

  /** The column's default. */
  const DefaultStatus: Status := Pending

  /** `max_length` of the status column. */
  const StatusMaxLength: nat := 10

  /** The value stored in the status column for each choice. */
  function StatusValue(s: Status): string
  {
    match s
    case Pending => "pending"
    case Accepted => "accepted"
    case Rejected => "rejected"
  }

  /** Reads a stored value back: only the three choices are admitted. */
  function ParseStatus(v: string): Option<Status>
  {
    if v == "pending" then Some(Pending)
    else if v == "accepted" then Some(Accepted)
    else if v == "rejected" then Some(Rejected)
    else None
  }

  /** The stored value and the choice determine each other, and every stored
      value fits the column. */
  lemma StatusValueRoundTrip(s: Status, v: string)
    ensures ParseStatus(v) == Some(s) <==> StatusValue(s) == v
    ensures |StatusValue(s)| <= StatusMaxLength
  {
  }

  datatype FriendRequest = FriendRequest(
    id: nat,
    fromUser: User,
    toUser: User,
    status: Status,
    createdAt: int)

  /** `FriendRequest.objects.create(from_user=…, to_user=…)`: the status takes
      its default and `created_at` the creation time. */
  function NewFriendRequest(id: nat, fromUser: User, toUser: User, now: int): (r: FriendRequest)
    ensures r.status == Pending && r.createdAt == now
    ensures r.fromUser == fromUser && r.toUser == toUser && r.id == id
  {
    FriendRequest(id, fromUser, toUser, DefaultStatus, now)
  }

  /** True when some row has exactly this ordered (from, to) pair of user ids. */
  predicate HasPair(t: seq<FriendRequest>, from: nat, to: nat)
  {
    exists i :: 0 <= i < |t| && t[i].fromUser.id == from && t[i].toUser.id == to
  }

  /** The `unique_together = ("from_user", "to_user")` constraint. */
  ghost predicate UniquePairs(t: seq<FriendRequest>)
  {
    forall i, j :: 0 <= i < j < |t| ==>
      t[i].fromUser.id != t[j].fromUser.id || t[i].toUser.id != t[j].toUser.id
  }

  datatype IntegrityError = UniqueViolation

  /** Inserting a row: refused when its ordered pair is taken, appended
      otherwise. */
  function InsertRequest(t: seq<FriendRequest>, r: FriendRequest): (res: Result<seq<FriendRequest>, IntegrityError>)
    ensures res.Err? <==> HasPair(t, r.fromUser.id, r.toUser.id)
    ensures res.Ok? ==> res.value == t + [r]
  {
    if HasPair(t, r.fromUser.id, r.toUser.id) then Err(UniqueViolation) else Ok(t + [r])
  }

  /** An accepted insertion keeps the table unique. */
  lemma InsertKeepsUnique(t: seq<FriendRequest>, r: FriendRequest)
    requires UniquePairs(t)
    requires InsertRequest(t, r).Ok?
    ensures UniquePairs(InsertRequest(t, r).value)
  {
    var u := t + [r];
    forall i, j | 0 <= i < j < |u|
      ensures u[i].fromUser.id != u[j].fromUser.id || u[i].toUser.id != u[j].toUser.id
    {
      if j == |t| {
        assert u[j] == r && u[i] == t[i];
      }
    }
  }

  /** The key is ordered: in any table that holds a request from `a` to
      `b` and none from `b` to `a`, a request from `b` to `a` is admitted
      while a second one from `a` to `b` is refused. */
  lemma ReversedPairIsDistinctKey(t: seq<FriendRequest>, a: User, b: User, id: nat, now: int)
    requires HasPair(t, a.id, b.id) && !HasPair(t, b.id, a.id)
    ensures InsertRequest(t, NewFriendRequest(id, b, a, now)).Ok?
    ensures InsertRequest(t, NewFriendRequest(id, b, a, now)).value == t + [NewFriendRequest(id, b, a, now)]
    ensures InsertRequest(t, NewFriendRequest(id, a, b, now)).Err?
  {
  }

  /** The number of rows with the ordered pair (from, to). */
  function CountPair(t: seq<FriendRequest>, from: nat, to: nat): nat
  {
    if t == [] then 0
    else CountPair(t[..|t| - 1], from, to)
         + (if t[|t| - 1].fromUser.id == from && t[|t| - 1].toUser.id == to then 1 else 0)
  }

  /** Under the constraint every ordered pair occurs at most once. */
  lemma {:induction false} UniquePairsCountAtMostOne(t: seq<FriendRequest>, from: nat, to: nat)
    requires UniquePairs(t)
    ensures CountPair(t, from, to) <= 1
    ensures CountPair(t, from, to) == 1 <==> HasPair(t, from, to)
  {
    if t != [] {
      var p := t[..|t| - 1];
      var last := t[|t| - 1];
      assert UniquePairs(p) by {
        forall i, j | 0 <= i < j < |p|
          ensures p[i].fromUser.id != p[j].fromUser.id || p[i].toUser.id != p[j].toUser.id
        {
          assert p[i] == t[i] && p[j] == t[j];
        }
      }
      UniquePairsCountAtMostOne(p, from, to);
      if HasPair(t, from, to) {
        var i :| 0 <= i < |t| && t[i].fromUser.id == from && t[i].toUser.id == to;
        if i < |p| {
          assert p[i] == t[i];
        }
      }
      if HasPair(p, from, to) {
        var i :| 0 <= i < |p| && p[i].fromUser.id == from && p[i].toUser.id == to;
        assert t[i] == p[i];
      }
    }
  }

  /** `str(request)`: "from → to (status)" with the users' names and the
      stored status value. */
  function RequestString(r: FriendRequest): (s: string)
    ensures |s| > |StatusValue(r.status)| + 1
    ensures s[|s| - |StatusValue(r.status)| - 2..] == "(" + StatusValue(r.status) + ")"
  {
    r.fromUser.username + " → " + r.toUser.username + " (" + StatusValue(r.status) + ")"
  }

  /** The rendering tells the status apart: two requests between the same
      users render alike only when their statuses agree. */
  lemma RequestStringShowsStatus(r1: FriendRequest, r2: FriendRequest)
    requires r1.fromUser == r2.fromUser && r1.toUser == r2.toUser
    requires RequestString(r1) == RequestString(r2)
    ensures r1.status == r2.status
  {
    var prefix := r1.fromUser.username + " → " + r1.toUser.username + " (";
    var v1 := StatusValue(r1.status) + ")";
    var v2 := StatusValue(r2.status) + ")";
    assert RequestString(r1) == prefix + v1;
    assert RequestString(r2) == prefix + v2;
    assert v1 == (prefix + v1)[|prefix|..];
    assert v2 == (prefix + v2)[|prefix|..];
    assert StatusValue(r1.status) == v1[..|v1| - 1];
    assert StatusValue(r2.status) == v2[..|v2| - 1];
    StatusValueRoundTrip(r1.status, StatusValue(r1.status));
    StatusValueRoundTrip(r2.status, StatusValue(r2.status));
  }

  // ---------------------------------------------------------------- Message

  datatype Message = Message(
    id: nat,
    sender: nat,
    receiver: nat,
    content: string,
    timestamp: int,
    isRead: bool)

  /** `Message.objects.create(...)`: unread, stamped with the creation time. */
  function NewMessage(id: nat, sender: nat, receiver: nat, content: string, now: int): (m: Message)
    ensures !m.isRead && m.timestamp == now
    ensures m.id == id && m.sender == sender && m.receiver == receiver && m.content == content
  {
    Message(id, sender, receiver, content, now, false)
  }

  /** `content[:30]`: the content itself when it has at most 30
      characters, and its first 30 characters otherwise. */
  function Preview(content: string): (p: string)
    ensures |content| <= 30 ==> p == content
    ensures |content| > 30 ==> |p| == 30
    ensures p <= content
  {
    if |content| <= 30 then content else content[..30]
  }

  /** `str(message)`: "sender → receiver: " and the preview of the content. */
  function MessageString(m: Message, senderName: string, receiverName: string): (r: string)
    ensures r == senderName + " → " + receiverName + ": " + Preview(m.content)
  {
    senderName + " → " + receiverName + ": " + Preview(m.content)
  }

  /** For the same two users, two messages render alike exactly when their
      contents agree on the first 30 characters; past those the rendering
      does not tell contents apart. */
  lemma MessageStringShowsPreview(m1: Message, m2: Message, senderName: string, receiverName: string)
    ensures MessageString(m1, senderName, receiverName) == MessageString(m2, senderName, receiverName)
            <==> Preview(m1.content) == Preview(m2.content)
  {
    var head := senderName + " → " + receiverName + ": ";
    var r1 := MessageString(m1, senderName, receiverName);
    var r2 := MessageString(m2, senderName, receiverName);
    assert r1[|head|..] == Preview(m1.content);
    assert r2[|head|..] == Preview(m2.content);
  }

  predicate SortedByTimestamp(ms: seq<Message>)
  {
    forall i, j :: 0 <= i < j < |ms| ==> ms[i].timestamp <= ms[j].timestamp
  }

  /** Places `m` before the first row stamped no earlier than it. */
  function InsertByTimestamp(m: Message, s: seq<Message>): (r: seq<Message>)
    ensures multiset(r) == multiset(s) + multiset{m}
    ensures |r| == |s| + 1
    ensures forall k :: 0 <= k < |r| ==> r[k] == m || r[k] in s
  {
    if s == [] || m.timestamp <= s[0].timestamp then
      [m] + s
    else
      assert s == [s[0]] + s[1..];
      [s[0]] + InsertByTimestamp(m, s[1..])
  }

  /** Inserting into an ordered listing keeps it ordered. */
  lemma {:induction false} InsertByTimestampSorted(m: Message, s: seq<Message>)
    requires SortedByTimestamp(s)
    ensures SortedByTimestamp(InsertByTimestamp(m, s))
  {
    if s != [] && m.timestamp > s[0].timestamp {
      var rest := InsertByTimestamp(m, s[1..]);
      InsertByTimestampSorted(m, s[1..]);
      forall k | 0 <= k < |rest| ensures s[0].timestamp <= rest[k].timestamp {
        if rest[k] != m {
          var j :| 0 <= j < |s[1..]| && s[1..][j] == rest[k];
          assert s[j + 1] == rest[k];
        }
      }
    }
  }

  /** `Meta.ordering = ["timestamp"]`: every listing of messages comes out
      ordered by timestamp, and is a permutation of the rows listed. */
  function OrderByTimestamp(ms: seq<Message>): (r: seq<Message>)
    ensures SortedByTimestamp(r)
    ensures multiset(r) == multiset(ms)
  {
    if ms == [] then []
    else
      assert ms == [ms[0]] + ms[1..];
      InsertByTimestampSorted(ms[0], OrderByTimestamp(ms[1..]));
      InsertByTimestamp(ms[0], OrderByTimestamp(ms[1..]))
  }

  // --------------------------------------------------------------- Database

  /** The backend's tables. Rows are kept in insertion order; `profiles` is
      keyed by user id (the profile's one-to-one link to its user). */
  class Database {
    var users: map<nat, User>
    var profiles: map<nat, Profile>
    var requests: seq<FriendRequest>
    var messages: seq<Message>
    var nextMessageId: nat

    ghost predicate Valid()
      reads this
    {
      && UniquePairs(requests)
      && (forall id :: id in users ==> users[id].id == id)
      && (forall id :: id in profiles ==> profiles[id].user.id == id)
      && (forall i :: 0 <= i < |messages| ==> messages[i].id < nextMessageId)
    }

    constructor (users: map<nat, User>)
      requires forall id :: id in users ==> users[id].id == id
      ensures Valid()
      ensures this.users == users && profiles == map[] && requests == [] && messages == []
    {
      this.users := users;
      profiles := map[];
      requests := [];
      messages := [];
      nextMessageId := 1;
    }

    /** `FriendRequest.objects.create`: appends a pending request unless the
        ordered pair is taken. */
    method CreateFriendRequest(id: nat, fromUser: User, toUser: User, now: int) returns (ok: bool)
      requires Valid()
      modifies this`requests
      ensures Valid()
      ensures ok <==> !HasPair(old(requests), fromUser.id, toUser.id)
      ensures ok ==> requests == old(requests) + [NewFriendRequest(id, fromUser, toUser, now)]
      ensures !ok ==> requests == old(requests)
    {
      var r := NewFriendRequest(id, fromUser, toUser, now);
      var res := InsertRequest(requests, r);
      if res.Ok? {
        InsertKeepsUnique(requests, r);
        requests := res.value;
        ok := true;
      } else {
        ok := false;
      }
    }

    /** `Message.objects.create(sender=…, receiver=…, content=…)`. */
    method CreateMessage(sender: nat, receiver: nat, content: string, now: int) returns (m: Message)
      requires Valid()
      modifies this`messages, this`nextMessageId
      ensures Valid()
      ensures m == NewMessage(old(nextMessageId), sender, receiver, content, now)
      ensures messages == old(messages) + [m]
      ensures nextMessageId == old(nextMessageId) + 1
    {
      m := NewMessage(nextMessageId, sender, receiver, content, now);
      messages := messages + [m];
      nextMessageId := nextMessageId + 1;
    }

    /** `profile.save()` with a new presence flag and last-seen time for the
        user's profile. A user without a profile leaves the table unchanged
        (`Profile.DoesNotExist` is caught by the caller). */
    method SetPresence(user: User, isOnline: bool, now: int)
      requires Valid()
      modifies this`profiles
      ensures Valid()
      ensures user.id in old(profiles) ==>
        profiles == old(profiles)[user.id := old(profiles)[user.id].(isOnline := isOnline, lastSeen := now)]
      ensures user.id !in old(profiles) ==> profiles == old(profiles)
    {
      if user.id in profiles {
        profiles := profiles[user.id := profiles[user.id].(isOnline := isOnline, lastSeen := now)];
      }
    }
  }
}
