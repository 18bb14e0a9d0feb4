/** One entry of the friend list (frontend/src/components/Friend.jsx): the
    "last seen" wording, the status line, and what a click asks of the
    page that shows the entry. */
module FriendCard {
  import opened Wire
  import Text

  /** A friend as the friends endpoint lists it. `lastSeen` is in
      milliseconds on the same clock as the `now` the card is drawn at. */
  datatype FriendProfile = FriendProfile(
    id: int,
    userId: int,
    username: string,
    firstName: string,
    lastName: string,
    isOnline: bool,
    lastSeen: int)

  const MsPerMinute: int := 60000
  const MsPerHour: int := 3600000
  const MsPerDay: int := 86400000

  /** "n unit ago", with the plural "s" unless n is 1. */
  function Counted(n: nat, unit: string): string
  {
    Text.NatStr(n) + " " + unit + (if n != 1 then "s" else "") + " ago"
  }

  /** `timeAgo` on the millisecond difference `now - past`. The three
      quotients are floor divisions (Dafny's `/` by a positive divisor
      rounds down, as `Math.floor(diff / k)` does). */
  function TimeAgo(diffMs: int): (r: string)
    ensures diffMs < MsPerMinute ==> r == "just now"
    ensures diffMs >= MsPerMinute ==> |r| > 0 && Text.IsDigit(r[0])
  {
    var minutes := diffMs / MsPerMinute;
    var hours := diffMs / MsPerHour;
    var days := diffMs / MsPerDay;
    CountedStartsWithDigit(if minutes < 0 then 0 else minutes, "minute");
    CountedStartsWithDigit(if hours < 0 then 0 else hours, "hour");
    CountedStartsWithDigit(if days < 0 then 0 else days, "day");
    if minutes < 1 then "just now"
    else if minutes < 60 then Counted(minutes, "minute")
    else if hours < 24 then Counted(hours, "hour")
    else Counted(days, "day")
  }

  /** A counted phrase starts with a digit, so it is never "just now". */
  lemma CountedStartsWithDigit(n: nat, unit: string)
    ensures Text.IsDigit(Counted(n, unit)[0])
    ensures Counted(n, unit) != "just now"
  {
    var c := Counted(n, unit);
    assert c[0] == Text.NatStr(n)[0];
    assert !Text.IsDigit("just now"[0]);
  }

  /** "just now" exactly when less than a minute has passed, which includes
      every negative difference. */
  lemma JustNowIff(diffMs: int)
    ensures TimeAgo(diffMs) == "just now" <==> diffMs < MsPerMinute
  {
    if diffMs >= MsPerMinute {
      var m := diffMs / MsPerMinute;
      var h := diffMs / MsPerHour;
      var d := diffMs / MsPerDay;
      assert m >= 1;
      if m < 60 {
        CountedStartsWithDigit(m, "minute");
      } else if h < 24 {
        CountedStartsWithDigit(if h < 0 then 0 else h, "hour");
      } else {
        CountedStartsWithDigit(if d < 0 then 0 else d, "day");
      }
    }
  }

  /** Between one minute and one hour: whole minutes, 1 to 59. */
  lemma MinutesBranch(diffMs: int)
    requires MsPerMinute <= diffMs < MsPerHour
    ensures 1 <= diffMs / MsPerMinute <= 59
    ensures TimeAgo(diffMs) == Counted(diffMs / MsPerMinute, "minute")
  {
  }

  /** Between one hour and one day: whole hours, 1 to 23. */
  lemma HoursBranch(diffMs: int)
    requires MsPerHour <= diffMs < MsPerDay
    ensures 1 <= diffMs / MsPerHour <= 23
    ensures TimeAgo(diffMs) == Counted(diffMs / MsPerHour, "hour")
  {
    assert diffMs / MsPerMinute >= 60;
  }

  /** From one day on: whole days, at least 1. */
  lemma DaysBranch(diffMs: int)
    requires diffMs >= MsPerDay
    ensures diffMs / MsPerDay >= 1
    ensures TimeAgo(diffMs) == Counted(diffMs / MsPerDay, "day")
  {
    assert diffMs / MsPerMinute >= 60;
    assert diffMs / MsPerHour >= 24;
  }

  /** The phrase ends in "s ago" exactly when the count is not 1 (for a unit
      whose own name does not end in "s"). */
  lemma PluralIff(n: nat, unit: string)
    requires unit != "" && unit[|unit| - 1] != 's'
    ensures var c := Counted(n, unit);
            |c| >= 5 && (c[|c| - 5..] == "s ago" <==> n != 1)
  {
    var c := Counted(n, unit);
    if n == 1 {
      assert c == Text.NatStr(n) + " " + unit + " ago";
      assert c[|c| - 5] == unit[|unit| - 1];
    } else {
      assert c == Text.NatStr(n) + " " + unit + "s" + " ago";
    }
  }

  /** The count can be read back off the phrase. */
  lemma CountedInjective(n: nat, m: nat, unit: string)
    requires Counted(n, unit) == Counted(m, unit)
    ensures n == m
  {
    var x := " " + unit + (if n != 1 then "s" else "") + " ago";
    var y := " " + unit + (if m != 1 then "s" else "") + " ago";
    assert Counted(n, unit) == Text.NatStr(n) + x;
    assert Counted(m, unit) == Text.NatStr(m) + y;
    Text.DigitPrefixUnique(Text.NatStr(n), x, Text.NatStr(m), y);
    Text.NatStrInjective(n, m);
  }

  /** Within the minutes range, two differences read alike exactly when
      they fall in the same whole minute. */
  lemma MinutesDistinguished(d1: int, d2: int)
    requires MsPerMinute <= d1 < MsPerHour && MsPerMinute <= d2 < MsPerHour
    ensures TimeAgo(d1) == TimeAgo(d2) <==> d1 / MsPerMinute == d2 / MsPerMinute
  {
    MinutesBranch(d1);
    MinutesBranch(d2);
    if TimeAgo(d1) == TimeAgo(d2) {
      CountedInjective(d1 / MsPerMinute, d2 / MsPerMinute, "minute");
    }
  }

  /** The status line under the name. */
  function StatusLabel(p: FriendProfile, now: int): (r: string)
    ensures p.isOnline ==> r == "Active"
    ensures !p.isOnline ==> |r| > 11 && r[..11] == "Last Seen: "
  {
    if p.isOnline then "Active" else "Last Seen: " + TimeAgo(now - p.lastSeen)
  }

  /** "Active" exactly for an online friend; otherwise "Last Seen: " and the
      elapsed time since `last_seen`. */
  lemma StatusLabelIff(p: FriendProfile, now: int)
    ensures StatusLabel(p, now) == "Active" <==> p.isOnline
    ensures !p.isOnline ==> StatusLabel(p, now) == "Last Seen: " + TimeAgo(now - p.lastSeen)
  {
    if !p.isOnline {
      var t := TimeAgo(now - p.lastSeen);
      assert StatusLabel(p, now) == "Last Seen: " + t;
      assert |StatusLabel(p, now)| > |"Active"|;
    }
  }

  // ----------------------------------------------------------------- click

  /** The calls a click makes on the setters the card is given. */
  datatype ParentCall =
    | SetActiveTab(tab: string)
    | SetFriend(profile: FriendProfile)
    | SetHasNewMessageFalse(profile: FriendProfile)
    | SetIsMessagesHidden(hidden: bool)

  /** The state those setters write: the open tab, the selected friend, the
      profiles whose new-message flag has been cleared, and whether the
      message pane is hidden. */
  datatype ParentState = ParentState(
    activeTab: string,
    friend: Option<FriendProfile>,
    clearedFlags: seq<FriendProfile>,
    messagesHidden: bool)

  /** The click handler's calls, in order. */
  function ClickCalls(p: FriendProfile): seq<ParentCall>
  {
    [SetActiveTab("Messages"), SetFriend(p), SetHasNewMessageFalse(p), SetIsMessagesHidden(false)]
  }

  function Apply(s: ParentState, c: ParentCall): ParentState
  {
    match c
    case SetActiveTab(t) => s.(activeTab := t)
    case SetFriend(p) => s.(friend := Some(p))
    case SetHasNewMessageFalse(p) => s.(clearedFlags := s.clearedFlags + [p])
    case SetIsMessagesHidden(h) => s.(messagesHidden := h)
  }

  function ApplyAll(s: ParentState, cs: seq<ParentCall>): ParentState
    decreases |cs|
  {
    if cs == [] then s else ApplyAll(Apply(s, cs[0]), cs[1..])
  }

  /** After a click the Messages tab is open on this friend, the friend's
      new-message flag has been cleared, and the pane is shown; the tab is
      set first and the pane unhidden last. */
  lemma ClickOpensConversation(s: ParentState, p: FriendProfile)
    ensures ApplyAll(s, ClickCalls(p))
      == ParentState("Messages", Some(p), s.clearedFlags + [p], false)
    ensures ClickCalls(p)[0] == SetActiveTab("Messages")
    ensures ClickCalls(p)[|ClickCalls(p)| - 1] == SetIsMessagesHidden(false)
  {
    var cs := ClickCalls(p);
    var s1 := s.(activeTab := "Messages");
    var s2 := s1.(friend := Some(p));
    var s3 := s2.(clearedFlags := s.clearedFlags + [p]);
    assert cs[1..] == [SetFriend(p), SetHasNewMessageFalse(p), SetIsMessagesHidden(false)];
    assert cs[1..][1..] == [SetHasNewMessageFalse(p), SetIsMessagesHidden(false)];
    assert cs[1..][1..][1..] == [SetIsMessagesHidden(false)];
    assert ApplyAll(s3, cs[1..][1..][1..]) == s3.(messagesHidden := false);
    assert ApplyAll(s2, cs[1..][1..]) == ApplyAll(s3, cs[1..][1..][1..]);
    assert ApplyAll(s1, cs[1..]) == ApplyAll(s2, cs[1..][1..]);
  }
}
