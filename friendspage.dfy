/** The friends page (frontend/src/pages/Friends.jsx): its state cells, the
    effects that run when they change, the socket callbacks, and the
    accept, reject and search handlers. REST calls, socket operations and
    timers are recorded as effects; their outcomes come back as method
    parameters. */
module FriendsPage {
  import opened Wire
  import FriendCard

  /** An incoming request as the pending endpoint lists it. */
  datatype PendingRequest = PendingRequest(id: int, fromUsername: string)

  /** A user as the search endpoint lists it. */
  datatype UserHit = UserHit(id: int, username: string)

  datatype PageEffect =
    | FetchFriends
    | FetchPending
    | FetchProfile
    | OpenSocket(userId: int)
    | CloseSocket(code: int)
    | ArmLogTimer(delayMs: nat)
    | PutAccept(requestId: int)
    | PutReject(requestId: int)
    | PostFriendRequest(username: string)
    | Alert(text: string)
    | SearchUsers(query: string)

  /** What reading the stored access token produced: no token, a token the
      decoder rejected, or the decoded `user_id` (absent when the token has
      none). */
  datatype TokenResult = NoToken | Undecodable | Decoded(userId: Option<int>)

  /** JavaScript truthiness of the `userId` cell: `null`, `undefined` and 0
      are falsy. */
  predicate UserIdSet(userId: Option<int>)
  {
    userId.Some? && userId.value != 0
  }

  /** The close code the page's own teardown uses. */
  const TeardownCode: int := 1000

  /** The delay of the timer an abnormal close arms. */
  const ReconnectLogDelay: nat := 5000

  /** The tab buttons, in the order they are drawn. */
  const TabButtons: seq<string> := ["Online", "All", "Pending", "Add Friend"]

  function CountOpens(es: seq<PageEffect>): nat
  {
    if es == [] then 0 else (if es[0].OpenSocket? then 1 else 0) + CountOpens(es[1..])
  }

  lemma {:induction false} CountOpensAppend(a: seq<PageEffect>, b: seq<PageEffect>)
    ensures CountOpens(a + b) == CountOpens(a) + CountOpens(b)
  {
    if a != [] {
      assert (a + b)[1..] == a[1..] + b;
      CountOpensAppend(a[1..], b);
    } else {
      assert a + b == b;
    }
  }

  /** A run of effects none of which opens a socket counts no opens. */
  lemma {:induction false} CountOpensNone(es: seq<PageEffect>)
    requires forall i :: 0 <= i < |es| ==> !es[i].OpenSocket?
    ensures CountOpens(es) == 0
  {
    if es != [] {
      assert forall i :: 0 <= i < |es[1..]| ==> es[1..][i] == es[i + 1];
      CountOpensNone(es[1..]);
    }
  }

  // -------------------------------------------------- socket callbacks

  /** `onmessage`: an `online_status` frame refreshes the friends list; every
      other frame is ignored. */
  function MessageEffects(f: Frame): (r: seq<PageEffect>)
    ensures |r| <= 1 && CountOpens(r) == 0
  {
    var r := if HasEvent(f, "online_status") then [FetchFriends] else [];
    CountOpensNone(r);
    r
  }

  /** Only an `online_status` frame does anything, and what it does is a
      single friends refetch. */
  lemma MessageRule(f: Frame)
    ensures MessageEffects(f) == [] || MessageEffects(f) == [FetchFriends]
    ensures MessageEffects(f) != [] <==> "event" in f && f["event"] == JStr("online_status")
    ensures CountOpens(MessageEffects(f)) == 0
  {
    CountOpensNone(MessageEffects(f));
  }

  /** `onclose`: any code but 1000 arms one 5000 ms timer whose callback only
      logs; code 1000 arms nothing. */
  function CloseEffects(code: int): (r: seq<PageEffect>)
    ensures |r| <= 1 && CountOpens(r) == 0
  {
    var r := if code != 1000 then [ArmLogTimer(ReconnectLogDelay)] else [];
    CountOpensNone(r);
    r
  }

  /** A close never opens a new socket, and a close event carrying 1000
      takes the quiet branch. The cleanup passes 1000, but for a socket
      still connecting the event carries 1006 (see `TeardownRule`). */
  lemma CloseRule(code: int)
    ensures CloseEffects(code) == [] <==> code == 1000
    ensures code != 1000 ==> CloseEffects(code) == [ArmLogTimer(5000)]
    ensures CountOpens(CloseEffects(code)) == 0
    ensures CloseEffects(TeardownCode) == []
  {
    CountOpensNone(CloseEffects(code));
  }

  /** The browser socket's `readyState` when the page tears it down. */
  datatype ReadyState = Connecting | Open | Closing | Closed

  /** The code of the close event that `close(1000, …)` leads to, if it
      leads to one. A socket still connecting is failed, and its close event
      carries 1006. An open socket runs the closing handshake, and the
      server's echo of 1000 comes back. A socket already closing or closed
      ignores the call: its close event has fired, or will fire, with the
      code of the earlier close. */
  function TeardownCloseCode(state: ReadyState): Option<int>
  {
    match state
    case Connecting => Some(1006)
    case Open => Some(TeardownCode)
    case Closing => None
    case Closed => None
  }

  /** The cleanup of the socket effect: the close call, then what the
      close event it triggers does. */
  function TeardownEffects(state: ReadyState): (r: seq<PageEffect>)
    ensures 1 <= |r| <= 2 && r[0] == CloseSocket(TeardownCode)
  {
    var code := TeardownCloseCode(state);
    [CloseSocket(TeardownCode)] + (if code.Some? then CloseEffects(code.value) else [])
  }

  /** The teardown always closes with 1000 first. It arms the 5000 ms
      logging timer exactly when the socket was still connecting, and it
      never opens a socket. */
  lemma TeardownRule(state: ReadyState)
    ensures TeardownEffects(state)[0] == CloseSocket(1000)
    ensures ArmLogTimer(ReconnectLogDelay) in TeardownEffects(state) <==> state == Connecting
    ensures state == Connecting ==> TeardownEffects(state) == [CloseSocket(1000), ArmLogTimer(5000)]
    ensures state != Connecting ==> TeardownEffects(state) == [CloseSocket(1000)]
    ensures CountOpens(TeardownEffects(state)) == 0
  {
    CountOpensNone(TeardownEffects(state));
    if state == Connecting {
      assert TeardownEffects(state) == [CloseSocket(1000), ArmLogTimer(5000)];
    } else {
      assert TeardownEffects(state) == [CloseSocket(1000)];
    }
  }

  // -------------------------------------------------------- tab refetch

  /** The tab-change effect. */
  function TabEffects(tab: string): (r: seq<PageEffect>)
    ensures CountOpens(r) == 0
  {
    var r := (if tab == "All" || tab == "Online" then [FetchFriends] else [])
             + (if tab == "Pending" then [FetchPending] else []);
    CountOpensNone(r);
    r
  }

  /** "All" and "Online" refetch friends, "Pending" refetches requests, any
      other tab refetches neither; no tab does both or opens a socket. */
  lemma TabRule(tab: string)
    ensures FetchFriends in TabEffects(tab) <==> tab == "All" || tab == "Online"
    ensures FetchPending in TabEffects(tab) <==> tab == "Pending"
    ensures |TabEffects(tab)| <= 1
    ensures tab !in {"All", "Online", "Pending"} ==> TabEffects(tab) == []
    ensures CountOpens(TabEffects(tab)) == 0
  {
    CountOpensNone(TabEffects(tab));
    if tab == "All" || tab == "Online" {
      assert TabEffects(tab) == [FetchFriends];
    } else if tab == "Pending" {
      assert TabEffects(tab) == [FetchPending];
    } else {
      assert TabEffects(tab) == [];
    }
  }

  // -------------------------------------------------------------- mount

  /** The effects that run from mount until the state the token yields has
      settled: the tab effect fetches friends for the initial "Online" tab;
      once authenticated with a truthy user id, the fetch effect asks for
      friends, pending requests and the profile, and the socket effect opens
      the friends socket for that id. */
  function MountEffects(token: TokenResult): (r: seq<PageEffect>)
    ensures |r| == 1 || |r| == 5
    ensures r[0] == FetchFriends
  {
    [FetchFriends]
    + (if token.Decoded? && UserIdSet(token.userId)
       then [FetchFriends, FetchPending, FetchProfile, OpenSocket(token.userId.value)]
       else [])
  }

  /** A socket is opened, once, exactly when the token decodes to a truthy
      user id, and it is opened for that id. */
  lemma MountSocketRule(token: TokenResult)
    ensures CountOpens(MountEffects(token)) <= 1
    ensures CountOpens(MountEffects(token)) == 1 <==> token.Decoded? && UserIdSet(token.userId)
    ensures forall i :: 0 <= i < |MountEffects(token)| && MountEffects(token)[i].OpenSocket? ==>
              token.Decoded? && token.userId == Some(MountEffects(token)[i].userId)
    ensures MountEffects(token)[0] == FetchFriends
  {
    var r := MountEffects(token);
    if token.Decoded? && UserIdSet(token.userId) {
      var u := token.userId.value;
      var quiet := [FetchFriends, FetchFriends, FetchPending, FetchProfile];
      assert r == quiet + [OpenSocket(u)];
      CountOpensNone(quiet);
      CountOpensAppend(quiet, [OpenSocket(u)]);
      assert [OpenSocket(u)][1..] == [];
    } else {
      assert r == [FetchFriends];
      CountOpensNone(r);
    }
  }

  // ---------------------------------------------------- request handlers

  /** `acceptRequest`: the PUT, then, when it succeeded, the pending list and
      then the friends list are refetched. Both fetches catch their own
      errors, so the second always follows the first. */
  function AcceptEffects(id: int, putOk: bool): (r: seq<PageEffect>)
    ensures |r| >= 1 && r[0] == PutAccept(id)
    ensures |r| == 1 <==> !putOk
  {
    [PutAccept(id)] + (if putOk then [FetchPending, FetchFriends] else [])
  }

  /** `rejectRequest`: the PUT, then, when it succeeded, the pending list. */
  function RejectEffects(id: int, putOk: bool): (r: seq<PageEffect>)
    ensures |r| >= 1 && r[0] == PutReject(id)
    ensures |r| == 1 <==> !putOk
  {
    [PutReject(id)] + (if putOk then [FetchPending] else [])
  }

  /** Accept refreshes pending before friends; reject refreshes pending only;
      a failed PUT refreshes nothing. */
  lemma RequestRule(id: int, putOk: bool)
    ensures AcceptEffects(id, putOk)[0] == PutAccept(id)
    ensures putOk ==> AcceptEffects(id, putOk) == [PutAccept(id), FetchPending, FetchFriends]
    ensures RejectEffects(id, putOk)[0] == PutReject(id)
    ensures putOk ==> RejectEffects(id, putOk) == [PutReject(id), FetchPending]
    ensures FetchFriends !in RejectEffects(id, putOk)
    ensures !putOk ==> AcceptEffects(id, putOk) == [PutAccept(id)] && RejectEffects(id, putOk) == [PutReject(id)]
    ensures CountOpens(AcceptEffects(id, putOk)) == 0 && CountOpens(RejectEffects(id, putOk)) == 0
  {
    CountOpensNone(AcceptEffects(id, putOk));
    CountOpensNone(RejectEffects(id, putOk));
    if putOk {
      assert AcceptEffects(id, putOk) == [PutAccept(id), FetchPending, FetchFriends];
      assert RejectEffects(id, putOk) == [PutReject(id), FetchPending];
    } else {
      assert AcceptEffects(id, putOk) == [PutAccept(id)];
      assert RejectEffects(id, putOk) == [PutReject(id)];
    }
  }

  /** `handleSearch`: an empty query asks for nothing. */
  function SearchEffects(query: string): (r: seq<PageEffect>)
    ensures r == [] <==> query == ""
    ensures r != [] ==> r == [SearchUsers(query)]
  {
    if query == "" then [] else [SearchUsers(query)]
  }

  /** `sendFriendRequest`: the POST, then an alert that says whether it
      went through. */
  function FriendRequestEffects(username: string, postOk: bool): (r: seq<PageEffect>)
    ensures |r| == 2 && r[0] == PostFriendRequest(username) && r[1].Alert?
    ensures postOk ==> r[1].text == "Friend request sent to " + username
  {
    [PostFriendRequest(username),
     Alert(if postOk then "Friend request sent to " + username else "Failed to send friend request")]
  }

  // -------------------------------------------------------------- views

  /** The friends the "Online" view lists: those with `is_online`, in list
      order. */
  function OnlineFriends(fs: seq<FriendCard.FriendProfile>): (r: seq<FriendCard.FriendProfile>)
    ensures |r| <= |fs|
    ensures forall i :: 0 <= i < |r| ==> r[i].isOnline && r[i] in fs
    ensures forall i :: 0 <= i < |fs| && fs[i].isOnline ==> fs[i] in r
  {
    if fs == [] then []
    else (if fs[0].isOnline then [fs[0]] else []) + OnlineFriends(fs[1..])
  }

  /** The filter keeps list order: filtering a concatenation is
      concatenating the filtered parts. */
  lemma {:induction false} OnlineFriendsAppend(a: seq<FriendCard.FriendProfile>, b: seq<FriendCard.FriendProfile>)
    ensures OnlineFriends(a + b) == OnlineFriends(a) + OnlineFriends(b)
  {
    if a == [] {
      assert a + b == b;
    } else {
      assert (a + b)[0] == a[0];
      assert (a + b)[1..] == a[1..] + b;
      OnlineFriendsAppend(a[1..], b);
    }
  }

  /** "No friends online" shows exactly when no friend in the list is
      online. */
  lemma NoFriendsOnlineIff(fs: seq<FriendCard.FriendProfile>)
    ensures OnlineFriends(fs) == [] <==> forall i :: 0 <= i < |fs| ==> !fs[i].isOnline
  {
    if OnlineFriends(fs) != [] {
      var f := OnlineFriends(fs)[0];
      assert f.isOnline && f in fs;
    }
  }

  /** What the content area shows for a tab. */
  datatype Panel = OnlineList | AllList | PendingList | SearchForm | Blank

  /** The content area as written: the search form is drawn for a tab called
      "Add New". */
  function ContentPanel(tab: string): (p: Panel)
    ensures p == SearchForm <==> tab == "Add New"
    ensures p == Blank <==> tab !in {"Online", "All", "Pending", "Add New"}
  {
    if tab == "Online" then OnlineList
    else if tab == "All" then AllList
    else if tab == "Pending" then PendingList
    else if tab == "Add New" then SearchForm
    else Blank
  }

  /** No tab button is labelled "Add New", so as written no button reaches
      the search form and the "Add Friend" button shows an empty area. */
  lemma SearchFormUnreachable()
    ensures forall i :: 0 <= i < |TabButtons| ==> ContentPanel(TabButtons[i]) != SearchForm
    ensures ContentPanel("Add Friend") == Blank
  {
  }

  /** The content area as intended: the "Add Friend" button opens the
      search form. */
  function ContentPanelIntended(tab: string): (p: Panel)
    ensures p == SearchForm <==> tab == "Add Friend"
    ensures p == Blank <==> tab !in TabButtons
  {
    if tab == "Online" then OnlineList
    else if tab == "All" then AllList
    else if tab == "Pending" then PendingList
    else if tab == "Add Friend" then SearchForm
    else Blank
  }

  /** With the intended mapping every button shows a panel of its own (so
      each of the four panels is reached by exactly one button), and the
      search form is among them. */
  lemma EveryPanelReachable()
    ensures forall i, j :: 0 <= i < j < |TabButtons| ==>
              ContentPanelIntended(TabButtons[i]) != ContentPanelIntended(TabButtons[j])
    ensures forall i :: 0 <= i < |TabButtons| ==> ContentPanelIntended(TabButtons[i]) != Blank
    ensures exists i :: 0 <= i < |TabButtons| && ContentPanelIntended(TabButtons[i]) == SearchForm
  {
    assert ContentPanelIntended(TabButtons[3]) == SearchForm;
  }

  /** The corrected mapping differs from the one as written only on the
      two search-form names: it opens the search form exactly for
      "Add Friend", and it is blank exactly for a tab no button names. */
  lemma PanelMappingsAgree(tab: string)
    ensures tab != "Add Friend" && tab != "Add New" ==> ContentPanelIntended(tab) == ContentPanel(tab)
    ensures ContentPanelIntended(tab) == SearchForm <==> tab == "Add Friend"
    ensures ContentPanel(tab) == SearchForm <==> tab == "Add New"
    ensures ContentPanelIntended(tab) == Blank <==> tab !in TabButtons
  {
  }

  /** The empty-state line the panel shows, if any. */
  function Notice(panel: Panel, friends: seq<FriendCard.FriendProfile>, pending: seq<PendingRequest>,
                  results: seq<UserHit>, query: string): (r: Option<string>)
    ensures panel == Blank ==> r.None?
    ensures panel == SearchForm && query == "" ==> r.None?
  {
    match panel
    case OnlineList => if OnlineFriends(friends) == [] then Some("No friends online") else None
    case AllList => if friends == [] then Some("No friends added") else None
    case PendingList => if pending == [] then Some("No pending requests") else None
    case SearchForm => if results == [] && query != "" then Some("No users found") else None
    case Blank => None
  }

  /** Each empty-state line appears exactly when its list is empty; the
      search one also needs a non-empty query. */
  lemma NoticeIff(friends: seq<FriendCard.FriendProfile>, pending: seq<PendingRequest>,
                  results: seq<UserHit>, query: string)
    ensures Notice(OnlineList, friends, pending, results, query).Some?
            <==> forall i :: 0 <= i < |friends| ==> !friends[i].isOnline
    ensures Notice(AllList, friends, pending, results, query).Some? <==> |friends| == 0
    ensures Notice(PendingList, friends, pending, results, query).Some? <==> |pending| == 0
    ensures Notice(SearchForm, friends, pending, results, query).Some? <==> |results| == 0 && query != ""
    ensures Notice(Blank, friends, pending, results, query).None?
  {
    NoFriendsOnlineIff(friends);
  }

  // --------------------------------------------------------- the page

  class FriendsView {
    var activeTab: string
    var friends: seq<FriendCard.FriendProfile>
    var pendingRequests: seq<PendingRequest>
    var searchResults: seq<UserHit>
    var searchQuery: string
    var userId: Option<int>
    var isAuthenticated: bool
    /** The user id the page's socket was opened for, if it has one. */
    var socket: Option<int>
    var effects: seq<PageEffect>

    /** The page never opens more than one socket, and it holds one exactly
        when it has opened one. */
    ghost predicate Valid()
      reads this
    {
      && CountOpens(effects) <= 1
      && (socket.Some? <==> CountOpens(effects) == 1)
    }

    /** What the content area shows. This is the corrected mapping, in
        which the "Add Friend" button opens the search form. */
    function ShownPanel(): (p: Panel)
      reads this
      ensures p == SearchForm <==> activeTab == "Add Friend"
      ensures activeTab != "Add Friend" && activeTab != "Add New" ==> p == ContentPanel(activeTab)
    {
      PanelMappingsAgree(activeTab);
      ContentPanelIntended(activeTab)
    }

    /** Mount, up to the point where the state read from the token has
        settled. */
    constructor (token: TokenResult)
      ensures Valid()
      ensures activeTab == "Online"
      ensures friends == [] && pendingRequests == [] && searchResults == [] && searchQuery == ""
      ensures token.Decoded? ==> isAuthenticated && userId == token.userId
      ensures !token.Decoded? ==> !isAuthenticated && userId == None
      ensures socket.Some? <==> token.Decoded? && UserIdSet(token.userId)
      ensures socket.Some? ==> socket == token.userId
      ensures effects == MountEffects(token)
    {
      activeTab := "Online";
      friends := [];
      pendingRequests := [];
      searchResults := [];
      searchQuery := "";
      if token.Decoded? {
        userId := token.userId;
        isAuthenticated := true;
      } else {
        userId := None;
        isAuthenticated := false;
      }
      if token.Decoded? && UserIdSet(token.userId) {
        socket := token.userId;
      } else {
        socket := None;
      }
      effects := MountEffects(token);
      MountSocketRule(token);
    }

    /** Appends effects that open no socket; the invariant survives. */
    method Emit(es: seq<PageEffect>)
      requires Valid()
      requires CountOpens(es) == 0
      modifies this`effects
      ensures Valid()
      ensures effects == old(effects) + es
    {
      CountOpensAppend(effects, es);
      effects := effects + es;
    }

    /** A tab button (or any other writer of the tab cell). The tab effect
        runs only when the value actually changes. */
    method SetTab(tab: string)
      requires Valid()
      modifies this`activeTab, this`effects
      ensures Valid()
      ensures activeTab == tab
      ensures ShownPanel() == ContentPanelIntended(tab)
      ensures tab != old(activeTab) ==> effects == old(effects) + TabEffects(tab)
      ensures tab == old(activeTab) ==> effects == old(effects)
    {
      if tab != activeTab {
        activeTab := tab;
        TabRule(tab);
        Emit(TabEffects(tab));
      }
    }

    /** A frame from the friends socket, already parsed. */
    method SocketMessage(f: Frame)
      requires Valid()
      modifies this`effects
      ensures Valid()
      ensures effects == old(effects) + MessageEffects(f)
    {
      MessageRule(f);
      Emit(MessageEffects(f));
    }

    /** The socket's close event. The socket cell keeps the closed socket;
        nothing opens another. */
    method SocketClosed(code: int)
      requires Valid()
      modifies this`effects
      ensures Valid()
      ensures effects == old(effects) + CloseEffects(code)
    {
      CloseRule(code);
      Emit(CloseEffects(code));
    }

    /** Unmount: the socket effect's cleanup closes the socket with 1000,
        and the close event that follows is handled as `onclose` handles
        any other. */
    method Unmount(state: ReadyState)
      requires Valid()
      modifies this`effects
      ensures Valid()
      ensures old(socket).Some? ==> effects == old(effects) + TeardownEffects(state)
      ensures old(socket).None? ==> effects == old(effects)
    {
      if socket.Some? {
        TeardownRule(state);
        Emit(TeardownEffects(state));
      }
    }

    /** A friends response: a list replaces the current one; a failed
        fetch leaves it as it was. */
    method FriendsLoaded(response: Option<seq<FriendCard.FriendProfile>>)
      modifies this`friends
      ensures response.Some? ==> friends == response.value
      ensures response.None? ==> friends == old(friends)
    {
      if response.Some? {
        friends := response.value;
      }
    }

    /** A pending-requests response, handled the same way. */
    method PendingLoaded(response: Option<seq<PendingRequest>>)
      modifies this`pendingRequests
      ensures response.Some? ==> pendingRequests == response.value
      ensures response.None? ==> pendingRequests == old(pendingRequests)
    {
      if response.Some? {
        pendingRequests := response.value;
      }
    }

    /** The Accept button of a pending request. */
    method AcceptRequest(id: int, putOk: bool)
      requires Valid()
      modifies this`effects
      ensures Valid()
      ensures effects == old(effects) + AcceptEffects(id, putOk)
    {
      RequestRule(id, putOk);
      Emit(AcceptEffects(id, putOk));
    }

    /** The Reject button of a pending request. */
    method RejectRequest(id: int, putOk: bool)
      requires Valid()
      modifies this`effects
      ensures Valid()
      ensures effects == old(effects) + RejectEffects(id, putOk)
    {
      RequestRule(id, putOk);
      Emit(RejectEffects(id, putOk));
    }

    /** The "Add Friend" button of a search result. */
    method SendFriendRequest(username: string, postOk: bool)
      requires Valid()
      modifies this`effects
      ensures Valid()
      ensures effects == old(effects) + FriendRequestEffects(username, postOk)
    {
      CountOpensNone(FriendRequestEffects(username, postOk));
      Emit(FriendRequestEffects(username, postOk));
    }

    /** The search box's `onChange`. */
    method EditQuery(q: string)
      modifies this`searchQuery
      ensures searchQuery == q
    {
      searchQuery := q;
    }

    /** Submitting the search form: a non-empty query asks the search
        endpoint; an empty one does nothing. */
    method SubmitSearch()
      requires Valid()
      modifies this`effects
      ensures Valid()
      ensures effects == old(effects) + SearchEffects(searchQuery)
      ensures searchQuery == "" ==> effects == old(effects)
    {
      Emit(SearchEffects(searchQuery));
    }

    /** A search response: results replace the list; a failed search
        leaves it as it was. */
    method SearchLoaded(response: Option<seq<UserHit>>)
      modifies this`searchResults
      ensures response.Some? ==> searchResults == response.value
      ensures response.None? ==> searchResults == old(searchResults)
    {
      if response.Some? {
        searchResults := response.value;
      }
    }
  }
}
