# ChatApp core, modelled in Dafny

ChatApp is a small chat application. A Django backend keeps three tables:
user profiles with presence, friend requests with a status and a
one-per-ordered-pair constraint, and messages ordered by timestamp. A
Channels consumer (`FriendConsumer`) runs one instance per WebSocket
connection. It joins a per-user group (`user_<id>`), marks the user online
and tells each friend. It routes the `send_message` and `typing` frames its
client sends, and turns group events into frames for its client.

The React frontend has four pieces:
- a conversation pane that appends relevant live messages and sends new ones;
- a friends page that refetches lists in response to socket frames, tab
  changes and request actions;
- a friend card with a "last seen" formatter;
- an animated "Chat App" title.

## Modules

| file | module | models |
|---|---|---|
| `wire.dfy` | `Wire` | JSON values, frames, Python truthiness of a looked-up value |
| `text.dfy` | `Text` | decimal rendering and parsing; JavaScript `trim` |
| `models.dfy` | `Models` | the three tables as datatypes, plus a `Database` class holding them |
| `consumer.dfy` | `Consumer` | the consumer: group names, handler frames, the `receive` guards, the friend derivation, presence notices, and the `FriendConsumer` class |
| `messages.dfy` | `MessagesPane` | the conversation pane (`MessagesView` class) |
| `friend.dfy` | `FriendCard` | `timeAgo`, the status label, the click sequence |
| `friendspage.dfy` | `FriendsPage` | the friends page (`FriendsView` class) |
| `typewriter.dfy` | `Typewriter` | the title animation (`TypewriterView` class) |
| `integration.dfy` | `Integration` | lemmas that put the frontend and backend models side by side |

## How the outside world is modelled

Everything the components do to the outside world is appended to an
`effects` sequence on the object:
- the channel layer's `group_add`, `group_discard` and `group_send`;
- socket sends;
- REST calls;
- timers.

What comes back from the outside world arrives as a method parameter:
- a REST response is an `Option` (`None` for a failed request);
- the success of a PUT is a flag;
- a decoded token is a `TokenResult`;
- a clock reading is an integer `now`.

The ORM is an in-memory `Database` object. Its `requests` table keeps the
`unique_together` constraint as part of `Valid()`. Python's exceptions in
`receive` are a `Raise` plan: the method returns `raised`, and nothing has
been saved or sent.

`Integration.LiveSendIsDropped` states a consequence of reading the two ends
together:
- the pane names the receiver under the key `receiver` (frontend/src/components/Messages.jsx:57);
- the consumer saves and broadcasts only frames with a truthy `receiver_id` (backend/api/consumers.py:51-54);
- so a live send from the pane is neither saved nor broadcast by the socket server;
- the pane also posts the message over REST; whether that post stores it depends on views that are not part of this model;
- `Integration.RenamedKeyWouldBeSaved` shows that the same frame with the key renamed is saved.

The classes keep the frame as the pane builds it.

## Model

| member | source | states |
|---|---|---|
| Text.NatStrRoundTrip | backend/api/consumers.py:29 | parsing the decimal digits of a user id gives the id back, so group names built from ids can be read back |
| Text.TrimIsCore | frontend/src/components/Messages.jsx:58 | the trimmed compose text is the slice of the input left after the whitespace on both ends is cut off; it neither starts nor ends with ECMAScript whitespace |
| Text.TrimEmptyIff | frontend/src/components/Messages.jsx:51 | the trimmed text is empty exactly when the input is all whitespace (the send guard) |
| Text.TrimIdempotent | frontend/src/components/Messages.jsx:58 | trimming the already-trimmed content changes nothing |
| Text.Trim | frontend/src/components/Messages.jsx:51-58 | trimming never lengthens the text |
| Wire.PyTruthy | backend/api/consumers.py:53 | a truthy value is present and not null; a string is truthy exactly when it is non-empty |
| Models.NewProfile | backend/api/models.py:6-12 | a profile is admitted exactly when both names are non-empty and at most 30 characters; a refused one reports every failing field, blank and too long alike, together; a new profile is offline and last seen at creation |
| Models.StatusValueRoundTrip | backend/api/models.py:21-25 | a stored status value and the choice it encodes determine each other; every value fits the 10-character column |
| Models.NewFriendRequest | backend/api/models.py:21-26 | a created request is pending, stamped with the creation time, between the given users |
| Models.InsertRequest | backend/api/models.py:28-29 | an insert is refused exactly when the ordered (from, to) pair already exists; otherwise the row is appended |
| Models.InsertKeepsUnique | backend/api/models.py:28-29 | an accepted insert preserves the uniqueness of ordered pairs |
| Models.ReversedPairIsDistinctKey | backend/api/models.py:28-29 | in any table holding a request from a to b and none from b to a, one from b to a is appended while a second one from a to b is refused |
| Models.UniquePairsCountAtMostOne | backend/api/models.py:28-29 | under the constraint each ordered pair occurs at most once, and once exactly when present |
| Models.RequestStringShowsStatus | backend/api/models.py:31-32 | the "from → to (status)" rendering tells the status apart for the same two users |
| Models.RequestString | backend/api/models.py:31-32 | the rendering ends with the stored status value in parentheses |
| Models.NewMessage | backend/api/models.py:35-40 | a created message is unread and stamped with the creation time |
| Models.Preview | backend/api/models.py:46 | `content[:30]` is the whole content when it has at most 30 characters, otherwise its first 30 |
| Models.MessageString | backend/api/models.py:45-46 | the rendering is "sender → receiver: " followed by exactly the preview of the content |
| Models.MessageStringShowsPreview | backend/api/models.py:45-46 | for the same two users, two messages render alike exactly when their first 30 characters agree |
| Models.OrderByTimestamp | backend/api/models.py:42-43 | a message listing is ordered by timestamp and is a permutation of the rows |
| Models.Database.CreateFriendRequest | backend/api/models.py:18-29 | appends a pending request exactly when its ordered pair is free; the table stays unique |
| Models.Database.CreateMessage | backend/api/consumers.py:174-177 | appends one unread message with a fresh id and the given fields |
| Models.Database.SetPresence | backend/api/consumers.py:132-142 | sets the flag and last-seen time of the user's profile only; a user without a profile changes nothing |
| Consumer.GroupName | backend/api/consumers.py:29 | "user_" and the id for a resolved user, "user_anonymous" otherwise |
| Consumer.GroupNamesSeparateUsers | backend/api/consumers.py:29 | two connections share a group only when both are anonymous or both are the same user |
| Consumer.HandlerFrame | backend/api/consumers.py:95-130 | each handler's frame carries its label and, for all five events, exactly the keys the handler writes with the event's values: the message; user id, username and typing flag; sender and request id; sender, receiver and request id; user id, username and presence flag |
| Consumer.HandlerLabels | backend/api/consumers.py:95-99 | only the chat handler relabels, to "new_message"; every other frame carries its handler's name |
| Consumer.ResolveUserId | backend/api/consumers.py:174-176 | the id the receiver lookup uses: a number as is, `true` as 1 and `false` as 0, a digit string parsed; an empty or non-digit string, null and objects fail |
| Consumer.ReceivePlan | backend/api/consumers.py:46-92 | a `send_message` frame is dropped exactly when `receiver_id` or `content` is falsy; otherwise it is saved exactly when the receiver id resolves to a known user, a user is signed in and the content renders, and raises in every other case; a `typing` frame is dropped exactly when `receiver_id` is falsy, otherwise forwarded exactly when a user is signed in and the id renders, and raises otherwise; `is_typing` defaults to false; other events do nothing |
| Consumer.Broadcast | backend/api/consumers.py:61-76 | a saved message yields exactly two group sends of the same serialized row, receiver group first, then sender group |
| Consumer.SerializeMessage | backend/api/consumers.py:58 | the serialized row is an object with exactly the keys id, sender, receiver, content, timestamp and is_read, carrying the row's sender, receiver and content |
| Consumer.AcceptedInvolving | backend/api/consumers.py:148-150 | the queryset holds only accepted requests with the user on either side, and no more rows than the table |
| Consumer.AcceptedInvolvingSnoc | backend/api/consumers.py:148-150 | a further row of the table joins the end of the queryset exactly when it is accepted and involves the user, so the queryset keeps table order |
| Consumer.AcceptedInvolvingComplete | backend/api/consumers.py:148-150 | a request is in the queryset exactly when it is in the table, accepted, and has the user on either side |
| Consumer.FriendsOf | backend/api/consumers.py:144-157 | without a user the friend list is empty |
| Consumer.FriendsOfSnoc | backend/api/consumers.py:144-157 | each further request adds its other party at the end exactly when it is accepted and involves the user: one entry per such request, in request order |
| Consumer.FriendsOfMembership | backend/api/consumers.py:144-157 | someone is a friend exactly when an accepted request has them opposite the user |
| Consumer.FriendCountBound | backend/api/consumers.py:148-157 | a friend appears at most once per request between the two users, in either direction |
| Consumer.FriendAppearsAtMostTwice | backend/api/consumers.py:148-157 | with the uniqueness constraint a friend appears at most twice in the list |
| Consumer.StatusNotices | backend/api/consumers.py:159-172 | one presence notice per friend |
| Consumer.StatusNoticeAt | backend/api/consumers.py:163-172 | notice i goes to friend i's group and carries the user's id, name and flag |
| Consumer.FriendConsumer.constructor | backend/api/consumers.py:19 | before connecting there is no user and nothing has been sent |
| Consumer.FriendConsumer.GetFriends | backend/api/consumers.py:144-157 | the loop builds exactly the friend list of the derivation (empty without a user) |
| Consumer.FriendConsumer.NotifyFriendsStatus | backend/api/consumers.py:159-172 | without a user nothing is sent; otherwise the loop sends exactly the notices, one per friend, in friend order |
| Consumer.FriendConsumer.Connect | backend/api/consumers.py:13-37 | resolves the user from the query id, joins its group (or the anonymous one); goes online and notifies friends only for a resolved user; accepts last |
| Consumer.FriendConsumer.Disconnect | backend/api/consumers.py:39-44 | with a user: leave the group, go offline, notify friends; without one: nothing |
| Consumer.FriendConsumer.Receive | backend/api/consumers.py:46-92 | carries out the plan: a saved message is stored and broadcast, a typing notice forwarded, a dropped frame changes nothing, an exception saves and sends nothing |
| Consumer.FriendConsumer.Handle | backend/api/consumers.py:95-130 | a group event sends its handler's frame to the client |
| MessagesPane.AfterFramesAppendsInOrder | frontend/src/components/Messages.jsx:33-44 | a run of frames keeps every earlier message and adds exactly the relevant messages in arrival order, with no sorting and no dedup |
| MessagesPane.AfterFrame | frontend/src/components/Messages.jsx:33-44 | a frame grows the list by one exactly when it is a `new_message` about the open conversation, otherwise leaves its length alone |
| MessagesPane.FrameEffect | frontend/src/components/Messages.jsx:35-42 | a frame of another event, or about another user, leaves the list unchanged; a relevant one grows it by exactly its message, last |
| MessagesPane.RedeliveryDuplicates | frontend/src/components/Messages.jsx:41 | delivering the same relevant frame twice appends its message twice |
| MessagesPane.OutboundFrame | frontend/src/components/Messages.jsx:55-59 | the sent frame has exactly the keys event, receiver and content, with the friend's user id and the given content |
| MessagesPane.SendPlanRule | frontend/src/components/Messages.jsx:50-81 | blank text, or a socket that is missing or still connecting, sends and posts nothing and keeps the text; otherwise the effects are exactly one frame with the trimmed content when the socket is open, then exactly one post of that content, and the box is cleared whatever the post's outcome |
| MessagesPane.SendPlan | frontend/src/components/Messages.jsx:50-81 | the box is either kept or cleared, and it is kept exactly when nothing is sent or posted |
| MessagesPane.MessagesView.constructor | frontend/src/components/Messages.jsx:5-27 | mounting starts with an empty list and box and requests the friend's history |
| MessagesPane.MessagesView.SelectFriend | frontend/src/components/Messages.jsx:17-27 | history is requested again only when the friend's id changes; the list is kept until a response arrives |
| MessagesPane.MessagesView.HistoryLoaded | frontend/src/components/Messages.jsx:19-24 | a fetched history replaces the list wholesale; a failed fetch keeps it |
| MessagesPane.MessagesView.HandleMessage | frontend/src/components/Messages.jsx:33-44 | the listener updates the list exactly as the frame rule says |
| MessagesPane.MessagesView.EditText | frontend/src/components/Messages.jsx:128 | the box holds what was typed |
| MessagesPane.MessagesView.SendMessage | frontend/src/components/Messages.jsx:50-81 | the effects and the new text are exactly the send plan of the old text |
| MessagesPane.MessagesView.HandleKeyPress | frontend/src/components/Messages.jsx:83-88 | Enter without Shift prevents the newline and sends; every other key changes nothing |
| FriendCard.JustNowIff | frontend/src/components/Friend.jsx:15-19 | "just now" exactly when the difference is under 60000 ms, negative differences included |
| FriendCard.TimeAgo | frontend/src/components/Friend.jsx:10-23 | under a minute it reads "just now"; from a minute on it starts with a digit |
| FriendCard.MinutesBranch | frontend/src/components/Friend.jsx:15-20 | from one minute to under an hour: whole minutes, 1 to 59 |
| FriendCard.HoursBranch | frontend/src/components/Friend.jsx:16-21 | from one hour to under a day: whole hours, 1 to 23 |
| FriendCard.DaysBranch | frontend/src/components/Friend.jsx:17-22 | from one day on: whole days, at least 1 |
| FriendCard.PluralIff | frontend/src/components/Friend.jsx:20-22 | the phrase ends in "s ago" exactly when the count is not 1 |
| FriendCard.CountedInjective | frontend/src/components/Friend.jsx:20-22 | the count can be read back from the phrase |
| FriendCard.MinutesDistinguished | frontend/src/components/Friend.jsx:15-20 | in the minutes range, two differences read alike exactly when they fall in the same whole minute |
| FriendCard.StatusLabelIff | frontend/src/components/Friend.jsx:62-64 | "Active" exactly for an online friend, otherwise "Last Seen: " and the elapsed time |
| FriendCard.StatusLabel | frontend/src/components/Friend.jsx:62-64 | an online friend is "Active"; an offline one reads "Last Seen: " followed by more text |
| FriendCard.ClickOpensConversation | frontend/src/components/Friend.jsx:28-33 | a click opens the Messages tab on this friend, clears its new-message flag and shows the pane; the tab is set first, the pane unhidden last |
| Typewriter.NextPreservesInv | frontend/src/components/TypewriterEffect.jsx:10-24 | the display is always the first `index` characters of "Chat App"; a step appends exactly the next character, and the last step resets to the initial state |
| Typewriter.Next | frontend/src/components/TypewriterEffect.jsx:10-24 | a step goes back to index 0 exactly when the whole banner is shown; otherwise it advances the index by one and shows one more character |
| Typewriter.Delay | frontend/src/components/TypewriterEffect.jsx:16-23 | the timer is 400, 200 or 5000 ms: 5000 exactly when the banner is complete, 400 exactly at index 0 |
| Typewriter.IterateTypes | frontend/src/components/TypewriterEffect.jsx:10-15 | k steps short of the end show k more characters |
| Typewriter.IterateFromStart | frontend/src/components/TypewriterEffect.jsx:5-15 | after k steps from mount the first k characters are shown |
| Typewriter.Period | frontend/src/components/TypewriterEffect.jsx:9-26 | every valid state recurs after exactly length + 1 steps, and not earlier |
| Typewriter.ElapsedToRestart | frontend/src/components/TypewriterEffect.jsx:16-23 | the time to the restart is 200 ms per remaining character (400 for the first) plus the 5000 ms hold |
| Typewriter.CycleTime | frontend/src/components/TypewriterEffect.jsx:16-23 | a full cycle from mount takes 6800 ms |
| Typewriter.RenderChar | frontend/src/components/TypewriterEffect.jsx:32 | a space is drawn as U+00A0, every other character as itself |
| Typewriter.Render | frontend/src/components/TypewriterEffect.jsx:30-34 | one span per character, each drawn by the character rule |
| Typewriter.RenderRoundTrip | frontend/src/components/TypewriterEffect.jsx:32 | the drawn text has no plain space and reads back as the display |
| Typewriter.TypewriterView.constructor | frontend/src/components/TypewriterEffect.jsx:5-7 | mount shows nothing at index 0 |
| Typewriter.TypewriterView.Step | frontend/src/components/TypewriterEffect.jsx:9-26 | one timer callback performs the step and keeps the invariant; its delay was 400, 200 or 5000 ms |
| FriendsPage.MessageRule | frontend/src/pages/Friends.jsx:157-164 | only an `online_status` frame does anything, and that is one friends refetch |
| FriendsPage.MessageEffects | frontend/src/pages/Friends.jsx:157-164 | a frame causes at most one effect and never opens a socket |
| FriendsPage.CloseRule | frontend/src/pages/Friends.jsx:168-181 | a close other than 1000 arms one 5000 ms logging timer; 1000 arms nothing; no close opens a socket; the teardown code is 1000 |
| FriendsPage.CloseEffects | frontend/src/pages/Friends.jsx:168-175 | a close causes at most one effect and never opens a socket |
| FriendsPage.TabRule | frontend/src/pages/Friends.jsx:185-188 | "All"/"Online" refetch friends, "Pending" refetches requests, any other tab neither |
| FriendsPage.TabEffects | frontend/src/pages/Friends.jsx:185-188 | a tab change never opens a socket |
| FriendsPage.MountSocketRule | frontend/src/pages/Friends.jsx:123-151 | a socket is opened, once and for that id, exactly when the token yields a truthy user id; the tab effect fetches friends first |
| FriendsPage.MountEffects | frontend/src/pages/Friends.jsx:123-151 | mounting causes one effect or five, and the first is the friends fetch |
| FriendsPage.RequestRule | frontend/src/pages/Friends.jsx:86-109 | accept: PUT, refetch pending, refetch friends; reject: PUT, refetch pending; a failed PUT refetches nothing |
| FriendsPage.AcceptEffects | frontend/src/pages/Friends.jsx:86-97 | the PUT comes first, and nothing follows it exactly when it failed |
| FriendsPage.RejectEffects | frontend/src/pages/Friends.jsx:99-109 | the PUT comes first, and nothing follows it exactly when it failed |
| FriendsPage.SearchEffects | frontend/src/pages/Friends.jsx:60-73 | an empty query asks for nothing; any other asks for exactly one search of that query |
| FriendsPage.FriendRequestEffects | frontend/src/pages/Friends.jsx:76-84 | the POST, then one alert, which names the user when the POST went through |
| FriendsPage.OnlineFriends | frontend/src/pages/Friends.jsx:237-238 | the Online view lists exactly the friends with `is_online` |
| FriendsPage.OnlineFriendsAppend | frontend/src/pages/Friends.jsx:237-241 | the Online filter keeps list order |
| FriendsPage.NoFriendsOnlineIff | frontend/src/pages/Friends.jsx:242-244 | "No friends online" shows exactly when no friend is online |
| FriendsPage.NoticeIff | frontend/src/pages/Friends.jsx:235-295 | each empty-state line shows exactly when its list is empty (the search one also needs a query) |
| FriendsPage.Notice | frontend/src/pages/Friends.jsx:242-294 | a blank area shows no notice, and neither does the search form before a query |
| FriendsPage.SearchFormUnreachable | frontend/src/pages/Friends.jsx:272 | as written, no tab button reaches the search form |
| FriendsPage.ContentPanel | frontend/src/pages/Friends.jsx:235-272 | as written the search form shows exactly for the tab "Add New", and the area is blank exactly for a tab other than "Online", "All", "Pending" and "Add New" |
| FriendsPage.EveryPanelReachable | frontend/src/pages/Friends.jsx:197 | with the intended mapping each button shows its own panel, the search form among them |
| FriendsPage.ContentPanelIntended | frontend/src/pages/Friends.jsx:197-272 | as intended the search form shows exactly for "Add Friend", and the area is blank exactly for a tab no button names |
| FriendsPage.PanelMappingsAgree | frontend/src/pages/Friends.jsx:235-272 | the corrected mapping agrees with the one as written on every tab but "Add Friend" and "Add New"; it shows the search form exactly for "Add Friend" and is blank exactly for a tab no button names |
| FriendsPage.FriendsView.ShownPanel | frontend/src/pages/Friends.jsx:235-272 | the page draws the content area with the corrected mapping: the search form exactly on the "Add Friend" tab, and as written on every other tab but "Add New" |
| FriendsPage.FriendsView.constructor | frontend/src/pages/Friends.jsx:12-22 | initial state on the "Online" tab; authenticated exactly when the token decodes; socket held exactly when the user id is truthy |
| FriendsPage.FriendsView.SetTab | frontend/src/pages/Friends.jsx:184-188 | the tab effect runs only when the tab changes |
| FriendsPage.FriendsView.SocketMessage | frontend/src/pages/Friends.jsx:157-164 | a frame adds exactly its rule's effects; the page still holds at most one socket ever opened |
| FriendsPage.FriendsView.SocketClosed | frontend/src/pages/Friends.jsx:168-175 | a close adds only the timer rule's effects; nothing reopens |
| FriendsPage.TeardownRule | frontend/src/pages/Friends.jsx:168-181 | the cleanup closes with 1000 first, and arms the 5000 ms logging timer exactly when the socket was still connecting (its close event then carries 1006) |
| FriendsPage.TeardownEffects | frontend/src/pages/Friends.jsx:168-181 | the cleanup causes one or two effects, the first being the close with 1000 |
| FriendsPage.FriendsView.Unmount | frontend/src/pages/Friends.jsx:179-181 | a held socket gets the teardown effects for its ready state; a page without a socket does nothing |
| FriendsPage.FriendsView.FriendsLoaded | frontend/src/pages/Friends.jsx:38-46 | a response replaces the friends list; a failure keeps it |
| FriendsPage.FriendsView.PendingLoaded | frontend/src/pages/Friends.jsx:49-57 | a response replaces the pending list; a failure keeps it |
| FriendsPage.FriendsView.AcceptRequest | frontend/src/pages/Friends.jsx:86-97 | adds the accept sequence |
| FriendsPage.FriendsView.RejectRequest | frontend/src/pages/Friends.jsx:99-109 | adds the reject sequence |
| FriendsPage.FriendsView.SendFriendRequest | frontend/src/pages/Friends.jsx:76-84 | a POST, then an alert saying whether it went through |
| FriendsPage.FriendsView.EditQuery | frontend/src/pages/Friends.jsx:279 | the search box holds what was typed |
| FriendsPage.FriendsView.SubmitSearch | frontend/src/pages/Friends.jsx:60-73 | an empty query makes no request; a non-empty one asks the search endpoint |
| FriendsPage.FriendsView.SearchLoaded | frontend/src/pages/Friends.jsx:64-70 | results replace the list; a failure keeps it |
| Integration.LiveSendIsDropped | backend/api/consumers.py:50-54 | the pane's outbound frame is never saved or broadcast by the consumer, for any sender |
| Integration.RenamedKeyWouldBeSaved | backend/api/consumers.py:50-57 | the same frame with a numeric `receiver_id` of a known user is saved |
| Integration.BroadcastReachesPane | frontend/src/components/Messages.jsx:35-42 | a broadcast message arrives as `new_message`; the pane on friend x appends it unchanged exactly when x sent or receives it |
| Integration.OnlyNewMessageIsSent | frontend/src/components/Messages.jsx:35 | the server never sends `chat_message` or `message_sent`; of its frames only chat frames reach the pane's list |
| Integration.PresenceRefetchesFriends | frontend/src/pages/Friends.jsx:160-163 | of the consumer's frames, only the presence one refetches friends on the friends page |
| Integration.NoticesRefetchEachFriend | backend/api/consumers.py:159-172 | each presence notice goes to one friend's group and makes that friend's page refetch |

## Left out

- Transport is not modelled: WebSocket objects, HTTP requests, the channel layer and `database_sync_to_async` appear only as recorded effects. Concurrency and interleaving of async callbacks are out of scope.
- Timers are integers, not a clock. Console output, `alert` text beyond the effect, and `print` are not modelled.
- JWT decoding and localStorage are foreign calls. Their outcome is the `TokenResult` parameter. Routing (`logOut`, `editProfile`) is not modelled.
- Rendering, CSS, hover state and scrolling are not modelled. This includes the sent/received bubble class and the header name.
- `getUserFullName` is only a `FetchProfile` effect; the header name it sets is rendering.
- React's StrictMode double effects are not modelled, nor effect cleanups other than the socket's.
- Re-running the socket effect when its dependencies change is not modelled. The model mounts once, from one token.
- FriendsPage.FriendsView.Unmount: the close event of an open socket is taken to carry the 1000 the server echoes back. A server that answers with another code would arm the timer.
- FriendsPage.FriendsView.constructor: takes the settled state after the token is read; the intermediate renders are folded into `MountEffects`.
- Date parsing is not modelled. `timeAgo` takes the millisecond difference as an integer, so NaN and invalid dates are out of scope. Message timestamps are integers.
- The query string of `connect` is an `Option<nat>` id. A non-numeric `user_id` (which makes `User.objects.get` raise something other than `DoesNotExist`) is not modelled.
- Consumer.ResolveUserId: covers numbers, booleans and ASCII digit strings. Python's `int()` forms with signs, surrounding whitespace or non-ASCII digits are not modelled.
- Consumer.ReceivePlan: a JSON object as `content` is treated as raising. Django would store its `str()` form instead.
- Consumer.ReceivePlan: the frame is already a parsed JSON object. Text that `json.loads` rejects, and a frame that is valid JSON but not an object (where `.get` raises), are not modelled.
- JSON arrays and fractional numbers cannot be formed from `Wire.Json`. So the model has no frame with an array `content`, which Python finds truthy and Django would store as `str([…])`.
- Consumer.ReceivePlan: the channel layer's check on group names is not modelled. Channels refuses a name with a character outside letters, digits, `-`, `_` and `.`, or of 100 characters or more. The model forwards a `typing` frame for `receiver_id` "a b" to `user_a b`, where the server would raise. A saved message whose receiver group is refused would be stored but not broadcast.
- Consumer.FriendConsumer.Receive: after a raise the object stays usable. In the server an uncaught exception ends the connection without running `disconnect`, so the profile stays `is_online`.
- The serialized message is a JSON object of the row's fields. consumers.py:5 imports `MessageSerializer`, which serializers.py does not define, so the consumer module fails at import as the files stand. The model assumes a serializer that lays the row out field by field.
- The Django queryset order is taken to be table order. `Message.Meta.ordering` is an `OrderByTimestamp` listing; timestamps that tie keep no particular order.
- `Profile.__str__` is not modelled.
- Models.NewProfile: a name is checked as Django's field validation checks it, so a name of spaces only is not blank. Whitespace trimming by a form or serializer is not modelled.
- The search query is put into the URL without encoding. URL encoding is not modelled.
- `FriendMessages.jsx`, `main.jsx`, the form pages, `serializers.py`, `views.py`, `urls.py` and `admin.py` are not part of this model.
- MessagesPane.MessagesView.HandleMessage: assumes the listener is installed. When the page has no socket, the source installs none and frames never arrive.
- In Friends.jsx each `Friend` card is rendered without the four setter props. A click there would call undefined functions. The click model is that of a parent that passes them.

## Findings

| source | as written | input that shows it | evidently intended | confidence | as-written member | corrected member |
|---|---|---|---|---|---|---|
| frontend/src/pages/Friends.jsx:272 | the search form is drawn for the tab "Add New", but the buttons are "Online", "All", "Pending" and "Add Friend" | clicking "Add Friend" sets the tab to "Add Friend", and the content area is empty | the "Add Friend" button opens the search form | high (not executed) | FriendsPage.SearchFormUnreachable | FriendsPage.EveryPanelReachable |
