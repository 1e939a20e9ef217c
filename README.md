# ve-services-server routing core in Dafny

This project models the in-memory routing tables of a game-services server
and the handlers that change them, then proves what each handler does.
The server provides media playlists, chat groups, a game-server listing and
WebRTC signalling over Colyseus rooms and Express routes. Every handler is
treated as one atomic step. A step's outgoing messages are returned as an
outbox: a sequence of `Send(recipient, topic, payload)` records in sending
order. Recipients are connection (session) ids.

The model has seven modules:

- **`Common`** (`common.dfy`): shared pieces.
  - `Option`.
  - The Express middleware outcome `Gate`: `Next`, or `Reject(status)`.
  - The promise outcome `Completion`: `Resolved` or `Rejected`.
  - `Array.prototype.indexOf` and `splice(i, 1)`.
  - The bearer guard that both `validateSystem` routines implement. It cuts `substring(7)` out of a truthy `authorization` header and looks the result up in a list.
- **`Dict`** (`dict.dfy`): a plain JavaScript object used as a dictionary.
  - It is a duplicate-free sequence of key/value pairs, so `for ... in` enumerates it in insertion order.
  - `d[k] = v` overwrites an entry in place or appends a new one.
  - `delete d[k]` removes the entry.
- **`MediaService`** (`media_service.dfy`): the class `MediaService`.
  - It holds the admin-token list, the playlist records, the per-playlist subscriber lists and the pending-deletion list.
  - The persisted `videos` table is a sequence of rows.
  - It serves the add-user, remove-user, upload, delete and playlist-listing routes, guarded by `validateSystem` and `validateUser`.
- **`MediaRoom`** (`media_room.dfy`): the `sub`, `play`, `pause`, `stop`, `seek`, `volume` and `switch` handlers. Each is a method that changes a `MediaService` object.
- **`ChatService`** (`chat_service.dfy`): the class `ChatService`.
  - It holds the handshake registry `connectingUsers`, the live `connections` and the online group cache `connectionsByGroupId`.
  - The `user`, `userGroup`, `userGroupInvitation` and `group` tables are sequences of rows.
  - It serves the add-user and remove-user routes, `GroupLeave`, `AddUserToGroup` and the three `Notify*` helpers.
- **`ListingService`** (`listing_service.dfy`): the class `ListingService`.
  - `gameServers` is keyed by Colyseus client id.
  - It provides the connect, `update` and disconnect callbacks and the `/listing` and `/listing/total-player` aggregations.
- **`WebRTCSignalingRoom`** (`webrtc_signaling_room.dfy`): the first-match relay of `candidate` and `desc` messages.

To make the code's invariants explicit, the classes carry a `Valid()` predicate:

- admin tokens, subscriber lists and `videos` ids hold no duplicates;
- each playlist's `sortOrder` strictly increases in store order;
- `user` ids are unique;
- every dictionary has unique keys;
- every listed game server's `id` is its key.

Every state-changing method preserves `Valid()`.

Some source behaviour is modelled as written and not corrected:

- **Missing `duration` after upload.** Upload stores the playlist record's duration under the property `mediaDuration` (`src/services/MediaService.ts:85`). `resp` reads `duration` (`src/rooms/MediaRoom.ts:24`). So a record created by upload sends no duration until a `switch` sets one. No `volume` is set either. In the model both are `None` in such a record.
- **`group-join` payload.** Each `group-join` message carries the *recipient's* own `userData` (`src/services/ChatService.ts:249-250`), not the new member's.

## Model

| member | source | states |
|---|---|---|
| Common.IndexOf | src/services/MediaService.ts:27 | `indexOf`: the result is -1 exactly when the element is absent; otherwise it is the first position holding the element |
| Common.RemoveFirstOccurrence | src/services/MediaService.ts:35-38 | Splicing out the found occurrence in a duplicate-free list removes the element, keeps the list duplicate-free and one shorter, and keeps every other element |
| Common.BearerGate | src/services/MediaService.ts:144-158 | The guard takes `next` iff the header is truthy and its `substring(7)` is in the allowed list; in every other case it answers 400 |
| Common.BearerGateDecidesOnToken | src/services/ChatService.ts:80-86 | For a header made of any 7-character prefix plus a token, the guard's verdict depends only on whether the token is allowed (the prefix itself is never checked) |
| Dict.PutSpec | src/services/ListingService.ts:72 | Assignment: the key maps to the new value, every other key and its value are unchanged, the key order is unchanged or the key is appended, and keys stay unique |
| Dict.RemoveSpec | src/services/ListingService.ts:80 | `delete`: the key is gone, every other key and its value are unchanged, an absent key changes nothing, and keys stay unique |
| MediaService.FanOutOncePerSubscriber | src/rooms/MediaRoom.ts:65-67 | To a duplicate-free subscriber list, every message is the same `resp`; each subscriber receives exactly one and nobody else receives any |
| MediaService.SendToAll | src/rooms/MediaRoom.ts:16-25 | The send loop emits one `resp` to each subscriber, in list order; the payload is `RespOf` of the record (`sendResp`), which copies `volume` and `duration` and never reads `mediaDuration` |
| MediaService.MaxSortOrder | src/services/MediaService.ts:61-68 | The `findFirst ... orderBy sortOrder desc` lookup: `None` exactly when the playlist has no video; otherwise the value is a sortOrder in the playlist and no video of the playlist has a larger one |
| MediaService.AppendNextKeepsAscending | src/services/MediaService.ts:77 | The new video's sortOrder (`NextSortOrder`: last + 1, or 1) is 1 for a playlist's first video and exceeds every other sortOrder in its playlist; appending it keeps every playlist ascending |
| MediaService.OfPlayList | src/services/MediaService.ts:124-127 | `findMany where playListId` keeps exactly the catalog's videos of that playlist |
| MediaService.KeptMembers | src/services/MediaService.ts:133-138 | The deletion filter keeps exactly the videos whose id is not pending deletion |
| MediaService.OfPlayListSorted | src/services/MediaService.ts:128-130 | When every playlist is ascending in store order, one playlist's videos in store order are strictly ascending by sortOrder, which is the `orderBy sortOrder asc` order |
| MediaService.KeptSorted | src/services/MediaService.ts:133-138 | Removing pending videos keeps a strictly ascending list strictly ascending |
| MediaService.ListedSpec | src/services/MediaService.ts:123-140 | The listing holds exactly the playlist's videos not pending deletion, in strictly ascending sortOrder |
| MediaService.ValidateUserAsWritten | src/services/MediaService.ts:160-170 | The unbound `validateUser` never takes `next`, and it answers 500 for every truthy header |
| MediaService.ValidateUserAsWrittenRefusesAdmin | src/services/MediaService.ts:42 | An admin's well-formed `Bearer <token>` request is let through by the bound guard but refused with 500 by the guard as registered |
| MediaService.MediaService.constructor | src/services/MediaService.ts:12-15 | The playlist, subscriber, pending-deletion and admin-token tables start empty; the persisted `videos` table is taken as it is, with unique ids and each playlist ascending |
| MediaService.MediaService.ValidateSystem | src/services/MediaService.ts:144-158 | `next` iff the header is truthy and its token is a secret key; otherwise 400 |
| MediaService.MediaService.ValidateUser | src/services/MediaService.ts:160-173 | Corrected (bound) guard: `next` iff the header is truthy and its token is an admin token; otherwise 400 |
| MediaService.MediaService.AddUserRoute | src/services/MediaService.ts:25-31 | A rejected request changes nothing and answers 400; otherwise the token is appended only when absent, so the list stays duplicate-free, and the answer is 200 |
| MediaService.MediaService.RemoveUserRoute | src/services/MediaService.ts:33-40 | A rejected request changes nothing; otherwise the token's one occurrence is spliced out, the rest stays in order, an absent token changes nothing, and the answer is 200 |
| MediaService.MediaService.StoreUpload | src/services/MediaService.ts:61-96 | The writes of an accepted upload: the video is appended with the next sortOrder and the `SavePath` file path, a playlist record (playing, time 0) is created only if none exists, and the subscriber list is created on a first video; `Valid()` is kept |
| MediaService.MediaService.UploadRouteAsWritten | src/services/MediaService.ts:42-116 | As written: the writes happen, nobody is sent anything, and on a first video with at least one subscriber the `emit` call throws, so the answer is 500 after the row and record are stored; otherwise the refusals of UploadRoute, or 200 |
| MediaService.MediaService.UploadRoute | src/services/MediaService.ts:42-116 | Corrected (notification delivered): answers 400 when refused, 404 with no file, and 500 on a taken id, all leaving state unchanged. Otherwise: the video is appended with the next sortOrder; a playlist record (playing, time 0) is created only if none exists; on the playlist's first video only, every subscriber gets one `resp`; `Valid()` (ascending, unique ids) is kept |
| MediaService.MediaService.DeleteRoute | src/services/MediaService.ts:118-121 | Refused: nothing changes. Otherwise only the id is appended to the pending list; the catalog and playlists are untouched |
| MediaService.MediaService.GetPlayList | src/services/MediaService.ts:123-140 | The backwards splice loop yields exactly the playlist's videos not pending deletion, in strictly ascending sortOrder |
| MediaRoom.EnsureSubscriberList | src/rooms/MediaRoom.ts:31-33 | A missing subscriber list is created empty; an existing one is untouched |
| MediaRoom.Publish | src/rooms/MediaRoom.ts:58-67 | Stores the changed record, ensures the subscriber list exists, and sends one `resp` with the new state to each subscriber in list order |
| MediaRoom.Sub | src/rooms/MediaRoom.ts:28-46 | The socket is added to the playlist's subscribers only when absent, so the list stays duplicate-free and ends up containing it; one `resp` goes to that socket alone when the playlist exists, and nothing is sent otherwise |
| MediaRoom.Play | src/rooms/MediaRoom.ts:48-69 | Without an admin token or an existing playlist: no state change and no message. Otherwise only `isPlaying` becomes true, and every subscriber gets one `resp` with the new record |
| MediaRoom.Pause | src/rooms/MediaRoom.ts:71-92 | The same gate as play; only `isPlaying` becomes false, and then the fan-out |
| MediaRoom.Stop | src/rooms/MediaRoom.ts:94-116 | The same gate; `isPlaying` becomes false and `time` 0, nothing else changes, and then the fan-out |
| MediaRoom.Seek | src/rooms/MediaRoom.ts:118-139 | The same gate; only `time` becomes the requested time, and then the fan-out |
| MediaRoom.Volume | src/rooms/MediaRoom.ts:141-162 | The same gate; only `volume` becomes the requested volume, and then the fan-out |
| MediaRoom.FindVideo | src/rooms/MediaRoom.ts:179-184 | `findFirst where { id, playListId }`: `None` exactly when no catalog video matches both; otherwise the result is a matching catalog video |
| MediaRoom.Switch | src/rooms/MediaRoom.ts:164-201 | The same gate. With no matching video, the record is unchanged and nothing is sent (the subscriber list may have been created). Otherwise `mediaId`, `filePath` and `duration` come from the video, `time` becomes 0 and `isPlaying` true, and then the fan-out |
| ChatService.UpsertSpec | src/services/ChatService.ts:38-61 | After the find-then-update-or-create, exactly one user row has the id, it holds the new name and icon, the ids stay unique, and every other row is unchanged |
| ChatService.RowsWithout | src/services/ChatService.ts:104-109 | `deleteMany` removes every copy of the (userId, groupId) row and keeps every other row's count |
| ChatService.ReplaceRowSpec | src/services/ChatService.ts:223-234 | Delete-then-create leaves exactly one copy of the membership row and every other row's count as before |
| ChatService.RowsOfUser | src/services/ChatService.ts:192-196 | `findMany where userId` keeps exactly the rows of that user |
| ChatService.RowsOfGroup | src/services/ChatService.ts:162-166 | `findMany where groupId` keeps exactly the rows of that group |
| ChatService.GroupsIn | src/services/ChatService.ts:201-207 | `group.findMany where groupId in ids` keeps exactly the groups whose id is listed |
| ChatService.UsersIn | src/services/ChatService.ts:171-177 | `user.findMany where userId in ids` keeps exactly the users whose id is listed |
| ChatService.GroupsOfUserSpec | src/services/ChatService.ts:192-207 | A group is in a user's group (or invitation) list exactly when a row pairs the user with it |
| ChatService.UsersOfGroupSpec | src/services/ChatService.ts:162-177 | A user is in a group's member list exactly when a membership row pairs them |
| ChatService.SendLeave | src/services/ChatService.ts:121-127 | The `for ... in` loop sends one `group-leave` to each cached member, in enumeration order |
| ChatService.SendJoin | src/services/ChatService.ts:244-252 | The `for ... in` loop sends one `group-join` to each cached member, in enumeration order, with the recipient's own user data |
| ChatService.CollectGroupIds | src/services/ChatService.ts:197-200 | The `forEach`/`push` loop collects the rows' group ids in row order |
| ChatService.CollectUserIds | src/services/ChatService.ts:167-170 | The `forEach`/`push` loop collects the rows' user ids in row order |
| ChatService.ChatService.constructor | src/services/ChatService.ts:12-15 | The handshake registry and the group cache start empty |
| ChatService.ChatService.ValidateSystem | src/services/ChatService.ts:72-88 | `next` iff the header is truthy and its token is a secret key; otherwise 400 |
| ChatService.ChatService.AddUserRoute | src/services/ChatService.ts:30-64 | A rejected request changes nothing and answers 400. Otherwise `connectingUsers[userId]` is overwritten with {userId, name, fresh key}, other entries are unchanged, exactly one user row carries the id with the new data, and the record is answered with 200 |
| ChatService.ChatService.RemoveUserRoute | src/services/ChatService.ts:66-69 | A rejected request changes nothing; otherwise only that user's handshake entry is removed |
| ChatService.ChatService.NotifyGroup | src/services/ChatService.ts:188-214 | Sends `group-list` with exactly the user's groups, to the user only and only if connected |
| ChatService.ChatService.NotifyGroupInvitation | src/services/ChatService.ts:130-156 | Sends `group-invitation-list` with exactly the groups inviting the user, to the user only and only if connected |
| ChatService.ChatService.NotifyGroupUser | src/services/ChatService.ts:158-186 | Sends `group-user-list` with exactly the group's members, to the user only and only if connected |
| ChatService.ChatService.GroupLeaveAsWritten | src/services/ChatService.ts:90-118 | As written: with an undefined group or user, it is a complete no-op. Otherwise the membership rows are deleted; nothing is ever sent; the promise rejects exactly when the user was in the group's cache, which stays unchanged |
| ChatService.ChatService.GroupLeave | src/services/ChatService.ts:90-128 | Corrected: with an undefined group or user, it is a no-op. Otherwise the membership rows are deleted. If the user is cached in the group, the user gets its group list, is removed from the cache, and each remaining cached member (not the leaver) gets one `group-leave`. Otherwise the cache and outbox are untouched |
| ChatService.ChatService.JoinGroup | src/services/ChatService.ts:223-252 | Exactly one membership row remains, and every other row's count is unchanged. The user is added to the group cache only if connected, and every cached member gets one `group-join` |
| ChatService.ChatService.ReplaceMembership | src/services/ChatService.ts:223-234 | Delete-then-create leaves exactly one (userId, groupId) membership row, and every other row's count is unchanged |
| ChatService.ChatService.CacheMember | src/services/ChatService.ts:235-242 | The group's cache entry is created if missing; the user's connection is cached there only when the user is connected, and everything else is unchanged |
| ChatService.ChatService.AddUserToGroupAsWritten | src/services/ChatService.ts:216-253 | As written: the membership, cache and fan-out effects happen as in JoinGroup, then the promise rejects; no invitation or group list is sent |
| ChatService.ChatService.AddUserToGroup | src/services/ChatService.ts:216-255 | Corrected: the join effects, then the user's invitation list and group list |
| ListingService.TotalConcat | src/services/ListingService.ts:36-40 | The player sum of a concatenation is the sum of the parts |
| ListingService.TotalUpdate | src/services/ListingService.ts:55 | Replacing one entry changes the sum by the difference of the two player counts |
| ListingService.TotalAfterPut | src/services/ListingService.ts:72 | Registering a server adds its players and subtracts those of the entry it overwrites |
| ListingService.TotalAfterRemove | src/services/ListingService.ts:80 | Unregistering a server subtracts exactly its players; an absent id changes nothing |
| ListingService.ListingService.constructor | src/services/ListingService.ts:9 | The registry starts empty |
| ListingService.ListingService.OnConnect | src/services/ListingService.ts:60-74 | Inserts or overwrites the entry under the client id, with `id` set to the client id; every other entry is unchanged, and the player total moves accordingly |
| ListingService.ListingService.Update | src/services/ListingService.ts:51-57 | An unregistered client changes nothing. A registered one has its entry replaced by the message with `id` forced to the client id; the keys are unchanged |
| ListingService.ListingService.OnDisconnect | src/services/ListingService.ts:76-85 | Removes the client's entry if present and changes nothing otherwise; other entries are untouched |
| ListingService.ListingService.Listing | src/services/ListingService.ts:21-32 | The result is exactly the registered entries, each found under its own id, in enumeration order |
| ListingService.ListingService.TotalPlayer | src/services/ListingService.ts:34-45 | The accumulating loop returns the sum of `currentPlayer` over all registered entries |
| WebRTCSignalingRoom.Relay | src/rooms/WebRTCSignalingRoom.ts:17-24 | At most one message goes out: to the first client in order whose session id the message names, with `sessionId` rewritten to the sender's and the rest unchanged. With no match, nothing is sent and the message is unmodified |
| WebRTCSignalingRoom.OnCandidate | src/rooms/WebRTCSignalingRoom.ts:16-25 | The first-match relay on topic `candidate` |
| WebRTCSignalingRoom.OnDesc | src/rooms/WebRTCSignalingRoom.ts:27-36 | The same relay on topic `desc` |

## Left out

- Process setup and I/O are not modelled: configuration parsing, the HTTP/HTTPS servers, the Redis and Mongo drivers, logging, `express.static`, and the file move and duration probing in upload. The secret keys (`SECRET_KEYS`) are a constructor parameter. The `nanoid()` id, the `nanoid(6)` connection key and the probed duration are method parameters.
- Interleaving of async handlers is not modelled. Each handler, with its database calls, is one atomic step.
- The database is an in-memory relation: each table is a sequence of rows in store order.
  - Upload with an id already in `videos` answers 500 and changes nothing. This stands for the unique-key violation of `create`.
  - The `videos` table is held in store order, and within each playlist that order is ascending `sortOrder` (required of the constructor's catalog and kept by `Valid()`). A database whose row order disagrees with `sortOrder` is not modelled.
- Numbers are not JavaScript floats: `time`, `volume` and `duration` are only copied, so they are `real`; port and player counts are `int`.
- Dictionaries enumerate in insertion order. JavaScript enumerates integer-like keys first; that is not modelled. Inherited properties seen by `in` are not modelled either.
- Subscriber lists hold connection ids, so `indexOf(socket)` compares ids, not client objects.
- ChatService.ChatService.connections is a constructor parameter. No code in the repository's shown files writes it: it starts as `{}` (`src/services/ChatService.ts:13`). So as shipped, `AddUserToGroup` caches nobody (line 239) and the `Notify*` helpers never deliver; the model covers the states in which some other code has filled it. `connectionsByName` is never used.
- ChatService.ChatService.AddUserRoute: always writes `iconUrl`. Prisma skips an `undefined` field on update, and that is not modelled.
- ListingService.ListingService.Listing and TotalPlayer: the `success: true` wrapper of the answer is not modelled. A client id is always defined, so the `id !== undefined` test is not modelled.
- Absent request and message fields are not modelled: every body or message field is a present string or real. For example, `POST /add-user` without `userToken` would push `undefined` into the admin list (`src/services/MediaService.ts:26-28`), after which a control message that has no `userToken` passes the admin check (`src/rooms/MediaRoom.ts:51`).
- Room lifecycle hooks (`onJoin`, `onLeave`, `onDispose`, `onAuth`), `BroadcastRoom` and the schema classes hold no routing logic and are not modelled.
- No tick, token-authentication or eviction step appears in the code, so none is modelled.

## Findings

| source | as written | input that shows it | evidently intended | confidence | as-written member | corrected member |
|---|---|---|---|---|---|---|
| src/services/MediaService.ts:42, src/services/MediaService.ts:118, src/services/MediaService.ts:168 | `validateUser` is registered as an unbound method, so reading `this.adminUserTokens` throws once a header is present. Express answers 500, and upload and delete can never run | `authorization: Bearer t` with `t` a registered admin token | admit exactly the admin tokens, as `validateSystem` admits the secret keys | not executed | MediaService.ValidateUserAsWrittenRefusesAdmin | MediaService.MediaService.ValidateUser |
| src/services/ChatService.ts:93, src/services/ChatService.ts:118 | `NotifyGroup` is taken off `this`, so inside it `this` is undefined and the call rejects. `GroupLeave` stops before removing the user from the cache and before any `group-leave` | a `GroupLeave(g, u)` where `u` is in the online cache of `g`; that needs `connections` to be filled, which no shown code does, so the defect is latent in the shown code | notify the leaver, remove it from the cache, tell the remaining members | not executed | ChatService.ChatService.GroupLeaveAsWritten | ChatService.ChatService.GroupLeave |
| src/services/ChatService.ts:220-221, src/services/ChatService.ts:253-254 | `NotifyGroupInvitation` and `NotifyGroup` are taken off `this`. After the join fan-out, the first call rejects, so neither list reaches the new member | any `AddUserToGroup(u, g)` | send the new member its invitation list and its group list | not executed | ChatService.ChatService.AddUserToGroupAsWritten | ChatService.ChatService.AddUserToGroup |
| src/services/MediaService.ts:98-107, src/services/MediaService.ts:112-115 | The first-video notification calls `emit` on each subscriber, but subscribers are the room clients `sub` pushes (`src/rooms/MediaRoom.ts:36`), which offer `send` and no `emit`. The first call throws, and the catch answers 500 after the video row and the playlist record are written, with nobody told | an upload of a playlist's first video while one client is subscribed to that playlist | send every subscriber one `resp` and answer 200, as the room handlers do with `send` | not executed | MediaService.MediaService.UploadRouteAsWritten | MediaService.MediaService.UploadRoute |
