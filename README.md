# Rocket.Chat omnichannel queue and server rules, modelled in Dafny

This project models the core of Rocket.Chat's omnichannel routing and a set of small server and
client rules around it.

The main part is the **queue manager** (`LivechatQueue`, QueueManager.ts):
- `requestRoom` checks that an agent is online, creates the livechat room, then its inquiry, and
  queues the inquiry.
- `unarchiveRoom` reopens a closed room and replaces its stale inquiry.
- `queueInquiry` and `saveQueueInquiry` either park an inquiry as queued (the room is missing or
  the MAC limit is reached) or hand a `ready` inquiry to the router.

How the queue manager is modelled:
- The stores are one `Store` value: rooms by id, the inquiry collection in natural order, agent
  sessions and the online-agent directory.
- Every outward call is appended to `Store.log` in call order. These are the router calls, the
  app and notification emitters, and the room and inquiry creation helpers.
- The collaborators whose code is not part of this model answer through the oracle functions of
  an `Env`.
- Each operation is specified by an `...Effect` function on `Store`.
- Class `QueueManager` performs the same steps on its fields, and each method's `ensures` ties
  its new state and result to that function.

The other modules:
- `Watchers` (watchers.module.ts) decides which change-stream event yields which broadcast. It
  covers `hasKeys`, the message watcher's real-name rewriting, every per-collection handler, and
  the watcher registration flag.
- `DirectMessage` (createDirectMessage.ts) resolves DM members, applies the self-DM rules and the
  permission fallback, and builds the returned room.
- `ProtectedRole` (createOrUpdateProtectedRole.ts) covers the update-merge and the
  insert-with-defaults of a protected role.
- `VoipRoom` (VoipRoom.ts) covers the VoIP-room finders as filters, the `closeByRoomId` update,
  and the `findRoomsWithCriteria` query builder with its matching semantics.
- `ExportOperations` (ExportOperations.ts) models the user-data export collection: the pending
  finders, `create`, `findLastOperationByUser` and `updateOperation`.
- `AccountBox` (AccountBox.ts) holds the account box's open/closed status and item list.
- `VisitorAbandonment` (setPredictedVisitorAbandonmentTime.ts) is the `afterSaveMessage` guard
  chain.
- `MigrationV316` (v316.ts) moves the cloud access token from Settings to WorkspaceCredentials.
- `MessageAction` (MessageAction.tsx) rewrites legacy icon names.
- `WebdavCredentials` (getWebdavCredentials.ts) selects WebDAV credentials.

Shared modules:
- `Wrappers` holds Option and Result.
- `Collections` holds first-match search, filter and removal at an index.
- `Js` holds JavaScript values, truthiness and `||`.

JavaScript semantics are written out where they matter:
- truthiness, and `||` returning one of its operands;
- `findIndex` giving -1 and `splice(-1, 1)` removing the last element;
- `undefined <= 0` being false;
- object spread letting later keys win;
- the default `Array.prototype.sort` placing `undefined` last.

Behaviours of the code worth noting, which the model keeps:
- createDirectMessage (apps/meteor/server/methods/createDirectMessage.ts:21-24): a `null`
  userId fails `check(userId, String)` before the `!userId` test.
  It is therefore a Match failure (`MatchFailed`), not `error-invalid-user`. Only the empty
  string reaches `error-invalid-user`.
- v316 (apps/meteor/server/startup/migrations/v316.ts:15-22): the expiry read from Settings is
  cast, not converted. After `|| new Date(0)` it is
  guaranteed truthy but not guaranteed to be a Date. The removal of its setting therefore runs
  on every non-early path, which `SettingsRemoved` states.
- findRoomsWithCriteria (apps/meteor/server/models/raw/VoipRoom.ts:151-159): a range object
  whose only bounds are empty strings (`{ start: '' }`)
  yields `ts: {}`. In MongoDB that is an equality match with the empty document, which matches
  no room.

## Model

| member | source | states |
|---|---|---|
| LivechatQueue.ServiceOnline | apps/meteor/app/livechat/server/lib/QueueManager.ts:91-99 | with no selected agent the department-online check decides; with one, the service is online iff that agent has more than zero online sessions |
| LivechatQueue.SaveQueueInquiryEffect | apps/meteor/app/livechat/server/lib/QueueManager.ts:29-42 | when the store has no inquiry with the id nothing changes and nothing is announced; otherwise only that record becomes queued (queuedAt now, takenAt cleared), followed by exactly the afterInquiryQueued callback and the change notification |
| LivechatQueue.QueuedRecord | apps/meteor/app/livechat/server/lib/QueueManager.ts:30 | the queued record keeps its id and room, has status `queued`, queuedAt now and no takenAt |
| LivechatQueue.PreRouted | apps/meteor/app/livechat/server/lib/QueueManager.ts:45-48 | delegateAgent and the beforeRouteChat callbacks run first, in that order, with the caller's default agent; rooms and agents are untouched |
| LivechatQueue.RouteRoom | apps/meteor/app/livechat/server/lib/QueueManager.ts:65 | the room under rid is the router's record, or is gone when none remains; every other room is untouched |
| LivechatQueue.QueueInquiryEffect | apps/meteor/app/livechat/server/lib/QueueManager.ts:44-67 | queueing only appends to the log, creates no room or inquiry, passes on exactly the given default agent, and fails only with `inquiry-not-found` |
| LivechatQueue.RouteOrPark | apps/meteor/app/livechat/server/lib/QueueManager.ts:49-66 | after the routing hooks only queueing, change and delegation events follow; the only failure is `inquiry-not-found`; delegateInquiry's effect on the rooms and on the inquiries (taking the inquiry) comes from the router oracle; the routing gate is RoutingAllowed (a stored room within the MAC limit, line 50) |
| LivechatQueue.QueueInquiryParksWhenNotRoutable | apps/meteor/app/livechat/server/lib/QueueManager.ts:49-56 | a missing room or a reached MAC limit parks the inquiry through saveQueueInquiry and returns normally; rooms are untouched and delegateInquiry is never called; the gate is RoutingAllowed |
| LivechatQueue.QueueInquiryDelegatesOnlyReady | apps/meteor/app/livechat/server/lib/QueueManager.ts:57-66 | on a routable room the re-read inquiry is missing iff `inquiry-not-found` is thrown; delegateInquiry is called iff its stored status is `ready`, with that record, the router's agent, no override and the room as read, and then the rooms and the inquiries are as the router leaves them and nothing is thrown; otherwise nothing else changes |
| LivechatQueue.QueueTwiceOverCapacity | apps/meteor/app/livechat/server/lib/QueueManager.ts:49-56 | queueing an unroutable inquiry twice leaves it queued both times, takenAt cleared, with non-decreasing queuedAt |
| LivechatQueue.RoomName | apps/meteor/app/livechat/server/lib/QueueManager.ts:142 | the room name is a truthy `roomInfo.fname`, else a truthy guest name, else the guest username |
| LivechatQueue.InquiryArgsOf | apps/meteor/app/livechat/server/lib/QueueManager.ts:156-163 | the inquiry is created for the same rid and room name, with the extra data minus customFields and `source` set from roomInfo |
| LivechatQueue.CreateRoomStep | apps/meteor/app/livechat/server/lib/QueueManager.ts:144-149 | creating the room logs its creation and leaves the inquiries untouched |
| LivechatQueue.CreateInquiryStep | apps/meteor/app/livechat/server/lib/QueueManager.ts:156-164 | creating the inquiry logs its creation, leaves the rooms untouched, and a re-read record is held by the store |
| LivechatQueue.AnnounceAndQueueCreateNothing | apps/meteor/app/livechat/server/lib/QueueManager.ts:170-177 | announcing the room, updating the room count and queueing the inquiry create and remove nothing |
| LivechatQueue.AnnounceStep | apps/meteor/app/livechat/server/lib/QueueManager.ts:170-175 | only the log changes: the room-started event, then the room-count notification exactly when updateRoomCount returned a setting |
| LivechatQueue.RequestRoomEffect | apps/meteor/app/livechat/server/lib/QueueManager.ts:138-140 | when the service is offline, `no-agent-online` is thrown and the stores and the log are exactly as before |
| LivechatQueue.RequestRoomAfterRoom | apps/meteor/app/livechat/server/lib/QueueManager.ts:150-168 | a room that cannot be read back throws `room-not-found` before any inquiry exists; success requires that the inquiry was read back |
| LivechatQueue.RequestRoomAfterInquiry | apps/meteor/app/livechat/server/lib/QueueManager.ts:165-186 | an inquiry that cannot be read back throws `inquiry-not-found` with no further call; later steps create nothing; success returns the room as stored at the end |
| LivechatQueue.RequestRoomCreatesRoomBeforeInquiry | apps/meteor/app/livechat/server/lib/QueueManager.ts:142-168 | with an online service, the room is created first and exactly once; `room-not-found` stops there; an inquiry is only ever created second, for the same rid, after the room was read back, and success implies it was; the room's arguments are RoomArgsOf: the requested rid, RoomName, the guest, roomInfo and the extra data |
| LivechatQueue.RequestRoomReturnsStoredRoom | apps/meteor/app/livechat/server/lib/QueueManager.ts:180-186 | a successful requestRoom returns the room the store holds under rid at the end |
| LivechatQueue.DefaultAgent | apps/meteor/app/livechat/server/lib/QueueManager.ts:214-217 | the default agent is set iff `servedBy.username` is truthy and an online agent, and then it is the server's id and username |
| LivechatQueue.UnarchiveGuest | apps/meteor/app/livechat/server/lib/QueueManager.ts:209-212 | the guest is the room's visitor, with the department overridden only by a truthy room departmentId |
| LivechatQueue.RemoveOldInquiry | apps/meteor/app/livechat/server/lib/QueueManager.ts:202-207 | without an inquiry for the room nothing changes; otherwise exactly that inquiry is removed and its removal announced |
| LivechatQueue.ReopenStep | apps/meteor/app/livechat/server/lib/QueueManager.ts:219 | unarchiving a stored room makes it open and changes no other room or inquiry |
| LivechatQueue.UnarchiveRoomEffect | apps/meteor/app/livechat/server/lib/QueueManager.ts:189-198 | no room throws `no-room-to-unarchive`; a room with no id, no closedAt or a truthy open flag is returned as given with no store change; NothingToUnarchive is that test |
| LivechatQueue.UnarchiveReopened | apps/meteor/app/livechat/server/lib/QueueManager.ts:220-240 | a reopened room that cannot be read back throws `room-not-found`; otherwise the fresh inquiry is queued with the chosen default agent and the room as re-read is returned |
| LivechatQueue.EventsAfterReopen | apps/meteor/app/livechat/server/lib/QueueManager.ts:220-237 | after reopening, the fresh inquiry's creation comes first and only queueing events follow, all with the chosen default agent; the creation's arguments are UnarchiveInquiryArgs: the room's id, fname, guest, last message and `extraData: { source }` |
| LivechatQueue.EventsUntilReopen | apps/meteor/app/livechat/server/lib/QueueManager.ts:202-219 | before the room is read back, the only events are the stale inquiry's removal (if any), then the reopening |
| LivechatQueue.UnarchiveRemovesStaleInquiryFirst | apps/meteor/app/livechat/server/lib/QueueManager.ts:202-232 | the room's stale inquiry is removed as the very first event and no other is removed; the fresh inquiry is created only after the removal and the reopening |
| LivechatQueue.UnarchiveDefaultAgent | apps/meteor/app/livechat/server/lib/QueueManager.ts:214-217 | the agent hint given to queueing is present iff the room's last server has a truthy username and is an online agent |
| LivechatQueue.UnarchiveReturnsReopenedRoom | apps/meteor/app/livechat/server/lib/QueueManager.ts:219-223 | `room-not-found` iff the store holds no such room; otherwise the result is the stored room made open |
| LivechatQueue.QueueManager.constructor | apps/meteor/app/livechat/server/lib/QueueManager.ts:90 | the manager starts over the given stores and collaborators |
| LivechatQueue.QueueManager.CheckServiceStatus | apps/meteor/app/livechat/server/lib/QueueManager.ts:91-99 | returns the department check without an agent, and otherwise whether the agent's online count is positive |
| LivechatQueue.QueueManager.SaveQueueInquiry | apps/meteor/app/livechat/server/lib/QueueManager.ts:29-42 | the new state is SaveQueueInquiryEffect of the old one |
| LivechatQueue.QueueManager.QueueInquiry | apps/meteor/app/livechat/server/lib/QueueManager.ts:44-67 | the new state and the outcome are QueueInquiryEffect of the old state |
| LivechatQueue.QueueManager.CreateRoom | apps/meteor/app/livechat/server/lib/QueueManager.ts:144-149 | the new state is CreateRoomStep of the old one |
| LivechatQueue.QueueManager.CreateInquiry | apps/meteor/app/livechat/server/lib/QueueManager.ts:156-164 | the new state and the re-read inquiry are CreateInquiryStep of the old state |
| LivechatQueue.QueueManager.Announce | apps/meteor/app/livechat/server/lib/QueueManager.ts:170-175 | the room-started event and, when updateRoomCount returns a setting, its notification are logged |
| LivechatQueue.QueueManager.RequestRoom | apps/meteor/app/livechat/server/lib/QueueManager.ts:101-187 | the new state and the outcome are RequestRoomEffect of the old state |
| LivechatQueue.QueueManager.RemoveInquiryOfRoom | apps/meteor/app/livechat/server/lib/QueueManager.ts:202-207 | the new state is RemoveOldInquiry of the old one |
| LivechatQueue.QueueManager.Reopen | apps/meteor/app/livechat/server/lib/QueueManager.ts:219 | the new state is ReopenStep of the old one |
| LivechatQueue.QueueManager.UnarchiveRoom | apps/meteor/app/livechat/server/lib/QueueManager.ts:189-241 | the new state and the outcome are UnarchiveRoomEffect of the old state |
| Watchers.FirstSegment | apps/meteor/server/modules/watchers/watchers.module.ts:56 | the part of a key before its first `.`, which is the whole key when it has none |
| Watchers.HasKeys | apps/meteor/server/modules/watchers/watchers.module.ts:47-58 | an absent document has no keys; otherwise true iff some key other than `_id`, cut at its first `.`, is required |
| Watchers.SegmentsOf | apps/meteor/server/modules/watchers/watchers.module.ts:54-56 | the segments are the first segments of the non-`_id` keys, in order |
| Watchers.FirstSegmentOfDotted | apps/meteor/server/modules/watchers/watchers.module.ts:56 | the first segment of `top.rest` is `top` when `top` has no `.` |
| Watchers.NestedKeyCounts | apps/meteor/server/modules/watchers/watchers.module.ts:54-57 | a dotted key under a required top-level key satisfies hasKeys |
| Watchers.IdOnlyHasNoKeys | apps/meteor/server/modules/watchers/watchers.module.ts:55 | a document whose only key is `_id` never has the required keys |
| Watchers.RenamedMention | apps/meteor/server/modules/watchers/watchers.module.ts:100-105 | a mention takes the user's current name when that name is non-empty and is unchanged otherwise |
| Watchers.RenamedUser | apps/meteor/server/modules/watchers/watchers.module.ts:92-97 | the sender takes the current name only when it has an id and the name is non-empty |
| Watchers.WithRealNames | apps/meteor/server/modules/watchers/watchers.module.ts:91-107 | every mention keeps its position and is renamed; nothing else in the message changes |
| Watchers.WithRealNamesIdempotent | apps/meteor/server/modules/watchers/watchers.module.ts:91-107 | filling in real names twice is filling them in once |
| Watchers.MessageBroadcasts | apps/meteor/server/modules/watchers/watchers.module.ts:78-114 | at most one broadcast and none for removals; otherwise the event's message, else the stored one, is broadcast iff it is found and shown (Shown: `_hidden !== true` and `imported == null`, line 88), with its action, and with WithRealNames applied exactly when UI_Use_Real_Name is `true` |
| Watchers.MessageWithoutRealNamesUnchanged | apps/meteor/server/modules/watchers/watchers.module.ts:88-109 | unless the real-name setting is exactly `true`, the message is broadcast exactly as read |
| Watchers.SubscriptionBroadcasts | apps/meteor/server/modules/watchers/watchers.module.ts:122-203 | inserts and updates not touching a published field are dropped; a removal goes out as the trashed record or `{_id}` |
| Watchers.RoleBroadcasts | apps/meteor/server/modules/watchers/watchers.module.ts:205-232 | an `_updatedAt`-only diff is dropped; a removal goes out as `{_id: id, name: id}`; any other event goes out as `changed` iff a record is found |
| Watchers.InquiryBroadcasts | apps/meteor/server/modules/watchers/watchers.module.ts:234-251 | a removal goes out iff a trashed record exists; an event carrying data goes out with it; the diff is passed through |
| Watchers.DepartmentAgentBroadcasts | apps/meteor/server/modules/watchers/watchers.module.ts:253-272 | the record is always re-read (the trash for a removal) and broadcast iff found |
| Watchers.PermissionBroadcasts | apps/meteor/server/modules/watchers/watchers.module.ts:274-307 | an `_updatedAt`-only diff is dropped; a removal goes out with `roles: []`; a settings-level permission with a setting id also re-announces its visible setting as `updated`, iff the setting exists |
| Watchers.PermissionData | apps/meteor/server/modules/watchers/watchers.module.ts:279-289 | a removal is `{_id, roles: []}`; otherwise the event's data, else the stored permission, and nothing iff neither exists |
| Watchers.RemovedPermissionAnnouncesNoSetting | apps/meteor/server/modules/watchers/watchers.module.ts:286-297 | a removed permission yields only the permission broadcast |
| Watchers.SettingBroadcasts | apps/meteor/server/modules/watchers/watchers.module.ts:309-334 | an `_updatedAt`-only diff is dropped; an event carrying data goes out with it; a removal without data goes out iff trashed |
| Watchers.RoomBroadcasts | apps/meteor/server/modules/watchers/watchers.module.ts:336-352 | a removal goes out as `{_id}`; other events not touching a published room field are dropped |
| Watchers.UserBroadcasts | apps/meteor/server/modules/watchers/watchers.module.ts:356-373 | a `livechatCount`-only diff is dropped; otherwise exactly one broadcast, shaped by the action; OnlyLivechatCount is the one-key `livechatCount` diff test (359-361) |
| Watchers.LoginServiceBroadcasts | apps/meteor/server/modules/watchers/watchers.module.ts:375-382 | the configuration is always re-read and broadcast iff found |
| Watchers.InstanceStatusBroadcasts | apps/meteor/server/modules/watchers/watchers.module.ts:384-391 | every event goes out once; a removal carries only the id |
| Watchers.IntegrationHistoryBroadcasts | apps/meteor/server/modules/watchers/watchers.module.ts:393-413 | removals are dropped; an insert goes out iff it carries data; an update goes out iff the stored record names its integration |
| Watchers.IntegrationBroadcasts | apps/meteor/server/modules/watchers/watchers.module.ts:415-427 | a removal carries only the id; other events go out iff a record is found |
| Watchers.EmailInboxBroadcasts | apps/meteor/server/modules/watchers/watchers.module.ts:429-441 | a removal carries only the id; other events go out iff a record is found |
| Watchers.PbxBroadcasts | apps/meteor/server/modules/watchers/watchers.module.ts:443-455 | a broadcast iff the event is an insert of a `ContactStatus` or `Hangup` record; WatchedPbxEvent is the event-name test (445-453) |
| Watchers.PriorityBroadcasts | apps/meteor/server/modules/watchers/watchers.module.ts:457-471 | a broadcast iff the event is an update whose diff has `name` and a record is found |
| Watchers.Dispatch | apps/meteor/server/modules/watchers/watchers.module.ts:122-471 | every handler but permissions yields at most one broadcast on its own channel; permissions add at most the `updated` setting |
| Watchers.UpdatedAtOnlyIsSilent | apps/meteor/server/modules/watchers/watchers.module.ts:206-209 | an `_updatedAt`-only diff is never broadcast for roles, permissions or settings; OnlyUpdatedAt is the one-key truthy `_updatedAt` diff test |
| Watchers.EveryOtherCollection | apps/meteor/server/modules/watchers/watchers.module.ts:122-471 | the registered handlers are exactly the collections other than messages |
| Watchers.WatchedCollections | apps/meteor/server/modules/watchers/watchers.module.ts:116-471 | the message watcher is registered iff db watchers are enabled; every other collection is registered once |
| Watchers.WatcherRegistry.constructor | apps/meteor/server/modules/watchers/watchers.module.ts:63 | the watchers start not running, with no handler registered |
| Watchers.WatcherRegistry.IsWatcherRunning | apps/meteor/server/modules/watchers/watchers.module.ts:64-66 | reports the started flag |
| Watchers.WatcherRegistry.InitWatchers | apps/meteor/server/modules/watchers/watchers.module.ts:116-474 | registers WatchedCollections and then sets the started flag |
| Watchers.WatcherRegistry.OnMessage | apps/meteor/server/modules/watchers/watchers.module.ts:78-114 | the in-place renaming loop over the mentions yields exactly MessageBroadcasts |
| DirectMessage.ResolveUser | apps/meteor/server/methods/createDirectMessage.ts:45-66 | a found user is a member; an unknown name without `@` is `error-invalid-user`; an unknown name with `@` is the added user, or the raw name when it cannot be added |
| DirectMessage.ResolveAll | apps/meteor/server/methods/createDirectMessage.ts:43-66 | succeeds iff every name resolves, and then the members match the names position by position |
| DirectMessage.OtherUsernames | apps/meteor/server/methods/createDirectMessage.ts:44 | exactly the names other than the caller's |
| DirectMessage.CallerNameIgnored | apps/meteor/server/methods/createDirectMessage.ts:44 | inserting the caller's own name anywhere changes nothing |
| DirectMessage.MemberIds | apps/meteor/server/methods/createDirectMessage.ts:80 | the ids of the room users, in order (a raw name has none) |
| DirectMessage.LexLeTotal | apps/meteor/server/methods/createDirectMessage.ts:80 | string order as `sort()` compares is total |
| DirectMessage.LexLeTransitive | apps/meteor/server/methods/createDirectMessage.ts:80 | string order as `sort()` compares is transitive |
| DirectMessage.IdLeTotal | apps/meteor/server/methods/createDirectMessage.ts:80 | the id order, with undefined last, is total |
| DirectMessage.IdLeTransitive | apps/meteor/server/methods/createDirectMessage.ts:80 | the id order, with undefined last, is transitive |
| DirectMessage.Insert | apps/meteor/server/methods/createDirectMessage.ts:80 | inserting into a sorted list keeps it sorted and adds exactly that id |
| DirectMessage.SortIds | apps/meteor/server/methods/createDirectMessage.ts:80 | the sorted ids are ordered and a permutation of the input |
| DirectMessage.UndefinedSortsLast | apps/meteor/server/methods/createDirectMessage.ts:80 | after an undefined id only undefined ids follow |
| DirectMessage.RoomUsers | apps/meteor/server/methods/createDirectMessage.ts:67 | the caller followed by the resolved users, or the users alone with excludeSelf |
| DirectMessage.RoomRecord | apps/meteor/server/methods/createDirectMessage.ts:83-87 | `t: 'd'` and `rid` are defaults that the room's own fields override; every room field is kept |
| DirectMessage.ExistingRoom | apps/meteor/server/methods/createDirectMessage.ts:76-94 | succeeds iff the caller has `view-d-room` and a direct room over the sorted ids exists, and then it is `{t: 'd', rid, _id}`; otherwise `error-not-allowed` |
| DirectMessage.NewRoom | apps/meteor/server/methods/createDirectMessage.ts:96-113 | fails iff the federation callback throws, with its message |
| DirectMessage.CreateDirectMessage | apps/meteor/server/methods/createDirectMessage.ts:15-114 | a null userId fails the Match check; an empty userId, an unknown caller or one without a username is `error-invalid-user`; a federation error needs `create-d` |
| DirectMessage.SelfDmDisallowed | apps/meteor/server/methods/createDirectMessage.ts:37-41 | with self-DMs disabled, a DM to exactly the caller's own name is `error-invalid-user` |
| DirectMessage.SelfDmAllowed | apps/meteor/server/methods/createDirectMessage.ts:43-67 | with self-DMs allowed, a DM to oneself has the caller as its only member |
| DirectMessage.UnknownLocalUsernameFails | apps/meteor/server/methods/createDirectMessage.ts:60-64 | any unknown name without `@` makes the whole call `error-invalid-user` |
| DirectMessage.UnaddableFederatedNameKept | apps/meteor/server/methods/createDirectMessage.ts:49-57 | an unknown name with `@` that cannot be added stays among the members as the raw string |
| DirectMessage.MembersInOrder | apps/meteor/server/methods/createDirectMessage.ts:43-67 | the members are the caller (unless excludeSelf), then the resolution of each other name, in order |
| DirectMessage.Members | apps/meteor/server/methods/createDirectMessage.ts:43-67 | succeeds iff every name other than the caller's resolves, and its only failure is `error-invalid-user` |
| DirectMessage.SingleMemberMustBeCaller | apps/meteor/server/methods/createDirectMessage.ts:70-74 | a one-member room succeeds only when that member is the caller |
| DirectMessage.WithoutCreateD | apps/meteor/server/methods/createDirectMessage.ts:76-94 | without `create-d` the result is exactly ExistingRoom over the members |
| DirectMessage.OpenSubscriptionOption | apps/meteor/server/methods/createDirectMessage.ts:96-113 | the subscription opens iff excludeSelf is set and the caller has `view-room-administration`; the result is the created room without `_id` and `inserted` |
| ProtectedRole.Merged | apps/meteor/server/lib/roles/createOrUpdateProtectedRole.ts:14-21 | each of name, scope, description and mandatory2fa is the request's value when truthy and the stored one otherwise; id and protected are kept; OrString and OrOptString are the `||` on a string and an optional string |
| ProtectedRole.InsertedRole | apps/meteor/server/lib/roles/createOrUpdateProtectedRole.ts:28-35 | the id is roleId; scope defaults to `Users`, description to `''` and mandatory2fa to false, each overridden by the request; protected is always true |
| ProtectedRole.UpsertEffect | apps/meteor/server/lib/roles/createOrUpdateProtectedRole.ts:6-38 | afterwards roleId is stored, no other role changes, and exactly one notification is appended |
| ProtectedRole.MergeNeverClears | apps/meteor/server/lib/roles/createOrUpdateProtectedRole.ts:14-21 | a falsy request field never clears a truthy stored field |
| ProtectedRole.ExistingRoleIsUpdated | apps/meteor/server/lib/roles/createOrUpdateProtectedRole.ts:14-25 | an existing role is merged in place, no role is added, and `updated` is announced |
| ProtectedRole.MissingRoleIsInserted | apps/meteor/server/lib/roles/createOrUpdateProtectedRole.ts:28-37 | a missing role is inserted under roleId, protected, with the defaults for absent fields, and `inserted` is announced |
| ProtectedRole.UpsertTwiceKeepsRole | apps/meteor/server/lib/roles/createOrUpdateProtectedRole.ts:14-35 | repeating the call with the same data after an insert leaves the roles unchanged |
| ProtectedRole.RoleStore.constructor | apps/meteor/server/lib/roles/createOrUpdateProtectedRole.ts:10-12 | the store starts with the given roles and notifications |
| ProtectedRole.RoleStore.CreateOrUpdateProtectedRole | apps/meteor/server/lib/roles/createOrUpdateProtectedRole.ts:6-38 | the new state is UpsertEffect of the old one |
| WebdavCredentials.GetWebdavCredentials | apps/meteor/app/webdav/server/lib/getWebdavCredentials.ts:3-11 | a truthy token yields only that token; otherwise the account's username and password |
| WebdavCredentials.TokenOrPassword | apps/meteor/app/webdav/server/lib/getWebdavCredentials.ts:4-9 | a token and a password are never returned together, and every returned field is copied from the account |
| WebdavCredentials.SelectionIdempotent | apps/meteor/app/webdav/server/lib/getWebdavCredentials.ts:4-9 | selecting from selected credentials returns them unchanged |
| MessageAction.StripPrefix | apps/meteor/client/components/message/content/actions/MessageAction.tsx:13 | a leading `icon-` is removed once; other names are unchanged |
| MessageAction.ResolveLegacyIcon | apps/meteor/client/components/message/content/actions/MessageAction.tsx:8-14 | `icon-videocam` becomes `video`; every other name loses one leading `icon-`; an absent name stays absent |
| MessageAction.PrefixRoundTrip | apps/meteor/client/components/message/content/actions/MessageAction.tsx:9-13 | prefixing any name but `videocam` with `icon-` and resolving gives the name back |
| MessageAction.UnprefixedUnchanged | apps/meteor/client/components/message/content/actions/MessageAction.tsx:13 | names without the prefix are returned unchanged |
| MessageAction.OnlyOnePrefix | apps/meteor/client/components/message/content/actions/MessageAction.tsx:13 | `icon-icon-x` becomes `icon-x`, because the pattern is anchored and not global |
| VoipRoom.FindOne | apps/meteor/server/models/raw/VoipRoom.ts:17-83 | findOne returns the first matching room in natural order, and nothing iff no room matches; the filters OpenByVisitorToken, OpenByAgentId, VoipRoomById, OpenByRoomIdAndVisitorToken, ByVisitorToken and ByIdAndVisitorToken are the six queries |
| VoipRoom.FindOneOpenByVisitorToken | apps/meteor/server/models/raw/VoipRoom.ts:17-24 | a VoIP room that is open and has the visitor token, or nothing iff none exists |
| VoipRoom.FindOpenByAgentId | apps/meteor/server/models/raw/VoipRoom.ts:26-32 | exactly the open VoIP rooms served by the agent, each as often as stored |
| VoipRoom.FindOneByAgentId | apps/meteor/server/models/raw/VoipRoom.ts:34-40 | an open VoIP room served by the agent, or nothing iff none exists |
| VoipRoom.FindOneVoipRoomById | apps/meteor/server/models/raw/VoipRoom.ts:42-48 | the VoIP room with the id, or nothing iff none exists |
| VoipRoom.FindOneOpenByRoomIdAndVisitorToken | apps/meteor/server/models/raw/VoipRoom.ts:50-62 | an open VoIP room with the id and the visitor token, or nothing iff none exists |
| VoipRoom.FindOneByVisitorToken | apps/meteor/server/models/raw/VoipRoom.ts:64-70 | a VoIP room with the visitor token, open or not, or nothing iff none exists |
| VoipRoom.FindOneByIdAndVisitorToken | apps/meteor/server/models/raw/VoipRoom.ts:72-83 | a VoIP room with the id and the visitor token, open or not, or nothing iff none exists |
| VoipRoom.OpenTokenRoomFoundByToken | apps/meteor/server/models/raw/VoipRoom.ts:17-70 | whenever the open-room finder finds a room the plain token finder finds one too, and the same one when no closed VoIP room with the token comes before the first open one |
| VoipRoom.CloseSet | apps/meteor/server/models/raw/VoipRoom.ts:86-102 | the five closing fields, `metrics.serviceTimeDuration` and `v.status: 'offline'` are set; other closeInfo fields are copied over them, and no other path is set |
| VoipRoom.Closed | apps/meteor/server/models/raw/VoipRoom.ts:93-106 | the closed room has the old fields plus the set paths, without `open` |
| VoipRoom.CloseEffect | apps/meteor/server/models/raw/VoipRoom.ts:85-108 | the collection keeps its length and is unchanged when no VoIP room has the id |
| VoipRoom.CloseClosesOne | apps/meteor/server/models/raw/VoipRoom.ts:85-108 | exactly one room, the first VoIP room with the id, is replaced by its closed form |
| VoipRoom.ClosedRoomState | apps/meteor/server/models/raw/VoipRoom.ts:93-106 | a closed room is not open, its visitor is offline unless closeInfo says otherwise, its closedAt comes from closeInfo, and it stays a VoIP room |
| VoipRoom.ClosedRoomNotOpen | apps/meteor/server/models/raw/VoipRoom.ts:85-108 | after closing, the room is not matched by the open-room finders |
| VoipRoom.BoundsOf | apps/meteor/server/models/raw/VoipRoom.ts:151-168 | `$gte` is set iff start is truthy and `$lte` iff end is, each to the parsed date |
| VoipRoom.CriteriaQuery | apps/meteor/server/models/raw/VoipRoom.ts:138-180 | the query is for `t: 'v'`; `v._id` is set iff visitorId is truthy and not `'undefined'`; a range without keys adds no constraint |
| VoipRoom.FindOptionsOf | apps/meteor/server/models/raw/VoipRoom.ts:182-186 | the sort defaults to name ascending; offset and count become skip and limit |
| VoipRoom.CriteriaOnlyVoip | apps/meteor/server/models/raw/VoipRoom.ts:138-140 | every room the criteria match is a VoIP room |
| VoipRoom.AgentsMatchIdOrUsername | apps/meteor/server/models/raw/VoipRoom.ts:142-144 | a room meets the criteria with `agents` iff it meets the other criteria and its server id or its server username is in the agent list |
| VoipRoom.OpenIsExistence | apps/meteor/server/models/raw/VoipRoom.ts:145-147 | `open: false` matches exactly the otherwise matching rooms that lack the field |
| VoipRoom.VisitorIdIgnored | apps/meteor/server/models/raw/VoipRoom.ts:148-150 | a falsy or `'undefined'` visitorId gives the same query as none |
| VoipRoom.EmptyRangeIgnored | apps/meteor/server/models/raw/VoipRoom.ts:151-168 | empty range objects give the same query as no ranges |
| VoipRoom.CreatedAtRangeInclusive | apps/meteor/server/models/raw/VoipRoom.ts:151-159 | with both bounds, exactly the rooms created between them match, both ends included |
| VoipRoom.CreatedAtStartOnly | apps/meteor/server/models/raw/VoipRoom.ts:151-159 | with only a start, only the lower bound applies |
| VoipRoom.NoCriteriaAllVoip | apps/meteor/server/models/raw/VoipRoom.ts:138-180 | with no criteria, exactly the VoIP rooms match |
| VoipRoom.VoipRoomStore.constructor | apps/meteor/server/models/raw/VoipRoom.ts:10-13 | the collection starts with the given rooms |
| VoipRoom.VoipRoomStore.CloseByRoomId | apps/meteor/server/models/raw/VoipRoom.ts:85-108 | the collection becomes CloseEffect of the old one; one record is matched iff a VoIP room has the id |
| VoipRoom.VoipRoomStore.BuildBounds | apps/meteor/server/models/raw/VoipRoom.ts:152-158 | the step-by-step bounds equal BoundsOf |
| VoipRoom.VoipRoomStore.ApplyPartyCriteria | apps/meteor/server/models/raw/VoipRoom.ts:142-150 | the agent, open and visitor fields are set as CriteriaQuery sets them |
| VoipRoom.VoipRoomStore.ApplyDateCriteria | apps/meteor/server/models/raw/VoipRoom.ts:151-168 | the range fields are set as CriteriaQuery sets them |
| VoipRoom.VoipRoomStore.ApplyRoomCriteria | apps/meteor/server/models/raw/VoipRoom.ts:169-180 | the tag, queue, direction and name fields are set as CriteriaQuery sets them |
| VoipRoom.VoipRoomStore.FindRoomsWithCriteria | apps/meteor/server/models/raw/VoipRoom.ts:110-187 | the query built field by field is CriteriaQuery, and the options are FindOptionsOf |
| ExportOperations.FindOnePending | apps/meteor/server/models/raw/ExportOperations.ts:17-23 | the first operation whose status is neither `completed` nor `skipped`, and nothing iff there is none; Pending is the `$nin` test |
| ExportOperations.FindLastOperationByUser | apps/meteor/server/models/raw/ExportOperations.ts:34-41 | an operation with the userId and fullExport value that has the greatest createdAt, and nothing iff none matches; ByUser is the `{ userId, fullExport }` test, which a record without fullExport never meets |
| ExportOperations.FindAllPendingBeforeMyRequest | apps/meteor/server/models/raw/ExportOperations.ts:43-50 | exactly the pending operations created strictly before requestDay, each as often as stored |
| ExportOperations.CreateEffect | apps/meteor/server/models/raw/ExportOperations.ts:25-32 | a duplicate `_id` is rejected; otherwise the data is appended with createdAt set to now |
| ExportOperations.Updated | apps/meteor/server/models/raw/ExportOperations.ts:53-67 | the eleven listed fields come from data; id, userId, fullExport and createdAt are kept |
| ExportOperations.UpdateEffect | apps/meteor/server/models/raw/ExportOperations.ts:52-70 | the first record with data's id becomes Updated(record, data), every other record is untouched, and with no such record nothing changes |
| ExportOperations.UpdateKeepsIdentity | apps/meteor/server/models/raw/ExportOperations.ts:52-70 | every record keeps its id, userId, fullExport and createdAt, and records with other ids are untouched |
| ExportOperations.UpdateUnknownIdNoop | apps/meteor/server/models/raw/ExportOperations.ts:69 | an update with no matching id changes nothing |
| ExportOperations.CompletedNotPending | apps/meteor/server/models/raw/ExportOperations.ts:43-70 | once marked completed or skipped, an operation is no longer among the pending ones |
| ExportOperations.CreatedIsLast | apps/meteor/server/models/raw/ExportOperations.ts:25-41 | an operation created later than every stored one is found as the user's last |
| ExportOperations.CreateStampsNow | apps/meteor/server/models/raw/ExportOperations.ts:25-32 | the created record has createdAt now, whatever the data said, and keeps its id |
| ExportOperations.WritesKeepIdsUnique | apps/meteor/server/models/raw/ExportOperations.ts:25-70 | create and updateOperation keep `_id` unique |
| ExportOperations.ExportOperationsStore.constructor | apps/meteor/server/models/raw/ExportOperations.ts:8-11 | the collection starts with the given operations |
| ExportOperations.ExportOperationsStore.Create | apps/meteor/server/models/raw/ExportOperations.ts:25-32 | returns the inserted id and applies CreateEffect, or the duplicate-key error with nothing changed |
| ExportOperations.ExportOperationsStore.UpdateOperation | apps/meteor/server/models/raw/ExportOperations.ts:52-70 | applies UpdateEffect and reports one match iff the id is stored |
| AccountBox.OpenEffect | apps/meteor/app/ui-utils/client/lib/AccountBox.ts:31-37 | with the flex open only closeFlex is called and the status is kept; otherwise the status becomes 1 |
| AccountBox.CloseEffect | apps/meteor/app/ui-utils/client/lib/AccountBox.ts:39-52 | the status becomes 0 and nothing else changes |
| AccountBox.ToggleEffect | apps/meteor/app/ui-utils/client/lib/AccountBox.ts:43-48 | a nonzero status closes; status 0 opens, or only closes the flex when it is open |
| AccountBox.AddItemEffect | apps/meteor/app/ui-utils/client/lib/AccountBox.ts:54-60 | the item is appended at the end and the rest is kept |
| AccountBox.DeleteItemEffect | apps/meteor/app/ui-utils/client/lib/AccountBox.ts:62-69 | the first item with the same appId is removed; when none matches, the last item is removed; an empty list stays empty; SameApp is the `appId ===` test (line 65) |
| AccountBox.ToggleIsCloseOrOpen | apps/meteor/app/ui-utils/client/lib/AccountBox.ts:43-48 | toggle is close from a nonzero status and open from status 0 |
| AccountBox.ToggleTwiceCloses | apps/meteor/app/ui-utils/client/lib/AccountBox.ts:31-48 | with the flex shut, toggling a closed box twice restores it |
| AccountBox.DeleteUndoesAdd | apps/meteor/app/ui-utils/client/lib/AccountBox.ts:54-69 | deleting right after adding an item with a new appId restores the list |
| AccountBox.DeleteUnmatchedDropsLast | apps/meteor/app/ui-utils/client/lib/AccountBox.ts:65-66 | deleting an unmatched item still drops the last item |
| AccountBox.DeleteRemovesFirstMatch | apps/meteor/app/ui-utils/client/lib/AccountBox.ts:65-66 | only the first matching item is removed, and the others keep their order |
| AccountBox.SideNav.constructor | apps/meteor/app/ui-utils/client/lib/AccountBox.ts:32-33 | the side-nav flex starts with the given open flag and no closeFlex call |
| AccountBox.SideNav.CloseFlex | apps/meteor/app/ui-utils/client/lib/AccountBox.ts:33 | one closeFlex call is recorded |
| AccountBox.AccountBoxBase.constructor | apps/meteor/app/ui-utils/client/lib/AccountBox.ts:22-25 | the box starts closed with no items |
| AccountBox.AccountBoxBase.Open | apps/meteor/app/ui-utils/client/lib/AccountBox.ts:31-37 | the new state is OpenEffect of the old one |
| AccountBox.AccountBoxBase.Close | apps/meteor/app/ui-utils/client/lib/AccountBox.ts:39-41 | the new state is CloseEffect of the old one |
| AccountBox.AccountBoxBase.Toggle | apps/meteor/app/ui-utils/client/lib/AccountBox.ts:43-48 | the new state is ToggleEffect of the old one |
| AccountBox.AccountBoxBase.OpenFlex | apps/meteor/app/ui-utils/client/lib/AccountBox.ts:50-52 | the new state is CloseEffect of the old one |
| AccountBox.AccountBoxBase.AddItem | apps/meteor/app/ui-utils/client/lib/AccountBox.ts:54-60 | the items become AddItemEffect of the old ones |
| AccountBox.AccountBoxBase.DeleteItem | apps/meteor/app/ui-utils/client/lib/AccountBox.ts:62-69 | splice at the findIndex result, counting a negative start from the end, gives DeleteItemEffect |
| AccountBox.AccountBoxBase.GetItems | apps/meteor/app/ui-utils/client/lib/AccountBox.ts:71-73 | exactly the stored items that pass the dropdown filters, each as often as stored |
| VisitorAbandonment.AfterSaveMessage | apps/meteor/ee/app/livechat-enterprise/server/hooks/setPredictedVisitorAbandonmentTime.ts:9-39 | the message is always returned unchanged, and any recomputation is for the given room |
| VisitorAbandonment.PredictsExactlyForAgentMessages | apps/meteor/ee/app/livechat-enterprise/server/hooks/setPredictedVisitorAbandonmentTime.ts:10-37 | the time is recomputed iff the room is omnichannel, abandonment is on, the message is not edited, the room has a visitor token, the message has no type and no token; AbandonmentOff and TimeoutDisabled are the settings test at 14-18 |
| VisitorAbandonment.NonOmnichannelIgnored | apps/meteor/ee/app/livechat-enterprise/server/hooks/setPredictedVisitorAbandonmentTime.ts:10-12 | nothing happens for a non-omnichannel room |
| VisitorAbandonment.UnsetTimeoutKeepsHandling | apps/meteor/ee/app/livechat-enterprise/server/hooks/setPredictedVisitorAbandonmentTime.ts:14-20 | an unset timeout does not disable the hook (`undefined <= 0` is false), while a zero timeout does |
| VisitorAbandonment.VisitorMessageIgnored | apps/meteor/ee/app/livechat-enterprise/server/hooks/setPredictedVisitorAbandonmentTime.ts:34-37 | a message with a visitor token never triggers the recomputation |
| MigrationV316.ExpirationDateOf | apps/meteor/server/startup/migrations/v316.ts:15 | the expiry is always truthy |
| MigrationV316.UpEffect | apps/meteor/server/startup/migrations/v316.ts:8-30 | an existing default-scope credential means no change; otherwise a credential with scope `''`, the resolved token and the resolved expiry is written |
| MigrationV316.DefaultsWhenMissing | apps/meteor/server/startup/migrations/v316.ts:14-15 | with both settings missing, the token is `''` and the expiry is the epoch |
| MigrationV316.AccessTokenOf | apps/meteor/server/startup/migrations/v316.ts:14 | the stored token when it is truthy, and `''` otherwise |
| MigrationV316.SettingsRemoved | apps/meteor/server/startup/migrations/v316.ts:17-23 | the token setting is removed iff the token is truthy, the expiry setting always, and no other setting changes |
| MigrationV316.UpIdempotent | apps/meteor/server/startup/migrations/v316.ts:9-12 | running the migration twice is running it once |
| MigrationV316.OtherScopesUntouched | apps/meteor/server/startup/migrations/v316.ts:25-29 | only the default scope's credential is written |
| MigrationV316.Migration.constructor | apps/meteor/server/startup/migrations/v316.ts:5-8 | the migration starts over the given settings and credentials |
| MigrationV316.Migration.Up | apps/meteor/server/startup/migrations/v316.ts:8-30 | the new stores are UpEffect of the old ones |

## Left out

- Collaborators of the queue manager are oracles in `Env`. Their code is not part of this
  model. They are the routing manager (`delegateAgent`, `delegateInquiry`), the MAC-limit check,
  the department-online check, `createLivechatRoom`, `createLivechatInquiry` and
  `updateRoomCount`. Apps events, callbacks and notifications are recorded in the log; the
  `logger.debug` and `logger.error` calls are left out.
- The oracles in `Env` and `DmEnv` are total functions, so a throw from `createLivechatRoom`,
  `createLivechatInquiry`, `delegateAgent`, `delegateInquiry` or `createRoom` is not modelled.
  The throws that are modelled are the federation callback's, which fails the call, and
  `addUser`'s, which the code catches.
- `LivechatInquiry.queueInquiry`, `removeByRoomId` and `LivechatRooms.unarchiveOneById` are store
  internals whose code is not part of this model. They are modelled as: set the record queued
  with queuedAt now and takenAt cleared, or return nothing when the id is absent; delete the
  room's first inquiry; set the room open.
- The inquiry collection as the routing hooks leave it is an oracle (`Env.routingHooks`),
  because delegateAgent and the beforeRouteChat callbacks may change it.
- What `delegateInquiry` does to the stores is an oracle too: the room it leaves
  (`Env.routedRoom`) and the inquiry collection it leaves (`Env.routedInquiries`, where the
  router takes the inquiry). The model promises nothing about either beyond what they return.
- The Meteor `check`/`Match` shape validation of the guest is carried by the field types of
  `Guest`.
- `rid = Random.id()` is a parameter: the request carries the room id to use.
- Concurrency: `await` interleavings and concurrent requestRoom/unarchiveRoom races are not
  modelled. Each operation is one sequential step, and fire-and-forget calls are log entries.
- The watchers' `mem` caches (10-second TTL) and the `DatabaseWatcher` subscription are left
  out. The cached setting and user-name lookups are oracles in `Lookups`.
- The watchers' `roomFields` and `subscriptionFields` lists are parameters, because
  publishFields is not part of this model.
- createDirectMessage: these are oracles; their code is not part of this model.
  - `Users.findOneById` and `findOneByUsernameIgnoringCase`, so case-insensitive lookup is the
    oracle's business.
  - `addUser`.
  - `hasPermission`, as a set of granted permissions.
  - `findOneDirectRoomContainingAllUserIDs`.
  - the federation callback.
  - `createRoom`.
- createDirectMessage: side effects of `addUser` calls made before a later name throws are not
  modelled.
- DirectMessage.SortIds: compares strings by code point, where JavaScript's default sort
  compares UTF-16 code units. The two orders differ only for characters outside the Basic
  Multilingual Plane.
- VoipRoom: `new Date(string)` parsing and the case-insensitive `escapeRegExp`/RegExp match of
  the room name are oracles (`QueryEnv.parseDate`, `QueryEnv.lower`).
- VoipRoom: cursor execution (applying sort, skip and limit) is not modelled. Only the options
  handed to `find` are.
- VoipRoom: documents are flat maps from dotted paths to values, so setting a parent path does
  not drop its children's entries. `$set` of an `undefined` value is modelled as setting
  `undefined`.
- VoipRoom: a present-but-undefined key in a range object is treated as absent.
- ProtectedRole: a present-but-undefined `roleData` key is treated as absent.
- ProtectedRole: `Roles.updateById` and `insertOne` are modelled as map updates.
  `notifyListenerOnRoleChanges` is recorded as a notification.
- ExportOperations.FindLastOperationByUser: ties in createdAt go to the first record in natural
  order. MongoDB leaves the order of equal sort keys unspecified.
- ExportOperations: dates are integers (epoch milliseconds), and `new Date()` is a parameter.
- AccountBox: `SideNav.flexStatus`/`closeFlex` are modelled as the `SideNav` class, because
  SideNav.ts is not part of this model.
- AccountBox: `applyDropdownActionButtonFilters` is the `visible` parameter of `GetItems`.
- AccountBox: `setStatus` (a Meteor call), `addRoute` (FlowRouter, Session, Tracker) and the
  reactive-variable plumbing are left out.
- VisitorAbandonment: `isOmnichannelRoom` and `isEditedMessage` are fields of the inputs.
  `setPredictedVisitorAbandonmentTime` is the `predictFor` outcome, not a call.
- MigrationV316: `getCredentialByScope`/`updateCredentialByScope` are a map keyed by scope,
  whose default scope is `''`. `Settings.getValueById`/`removeById` are a map.
- Numbers: NaN and floating point are not modelled. Timeouts, statuses and durations are
  integers.
- UI components, end-to-end browser tests, service bootstraps and `packages/livechat` random
  generation are outside the modelled core.
