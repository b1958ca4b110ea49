/**
 * The database change-stream watchers (apps/meteor/server/modules/watchers/watchers.module.ts):
 * for each change event of a watched collection, whether it is broadcast, on which channel and
 * with which payload.
 *
 * A document is a sequence of (key, value) pairs in the order `Object.keys` yields them. The
 * store lookups a handler makes (`findOneById`, `trashFindOneById`, the cached setting and user
 * name) are answered by the oracles of a `Lookups` value.
 */
module Watchers {
  import opened Wrappers
  import opened Collections
  import Js

  /** A document (or a diff) as its own enumerable properties in key order. */
  type Doc = seq<(string, Js.Value)>

  /** `Object.keys(doc)`. */
  function Keys(d: Doc): (keys: seq<string>)
    ensures |keys| == |d| && forall i :: 0 <= i < |d| ==> keys[i] == d[i].0
  {
    seq(|d|, i requires 0 <= i < |d| => d[i].0)
  }

  /** `key in doc`. */
  predicate HasKey(d: Doc, key: string) {
    exists i :: 0 <= i < |d| && d[i].0 == key
  }

  /** `doc[key]`: the value of the first property with that key, else `undefined`. */
  function Get(d: Doc, key: string): Js.Value {
    match FirstIndex(d, (p: (string, Js.Value)) => p.0 == key)
    case None => Js.Undefined
    case Some(i) => d[i].1
  }

  /** `a || b` on optional documents: a present document is an object, hence truthy. */
  function OrDoc(a: Option<Doc>, b: Option<Doc>): Option<Doc> {
    if a.Some? then a else b
  }

  /** `{ _id: id }`. */
  function IdDoc(id: string): Doc {
    [("_id", Js.Str(id))]
  }

  // ---------------------------------------------------------------------------------------------
  // hasKeys

  /** `key.split('.')[0]`: the key up to its first `.`. */
  function FirstSegment(key: string): (seg: string)
    ensures Js.StartsWith(key, seg) && '.' !in seg
    ensures |seg| < |key| ==> key[|seg|] == '.'
    ensures '.' !in key ==> seg == key
  {
    if |key| == 0 || key[0] == '.' then ""
    else [key[0]] + FirstSegment(key[1..])
  }

  /** `keys.some((key) => required.includes(key))`. */
  function SomeIn(keys: seq<string>, required: seq<string>): (b: bool)
    ensures b <==> exists i :: 0 <= i < |keys| && keys[i] in required
  {
    if |keys| == 0 then false
    else keys[0] in required || SomeIn(keys[1..], required)
  }

  /** The first segments of the keys other than `_id`, in key order. */
  function Segments(d: Doc): seq<string> {
    var kept := Filter(Keys(d), (k: string) => k != "_id");
    seq(|kept|, i requires 0 <= i < |kept| => FirstSegment(kept[i]))
  }

  /** A segment comes from some key other than `_id`, and every such key yields one. */
  lemma SegmentsOf(d: Doc)
    ensures forall s :: s in Segments(d) <==> exists i :: 0 <= i < |d| && d[i].0 != "_id" && FirstSegment(d[i].0) == s
  {
    var kept := Filter(Keys(d), (k: string) => k != "_id");
    var segs := Segments(d);
    forall i | 0 <= i < |d| && d[i].0 != "_id" ensures FirstSegment(d[i].0) in segs {
      assert Keys(d)[i] in kept;
      var j :| 0 <= j < |kept| && kept[j] == d[i].0;
      assert segs[j] == FirstSegment(d[i].0);
    }
    forall s | s in segs ensures exists i :: 0 <= i < |d| && d[i].0 != "_id" && FirstSegment(d[i].0) == s {
      var j :| 0 <= j < |segs| && segs[j] == s;
      assert kept[j] in Keys(d);
      var i :| 0 <= i < |d| && Keys(d)[i] == kept[j];
      assert d[i].0 != "_id" && FirstSegment(d[i].0) == s;
    }
  }

  /**
   * hasKeys(required)(data): an absent document has none of the keys; otherwise some key other
   * than `_id`, cut at its first `.`, is one of the required keys.
   */
  function HasKeys(required: seq<string>, data: Option<Doc>): (b: bool)
    ensures data.None? ==> !b
    ensures b <==> data.Some? && exists i :: 0 <= i < |data.value| && data.value[i].0 != "_id" && FirstSegment(data.value[i].0) in required
  {
    match data
    case None => false
    case Some(d) =>
      SegmentsOf(d);
      assert SomeIn(Segments(d), required) <==> exists s :: s in Segments(d) && s in required;
      SomeIn(Segments(d), required)
  }

  /** The first segment of `top.rest` is `top` when `top` has no `.`. */
  lemma {:induction false} FirstSegmentOfDotted(top: string, rest: string)
    requires '.' !in top
    ensures FirstSegment(top + "." + rest) == top
  {
    var key := top + "." + rest;
    if |top| == 0 {
      assert key[0] == '.';
    } else {
      assert key[0] == top[0] && key[1..] == top[1..] + "." + rest;
      FirstSegmentOfDotted(top[1..], rest);
      assert [top[0]] + top[1..] == top;
    }
  }

  /** A key whose dotted path starts with a required key counts, whatever follows the first `.`. */
  lemma NestedKeyCounts(required: seq<string>, d: Doc, top: string, rest: string)
    requires top in required && top != "_id" && '.' !in top
    requires HasKey(d, top + "." + rest)
    ensures HasKeys(required, Some(d))
  {
    var i :| 0 <= i < |d| && d[i].0 == top + "." + rest;
    FirstSegmentOfDotted(top, rest);
    assert d[i].0 != "_id" by {
      assert d[i].0[|top|] == '.';
    }
  }

  /** A document whose only key is `_id` never has the required keys. */
  lemma IdOnlyHasNoKeys(required: seq<string>, id: string)
    ensures !HasKeys(required, Some(IdDoc(id)))
  {
  }

  // ---------------------------------------------------------------------------------------------
  // Events and broadcasts

  datatype Action = Inserted | Updated | Removed

  /** The role channel's own actions. */
  datatype RoleAction = RoleChanged | RoleRemoved

  /** One change event of a watched collection. */
  datatype ChangeEvent = ChangeEvent(action: Action, id: string, data: Option<Doc>, diff: Option<Doc>, unset: Option<Doc>)

  /** A user referenced by a message, and a user mentioned in it. */
  datatype MessageUser = MessageUser(id: Option<string>, name: Option<string>)
  datatype Mention = Mention(id: string, name: Option<string>)

  /** The message fields the message watcher reads or rewrites; `fields` holds the rest. */
  datatype Message = Message(
    id: string,
    hidden: Js.Value,
    imported: Js.Value,
    u: Option<MessageUser>,
    mentions: Option<seq<Mention>>,
    fields: Doc)

  /** A change event of the messages collection. */
  datatype MessageEvent = MessageEvent(action: Action, id: string, data: Option<Message>)

  /** The watched collections, in the order initWatchers registers them. */
  datatype Collection =
    | Messages | Subscriptions | Roles | Inquiries | DepartmentAgents | Permissions | Settings | Rooms
    | Users | LoginServiceConfigurations | InstanceStatuses | IntegrationHistories | Integrations
    | EmailInboxes | PbxEvents | Priorities

  /** One broadcast, by channel. */
  datatype Broadcast =
    | WatchMessages(action: Action, message: Message)
    | WatchSubscriptions(action: Action, subscription: Doc)
    | WatchRoles(roleAction: RoleAction, role: Doc)
    | WatchInquiries(action: Action, inquiry: Doc, diff: Option<Doc>)
    | WatchDepartmentAgents(action: Action, id: string, data: Doc, diff: Option<Doc>)
    | PermissionChanged(action: Action, data: Doc)
    | WatchSettings(action: Action, setting: Doc)
    | WatchRooms(action: Action, room: Doc)
    | WatchUsersRemoved(id: string)
    | WatchUsersInserted(id: string, userData: Option<Doc>)
    | WatchUsersUpdated(id: string, diff: Option<Doc>, unset: Option<Doc>)
    | WatchLoginServiceConfiguration(action: Action, id: string, data: Doc)
    | WatchInstanceStatus(action: Action, id: string, status: Option<Doc>, diff: Option<Doc>)
    | WatchIntegrationHistory(action: Action, id: string, data: Doc, diff: Option<Doc>)
    | WatchIntegrations(action: Action, id: string, data: Doc)
    | WatchEmailInbox(action: Action, id: string, data: Doc)
    | WatchPbxEvents(action: Action, id: string, data: Doc)
    | WatchPriorities(action: Action, id: string, data: Doc, diff: Option<Doc>)

  /** The answers of the stores the handlers read; projections are part of each answer. */
  datatype Lookups = Lookups(
    // Model.findOneById (or findOne by id) on a collection
    find: (Collection, string) -> Option<Doc>,
    // Model.trashFindOneById on a collection
    trash: (Collection, string) -> Option<Doc>,
    // Messages.findOneById
    findMessage: string -> Option<Message>,
    // Settings.findOneNotHiddenById(settingId)
    settingNotHidden: Js.Value -> Option<Doc>,
    // the cached value of the setting UI_Use_Real_Name
    useRealNameSetting: Js.Value,
    // the cached name of a user, by id
    userName: string -> Option<string>,
    // Object.keys(roomFields) and Object.keys(subscriptionFields)
    roomFields: seq<string>,
    subscriptionFields: seq<string>)

  /** Every broadcast of `r` goes out on the channel of `c`. */
  predicate OnChannel(r: seq<Broadcast>, c: Collection) {
    forall b :: b in r ==> ChannelOf(b) == c
  }

  /** A diff whose only key is `_updatedAt`, with a truthy value. */
  predicate OnlyUpdatedAt(diff: Option<Doc>) {
    diff.Some? && |Keys(diff.value)| == 1 && Js.Truthy(Get(diff.value, "_updatedAt"))
  }

  /** A diff whose only key is `livechatCount`. */
  predicate OnlyLivechatCount(diff: Option<Doc>) {
    diff.Some? && |Keys(diff.value)| == 1 && HasKey(diff.value, "livechatCount")
  }

  /** The channel a broadcast goes out on. */
  function ChannelOf(b: Broadcast): Collection {
    match b
    case WatchMessages(_, _) => Messages
    case WatchSubscriptions(_, _) => Subscriptions
    case WatchRoles(_, _) => Roles
    case WatchInquiries(_, _, _) => Inquiries
    case WatchDepartmentAgents(_, _, _, _) => DepartmentAgents
    case PermissionChanged(_, _) => Permissions
    case WatchSettings(_, _) => Settings
    case WatchRooms(_, _) => Rooms
    case WatchUsersRemoved(_) => Users
    case WatchUsersInserted(_, _) => Users
    case WatchUsersUpdated(_, _, _) => Users
    case WatchLoginServiceConfiguration(_, _, _) => LoginServiceConfigurations
    case WatchInstanceStatus(_, _, _, _) => InstanceStatuses
    case WatchIntegrationHistory(_, _, _, _) => IntegrationHistories
    case WatchIntegrations(_, _, _) => Integrations
    case WatchEmailInbox(_, _, _) => EmailInboxes
    case WatchPbxEvents(_, _, _) => PbxEvents
    case WatchPriorities(_, _, _, _) => Priorities
  }

  // ---------------------------------------------------------------------------------------------
  // messageWatcher

  /** A mention with the user's current name, when that name is non-empty. */
  function RenamedMention(m: Mention, userName: string -> Option<string>): (r: Mention)
    ensures r.id == m.id
    ensures Js.TruthyStr(userName(m.id)) ==> r.name == userName(m.id)
    ensures !Js.TruthyStr(userName(m.id)) ==> r == m
  {
    if Js.TruthyStr(userName(m.id)) then m.(name := userName(m.id)) else m
  }

  /** The sender with the user's current name, when it has an id and that user's name is non-empty. */
  function RenamedUser(u: Option<MessageUser>, userName: string -> Option<string>): (r: Option<MessageUser>)
    ensures r.Some? <==> u.Some?
    ensures u.Some? ==> r.value.id == u.value.id
    ensures u.Some? && Js.TruthyStr(u.value.id) && Js.TruthyStr(userName(u.value.id.value)) ==> r.value.name == userName(u.value.id.value)
    ensures !(u.Some? && Js.TruthyStr(u.value.id) && Js.TruthyStr(userName(u.value.id.value))) ==> r == u
  {
    if u.Some? && Js.TruthyStr(u.value.id) && Js.TruthyStr(userName(u.value.id.value))
    then Some(u.value.(name := userName(u.value.id.value)))
    else u
  }

  /** The message with real names filled in: the sender's and each mention's, in place. */
  function WithRealNames(m: Message, userName: string -> Option<string>): (r: Message)
    ensures r.id == m.id && r.hidden == m.hidden && r.imported == m.imported && r.fields == m.fields
    ensures r.u == RenamedUser(m.u, userName)
    ensures r.mentions.Some? <==> m.mentions.Some?
    ensures m.mentions.Some? ==>
      && |r.mentions.value| == |m.mentions.value|
      && forall i :: 0 <= i < |m.mentions.value| ==> r.mentions.value[i] == RenamedMention(m.mentions.value[i], userName)
  {
    m.(u := RenamedUser(m.u, userName),
       mentions := match m.mentions
         case None => None
         case Some(ms) => Some(seq(|ms|, i requires 0 <= i < |ms| => RenamedMention(ms[i], userName))))
  }

  /** Filling in real names twice is filling them in once. */
  lemma {:induction false} WithRealNamesIdempotent(m: Message, userName: string -> Option<string>)
    ensures WithRealNames(WithRealNames(m, userName), userName) == WithRealNames(m, userName)
  {
    var once := WithRealNames(m, userName);
    var twice := WithRealNames(once, userName);
    if m.mentions.Some? {
      assert twice.mentions.value == once.mentions.value;
    }
  }

  /** A message that is shown: not hidden (`_hidden !== true`) and not imported (`imported == null`). */
  predicate Shown(m: Message) {
    m.hidden != Js.Bool(true) && (m.imported == Js.Undefined || m.imported == Js.Null)
  }

  /**
   * The broadcasts of a message event: inserted and updated messages (the event's, else the
   * stored one) are broadcast when shown, with real names when the setting is exactly `true`.
   */
  function MessageBroadcasts(e: MessageEvent, db: Lookups): (r: seq<Broadcast>)
    ensures |r| <= 1
    ensures e.action == Removed ==> r == []
    ensures |r| == 1 ==> r[0].WatchMessages? && r[0].action == e.action && Shown(r[0].message)
    ensures e.action != Removed && e.data.Some? && !Shown(e.data.value) ==> r == []
    ensures e.action != Removed && e.data.Some? && Shown(e.data.value) ==> |r| == 1 && r[0].message.id == e.data.value.id
    ensures e.action != Removed ==>
      var found := if e.data.Some? then e.data else db.findMessage(e.id);
      && (r == [] <==> found.None? || !Shown(found.value))
      && (found.Some? && Shown(found.value) ==>
            r == [WatchMessages(e.action, if db.useRealNameSetting == Js.Bool(true) then WithRealNames(found.value, db.userName) else found.value)])
  {
    if e.action == Removed then []
    else
      var found := if e.data.Some? then e.data else db.findMessage(e.id);
      match found
      case None => []
      case Some(m) =>
        if !Shown(m) then []
        else if db.useRealNameSetting == Js.Bool(true) then [WatchMessages(e.action, WithRealNames(m, db.userName))]
        else [WatchMessages(e.action, m)]
  }

  /** Without the real-name setting the message goes out exactly as read. */
  lemma MessageWithoutRealNamesUnchanged(e: MessageEvent, db: Lookups)
    requires db.useRealNameSetting != Js.Bool(true)
    requires e.action != Removed && e.data.Some? && Shown(e.data.value)
    ensures MessageBroadcasts(e, db) == [WatchMessages(e.action, e.data.value)]
  {
  }

  // ---------------------------------------------------------------------------------------------
  // The other collections

  /** Subscriptions: changes to published fields only; a removal goes out as the trashed record or its id. */
  function SubscriptionBroadcasts(e: ChangeEvent, db: Lookups): (r: seq<Broadcast>)
    ensures OnChannel(r, Subscriptions)
    ensures |r| <= 1 && forall b :: b in r ==> b.WatchSubscriptions? && b.action == e.action
    ensures e.action != Removed && !HasKeys(db.subscriptionFields, OrDoc(e.data, e.diff)) ==> r == []
    ensures e.action == Removed ==> r == [WatchSubscriptions(Removed, db.trash(Subscriptions, e.id).GetOr(IdDoc(e.id)))]
  {
    match e.action
    case Removed => [WatchSubscriptions(Removed, db.trash(Subscriptions, e.id).GetOr(IdDoc(e.id)))]
    case _ =>
      if !HasKeys(db.subscriptionFields, OrDoc(e.data, e.diff)) then []
      else match OrDoc(e.data, db.find(Subscriptions, e.id))
        case None => []
        case Some(sub) => [WatchSubscriptions(e.action, sub)]
  }

  /** Roles: an `_updatedAt`-only diff is dropped; a removal goes out as `{_id, name}` = the id. */
  function RoleBroadcasts(e: ChangeEvent, db: Lookups): (r: seq<Broadcast>)
    ensures OnChannel(r, Roles)
    ensures |r| <= 1 && forall b :: b in r ==> b.WatchRoles?
    ensures OnlyUpdatedAt(e.diff) ==> r == []
    ensures !OnlyUpdatedAt(e.diff) && e.action == Removed ==>
      r == [WatchRoles(RoleRemoved, [("_id", Js.Str(e.id)), ("name", Js.Str(e.id))])]
    ensures !OnlyUpdatedAt(e.diff) && e.action != Removed ==>
      (|r| == 1 <==> OrDoc(e.data, db.find(Roles, e.id)).Some?) &&
      (|r| == 1 ==> r[0] == WatchRoles(RoleChanged, OrDoc(e.data, db.find(Roles, e.id)).value))
  {
    if OnlyUpdatedAt(e.diff) then []
    else if e.action == Removed then [WatchRoles(RoleRemoved, [("_id", Js.Str(e.id)), ("name", Js.Str(e.id))])]
    else match OrDoc(e.data, db.find(Roles, e.id))
      case None => []
      case Some(role) => [WatchRoles(RoleChanged, role)]
  }

  /** Inquiries: the event's record or the stored one, a removal the trashed one; nothing when none is found. */
  function InquiryBroadcasts(e: ChangeEvent, db: Lookups): (r: seq<Broadcast>)
    ensures OnChannel(r, Inquiries)
    ensures |r| <= 1 && forall b :: b in r ==> b.WatchInquiries? && b.action == e.action && b.diff == e.diff
    ensures e.action == Removed ==> (|r| == 1 <==> db.trash(Inquiries, e.id).Some?)
    ensures e.action == Removed && |r| == 1 ==> r[0].inquiry == db.trash(Inquiries, e.id).value
    ensures e.action != Removed && e.data.Some? ==> r == [WatchInquiries(e.action, e.data.value, e.diff)]
  {
    var data := if e.action == Removed then db.trash(Inquiries, e.id) else OrDoc(e.data, db.find(Inquiries, e.id));
    match data
    case None => []
    case Some(d) => [WatchInquiries(e.action, d, e.diff)]
  }

  /** Department agents: always re-read (the trash for a removal), never taken from the event. */
  function DepartmentAgentBroadcasts(e: ChangeEvent, db: Lookups): (r: seq<Broadcast>)
    ensures OnChannel(r, DepartmentAgents)
    ensures var stored := if e.action == Removed then db.trash(DepartmentAgents, e.id) else db.find(DepartmentAgents, e.id);
      && (|r| == 1 <==> stored.Some?) && |r| <= 1
      && (|r| == 1 ==> r[0] == WatchDepartmentAgents(e.action, e.id, stored.value, e.diff))
  {
    var stored := if e.action == Removed then db.trash(DepartmentAgents, e.id) else db.find(DepartmentAgents, e.id);
    match stored
    case None => []
    case Some(d) => [WatchDepartmentAgents(e.action, e.id, d, e.diff)]
  }

  /** The record a permission event is about: the event's or the stored one, for a removal `{_id, roles: []}`. */
  function PermissionData(e: ChangeEvent, db: Lookups): (r: Option<Doc>)
    ensures e.action == Removed ==> r == Some([("_id", Js.Str(e.id)), ("roles", Js.Arr([]))])
    ensures e.action != Removed ==> (r.Some? <==> e.data.Some? || db.find(Permissions, e.id).Some?)
    ensures e.action != Removed && e.data.Some? ==> r == e.data
  {
    if e.action == Removed then Some([("_id", Js.Str(e.id)), ("roles", Js.Arr([]))])
    else OrDoc(e.data, db.find(Permissions, e.id))
  }

  /** A settings-level permission with a setting id. */
  predicate GuardsSetting(data: Doc) {
    Get(data, "level") == Js.Str("settings") && Js.Truthy(Get(data, "settingId"))
  }

  /**
   * Permissions: an `_updatedAt`-only diff is dropped; a removal goes out with no roles; a
   * settings-level permission also re-announces its setting as `updated`, when that is visible.
   */
  function PermissionBroadcasts(e: ChangeEvent, db: Lookups): (r: seq<Broadcast>)
    ensures |r| <= 2 && (|r| >= 1 ==> OnChannel(r[..1], Permissions)) && (|r| == 2 ==> r[1].WatchSettings? && r[1].action == Updated)
    ensures OnlyUpdatedAt(e.diff) ==> r == []
    ensures !OnlyUpdatedAt(e.diff) && e.action == Removed ==> r == [PermissionChanged(Removed, [("_id", Js.Str(e.id)), ("roles", Js.Arr([]))])]
    ensures |r| >= 1 ==> PermissionData(e, db).Some? && r[0] == PermissionChanged(e.action, PermissionData(e, db).value)
    ensures |r| == 2 <==> !OnlyUpdatedAt(e.diff) && PermissionData(e, db).Some? && GuardsSetting(PermissionData(e, db).value)
                          && db.settingNotHidden(Get(PermissionData(e, db).value, "settingId")).Some?
    ensures |r| == 2 ==> r[1] == WatchSettings(Updated, db.settingNotHidden(Get(PermissionData(e, db).value, "settingId")).value)
  {
    if OnlyUpdatedAt(e.diff) then []
    else match PermissionData(e, db)
      case None => []
      case Some(data) =>
        var changed := [PermissionChanged(e.action, data)];
        if GuardsSetting(data) then
          match db.settingNotHidden(Get(data, "settingId"))
          case None => changed
          case Some(setting) => changed + [WatchSettings(Updated, setting)]
        else changed
  }

  /** A removed permission carries `roles: []`, so no setting is re-announced for it. */
  lemma RemovedPermissionAnnouncesNoSetting(e: ChangeEvent, db: Lookups)
    requires e.action == Removed && !OnlyUpdatedAt(e.diff)
    ensures |PermissionBroadcasts(e, db)| == 1
  {
    var data := [("_id", Js.Str(e.id)), ("roles", Js.Arr([]))];
    assert Get(data, "level") == Js.Undefined by {
      assert FirstIndex(data, (p: (string, Js.Value)) => p.0 == "level").None?;
    }
  }

  /** Settings: an `_updatedAt`-only diff is dropped; the event's record, else the stored or trashed one. */
  function SettingBroadcasts(e: ChangeEvent, db: Lookups): (r: seq<Broadcast>)
    ensures OnChannel(r, Settings)
    ensures |r| <= 1 && forall b :: b in r ==> b.WatchSettings? && b.action == e.action
    ensures OnlyUpdatedAt(e.diff) ==> r == []
    ensures !OnlyUpdatedAt(e.diff) && e.data.Some? ==> r == [WatchSettings(e.action, e.data.value)]
    ensures !OnlyUpdatedAt(e.diff) && e.data.None? && e.action == Removed ==> (|r| == 1 <==> db.trash(Settings, e.id).Some?)
  {
    if OnlyUpdatedAt(e.diff) then []
    else
      var setting := OrDoc(e.data, if e.action == Removed then db.trash(Settings, e.id) else db.find(Settings, e.id));
      match setting
      case None => []
      case Some(s) => [WatchSettings(e.action, s)]
  }

  /** Rooms: a removal goes out as the id; other changes only when they touch a published room field. */
  function RoomBroadcasts(e: ChangeEvent, db: Lookups): (r: seq<Broadcast>)
    ensures OnChannel(r, Rooms)
    ensures |r| <= 1 && forall b :: b in r ==> b.WatchRooms? && b.action == e.action
    ensures e.action == Removed ==> r == [WatchRooms(Removed, IdDoc(e.id))]
    ensures e.action != Removed && !HasKeys(db.roomFields, OrDoc(e.data, e.diff)) ==> r == []
  {
    if e.action == Removed then [WatchRooms(Removed, IdDoc(e.id))]
    else if !HasKeys(db.roomFields, OrDoc(e.data, e.diff)) then []
    else match OrDoc(e.data, db.find(Rooms, e.id))
      case None => []
      case Some(room) => [WatchRooms(e.action, room)]
  }

  /** Users: a `livechatCount`-only diff is dropped; otherwise exactly one broadcast by action. */
  function UserBroadcasts(e: ChangeEvent): (r: seq<Broadcast>)
    ensures OnChannel(r, Users)
    ensures OnlyLivechatCount(e.diff) ==> r == []
    ensures !OnlyLivechatCount(e.diff) ==>
      |r| == 1 && (r[0].WatchUsersRemoved? || r[0].WatchUsersInserted? || r[0].WatchUsersUpdated?) && r[0].id == e.id
    ensures !OnlyLivechatCount(e.diff) && e.action == Removed ==> r[0].WatchUsersRemoved?
    ensures !OnlyLivechatCount(e.diff) && e.action == Inserted ==> r[0] == WatchUsersInserted(e.id, e.data)
    ensures !OnlyLivechatCount(e.diff) && e.action == Updated ==> r[0] == WatchUsersUpdated(e.id, e.diff, e.unset)
  {
    if OnlyLivechatCount(e.diff) then []
    else match e.action
      case Removed => [WatchUsersRemoved(e.id)]
      case Inserted => [WatchUsersInserted(e.id, e.data)]
      case Updated => [WatchUsersUpdated(e.id, e.diff, e.unset)]
  }

  /** Login service configurations: always re-read (without the secret), whatever the action. */
  function LoginServiceBroadcasts(e: ChangeEvent, db: Lookups): (r: seq<Broadcast>)
    ensures OnChannel(r, LoginServiceConfigurations)
    ensures |r| <= 1 && (|r| == 1 <==> db.find(LoginServiceConfigurations, e.id).Some?)
    ensures |r| == 1 ==> r[0] == WatchLoginServiceConfiguration(e.action, e.id, db.find(LoginServiceConfigurations, e.id).value)
  {
    match db.find(LoginServiceConfigurations, e.id)
    case None => []
    case Some(d) => [WatchLoginServiceConfiguration(e.action, e.id, d)]
  }

  /** Instance status: every event goes out; a removal carries only the id. */
  function InstanceStatusBroadcasts(e: ChangeEvent): (r: seq<Broadcast>)
    ensures OnChannel(r, InstanceStatuses)
    ensures |r| == 1 && r[0].WatchInstanceStatus? && r[0].action == e.action && r[0].id == e.id
    ensures e.action == Removed ==> r[0].status == Some(IdDoc(e.id)) && r[0].diff.None?
    ensures e.action != Removed ==> r[0].status == e.data && r[0].diff == e.diff
  {
    if e.action == Removed then [WatchInstanceStatus(Removed, e.id, Some(IdDoc(e.id)), None)]
    else [WatchInstanceStatus(e.action, e.id, e.data, e.diff)]
  }

  /** Integration history: an update goes out as the stored record when it names its integration; an insert as the event's record. */
  function IntegrationHistoryBroadcasts(e: ChangeEvent, db: Lookups): (r: seq<Broadcast>)
    ensures OnChannel(r, IntegrationHistories)
    ensures |r| <= 1 && forall b :: b in r ==> b.WatchIntegrationHistory? && b.action == e.action && b.diff == e.diff
    ensures e.action == Removed ==> r == []
    ensures e.action == Inserted ==> (|r| == 1 <==> e.data.Some?)
    ensures e.action == Updated ==>
      (|r| == 1 <==> db.find(IntegrationHistories, e.id).Some? && Js.Truthy(Get(db.find(IntegrationHistories, e.id).value, "integration")))
  {
    match e.action
    case Updated =>
      (match db.find(IntegrationHistories, e.id)
       case Some(history) =>
         if Js.Truthy(Get(history, "integration")) then [WatchIntegrationHistory(Updated, e.id, history, e.diff)] else []
       case None => [])
    case Inserted =>
      (match e.data
       case None => []
       case Some(d) => [WatchIntegrationHistory(Inserted, e.id, d, e.diff)])
    case Removed => []
  }

  /** Integrations: a removal carries only the id; otherwise the event's record, else the stored one. */
  function IntegrationBroadcasts(e: ChangeEvent, db: Lookups): (r: seq<Broadcast>)
    ensures OnChannel(r, Integrations)
    ensures |r| <= 1 && forall b :: b in r ==> b.WatchIntegrations? && b.action == e.action && b.id == e.id
    ensures e.action == Removed ==> r == [WatchIntegrations(Removed, e.id, IdDoc(e.id))]
    ensures e.action != Removed ==> (|r| == 1 <==> OrDoc(e.data, db.find(Integrations, e.id)).Some?)
  {
    if e.action == Removed then [WatchIntegrations(Removed, e.id, IdDoc(e.id))]
    else match OrDoc(e.data, db.find(Integrations, e.id))
      case None => []
      case Some(d) => [WatchIntegrations(e.action, e.id, d)]
  }

  /** E-mail inboxes: a removal carries only the id; otherwise the event's record, else the stored one. */
  function EmailInboxBroadcasts(e: ChangeEvent, db: Lookups): (r: seq<Broadcast>)
    ensures OnChannel(r, EmailInboxes)
    ensures |r| <= 1 && forall b :: b in r ==> b.WatchEmailInbox? && b.action == e.action && b.id == e.id
    ensures e.action == Removed ==> r == [WatchEmailInbox(Removed, e.id, IdDoc(e.id))]
    ensures e.action != Removed ==> (|r| == 1 <==> OrDoc(e.data, db.find(EmailInboxes, e.id)).Some?)
  {
    if e.action == Removed then [WatchEmailInbox(Removed, e.id, IdDoc(e.id))]
    else match OrDoc(e.data, db.find(EmailInboxes, e.id))
      case None => []
      case Some(d) => [WatchEmailInbox(e.action, e.id, d)]
  }

  /** The PBX events that are broadcast: agent connect and disconnect. */
  predicate WatchedPbxEvent(data: Doc) {
    Get(data, "event") == Js.Str("ContactStatus") || Get(data, "event") == Js.Str("Hangup")
  }

  /** PBX events: inserted `ContactStatus` and `Hangup` events only. */
  function PbxBroadcasts(e: ChangeEvent, db: Lookups): (r: seq<Broadcast>)
    ensures OnChannel(r, PbxEvents)
    ensures |r| <= 1
    ensures |r| == 1 <==> e.action == Inserted && OrDoc(e.data, db.find(PbxEvents, e.id)).Some?
                          && WatchedPbxEvent(OrDoc(e.data, db.find(PbxEvents, e.id)).value)
    ensures |r| == 1 ==> r[0] == WatchPbxEvents(Inserted, e.id, OrDoc(e.data, db.find(PbxEvents, e.id)).value)
  {
    if e.action != Inserted then []
    else match OrDoc(e.data, db.find(PbxEvents, e.id))
      case None => []
      case Some(d) => if WatchedPbxEvent(d) then [WatchPbxEvents(Inserted, e.id, d)] else []
  }

  /** Priorities: only updates whose diff touches `name`. */
  function PriorityBroadcasts(e: ChangeEvent, db: Lookups): (r: seq<Broadcast>)
    ensures OnChannel(r, Priorities)
    ensures |r| <= 1
    ensures |r| == 1 <==> e.action == Updated && e.diff.Some? && HasKey(e.diff.value, "name")
                          && OrDoc(e.data, db.find(Priorities, e.id)).Some?
    ensures |r| == 1 ==> r[0] == WatchPriorities(Updated, e.id, OrDoc(e.data, db.find(Priorities, e.id)).value, e.diff)
  {
    if e.action != Updated || e.diff.None? || !HasKey(e.diff.value, "name") then []
    else match OrDoc(e.data, db.find(Priorities, e.id))
      case None => []
      case Some(d) => [WatchPriorities(Updated, e.id, d, e.diff)]
  }

  /**
   * The handler registered for each collection other than messages. Every broadcast goes out on
   * the collection's own channel, except the setting a permission change re-announces.
   */
  function Dispatch(c: Collection, e: ChangeEvent, db: Lookups): (r: seq<Broadcast>)
    requires c != Messages
    ensures c != Permissions ==> |r| <= 1 && OnChannel(r, c)
    ensures c == Permissions ==> |r| <= 2 && (|r| >= 1 ==> ChannelOf(r[0]) == Permissions) && (|r| == 2 ==> r[1].WatchSettings? && r[1].action == Updated)
  {
    match c
    case Subscriptions => SubscriptionBroadcasts(e, db)
    case Roles => RoleBroadcasts(e, db)
    case Inquiries => InquiryBroadcasts(e, db)
    case DepartmentAgents => DepartmentAgentBroadcasts(e, db)
    case Permissions => PermissionBroadcasts(e, db)
    case Settings => SettingBroadcasts(e, db)
    case Rooms => RoomBroadcasts(e, db)
    case Users => UserBroadcasts(e)
    case LoginServiceConfigurations => LoginServiceBroadcasts(e, db)
    case InstanceStatuses => InstanceStatusBroadcasts(e)
    case IntegrationHistories => IntegrationHistoryBroadcasts(e, db)
    case Integrations => IntegrationBroadcasts(e, db)
    case EmailInboxes => EmailInboxBroadcasts(e, db)
    case PbxEvents => PbxBroadcasts(e, db)
    case Priorities => PriorityBroadcasts(e, db)
  }

  /** An `_updatedAt`-only diff is never broadcast for roles, permissions or settings. */
  lemma UpdatedAtOnlyIsSilent(c: Collection, e: ChangeEvent, db: Lookups)
    requires c == Roles || c == Permissions || c == Settings
    requires OnlyUpdatedAt(e.diff)
    ensures Dispatch(c, e, db) == []
  {
  }

  // ---------------------------------------------------------------------------------------------
  // The watcher object

  /** The collections other than messages, each once. */
  lemma EveryOtherCollection(others: seq<Collection>)
    requires others == [Subscriptions, Roles, Inquiries, DepartmentAgents, Permissions, Settings, Rooms, Users,
                        LoginServiceConfigurations, InstanceStatuses, IntegrationHistories, Integrations, EmailInboxes,
                        PbxEvents, Priorities]
    ensures forall c :: c != Messages <==> c in others
  {
    forall c | c != Messages ensures c in others {
      match c
      case Subscriptions => assert others[0] == c;
      case Roles => assert others[1] == c;
      case Inquiries => assert others[2] == c;
      case DepartmentAgents => assert others[3] == c;
      case Permissions => assert others[4] == c;
      case Settings => assert others[5] == c;
      case Rooms => assert others[6] == c;
      case Users => assert others[7] == c;
      case LoginServiceConfigurations => assert others[8] == c;
      case InstanceStatuses => assert others[9] == c;
      case IntegrationHistories => assert others[10] == c;
      case Integrations => assert others[11] == c;
      case EmailInboxes => assert others[12] == c;
      case PbxEvents => assert others[13] == c;
      case Priorities => assert others[14] == c;
    }
  }

  /** The collections initWatchers registers a handler for, in order; messages only when db watchers are enabled. */
  function WatchedCollections(dbWatchersDisabled: bool): (cs: seq<Collection>)
    ensures Messages in cs <==> !dbWatchersDisabled
    ensures forall c :: c != Messages ==> c in cs
    ensures forall i, j :: 0 <= i < j < |cs| ==> cs[i] != cs[j]
  {
    var others := [Subscriptions, Roles, Inquiries, DepartmentAgents, Permissions, Settings, Rooms, Users,
                   LoginServiceConfigurations, InstanceStatuses, IntegrationHistories, Integrations, EmailInboxes,
                   PbxEvents, Priorities];
    EveryOtherCollection(others);
    (if dbWatchersDisabled then [] else [Messages]) + others
  }

  /** The module state: whether initWatchers has run, and the handlers it registered. */
  class WatcherRegistry {
    var watcherStarted: bool
    var registered: seq<Collection>

    constructor ()
      ensures !watcherStarted && registered == []
    {
      watcherStarted := false;
      registered := [];
    }

    /** isWatcherRunning. */
    function IsWatcherRunning(): (running: bool)
      reads this
      ensures running <==> watcherStarted
    {
      watcherStarted
    }

    /** initWatchers: register every handler, the message handler only when db watchers are enabled, then mark started. */
    method InitWatchers(dbWatchersDisabled: bool)
      modifies this
      ensures watcherStarted
      ensures registered == old(registered) + WatchedCollections(dbWatchersDisabled)
    {
      if !dbWatchersDisabled {
        registered := registered + [Messages];
      }
      registered := registered + [Subscriptions, Roles, Inquiries, DepartmentAgents, Permissions, Settings, Rooms, Users,
                                  LoginServiceConfigurations, InstanceStatuses, IntegrationHistories, Integrations,
                                  EmailInboxes, PbxEvents, Priorities];
      watcherStarted := true;
    }

    /**
     * The message handler: fill in real names in place (the sender, then each mention in order)
     * and broadcast the message when it is shown.
     */
    method OnMessage(e: MessageEvent, db: Lookups) returns (r: seq<Broadcast>)
      ensures r == MessageBroadcasts(e, db)
    {
      if e.action == Removed {
        return [];
      }
      var found := if e.data.Some? then e.data else db.findMessage(e.id);
      if found.None? {
        return [];
      }
      var message := found.value;
      ghost var original := found.value;
      if !Shown(message) {
        return [];
      }
      if db.useRealNameSetting == Js.Bool(true) {
        if message.u.Some? && Js.TruthyStr(message.u.value.id) {
          var name := db.userName(message.u.value.id.value);
          if Js.TruthyStr(name) {
            message := message.(u := Some(message.u.value.(name := name)));
          }
        }
        if message.mentions.Some? && |message.mentions.value| > 0 {
          var mentions := message.mentions.value;
          var i := 0;
          while i < |mentions|
            invariant 0 <= i <= |mentions| && |mentions| == |original.mentions.value|
            invariant forall k :: 0 <= k < i ==> mentions[k] == RenamedMention(original.mentions.value[k], db.userName)
            invariant forall k :: i <= k < |mentions| ==> mentions[k] == original.mentions.value[k]
          {
            var name := db.userName(mentions[i].id);
            if Js.TruthyStr(name) {
              mentions := mentions[i := mentions[i].(name := name)];
            }
            i := i + 1;
          }
          assert mentions == WithRealNames(original, db.userName).mentions.value;
          message := message.(mentions := Some(mentions));
        }
        assert message.u == RenamedUser(original.u, db.userName);
        assert message.mentions == WithRealNames(original, db.userName).mentions;
        assert message == WithRealNames(original, db.userName);
      }
      return [WatchMessages(e.action, message)];
    }
  }
}
