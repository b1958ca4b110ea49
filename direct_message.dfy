/**
 * createDirectMessage (apps/meteor/server/methods/createDirectMessage.ts): who may open a direct
 * message room with whom, how the requested usernames become room members, and what comes back.
 *
 * The user directory, the federation `addUser`, the caller's permissions, the self-DM setting,
 * the direct-room lookup, the federation callback and `createRoom` answer through `DmEnv`.
 */
module DirectMessage {
  import opened Wrappers
  import opened Collections
  import Js

  /** A user record as `Users.findOneById` / `findOneByUsernameIgnoringCase` return it. */
  datatype User = User(id: string, username: Option<string>, name: Option<string>)

  /** A room member: a resolved user, or a federated username kept as the raw string. */
  datatype Member = UserMember(user: User) | RawName(raw: string)

  /** The thrown errors: the Match check on `userId`, `error-invalid-user`, `error-not-allowed`, a federation error. */
  datatype DmError = MatchFailed | InvalidUser | NotAllowed | FederationError(message: Option<string>)

  /** The options handed to `createRoom`. */
  datatype RoomOptions = RoomOptions(creator: string, subscriptionExtraOpen: bool)

  /** A returned record: its own enumerable properties. */
  type Record = map<string, Js.Value>

  /** The collaborators. */
  datatype DmEnv = DmEnv(
    // Users.findOneById
    findUser: string -> Option<User>,
    // Users.findOneByUsernameIgnoringCase
    findByUsername: string -> Option<User>,
    // addUser(username) for a federated username; None when it yields nothing or throws
    addUser: string -> Option<User>,
    // settings.get('Message_AllowDirectMessagesToYourself')
    selfDmSetting: Js.Value,
    // the permissions hasPermission grants the caller
    permissions: set<string>,
    // Rooms.findOneDirectRoomContainingAllUserIDs(uids): the room id, if a room is found
    findDirectRoom: seq<Option<string>> -> Option<string>,
    // callbacks.run('federation.beforeCreateDirectMessage'): the message it throws, if it throws
    beforeCreate: seq<Member> -> Option<Option<string>>,
    // createRoom('d', ...): the record it returns
    createRoom: (seq<Member>, RoomOptions) -> Record)

  // ---------------------------------------------------------------------------------------------
  // Member resolution

  /**
   * Resolve one username: a known user; else, for a username with `@`, the user addUser yields,
   * or the raw username when it yields none; else `error-invalid-user`.
   */
  function ResolveUser(username: string, env: DmEnv): (r: Result<Member, DmError>)
    ensures env.findByUsername(username).Some? ==> r == Ok(UserMember(env.findByUsername(username).value))
    ensures env.findByUsername(username).None? && '@' !in username ==> r == Err(InvalidUser)
    ensures env.findByUsername(username).None? && '@' in username ==>
      r == Ok(if env.addUser(username).Some? then UserMember(env.addUser(username).value) else RawName(username))
    ensures r.Err? ==> r.error == InvalidUser
  {
    match env.findByUsername(username)
    case Some(to) => Ok(UserMember(to))
    case None =>
      if '@' in username then
        match env.addUser(username)
        case Some(to) => Ok(UserMember(to))
        case None => Ok(RawName(username))
      else Err(InvalidUser)
  }

  /** `usernames.map(resolve)`: every username resolved in order, or the first failure. */
  function ResolveAll(usernames: seq<string>, env: DmEnv): (r: Result<seq<Member>, DmError>)
    ensures r.Ok? <==> forall i :: 0 <= i < |usernames| ==> ResolveUser(usernames[i], env).Ok?
    ensures r.Ok? ==> |r.value| == |usernames|
    ensures r.Ok? ==> forall i :: 0 <= i < |usernames| ==> Ok(r.value[i]) == ResolveUser(usernames[i], env)
    ensures r.Err? ==> r.error == InvalidUser
  {
    if |usernames| == 0 then Ok([])
    else
      match ResolveUser(usernames[0], env)
      case Err(e) => Err(e)
      case Ok(m) =>
        match ResolveAll(usernames[1..], env)
        case Err(e) => Err(e)
        case Ok(ms) =>
          assert forall i :: 1 <= i < |usernames| ==> usernames[i] == usernames[1..][i - 1];
          Ok([m] + ms)
  }

  /** The requested usernames other than the caller's, in order. */
  function OtherUsernames(usernames: seq<string>, me: string): (r: seq<string>)
    ensures me !in r && forall u :: u in r <==> u in usernames && u != me
  {
    Filter(usernames, IsOther(me))
  }

  /** `username !== me.username`. */
  function IsOther(me: string): string -> bool {
    (u: string) => u != me
  }

  /** Naming the caller anywhere in the request changes nothing: the caller's username is dropped first. */
  lemma {:induction false} CallerNameIgnored(before: seq<string>, after: seq<string>, me: string)
    ensures OtherUsernames(before + [me] + after, me) == OtherUsernames(before + after, me)
  {
    var p := IsOther(me);
    assert Filter([me], p) == [] by {
      assert !p(me) && [me][1..] == [];
    }
    calc {
      Filter(before + [me] + after, p);
      { FilterAppend(before + [me], after, p); }
      Filter(before + [me], p) + Filter(after, p);
      { FilterAppend(before, [me], p); }
      Filter(before, p) + Filter(after, p);
      { FilterAppend(before, after, p); }
      Filter(before + after, p);
    }
  }

  // ---------------------------------------------------------------------------------------------
  // Sorting the member ids

  /** The `_id` of a member; a raw username has none. */
  function MemberId(m: Member): Option<string> {
    match m
    case UserMember(u) => Some(u.id)
    case RawName(_) => None
  }

  function MemberIds(ms: seq<Member>): (ids: seq<Option<string>>)
    ensures |ids| == |ms| && forall i :: 0 <= i < |ms| ==> ids[i] == MemberId(ms[i])
  {
    seq(|ms|, i requires 0 <= i < |ms| => MemberId(ms[i]))
  }

  /** String order by character: a prefix comes first, else the first differing character decides. */
  predicate LexLe(a: string, b: string)
    decreases |a|
  {
    |a| == 0 || (|b| > 0 && (a[0] < b[0] || (a[0] == b[0] && LexLe(a[1..], b[1..]))))
  }

  /** The default `Array.prototype.sort` order: strings by character, `undefined` last. */
  predicate IdLe(a: Option<string>, b: Option<string>) {
    b.None? || (a.Some? && LexLe(a.value, b.value))
  }

  lemma {:induction false} LexLeTotal(a: string, b: string)
    ensures LexLe(a, b) || LexLe(b, a)
    decreases |a|
  {
    if |a| > 0 && |b| > 0 && a[0] == b[0] {
      LexLeTotal(a[1..], b[1..]);
    }
  }

  lemma {:induction false} LexLeTransitive(a: string, b: string, c: string)
    requires LexLe(a, b) && LexLe(b, c)
    ensures LexLe(a, c)
    decreases |a|
  {
    if |a| > 0 && a[0] == b[0] && b[0] == c[0] {
      LexLeTransitive(a[1..], b[1..], c[1..]);
    }
  }

  lemma IdLeTotal(a: Option<string>, b: Option<string>)
    ensures IdLe(a, b) || IdLe(b, a)
  {
    if a.Some? && b.Some? {
      LexLeTotal(a.value, b.value);
    }
  }

  lemma IdLeTransitive(a: Option<string>, b: Option<string>, c: Option<string>)
    requires IdLe(a, b) && IdLe(b, c)
    ensures IdLe(a, c)
  {
    if a.Some? && b.Some? && c.Some? {
      LexLeTransitive(a.value, b.value, c.value);
    }
  }

  predicate Sorted(s: seq<Option<string>>) {
    forall i, j :: 0 <= i < j < |s| ==> IdLe(s[i], s[j])
  }

  /** Insert `x` into a sorted sequence before the first element it precedes. */
  function Insert(x: Option<string>, s: seq<Option<string>>): (r: seq<Option<string>>)
    requires Sorted(s)
    ensures Sorted(r) && multiset(r) == multiset(s) + multiset{x} && |r| == |s| + 1
  {
    if |s| == 0 then [x]
    else if IdLe(x, s[0]) then
      assert forall j :: 0 <= j < |s| ==> IdLe(x, s[j]) by {
        forall j | 0 <= j < |s| ensures IdLe(x, s[j]) {
          if j > 0 {
            IdLeTransitive(x, s[0], s[j]);
          }
        }
      }
      [x] + s
    else
      IdLeTotal(x, s[0]);
      var rest := Insert(x, s[1..]);
      assert s == [s[0]] + s[1..];
      assert forall j :: 0 <= j < |rest| ==> IdLe(s[0], rest[j]) by {
        forall j | 0 <= j < |rest| ensures IdLe(s[0], rest[j]) {
          assert rest[j] in multiset(rest);
          assert rest[j] == x || rest[j] in s[1..];
        }
      }
      [s[0]] + rest
  }

  /** `ids.sort()`: a sorted permutation of the ids. */
  function SortIds(ids: seq<Option<string>>): (r: seq<Option<string>>)
    ensures Sorted(r) && multiset(r) == multiset(ids)
  {
    if |ids| == 0 then []
    else
      assert ids == [ids[0]] + ids[1..];
      Insert(ids[0], SortIds(ids[1..]))
  }

  /** Raw usernames (no `_id`) sort after every id. */
  lemma UndefinedSortsLast(ids: seq<Option<string>>, i: nat, j: nat)
    requires i < j < |SortIds(ids)| && SortIds(ids)[i].None?
    ensures SortIds(ids)[j].None?
  {
  }

  // ---------------------------------------------------------------------------------------------
  // createDirectMessage

  /** A member that is the caller, compared by `_id`. */
  predicate IsCaller(m: Member, me: User) {
    m.UserMember? && m.user.id == me.id
  }

  /** The room members: the caller first unless `excludeSelf`, then the resolved users. */
  function RoomUsers(me: User, users: seq<Member>, excludeSelf: bool): (r: seq<Member>)
    ensures excludeSelf ==> r == users
    ensures !excludeSelf ==> |r| == |users| + 1 && r[0] == UserMember(me) && r[1..] == users
  {
    if excludeSelf then users else [UserMember(me)] + users
  }

  /** The record returned for a room: `{ t: 'd', rid, ...room }`, later keys overriding earlier ones. */
  function RoomRecord(rid: Js.Value, room: Record): (r: Record)
    ensures "rid" !in room ==> "rid" in r && r["rid"] == rid
    ensures "t" !in room ==> "t" in r && r["t"] == Js.Str("d")
    ensures forall k :: k in room ==> k in r && r[k] == room[k]
    ensures r.Keys == room.Keys + {"t", "rid"}
  {
    map["t" := Js.Str("d"), "rid" := rid] + room
  }

  /** The record a key is mapped to, or `undefined`. */
  function Get(r: Record, key: string): Js.Value {
    if key in r then r[key] else Js.Undefined
  }

  /** The members once the caller passed the identity checks, or the resolution failure. */
  function Members(usernames: seq<string>, me: User, excludeSelf: bool, env: DmEnv): (r: Result<seq<Member>, DmError>)
    requires me.username.Some?
    ensures r.Err? ==> r.error == InvalidUser
    ensures r.Ok? <==> forall u :: u in OtherUsernames(usernames, me.username.value) ==> ResolveUser(u, env).Ok?
  {
    match ResolveAll(OtherUsernames(usernames, me.username.value), env)
    case Err(e) => Err(e)
    case Ok(users) => Ok(RoomUsers(me, users, excludeSelf))
  }

  /** The path without `create-d`: an existing direct room over the sorted ids, with `view-d-room`, else `error-not-allowed`. */
  function ExistingRoom(roomUsers: seq<Member>, env: DmEnv): (r: Result<Record, DmError>)
    ensures r.Err? ==> r.error == NotAllowed
    ensures r.Ok? <==> "view-d-room" in env.permissions && env.findDirectRoom(SortIds(MemberIds(roomUsers))).Some?
    ensures r.Ok? ==> var rid := Js.Str(env.findDirectRoom(SortIds(MemberIds(roomUsers))).value);
      r.value == map["t" := Js.Str("d"), "rid" := rid, "_id" := rid]
  {
    if "view-d-room" in env.permissions then
      match env.findDirectRoom(SortIds(MemberIds(roomUsers)))
      case Some(rid) => Ok(RoomRecord(Js.Str(rid), map["_id" := Js.Str(rid)]))
      case None => Err(NotAllowed)
    else Err(NotAllowed)
  }

  /** The path with `create-d`: the federation callback, then createRoom with the caller as creator. */
  function NewRoom(me: User, roomUsers: seq<Member>, excludeSelf: bool, env: DmEnv): (r: Result<Record, DmError>)
    ensures r.Err? <==> env.beforeCreate(roomUsers).Some?
    ensures r.Err? ==> r.error == FederationError(env.beforeCreate(roomUsers).value)
  {
    var options := RoomOptions(me.id, excludeSelf && "view-room-administration" in env.permissions);
    match env.beforeCreate(roomUsers)
    case Some(message) => Err(FederationError(message))
    case None =>
      var created := env.createRoom(roomUsers, options);
      Ok(RoomRecord(Get(created, "_id"), created - {"_id", "inserted"}))
  }

  /** createDirectMessage(usernames, userId, excludeSelf). */
  function CreateDirectMessage(usernames: seq<string>, userId: Option<string>, excludeSelf: bool, env: DmEnv): (r: Result<Record, DmError>)
    ensures userId.None? ==> r == Err(MatchFailed)
    ensures userId == Some("") ==> r == Err(InvalidUser)
    ensures userId.Some? && userId.value != "" && env.findUser(userId.value).None? ==> r == Err(InvalidUser)
    ensures userId.Some? && userId.value != "" && env.findUser(userId.value).Some? && !Js.TruthyStr(env.findUser(userId.value).value.username)
      ==> r == Err(InvalidUser)
    ensures r.Err? && r.error.FederationError? ==> "create-d" in env.permissions
  {
    if userId.None? then Err(MatchFailed)
    else if userId.value == "" then Err(InvalidUser)
    else match env.findUser(userId.value)
      case None => Err(InvalidUser)
      case Some(me) =>
        if !Js.TruthyStr(me.username) then Err(InvalidUser)
        else if env.selfDmSetting == Js.Bool(false) && |usernames| == 1 && me.username.value == usernames[0] then Err(InvalidUser)
        else match Members(usernames, me, excludeSelf, env)
          case Err(e) => Err(e)
          case Ok(roomUsers) =>
            if |roomUsers| == 1 && !IsCaller(roomUsers[0], me) then Err(InvalidUser)
            else if "create-d" !in env.permissions then ExistingRoom(roomUsers, env)
            else NewRoom(me, roomUsers, excludeSelf, env)
  }

  /** The caller as `findOneById` returns it, when the identity checks pass. */
  predicate ValidCaller(userId: Option<string>, env: DmEnv) {
    userId.Some? && userId.value != "" && env.findUser(userId.value).Some? && Js.TruthyStr(env.findUser(userId.value).value.username)
  }

  /** When self-DMs are disabled, a request naming only the caller fails with `error-invalid-user`. */
  lemma SelfDmDisallowed(userId: Option<string>, excludeSelf: bool, env: DmEnv)
    requires ValidCaller(userId, env) && env.selfDmSetting == Js.Bool(false)
    ensures CreateDirectMessage([env.findUser(userId.value).value.username.value], userId, excludeSelf, env) == Err(InvalidUser)
  {
  }

  /** When self-DMs are not disabled, a request naming only the caller opens the caller's own room. */
  lemma {:induction false} SelfDmAllowed(userId: Option<string>, env: DmEnv)
    requires ValidCaller(userId, env) && env.selfDmSetting != Js.Bool(false)
    ensures var me := env.findUser(userId.value).value;
      Members([me.username.value], me, false, env) == Ok([UserMember(me)])
  {
    var me := env.findUser(userId.value).value;
    assert OtherUsernames([me.username.value], me.username.value) == [] by {
      assert !IsOther(me.username.value)(me.username.value) && [me.username.value][1..] == [];
    }
    assert ResolveAll([], env) == Ok([]);
    assert RoomUsers(me, [], false) == [UserMember(me)];
  }

  /** An unknown username without `@` makes the whole request fail with `error-invalid-user`. */
  lemma {:induction false} UnknownLocalUsernameFails(usernames: seq<string>, userId: Option<string>, excludeSelf: bool, env: DmEnv, i: nat)
    requires ValidCaller(userId, env)
    requires i < |usernames| && usernames[i] != env.findUser(userId.value).value.username.value
    requires env.findByUsername(usernames[i]).None? && '@' !in usernames[i]
    ensures CreateDirectMessage(usernames, userId, excludeSelf, env) == Err(InvalidUser)
  {
    var me := env.findUser(userId.value).value;
    var others := OtherUsernames(usernames, me.username.value);
    assert usernames[i] in others;
    var j :| 0 <= j < |others| && others[j] == usernames[i];
    assert ResolveUser(others[j], env).Err?;
  }

  /** A federated username that cannot be added stays in the room as the raw string. */
  lemma {:induction false} UnaddableFederatedNameKept(usernames: seq<string>, me: User, excludeSelf: bool, env: DmEnv, i: nat)
    requires me.username.Some? && Members(usernames, me, excludeSelf, env).Ok?
    requires i < |usernames| && usernames[i] != me.username.value
    requires env.findByUsername(usernames[i]).None? && '@' in usernames[i] && env.addUser(usernames[i]).None?
    ensures RawName(usernames[i]) in Members(usernames, me, excludeSelf, env).value
  {
    var others := OtherUsernames(usernames, me.username.value);
    assert usernames[i] in others;
    var j :| 0 <= j < |others| && others[j] == usernames[i];
    var users := ResolveAll(others, env).value;
    assert users[j] == RawName(usernames[i]);
    var members := RoomUsers(me, users, excludeSelf);
    if !excludeSelf {
      assert members[j + 1] == users[j];
    }
  }

  /** The members are the caller (unless `excludeSelf`) followed by the resolved users, in request order. */
  lemma {:induction false} MembersInOrder(usernames: seq<string>, me: User, excludeSelf: bool, env: DmEnv)
    requires me.username.Some? && Members(usernames, me, excludeSelf, env).Ok?
    ensures var others := OtherUsernames(usernames, me.username.value);
      var members := Members(usernames, me, excludeSelf, env).value;
      var offset := if excludeSelf then 0 else 1;
      && |members| == |others| + offset
      && (!excludeSelf ==> members[0] == UserMember(me))
      && forall i :: 0 <= i < |others| ==> Ok(members[i + offset]) == ResolveUser(others[i], env)
  {
    var others := OtherUsernames(usernames, me.username.value);
    var users := ResolveAll(others, env).value;
    var members := RoomUsers(me, users, excludeSelf);
    if !excludeSelf {
      assert forall i :: 0 <= i < |others| ==> members[i + 1] == users[i];
    }
  }

  /** A one-member room goes ahead only when that member is the caller. */
  lemma SingleMemberMustBeCaller(usernames: seq<string>, userId: Option<string>, excludeSelf: bool, env: DmEnv)
    requires ValidCaller(userId, env)
    requires var me := env.findUser(userId.value).value;
      && !(env.selfDmSetting == Js.Bool(false) && |usernames| == 1 && me.username.value == usernames[0])
      && Members(usernames, me, excludeSelf, env).Ok?
      && |Members(usernames, me, excludeSelf, env).value| == 1
    ensures var me := env.findUser(userId.value).value;
      CreateDirectMessage(usernames, userId, excludeSelf, env).Ok? ==> IsCaller(Members(usernames, me, excludeSelf, env).value[0], me)
  {
  }

  /**
   * Without `create-d` no room is created: the existing direct room over the sorted member ids is
   * returned as `{ t: 'd', rid, _id }` when the caller may view direct rooms, else `error-not-allowed`.
   */
  lemma WithoutCreateD(usernames: seq<string>, userId: Option<string>, excludeSelf: bool, env: DmEnv)
    requires ValidCaller(userId, env) && "create-d" !in env.permissions
    requires var me := env.findUser(userId.value).value;
      && !(env.selfDmSetting == Js.Bool(false) && |usernames| == 1 && me.username.value == usernames[0])
      && Members(usernames, me, excludeSelf, env).Ok?
      && !(|Members(usernames, me, excludeSelf, env).value| == 1 && !IsCaller(Members(usernames, me, excludeSelf, env).value[0], me))
    ensures var me := env.findUser(userId.value).value;
      CreateDirectMessage(usernames, userId, excludeSelf, env) == ExistingRoom(Members(usernames, me, excludeSelf, env).value, env)
  {
  }

  /** With `create-d`, the subscription is created open exactly when `excludeSelf` is set and the caller may administer rooms. */
  lemma OpenSubscriptionOption(me: User, roomUsers: seq<Member>, excludeSelf: bool, env: DmEnv)
    requires env.beforeCreate(roomUsers).None?
    ensures var created := env.createRoom(roomUsers, RoomOptions(me.id, excludeSelf && "view-room-administration" in env.permissions));
      NewRoom(me, roomUsers, excludeSelf, env) == Ok(RoomRecord(Get(created, "_id"), created - {"_id", "inserted"}))
  {
  }
}
