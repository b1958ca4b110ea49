/**
 * VoipRoomRaw (apps/meteor/server/models/raw/VoipRoom.ts): the VoIP-room finders, the close
 * update and the criteria query builder over the rooms collection.
 *
 * A stored room is a document flattened to dotted paths (`v.token`, `servedBy._id`), so a
 * filter on a path and an update of a path are both a single key.
 */
module VoipRoom {
  import opened Wrappers
  import opened Collections
  import Js

  /** A room document by dotted path. */
  type Doc = map<string, Js.Value>

  /** The value at a path, or `undefined`. */
  function Get(d: Doc, path: string): Js.Value {
    if path in d then d[path] else Js.Undefined
  }

  /** `{ path: value }` in a filter: the stored value equals the string. */
  predicate Has(d: Doc, path: string, value: string) {
    Get(d, path) == Js.Str(value)
  }

  /** Every query of this model restricts to `t: 'v'`. */
  predicate IsVoip(d: Doc) {
    Has(d, "t", "v")
  }

  /** `open: true` in a filter. */
  predicate IsOpen(d: Doc) {
    Get(d, "open") == Js.Bool(true)
  }

  // ---------------------------------------------------------------------------------------------
  // Finders: each is a filter; findOne takes the first match in natural order, find all of them.

  /** The first room of `rooms` matching `filter`. */
  function FindOne(rooms: seq<Doc>, filter: Doc -> bool): (r: Option<Doc>)
    ensures r.Some? ==> r.value in rooms && filter(r.value)
    ensures r.None? <==> forall i :: 0 <= i < |rooms| ==> !filter(rooms[i])
    ensures r.Some? ==> exists i :: 0 <= i < |rooms| && rooms[i] == r.value && forall k :: 0 <= k < i ==> !filter(rooms[k])
  {
    match FirstIndex(rooms, filter)
    case None => None
    case Some(i) => Some(rooms[i])
  }

  function OpenByVisitorToken(visitorToken: string): Doc -> bool {
    d => IsVoip(d) && IsOpen(d) && Has(d, "v.token", visitorToken)
  }

  function OpenByAgentId(agentId: string): Doc -> bool {
    d => IsVoip(d) && IsOpen(d) && Has(d, "servedBy._id", agentId)
  }

  function VoipRoomById(id: string): Doc -> bool {
    d => IsVoip(d) && Has(d, "_id", id)
  }

  function OpenByRoomIdAndVisitorToken(roomId: string, visitorToken: string): Doc -> bool {
    d => IsVoip(d) && Has(d, "_id", roomId) && IsOpen(d) && Has(d, "v.token", visitorToken)
  }

  function ByVisitorToken(visitorToken: string): Doc -> bool {
    d => IsVoip(d) && Has(d, "v.token", visitorToken)
  }

  function ByIdAndVisitorToken(id: string, visitorToken: string): Doc -> bool {
    d => IsVoip(d) && Has(d, "_id", id) && Has(d, "v.token", visitorToken)
  }

  /** findOneOpenByVisitorToken. */
  function FindOneOpenByVisitorToken(rooms: seq<Doc>, visitorToken: string): (r: Option<Doc>)
    ensures r.Some? ==> r.value in rooms && IsVoip(r.value) && IsOpen(r.value) && Has(r.value, "v.token", visitorToken)
    ensures r.None? <==> forall i :: 0 <= i < |rooms| ==> !(IsVoip(rooms[i]) && IsOpen(rooms[i]) && Has(rooms[i], "v.token", visitorToken))
  {
    FindOne(rooms, OpenByVisitorToken(visitorToken))
  }

  /** findOpenByAgentId: all open VoIP rooms served by the agent, each as often as it is stored. */
  function FindOpenByAgentId(rooms: seq<Doc>, agentId: string): (r: seq<Doc>)
    ensures forall d :: d in r <==> d in rooms && IsVoip(d) && IsOpen(d) && Has(d, "servedBy._id", agentId)
    ensures forall d :: multiset(r)[d] == if OpenByAgentId(agentId)(d) then multiset(rooms)[d] else 0
  {
    Filter(rooms, OpenByAgentId(agentId))
  }

  /** findOneByAgentId. */
  function FindOneByAgentId(rooms: seq<Doc>, agentId: string): (r: Option<Doc>)
    ensures r.Some? ==> r.value in rooms && IsVoip(r.value) && IsOpen(r.value) && Has(r.value, "servedBy._id", agentId)
    ensures r.None? <==> forall i :: 0 <= i < |rooms| ==> !(IsVoip(rooms[i]) && IsOpen(rooms[i]) && Has(rooms[i], "servedBy._id", agentId))
  {
    FindOne(rooms, OpenByAgentId(agentId))
  }

  /** findOneVoipRoomById: open or closed. */
  function FindOneVoipRoomById(rooms: seq<Doc>, id: string): (r: Option<Doc>)
    ensures r.Some? ==> r.value in rooms && IsVoip(r.value) && Has(r.value, "_id", id)
    ensures r.None? <==> forall i :: 0 <= i < |rooms| ==> !(IsVoip(rooms[i]) && Has(rooms[i], "_id", id))
  {
    FindOne(rooms, VoipRoomById(id))
  }

  /** findOneOpenByRoomIdAndVisitorToken. */
  function FindOneOpenByRoomIdAndVisitorToken(rooms: seq<Doc>, roomId: string, visitorToken: string): (r: Option<Doc>)
    ensures r.Some? ==> r.value in rooms && IsVoip(r.value) && IsOpen(r.value) && Has(r.value, "_id", roomId) && Has(r.value, "v.token", visitorToken)
    ensures r.None? <==> forall i :: 0 <= i < |rooms| ==>
      !(IsVoip(rooms[i]) && Has(rooms[i], "_id", roomId) && IsOpen(rooms[i]) && Has(rooms[i], "v.token", visitorToken))
  {
    FindOne(rooms, OpenByRoomIdAndVisitorToken(roomId, visitorToken))
  }

  /** findOneByVisitorToken: open or closed. */
  function FindOneByVisitorToken(rooms: seq<Doc>, visitorToken: string): (r: Option<Doc>)
    ensures r.Some? ==> r.value in rooms && IsVoip(r.value) && Has(r.value, "v.token", visitorToken)
    ensures r.None? <==> forall i :: 0 <= i < |rooms| ==> !(IsVoip(rooms[i]) && Has(rooms[i], "v.token", visitorToken))
  {
    FindOne(rooms, ByVisitorToken(visitorToken))
  }

  /** findOneByIdAndVisitorToken. */
  function FindOneByIdAndVisitorToken(rooms: seq<Doc>, id: string, visitorToken: string): (r: Option<Doc>)
    ensures r.Some? ==> r.value in rooms && IsVoip(r.value) && Has(r.value, "_id", id) && Has(r.value, "v.token", visitorToken)
    ensures r.None? <==> forall i :: 0 <= i < |rooms| ==> !(IsVoip(rooms[i]) && Has(rooms[i], "_id", id) && Has(rooms[i], "v.token", visitorToken))
  {
    FindOne(rooms, ByIdAndVisitorToken(id, visitorToken))
  }

  /**
   * A room with an open VoIP room for the token is found by the token alone too, and it is the
   * same room when no closed VoIP room with the token comes before the first open one.
   */
  lemma {:induction false} OpenTokenRoomFoundByToken(rooms: seq<Doc>, visitorToken: string)
    requires FindOneOpenByVisitorToken(rooms, visitorToken).Some?
    ensures FindOneByVisitorToken(rooms, visitorToken).Some?
    ensures FirstIndex(rooms, OpenByVisitorToken(visitorToken)).Some?
    ensures var b := FirstIndex(rooms, OpenByVisitorToken(visitorToken)).value;
      (forall k :: 0 <= k < b && IsVoip(rooms[k]) && Has(rooms[k], "v.token", visitorToken) ==> IsOpen(rooms[k])) ==>
        FindOneByVisitorToken(rooms, visitorToken) == FindOneOpenByVisitorToken(rooms, visitorToken)
  {
    var b := FirstIndex(rooms, OpenByVisitorToken(visitorToken)).value;
    assert ByVisitorToken(visitorToken)(rooms[b]);
    if forall k :: 0 <= k < b && IsVoip(rooms[k]) && Has(rooms[k], "v.token", visitorToken) ==> IsOpen(rooms[k]) {
      assert forall k :: 0 <= k < b ==> !ByVisitorToken(visitorToken)(rooms[k]) by {
        forall k | 0 <= k < b ensures !ByVisitorToken(visitorToken)(rooms[k]) {
          assert !OpenByVisitorToken(visitorToken)(rooms[k]);
        }
      }
    }
  }

  // ---------------------------------------------------------------------------------------------
  // closeByRoomId

  /** The closing-info fields the update names; everything else is `extraData`. */
  const ClosingKeys: set<string> := {"closer", "closedBy", "closedAt", "callDuration", "serviceTimeDuration"}

  /** The paths closeByRoomId always sets. */
  const UpdatedPaths: set<string> := {"closer", "closedBy", "closedAt", "callDuration", "metrics.serviceTimeDuration", "v.status"}

  /** The `$set` of closeByRoomId: the closing fields, `v.status: 'offline'`, then the extra data. */
  function CloseSet(closeInfo: Doc): (r: Doc)
    ensures forall k :: k in closeInfo && k !in ClosingKeys ==> k in r && r[k] == closeInfo[k]
    ensures "v.status" in r && ("v.status" !in closeInfo ==> r["v.status"] == Js.Str("offline"))
    ensures "closedAt" in r && r["closedAt"] == Get(closeInfo, "closedAt")
    ensures "closer" in r && r["closer"] == Get(closeInfo, "closer")
    ensures "closedBy" in r && r["closedBy"] == Get(closeInfo, "closedBy")
    ensures "callDuration" in r && r["callDuration"] == Get(closeInfo, "callDuration")
    ensures "metrics.serviceTimeDuration" in r
    ensures forall k :: k in r ==> k in closeInfo || k in UpdatedPaths
    ensures "metrics.serviceTimeDuration" !in closeInfo ==> r["metrics.serviceTimeDuration"] == Get(closeInfo, "serviceTimeDuration")
  {
    map[
      "closer" := Get(closeInfo, "closer"),
      "closedBy" := Get(closeInfo, "closedBy"),
      "closedAt" := Get(closeInfo, "closedAt"),
      "callDuration" := Get(closeInfo, "callDuration"),
      "metrics.serviceTimeDuration" := Get(closeInfo, "serviceTimeDuration"),
      "v.status" := Js.Str("offline")
    ] + (closeInfo - ClosingKeys)
  }

  /** A room after `$set` and `$unset: { open: 1 }`. */
  function Closed(room: Doc, closeInfo: Doc): (r: Doc)
    ensures "open" !in r
    ensures r.Keys == (room.Keys + CloseSet(closeInfo).Keys) - {"open"}
  {
    (room + CloseSet(closeInfo)) - {"open"}
  }

  /** The collection after closeByRoomId: the first VoIP room with that id is closed, nothing else changes. */
  function CloseEffect(rooms: seq<Doc>, roomId: string, closeInfo: Doc): (r: seq<Doc>)
    ensures |r| == |rooms|
    ensures FindOneVoipRoomById(rooms, roomId).None? ==> r == rooms
  {
    match FirstIndex(rooms, VoipRoomById(roomId))
    case None => rooms
    case Some(i) => rooms[i := Closed(rooms[i], closeInfo)]
  }

  /** Closing replaces exactly one room, the first VoIP room with the id, by its closed form. */
  lemma CloseClosesOne(rooms: seq<Doc>, roomId: string, closeInfo: Doc)
    requires FindOneVoipRoomById(rooms, roomId).Some?
    ensures var i := FirstIndex(rooms, VoipRoomById(roomId)).value;
      && rooms[i] == FindOneVoipRoomById(rooms, roomId).value
      && CloseEffect(rooms, roomId, closeInfo) == rooms[i := Closed(rooms[i], closeInfo)]
  {
  }

  /** A closed room is no longer open, its visitor is offline unless the extra data says otherwise, and it stays a VoIP room. */
  lemma ClosedRoomState(room: Doc, closeInfo: Doc)
    requires IsVoip(room)
    ensures var r := Closed(room, closeInfo);
      && "open" !in r && !IsOpen(r)
      && ("v.status" !in closeInfo ==> Get(r, "v.status") == Js.Str("offline"))
      && Get(r, "closedAt") == Get(closeInfo, "closedAt")
      && ("t" !in closeInfo ==> IsVoip(r))
  {
    var set_ := CloseSet(closeInfo);
    if "t" !in closeInfo {
      assert "t" !in set_;
    }
  }

  /** After closing, the room is not found by any of the open-room finders. */
  lemma {:induction false} ClosedRoomNotOpen(rooms: seq<Doc>, roomId: string, closeInfo: Doc, visitorToken: string)
    requires FirstIndex(rooms, VoipRoomById(roomId)).Some?
    ensures var i := FirstIndex(rooms, VoipRoomById(roomId)).value;
      var r := CloseEffect(rooms, roomId, closeInfo);
      && !OpenByVisitorToken(visitorToken)(r[i])
      && !OpenByRoomIdAndVisitorToken(roomId, visitorToken)(r[i])
  {
    var i := FirstIndex(rooms, VoipRoomById(roomId)).value;
    var r := CloseEffect(rooms, roomId, closeInfo);
    assert "open" !in r[i];
    assert !IsOpen(r[i]);
  }

  // ---------------------------------------------------------------------------------------------
  // findRoomsWithCriteria

  /** A `{ start?, end? }` range argument. */
  datatype RangeArg = RangeArg(start: Option<string>, end: Option<string>)

  /** `options`: sort spec, fields, offset and count. */
  datatype FindArgs = FindArgs(sort: Option<seq<(string, int)>>, offset: Option<int>, count: Option<int>)

  /** The criteria argument. */
  datatype Criteria = Criteria(
    agents: Option<seq<string>>,
    open: Option<bool>,
    createdAt: Option<RangeArg>,
    closedAt: Option<RangeArg>,
    tags: Option<seq<string>>,
    queue: Option<string>,
    visitorId: Option<string>,
    direction: Option<string>,
    roomName: Option<string>,
    options: FindArgs)

  /** An operator object `{ $gte?, $lte? }` on a date field. */
  datatype Bounds = Bounds(gte: Option<int>, lte: Option<int>)

  /** The filter the builder produces, one optional constraint per field. */
  datatype Query = Query(
    t: string,
    servedByIn: Option<seq<string>>,
    openExists: Option<bool>,
    visitorId: Option<string>,
    ts: Option<Bounds>,
    closedAt: Option<Bounds>,
    tagsIn: Option<seq<string>>,
    queue: Option<string>,
    direction: Option<string>,
    nameContains: Option<string>)

  /** The options of the resulting `find`. */
  datatype FindOptions = FindOptions(sort: seq<(string, int)>, skip: Option<int>, limit: Option<int>)

  /** The foreign parts: `new Date(string)` and lower-casing for the case-insensitive name match. */
  datatype QueryEnv = QueryEnv(parseDate: string -> int, lower: string -> string)

  /** `range && Object.keys(range).length`: only a range with a key constrains the field. */
  predicate HasKeys(range: Option<RangeArg>) {
    range.Some? && (range.value.start.Some? || range.value.end.Some?)
  }

  /** The bounds a range sets: a truthy start becomes `$gte`, a truthy end `$lte`. */
  function BoundsOf(range: RangeArg, env: QueryEnv): (b: Bounds)
    ensures b.gte.Some? <==> Js.TruthyStr(range.start)
    ensures b.lte.Some? <==> Js.TruthyStr(range.end)
    ensures b.gte.Some? ==> b.gte.value == env.parseDate(range.start.value)
    ensures b.lte.Some? ==> b.lte.value == env.parseDate(range.end.value)
  {
    Bounds(
      if Js.TruthyStr(range.start) then Some(env.parseDate(range.start.value)) else None,
      if Js.TruthyStr(range.end) then Some(env.parseDate(range.end.value)) else None)
  }

  /** The filter the criteria describe, field by field. */
  function CriteriaQuery(c: Criteria, env: QueryEnv): (q: Query)
    ensures q.t == "v"
    ensures q.visitorId.Some? <==> Js.TruthyStr(c.visitorId) && c.visitorId.value != "undefined"
    ensures !HasKeys(c.createdAt) ==> q.ts.None?
    ensures !HasKeys(c.closedAt) ==> q.closedAt.None?
  {
    Query(
      "v",
      c.agents,
      c.open,
      if Js.TruthyStr(c.visitorId) && c.visitorId.value != "undefined" then c.visitorId else None,
      if HasKeys(c.createdAt) then Some(BoundsOf(c.createdAt.value, env)) else None,
      if HasKeys(c.closedAt) then Some(BoundsOf(c.closedAt.value, env)) else None,
      c.tags,
      if Js.TruthyStr(c.queue) then c.queue else None,
      if Js.TruthyStr(c.direction) then c.direction else None,
      if Js.TruthyStr(c.roomName) then c.roomName else None)
  }

  /** The `find` options: the given sort or `{ name: 1 }`, skip = offset, limit = count. */
  function FindOptionsOf(args: FindArgs): (o: FindOptions)
    ensures args.sort.None? ==> o.sort == [("name", 1)]
    ensures args.sort.Some? ==> o.sort == args.sort.value
    ensures o.skip == args.offset && o.limit == args.count
  {
    FindOptions(if args.sort.Some? then args.sort.value else [("name", 1)], args.offset, args.count)
  }

  /** `needle` occurs in `hay`. */
  predicate Contains(hay: string, needle: string) {
    exists i :: 0 <= i <= |hay| && Js.StartsWith(hay[i..], needle)
  }

  /** A string value in the list (`$in`): a field holding an array matches when any element is in the list. */
  predicate ValueIn(v: Js.Value, list: seq<string>) {
    match v
    case Str(s) => s in list
    case Arr(items) => exists i :: 0 <= i < |items| && items[i].Str? && items[i].s in list
    case _ => false
  }

  /** A date field against a `{ $gte?, $lte? }` object; `{}` is an equality match with the empty document, which no date equals. */
  predicate WithinBounds(v: Js.Value, b: Bounds) {
    (b.gte.Some? || b.lte.Some?)
    && v.Date?
    && (b.gte.Some? ==> b.gte.value <= v.ms)
    && (b.lte.Some? ==> v.ms <= b.lte.value)
  }

  /** What a room must satisfy to be returned by the query. */
  predicate Satisfies(d: Doc, q: Query, env: QueryEnv) {
    && Has(d, "t", q.t)
    && (q.servedByIn.Some? ==> ValueIn(Get(d, "servedBy._id"), q.servedByIn.value) || ValueIn(Get(d, "servedBy.username"), q.servedByIn.value))
    && (q.openExists.Some? ==> ("open" in d) == q.openExists.value)
    && (q.visitorId.Some? ==> Has(d, "v._id", q.visitorId.value))
    && (q.ts.Some? ==> WithinBounds(Get(d, "ts"), q.ts.value))
    && (q.closedAt.Some? ==> WithinBounds(Get(d, "closedAt"), q.closedAt.value))
    && (q.tagsIn.Some? ==> ValueIn(Get(d, "tags"), q.tagsIn.value))
    && (q.queue.Some? ==> Has(d, "queue", q.queue.value))
    && (q.direction.Some? ==> Has(d, "direction", q.direction.value))
    && (q.nameContains.Some? ==> Get(d, "name").Str? && Contains(env.lower(Get(d, "name").s), env.lower(q.nameContains.value)))
  }

  /** Every room the criteria query returns is a VoIP room. */
  lemma CriteriaOnlyVoip(d: Doc, c: Criteria, env: QueryEnv)
    requires Satisfies(d, CriteriaQuery(c, env), env)
    ensures IsVoip(d)
  {
  }

  /**
   * The `agents` criterion is met exactly by the rooms served by a listed agent id or a listed
   * username: it adds that condition to the other criteria and nothing else.
   */
  lemma AgentsMatchIdOrUsername(d: Doc, c: Criteria, env: QueryEnv, agentId: string, username: string)
    requires c.agents.Some?
    requires Get(d, "servedBy._id") == Js.Str(agentId) && Get(d, "servedBy.username") == Js.Str(username)
    ensures Satisfies(d, CriteriaQuery(c, env), env) <==>
      Satisfies(d, CriteriaQuery(c.(agents := None), env), env) && (agentId in c.agents.value || username in c.agents.value)
  {
  }

  /** `open` is field existence: `open: false` matches exactly the rooms without the field. */
  lemma OpenIsExistence(d: Doc, c: Criteria, env: QueryEnv)
    requires c.open == Some(false)
    ensures Satisfies(d, CriteriaQuery(c, env), env) ==> "open" !in d
    ensures "open" !in d && Satisfies(d, CriteriaQuery(c.(open := None), env), env) ==> Satisfies(d, CriteriaQuery(c, env), env)
  {
  }

  /** A falsy `visitorId` or the string `'undefined'` adds no constraint. */
  lemma VisitorIdIgnored(c: Criteria, env: QueryEnv)
    requires !Js.TruthyStr(c.visitorId) || c.visitorId.value == "undefined"
    ensures CriteriaQuery(c, env) == CriteriaQuery(c.(visitorId := None), env)
  {
  }

  /** An empty range object adds no constraint. */
  lemma EmptyRangeIgnored(c: Criteria, env: QueryEnv)
    requires c.createdAt == Some(RangeArg(None, None)) && c.closedAt == Some(RangeArg(None, None))
    ensures CriteriaQuery(c, env) == CriteriaQuery(c.(createdAt := None, closedAt := None), env)
  {
  }

  /** A range with both bounds keeps exactly the rooms created within them, both ends included. */
  lemma CreatedAtRangeInclusive(d: Doc, c: Criteria, env: QueryEnv, start: string, end: string)
    requires c.createdAt == Some(RangeArg(Some(start), Some(end))) && start != "" && end != ""
    ensures var q := CriteriaQuery(c, env);
      q.ts.Some? && (WithinBounds(Get(d, "ts"), q.ts.value) <==>
        Get(d, "ts").Date? && env.parseDate(start) <= Get(d, "ts").ms <= env.parseDate(end))
  {
  }

  /** A range with only a start bounds the field from below alone. */
  lemma CreatedAtStartOnly(d: Doc, c: Criteria, env: QueryEnv, start: string)
    requires c.createdAt == Some(RangeArg(Some(start), None)) && start != ""
    ensures var q := CriteriaQuery(c, env);
      q.ts.Some? && (WithinBounds(Get(d, "ts"), q.ts.value) <==> Get(d, "ts").Date? && env.parseDate(start) <= Get(d, "ts").ms)
  {
  }

  /** The criteria with no constraint return exactly the VoIP rooms. */
  lemma NoCriteriaAllVoip(d: Doc, env: QueryEnv, options: FindArgs)
    ensures Satisfies(d, CriteriaQuery(Criteria(None, None, None, None, None, None, None, None, None, options), env), env) <==> IsVoip(d)
  {
  }

  /** The rooms collection as an object updated in place. */
  class VoipRoomStore {
    var rooms: seq<Doc>

    constructor (initial: seq<Doc>)
      ensures rooms == initial
    {
      rooms := initial;
    }

    /** closeByRoomId(roomId, closeInfo): updates the first matching room; `matched` is the write result's count. */
    method CloseByRoomId(roomId: string, closeInfo: Doc) returns (matched: nat)
      modifies this
      ensures rooms == CloseEffect(old(rooms), roomId, closeInfo)
      ensures matched == (if FindOneVoipRoomById(old(rooms), roomId).Some? then 1 else 0)
    {
      var i := FirstIndex(rooms, VoipRoomById(roomId));
      if i.None? {
        return 0;
      }
      var closer := Get(closeInfo, "closer");
      var closedBy := Get(closeInfo, "closedBy");
      var closedAt := Get(closeInfo, "closedAt");
      var callDuration := Get(closeInfo, "callDuration");
      var serviceTimeDuration := Get(closeInfo, "serviceTimeDuration");
      var extraData := closeInfo - ClosingKeys;
      var set_ := map[
        "closer" := closer,
        "closedBy" := closedBy,
        "closedAt" := closedAt,
        "callDuration" := callDuration,
        "metrics.serviceTimeDuration" := serviceTimeDuration,
        "v.status" := Js.Str("offline")
      ] + extraData;
      rooms := rooms[i.value := (rooms[i.value] + set_) - {"open"}];
      return 1;
    }

    /** The `$gte`/`$lte` object of one range, filled in bound by bound. */
    static method BuildBounds(range: RangeArg, env: QueryEnv) returns (b: Bounds)
      ensures b == BoundsOf(range, env)
    {
      b := Bounds(None, None);
      if Js.TruthyStr(range.start) {
        b := b.(gte := Some(env.parseDate(range.start.value)));
      }
      if Js.TruthyStr(range.end) {
        b := b.(lte := Some(env.parseDate(range.end.value)));
      }
    }

    /** The person and state criteria: agents, open, visitorId. */
    static method ApplyPartyCriteria(c: Criteria, env: QueryEnv, q: Query) returns (query: Query)
      requires q.servedByIn.None? && q.openExists.None? && q.visitorId.None?
      ensures var target := CriteriaQuery(c, env);
        query == q.(servedByIn := target.servedByIn, openExists := target.openExists, visitorId := target.visitorId)
    {
      query := q;
      if c.agents.Some? {
        query := query.(servedByIn := c.agents);
      }
      if c.open.Some? {
        query := query.(openExists := c.open);
      }
      if Js.TruthyStr(c.visitorId) && c.visitorId.value != "undefined" {
        query := query.(visitorId := c.visitorId);
      }
    }

    /** The date ranges: createdAt on `ts`, closedAt on `closedAt`. */
    static method ApplyDateCriteria(c: Criteria, env: QueryEnv, q: Query) returns (query: Query)
      requires q.ts.None? && q.closedAt.None?
      ensures var target := CriteriaQuery(c, env);
        query == q.(ts := target.ts, closedAt := target.closedAt)
    {
      query := q;
      if HasKeys(c.createdAt) {
        var ts := BuildBounds(c.createdAt.value, env);
        query := query.(ts := Some(ts));
      }
      if HasKeys(c.closedAt) {
        var closed := BuildBounds(c.closedAt.value, env);
        query := query.(closedAt := Some(closed));
      }
    }

    /** The room attributes: tags, queue, direction, name. */
    static method ApplyRoomCriteria(c: Criteria, env: QueryEnv, q: Query) returns (query: Query)
      requires q.tagsIn.None? && q.queue.None? && q.direction.None? && q.nameContains.None?
      ensures var target := CriteriaQuery(c, env);
        query == q.(tagsIn := target.tagsIn, queue := target.queue, direction := target.direction, nameContains := target.nameContains)
    {
      query := q;
      if c.tags.Some? {
        query := query.(tagsIn := c.tags);
      }
      if Js.TruthyStr(c.queue) {
        query := query.(queue := c.queue);
      }
      if Js.TruthyStr(c.direction) {
        query := query.(direction := c.direction);
      }
      if Js.TruthyStr(c.roomName) {
        query := query.(nameContains := c.roomName);
      }
    }

    /** findRoomsWithCriteria: the filter built up criterion by criterion, and the find options. */
    method FindRoomsWithCriteria(c: Criteria, env: QueryEnv) returns (query: Query, options: FindOptions)
      ensures query == CriteriaQuery(c, env) && options == FindOptionsOf(c.options)
    {
      query := Query("v", None, None, None, None, None, None, None, None, None);
      query := ApplyPartyCriteria(c, env, query);
      query := ApplyDateCriteria(c, env, query);
      query := ApplyRoomCriteria(c, env, query);
      var sort := if c.options.sort.Some? then c.options.sort.value else [("name", 1)];
      options := FindOptions(sort, c.options.offset, c.options.count);
    }
  }
}
