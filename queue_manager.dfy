/**
 * The omnichannel inquiry queue: requesting a room, unarchiving a closed room, and queueing
 * an inquiry towards the router (apps/meteor/app/livechat/server/lib/QueueManager.ts).
 *
 * The stores (rooms by id, the inquiry collection, the online-agent directory) are a `Store`
 * value; every outward call (the routing manager, the MAC-limit gate, the app/notification
 * emitters, the room/inquiry creation helpers) is recorded in `Store.log` in call order, and the
 * collaborators whose code is not modelled answer through an `Env` of oracle functions.
 * The `...Effect` functions specify each operation on a `Store`; class `QueueManager` performs
 * the same operations step by step on its fields and is proved to agree with them.
 */
module LivechatQueue {
  import opened Wrappers
  import opened Collections
  import Js

  type RoomId = string
  type InquiryId = string

  /** LivechatInquiryStatus. */
  datatype InquiryStatus = Queued | Ready | Taken | Open

  /** The visitor descriptor; its field types carry the shape check `requestRoom` runs on it. */
  datatype Guest = Guest(
    id: string,
    username: string,
    name: Option<string>,
    department: Option<string>,
    status: Option<string>)

  /** A routing hint: an agent id and, optionally, its username. */
  datatype SelectedAgent = SelectedAgent(agentId: string, username: Option<string>)

  /** The agent recorded as serving a room. */
  datatype ServedBy = ServedBy(id: string, username: Option<string>)

  /** An omnichannel room; `lastMessage` is the text of the room's last message, if any. */
  datatype Room = Room(
    id: RoomId,
    open: bool,
    closedAt: Option<int>,
    fname: Option<string>,
    servedBy: Option<ServedBy>,
    v: Guest,
    departmentId: Option<string>,
    lastMessage: Option<string>,
    source: string)

  /** An inquiry record as the inquiry store holds it. */
  datatype Inquiry = Inquiry(
    id: InquiryId,
    rid: RoomId,
    status: InquiryStatus,
    queuedAt: Option<int>,
    takenAt: Option<int>)

  /** The `roomInfo` argument of `requestRoom`: the fields the queue manager reads. */
  datatype RoomInfo = RoomInfo(fname: Option<string>, source: Option<string>)

  /** The `extraData` argument: `customFields` (kept only when present) and the remaining keys. */
  datatype ExtraData = ExtraData(customFields: Option<map<string, string>>, fields: map<string, string>)

  /** The extra data handed to the inquiry creation: the remaining keys, then `source`. */
  datatype InquiryExtra = InquiryExtra(fields: map<string, string>, source: Option<string>)

  /** The arguments passed to `createLivechatRoom`. */
  datatype RoomArgs = RoomArgs(rid: RoomId, name: string, guest: Guest, roomInfo: RoomInfo, extra: ExtraData)

  /** The arguments passed to `createLivechatInquiry`. */
  datatype InquiryArgs = InquiryArgs(
    rid: RoomId,
    name: Option<string>,
    guest: Guest,
    message: Option<string>,
    extra: InquiryExtra)

  /** One outward call or notification, in the order the queue manager makes them. */
  datatype Event =
    | RoomCreated(roomArgs: RoomArgs)
    | InquiryCreated(inquiryArgs: InquiryArgs)
    | InquiryRemoved(removedRid: RoomId, removedId: InquiryId)
    | RoomUnarchived(unarchivedRid: RoomId)
    | RoomStarted(startedRoom: Room)
    | RoomCountChanged
    | AgentDelegated(defaultAgent: Option<SelectedAgent>, delegatedId: InquiryId)
    | BeforeRouteChat(routedId: InquiryId, routedAgent: Option<SelectedAgent>)
    | InquiryQueued(queued: Inquiry)
    | InquiryChanged(changed: Inquiry)
    | InquiryDelegated(inquiry: Inquiry, agent: Option<SelectedAgent>, overrideArg: Option<bool>, room: Room)

  /** The answers of the collaborators whose code is not part of this model. */
  datatype Env = Env(
    // Livechat.online(department)
    departmentOnline: Option<string> -> bool,
    // Omnichannel.isWithinMACLimit(room)
    withinMacLimit: Room -> bool,
    // RoutingManager.delegateAgent(defaultAgent, inquiry)
    delegateAgent: (Option<SelectedAgent>, Inquiry) -> Option<SelectedAgent>,
    // the record createLivechatRoom leaves under the requested id, if it leaves one
    createRoom: RoomArgs -> Option<Room>,
    // the record createLivechatInquiry inserts, if it inserts one
    createInquiry: InquiryArgs -> Option<Inquiry>,
    // LivechatRooms.updateRoomCount() returned a setting
    roomCountSetting: bool,
    // the inquiry collection as delegateAgent and the beforeRouteChat callbacks leave it
    routingHooks: (Inquiry, Option<SelectedAgent>, seq<Inquiry>) -> seq<Inquiry>,
    // the room as RoutingManager.delegateInquiry leaves it (None: no record remains)
    routedRoom: (Inquiry, Option<SelectedAgent>, Room) -> Option<Room>,
    // the inquiry collection as RoutingManager.delegateInquiry leaves it (taking the inquiry, say)
    routedInquiries: (Inquiry, Option<SelectedAgent>, Room, seq<Inquiry>) -> seq<Inquiry>)

  /** The stores the queue manager reads and writes, and the log of its outward calls. */
  datatype Store = Store(
    rooms: map<RoomId, Room>,
    inquiries: seq<Inquiry>,
    agentSessions: map<string, nat>,
    onlineAgents: set<string>,
    log: seq<Event>)

  datatype QueueError = NoAgentOnline | RoomNotFound | InquiryNotFound | NoRoomToUnarchive

  /** The state after an operation, and what it returned or threw. */
  datatype Outcome<T> = Outcome(store: Store, result: Result<T, QueueError>)

  /** The `requestRoom` parameters; `rid` is the caller's id or the freshly generated one. */
  datatype Request = Request(
    guest: Guest,
    rid: RoomId,
    message: Option<string>,
    roomInfo: RoomInfo,
    agent: Option<SelectedAgent>,
    extraData: ExtraData)

  // ---------------------------------------------------------------------------------------------
  // Store reads

  /** LivechatInquiry.findOneById: the first inquiry with that id. */
  function IndexOfInquiry(inquiries: seq<Inquiry>, id: InquiryId): Option<nat> {
    FirstIndex(inquiries, (q: Inquiry) => q.id == id)
  }

  /** LivechatInquiry.findOneByRoomId: the first inquiry of that room. */
  function IndexOfRoomInquiry(inquiries: seq<Inquiry>, rid: RoomId): Option<nat> {
    FirstIndex(inquiries, (q: Inquiry) => q.rid == rid)
  }

  /** Users.countOnlineAgents(agentId). */
  function OnlineSessions(sessions: map<string, nat>, agentId: string): nat {
    if agentId in sessions then sessions[agentId] else 0
  }

  /** The routing gate: the inquiry's room exists and is within the MAC limit. */
  predicate RoutingAllowed(s: Store, env: Env, rid: RoomId) {
    rid in s.rooms && env.withinMacLimit(s.rooms[rid])
  }

  /** The new events an operation appended to the log. */
  function NewEvents(before: Store, after: Store): seq<Event>
    requires |before.log| <= |after.log|
  {
    after.log[|before.log|..]
  }

  /** The log of `after` extends the log of `before`. */
  predicate Appended(before: Store, after: Store) {
    |before.log| <= |after.log| && after.log[..|before.log|] == before.log
  }

  /** No event creates or removes a room or an inquiry. */
  predicate NoCreations(events: seq<Event>) {
    forall k :: 0 <= k < |events| ==>
      !events[k].RoomCreated? && !events[k].InquiryCreated? && !events[k].InquiryRemoved?
  }

  /** Some event hands an inquiry to the router. */
  predicate HasDelegation(events: seq<Event>) {
    exists k :: 0 <= k < |events| && events[k].InquiryDelegated?
  }

  // ---------------------------------------------------------------------------------------------
  // checkServiceStatus

  /** With a selected agent, that agent must have an online session; otherwise the department decides. */
  function ServiceOnline(s: Store, env: Env, department: Option<string>, agent: Option<SelectedAgent>): (online: bool)
    ensures agent.None? ==> online == env.departmentOnline(department)
    ensures agent.Some? ==> (online <==> agent.value.agentId in s.agentSessions && s.agentSessions[agent.value.agentId] > 0)
  {
    match agent
    case None => env.departmentOnline(department)
    case Some(a) => OnlineSessions(s.agentSessions, a.agentId) > 0
  }

  // ---------------------------------------------------------------------------------------------
  // saveQueueInquiry

  /** LivechatInquiry.queueInquiry sets the status to queued, stamps queuedAt and clears takenAt. */
  function QueuedRecord(q: Inquiry, now: int): (r: Inquiry)
    ensures r.id == q.id && r.rid == q.rid
    ensures r.status == Queued && r.queuedAt == Some(now) && r.takenAt.None?
  {
    q.(status := Queued, queuedAt := Some(now), takenAt := None)
  }

  /**
   * saveQueueInquiry: queue the stored inquiry with the same id; only when the store returned the
   * queued record do the afterInquiryQueued callback and the change notification follow.
   */
  function SaveQueueInquiryEffect(s: Store, inquiry: Inquiry, now: int): (r: Store)
    ensures r.rooms == s.rooms && r.agentSessions == s.agentSessions && r.onlineAgents == s.onlineAgents
    ensures IndexOfInquiry(s.inquiries, inquiry.id).None? <==> r == s
    ensures IndexOfInquiry(s.inquiries, inquiry.id).Some? ==>
      var i := IndexOfInquiry(s.inquiries, inquiry.id).value;
      && |r.inquiries| == |s.inquiries|
      && (forall k :: 0 <= k < |s.inquiries| && k != i ==> r.inquiries[k] == s.inquiries[k])
      && r.inquiries[i] == QueuedRecord(s.inquiries[i], now)
      && r.inquiries[i].id == inquiry.id && r.inquiries[i].status == Queued
      && r.inquiries[i].queuedAt == Some(now) && r.inquiries[i].takenAt.None?
      && r.log == s.log + [InquiryQueued(r.inquiries[i]), InquiryChanged(r.inquiries[i])]
  {
    match IndexOfInquiry(s.inquiries, inquiry.id)
    case None => s
    case Some(i) =>
      var queued := QueuedRecord(s.inquiries[i], now);
      s.(inquiries := s.inquiries[i := queued], log := s.log + [InquiryQueued(queued), InquiryChanged(queued)])
  }

  // ---------------------------------------------------------------------------------------------
  // queueInquiry

  /** The room map after delegateInquiry: the routed record replaces the room, or none remains. */
  function RouteRoom(rooms: map<RoomId, Room>, rid: RoomId, routed: Option<Room>): (r: map<RoomId, Room>)
    ensures rid in r <==> routed.Some?
    ensures routed.Some? ==> r[rid] == routed.value
    ensures forall id :: id != rid ==> (id in r <==> id in rooms)
    ensures forall id :: id != rid && id in rooms ==> r[id] == rooms[id]
  {
    match routed
    case Some(room) => rooms[rid := room]
    case None => rooms - {rid}
  }

  /** The store once delegateAgent and the beforeRouteChat callbacks have run. */
  function PreRouted(s: Store, env: Env, inquiry: Inquiry, defaultAgent: Option<SelectedAgent>): (r: Store)
    ensures r.rooms == s.rooms && r.agentSessions == s.agentSessions && r.onlineAgents == s.onlineAgents
    ensures r.log == s.log + [AgentDelegated(defaultAgent, inquiry.id), BeforeRouteChat(inquiry.id, env.delegateAgent(defaultAgent, inquiry))]
  {
    var agent := env.delegateAgent(defaultAgent, inquiry);
    s.(inquiries := env.routingHooks(inquiry, agent, s.inquiries),
       log := s.log + [AgentDelegated(defaultAgent, inquiry.id), BeforeRouteChat(inquiry.id, agent)])
  }

  /** The only agent hint among `events` is the first event, and it is `defaultAgent`. */
  predicate HintIs(events: seq<Event>, defaultAgent: Option<SelectedAgent>) {
    forall k :: 0 <= k < |events| && events[k].AgentDelegated? ==> k == 0 && events[k].defaultAgent == defaultAgent
  }

  /** Every event queues, announces a change to, or routes an inquiry. */
  predicate QueueingOnly(events: seq<Event>) {
    forall k :: 0 <= k < |events| ==> events[k].InquiryQueued? || events[k].InquiryChanged? || events[k].InquiryDelegated?
  }

  /** The two routing calls, then queueing events only: nothing is created and the hint is the given one. */
  lemma {:induction false} HintThenQueueing(events: seq<Event>, defaultAgent: Option<SelectedAgent>, id: InquiryId, agent: Option<SelectedAgent>, tail: seq<Event>)
    requires events == [AgentDelegated(defaultAgent, id), BeforeRouteChat(id, agent)] + tail
    requires QueueingOnly(tail)
    ensures NoCreations(events) && HintIs(events, defaultAgent)
  {
    forall k | 2 <= k < |events|
      ensures events[k] == tail[k - 2]
    {
    }
  }

  /**
   * queueInquiry: ask the router for an agent, run the beforeRouteChat callbacks, then either park
   * the inquiry as queued (room missing or MAC limit reached) or re-read the inquiry and hand it to
   * the router when, and only when, its stored status is `ready`.
   */
  function QueueInquiryEffect(s: Store, env: Env, inquiry: Inquiry, defaultAgent: Option<SelectedAgent>, now: int): (r: Outcome<()>)
    ensures Appended(s, r.store) && |NewEvents(s, r.store)| >= 2
    ensures NoCreations(NewEvents(s, r.store)) && HintIs(NewEvents(s, r.store), defaultAgent)
    ensures r.store.agentSessions == s.agentSessions && r.store.onlineAgents == s.onlineAgents
    ensures r.result.Err? ==> r.result.error == InquiryNotFound
  {
    var agent := env.delegateAgent(defaultAgent, inquiry);
    var s1 := PreRouted(s, env, inquiry, defaultAgent);
    var r := RouteOrPark(s1, env, inquiry, agent, now);
    EventsSplit(s, s1, r.store);
    HintThenQueueing(NewEvents(s, r.store), defaultAgent, inquiry.id, agent, NewEvents(s1, r.store));
    r
  }

  /** queueInquiry once the routing hooks have run: park the inquiry, or route it when it is ready. */
  function RouteOrPark(s1: Store, env: Env, inquiry: Inquiry, agent: Option<SelectedAgent>, now: int): (r: Outcome<()>)
    ensures Appended(s1, r.store) && QueueingOnly(NewEvents(s1, r.store))
    ensures r.store.agentSessions == s1.agentSessions && r.store.onlineAgents == s1.onlineAgents
    ensures r.result.Err? ==> r.result.error == InquiryNotFound
  {
    if !RoutingAllowed(s1, env, inquiry.rid) then
      Outcome(SaveQueueInquiryEffect(s1, inquiry, now), Ok(()))
    else
      match IndexOfInquiry(s1.inquiries, inquiry.id)
      case None => Outcome(s1, Err(InquiryNotFound))
      case Some(i) =>
        var db := s1.inquiries[i];
        var room := s1.rooms[inquiry.rid];
        if db.status == Ready then
          Outcome(s1.(rooms := RouteRoom(s1.rooms, inquiry.rid, env.routedRoom(db, agent, room)),
                      inquiries := env.routedInquiries(db, agent, room, s1.inquiries),
                      log := s1.log + [InquiryDelegated(db, agent, None, room)]), Ok(()))
        else
          Outcome(s1, Ok(()))
  }

  /**
   * A missing room or a reached MAC limit parks the inquiry: saveQueueInquiry runs on the store
   * the routing hooks left, nothing is handed to the router and nothing is thrown.
   */
  lemma {:induction false} QueueInquiryParksWhenNotRoutable(s: Store, env: Env, inquiry: Inquiry, defaultAgent: Option<SelectedAgent>, now: int)
    requires !RoutingAllowed(s, env, inquiry.rid)
    ensures var r := QueueInquiryEffect(s, env, inquiry, defaultAgent, now);
      && r.result.Ok?
      && r.store == SaveQueueInquiryEffect(PreRouted(s, env, inquiry, defaultAgent), inquiry, now)
      && r.store.rooms == s.rooms
      && !HasDelegation(NewEvents(s, r.store))
  {
    var s1 := PreRouted(s, env, inquiry, defaultAgent);
    var r := QueueInquiryEffect(s, env, inquiry, defaultAgent, now);
    assert r.store == SaveQueueInquiryEffect(s1, inquiry, now);
    var events := NewEvents(s, r.store);
    forall k | 0 <= k < |events| ensures !events[k].InquiryDelegated? {
      if k >= 2 {
        assert events[k] == r.store.log[|s1.log| + k - 2];
      }
    }
  }

  /**
   * On a routable room the inquiry is re-read after the hooks: it throws `inquiry-not-found` when
   * no record remains, and it is handed to the router exactly when the re-read status is `ready`,
   * as that re-read record, with the router's agent, no override, and the room as read.
   */
  lemma {:induction false} QueueInquiryDelegatesOnlyReady(s: Store, env: Env, inquiry: Inquiry, defaultAgent: Option<SelectedAgent>, now: int)
    requires RoutingAllowed(s, env, inquiry.rid)
    ensures var r := QueueInquiryEffect(s, env, inquiry, defaultAgent, now);
      var s1 := PreRouted(s, env, inquiry, defaultAgent);
      var found := IndexOfInquiry(s1.inquiries, inquiry.id);
      var agent := env.delegateAgent(defaultAgent, inquiry);
      && (r.result.Err? <==> found.None?)
      && (HasDelegation(NewEvents(s, r.store)) <==> found.Some? && s1.inquiries[found.value].status == Ready)
      && (HasDelegation(NewEvents(s, r.store)) ==>
            var db := s1.inquiries[found.value];
            && NewEvents(s, r.store)[2] == InquiryDelegated(db, agent, None, s.rooms[inquiry.rid])
            && r.store.rooms == RouteRoom(s.rooms, inquiry.rid, env.routedRoom(db, agent, s.rooms[inquiry.rid]))
            && r.store.inquiries == env.routedInquiries(db, agent, s.rooms[inquiry.rid], s1.inquiries)
            && r.result.Ok?)
      && (!HasDelegation(NewEvents(s, r.store)) ==> r.store == s1)
  {
    var s1 := PreRouted(s, env, inquiry, defaultAgent);
    var r := QueueInquiryEffect(s, env, inquiry, defaultAgent, now);
    var events := NewEvents(s, r.store);
    var found := IndexOfInquiry(s1.inquiries, inquiry.id);
    if found.Some? && s1.inquiries[found.value].status == Ready {
      assert events[2].InquiryDelegated?;
    } else {
      assert r.store == s1;
      forall k | 0 <= k < |events| ensures !events[k].InquiryDelegated? {
      }
    }
  }

  /**
   * Re-queueing is safe to repeat: queueing an inquiry whose room is missing or over the MAC limit
   * twice leaves the stored record queued both times, with a queuedAt that does not decrease.
   */
  lemma {:induction false} QueueTwiceOverCapacity(s: Store, env: Env, inquiry: Inquiry, agent: Option<SelectedAgent>, now1: int, now2: int)
    requires !RoutingAllowed(s, env, inquiry.rid)
    requires IndexOfInquiry(PreRouted(s, env, inquiry, agent).inquiries, inquiry.id).Some?
    requires IndexOfInquiry(PreRouted(QueueInquiryEffect(s, env, inquiry, agent, now1).store, env, inquiry, agent).inquiries, inquiry.id).Some?
    requires now1 <= now2
    ensures var r1 := QueueInquiryEffect(s, env, inquiry, agent, now1).store;
            var r2 := QueueInquiryEffect(r1, env, inquiry, agent, now2).store;
            var i1 := IndexOfInquiry(PreRouted(s, env, inquiry, agent).inquiries, inquiry.id).value;
            var i2 := IndexOfInquiry(PreRouted(r1, env, inquiry, agent).inquiries, inquiry.id).value;
            && r1.inquiries[i1].id == inquiry.id && r2.inquiries[i2].id == inquiry.id
            && r1.inquiries[i1].status == Queued && r2.inquiries[i2].status == Queued
            && r1.inquiries[i1].queuedAt == Some(now1) && r2.inquiries[i2].queuedAt == Some(now2)
            && r1.inquiries[i1].takenAt.None? && r2.inquiries[i2].takenAt.None?
            && r1.inquiries[i1].queuedAt.value <= r2.inquiries[i2].queuedAt.value
  {
    QueueInquiryParksWhenNotRoutable(s, env, inquiry, agent, now1);
    var r1 := QueueInquiryEffect(s, env, inquiry, agent, now1).store;
    assert !RoutingAllowed(r1, env, inquiry.rid);
    QueueInquiryParksWhenNotRoutable(r1, env, inquiry, agent, now2);
  }

  // ---------------------------------------------------------------------------------------------
  // requestRoom

  /** The room name: `roomInfo.fname`, else the guest's name, else the guest's username. */
  function RoomName(info: RoomInfo, guest: Guest): (name: string)
    ensures Js.TruthyStr(info.fname) ==> name == info.fname.value
    ensures !Js.TruthyStr(info.fname) && Js.TruthyStr(guest.name) ==> name == guest.name.value
    ensures !Js.TruthyStr(info.fname) && !Js.TruthyStr(guest.name) ==> name == guest.username
  {
    if Js.TruthyStr(info.fname) then info.fname.value
    else if Js.TruthyStr(guest.name) then guest.name.value
    else guest.username
  }

  /** The arguments of createLivechatRoom for a request. */
  function RoomArgsOf(req: Request): RoomArgs {
    RoomArgs(req.rid, RoomName(req.roomInfo, req.guest), req.guest, req.roomInfo, req.extraData)
  }

  /**
   * The arguments of createLivechatInquiry for a request: the room's id and name, and the extra
   * keys without `customFields`, with `source` taken from `roomInfo`.
   */
  function InquiryArgsOf(req: Request): (a: InquiryArgs)
    ensures a.rid == req.rid && a.name == Some(RoomName(req.roomInfo, req.guest))
    ensures a.extra.source == req.roomInfo.source && "source" !in a.extra.fields
    ensures forall k :: k in a.extra.fields <==> k in req.extraData.fields && k != "source"
  {
    InquiryArgs(req.rid, Some(RoomName(req.roomInfo, req.guest)), req.guest, req.message,
                InquiryExtra(req.extraData.fields - {"source"}, req.roomInfo.source))
  }

  /** createLivechatRoom followed by the store as it then reads. */
  function CreateRoomStep(s: Store, env: Env, args: RoomArgs): (r: Store)
    ensures r.inquiries == s.inquiries && r.log == s.log + [RoomCreated(args)]
  {
    var rooms := match env.createRoom(args) case Some(room) => s.rooms[args.rid := room] case None => s.rooms;
    s.(rooms := rooms, log := s.log + [RoomCreated(args)])
  }

  /** createLivechatInquiry followed by findOneById on the id it produced. */
  function CreateInquiryStep(s: Store, env: Env, args: InquiryArgs): (r: (Store, Option<Inquiry>))
    ensures r.0.rooms == s.rooms && r.0.log == s.log + [InquiryCreated(args)]
    ensures r.1.Some? ==> r.1.value in r.0.inquiries
  {
    match env.createInquiry(args)
    case None => (s.(log := s.log + [InquiryCreated(args)]), None)
    case Some(created) =>
      var inquiries := s.inquiries + [created];
      var i := IndexOfInquiry(inquiries, created.id);
      assert i.Some? by { assert inquiries[|s.inquiries|].id == created.id; }
      (s.(inquiries := inquiries, log := s.log + [InquiryCreated(args)]), Some(inquiries[i.value]))
  }

  /** The app event for a started room, then the room-count notification when the count setting changed. */
  function AnnounceStep(s: Store, env: Env, room: Room): (r: Store)
    ensures r.rooms == s.rooms && r.inquiries == s.inquiries
    ensures r.agentSessions == s.agentSessions && r.onlineAgents == s.onlineAgents
    ensures |r.log| == |s.log| + (if env.roomCountSetting then 2 else 1) && r.log[..|s.log|] == s.log
    ensures r.log[|s.log|] == RoomStarted(room)
    ensures env.roomCountSetting ==> r.log[|s.log| + 1] == RoomCountChanged
  {
    s.(log := s.log + [RoomStarted(room)] + (if env.roomCountSetting then [RoomCountChanged] else []))
  }

  /** Turns a queueing failure into the failure of the enclosing operation. */
  function Rethrow<T>(q: Outcome<()>, value: T): (r: Outcome<T>)
    ensures r.store == q.store && (r.result.Err? <==> q.result.Err?)
    ensures q.result.Err? ==> r.result.error == q.result.error
    ensures q.result.Ok? ==> r.result.value == value
  {
    Outcome(q.store, if q.result.Err? then Err(q.result.error) else Ok(value))
  }

  /** Logs compose: the events of two successive steps are the events of the first, then the second. */
  lemma EventsSplit(s: Store, m: Store, r: Store)
    requires Appended(s, m) && Appended(m, r)
    ensures Appended(s, r) && NewEvents(s, r) == NewEvents(s, m) + NewEvents(m, r)
  {
    assert r.log[..|s.log|] == r.log[..|m.log|][..|s.log|];
  }

  /** Announcing a room and queueing its inquiry creates no room and no inquiry. */
  lemma AnnounceAndQueueCreateNothing(s: Store, env: Env, room: Room, inquiry: Inquiry, agent: Option<SelectedAgent>, now: int)
    ensures var q := QueueInquiryEffect(AnnounceStep(s, env, room), env, inquiry, agent, now).store;
      Appended(s, q) && NoCreations(NewEvents(s, q))
  {
    var s3 := AnnounceStep(s, env, room);
    var q := QueueInquiryEffect(s3, env, inquiry, agent, now).store;
    EventsSplit(s, s3, q);
    forall k | 0 <= k < |NewEvents(s, q)|
      ensures !NewEvents(s, q)[k].RoomCreated? && !NewEvents(s, q)[k].InquiryCreated? && !NewEvents(s, q)[k].InquiryRemoved?
    {
      if k >= |NewEvents(s, s3)| {
        assert NewEvents(s, q)[k] == NewEvents(s3, q)[k - |NewEvents(s, s3)|];
      }
    }
  }

  /**
   * requestRoom: refuse when no agent is online (before touching any store), create the room,
   * re-read it, create the inquiry for the same room id, re-read it, announce the room, queue the
   * inquiry, and return the room as it reads afterwards.
   */
  function RequestRoomEffect(s: Store, env: Env, req: Request, now: int): (r: Outcome<Room>)
    ensures Appended(s, r.store)
    ensures !ServiceOnline(s, env, req.guest.department, req.agent) ==> r == Outcome(s, Err(NoAgentOnline))
  {
    if !ServiceOnline(s, env, req.guest.department, req.agent) then Outcome(s, Err(NoAgentOnline))
    else
      var s1 := CreateRoomStep(s, env, RoomArgsOf(req));
      var r := RequestRoomAfterRoom(s1, env, req, now);
      EventsSplit(s, s1, r.store);
      r
  }

  /** requestRoom once the room was created: read it back, then create and read back its inquiry. */
  function RequestRoomAfterRoom(s1: Store, env: Env, req: Request, now: int): (r: Outcome<Room>)
    ensures Appended(s1, r.store)
    ensures req.rid !in s1.rooms ==> r == Outcome(s1, Err(RoomNotFound))
    ensures req.rid in s1.rooms ==>
      var s2 := CreateInquiryStep(s1, env, InquiryArgsOf(req)).0;
      && Appended(s2, r.store) && NoCreations(NewEvents(s2, r.store))
      && (r.result.Ok? ==> CreateInquiryStep(s1, env, InquiryArgsOf(req)).1.Some?)
  {
    if req.rid !in s1.rooms then Outcome(s1, Err(RoomNotFound))
    else
      var (s2, created) := CreateInquiryStep(s1, env, InquiryArgsOf(req));
      var r := RequestRoomAfterInquiry(s2, env, req, s1.rooms[req.rid], created, now);
      EventsSplit(s1, s2, r.store);
      r
  }

  /** requestRoom once the inquiry was created: announce the room, queue the inquiry, re-read the room. */
  function RequestRoomAfterInquiry(s2: Store, env: Env, req: Request, room: Room, created: Option<Inquiry>, now: int): (r: Outcome<Room>)
    ensures Appended(s2, r.store) && NoCreations(NewEvents(s2, r.store))
    ensures created.None? ==> r == Outcome(s2, Err(InquiryNotFound))
    ensures r.result.Ok? ==> req.rid in r.store.rooms && r.result.value == r.store.rooms[req.rid]
  {
    match created
    case None => Outcome(s2, Err(InquiryNotFound))
    case Some(inquiry) =>
      var q := QueueInquiryEffect(AnnounceStep(s2, env, room), env, inquiry, req.agent, now);
      AnnounceAndQueueCreateNothing(s2, env, room, inquiry, req.agent, now);
      if q.result.Err? then Outcome(q.store, Err(q.result.error))
      else if req.rid !in q.store.rooms then Outcome(q.store, Err(RoomNotFound))
      else Outcome(q.store, Ok(q.store.rooms[req.rid]))
  }

  /**
   * An online service makes requestRoom create the room before anything else; when the room then
   * cannot be read back, it stops there with `room-not-found`. Exactly one room is created, and an
   * inquiry is created only right after it, for the same room id, once the room was read back.
   */
  lemma {:induction false} RequestRoomCreatesRoomBeforeInquiry(s: Store, env: Env, req: Request, now: int)
    requires ServiceOnline(s, env, req.guest.department, req.agent)
    ensures var r := RequestRoomEffect(s, env, req, now);
      var events := NewEvents(s, r.store);
      var s1 := CreateRoomStep(s, env, RoomArgsOf(req));
      && |events| >= 1 && events[0] == RoomCreated(RoomArgsOf(req))
      && (req.rid !in s1.rooms ==> r == Outcome(s1, Err(RoomNotFound)))
      && (forall k :: 1 <= k < |events| ==> !events[k].RoomCreated?)
      && (forall k :: 0 <= k < |events| && events[k].InquiryCreated? ==>
            k == 1 && events[k].inquiryArgs == InquiryArgsOf(req) && req.rid in s1.rooms)
      && (r.result.Ok? ==> |events| >= 2 && events[1] == InquiryCreated(InquiryArgsOf(req)))
  {
    var s1 := CreateRoomStep(s, env, RoomArgsOf(req));
    var r := RequestRoomAfterRoom(s1, env, req, now);
    assert RequestRoomEffect(s, env, req, now) == r;
    EventsSplit(s, s1, r.store);
    assert NewEvents(s, s1) == [RoomCreated(RoomArgsOf(req))];
    if req.rid in s1.rooms {
      var s2 := CreateInquiryStep(s1, env, InquiryArgsOf(req)).0;
      EventsSplit(s1, s2, r.store);
      assert NewEvents(s1, s2) == [InquiryCreated(InquiryArgsOf(req))];
      assert NewEvents(s, r.store) == [RoomCreated(RoomArgsOf(req)), InquiryCreated(InquiryArgsOf(req))] + NewEvents(s2, r.store);
    }
  }

  /** A successful requestRoom returns the room as the store holds it at the end. */
  lemma {:induction false} RequestRoomReturnsStoredRoom(s: Store, env: Env, req: Request, now: int)
    requires RequestRoomEffect(s, env, req, now).result.Ok?
    ensures var r := RequestRoomEffect(s, env, req, now);
      req.rid in r.store.rooms && r.result.value == r.store.rooms[req.rid]
  {
    var s1 := CreateRoomStep(s, env, RoomArgsOf(req));
    var (s2, created) := CreateInquiryStep(s1, env, InquiryArgsOf(req));
    assert RequestRoomEffect(s, env, req, now) == RequestRoomAfterInquiry(s2, env, req, s1.rooms[req.rid], created, now);
  }

  // ---------------------------------------------------------------------------------------------
  // unarchiveRoom

  /** The default agent: the room's last server, when it has a username that is an online agent. */
  function DefaultAgent(onlineAgents: set<string>, servedBy: Option<ServedBy>): (agent: Option<SelectedAgent>)
    ensures agent.Some? <==> servedBy.Some? && Js.TruthyStr(servedBy.value.username) && servedBy.value.username.value in onlineAgents
    ensures agent.Some? ==> agent.value == SelectedAgent(servedBy.value.id, servedBy.value.username)
  {
    match servedBy
    case None => None
    case Some(b) =>
      if Js.TruthyStr(b.username) && b.username.value in onlineAgents then Some(SelectedAgent(b.id, b.username)) else None
  }

  /** The guest rebuilt from the room: its visitor snapshot, with the room's department when that is set. */
  function UnarchiveGuest(room: Room): (guest: Guest)
    ensures guest.(department := room.v.department) == room.v
    ensures Js.TruthyStr(room.departmentId) ==> guest.department == room.departmentId
    ensures !Js.TruthyStr(room.departmentId) ==> guest == room.v
  {
    if Js.TruthyStr(room.departmentId) then room.v.(department := room.departmentId) else room.v
  }

  /** The arguments of createLivechatInquiry when a room is unarchived. */
  function UnarchiveInquiryArgs(room: Room): InquiryArgs {
    InquiryArgs(room.id, room.fname, UnarchiveGuest(room), room.lastMessage, InquiryExtra(map[], Some(room.source)))
  }

  /** A room that is left as it is: no id, never closed, or still open. */
  predicate NothingToUnarchive(room: Room) {
    room.id == "" || room.closedAt.None? || room.open
  }

  /** Remove the room's existing inquiry, if it has one, and announce its removal. */
  function RemoveOldInquiry(s: Store, rid: RoomId): (r: Store)
    ensures r.rooms == s.rooms && r.agentSessions == s.agentSessions && r.onlineAgents == s.onlineAgents
    ensures IndexOfRoomInquiry(s.inquiries, rid).None? ==> r == s
    ensures IndexOfRoomInquiry(s.inquiries, rid).Some? ==>
      var i := IndexOfRoomInquiry(s.inquiries, rid).value;
      && r.inquiries == RemoveAt(s.inquiries, i)
      && r.log == s.log + [InquiryRemoved(rid, s.inquiries[i].id)]
  {
    match IndexOfRoomInquiry(s.inquiries, rid)
    case None => s
    case Some(i) => s.(inquiries := RemoveAt(s.inquiries, i), log := s.log + [InquiryRemoved(rid, s.inquiries[i].id)])
  }

  /** LivechatRooms.unarchiveOneById: the stored room, if there is one, is open again. */
  function ReopenStep(s: Store, rid: RoomId): (r: Store)
    ensures r.inquiries == s.inquiries && r.log == s.log + [RoomUnarchived(rid)]
    ensures r.rooms.Keys == s.rooms.Keys
    ensures rid in s.rooms ==> r.rooms[rid] == s.rooms[rid].(open := true)
  {
    s.(rooms := if rid in s.rooms then s.rooms[rid := s.rooms[rid].(open := true)] else s.rooms,
       log := s.log + [RoomUnarchived(rid)])
  }

  /**
   * unarchiveRoom: throw for a missing room, return a room with nothing to unarchive untouched,
   * else remove the stale inquiry, reopen the room, re-read it, create and re-read a fresh
   * inquiry, queue it with the last server as default agent, and return the room as re-read.
   */
  function UnarchiveRoomEffect(s: Store, env: Env, archived: Option<Room>, now: int): (r: Outcome<Room>)
    ensures Appended(s, r.store)
    ensures archived.None? ==> r == Outcome(s, Err(NoRoomToUnarchive))
    ensures archived.Some? && NothingToUnarchive(archived.value) ==> r == Outcome(s, Ok(archived.value))
  {
    match archived
    case None => Outcome(s, Err(NoRoomToUnarchive))
    case Some(a) =>
      if NothingToUnarchive(a) then Outcome(s, Ok(a))
      else
        var s1 := RemoveOldInquiry(s, a.id);
        var s2 := ReopenStep(s1, a.id);
        var r := UnarchiveReopened(s2, env, a, DefaultAgent(s1.onlineAgents, a.servedBy), now);
        EventsSplit(s, s1, s2);
        EventsSplit(s, s2, r.store);
        r
  }

  /** unarchiveRoom once the room was reopened: read it back, create, read back and queue the fresh inquiry. */
  function UnarchiveReopened(s2: Store, env: Env, a: Room, agent: Option<SelectedAgent>, now: int): (r: Outcome<Room>)
    ensures Appended(s2, r.store)
    ensures a.id !in s2.rooms ==> r == Outcome(s2, Err(RoomNotFound))
    ensures a.id in s2.rooms ==>
      var s3 := CreateInquiryStep(s2, env, UnarchiveInquiryArgs(a)).0;
      && Appended(s3, r.store)
      && NoCreations(NewEvents(s3, r.store))
      && HintIs(NewEvents(s3, r.store), agent)
      && r.result != Err(RoomNotFound)
      && (r.result.Ok? ==> r.result.value == s2.rooms[a.id])
  {
    if a.id !in s2.rooms then Outcome(s2, Err(RoomNotFound))
    else
      var (s3, created) := CreateInquiryStep(s2, env, UnarchiveInquiryArgs(a));
      match created
      case None => Outcome(s3, Err(InquiryNotFound))
      case Some(inquiry) => Rethrow(QueueInquiryEffect(s3, env, inquiry, agent, now), s2.rooms[a.id])
  }

  /** The events of unarchiveRoom once the room was reopened: the inquiry creation, then only queueing events. */
  lemma {:induction false} EventsAfterReopen(s2: Store, env: Env, a: Room, agent: Option<SelectedAgent>, now: int)
    ensures var r := UnarchiveReopened(s2, env, a, agent, now);
      var tail := NewEvents(s2, r.store);
      && (a.id !in s2.rooms ==> tail == [])
      && (a.id in s2.rooms ==>
            && |tail| >= 1 && tail[0] == InquiryCreated(UnarchiveInquiryArgs(a))
            && forall k :: 1 <= k < |tail| ==>
                 && !tail[k].RoomCreated? && !tail[k].InquiryCreated? && !tail[k].InquiryRemoved?
                 && (tail[k].AgentDelegated? ==> tail[k].defaultAgent == agent))
  {
    var r := UnarchiveReopened(s2, env, a, agent, now);
    if a.id in s2.rooms {
      var s3 := CreateInquiryStep(s2, env, UnarchiveInquiryArgs(a)).0;
      EventsSplit(s2, s3, r.store);
      var rest := NewEvents(s3, r.store);
      assert NewEvents(s2, s3) == [InquiryCreated(UnarchiveInquiryArgs(a))];
      forall k | 1 <= k < |NewEvents(s2, r.store)|
        ensures NewEvents(s2, r.store)[k] == rest[k - 1]
      {
      }
    }
  }

  /** The events of unarchiveRoom before the room is read back: the stale inquiry's removal, if any, then the reopening. */
  lemma {:induction false} EventsUntilReopen(s: Store, rid: RoomId)
    ensures var s2 := ReopenStep(RemoveOldInquiry(s, rid), rid);
      var stale := IndexOfRoomInquiry(s.inquiries, rid);
      && Appended(s, s2)
      && NewEvents(s, s2) == (if stale.Some? then [InquiryRemoved(rid, s.inquiries[stale.value].id), RoomUnarchived(rid)]
                              else [RoomUnarchived(rid)])
  {
    var s1 := RemoveOldInquiry(s, rid);
    EventsSplit(s, s1, ReopenStep(s1, rid));
  }

  /**
   * Where a removal may only open the events before the inquiry creation, and the creation opens
   * the events after it, every removal is the very first event and every creation is that one.
   */
  lemma {:induction false} ConcatenatedEvents(events: seq<Event>, pre: seq<Event>, tail: seq<Event>, agent: Option<SelectedAgent>)
    requires events == pre + tail
    requires forall k :: 0 <= k < |pre| ==> !pre[k].InquiryCreated? && !pre[k].AgentDelegated? && (pre[k].InquiryRemoved? ==> k == 0)
    requires |tail| >= 1 ==> tail[0].InquiryCreated?
    requires forall k :: 1 <= k < |tail| ==>
      && !tail[k].InquiryCreated? && !tail[k].InquiryRemoved?
      && (tail[k].AgentDelegated? ==> tail[k].defaultAgent == agent)
    ensures forall k :: 0 <= k < |events| && events[k].InquiryRemoved? ==> k == 0 && |pre| >= 1 && pre[0].InquiryRemoved?
    ensures forall k :: 0 <= k < |events| && events[k].InquiryCreated? ==> k == |pre| && events[k] == tail[0]
    ensures forall k :: 0 <= k < |events| && events[k].AgentDelegated? ==> events[k].defaultAgent == agent
  {
    forall k | 0 <= k < |events|
      ensures events[k] == if k < |pre| then pre[k] else tail[k - |pre|]
    {
    }
  }

  /**
   * Unarchiving removes the room's stale inquiry (the first one held for the room, by id) before
   * anything else, and creates the fresh inquiry only afterwards; no other inquiry is removed.
   */
  lemma {:induction false} UnarchiveRemovesStaleInquiryFirst(s: Store, env: Env, a: Room, now: int)
    requires !NothingToUnarchive(a)
    ensures var events := NewEvents(s, UnarchiveRoomEffect(s, env, Some(a), now).store);
      var stale := IndexOfRoomInquiry(s.inquiries, a.id);
      && (stale.Some? ==> |events| >= 1 && events[0] == InquiryRemoved(a.id, s.inquiries[stale.value].id))
      && (forall k :: 0 <= k < |events| && events[k].InquiryRemoved? ==> k == 0 && stale.Some?)
      && (forall k :: 0 <= k < |events| && events[k].InquiryCreated? ==>
            && k == (if stale.Some? then 2 else 1)
            && events[k].inquiryArgs == UnarchiveInquiryArgs(a)
            && a.id in s.rooms)
  {
    var s1 := RemoveOldInquiry(s, a.id);
    var s2 := ReopenStep(s1, a.id);
    var agent := DefaultAgent(s1.onlineAgents, a.servedBy);
    var r := UnarchiveReopened(s2, env, a, agent, now);
    assert UnarchiveRoomEffect(s, env, Some(a), now) == r;
    EventsUntilReopen(s, a.id);
    EventsAfterReopen(s2, env, a, agent, now);
    EventsSplit(s, s2, r.store);
    var pre := NewEvents(s, s2);
    var tail := NewEvents(s2, r.store);
    ConcatenatedEvents(NewEvents(s, r.store), pre, tail, agent);
  }

  /** The default agent handed to the queueing step is the room's last server exactly when that agent is online. */
  lemma {:induction false} UnarchiveDefaultAgent(s: Store, env: Env, a: Room, now: int)
    requires !NothingToUnarchive(a)
    ensures var events := NewEvents(s, UnarchiveRoomEffect(s, env, Some(a), now).store);
      forall k :: 0 <= k < |events| && events[k].AgentDelegated? ==>
        && events[k].defaultAgent == DefaultAgent(s.onlineAgents, a.servedBy)
        && (events[k].defaultAgent.Some? <==>
              a.servedBy.Some? && Js.TruthyStr(a.servedBy.value.username) && a.servedBy.value.username.value in s.onlineAgents)
  {
    var s1 := RemoveOldInquiry(s, a.id);
    var s2 := ReopenStep(s1, a.id);
    var agent := DefaultAgent(s1.onlineAgents, a.servedBy);
    var r := UnarchiveReopened(s2, env, a, agent, now);
    assert UnarchiveRoomEffect(s, env, Some(a), now) == r;
    EventsUntilReopen(s, a.id);
    EventsAfterReopen(s2, env, a, agent, now);
    EventsSplit(s, s2, r.store);
    var pre := NewEvents(s, s2);
    var tail := NewEvents(s2, r.store);
    ConcatenatedEvents(NewEvents(s, r.store), pre, tail, agent);
  }

  /**
   * The reopened room is the outcome: `room-not-found` exactly when the store holds no such room,
   * and otherwise the stored room made open, as read before the inquiry was queued.
   */
  lemma {:induction false} UnarchiveReturnsReopenedRoom(s: Store, env: Env, a: Room, now: int)
    requires !NothingToUnarchive(a)
    ensures var r := UnarchiveRoomEffect(s, env, Some(a), now);
      && (r.result == Err(RoomNotFound) <==> a.id !in s.rooms)
      && (r.result.Ok? ==> a.id in s.rooms && r.result.value == s.rooms[a.id].(open := true))
  {
    var s1 := RemoveOldInquiry(s, a.id);
    var s2 := ReopenStep(s1, a.id);
    assert UnarchiveRoomEffect(s, env, Some(a), now) == UnarchiveReopened(s2, env, a, DefaultAgent(s1.onlineAgents, a.servedBy), now);
  }

  // ---------------------------------------------------------------------------------------------
  // The queue manager object

  /** The queue manager over its stores; `env` answers for the collaborators. */
  class QueueManager {
    var rooms: map<RoomId, Room>
    var inquiries: seq<Inquiry>
    var agentSessions: map<string, nat>
    var onlineAgents: set<string>
    var log: seq<Event>
    const env: Env

    /** The stores as a value. */
    function State(): Store
      reads this
    {
      Store(rooms, inquiries, agentSessions, onlineAgents, log)
    }

    constructor (initial: Store, env: Env)
      ensures State() == initial && this.env == env
    {
      rooms := initial.rooms;
      inquiries := initial.inquiries;
      agentSessions := initial.agentSessions;
      onlineAgents := initial.onlineAgents;
      log := initial.log;
      this.env := env;
    }

    /** checkServiceStatus: read-only. */
    method CheckServiceStatus(guest: Guest, agent: Option<SelectedAgent>) returns (online: bool)
      ensures agent.None? ==> online == env.departmentOnline(guest.department)
      ensures agent.Some? ==> (online <==> agent.value.agentId in agentSessions && agentSessions[agent.value.agentId] > 0)
    {
      if agent.None? {
        return env.departmentOnline(guest.department);
      }
      var users := OnlineSessions(agentSessions, agent.value.agentId);
      return users > 0;
    }

    /** saveQueueInquiry. */
    method SaveQueueInquiry(inquiry: Inquiry, now: int)
      modifies this
      ensures State() == SaveQueueInquiryEffect(old(State()), inquiry, now)
    {
      var found := IndexOfInquiry(inquiries, inquiry.id);
      if found.None? {
        return;
      }
      var queued := QueuedRecord(inquiries[found.value], now);
      inquiries := inquiries[found.value := queued];
      log := log + [InquiryQueued(queued)];
      log := log + [InquiryChanged(queued)];
    }

    /** queueInquiry. */
    method QueueInquiry(inquiry: Inquiry, defaultAgent: Option<SelectedAgent>, now: int) returns (r: Result<(), QueueError>)
      modifies this
      ensures Outcome(State(), r) == QueueInquiryEffect(old(State()), env, inquiry, defaultAgent, now)
    {
      var inquiryAgent := env.delegateAgent(defaultAgent, inquiry);
      log := log + [AgentDelegated(defaultAgent, inquiry.id)];
      log := log + [BeforeRouteChat(inquiry.id, inquiryAgent)];
      inquiries := env.routingHooks(inquiry, inquiryAgent, inquiries);
      ghost var s1 := State();
      assert s1 == PreRouted(old(State()), env, inquiry, defaultAgent);
      if inquiry.rid !in rooms || !env.withinMacLimit(rooms[inquiry.rid]) {
        SaveQueueInquiry(inquiry, now);
        QueueInquiryParksWhenNotRoutable(old(State()), env, inquiry, defaultAgent, now);
        return Ok(());
      }
      var room := rooms[inquiry.rid];
      var found := IndexOfInquiry(inquiries, inquiry.id);
      if found.None? {
        return Err(InquiryNotFound);
      }
      var dbInquiry := inquiries[found.value];
      if dbInquiry.status == Ready {
        log := log + [InquiryDelegated(dbInquiry, inquiryAgent, None, room)];
        rooms := RouteRoom(rooms, inquiry.rid, env.routedRoom(dbInquiry, inquiryAgent, room));
        inquiries := env.routedInquiries(dbInquiry, inquiryAgent, room, inquiries);
      }
      return Ok(());
    }

    /** createLivechatRoom, as its record then reads. */
    method CreateRoom(args: RoomArgs)
      modifies this
      ensures State() == CreateRoomStep(old(State()), env, args)
    {
      var created := env.createRoom(args);
      if created.Some? {
        rooms := rooms[args.rid := created.value];
      }
      log := log + [RoomCreated(args)];
    }

    /** createLivechatInquiry, then LivechatInquiry.findOneById on the created id. */
    method CreateInquiry(args: InquiryArgs) returns (inquiry: Option<Inquiry>)
      modifies this
      ensures (State(), inquiry) == CreateInquiryStep(old(State()), env, args)
    {
      var created := env.createInquiry(args);
      inquiry := None;
      if created.Some? {
        inquiries := inquiries + [created.value];
        var found := IndexOfInquiry(inquiries, created.value.id);
        assert found.Some? by { assert inquiries[|inquiries| - 1].id == created.value.id; }
        inquiry := Some(inquiries[found.value]);
      }
      log := log + [InquiryCreated(args)];
    }

    /** The livechat.roomStarted app event, then the room-count notification. */
    method Announce(room: Room)
      modifies this
      ensures State() == AnnounceStep(old(State()), env, room)
    {
      log := log + [RoomStarted(room)];
      if env.roomCountSetting {
        log := log + [RoomCountChanged];
      }
    }

    /** requestRoom. */
    method RequestRoom(req: Request, now: int) returns (r: Result<Room, QueueError>)
      modifies this
      ensures Outcome(State(), r) == RequestRoomEffect(old(State()), env, req, now)
    {
      var online := CheckServiceStatus(req.guest, req.agent);
      if !online {
        return Err(NoAgentOnline);
      }
      var name := RoomName(req.roomInfo, req.guest);
      CreateRoom(RoomArgs(req.rid, name, req.guest, req.roomInfo, req.extraData));
      ghost var s1 := State();
      if req.rid !in rooms {
        return Err(RoomNotFound);
      }
      var room := rooms[req.rid];

      var inquiry := CreateInquiry(InquiryArgs(req.rid, Some(name), req.guest, req.message,
                                               InquiryExtra(req.extraData.fields - {"source"}, req.roomInfo.source)));
      ghost var s2 := State();
      if inquiry.None? {
        return Err(InquiryNotFound);
      }
      Announce(room);
      var queued := QueueInquiry(inquiry.value, req.agent, now);
      assert Outcome(State(), queued) == QueueInquiryEffect(AnnounceStep(s2, env, room), env, inquiry.value, req.agent, now);
      if queued.Err? {
        r := Err(queued.error);
      } else if req.rid !in rooms {
        r := Err(RoomNotFound);
      } else {
        r := Ok(rooms[req.rid]);
      }
      assert Outcome(State(), r) == RequestRoomAfterInquiry(s2, env, req, room, inquiry, now);
      assert Outcome(State(), r) == RequestRoomAfterRoom(s1, env, req, now);
    }

    /** LivechatInquiry.removeByRoomId, and the removal notification for the inquiry it held. */
    method RemoveInquiryOfRoom(rid: RoomId)
      modifies this
      ensures State() == RemoveOldInquiry(old(State()), rid)
    {
      var oldInquiry := IndexOfRoomInquiry(inquiries, rid);
      if oldInquiry.Some? {
        var removedId := inquiries[oldInquiry.value].id;
        inquiries := RemoveAt(inquiries, oldInquiry.value);
        log := log + [InquiryRemoved(rid, removedId)];
      }
    }

    /** LivechatRooms.unarchiveOneById. */
    method Reopen(rid: RoomId)
      modifies this
      ensures State() == ReopenStep(old(State()), rid)
    {
      if rid in rooms {
        rooms := rooms[rid := rooms[rid].(open := true)];
      }
      log := log + [RoomUnarchived(rid)];
    }

    /** unarchiveRoom. */
    method UnarchiveRoom(archived: Option<Room>, now: int) returns (r: Result<Room, QueueError>)
      modifies this
      ensures Outcome(State(), r) == UnarchiveRoomEffect(old(State()), env, archived, now)
    {
      if archived.None? {
        return Err(NoRoomToUnarchive);
      }
      var a := archived.value;
      if a.id == "" || a.closedAt.None? || a.open {
        return Ok(a);
      }

      RemoveInquiryOfRoom(a.id);
      var guest := UnarchiveGuest(a);
      var defaultAgent: Option<SelectedAgent> := None;
      if a.servedBy.Some? && Js.TruthyStr(a.servedBy.value.username) && a.servedBy.value.username.value in onlineAgents {
        defaultAgent := Some(SelectedAgent(a.servedBy.value.id, a.servedBy.value.username));
      }
      Reopen(a.id);
      ghost var s2 := State();
      if a.id !in rooms {
        return Err(RoomNotFound);
      }
      var room := rooms[a.id];

      var inquiry := CreateInquiry(InquiryArgs(a.id, a.fname, guest, a.lastMessage, InquiryExtra(map[], Some(a.source))));
      if inquiry.None? {
        return Err(InquiryNotFound);
      }
      var queued := QueueInquiry(inquiry.value, defaultAgent, now);
      if queued.Err? {
        r := Err(queued.error);
      } else {
        r := Ok(room);
      }
      assert Outcome(State(), r) == UnarchiveReopened(s2, env, a, defaultAgent, now);
    }
  }
}
