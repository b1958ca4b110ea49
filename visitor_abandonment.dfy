/**
 * The `afterSaveMessage` callback of
 * apps/meteor/ee/app/livechat-enterprise/server/hooks/setPredictedVisitorAbandonmentTime.ts:
 * after an agent's message in a live visitor chat, the predicted visitor-abandonment time of
 * the room is recomputed. The callback hands the message back unchanged in every case.
 */
module VisitorAbandonment {
  import opened Wrappers
  import Js

  /** The saved message: whether isEditedMessage holds, its type `t` and its visitor `token`. */
  datatype Message = Message(id: string, edited: bool, t: Option<string>, token: Option<string>)

  /** The room: whether isOmnichannelRoom holds and its visitor token `v.token`. */
  datatype Room = Room(id: string, omnichannel: bool, visitorToken: Option<string>)

  /** The two settings read: the abandoned-rooms action and the inactivity timeout (absent when unset). */
  datatype AbandonmentSettings = AbandonmentSettings(action: Js.Value, inactivityTimeout: Option<int>)

  /** What the callback does: the message it returns, and the room it recomputes the abandonment time for. */
  datatype HookOutcome = HookOutcome(message: Message, predictFor: Option<Room>)

  /** `settings.get(timeout) <= 0`: an unset setting compares as `NaN`, so it is never `<= 0`. */
  predicate TimeoutDisabled(timeout: Option<int>) {
    timeout.Some? && timeout.value <= 0
  }

  /** The abandoned-rooms handling is off: no action, the action `none`, or no positive timeout. */
  predicate AbandonmentOff(s: AbandonmentSettings) {
    !Js.Truthy(s.action) || s.action == Js.Str("none") || TimeoutDisabled(s.inactivityTimeout)
  }

  /** The callback. */
  function AfterSaveMessage(message: Message, room: Room, s: AbandonmentSettings): (r: HookOutcome)
    ensures r.message == message
    ensures r.predictFor.Some? ==> r.predictFor.value == room
  {
    if !room.omnichannel then HookOutcome(message, None)
    else if AbandonmentOff(s) then HookOutcome(message, None)
    else if message.edited then HookOutcome(message, None)
    else if !Js.TruthyStr(room.visitorToken) then HookOutcome(message, None)
    else if Js.TruthyStr(message.t) then HookOutcome(message, None)
    else if !Js.TruthyStr(message.token) then HookOutcome(message, Some(room))
    else HookOutcome(message, None)
  }

  /** The time is recomputed exactly when every guard passes and the message has no visitor token (an agent sent it). */
  lemma PredictsExactlyForAgentMessages(message: Message, room: Room, s: AbandonmentSettings)
    ensures AfterSaveMessage(message, room, s).predictFor.Some? <==>
      && room.omnichannel
      && !AbandonmentOff(s)
      && !message.edited
      && Js.TruthyStr(room.visitorToken)
      && !Js.TruthyStr(message.t)
      && !Js.TruthyStr(message.token)
  {
  }

  /** Nothing happens outside omnichannel rooms, whatever the settings and the message. */
  lemma NonOmnichannelIgnored(message: Message, room: Room, s: AbandonmentSettings)
    requires !room.omnichannel
    ensures AfterSaveMessage(message, room, s) == HookOutcome(message, None)
  {
  }

  /** An unset inactivity timeout does not switch the handling off; a zero or negative one does. */
  lemma UnsetTimeoutKeepsHandling(message: Message, room: Room, action: Js.Value)
    requires room.omnichannel && Js.Truthy(action) && action != Js.Str("none")
    requires !message.edited && Js.TruthyStr(room.visitorToken) && !Js.TruthyStr(message.t) && !Js.TruthyStr(message.token)
    ensures AfterSaveMessage(message, room, AbandonmentSettings(action, None)).predictFor == Some(room)
    ensures AfterSaveMessage(message, room, AbandonmentSettings(action, Some(0))).predictFor.None?
  {
  }

  /** A visitor's own message never triggers the recomputation. */
  lemma VisitorMessageIgnored(message: Message, room: Room, s: AbandonmentSettings)
    requires Js.TruthyStr(message.token)
    ensures AfterSaveMessage(message, room, s).predictFor.None?
  {
  }
}
