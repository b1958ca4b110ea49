/**
 * createOrUpdateProtectedRoleAsync (apps/meteor/server/lib/roles/createOrUpdateProtectedRole.ts):
 * an existing role is updated field by field, keeping stored values the request leaves falsy;
 * a missing one is inserted with defaults and marked protected.
 */
module ProtectedRole {
  import opened Wrappers

  /** A stored role. */
  datatype Role = Role(id: string, name: string, scope: string, description: string, mandatory2fa: bool, protected: bool)

  /** The `roleData` argument: `name` is required, the other fields may be absent. */
  datatype RoleData = RoleData(
    name: string,
    scope: Option<string>,
    description: Option<string>,
    mandatory2fa: Option<bool>,
    protected: Option<bool>)

  /** The change notifications sent through notifyListenerOnRoleChanges. */
  datatype RoleNotification = Updated(roleId: string) | Inserted(roleId: string)

  /** The Roles collection and the notifications sent so far. */
  datatype RoleState = RoleState(roles: map<string, Role>, notifications: seq<RoleNotification>)

  /** `a || b` on strings. */
  function OrString(a: string, b: string): string {
    if a != "" then a else b
  }

  /** `a || b` on an optional string and a stored one. */
  function OrOptString(a: Option<string>, b: string): string {
    if a.Some? && a.value != "" then a.value else b
  }

  /** The role after Roles.updateById with each request field, or the stored one when the request field is falsy. */
  function Merged(stored: Role, data: RoleData): (r: Role)
    ensures r.id == stored.id && r.protected == stored.protected
    ensures r.name == (if data.name != "" then data.name else stored.name)
    ensures r.scope == (if data.scope.Some? && data.scope.value != "" then data.scope.value else stored.scope)
    ensures r.description == (if data.description.Some? && data.description.value != "" then data.description.value else stored.description)
    ensures r.mandatory2fa <==> data.mandatory2fa == Some(true) || stored.mandatory2fa
  {
    Role(
      stored.id,
      OrString(data.name, stored.name),
      OrOptString(data.scope, stored.scope),
      OrOptString(data.description, stored.description),
      data.mandatory2fa.GetOr(false) || stored.mandatory2fa,
      stored.protected)
  }

  /** `{ _id: roleId, scope: 'Users', description: '', mandatory2fa: false, ...roleData, protected: true }`. */
  function InsertedRole(roleId: string, data: RoleData): (r: Role)
    ensures r.id == roleId && r.name == data.name && r.protected
    ensures r.scope == data.scope.GetOr("Users")
    ensures r.description == data.description.GetOr("")
    ensures r.mandatory2fa == data.mandatory2fa.GetOr(false)
  {
    Role(roleId, data.name, data.scope.GetOr("Users"), data.description.GetOr(""), data.mandatory2fa.GetOr(false), true)
  }

  /** The whole operation on the store. */
  function UpsertEffect(s: RoleState, roleId: string, data: RoleData): (r: RoleState)
    ensures roleId in r.roles && r.roles.Keys == s.roles.Keys + {roleId}
    ensures forall id :: id in s.roles && id != roleId ==> id in r.roles && r.roles[id] == s.roles[id]
    ensures |r.notifications| == |s.notifications| + 1 && r.notifications[..|s.notifications|] == s.notifications
  {
    if roleId in s.roles then
      RoleState(s.roles[roleId := Merged(s.roles[roleId], data)], s.notifications + [Updated(roleId)])
    else
      RoleState(s.roles[roleId := InsertedRole(roleId, data)], s.notifications + [Inserted(roleId)])
  }

  /** A falsy request field never clears a stored value: every truthy stored field stays truthy. */
  lemma MergeNeverClears(s: RoleState, roleId: string, data: RoleData)
    requires roleId in s.roles
    ensures var before := s.roles[roleId];
      var after := UpsertEffect(s, roleId, data).roles[roleId];
      && (before.name != "" ==> after.name != "")
      && (before.scope != "" ==> after.scope != "")
      && (before.description != "" ==> after.description != "")
      && (before.mandatory2fa ==> after.mandatory2fa)
  {
  }

  /** An existing role is updated in place: no role is added and the notification is `updated`. */
  lemma ExistingRoleIsUpdated(s: RoleState, roleId: string, data: RoleData)
    requires roleId in s.roles
    ensures var r := UpsertEffect(s, roleId, data);
      && r.roles.Keys == s.roles.Keys
      && r.roles[roleId] == Merged(s.roles[roleId], data)
      && r.notifications == s.notifications + [Updated(roleId)]
  {
  }

  /** A missing role is inserted under `roleId`, protected whatever the request says, and announced as `inserted`. */
  lemma MissingRoleIsInserted(s: RoleState, roleId: string, data: RoleData)
    requires roleId !in s.roles
    ensures var r := UpsertEffect(s, roleId, data);
      && r.roles.Keys == s.roles.Keys + {roleId}
      && r.roles[roleId].id == roleId
      && r.roles[roleId].protected
      && (data.scope.None? ==> r.roles[roleId].scope == "Users")
      && (data.description.None? ==> r.roles[roleId].description == "")
      && (data.mandatory2fa.None? ==> !r.roles[roleId].mandatory2fa)
      && r.notifications == s.notifications + [Inserted(roleId)]
  {
  }

  /** Repeating the call with the same data after an insert leaves the role as inserted. */
  lemma UpsertTwiceKeepsRole(s: RoleState, roleId: string, data: RoleData)
    requires roleId !in s.roles
    ensures var once := UpsertEffect(s, roleId, data);
      UpsertEffect(once, roleId, data).roles == once.roles
  {
    var once := UpsertEffect(s, roleId, data);
    var inserted := InsertedRole(roleId, data);
    assert Merged(inserted, data) == inserted;
    assert once.roles[roleId := inserted] == once.roles;
  }

  /** The Roles store as an object updated in place. */
  class RoleStore {
    var roles: map<string, Role>
    var notifications: seq<RoleNotification>

    function State(): RoleState
      reads this
    {
      RoleState(roles, notifications)
    }

    constructor (initial: RoleState)
      ensures State() == initial
    {
      roles := initial.roles;
      notifications := initial.notifications;
    }

    /** createOrUpdateProtectedRoleAsync(roleId, roleData). */
    method CreateOrUpdateProtectedRole(roleId: string, data: RoleData)
      modifies this
      ensures State() == UpsertEffect(old(State()), roleId, data)
    {
      if roleId in roles {
        var role := roles[roleId];
        roles := roles[roleId := Merged(role, data)];
        notifications := notifications + [Updated(roleId)];
        return;
      }
      roles := roles[roleId := InsertedRole(roleId, data)];
      notifications := notifications + [Inserted(roleId)];
    }
  }
}
