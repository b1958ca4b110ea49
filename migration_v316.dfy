/**
 * Migration 316 (apps/meteor/server/startup/migrations/v316.ts): the cloud workspace access token
 * and its expiry move from the Settings collection to the WorkspaceCredentials collection.
 *
 * WorkspaceCredentials is a map from scope to credential. getCredentialByScope() reads the
 * default scope `''`, and updateCredentialByScope writes the credential under its scope,
 * inserting it when absent. Their implementations are not part of this model.
 */
module MigrationV316 {
  import Js

  const AccessTokenSetting: string := "Cloud_Workspace_Access_Token"
  const ExpiresAtSetting: string := "Cloud_Workspace_Access_Token_Expires_At"

  /** A workspace credential. */
  datatype Credential = Credential(scope: string, accessToken: Js.Value, expirationDate: Js.Value)

  /** The two collections: setting values by id, credentials by scope. */
  datatype Stores = Stores(settings: map<string, Js.Value>, credentials: map<string, Credential>)

  /** Settings.getValueById: the stored value, or `undefined`. */
  function SettingValue(settings: map<string, Js.Value>, id: string): Js.Value {
    if id in settings then settings[id] else Js.Undefined
  }

  /** `value || ''`. */
  function AccessTokenOf(settings: map<string, Js.Value>): (r: Js.Value)
    ensures Js.Truthy(SettingValue(settings, AccessTokenSetting)) ==> r == SettingValue(settings, AccessTokenSetting)
    ensures !Js.Truthy(SettingValue(settings, AccessTokenSetting)) ==> r == Js.Str("")
  {
    Js.Or(SettingValue(settings, AccessTokenSetting), Js.Str(""))
  }

  /** `value || new Date(0)`. */
  function ExpirationDateOf(settings: map<string, Js.Value>): (r: Js.Value)
    ensures Js.Truthy(r)
  {
    Js.Or(SettingValue(settings, ExpiresAtSetting), Js.Date(0))
  }

  /** up(): nothing when a default-scope credential exists; otherwise the move. */
  function UpEffect(s: Stores): (r: Stores)
    ensures "" in s.credentials ==> r == s
    ensures "" !in s.credentials ==> "" in r.credentials
    ensures "" !in s.credentials ==> r.credentials[""] == Credential("", AccessTokenOf(s.settings), ExpirationDateOf(s.settings))
  {
    if "" in s.credentials then s
    else
      var accessToken := AccessTokenOf(s.settings);
      var expirationDate := ExpirationDateOf(s.settings);
      var settings1 := if Js.Truthy(accessToken) then s.settings - {AccessTokenSetting} else s.settings;
      var settings2 := if Js.Truthy(expirationDate) then settings1 - {ExpiresAtSetting} else settings1;
      Stores(settings2, s.credentials["" := Credential("", accessToken, expirationDate)])
  }

  /** Missing or empty settings give an empty token and the epoch as the expiry. */
  lemma DefaultsWhenMissing(s: Stores)
    requires "" !in s.credentials && AccessTokenSetting !in s.settings && ExpiresAtSetting !in s.settings
    ensures UpEffect(s).credentials[""] == Credential("", Js.Str(""), Js.Date(0))
  {
  }

  /** The token setting is removed exactly when the token is non-empty; the expiry setting always is; no other setting changes. */
  lemma SettingsRemoved(s: Stores)
    requires "" !in s.credentials
    ensures var r := UpEffect(s);
      && (AccessTokenSetting in r.settings <==> AccessTokenSetting in s.settings && !Js.Truthy(AccessTokenOf(s.settings)))
      && ExpiresAtSetting !in r.settings
      && (forall id :: id in s.settings && id != AccessTokenSetting && id != ExpiresAtSetting ==> id in r.settings && r.settings[id] == s.settings[id])
      && (forall id :: id in r.settings ==> id in s.settings)
  {
  }

  /** Running the migration a second time changes nothing. */
  lemma UpIdempotent(s: Stores)
    ensures UpEffect(UpEffect(s)) == UpEffect(s)
  {
  }

  /** Only the default-scope credential is written. */
  lemma OtherScopesUntouched(s: Stores)
    ensures forall scope :: scope != "" && scope in s.credentials ==> scope in UpEffect(s).credentials && UpEffect(s).credentials[scope] == s.credentials[scope]
    ensures UpEffect(s).credentials.Keys == s.credentials.Keys + {""}
  {
  }

  /** The Settings and WorkspaceCredentials collections, changed in place. */
  class Migration {
    var settings: map<string, Js.Value>
    var credentials: map<string, Credential>

    constructor (initial: Stores)
      ensures settings == initial.settings && credentials == initial.credentials
    {
      settings := initial.settings;
      credentials := initial.credentials;
    }

    /** up(). */
    method Up()
      modifies this
      ensures Stores(settings, credentials) == UpEffect(old(Stores(settings, credentials)))
    {
      if "" in credentials {
        return;
      }
      var accessToken := Js.Or(SettingValue(settings, AccessTokenSetting), Js.Str(""));
      var expirationDate := Js.Or(SettingValue(settings, ExpiresAtSetting), Js.Date(0));
      if Js.Truthy(accessToken) {
        settings := settings - {AccessTokenSetting};
      }
      if Js.Truthy(expirationDate) {
        settings := settings - {ExpiresAtSetting};
      }
      credentials := credentials["" := Credential("", accessToken, expirationDate)];
    }
  }
}
