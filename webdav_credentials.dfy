/** getWebdavCredentials (apps/meteor/app/webdav/server/lib/getWebdavCredentials.ts): the credentials a WebDAV client is built with. */
module WebdavCredentials {
  import opened Wrappers
  import Js

  /** ServerCredentials: every field optional. */
  datatype Credentials = Credentials(token: Option<string>, username: Option<string>, password: Option<string>)

  /** A truthy token alone, else the account's username and password. */
  function GetWebdavCredentials(account: Credentials): (r: Credentials)
    ensures Js.TruthyStr(account.token) ==> r == Credentials(account.token, None, None)
    ensures !Js.TruthyStr(account.token) ==> r == Credentials(None, account.username, account.password)
  {
    if Js.TruthyStr(account.token) then Credentials(account.token, None, None)
    else Credentials(None, account.username, account.password)
  }

  /** The result never carries both a token and a password, and every field it carries is the account's. */
  lemma TokenOrPassword(account: Credentials)
    ensures var r := GetWebdavCredentials(account);
      && !(r.token.Some? && r.password.Some?)
      && (r.token.Some? ==> r.token == account.token)
      && (r.username.Some? ==> r.username == account.username)
      && (r.password.Some? ==> r.password == account.password)
  {
  }

  /** Selecting twice selects the same credentials. */
  lemma SelectionIdempotent(account: Credentials)
    ensures GetWebdavCredentials(GetWebdavCredentials(account)) == GetWebdavCredentials(account)
  {
  }
}
