/**
 * The token minter (`generateJWT` in ldap.go): resolve the user and the
 * user's authorization scope, build the claim set and have it signed.
 * The user and permission stores, the clock and the HMAC-SHA-256 signer
 * are inputs.
 */
module Minting {
  import opened Wrappers

  /** An authorization scope record; its contents are not interpreted here. */
  type Permission(==)

  /**
   * The claim set of a session token: the registered claims `exp`
   * (section 4.1.4 of RFC 7519, in Unix seconds) and `iss` (section 4.1.1
   * of RFC 7519), and the embedded scope under the name `Permissions`.
   */
  datatype Claims = Claims(expiresAt: int, issuer: string, permissions: Permission)

  /** A user as the user store returns it; only its identifier is used. */
  datatype UserRecord = UserRecord(id: string)

  /** A store lookup: a record, a nil record with no error, or an error. */
  datatype Lookup<+T> = Found(value: T) | Missing | Failed(msg: string)

  /**
   * The user and permission stores: by user name; by user identifier and
   * organization; and the default scope at the user's leaf organization.
   */
  datatype Store = Store(
    userByName: string -> Lookup<UserRecord>,
    permissionByUserOrg: (string, string) -> Lookup<Permission>,
    leafPermission: string -> Lookup<Permission>)

  const Issuer := "PDE"
  /** One hour, in seconds. */
  const TokenLifetime := 3600

  /** The scope lookup the minter consults: per organization when one is named, else the leaf default. */
  function ScopeFor(store: Store, userID: string, orgID: string): Lookup<Permission> {
    if |orgID| > 0 then store.permissionByUserOrg(userID, orgID) else store.leafPermission(userID)
  }

  /**
   * Mint a session token for `username`, scoped to `orgID` when it is not
   * empty. `now` is the current Unix time in seconds; `sign(claims, key)`
   * is the HMAC-SHA-256 signer, which may itself fail.
   */
  function GenerateJWT(
    username: string, orgID: string, key: string, now: int, store: Store,
    sign: (Claims, string) -> Result<string, string>): (r: Result<string, string>)
    // a store error is passed through unchanged
    ensures store.userByName(username).Failed? ==> r == Err(store.userByName(username).msg)
    ensures store.userByName(username).Missing? ==>
      r == Err("could not find user in database " + username)
    ensures store.userByName(username).Found? ==>
      var id := store.userByName(username).value.id;
      // the scope comes from the organization lookup exactly when orgID is not empty
      && (|orgID| > 0 ==> ScopeFor(store, id, orgID) == store.permissionByUserOrg(id, orgID))
      && (|orgID| == 0 ==> ScopeFor(store, id, orgID) == store.leafPermission(id))
      && (ScopeFor(store, id, orgID).Failed? ==> r == Err(ScopeFor(store, id, orgID).msg))
      && (ScopeFor(store, id, orgID).Missing? ==>
            r == Err("could not find permissions for user " + username))
    // a token is only ever the signature of claims that expire one hour from
    // now, are issued by "PDE" and carry the resolved scope
    ensures r.Ok? ==>
      && store.userByName(username).Found?
      && var id := store.userByName(username).value.id;
      && ScopeFor(store, id, orgID).Found?
      && r == sign(Claims(now + TokenLifetime, Issuer, ScopeFor(store, id, orgID).value), key)
    ensures (store.userByName(username).Found? &&
             ScopeFor(store, store.userByName(username).value.id, orgID).Found?) ==>
      r == sign(Claims(now + TokenLifetime, Issuer,
                       ScopeFor(store, store.userByName(username).value.id, orgID).value), key)
  {
    match store.userByName(username)
    case Failed(msg) => Err(msg)
    case Missing => Err("could not find user in database " + username)
    case Found(user) =>
      match ScopeFor(store, user.id, orgID)
      case Failed(msg) => Err(msg)
      case Missing => Err("could not find permissions for user " + username)
      case Found(permissions) =>
        sign(Claims(now + TokenLifetime, Issuer, permissions), key)
  }
}
