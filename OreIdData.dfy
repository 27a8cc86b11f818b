/** The records the identity SDK hands to the application (the logged-in
    user, its chain accounts and their permissions) and the shape of an
    SDK call's outcome. The SDK itself is not part of this model: every call
    into it is represented by the value it resolved with or the error it
    rejected with, supplied by the caller of the modelled handler. */
module OreIdData {
  import opened JsValues

  /** An authentication provider name (a value of the SDK's provider enumeration). */
  type Provider = string

  /** A signing permission on a chain account. */
  datatype Permission = Permission(
    name: string,
    accountType: string,
    isVerified: bool,
    externalWalletType: Option<string>,
    publicKey: Option<string>,
    privateKeyStoredExterally: bool,
    chainNetwork: string)

  /** A blockchain account linked to the user. */
  datatype ChainAccount = ChainAccount(
    chainAccount: string,
    chainNetwork: string,
    defaultPermission: Permission,
    permissions: seq<Permission>)

  /** The user data the SDK reports for the logged-in user. */
  datatype UserData = UserData(
    accountName: string,
    name: string,
    email: string,
    picture: string,
    username: string,
    chainAccounts: seq<ChainAccount>)

  /** A permission copied together with the address of the account that
      owns it: the `{...permission, chainAccount}` record of the view. */
  datatype TaggedPermission = TaggedPermission(permission: Permission, chainAccount: string)

  /** What a rejected SDK call (or a thrown JavaScript error) carries: the
      SDK's `errors` payload and the standard `message`. */
  datatype SdkError = SdkError(errors: Option<string>, message: Option<string>)

  /** A JavaScript `TypeError` raised by the application's own code: it has a
      message but no `errors` field. */
  const TypeError := SdkError(None, Some("TypeError"))

  /** How an awaited SDK call ended. */
  datatype Outcome<+T> = Resolved(value: T) | Rejected(error: SdkError)
}
