# oreid-playground: a Dafny model of the app's orchestration logic

The repository is a React demo of an identity/wallet SDK. This project models
the logic that sits between the UI and the SDK:

- **Notification state** (`Notification`, `App.AppState.LogsEffect`). The `logs` record has
  optional `info`/`warning`/`success`/`error` messages. An effect derives the
  snackbar's `severity` from it with two separate if/else chains, and opens the snackbar.
- **Session state** (`App.AppState.HandleUserInfo`, `HandleLogin`, `HandleLogout`,
  `HandleSignString`). `isLoggedIn` and `loggedProvider` are derived from the user data the SDK reports.
- **Widget-action dispatcher** (`Widget`, `App.AppState.ComposeWidgetOptionsForAction`,
  `HandleWidgetSuccess`, `HandleWidgetError`). It validates Sign arguments and builds the
  signing request. It marks the action pending, calls the SDK popup, and turns the outcome
  into one notification.
- **User view** (`Permissions`, `UserOreId`). This covers the flattened, account-tagged
  permission list and the public-key label. It also covers the dialog and form state
  (action-menu routing, button enable rules, row toggles) and the requests the view passes
  up to the App component.

Every SDK call is a parameter of the handler that awaits it. The parameter is the
`Outcome` the call resolved or rejected with. The dispatcher returns the list of SDK
calls it made, so "no call was made" is stated as `calls == []`. Each stateful component
is a class. Its fields are the component's state, and `Snapshot()` collects them in one
record. Every handler's `ensures` gives the whole new snapshot in terms of the old one
and of specification functions: `SeverityAfter`, `SessionFrom`, `SessionAfterRead`, `Posted`, `Settle` and
`Dispatch`. Lemmas then prove what the source promises about those functions.
`Scenarios` holds client methods whose assertions follow from the handlers' contracts
alone. They cover login, Sign with nothing selected, NewChainAccount, Sign of a chosen
permission, Connect Wallet, logout with a failed read, and a combined success+error record.

Some behaviours of the code are worth stating outright; the model follows them:

- **Severity priority** (src/App.js:275-278). The second chain (`success`, else `error`)
  runs after the first (`info`, else `warning`) and overrides it. So `{success, error}`
  shows success.
- **Logout** (src/App.js:165-170). `handleLogout` does not await `logout()` and posts no
  error. It always posts "Logged Out Successfully!" and then re-reads the session. When
  that read is rejected, the user is shown as logged out while the provider is kept.
- **Error messages.** Only widget errors have a fallback: they post
  `errors || "An error occured"` (src/App.js:305). A login failure posts `error.errors` as
  it is (src/App.js:138), and a wallet-signature failure posts `error.message` as it is
  (src/App.js:191). An absent payload there posts nothing visible.

## Model

| member | source | states |
|---|---|---|
| `Notification.SeverityAfter` | src/App.js:275-278 | a set field always gives a severity whose message is set; with no field set the severity is unchanged |
| `Notification.OnlySelectsItsSeverity` | src/App.js:275-279 | a one-field record with a non-empty message selects that field's severity and opens the snackbar |
| `Notification.EmptyMessageIsIgnored` | src/App.js:275-279 | a one-field record with an absent or empty message keeps the severity and does not open the snackbar |
| `Notification.SecondChainWins` | src/App.js:275-278 | when success or error is set, the second chain decides: success if set, else error |
| `Notification.SeverityIsError` | src/App.js:275-278 | severity is Error iff error is set and success is not, or nothing is set and it was already Error |
| `Notification.SeverityIsInfo` | src/App.js:275-278 | severity is Info iff info is set and neither success nor error is, or nothing is set and it was already Info |
| `App.AppState.LogsEffect` | src/App.js:274-280 | the two if/else chains leave severity equal to `SeverityAfter` of the old severity; the snackbar becomes open iff it was open or any field is set; nothing else changes |
| `App.AppState.SetLogs` | src/App.js:274-280 | posting a record replaces `logs` and applies the effect (`Posted`) |
| `App.PostedMessageIsShown` | src/App.js:274-280 | a posted non-empty one-field message opens the snackbar with its own severity, so the Alert shows it |
| `App.AppState.CloseSnackbar` | src/App.js:343 | closing the snackbar changes only `openSnackbar`, to false |
| `App.AppState.constructor` | src/App.js:101-112 | initial state: no SDK, empty logs, no severity, snackbar closed, login status null, nothing pending, no provider |
| `App.AppState.InitOreId` | src/App.js:120-128 | the SDK becomes available and the class invariant (a login status only once the SDK exists) is kept |
| `App.SessionFrom` | src/App.js:151-161 | logged in iff the user data has a non-empty account name; logged out means provider null; logged in takes the token's provider; only the two session fields change |
| `App.SessionAfterRead` | src/App.js:145-161 | a rejected read of the user data keeps the session; a completed one gives a consistent session, logged in iff the data has an account name |
| `App.AppState.HandleUserInfo` | src/App.js:142-162 | without the SDK nothing changes; otherwise the session becomes `SessionAfterRead` of the read's outcome: `SessionFrom` of the data it reports, or unchanged when `getData()` rejects |
| `App.AppState.HandleLogin` | src/App.js:132-140 | requests the login popup for the provider; a successful popup re-reads the session, then posts "Logged In Successfully!" whatever the read gave; a failed one posts the error's `errors` as an error and keeps the session |
| `App.LoginShowsSuccess` | src/App.js:132-140 | a successful login with an account name leaves the user logged in with the token's provider, and shows the success message |
| `App.AppState.HandleLogout` | src/App.js:165-170 | requests logout, marks the user logged out, posts "Logged Out Successfully!" and re-reads the session; a completed read leaves it consistent, a rejected one leaves the user logged out with the provider kept |
| `App.AppState.HandleSignString` | src/App.js:172-193 | requests a signature of "Verify your Account" with the chosen wallet and network; a non-empty signature posts "Account Added Successfully!" and calls `onSuccess`; a rejection posts its message; otherwise nothing changes |
| `App.AppState.HandleWidgetSuccess` | src/App.js:282-301 | posts the pending kind's success message (none without a known pending kind) and clears `widgetAction`; a NewChainAccount result without `data` throws before changing anything |
| `App.AppState.HandleWidgetError` | src/App.js:303-308 | posts `{error: errors}` or `{error: "An error occured"}` and clears `widgetAction` |
| `App.AppState.AwaitPopup` | src/App.js:221-239 | a popup's outcome settles the pending action: success handling, or error handling on rejection or when the success handler throws |
| `App.AppState.ComposeWidgetOptionsForAction` | src/App.js:196-241 | the SDK calls made are exactly `Dispatch(...).calls`, the new state is `Settle` of the old state by that dispatch, and the class invariant and session rule are kept |
| `App.SettleKeepsSession` | src/App.js:196-241 | a dispatch changes only logs, severity, snackbar and `widgetAction`, so the class invariant and the session rule are kept |
| `Widget.SignRequest` | src/App.js:199-218 | the request exists iff a permission and a non-empty transaction are given; it carries the permission's account and network, the transaction, the logged provider, `allowChainAccountSelection` equal to the permission's `privateKeyStoredExterally`, `broadcast`, `preventAutosign` and no returned signed transaction |
| `Widget.InvalidSignCallsNothing` | src/App.js:199-204 | Sign without a permission or transaction calls nothing, posts exactly the validation error and leaves `widgetAction` alone |
| `Widget.ValidSignCalls` | src/App.js:205-223 | accepted Sign calls `createTransaction` with the signing request, then `popup.sign` with the created transaction iff creation succeeded |
| `Widget.OtherActionIsNoOp` | src/App.js:236-237 | any other action calls nothing, posts nothing and keeps `widgetAction` |
| `Widget.KnownActionSettles` | src/App.js:196-241 | a known action that passes validation makes a call, always clears `widgetAction` and posts a visible message; it is a success iff the SDK calls succeeded and the result was readable |
| `Widget.CreatedLabel` | src/App.js:290 | the created account's label is `chain_account` when set, else empty; a result without `data` throws |
| `Widget.CreatedMessageInjective` | src/App.js:290 | different account labels give different "New Chain Account … Created Successfully!" messages |
| `Widget.NewChainAccountNamesAccount` | src/App.js:288-291 | a created account with `chain_account` X is announced with X, or with an empty name when the field is absent or empty |
| `Widget.SuccessEffectOf` | src/App.js:284-298 | Sign, NewChainAccount and RecoverAccount select their fixed success message; no or another pending kind posts nothing; only NewChainAccount can throw |
| `Widget.ErrorLogs` | src/App.js:305 | the error message is `errors` when set, else "An error occured", so it is never empty |
| `App.VisibleLoginProviders` | src/App.js:327-328 | the login buttons are exactly the enumeration entries whose value is not the custodial provider |
| `App.VisibleLoginProvidersKeepsOrder` | src/App.js:327-328 | the filter keeps the enumeration's order (it distributes over concatenation) |
| `Permissions.Tagged` | src/UserOreId.jsx:150 | each of an account's permissions is copied with the account's address, in order |
| `Permissions.ReduceConcatPrepends` | src/UserOreId.jsx:150 | the `reduce`/`concat` fold from any accumulator only prepends that accumulator to the in-order concatenation |
| `Permissions.FlattenIsConcat` | src/UserOreId.jsx:150 | the flattened list is the concatenation, in account order, of each account's tagged permissions |
| `Permissions.FlattenLength` | src/UserOreId.jsx:150 | the flattened list's length is the sum of the per-account permission counts |
| `Permissions.FlattenAt` | src/UserOreId.jsx:150 | permission j of account i is at position Offset(i) + j, tagged with account i's address |
| `Permissions.FlattenOrigin` | src/UserOreId.jsx:150 | every flattened entry is some account's permission tagged with that account's address |
| `Permissions.SelectedPermission` | src/UserOreId.jsx:312 | indexing the list gives an entry iff the selection is an in-range index, otherwise undefined |
| `Permissions.SelectingItemPicksAccountPermission` | src/UserOreId.jsx:293-294 | choosing menu item Offset(i) + j hands on permission j of account i with that account's address |
| `Permissions.KeyLabel` | src/UserOreId.jsx:296-298 | a label appears iff the key is non-empty; a key of up to 7 characters is shown whole, a longer one as its first 7 characters and "..."; at most 12 characters with the parentheses |
| `UserOreId.ConnectDisabled` | src/UserOreId.jsx:270 | Connect is enabled iff both network and wallet type are set and non-empty |
| `UserOreId.CreateChainAccountDisabled` | src/UserOreId.jsx:359 | Create Chain Account is disabled only by the None item; an unset network leaves it enabled |
| `UserOreId.SignDisabled` | src/UserOreId.jsx:328 | Sign is disabled only by the None item; the initial null leaves it enabled |
| `UserOreId.CollapsedRows` | src/UserOreId.jsx:146 | there is one row per chain account and every row starts collapsed |
| `UserOreId.UserOreIdView.constructor` | src/UserOreId.jsx:140-146 | initial view state: nothing selected, dialog closed and untitled, draft = template, all rows collapsed; Connect disabled, Create and Sign enabled |
| `UserOreId.UserOreIdView.ReceiveUserInfo` | src/UserOreId.jsx:136-138 | a new user-data prop replaces only `userInfo`; the view state, including row states, is kept |
| `UserOreId.UserOreIdView.OpenConnectWallet` | src/UserOreId.jsx:220-223 | opens the dialog on the Connect Wallet form; nothing else changes |
| `UserOreId.UserOreIdView.CloseDialog` | src/UserOreId.jsx:233 | closes the dialog; nothing else changes |
| `UserOreId.UserOreIdView.ChangeChainNetwork` | src/UserOreId.jsx:244 | records the chosen network; nothing else changes |
| `UserOreId.UserOreIdView.ChangeWalletType` | src/UserOreId.jsx:258 | records the chosen wallet type; nothing else changes |
| `UserOreId.UserOreIdView.ChangePermission` | src/UserOreId.jsx:285-288 | records the chosen permission and resets the draft transaction to the template |
| `UserOreId.UserOreIdView.EditTransaction` | src/UserOreId.jsx:324 | replaces the draft transaction; nothing else changes |
| `UserOreId.UserOreIdView.ToggleRow` | src/UserOreId.jsx:396 | flips row i, leaves every other row's open state unchanged and changes nothing else |
| `UserOreId.UserOreIdView.SelectAction` | src/UserOreId.jsx:169-184 | Sign opens "Choose Permission" and NewChainAccount opens "Choose Chain Network", without a dispatch; any other value dispatches `onAction(value)` with no arguments and changes nothing |
| `UserOreId.UserOreIdView.SubmitChainNetwork` | src/UserOreId.jsx:152-156 | closes the dialog and dispatches NewChainAccount with `{chainNetwork}` |
| `UserOreId.UserOreIdView.SubmitPermission` | src/UserOreId.jsx:158-162 | closes the dialog and dispatches Sign with the selected flattened entry (undefined when none) and the draft transaction |
| `UserOreId.UserOreIdView.SubmitConnectWallet` | src/UserOreId.jsx:164-167 | passes the chosen network and wallet type to `onConnectWallet`; the dialog closes through `onSuccess` |

## Left out

- Rendering is left out: JSX markup, Material-UI components and styles. This includes the choice between the login buttons and the user card by `isLoggedIn`, and the Alert text `logs[severity]`. The Alert's content is only stated through `PostedMessageIsShown`.
- The SDK is not modelled, because it is foreign code. This covers `OreId`, `popup.auth`/`sign`/`newChainAccount`/`recoverAccount`, `createTransaction`, `signStringWithWallet`, `logout`, `auth.user.getData` and the access-token decoding. Each appears only as the outcome or value passed to the handler. The requests the session handlers make are returned as `SessionRequest` values (`PopupAuth(provider)`, `Logout`).
- Wallet-provider registration and the configuration constants (src/App.js:46-75) are left out. They are library wiring.
- The startup iframe check (src/App.js:255-270) is browser I/O and is left out. So is its JSX warning message; all log messages are strings.
- `window.open` is left out. So is `console` output.
- The 6-second snackbar auto-hide is a timer. Its effect is `CloseSnackbar`.
- The 2-second delayed refresh after a wallet signature is a timer. A caller can call `HandleUserInfo` again.
- The effect that re-reads user info when the access token changes (src/App.js:248-250) is a React trigger. A caller can call `HandleUserInfo` again.
- Async interleaving is not modelled. The model runs each handler to completion: the pending kind is set, then the outcome is handled. `handleAction` does not await, and handlers of different gestures could interleave at suspension points.
- React closure capture is not modelled. In the source, `handleWidgetSuccess` reads the `widgetAction` of the render in which the dispatcher was created, not the value the dispatcher just set. Run as written, that is usually null, so the success message would not be posted. The model uses the intended sequential reading.
- The permission lookup at src/UserOreId.jsx:161 indexes `.permissions` of the `chainAccounts` array. That is undefined, so the expression throws before `onAction` runs. `SubmitPermission` models the evidently intended lookup instead: the flattened list of line 150, indexed as at line 312.
- Handlers that use the SDK object (`HandleLogin`, `HandleLogout`, `HandleSignString`, `ComposeWidgetOptionsForAction`) require it to exist. They are reachable only once `isLoggedIn` is non-null, and the class invariant ties that to `oreIdReady`. The `TypeError` that calling them earlier would raise is not modelled.
- The case where the access-token helper exists but has no decoded token is not modelled. In the source that throws after `isLoggedIn` is set. The token's provider is a plain optional value here.
- The SDK's enumerations (`LoginProvider`, `ChainNetwork`, `ExternalWalletType`, `WebWidgetAction` beyond its three used members) are opaque strings. So is the transaction template, a constructor parameter of the view. The custodial provider is a parameter of `VisibleLoginProviders`.
- An SDK error's `errors` payload is modelled as an optional string. The SDK may deliver another truthy value there.
- Permissions.KeyLabel: counts and slices characters of `seq<char>`, not the UTF-16 code units JavaScript's `length` and `substring` use. The two differ only for keys holding characters outside the Basic Multilingual Plane, which public keys do not contain.
- `privateKeyStoredExterally` is modelled as a boolean. The source passes through whatever the SDK reports.
