/** The App component (App.js): the session, notification and pending-action
    state, and the handlers that update it. Every SDK call a handler awaits is
    a parameter carrying the call's outcome; the handler's contract ties the
    new state to the specification functions of this module and of the
    Notification and Widget modules. */
module App {
  import opened JsValues
  import opened OreIdData
  import opened Notification
  import opened Widget

  const LoggedInMessage := "Logged In Successfully!"
  const LoggedOutMessage := "Logged Out Successfully!"
  const AccountAddedMessage := "Account Added Successfully!"
  const VerifyText := "Verify your Account"

  /** A session request made to the SDK: the login popup for a provider, or
      logout. */
  datatype SessionRequest = PopupAuth(provider: Provider) | Logout

  /** The request passed to `signStringWithWallet` when connecting a wallet. */
  datatype SignStringRequest = SignStringRequest(
    account: string,
    walletType: Option<string>,
    chainNetwork: Option<string>,
    text: string,
    message: string)

  /** The values of the App component's state, as one record. */
  datatype AppSnapshot = AppSnapshot(
    oreIdReady: bool,
    logs: Logs,
    severity: Option<Severity>,
    openSnackbar: bool,
    isLoggedIn: Option<bool>,
    widgetAction: Option<WidgetAction>,
    loggedProvider: Option<Provider>)

  /** The class invariant: a login status is known only once the SDK is
      initialised. */
  predicate Initialised(s: AppSnapshot) {
    s.isLoggedIn.Some? ==> s.oreIdReady
  }

  /** The session rule: a provider is remembered only while logged in. Every
      completed read of the user data establishes it; a failed read during
      logout leaves it broken (see `HandleLogout`). */
  predicate Consistent(s: AppSnapshot) {
    s.isLoggedIn != Some(true) ==> s.loggedProvider == None
  }

  /** The user data has an account name: the login test of `handleUserInfo`. */
  predicate HasAccount(user: Option<UserData>) {
    user.Some? && user.value.accountName != ""
  }

  /** The session once `handleUserInfo` has read `user` from the SDK and
      `tokenProvider` from the decoded access token. */
  function SessionFrom(s: AppSnapshot, user: Option<UserData>, tokenProvider: Option<Provider>): (r: AppSnapshot)
    requires s.oreIdReady
    ensures r.isLoggedIn == Some(true) <==> HasAccount(user)
    ensures r.isLoggedIn == Some(false) <==> !HasAccount(user)
    ensures r.isLoggedIn == Some(true) ==> r.loggedProvider == tokenProvider
    ensures Consistent(r)
    ensures r.(isLoggedIn := s.isLoggedIn, loggedProvider := s.loggedProvider) == s
  {
    if HasAccount(user) then s.(isLoggedIn := Some(true), loggedProvider := tokenProvider)
    else s.(isLoggedIn := Some(false), loggedProvider := None)
  }

  /** The session after `handleUserInfo`'s read of the user data ended with
      `read`: a rejected `getData()` stops the handler before either setter
      runs, so the session is kept. */
  function SessionAfterRead(s: AppSnapshot, read: Outcome<Option<UserData>>, tokenProvider: Option<Provider>): (r: AppSnapshot)
    requires s.oreIdReady
    ensures read.Rejected? ==> r == s
    ensures read.Resolved? ==> Consistent(r) && (r.isLoggedIn == Some(true) <==> HasAccount(read.value))
  {
    match read
    case Rejected(_) => s
    case Resolved(user) => SessionFrom(s, user, tokenProvider)
  }

  /** The state after `setLogs(l)` and the effect that reacts to it. */
  function Posted(s: AppSnapshot, l: Logs): AppSnapshot {
    s.(logs := l, severity := SeverityAfter(s.severity, l), openSnackbar := s.openSnackbar || AnySet(l))
  }

  /** The state after a dispatch with effect `d`. */
  function Settle(s: AppSnapshot, d: DispatchResult): AppSnapshot {
    var posted := if d.log.Some? then Posted(s, d.log.value) else s;
    if d.clearsPending then posted.(widgetAction := None) else posted
  }

  /** A dispatch never touches the session, so it keeps the invariant. */
  lemma SettleKeepsSession(s: AppSnapshot, d: DispatchResult)
    ensures Settle(s, d).(logs := s.logs, severity := s.severity, openSnackbar := s.openSnackbar,
                          widgetAction := s.widgetAction) == s
    ensures Initialised(s) ==> Initialised(Settle(s, d))
    ensures Consistent(s) ==> Consistent(Settle(s, d))
  {
  }

  /** A posted one-field message shows in the snackbar: it opens, and the
      Alert's severity is the message's own, so the Alert shows that message. */
  lemma PostedMessageIsShown(s: AppSnapshot, sev: Severity, msg: string)
    requires msg != ""
    ensures var r := Posted(s, Only(sev, Some(msg)));
      r.openSnackbar && r.severity == Some(sev) && Message(r.logs, r.severity.value) == Some(msg)
  {
    OnlySelectsItsSeverity(s.severity, sev, msg);
  }

  /** A successful login with an account name leaves the user logged in and
      shows "Logged In Successfully!" as a success. */
  lemma LoginShowsSuccess(s: AppSnapshot, user: Option<UserData>, tokenProvider: Option<Provider>)
    requires s.oreIdReady && HasAccount(user)
    ensures var r := Posted(SessionFrom(s, user, tokenProvider), Only(Success, Some(LoggedInMessage)));
      && r.isLoggedIn == Some(true) && r.loggedProvider == tokenProvider
      && r.openSnackbar && r.severity == Some(Success) && Message(r.logs, Success) == Some(LoggedInMessage)
  {
    PostedMessageIsShown(SessionFrom(s, user, tokenProvider), Success, LoggedInMessage);
  }

  /** One entry of the SDK's login-provider enumeration: its key and value. */
  datatype ProviderEntry = ProviderEntry(key: string, value: Provider)

  /** The login buttons offered when logged out: the enumeration's entries
      in order, without those whose value is the custodial provider. */
  function VisibleLoginProviders(entries: seq<ProviderEntry>, custodial: Provider): (r: seq<ProviderEntry>)
    ensures forall e :: e in r <==> e in entries && e.value != custodial
    ensures |r| <= |entries|
    decreases |entries|
  {
    if entries == [] then []
    else if entries[0].value != custodial then [entries[0]] + VisibleLoginProviders(entries[1..], custodial)
    else VisibleLoginProviders(entries[1..], custodial)
  }

  /** The filter keeps the enumeration's order: filtering a concatenation is
      the concatenation of the filtered parts. */
  lemma {:induction false} VisibleLoginProvidersKeepsOrder(a: seq<ProviderEntry>, b: seq<ProviderEntry>, custodial: Provider)
    ensures VisibleLoginProviders(a + b, custodial)
         == VisibleLoginProviders(a, custodial) + VisibleLoginProviders(b, custodial)
    decreases |a|
  {
    if a != [] {
      assert (a + b)[1..] == a[1..] + b;
      VisibleLoginProvidersKeepsOrder(a[1..], b, custodial);
    } else {
      assert a + b == b;
    }
  }

  class AppState {
    var oreIdReady: bool
    var logs: Logs
    var severity: Option<Severity>
    var openSnackbar: bool
    var isLoggedIn: Option<bool>
    var widgetAction: Option<WidgetAction>
    var loggedProvider: Option<Provider>

    function Snapshot(): AppSnapshot
      reads this
    {
      AppSnapshot(oreIdReady, logs, severity, openSnackbar, isLoggedIn, widgetAction, loggedProvider)
    }

    ghost predicate Valid()
      reads this
    {
      Initialised(Snapshot())
    }

    /** The initial state: no SDK yet, no logs, no severity, snackbar closed,
        login status unknown (`null`), nothing pending, no provider. */
    constructor ()
      ensures Valid()
      ensures Snapshot() == AppSnapshot(false, NoLogs, None, false, None, None, None)
    {
      oreIdReady := false;
      logs := NoLogs;
      severity := None;
      openSnackbar := false;
      isLoggedIn := None;
      widgetAction := None;
      loggedProvider := None;
    }

    /** `createMyOreId`: the SDK object becomes available. */
    method InitOreId()
      requires Valid()
      modifies this
      ensures Valid()
      ensures Snapshot() == old(Snapshot()).(oreIdReady := true)
    {
      oreIdReady := true;
    }

    /** The effect on `logs`: two separate if/else chains choose the
        severity, then the snackbar opens when any message is set. */
    method LogsEffect()
      requires Valid()
      modifies this
      ensures Valid()
      ensures Snapshot() == old(Snapshot()).(severity := SeverityAfter(old(severity), logs),
                                             openSnackbar := old(openSnackbar) || AnySet(logs))
    {
      if Truthy(logs.info) {
        severity := Some(Info);
      } else if Truthy(logs.warning) {
        severity := Some(Warning);
      }
      if Truthy(logs.success) {
        severity := Some(Success);
      } else if Truthy(logs.error) {
        severity := Some(Error);
      }
      if Truthy(logs.info) || Truthy(logs.error) || Truthy(logs.warning) || Truthy(logs.success) {
        openSnackbar := true;
      }
    }

    /** `setLogs(l)`, followed by the effect it triggers. */
    method SetLogs(l: Logs)
      requires Valid()
      modifies this
      ensures Valid()
      ensures Snapshot() == Posted(old(Snapshot()), l)
    {
      logs := l;
      LogsEffect();
    }

    /** The Snackbar's `onClose`: the only place the snackbar is closed. */
    method CloseSnackbar()
      requires Valid()
      modifies this
      ensures Valid()
      ensures Snapshot() == old(Snapshot()).(openSnackbar := false)
    {
      openSnackbar := false;
    }

    /** `handleUserInfo`: nothing before the SDK exists; otherwise the user
        data is read (`read`: the cached data, or `getData()` when that is
        not loaded) and the login status follows its account name. A
        rejected read ends the handler with the session unchanged. */
    method HandleUserInfo(read: Outcome<Option<UserData>>, tokenProvider: Option<Provider>)
      requires Valid()
      modifies this
      ensures Valid()
      ensures Snapshot() == if old(oreIdReady) then SessionAfterRead(old(Snapshot()), read, tokenProvider)
                            else old(Snapshot())
    {
      if !oreIdReady {
        return;
      }
      if read.Rejected? {
        return;
      }
      var user := read.value;
      if user.Some? && user.value.accountName != "" {
        isLoggedIn := Some(true);
        loggedProvider := tokenProvider;
        return;
      }
      isLoggedIn := Some(false);
      loggedProvider := None;
    }

    /** `handleLogin(provider)`: opens the login popup for `provider`
        (returned as `request`); `auth` is its outcome. On success the user
        data is read again (`read`, `tokenProvider`) and a success message is
        posted, whatever that read gave; on failure the error's `errors`
        payload is posted as an error. */
    method HandleLogin(provider: Provider, auth: Outcome<()>, read: Outcome<Option<UserData>>,
                       tokenProvider: Option<Provider>)
      returns (request: SessionRequest)
      requires Valid() && oreIdReady
      modifies this
      ensures Valid()
      ensures request == PopupAuth(provider)
      ensures auth.Resolved? ==>
        Snapshot() == Posted(SessionAfterRead(old(Snapshot()), read, tokenProvider), Only(Success, Some(LoggedInMessage)))
      ensures auth.Rejected? ==>
        Snapshot() == Posted(old(Snapshot()), Only(Error, auth.error.errors))
    {
      request := PopupAuth(provider);
      match auth {
        case Resolved(_) =>
          HandleUserInfo(read, tokenProvider);
          SetLogs(Only(Success, Some(LoggedInMessage)));
        case Rejected(e) =>
          SetLogs(Only(Error, e.errors));
      }
    }

    /** `handleLogout`: marks the user logged out, asks the SDK to log out
        (`request`) without waiting for it, posts a success message and reads
        the user data again (`read`, `tokenProvider`). When that read is
        rejected the user stays marked logged out but the provider is kept,
        breaking the session rule. */
    method HandleLogout(read: Outcome<Option<UserData>>, tokenProvider: Option<Provider>)
      returns (request: SessionRequest)
      requires Valid() && oreIdReady
      modifies this
      ensures Valid()
      ensures request == Logout
      ensures Snapshot() == SessionAfterRead(Posted(old(Snapshot()), Only(Success, Some(LoggedOutMessage))).(isLoggedIn := Some(false)),
                                             read, tokenProvider)
      ensures read.Resolved? ==> Consistent(Snapshot())
      ensures read.Rejected? ==> isLoggedIn == Some(false) && loggedProvider == old(loggedProvider)
    {
      isLoggedIn := Some(false);
      request := Logout;
      SetLogs(Only(Success, Some(LoggedOutMessage)));
      HandleUserInfo(read, tokenProvider);
    }

    /** `handleSignString`: asks the SDK to sign the fixed verification text
        with the chosen wallet for `account`; `signed` is the outcome, its
        value the `signedString`. A non-empty signature posts a success and
        calls the dialog's `onSuccess`; a failure posts the error's message. */
    method HandleSignString(req: ConnectRequest, account: string, signed: Outcome<Option<string>>)
      returns (request: SignStringRequest, onSuccess: bool)
      requires Valid() && oreIdReady
      modifies this
      ensures Valid()
      ensures request == SignStringRequest(account, req.walletType, req.chainNetwork, VerifyText, "")
      ensures onSuccess <==> signed.Resolved? && Truthy(signed.value)
      ensures signed.Rejected? ==> Snapshot() == Posted(old(Snapshot()), Only(Error, signed.error.message))
      ensures onSuccess ==> Snapshot() == Posted(old(Snapshot()), Only(Success, Some(AccountAddedMessage)))
      ensures signed.Resolved? && !onSuccess ==> Snapshot() == old(Snapshot())
    {
      request := SignStringRequest(account, req.walletType, req.chainNetwork, VerifyText, "");
      onSuccess := false;
      match signed {
        case Resolved(signedString) =>
          if Truthy(signedString) {
            SetLogs(Only(Success, Some(AccountAddedMessage)));
            onSuccess := true;
          }
        case Rejected(e) =>
          SetLogs(Only(Error, e.message));
      }
    }

    /** `handleWidgetSuccess`: posts the success message of the pending
        action kind and clears the pending slot. Reading the created account
        of a result without `data` throws before anything changes
        (`threw`). */
    method HandleWidgetSuccess(response: Option<PopupResponse>) returns (threw: bool)
      requires Valid()
      modifies this
      ensures Valid()
      ensures threw == SuccessEffectOf(old(widgetAction), response).Thrown?
      ensures Snapshot() == match SuccessEffectOf(old(widgetAction), response)
        case Thrown => old(Snapshot())
        case NoLog => old(Snapshot()).(widgetAction := None)
        case Log(l) => Posted(old(Snapshot()), l).(widgetAction := None)
    {
      threw := false;
      match widgetAction {
        case Some(Sign) =>
          SetLogs(Only(Success, Some(SignedMessage)));
        case Some(NewChainAccount) =>
          if response.Some? && response.value.data.None? {
            threw := true;
            return;
          }
          var name := if response.Some? then OrElse(response.value.data.value.chainAccount, "") else "";
          SetLogs(Only(Success, Some(CreatedPrefix + name + CreatedSuffix)));
        case Some(RecoverAccount) =>
          SetLogs(Only(Success, Some(RecoveredMessage)));
        case _ =>
      }
      widgetAction := None;
    }

    /** `handleWidgetError`: posts the error's `errors` payload (or the fixed
        fallback) and clears the pending slot. */
    method HandleWidgetError(e: SdkError)
      requires Valid()
      modifies this
      ensures Valid()
      ensures Snapshot() == Posted(old(Snapshot()), ErrorLogs(e)).(widgetAction := None)
    {
      SetLogs(Only(Error, Some(OrElse(e.errors, FallbackErrorMessage))));
      widgetAction := None;
    }

    /** The end of a popup call inside the dispatcher's `try`: its result goes
        to `handleWidgetSuccess`, and a rejection or a throw from that handler
        goes to `handleWidgetError`. */
    method AwaitPopup(popup: Outcome<Option<PopupResponse>>)
      requires Valid()
      requires widgetAction.Some? && !widgetAction.value.OtherAction?
      modifies this
      ensures Valid()
      ensures Snapshot() == Settle(old(Snapshot()), DispatchResult([], Settled(old(widgetAction.value), popup), true))
    {
      match popup {
        case Rejected(e) =>
          HandleWidgetError(e);
        case Resolved(response) =>
          var threw := HandleWidgetSuccess(response);
          if threw {
            HandleWidgetError(TypeError);
          }
      }
    }

    /** `composeWidgetOptionsForAction(action, args)`: validates the Sign
        arguments, makes the SDK calls of the action (returned in order),
        marks the action pending before its popup and settles the outcome.
        `created` is the outcome of `createTransaction`, `popup` that of the
        popup call. */
    method ComposeWidgetOptionsForAction(action: WidgetAction, args: Option<ActionArgs>,
                                         created: Outcome<string>, popup: Outcome<Option<PopupResponse>>)
      returns (calls: seq<SdkCall>)
      requires Valid() && oreIdReady
      modifies this
      ensures Valid()
      ensures Consistent(old(Snapshot())) ==> Consistent(Snapshot())
      ensures calls == Dispatch(action, args, old(loggedProvider), created, popup).calls
      ensures Snapshot() == Settle(old(Snapshot()), Dispatch(action, args, old(loggedProvider), created, popup))
    {
      ghost var d := Dispatch(action, args, loggedProvider, created, popup);
      SettleKeepsSession(Snapshot(), d);
      calls := [];
      match action {
        case Sign =>
          if !(args.Some? && args.value.chainAccountPermission.Some? && Truthy(args.value.transaction)) {
            SetLogs(Only(Error, Some(SignValidationMessage)));
            return;
          }
          var permission := args.value.chainAccountPermission.value;
          var request := TransactionData(
            permission.chainAccount,
            permission.permission.chainNetwork,
            args.value.transaction.value,
            SignOptions(loggedProvider, permission.permission.privateKeyStoredExterally, true, false, true));
          calls := calls + [CreateTransaction(request)];
          match created {
            case Rejected(e) =>
              HandleWidgetError(e);
            case Resolved(transaction) =>
              widgetAction := Some(Sign);
              calls := calls + [PopupSign(transaction)];
              AwaitPopup(popup);
          }
        case NewChainAccount =>
          widgetAction := Some(NewChainAccount);
          calls := calls + [PopupNewChainAccount(if args.Some? then args.value.chainNetwork else None)];
          AwaitPopup(popup);
        case RecoverAccount =>
          widgetAction := Some(RecoverAccount);
          calls := calls + [PopupRecoverAccount];
          AwaitPopup(popup);
        case OtherAction(_) =>
      }
    }
  }
}
