/** The widget actions of App.js: what a dispatched action sends to the SDK
    and which notification its outcome produces. `Dispatch` is the reference
    definition that `App.AppState.ComposeWidgetOptionsForAction` is proved
    against; the lemmas below state what the dispatcher promises. */
module Widget {
  import opened JsValues
  import opened OreIdData
  import opened Notification

  /** A widget action requested by the view. `OtherAction` stands for any
      other value of the SDK's action enumeration, and for the `""` of the
      action menu's None item. */
  datatype WidgetAction = Sign | NewChainAccount | RecoverAccount | OtherAction(name: string)

  /** The `args` object handed to `onAction`; each field may be missing. */
  datatype ActionArgs = ActionArgs(
    chainAccountPermission: Option<TaggedPermission>,
    transaction: Option<string>,
    chainNetwork: Option<string>)

  datatype SignOptions = SignOptions(
    provider: Option<Provider>,
    allowChainAccountSelection: bool,
    broadcast: bool,
    returnSignedTransaction: bool,
    preventAutosign: bool)

  /** The signing request passed to `createTransaction`. */
  datatype TransactionData = TransactionData(
    chainAccount: string,
    chainNetwork: string,
    transaction: string,
    signOptions: SignOptions)

  /** The argument of `onConnectWallet`: the network and wallet type chosen
      in the Connect Wallet dialog. The dialog's `onSuccess` callback is
      represented by the handler's result saying whether it was called. */
  datatype ConnectRequest = ConnectRequest(chainNetwork: Option<string>, walletType: Option<string>)

  /** The `data` of a popup's result, of which only `chain_account` is read. */
  datatype PopupData = PopupData(chainAccount: Option<string>)

  /** A popup's result object. */
  datatype PopupResponse = PopupResponse(data: Option<PopupData>)

  /** A call the dispatcher makes into the SDK. */
  datatype SdkCall =
    | CreateTransaction(request: TransactionData)
    | PopupSign(transaction: string)
    | PopupNewChainAccount(chainNetwork: Option<string>)
    | PopupRecoverAccount

  const SignValidationMessage := "Please select a Permission and Transaction to Sign"
  const SignedMessage := "Signed Transaction Successfully!"
  const RecoveredMessage := "Recovered Password Successfully!"
  const FallbackErrorMessage := "An error occured"
  const CreatedPrefix := "New Chain Account "
  const CreatedSuffix := " Created Successfully!"

  /** The Sign arguments are accepted: a permission is given and the
      transaction text is not empty. */
  predicate SignArgsPresent(args: Option<ActionArgs>) {
    args.Some? && args.value.chainAccountPermission.Some? && Truthy(args.value.transaction)
  }

  /** The signing request built from accepted Sign arguments, or `None` when
      the arguments are rejected before any SDK call. */
  function SignRequest(args: Option<ActionArgs>, provider: Option<Provider>): (r: Option<TransactionData>)
    ensures r.Some? <==> SignArgsPresent(args)
    ensures r.Some? ==>
      var p := args.value.chainAccountPermission.value;
      && r.value.chainAccount == p.chainAccount
      && r.value.chainNetwork == p.permission.chainNetwork
      && r.value.transaction == args.value.transaction.value
      && r.value.signOptions.provider == provider
      && r.value.signOptions.allowChainAccountSelection == p.permission.privateKeyStoredExterally
      && r.value.signOptions.broadcast
      && !r.value.signOptions.returnSignedTransaction
      && r.value.signOptions.preventAutosign
  {
    if !SignArgsPresent(args) then None
    else
      var p := args.value.chainAccountPermission.value;
      Some(TransactionData(
        p.chainAccount,
        p.permission.chainNetwork,
        args.value.transaction.value,
        SignOptions(provider, p.permission.privateKeyStoredExterally, true, false, true)))
  }

  /** The success message for a newly created chain account. */
  function CreatedMessage(name: string): string {
    CreatedPrefix + name + CreatedSuffix
  }

  /** The success message names the created account unambiguously: two
      labels give the same message only if they are the same label. */
  lemma CreatedMessageInjective(a: string, b: string)
    requires CreatedMessage(a) == CreatedMessage(b)
    ensures a == b
  {
    var m := CreatedMessage(a);
    assert a == m[|CreatedPrefix|..|m| - |CreatedSuffix|];
    assert b == CreatedMessage(b)[|CreatedPrefix|..|m| - |CreatedSuffix|];
  }

  /** `result?.data["chain_account"] || ""`: the created account's label,
      or `None` when the result has no `data` and the lookup throws. */
  function CreatedLabel(response: Option<PopupResponse>): (r: Option<string>)
    ensures r.None? <==> response.Some? && response.value.data.None?
    ensures r.Some? && response.Some? ==> r.value == OrElse(response.value.data.value.chainAccount, "")
    ensures response.None? ==> r == Some("")
  {
    match response
    case None => Some("")
    case Some(PopupResponse(None)) => None
    case Some(PopupResponse(Some(d))) => Some(OrElse(d.chainAccount, ""))
  }

  /** What `handleWidgetSuccess` does with a popup result. */
  datatype SuccessEffect = NoLog | Log(logs: Logs) | Thrown

  /** The message `handleWidgetSuccess` posts for the pending action kind. */
  function SuccessEffectOf(pending: Option<WidgetAction>, response: Option<PopupResponse>): (r: SuccessEffect)
    ensures r.Log? ==> AnySet(r.logs) && r.logs.success.Some? && r.logs == Only(Success, r.logs.success)
    ensures r.Thrown? <==> pending == Some(NewChainAccount) && CreatedLabel(response).None?
    ensures r.NoLog? <==> pending.None? || pending.value.OtherAction?
    ensures pending == Some(Sign) ==> r == Log(Only(Success, Some(SignedMessage)))
    ensures pending == Some(RecoverAccount) ==> r == Log(Only(Success, Some(RecoveredMessage)))
    ensures pending == Some(NewChainAccount) && CreatedLabel(response).Some? ==>
      r == Log(Only(Success, Some(CreatedMessage(CreatedLabel(response).value))))
  {
    match pending
    case None => NoLog
    case Some(Sign) => Log(Only(Success, Some(SignedMessage)))
    case Some(NewChainAccount) =>
      (match CreatedLabel(response)
       case None => Thrown
       case Some(name) => Log(Only(Success, Some(CreatedMessage(name)))))
    case Some(RecoverAccount) => Log(Only(Success, Some(RecoveredMessage)))
    case Some(OtherAction(_)) => NoLog
  }

  /** The message `handleWidgetError` posts: the error's `errors` payload, or
      the fixed fallback when it is absent or empty. It is never empty. */
  function ErrorLogs(e: SdkError): (l: Logs)
    ensures l == Only(Error, l.error) && Truthy(l.error)
    ensures Truthy(e.errors) ==> l.error == e.errors
    ensures !Truthy(e.errors) ==> l.error == Some(FallbackErrorMessage)
  {
    Only(Error, Some(OrElse(e.errors, FallbackErrorMessage)))
  }

  /** The effect of one dispatch: the SDK calls made in order, the
      notification posted (if any) and whether the pending slot is cleared. */
  datatype DispatchResult = DispatchResult(calls: seq<SdkCall>, log: Option<Logs>, clearsPending: bool)

  /** The notification once the popup for `kind` has settled: the success
      message, or the error message when the popup rejected or the success
      handler threw. */
  function Settled(kind: WidgetAction, popup: Outcome<Option<PopupResponse>>): Option<Logs> {
    match popup
    case Rejected(e) => Some(ErrorLogs(e))
    case Resolved(response) =>
      match SuccessEffectOf(Some(kind), response)
      case NoLog => None
      case Log(l) => Some(l)
      case Thrown => Some(ErrorLogs(TypeError))
  }

  /** Reference definition of dispatching `action`: `provider` is the logged
      provider, `created` the outcome of `createTransaction` (read only for
      Sign) and `popup` the outcome of the popup call. */
  function Dispatch(action: WidgetAction, args: Option<ActionArgs>, provider: Option<Provider>,
                    created: Outcome<string>, popup: Outcome<Option<PopupResponse>>): DispatchResult
  {
    match action
    case Sign =>
      (match SignRequest(args, provider)
       case None => DispatchResult([], Some(Only(Error, Some(SignValidationMessage))), false)
       case Some(request) =>
         match created
         case Rejected(e) => DispatchResult([CreateTransaction(request)], Some(ErrorLogs(e)), true)
         case Resolved(tx) => DispatchResult([CreateTransaction(request), PopupSign(tx)], Settled(Sign, popup), true))
    case NewChainAccount =>
      DispatchResult([PopupNewChainAccount(if args.Some? then args.value.chainNetwork else None)],
                     Settled(NewChainAccount, popup), true)
    case RecoverAccount =>
      DispatchResult([PopupRecoverAccount], Settled(RecoverAccount, popup), true)
    case OtherAction(_) => DispatchResult([], None, false)
  }

  /** Rejected Sign arguments post exactly the validation error, call nothing
      and leave the pending slot alone. */
  lemma InvalidSignCallsNothing(args: Option<ActionArgs>, provider: Option<Provider>,
                                created: Outcome<string>, popup: Outcome<Option<PopupResponse>>)
    requires !SignArgsPresent(args)
    ensures Dispatch(Sign, args, provider, created, popup)
         == DispatchResult([], Some(Only(Error, Some(SignValidationMessage))), false)
  {
  }

  /** Accepted Sign arguments first call `createTransaction` with the signing
      request, and call `popup.sign` with the created transaction only when
      that succeeded. */
  lemma ValidSignCalls(args: Option<ActionArgs>, provider: Option<Provider>,
                       created: Outcome<string>, popup: Outcome<Option<PopupResponse>>)
    requires SignArgsPresent(args)
    ensures var d := Dispatch(Sign, args, provider, created, popup);
      && 1 <= |d.calls| <= 2
      && d.calls[0] == CreateTransaction(SignRequest(args, provider).value)
      && (|d.calls| == 2 <==> created.Resolved?)
      && (created.Resolved? ==> d.calls[1] == PopupSign(created.value))
  {
  }

  /** An action outside Sign, NewChainAccount and RecoverAccount calls
      nothing, posts nothing and keeps the pending slot. */
  lemma OtherActionIsNoOp(name: string, args: Option<ActionArgs>, provider: Option<Provider>,
                          created: Outcome<string>, popup: Outcome<Option<PopupResponse>>)
    ensures Dispatch(OtherAction(name), args, provider, created, popup) == DispatchResult([], None, false)
  {
  }

  /** Every dispatch of a known action that passes validation makes a call,
      clears the pending slot and posts a non-empty message, so the snackbar
      opens; the message is a success exactly when the SDK calls succeeded
      and the result could be read. */
  lemma KnownActionSettles(action: WidgetAction, args: Option<ActionArgs>, provider: Option<Provider>,
                           created: Outcome<string>, popup: Outcome<Option<PopupResponse>>)
    requires !action.OtherAction?
    requires action == Sign ==> SignArgsPresent(args)
    ensures var d := Dispatch(action, args, provider, created, popup);
      && d.clearsPending
      && |d.calls| >= 1
      && d.log.Some? && AnySet(d.log.value)
      && (Truthy(d.log.value.success) <==>
            && (action == Sign ==> created.Resolved?)
            && popup.Resolved?
            && (action == NewChainAccount ==> CreatedLabel(popup.value).Some?))
  {
  }

  /** A NewChainAccount whose popup resolved with `data.chain_account` set to
      `acct` posts the message naming `acct`; without that field the name is
      empty. */
  lemma NewChainAccountNamesAccount(args: Option<ActionArgs>, provider: Option<Provider>,
                                    created: Outcome<string>, acct: Option<string>)
    ensures Dispatch(NewChainAccount, args, provider, created,
                     Resolved(Some(PopupResponse(Some(PopupData(acct)))))).log
         == Some(Only(Success, Some(CreatedMessage(if Truthy(acct) then acct.value else ""))))
  {
  }
}
