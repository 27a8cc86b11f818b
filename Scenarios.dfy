/** Client code that drives the App component and the UserOreId view through
    complete user flows, using only the handlers' contracts. */
module Scenarios {
  import opened JsValues
  import opened OreIdData
  import opened Notification
  import opened Permissions
  import opened Widget
  import opened App
  import opened UserOreId

  /** Logging in through the popup with a user that has an account name. */
  method LoginFlow(provider: Provider) {
    var app := new AppState();
    app.InitOreId();
    var user := UserData("acct1", "Name", "mail", "pic", "user", []);
    var request := app.HandleLogin(provider, Resolved(()), Resolved(Some(user)), Some(provider));
    assert request == PopupAuth(provider);
    assert app.isLoggedIn == Some(true) && app.loggedProvider == Some(provider);
    assert app.logs == Only(Success, Some(LoggedInMessage));
    assert app.severity == Some(Success) && app.openSnackbar;
  }

  /** Logging out while the SDK fails to report the user data again: the
      user is shown as logged out, yet the login provider is still
      remembered. */
  method LogoutWithFailedReadFlow(user: UserData, e: SdkError)
    requires user.accountName != ""
  {
    var app := new AppState();
    app.InitOreId();
    app.HandleUserInfo(Resolved(Some(user)), Some("google"));
    assert app.loggedProvider == Some("google");
    var request := app.HandleLogout(Rejected(e), None);
    assert request == Logout;
    assert app.isLoggedIn == Some(false) && app.loggedProvider == Some("google");
    assert !Consistent(app.Snapshot());
    assert app.logs == Only(Success, Some(LoggedOutMessage));
  }

  /** Signing from the Choose Permission form before any permission was
      chosen: no SDK call, the validation error is shown, nothing pends. */
  method SignWithoutPermissionFlow(user: UserData, template: string, created: Outcome<string>,
                                   popup: Outcome<Option<PopupResponse>>) {
    var app := new AppState();
    app.InitOreId();
    app.HandleUserInfo(Resolved(Some(user)), None);
    var view := new UserOreIdView(user, template);
    var menu := view.SelectAction(Sign);
    assert menu.None? && view.openDialog && view.dialogTitle == ChoosePermissionTitle;
    var call := view.SubmitPermission();
    assert !view.openDialog;
    var calls := app.ComposeWidgetOptionsForAction(call.action, call.args, created, popup);
    assert calls == [];
    assert app.logs == Only(Error, Some(SignValidationMessage));
    assert app.severity == Some(Error) && app.widgetAction.None?;
  }

  /** Creating a chain account on a chosen network: the popup's created
      account is named in the success message and the pending slot is
      cleared. */
  method NewChainAccountFlow(user: UserData, template: string) {
    var app := new AppState();
    app.InitOreId();
    var view := new UserOreIdView(user, template);
    var menu := view.SelectAction(NewChainAccount);
    view.ChangeChainNetwork("eos");
    var call := view.SubmitChainNetwork();
    var response := Some(PopupResponse(Some(PopupData(Some("newacct")))));
    var calls := app.ComposeWidgetOptionsForAction(call.action, call.args, Rejected(TypeError), Resolved(response));
    assert calls == [PopupNewChainAccount(Some("eos"))];
    assert app.logs == Only(Success, Some(CreatedMessage("newacct")));
    assert app.widgetAction.None? && app.severity == Some(Success);
  }

  /** Picking the first permission of a one-account user and signing it:
      the signing request targets that account and network. */
  method SignFirstPermissionFlow(p: Permission, template: string)
    requires template != ""
  {
    var account := ChainAccount("addr", p.chainNetwork, p, [p]);
    var user := UserData("acct1", "Name", "mail", "pic", "user", [account]);
    var app := new AppState();
    app.InitOreId();
    app.HandleUserInfo(Resolved(Some(user)), Some("google"));
    var view := new UserOreIdView(user, template);
    view.ChangePermission(Item(0));
    SelectingItemPicksAccountPermission([account], 0, 0);
    assert Offset([account], 0) == 0;
    var call := view.SubmitPermission();
    var calls := app.ComposeWidgetOptionsForAction(call.action, call.args, Resolved("tx"), Resolved(None));
    assert calls[0].request.chainAccount == "addr";
    assert calls[0].request.chainNetwork == p.chainNetwork;
    assert calls[0].request.signOptions.provider == Some("google");
    assert calls == [calls[0], PopupSign("tx")];
    assert app.logs == Only(Success, Some(SignedMessage));
  }

  /** Connecting a wallet: the App handler's success calls the view's
      `onSuccess`, which closes the dialog. */
  method ConnectWalletFlow(user: UserData, template: string) {
    var app := new AppState();
    app.InitOreId();
    app.HandleUserInfo(Resolved(Some(user)), None);
    var view := new UserOreIdView(user, template);
    view.OpenConnectWallet();
    view.ChangeChainNetwork("eos");
    view.ChangeWalletType("scatter");
    assert !ConnectDisabled(view.chainNetwork, view.walletType);
    var req := view.SubmitConnectWallet();
    var request, onSuccess := app.HandleSignString(req, user.accountName, Resolved(Some("sig")));
    assert request.chainNetwork == Some("eos") && request.walletType == Some("scatter");
    assert onSuccess && app.logs == Only(Success, Some(AccountAddedMessage));
    if onSuccess {
      view.CloseDialog();
    }
    assert !view.openDialog;
  }

  /** A record with both success and error selects success. */
  method SuccessAndErrorFlow() {
    var app := new AppState();
    app.SetLogs(Logs(None, None, Some("a"), Some("b")));
    assert app.severity == Some(Success);
    app.SetLogs(Logs(Some("a"), None, None, Some("b")));
    assert app.severity == Some(Error);
    app.SetLogs(NoLogs);
    assert app.severity == Some(Error) && app.openSnackbar;
  }
}
