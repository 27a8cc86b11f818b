/** The UserOreId view (UserOreId.jsx): the dialog and form state it keeps,
    the handlers that update that state, and the requests those handlers
    pass up to the App component through `onAction` and `onConnectWallet`
    (returned here as values). Rendering is not modelled. */
module UserOreId {
  import opened JsValues
  import opened OreIdData
  import opened Permissions
  import opened Widget

  const ConnectWalletTitle := "Connect Wallet"
  const ChoosePermissionTitle := "Choose Permission"
  const ChooseChainNetworkTitle := "Choose Chain Network"

  /** A call `onAction(action, args)`; `None` args stands for a call with
      no second argument. */
  datatype ActionCall = ActionCall(action: WidgetAction, args: Option<ActionArgs>)

  /** The Connect button: enabled only when both a network and a wallet
      type are chosen (neither `null` nor the None item). */
  function ConnectDisabled(chainNetwork: Option<string>, walletType: Option<string>): (disabled: bool)
    ensures !disabled <==> Truthy(chainNetwork) && Truthy(walletType)
    ensures chainNetwork.None? || walletType.None? ==> disabled
  {
    !Truthy(chainNetwork) || !Truthy(walletType)
  }

  /** The Create Chain Account button: disabled only by the None item; a
      network that was never chosen (`null`) leaves it enabled. */
  function CreateChainAccountDisabled(chainNetwork: Option<string>): (disabled: bool)
    ensures disabled ==> !Truthy(chainNetwork)
    ensures chainNetwork.None? ==> !disabled
    ensures disabled <==> chainNetwork == Some("")
  {
    chainNetwork == Some("")
  }

  /** The Sign with Permission button: disabled only by the None item; no
      choice at all (`null`) leaves it enabled. */
  function SignDisabled(selected: Selection): (disabled: bool)
    ensures disabled <==> selected.NoneItem?
    ensures selected.Unselected? ==> !disabled
  {
    selected == NoneItem
  }

  /** Whether row `i` of the chain-account table is expanded: a missing
      entry reads as `undefined`, that is collapsed. */
  function RowOpen(rows: map<nat, bool>, i: nat): bool {
    i in rows && rows[i]
  }

  /** `Array(n).fill(false)`: rows `0 .. n-1`, all collapsed. */
  function CollapsedRows(n: nat): (rows: map<nat, bool>)
    ensures forall i: nat :: i in rows <==> i < n
    ensures forall i: nat :: i in rows ==> !rows[i]
    ensures forall i: nat :: !RowOpen(rows, i)
  {
    if n == 0 then map[] else CollapsedRows(n - 1)[n - 1 := false]
  }

  /** The values of the view's props and state, as one record. */
  datatype ViewSnapshot = ViewSnapshot(
    userInfo: UserData,
    selectedPermission: Selection,
    openDialog: bool,
    dialogTitle: string,
    chainNetwork: Option<string>,
    walletType: Option<string>,
    transaction: string,
    openRow: map<nat, bool>)

  class UserOreIdView {
    /** The `userInfo` prop. */
    var userInfo: UserData
    /** The pretty-printed transaction template the draft starts from. */
    const template: string
    var selectedPermission: Selection
    var openDialog: bool
    var dialogTitle: string
    var chainNetwork: Option<string>
    var walletType: Option<string>
    var transaction: string
    var openRow: map<nat, bool>

    function Snapshot(): ViewSnapshot
      reads this
    {
      ViewSnapshot(userInfo, selectedPermission, openDialog, dialogTitle, chainNetwork, walletType, transaction, openRow)
    }

    /** The permissions the Sign dialog offers: `chainAccountsPermissions`. */
    function OfferedPermissions(): seq<TaggedPermission>
      reads this
    {
      Permissions.ChainAccountsPermissions(userInfo.chainAccounts)
    }

    /** The initial state: nothing chosen, dialog closed and untitled, the
        draft set to the template, one collapsed row per chain account. The
        Connect button starts disabled; Create Chain Account and Sign start
        enabled. */
    constructor (userInfo: UserData, template: string)
      ensures Snapshot() == ViewSnapshot(userInfo, Unselected, false, "", None, None, template,
                                         CollapsedRows(|userInfo.chainAccounts|))
      ensures this.template == template
      ensures ConnectDisabled(chainNetwork, walletType)
      ensures !CreateChainAccountDisabled(chainNetwork) && !SignDisabled(selectedPermission)
    {
      this.userInfo := userInfo;
      this.template := template;
      selectedPermission := Unselected;
      openDialog := false;
      dialogTitle := "";
      chainNetwork := None;
      walletType := None;
      transaction := template;
      openRow := CollapsedRows(|userInfo.chainAccounts|);
    }

    /** A new `userInfo` prop (after a refresh); the state is kept. */
    method ReceiveUserInfo(user: UserData)
      modifies this
      ensures Snapshot() == old(Snapshot()).(userInfo := user)
    {
      userInfo := user;
    }

    /** The Connect Wallet icon: opens the dialog on the Connect Wallet form. */
    method OpenConnectWallet()
      modifies this
      ensures Snapshot() == old(Snapshot()).(dialogTitle := ConnectWalletTitle, openDialog := true)
    {
      dialogTitle := ConnectWalletTitle;
      openDialog := true;
    }

    /** The dialog's `onClose`, and the `onSuccess` callback handed to
        `onConnectWallet`. */
    method CloseDialog()
      modifies this
      ensures Snapshot() == old(Snapshot()).(openDialog := false)
    {
      openDialog := false;
    }

    /** Choosing a chain network (`""` for the None item). */
    method ChangeChainNetwork(value: string)
      modifies this
      ensures Snapshot() == old(Snapshot()).(chainNetwork := Some(value))
    {
      chainNetwork := Some(value);
    }

    /** Choosing a wallet type (`""` for the None item). */
    method ChangeWalletType(value: string)
      modifies this
      ensures Snapshot() == old(Snapshot()).(walletType := Some(value))
    {
      walletType := Some(value);
    }

    /** Choosing a permission: records the choice and resets the draft
        transaction to the template, discarding any edit. */
    method ChangePermission(value: Selection)
      modifies this
      ensures Snapshot() == old(Snapshot()).(selectedPermission := value, transaction := template)
    {
      selectedPermission := value;
      transaction := template;
    }

    /** Editing the draft transaction. */
    method EditTransaction(text: string)
      modifies this
      ensures Snapshot() == old(Snapshot()).(transaction := text)
    {
      transaction := text;
    }

    /** The expand button of row `i`: flips that row and no other. */
    method ToggleRow(i: nat)
      modifies this
      ensures RowOpen(openRow, i) == !old(RowOpen(openRow, i))
      ensures forall k: nat :: k != i ==> RowOpen(openRow, k) == old(RowOpen(openRow, k))
      ensures openRow.Keys == old(openRow.Keys) + {i}
      ensures Snapshot() == old(Snapshot()).(openRow := openRow)
    {
      openRow := openRow[i := !(i in openRow && openRow[i])];
    }

    /** The Widget Action menu: Sign and NewChainAccount open their dialog
        form and dispatch nothing; any other value (RecoverAccount, or the
        None item's `""`) is dispatched at once without arguments. */
    method SelectAction(action: WidgetAction) returns (call: Option<ActionCall>)
      modifies this
      ensures action == Sign ==>
        call.None? && Snapshot() == old(Snapshot()).(dialogTitle := ChoosePermissionTitle, openDialog := true)
      ensures action == NewChainAccount ==>
        call.None? && Snapshot() == old(Snapshot()).(dialogTitle := ChooseChainNetworkTitle, openDialog := true)
      ensures action != Sign && action != NewChainAccount ==>
        call == Some(ActionCall(action, None)) && Snapshot() == old(Snapshot())
    {
      match action {
        case Sign =>
          dialogTitle := ChoosePermissionTitle;
          openDialog := true;
          return None;
        case NewChainAccount =>
          dialogTitle := ChooseChainNetworkTitle;
          openDialog := true;
          return None;
        case _ =>
      }
      call := Some(ActionCall(action, None));
    }

    /** Submitting the Choose Chain Network form: closes the dialog and
        dispatches NewChainAccount with the chosen network. */
    method SubmitChainNetwork() returns (call: ActionCall)
      modifies this
      ensures call == ActionCall(NewChainAccount, Some(ActionArgs(None, None, chainNetwork)))
      ensures Snapshot() == old(Snapshot()).(openDialog := false)
    {
      openDialog := false;
      call := ActionCall(NewChainAccount, Some(ActionArgs(None, None, chainNetwork)));
    }

    /** Submitting the Choose Permission form: closes the dialog and
        dispatches Sign with the selected entry of the offered permissions
        (absent when none is selected) and the draft transaction. */
    method SubmitPermission() returns (call: ActionCall)
      modifies this
      ensures call == ActionCall(Sign, Some(ActionArgs(
        SelectedPermission(OfferedPermissions(), selectedPermission), Some(transaction), None)))
      ensures Snapshot() == old(Snapshot()).(openDialog := false)
    {
      openDialog := false;
      var offered := Permissions.ChainAccountsPermissions(userInfo.chainAccounts);
      var permission := if selectedPermission.Item? && 0 <= selectedPermission.index < |offered|
                        then Some(offered[selectedPermission.index]) else None;
      call := ActionCall(Sign, Some(ActionArgs(permission, Some(transaction), None)));
    }

    /** Submitting the Connect Wallet form: hands the chosen network and
        wallet type to `onConnectWallet`; the dialog stays open until that
        handler reports success. */
    method SubmitConnectWallet() returns (req: ConnectRequest)
      ensures req == ConnectRequest(chainNetwork, walletType)
    {
      req := ConnectRequest(chainNetwork, walletType);
    }
  }
}
