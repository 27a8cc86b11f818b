/** The pure computations of the user view (UserOreId.jsx): the flattened
    permission list that the Sign dialog offers, the lookup of the selected
    entry and the public-key label. */
module Permissions {
  import opened JsValues
  import opened OreIdData

  /** The permissions of one account, each tagged with the account's address. */
  function Tagged(a: ChainAccount): (r: seq<TaggedPermission>)
    ensures |r| == |a.permissions|
    ensures forall j :: 0 <= j < |r| ==> r[j] == TaggedPermission(a.permissions[j], a.chainAccount)
  {
    seq(|a.permissions|, j requires 0 <= j < |a.permissions| => TaggedPermission(a.permissions[j], a.chainAccount))
  }

  /** `accounts.reduce((acc, a) => acc.concat(tagged a), acc)`: the left fold
      the view runs, from accumulator `acc`. */
  function ReduceConcat(acc: seq<TaggedPermission>, accounts: seq<ChainAccount>): seq<TaggedPermission>
    decreases |accounts|
  {
    if accounts == [] then acc else ReduceConcat(acc + Tagged(accounts[0]), accounts[1..])
  }

  /** The `chainAccountsPermissions` list, folded from the empty list. */
  function ChainAccountsPermissions(accounts: seq<ChainAccount>): seq<TaggedPermission> {
    ReduceConcat([], accounts)
  }

  /** Reference definition: the accounts' tagged permissions concatenated in
      account order. */
  function Concat(accounts: seq<ChainAccount>): seq<TaggedPermission>
    decreases |accounts|
  {
    if accounts == [] then [] else Tagged(accounts[0]) + Concat(accounts[1..])
  }

  /** The total number of permissions over all accounts. */
  function PermissionCount(accounts: seq<ChainAccount>): nat
    decreases |accounts|
  {
    if accounts == [] then 0 else |accounts[0].permissions| + PermissionCount(accounts[1..])
  }

  /** The position in the flattened list of account `i`'s first permission. */
  function Offset(accounts: seq<ChainAccount>, i: nat): nat
    requires i <= |accounts|
    decreases i
  {
    if i == 0 then 0 else |accounts[0].permissions| + Offset(accounts[1..], i - 1)
  }

  /** Folding from any accumulator only prepends that accumulator. */
  lemma {:induction false} ReduceConcatPrepends(acc: seq<TaggedPermission>, accounts: seq<ChainAccount>)
    ensures ReduceConcat(acc, accounts) == acc + Concat(accounts)
    decreases |accounts|
  {
    if accounts != [] {
      ReduceConcatPrepends(acc + Tagged(accounts[0]), accounts[1..]);
      assert acc + Tagged(accounts[0]) + Concat(accounts[1..]) == acc + (Tagged(accounts[0]) + Concat(accounts[1..]));
    }
  }

  /** The fold the view runs computes the concatenation in account order. */
  lemma FlattenIsConcat(accounts: seq<ChainAccount>)
    ensures ChainAccountsPermissions(accounts) == Concat(accounts)
  {
    ReduceConcatPrepends([], accounts);
  }

  /** The concatenation is as long as all the accounts' permission lists together. */
  lemma {:induction false} ConcatLength(accounts: seq<ChainAccount>)
    ensures |Concat(accounts)| == PermissionCount(accounts)
    decreases |accounts|
  {
    if accounts != [] {
      ConcatLength(accounts[1..]);
    }
  }

  /** The flattened list is as long as the sum of the per-account counts. */
  lemma FlattenLength(accounts: seq<ChainAccount>)
    ensures |ChainAccountsPermissions(accounts)| == PermissionCount(accounts)
  {
    FlattenIsConcat(accounts);
    ConcatLength(accounts);
  }

  /** Offsets stay within the list: account `i` and all that follow fit after it. */
  lemma {:induction false} OffsetBound(accounts: seq<ChainAccount>, i: nat)
    requires i < |accounts|
    ensures Offset(accounts, i) + |accounts[i].permissions| <= PermissionCount(accounts)
    decreases i
  {
    if i > 0 {
      OffsetBound(accounts[1..], i - 1);
    }
  }

  /** Permission `j` of account `i` sits at `Offset(accounts, i) + j` of the
      concatenation, tagged with account `i`'s address. */
  lemma {:induction false} ConcatAt(accounts: seq<ChainAccount>, i: nat, j: nat)
    requires i < |accounts| && j < |accounts[i].permissions|
    ensures Offset(accounts, i) + j < |Concat(accounts)|
    ensures Concat(accounts)[Offset(accounts, i) + j]
         == TaggedPermission(accounts[i].permissions[j], accounts[i].chainAccount)
    decreases i
  {
    ConcatLength(accounts);
    OffsetBound(accounts, i);
    if i > 0 {
      ConcatAt(accounts[1..], i - 1, j);
    }
  }

  /** The flattened list holds permission `j` of account `i` at position
      `Offset(accounts, i) + j`, tagged with that account's address. */
  lemma FlattenAt(accounts: seq<ChainAccount>, i: nat, j: nat)
    requires i < |accounts| && j < |accounts[i].permissions|
    ensures Offset(accounts, i) + j < |ChainAccountsPermissions(accounts)|
    ensures ChainAccountsPermissions(accounts)[Offset(accounts, i) + j]
         == TaggedPermission(accounts[i].permissions[j], accounts[i].chainAccount)
  {
    FlattenIsConcat(accounts);
    ConcatAt(accounts, i, j);
  }

  /** Every entry of the concatenation comes from some account `i` and
      permission `j`, at position `Offset(accounts, i) + j`. */
  lemma {:induction false} ConcatOrigin(accounts: seq<ChainAccount>, k: nat) returns (i: nat, j: nat)
    requires k < |Concat(accounts)|
    ensures i < |accounts| && j < |accounts[i].permissions|
    ensures k == Offset(accounts, i) + j
    ensures Concat(accounts)[k] == TaggedPermission(accounts[i].permissions[j], accounts[i].chainAccount)
    decreases |accounts|
  {
    var head := Tagged(accounts[0]);
    if k < |head| {
      i, j := 0, k;
    } else {
      var i', j' := ConcatOrigin(accounts[1..], k - |head|);
      i, j := i' + 1, j';
    }
  }

  /** Every entry of the flattened list is some account's permission tagged
      with that account's address. */
  lemma FlattenOrigin(accounts: seq<ChainAccount>, k: nat) returns (i: nat, j: nat)
    requires k < |ChainAccountsPermissions(accounts)|
    ensures i < |accounts| && j < |accounts[i].permissions|
    ensures k == Offset(accounts, i) + j
    ensures ChainAccountsPermissions(accounts)[k]
         == TaggedPermission(accounts[i].permissions[j], accounts[i].chainAccount)
  {
    FlattenIsConcat(accounts);
    i, j := ConcatOrigin(accounts, k);
  }

  /** The value of the permission `<Select>`: `null` before any choice, `""`
      for the None item, or the index of an entry. */
  datatype Selection = Unselected | NoneItem | Item(index: int)

  /** `chainAccountsPermissions[selectedPermission]`: the selected entry, or
      `undefined` when nothing or the None item is selected or the index is
      out of range. */
  function SelectedPermission(perms: seq<TaggedPermission>, sel: Selection): (r: Option<TaggedPermission>)
    ensures r.Some? <==> sel.Item? && 0 <= sel.index < |perms|
    ensures r.Some? ==> r.value in perms
  {
    if sel.Item? && 0 <= sel.index < |perms| then Some(perms[sel.index]) else None
  }

  /** Selecting the item at `Offset(accounts, i) + j` hands on permission `j`
      of account `i`, tagged with account `i`'s address. */
  lemma SelectingItemPicksAccountPermission(accounts: seq<ChainAccount>, i: nat, j: nat)
    requires i < |accounts| && j < |accounts[i].permissions|
    ensures SelectedPermission(ChainAccountsPermissions(accounts), Item(Offset(accounts, i) + j))
         == Some(TaggedPermission(accounts[i].permissions[j], accounts[i].chainAccount))
  {
    FlattenAt(accounts, i, j);
  }

  /** The length up to which a public key is shown. */
  const KeyPrefixLength := 7

  /** The label shown after a permission's name in the Sign dialog:
      `(` + the key's first seven characters + `...` when the key is longer
      + `)`, and nothing at all when the key is absent or empty. */
  function KeyLabel(publicKey: Option<string>): (r: Option<string>)
    ensures r.Some? <==> Truthy(publicKey)
    ensures r.Some? && |publicKey.value| <= KeyPrefixLength ==> r.value == "(" + publicKey.value + ")"
    ensures r.Some? && |publicKey.value| > KeyPrefixLength ==>
      r.value == "(" + publicKey.value[..KeyPrefixLength] + "...)"
    ensures r.Some? ==> |r.value| <= KeyPrefixLength + 5
  {
    if !Truthy(publicKey) then None
    else
      var key := publicKey.value;
      var shown := if |key| < KeyPrefixLength then |key| else KeyPrefixLength;
      Some("(" + key[..shown] + (if |key| > KeyPrefixLength then "..." else "") + ")")
  }
}
