/**
 * server/routers/accounts.ts: the chart of accounts. Creating, editing and
 * deleting accounts (owners and admins only, codes unique per company,
 * parents of the same type, system accounts protected, accounts with
 * journal lines deactivated rather than deleted), the account tree, and an
 * account's balance over a period.
 */
module Accounts {
  import opened Common
  import opened Enums
  import opened Database

  predicate Owned(accounts: map<Id, Account>, id: Id, companyId: Id) {
    id in accounts && accounts[id].companyId == companyId
  }

  /** Some account of the company other than `except` already uses `code`. */
  predicate CodeTaken(accounts: map<Id, Account>, companyId: Id, code: string, except: Option<Id>) {
    exists id :: id in accounts && accounts[id].companyId == companyId && accounts[id].code == code
                 && (except.Some? ==> id != except.value)
  }

  /** No two accounts of one company share a code. */
  predicate CodesUnique(accounts: map<Id, Account>) {
    forall a, b :: a in accounts && b in accounts && a != b && accounts[a].companyId == accounts[b].companyId
                   ==> accounts[a].code != accounts[b].code
  }

  /** Every parent link points to an account of the same company and type. */
  predicate ParentsMatch(accounts: map<Id, Account>) {
    forall id :: id in accounts && accounts[id].parentAccountId.Some? ==>
      var p := accounts[id].parentAccountId.value;
      p in accounts && accounts[p].companyId == accounts[id].companyId
      && accounts[p].accountType == accounts[id].accountType
  }

  // ---------------------------------------------------------------------
  // create
  // ---------------------------------------------------------------------

  datatype CreateAccountInput = CreateAccountInput(
    code: string, name: string, accountType: AccountType, subType: Option<string>,
    isBankAccount: Option<bool>, isControlAccount: Option<bool>, parentAccountId: Option<Id>,
    taxCategory: Option<string>)

  /** The account currency: the company's, or "USD" when there is none (`company?.currency || "USD"`). */
  function AccountCurrency(companies: map<Id, Company>, companyId: Id): (c: string)
    ensures c != ""
    ensures companyId in companies && companies[companyId].currency != "" ==> c == companies[companyId].currency
  {
    if companyId in companies && companies[companyId].currency != "" then companies[companyId].currency else "USD"
  }

  function NewAccount(companyId: Id, input: CreateAccountInput, currency: string): (a: Account)
    ensures !a.isSystem && a.isActive && a.code == input.code && a.accountType == input.accountType
    ensures a.parentAccountId == input.parentAccountId && a.companyId == companyId
  {
    Account(companyId, input.code, input.name, input.accountType, input.subType,
            input.isBankAccount.GetOr(false), input.isControlAccount.GetOr(false), input.parentAccountId,
            input.taxCategory, currency, false, true)
  }

  /** A parent, when one is given, is an account of the company with the given type. */
  predicate ParentFits(accounts: map<Id, Account>, companyId: Id, parentId: Option<Id>, t: AccountType) {
    parentId.Some? ==> Owned(accounts, parentId.value, companyId) && accounts[parentId.value].accountType == t
  }

  /** The checks of `create` that come before the parent is looked at. */
  predicate CreateReachesParent(accounts: map<Id, Account>, caller: Caller, input: CreateAccountInput) {
    input.code != "" && input.name != "" && IsOwnerOrAdmin(caller.role)
    && !CodeTaken(accounts, caller.companyId, input.code, None)
  }

  /** Why `create` refuses, if it does, in the order the router checks. */
  function CreateError(accounts: map<Id, Account>, caller: Caller, input: CreateAccountInput): (e: Option<ApiError>)
    ensures e.None? <==> CreateReachesParent(accounts, caller, input)
                         && ParentFits(accounts, caller.companyId, input.parentAccountId, input.accountType)
    ensures input.code == "" || input.name == "" ==> e == Some(BadRequest)
    ensures input.code != "" && input.name != "" && !IsOwnerOrAdmin(caller.role) ==> e == Some(Forbidden)
    ensures (input.code != "" && input.name != "" && IsOwnerOrAdmin(caller.role)
             && CodeTaken(accounts, caller.companyId, input.code, None)) ==> e == Some(Conflict)
    ensures (CreateReachesParent(accounts, caller, input) && input.parentAccountId.Some?
             && !Owned(accounts, input.parentAccountId.value, caller.companyId)) ==> e == Some(NotFound)
    ensures (CreateReachesParent(accounts, caller, input) && input.parentAccountId.Some?
             && Owned(accounts, input.parentAccountId.value, caller.companyId)
             && accounts[input.parentAccountId.value].accountType != input.accountType) ==> e == Some(BadRequest)
  {
    if input.code == "" || input.name == "" then Some(BadRequest)
    else if !IsOwnerOrAdmin(caller.role) then Some(Forbidden)
    else if CodeTaken(accounts, caller.companyId, input.code, None) then Some(Conflict)
    else if input.parentAccountId.Some? && !Owned(accounts, input.parentAccountId.value, caller.companyId) then Some(NotFound)
    else if input.parentAccountId.Some? && accounts[input.parentAccountId.value].accountType != input.accountType then
      Some(BadRequest)
    else None
  }

  /** `accounts.create`. */
  method Create(db: Db, caller: Caller, input: CreateAccountInput, newId: Id) returns (r: Result<Account>)
    requires newId !in db.accounts
    modifies db`accounts
    ensures CreateError(old(db.accounts), caller, input).Some? ==>
              r == Err(CreateError(old(db.accounts), caller, input).value) && db.accounts == old(db.accounts)
    ensures CreateError(old(db.accounts), caller, input).None? ==>
              var a := NewAccount(caller.companyId, input, AccountCurrency(db.companies, caller.companyId));
              r == Ok(a) && db.accounts == old(db.accounts)[newId := a]
    ensures CodesUnique(old(db.accounts)) ==> CodesUnique(db.accounts)
    ensures ParentsMatch(old(db.accounts)) ==> ParentsMatch(db.accounts)
  {
    var error := CreateError(db.accounts, caller, input);
    if error.Some? {
      return Err(error.value);
    }
    var a := NewAccount(caller.companyId, input, AccountCurrency(db.companies, caller.companyId));
    db.accounts := db.accounts[newId := a];
    r := Ok(a);
  }

  // ---------------------------------------------------------------------
  // update
  // ---------------------------------------------------------------------

  datatype UpdateAccountInput = UpdateAccountInput(
    id: Id, code: Option<string>, name: Option<string>, accountType: Option<AccountType>,
    subType: Option<string>, isBankAccount: Option<bool>, isControlAccount: Option<bool>,
    parentAccountId: Option<Id>, taxCategory: Option<string>, isActive: Option<bool>)

  /** The checks of `update` up to and including "not a system account". */
  predicate UpdateReachesCode(accounts: map<Id, Account>, caller: Caller, input: UpdateAccountInput) {
    input.code != Some("") && input.name != Some("") && IsOwnerOrAdmin(caller.role)
    && Owned(accounts, input.id, caller.companyId) && !accounts[input.id].isSystem
  }

  /** A new code is given and another account of the company already has it. */
  predicate CodeConflict(accounts: map<Id, Account>, caller: Caller, input: UpdateAccountInput)
    requires input.id in accounts
  {
    input.code.Some? && input.code.value != accounts[input.id].code
    && CodeTaken(accounts, caller.companyId, input.code.value, Some(input.id))
  }

  /** The checks of `update` that come before the parent is looked at. */
  predicate UpdateReachesParent(accounts: map<Id, Account>, caller: Caller, input: UpdateAccountInput) {
    UpdateReachesCode(accounts, caller, input) && !CodeConflict(accounts, caller, input)
  }

  /** Why `update` refuses, if it does, in the order the router checks. */
  function UpdateError(accounts: map<Id, Account>, caller: Caller, input: UpdateAccountInput): (e: Option<ApiError>)
    ensures e.None? <==> UpdateReachesParent(accounts, caller, input)
                         && ParentFits(accounts, caller.companyId, input.parentAccountId,
                                       Overwrite(accounts[input.id].accountType, input.accountType))
                         && input.parentAccountId != Some(input.id)
    ensures (input.code == Some("") || input.name == Some("")) ==> e == Some(BadRequest)
    ensures input.code != Some("") && input.name != Some("") && !IsOwnerOrAdmin(caller.role) ==> e == Some(Forbidden)
    ensures (input.code != Some("") && input.name != Some("") && IsOwnerOrAdmin(caller.role)
             && !Owned(accounts, input.id, caller.companyId)) ==> e == Some(NotFound)
    ensures (input.code != Some("") && input.name != Some("") && IsOwnerOrAdmin(caller.role)
             && Owned(accounts, input.id, caller.companyId) && accounts[input.id].isSystem) ==> e == Some(Forbidden)
    ensures UpdateReachesCode(accounts, caller, input) && CodeConflict(accounts, caller, input) ==> e == Some(Conflict)
    ensures (UpdateReachesParent(accounts, caller, input) && input.parentAccountId.Some?
             && !Owned(accounts, input.parentAccountId.value, caller.companyId)) ==> e == Some(NotFound)
    ensures UpdateReachesParent(accounts, caller, input) && input.parentAccountId.Some?
            && Owned(accounts, input.parentAccountId.value, caller.companyId)
            && accounts[input.parentAccountId.value].accountType != Overwrite(accounts[input.id].accountType, input.accountType)
            ==> e == Some(BadRequest)
    ensures UpdateReachesParent(accounts, caller, input) && input.parentAccountId == Some(input.id) ==> e == Some(BadRequest)
  {
    if input.code == Some("") || input.name == Some("") then Some(BadRequest)
    else if !IsOwnerOrAdmin(caller.role) then Some(Forbidden)
    else if !Owned(accounts, input.id, caller.companyId) then Some(NotFound)
    else if accounts[input.id].isSystem then Some(Forbidden)
    else if CodeConflict(accounts, caller, input) then Some(Conflict)
    else if input.parentAccountId.Some? && !Owned(accounts, input.parentAccountId.value, caller.companyId) then
      Some(NotFound)
    else if input.parentAccountId.Some?
            && accounts[input.parentAccountId.value].accountType != Overwrite(accounts[input.id].accountType, input.accountType) then
      Some(BadRequest)
    else if input.parentAccountId.Some? && input.parentAccountId.value == input.id then Some(BadRequest)
    else None
  }

  /** The supplied fields overwrite the stored ones. */
  function ApplyUpdate(a: Account, input: UpdateAccountInput): (r: Account)
    ensures r.companyId == a.companyId && r.isSystem == a.isSystem && r.currency == a.currency
    ensures r.code == Overwrite(a.code, input.code) && r.accountType == Overwrite(a.accountType, input.accountType)
    ensures r.parentAccountId == (if input.parentAccountId.Some? then input.parentAccountId else a.parentAccountId)
    ensures r.name == Overwrite(a.name, input.name)
    ensures r.subType == (if input.subType.Some? then input.subType else a.subType)
    ensures r.isBankAccount == Overwrite(a.isBankAccount, input.isBankAccount)
    ensures r.isControlAccount == Overwrite(a.isControlAccount, input.isControlAccount)
    ensures r.taxCategory == (if input.taxCategory.Some? then input.taxCategory else a.taxCategory)
    ensures r.isActive == Overwrite(a.isActive, input.isActive)
  {
    a.(code := Overwrite(a.code, input.code), name := Overwrite(a.name, input.name),
       accountType := Overwrite(a.accountType, input.accountType),
       subType := if input.subType.Some? then input.subType else a.subType,
       isBankAccount := Overwrite(a.isBankAccount, input.isBankAccount),
       isControlAccount := Overwrite(a.isControlAccount, input.isControlAccount),
       parentAccountId := if input.parentAccountId.Some? then input.parentAccountId else a.parentAccountId,
       taxCategory := if input.taxCategory.Some? then input.taxCategory else a.taxCategory,
       isActive := Overwrite(a.isActive, input.isActive))
  }

  /** `accounts.update`. */
  method Update(db: Db, caller: Caller, input: UpdateAccountInput) returns (r: Result<Account>)
    modifies db`accounts
    ensures UpdateError(old(db.accounts), caller, input).Some? ==>
              r == Err(UpdateError(old(db.accounts), caller, input).value) && db.accounts == old(db.accounts)
    ensures UpdateError(old(db.accounts), caller, input).None? ==>
              var a := ApplyUpdate(old(db.accounts)[input.id], input);
              r == Ok(a) && db.accounts == old(db.accounts)[input.id := a]
    ensures CodesUnique(old(db.accounts)) ==> CodesUnique(db.accounts)
  {
    var error := UpdateError(db.accounts, caller, input);
    if error.Some? {
      return Err(error.value);
    }
    var a := ApplyUpdate(db.accounts[input.id], input);
    db.accounts := db.accounts[input.id := a];
    r := Ok(a);
  }

  /**
   * The parent check of `update` looks only at a parent given in the same
   * request: changing the type of an account that keeps its stored parent
   * passes, and leaves a parent of another type behind.
   */
  lemma TypeChangeKeepsMismatchedParent()
    ensures var parent := Account(1, "1000", "Cash", Asset, None, false, false, None, None, "USD", false, true);
            var child := Account(1, "1010", "Petty cash", Asset, None, false, false, Some(0), None, "USD", false, true);
            var accounts := map[0 := parent, 2 := child];
            var input := UpdateAccountInput(2, None, None, Some(Liability), None, None, None, None, None, None);
            && ParentsMatch(accounts)
            && UpdateError(accounts, Caller(7, 1, "owner"), input).None?
            && !ParentsMatch(accounts[2 := ApplyUpdate(child, input)])
  {
    var parent := Account(1, "1000", "Cash", Asset, None, false, false, None, None, "USD", false, true);
    var child := Account(1, "1010", "Petty cash", Asset, None, false, false, Some(0), None, "USD", false, true);
    var accounts := map[0 := parent, 2 := child];
    var input := UpdateAccountInput(2, None, None, Some(Liability), None, None, None, None, None, None);
    var after := accounts[2 := ApplyUpdate(child, input)];
    assert after[2].parentAccountId == Some(0) && after[0].accountType != after[2].accountType;
  }

  // ---------------------------------------------------------------------
  // delete
  // ---------------------------------------------------------------------

  /** Some journal line, of any company, posts to the account. */
  predicate HasTransactions(lines: map<Id, TransactionLine>, accountId: Id) {
    exists l :: l in lines && lines[l].accountId == accountId
  }

  datatype DeleteOutcome = Removed | Deactivated

  /** `accounts.delete`: an account with journal lines is deactivated; one without is removed. */
  method Delete(db: Db, caller: Caller, id: Id) returns (r: Result<DeleteOutcome>)
    modifies db`accounts
    ensures !IsOwnerOrAdmin(caller.role) ==> r == Err(Forbidden)
    ensures IsOwnerOrAdmin(caller.role) && !Owned(old(db.accounts), id, caller.companyId) ==> r == Err(NotFound)
    ensures (IsOwnerOrAdmin(caller.role) && Owned(old(db.accounts), id, caller.companyId)
             && old(db.accounts)[id].isSystem) ==> r == Err(Forbidden)
    ensures r.Err? ==> db.accounts == old(db.accounts)
    ensures r.Ok? <==> IsOwnerOrAdmin(caller.role) && Owned(old(db.accounts), id, caller.companyId)
                       && !old(db.accounts)[id].isSystem
    ensures r == Ok(Deactivated) <==> r.Ok? && HasTransactions(db.transactionLines, id)
    ensures r == Ok(Deactivated) ==> db.accounts == old(db.accounts)[id := old(db.accounts)[id].(isActive := false)]
    ensures r == Ok(Removed) ==> db.accounts == old(db.accounts) - {id}
  {
    if !IsOwnerOrAdmin(caller.role) {
      return Err(Forbidden);
    }
    if !Owned(db.accounts, id, caller.companyId) {
      return Err(NotFound);
    }
    if db.accounts[id].isSystem {
      return Err(Forbidden);
    }
    if HasTransactions(db.transactionLines, id) {
      db.accounts := db.accounts[id := db.accounts[id].(isActive := false)];
      return Ok(Deactivated);
    }
    db.accounts := db.accounts - {id};
    r := Ok(Removed);
  }

  // ---------------------------------------------------------------------
  // getHierarchy
  // ---------------------------------------------------------------------

  datatype TreeNode = TreeNode(id: Id, account: Account, children: seq<TreeNode>)

  /**
   * `buildTree(parentId, type)`: the rows with that parent and type, in
   * query order, each with its own subtree. `fuel` bounds the depth.
   */
  function BuildTree(rows: seq<AccountRow>, parentId: Option<Id>, t: AccountType, fuel: nat): seq<TreeNode>
    decreases fuel, |rows| + 1
  {
    if fuel == 0 then [] else Level(rows, rows, parentId, t, fuel)
  }

  function Level(rows: seq<AccountRow>, rest: seq<AccountRow>, parentId: Option<Id>, t: AccountType, fuel: nat): seq<TreeNode>
    requires fuel > 0
    decreases fuel, |rest|
  {
    if rest == [] then []
    else
      var (id, a) := rest[0];
      (if a.parentAccountId == parentId && a.accountType == t
       then [TreeNode(id, a, BuildTree(rows, Some(id), t, fuel - 1))] else [])
      + Level(rows, rest[1..], parentId, t, fuel)
  }

  /**
   * `getHierarchy`: one tree per account type. `rows` is what its query
   * returns: the company's active accounts, ordered by type and code.
   */
  function Hierarchy(rows: seq<AccountRow>): (h: map<AccountType, seq<TreeNode>>)
    ensures h.Keys == {Asset, Liability, Equity, Revenue, Expense}
    ensures forall t :: t in h ==> Shaped(h[t], rows, None, t, 0)
  {
    var h := map t | t in {Asset, Liability, Equity, Revenue, Expense} :: BuildTree(rows, None, t, |rows|);
    forall t | t in h ensures Shaped(h[t], rows, None, t, 0) {
      BuildTreeShaped(rows, None, t, |rows|, 0);
    }
    h
  }

  /** Following parent links from `parentId` reaches a top-level account within `n` steps. */
  predicate Rooted(rows: seq<AccountRow>, parentId: Option<Id>, n: nat)
    decreases n
  {
    parentId.None? ||
    (n > 0 && exists j :: 0 <= j < |rows| && rows[j].0 == parentId.value && Rooted(rows, rows[j].1.parentAccountId, n - 1))
  }

  /**
   * The shape `buildTree` promises: every node is a queried row with the
   * enclosing node as parent (none at the top) and the tree's type, and its
   * parent chain reaches a top-level account.
   */
  predicate Shaped(nodes: seq<TreeNode>, rows: seq<AccountRow>, parentId: Option<Id>, t: AccountType, depth: nat)
    decreases nodes
  {
    forall i :: 0 <= i < |nodes| ==>
      && (nodes[i].id, nodes[i].account) in rows
      && nodes[i].account.parentAccountId == parentId
      && nodes[i].account.accountType == t
      && Rooted(rows, parentId, depth)
      && Shaped(nodes[i].children, rows, Some(nodes[i].id), t, depth + 1)
  }

  lemma {:induction false} BuildTreeShaped(rows: seq<AccountRow>, parentId: Option<Id>, t: AccountType, fuel: nat, depth: nat)
    requires Rooted(rows, parentId, depth)
    ensures Shaped(BuildTree(rows, parentId, t, fuel), rows, parentId, t, depth)
    decreases fuel, |rows| + 1
  {
    if fuel > 0 {
      LevelShaped(rows, rows, parentId, t, fuel, depth);
    }
  }

  lemma {:induction false} LevelShaped(rows: seq<AccountRow>, rest: seq<AccountRow>, parentId: Option<Id>, t: AccountType, fuel: nat, depth: nat)
    requires fuel > 0 && Rooted(rows, parentId, depth)
    requires forall k :: 0 <= k < |rest| ==> rest[k] in rows
    ensures Shaped(Level(rows, rest, parentId, t, fuel), rows, parentId, t, depth)
    decreases fuel, |rest|
  {
    if rest != [] {
      var (id, a) := rest[0];
      LevelShaped(rows, rest[1..], parentId, t, fuel, depth);
      if a.parentAccountId == parentId && a.accountType == t {
        var j :| 0 <= j < |rows| && rows[j] == rest[0];
        assert Rooted(rows, Some(id), depth + 1) by {
          assert rows[j].0 == id && rows[j].1.parentAccountId == parentId;
        }
        BuildTreeShaped(rows, Some(id), t, fuel - 1, depth + 1);
        var node := TreeNode(id, a, BuildTree(rows, Some(id), t, fuel - 1));
        var tail := Level(rows, rest[1..], parentId, t, fuel);
        assert Level(rows, rest, parentId, t, fuel) == [node] + tail;
        forall i | 0 <= i < |[node] + tail|
          ensures Shaped(([node] + tail)[i].children, rows, Some(([node] + tail)[i].id), t, depth + 1)
        {
          if i > 0 {
            assert ([node] + tail)[i] == tail[i - 1];
          }
        }
      } else {
        assert Level(rows, rest, parentId, t, fuel) == Level(rows, rest[1..], parentId, t, fuel);
      }
    }
  }

  /** A set of ids closed under the parent link: every row with an id in it has its parent in it. */
  predicate ParentClosed(rows: seq<AccountRow>, ids: set<Id>) {
    forall j :: 0 <= j < |rows| && rows[j].0 in ids ==>
      rows[j].1.parentAccountId.Some? && rows[j].1.parentAccountId.value in ids
  }

  /** A parent chain that enters a parent-closed set (a cycle) never reaches the top. */
  lemma {:induction false} CycleNeverRooted(rows: seq<AccountRow>, ids: set<Id>, p: Id, n: nat)
    requires ParentClosed(rows, ids) && p in ids
    ensures !Rooted(rows, Some(p), n)
    decreases n
  {
    if n > 0 {
      forall j | 0 <= j < |rows| && rows[j].0 == p
        ensures !Rooted(rows, rows[j].1.parentAccountId, n - 1)
      {
        CycleNeverRooted(rows, ids, rows[j].1.parentAccountId.value, n - 1);
      }
    }
  }

  /** No node of a shaped tree lies on a parent cycle. */
  lemma {:induction false} CyclesNotReached(nodes: seq<TreeNode>, rows: seq<AccountRow>, parentId: Option<Id>, t: AccountType,
                                            depth: nat, ids: set<Id>)
    requires Shaped(nodes, rows, parentId, t, depth) && ParentClosed(rows, ids)
    ensures forall i :: 0 <= i < |nodes| ==> nodes[i].id !in ids
  {
    forall i | 0 <= i < |nodes| ensures nodes[i].id !in ids {
      if nodes[i].id in ids {
        var j :| 0 <= j < |rows| && rows[j] == (nodes[i].id, nodes[i].account);
        assert parentId.Some? && parentId.value in ids;
        CycleNeverRooted(rows, ids, parentId.value, depth);
        assert false;
      }
    }
  }

  /** The row appears as a node somewhere in the forest. */
  predicate InForest(nodes: seq<TreeNode>, x: AccountRow)
    decreases nodes
  {
    exists i :: 0 <= i < |nodes| && ((nodes[i].id, nodes[i].account) == x || InForest(nodes[i].children, x))
  }

  /**
   * `path` leads down parent links from a child of `parentId`: every row is a
   * queried row of type `t`, the first has parent `parentId` and each later
   * one has the row before it as its parent.
   */
  predicate DownPath(rows: seq<AccountRow>, path: seq<AccountRow>, parentId: Option<Id>, t: AccountType) {
    && (forall k :: 0 <= k < |path| ==> path[k] in rows && path[k].1.accountType == t)
    && (|path| > 0 ==> path[0].1.parentAccountId == parentId)
    && (forall k :: 0 < k < |path| ==> path[k].1.parentAccountId == Some(path[k - 1].0))
  }

  /** A queried row with the right parent and type gets a node, with a subtree one level shallower. */
  lemma {:induction false} NodeInLevel(rows: seq<AccountRow>, rest: seq<AccountRow>, parentId: Option<Id>, t: AccountType,
                                       fuel: nat, x: AccountRow)
    requires fuel > 0 && x in rest && x.1.parentAccountId == parentId && x.1.accountType == t
    ensures TreeNode(x.0, x.1, BuildTree(rows, Some(x.0), t, fuel - 1)) in Level(rows, rest, parentId, t, fuel)
    decreases |rest|
  {
    var (id, a) := rest[0];
    var head := if a.parentAccountId == parentId && a.accountType == t
                then [TreeNode(id, a, BuildTree(rows, Some(id), t, fuel - 1))] else [];
    assert Level(rows, rest, parentId, t, fuel) == head + Level(rows, rest[1..], parentId, t, fuel);
    if rest[0] != x {
      NodeInLevel(rows, rest[1..], parentId, t, fuel, x);
    }
  }

  /** Every row at the end of a down path no longer than the fuel is in the tree. */
  lemma {:induction false} PathInTree(rows: seq<AccountRow>, path: seq<AccountRow>, parentId: Option<Id>, t: AccountType,
                                      fuel: nat)
    requires DownPath(rows, path, parentId, t) && 0 < |path| <= fuel
    ensures InForest(BuildTree(rows, parentId, t, fuel), path[|path| - 1])
    decreases |path|
  {
    var x := path[0];
    var node := TreeNode(x.0, x.1, BuildTree(rows, Some(x.0), t, fuel - 1));
    NodeInLevel(rows, rows, parentId, t, fuel, x);
    var nodes := BuildTree(rows, parentId, t, fuel);
    var i :| 0 <= i < |nodes| && nodes[i] == node;
    if |path| > 1 {
      var tail := path[1..];
      assert DownPath(rows, tail, Some(x.0), t) by {
        forall k | 0 < k < |tail| ensures tail[k].1.parentAccountId == Some(tail[k - 1].0) {
          assert tail[k] == path[k + 1] && tail[k - 1] == path[k];
        }
      }
      PathInTree(rows, tail, Some(x.0), t, fuel - 1);
      assert tail[|tail| - 1] == path[|path| - 1];
    }
  }

  /** A duplicate-free sequence drawn from `r` is no longer than `r`. */
  lemma {:induction false} DistinctWithin(s: seq<AccountRow>, r: seq<AccountRow>)
    requires forall i, j :: 0 <= i < j < |s| ==> s[i] != s[j]
    requires forall i :: 0 <= i < |s| ==> s[i] in r
    ensures |s| <= |r|
    decreases |r|
  {
    if s != [] {
      var k :| 0 <= k < |r| && r[k] == s[0];
      var smaller := r[..k] + r[k + 1..];
      forall i | 0 <= i < |s| - 1 ensures s[1..][i] in smaller {
        var m :| 0 <= m < |r| && r[m] == s[i + 1];
        assert s[i + 1] != s[0];
        if m < k {
          assert smaller[m] == r[m];
        } else {
          assert smaller[m - 1] == r[m];
        }
      }
      DistinctWithin(s[1..], smaller);
    }
  }

  /** Ids are primary keys: no two queried rows share one. */
  predicate KeyedRows(rows: seq<AccountRow>) {
    forall i, j :: 0 <= i < j < |rows| ==> rows[i].0 != rows[j].0
  }

  lemma SameKeySameRow(rows: seq<AccountRow>, x: AccountRow, y: AccountRow)
    requires KeyedRows(rows) && x in rows && y in rows && x.0 == y.0
    ensures x == y
  {
    var i :| 0 <= i < |rows| && rows[i] == x;
    var j :| 0 <= j < |rows| && rows[j] == y;
    assert i == j;
  }

  /** Going down from a top-level account, a path never meets the same account twice. */
  lemma {:induction false} DownPathDistinct(rows: seq<AccountRow>, path: seq<AccountRow>, t: AccountType, i: nat, j: nat)
    requires KeyedRows(rows) && DownPath(rows, path, None, t) && i < j < |path|
    ensures path[i].0 != path[j].0
    decreases i
  {
    if path[i].0 == path[j].0 {
      SameKeySameRow(rows, path[i], path[j]);
      assert path[j].1.parentAccountId == Some(path[j - 1].0);
      if i > 0 {
        assert path[i].1.parentAccountId == Some(path[i - 1].0);
        DownPathDistinct(rows, path, t, i - 1, j - 1);
      }
      assert false;
    }
  }

  /**
   * `getHierarchy` leaves no account out: an account reached from a
   * top-level account by a chain of child links within its type appears in
   * the tree of that type; the fuel of `|rows|` levels always suffices.
   */
  lemma HierarchyComplete(rows: seq<AccountRow>, path: seq<AccountRow>, t: AccountType)
    requires KeyedRows(rows) && DownPath(rows, path, None, t) && path != []
    ensures InForest(Hierarchy(rows)[t], path[|path| - 1])
  {
    forall i, j | 0 <= i < j < |path| ensures path[i] != path[j] {
      DownPathDistinct(rows, path, t, i, j);
    }
    DistinctWithin(path, rows);
    PathInTree(rows, path, None, t, |rows|);
  }

  // ---------------------------------------------------------------------
  // getBalance
  // ---------------------------------------------------------------------

  /** The `where` clause of `getBalance`: the account's lines in the company, within the optional dates. */
  predicate InPeriod(l: TransactionLine, accountId: Id, companyId: Id, startDate: Option<int>, endDate: Option<int>) {
    && l.accountId == accountId && l.companyId == companyId
    && (startDate.Some? ==> l.transactionDate >= startDate.value)
    && (endDate.Some? ==> l.transactionDate <= endDate.value)
  }

  function Sum(lines: seq<TransactionLine>): real {
    if lines == [] then 0.0 else lines[0].amount + Sum(lines[1..])
  }

  /** Sum of the positive amounts. */
  function Debits(lines: seq<TransactionLine>): (d: real)
    ensures d >= 0.0
  {
    if lines == [] then 0.0 else (if lines[0].amount > 0.0 then lines[0].amount else 0.0) + Debits(lines[1..])
  }

  /** Sum of the magnitudes of the negative amounts. */
  function Credits(lines: seq<TransactionLine>): (c: real)
    ensures c >= 0.0
  {
    if lines == [] then 0.0 else (if lines[0].amount < 0.0 then -lines[0].amount else 0.0) + Credits(lines[1..])
  }

  /** Every line is a debit, a credit or zero: the balance is debits less credits. */
  lemma {:induction false} BalanceSplits(lines: seq<TransactionLine>)
    ensures Sum(lines) == Debits(lines) - Credits(lines)
  {
    if lines != [] {
      BalanceSplits(lines[1..]);
    }
  }

  datatype Balance = Balance(accountId: Id, code: string, periodBalance: real, debits: real, credits: real,
                             transactionCount: nat)

  /** The lines the `getBalance` query returns, in journal order. */
  function PeriodLines(journal: seq<TransactionLine>, accountId: Id, companyId: Id, startDate: Option<int>, endDate: Option<int>)
    : (r: seq<TransactionLine>)
    ensures forall l :: l in r <==> l in journal && InPeriod(l, accountId, companyId, startDate, endDate)
    ensures forall l :: multiset(r)[l] == if InPeriod(l, accountId, companyId, startDate, endDate) then multiset(journal)[l] else 0
  {
    Filter(journal, l => InPeriod(l, accountId, companyId, startDate, endDate))
  }

  /**
   * `accounts.getBalance` over the journal: NotFound outside the company,
   * otherwise the sums over the account's lines in the period.
   */
  function GetBalance(accounts: map<Id, Account>, caller: Caller, id: Id, journal: seq<TransactionLine>,
                      startDate: Option<int>, endDate: Option<int>): (r: Result<Balance>)
    ensures !Owned(accounts, id, caller.companyId) ==> r == Err(NotFound)
    ensures Owned(accounts, id, caller.companyId) ==>
              var lines := PeriodLines(journal, id, caller.companyId, startDate, endDate);
              && r.Ok? && r.value.accountId == id && r.value.code == accounts[id].code
              && r.value.debits == Debits(lines) && r.value.credits == Credits(lines)
              && r.value.periodBalance == Sum(lines) && r.value.transactionCount == |lines|
    ensures r.Ok? ==> r.value.periodBalance == r.value.debits - r.value.credits
    ensures r.Ok? ==> r.value.debits >= 0.0 && r.value.credits >= 0.0
  {
    if !Owned(accounts, id, caller.companyId) then Err(NotFound)
    else
      var lines := PeriodLines(journal, id, caller.companyId, startDate, endDate);
      BalanceSplits(lines);
      Ok(Balance(id, accounts[id].code, Sum(lines), Debits(lines), Credits(lines), |lines|))
  }
}
