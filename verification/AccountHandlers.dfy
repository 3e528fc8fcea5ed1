/** The account handlers: who may do what to an account, and the pages of a user's accounts. */
module AccountHandlers {
  import opened Errors
  import opened Schema
  import opened Requests
  import opened Transfers
  import opened Ledger
  import opened Ordering
  import opened Runs
  import Money
  import S = Store

  /** `user` may act on account `id`. */
  predicate Owns(t: Tables, user: string, id: int) {
    id in t.accounts && t.accounts[id].owner == user
  }

  method AuthorizeAccount(store: S.Store, user: string, id: int) returns (account: Account, status: Status)
    ensures status == OK <==> Owns(store.tables, user, id)
    ensures status == OK ==> account == store.tables.accounts[id]
    ensures status == NotFound <==> id !in store.tables.accounts
    ensures status in {OK, NotFound, PermissionDenied}
  {
    account := Account("", "", 0);
    var r := store.GetAccount(id);
    if r.Err? {
      return account, NotFound;
    }
    if r.value.owner != user {
      return account, PermissionDenied;
    }
    return r.value, OK;
  }

  /** A new account starts empty; a missing owner is reported the same way as a second account in the currency. */
  method OpenAccountFor(store: S.Store, user: string, currency: string)
    returns (account: Option<Account>, status: Status)
    requires store.Valid()
    modifies store
    ensures store.Valid() && store.begun == old(store.begun)
    ensures status == InvalidArgument <==> currency !in {"USD", "EUR", "EGP"}
    ensures status == AlreadyExists <==>
            && status != InvalidArgument
            && (KeyTaken(old(store.tables), user, currency) || user !in old(store.tables).users)
    ensures status in {OK, InvalidArgument, AlreadyExists}
    ensures status != OK ==> store.tables == old(store.tables) && account.None?
    ensures status == OK ==>
              && account == Some(Account(user, currency, 0))
              && Serve(old(store.tables), OpenAccount(user, currency, 0), old(store.NextIds())) == Some(store.tables)
              && (NoDebt(old(store.tables)) ==> NoDebt(store.tables))
              && store.tables.accounts
                 == old(store.tables).accounts[old(store.nextAccount) := Account(user, currency, 0)]
  {
    if !Supported(currency) {
      return None, InvalidArgument;
    }
    var r := store.CreateAccount(user, currency, 0);
    if r.Err? {
      return None, AlreadyExists;
    }
    return Some(r.value), OK;
  }

  /**
   * Only the owner sets a balance, never below zero, and on this account alone.
   * The sign is that of the amount sent, before its conversion to cents.
   */
  method UpdateAccountFor(store: S.Store, user: string, id: int, amount: real, balance: int)
    returns (account: Option<Account>, status: Status)
    requires store.Valid() && Money.FloatToCents(amount, balance) && InInt64(balance)
    modifies store
    ensures store.Valid() && store.begun == old(store.begun)
    ensures status == OK <==> id > 0 && amount >= 0.0 && Owns(old(store.tables), user, id)
    ensures status == InvalidArgument <==> id <= 0 || amount < 0.0
    ensures status == NotFound <==> id > 0 && amount >= 0.0 && id !in old(store.tables).accounts
    ensures status in {OK, InvalidArgument, NotFound, PermissionDenied}
    ensures status == OK ==> account == Some(old(store.tables).accounts[id].(balance := balance))
    ensures status != OK ==> account.None?
    ensures status == OK ==>
              && store.tables == old(store.tables).(accounts := store.tables.accounts)
              && store.tables.accounts.Keys == old(store.tables).accounts.Keys
              && store.tables.accounts[id] == old(store.tables).accounts[id].(balance := balance)
              && (forall a :: a in store.tables.accounts && a != id ==>
                    store.tables.accounts[a] == old(store.tables).accounts[a])
    ensures status != OK ==> store.tables == old(store.tables)
    ensures NoDebt(old(store.tables)) ==> NoDebt(store.tables)
    ensures Sound(old(store.tables)) ==> Sound(store.tables)
  {
    if id <= 0 || amount < 0.0 {
      return None, InvalidArgument;
    }
    Money.CentsKeepSign(amount, balance);
    var _, authorized := AuthorizeAccount(store, user, id);
    if authorized != OK {
      return None, authorized;
    }
    ghost var before, ids := store.tables, store.NextIds();
    var r := store.UpdateAccount(id, balance);
    if r.Err? {
      return None, NotFound;
    }
    if Sound(before) {
      ServeKeepsSound(before, SetAccount(id, balance), ids);
    }
    return Some(r.value), OK;
  }

  /** Only the owner deletes an account, and only one that no transfer or entry names. */
  method DeleteAccountFor(store: S.Store, user: string, id: int) returns (status: Status)
    requires store.Valid()
    modifies store
    ensures store.Valid() && store.begun == old(store.begun)
    ensures status == OK <==> id > 0 && Owns(old(store.tables), user, id) && !Referenced(old(store.tables), id)
    ensures status == Internal <==> id > 0 && Owns(old(store.tables), user, id) && Referenced(old(store.tables), id)
    ensures status == InvalidArgument <==> id <= 0
    ensures status == NotFound <==> id > 0 && id !in old(store.tables).accounts
    ensures status in {OK, InvalidArgument, NotFound, PermissionDenied, Internal}
    ensures status == OK ==> store.tables == old(store.tables).(accounts := old(store.tables).accounts - {id})
    ensures status != OK ==> store.tables == old(store.tables)
    ensures Sound(old(store.tables)) ==> Sound(store.tables)
  {
    if id <= 0 {
      return InvalidArgument;
    }
    var _, authorized := AuthorizeAccount(store, user, id);
    if authorized != OK {
      return authorized;
    }
    ghost var before, ids := store.tables, store.NextIds();
    var r := store.DeleteAccount(id);
    if r.Err? {
      return Internal;
    }
    if Sound(before) {
      ServeKeepsSound(before, Request.DeleteAccount(id), ids);
    }
    return OK;
  }

  // ---------- Listing ----------

  /** WHERE owner = $1 ORDER BY id. */
  function OwnedKeys(t: Tables, owner: string): map<int, Key> {
    map a | a in t.accounts && Owns(t, owner, a) :: (a, 0)
  }

  /** All accounts of a user, by ascending id. */
  function AccountsOf(t: Tables, owner: string): (ids: seq<int>)
    ensures forall a :: a in ids <==> Owns(t, owner, a)
    ensures forall i, j :: 0 <= i < j < |ids| ==> ids[i] < ids[j]
  {
    SortedIsExact(OwnedKeys(t, owner));
    Sorted(OwnedKeys(t, owner))
  }

  /** The rows of the query: each account with its id. */
  function AccountRows(t: Tables, owner: string): (rows: seq<(int, Account)>)
    ensures |rows| == |AccountsOf(t, owner)|
    ensures forall i :: 0 <= i < |rows| ==> Owns(t, owner, rows[i].0) && rows[i].1 == t.accounts[rows[i].0]
    ensures forall i, j :: 0 <= i < j < |rows| ==> rows[i].0 < rows[j].0
  {
    var ids := AccountsOf(t, owner);
    assert forall i :: 0 <= i < |ids| ==> ids[i] in ids;
    seq(|ids|, i requires 0 <= i < |ids| => (ids[i], t.accounts[ids[i]]))
  }

  /** A page of accounts at the 32-bit offset, and exactly when it is the page asked for. */
  method ListAccountsFor(store: S.Store, user: string, page: int, size: int)
    returns (accounts: seq<(int, Account)>, status: Status)
    requires -MAX_INT32 - 1 <= page <= MAX_INT32 && -MAX_INT32 - 1 <= size <= MAX_INT32
    ensures status == InvalidArgument <==> page < 1 || size < 1 || size > 100
    ensures 1 <= page && 1 <= size <= 100 ==> (status == Internal <==> Offset(page, size) < 0)
    ensures status in {OK, InvalidArgument, Internal}
    ensures status != InvalidArgument ==>
              size >= 0 && accounts == PageOf(AccountRows(store.tables, user), page, size)
    ensures 1 <= page && 1 <= size <= 100 ==>
              var rows, asked := AccountRows(store.tables, user), Asked(page, size);
              status == OK && accounts == Slice(rows, size, asked) <==>
                asked <= MAX_INT32 || (|rows| <= asked && 0 <= Offset(page, size) && |rows| <= Offset(page, size))
  {
    accounts := [];
    if page < 1 || size < 1 || size > 100 {
      return [], InvalidArgument;
    }
    ghost var all := AccountRows(store.tables, user);
    PageIsIntended(all, page, size);
    var offset := Offset(page, size);
    if offset < 0 {
      return [], Internal;
    }
    var rows := Slice(AccountRows(store.tables, user), size, offset);
    for i := 0 to |rows|
      invariant accounts == rows[..i]
    {
      accounts := accounts + [rows[i]];
    }
    assert rows[..|rows|] == rows;
    status := OK;
  }
}
