/** The store as one session drives it: queries, transactions and the transfer handler, statement by statement. */
module Store {
  import opened Errors
  import opened Schema
  import opened Statements
  import opened Requests
  import opened Transfers
  import opened Ledger
  import opened Ordering
  import opened Feed
  import Money

  class Store {
    var tables: Tables
    /** The tables at BEGIN, while a transaction is open. */
    var begun: Option<Tables>
    var nextTransfer: int
    var nextEntry: int
    var nextAccount: int

    /** The sequences are ahead of every id in use. */
    ghost predicate Valid()
      reads this
    {
      && BalancesFit(tables)
      && (forall i :: i in tables.transfers ==> i < nextTransfer)
      && (forall i :: i in tables.entries ==> i < nextEntry)
      && (forall a :: a in tables.accounts ==> a < nextAccount)
    }

    /** The ids that the sequences give out next. */
    function NextIds(): Ids
      reads this
    {
      Ids(nextTransfer, nextEntry, nextEntry + 1, nextAccount)
    }

    constructor (users: set<string>)
      ensures Valid() && begun.None? && Sound(tables)
      ensures tables == Tables(users, map[], map[], map[])
    {
      tables := Tables(users, map[], map[], map[]);
      begun := None;
      nextTransfer, nextEntry, nextAccount := 1, 1, 1;
    }

    // ---------- Queries ----------

    method CreateTransfer(from: int, to: int, amount: int) returns (r: Result<Transfer>)
      requires Valid()
      modifies this`tables, this`nextTransfer
      ensures Valid() && nextTransfer == old(nextTransfer) + 1
      ensures r.Ok? ==> Apply(PutTransfer(old(nextTransfer), from, to, amount), old(tables)) == Some(tables)
      ensures r.Ok? ==> r.value == Transfer(from, to, amount)
      ensures r.Err? ==> tables == old(tables) && r.error == ForeignKeyViolation
      ensures r.Ok? <==> from in old(tables).accounts && to in old(tables).accounts
    {
      var id := nextTransfer;
      nextTransfer := nextTransfer + 1;
      if from !in tables.accounts || to !in tables.accounts {
        return Err(ForeignKeyViolation);
      }
      tables := tables.(transfers := tables.transfers[id := Transfer(from, to, amount)]);
      r := Ok(tables.transfers[id]);
    }

    method CreateTransferEntry(account: int, amount: int, transfer: Option<int>, now: int) returns (r: Result<Entry>)
      requires Valid()
      modifies this`tables, this`nextEntry
      ensures Valid() && nextEntry == old(nextEntry) + 1
      ensures r.Ok? ==> Apply(PutEntry(old(nextEntry), account, amount, transfer, now), old(tables)) == Some(tables)
      ensures r.Ok? ==> r.value == Entry(account, amount, transfer, now)
      ensures r.Err? ==> tables == old(tables) && r.error == ForeignKeyViolation
      ensures r.Ok? <==>
              account in old(tables).accounts && (transfer.Some? ==> transfer.value in old(tables).transfers)
    {
      var id := nextEntry;
      nextEntry := nextEntry + 1;
      if account !in tables.accounts || (transfer.Some? && transfer.value !in tables.transfers) {
        return Err(ForeignKeyViolation);
      }
      tables := tables.(entries := tables.entries[id := Entry(account, amount, transfer, now)]);
      r := Ok(tables.entries[id]);
    }

    /** An entry without a transfer: the balance stays as it is. */
    method CreateEntry(account: int, amount: int, now: int) returns (r: Result<Entry>)
      requires Valid() && InInt64(amount)
      modifies this`tables, this`nextEntry
      ensures Valid() && nextEntry == old(nextEntry) + 1
      ensures r.Ok? <==> account in old(tables).accounts
      ensures r.Ok? ==>
                && r.value == Entry(account, amount, None, now)
                && Answer(old(tables), RecordEntry(account, amount, now), old(NextIds()))
                   == Finished(tables, [EntryRow(old(nextEntry), r.value)])
      ensures r.Err? ==> tables == old(tables) && r.error == ForeignKeyViolation
    {
      var id := nextEntry;
      nextEntry := nextEntry + 1;
      if account !in tables.accounts {
        return Err(ForeignKeyViolation);
      }
      tables := tables.(entries := tables.entries[id := Entry(account, amount, None, now)]);
      r := Ok(tables.entries[id]);
    }

    method AddAccountBalance(id: int, amount: int) returns (r: Result<Account>)
      requires Valid()
      modifies this`tables
      ensures Valid()
      ensures r.Ok? ==> Apply(AddBalance(id, amount), old(tables)) == Some(tables)
      ensures r.Ok? ==> id in old(tables).accounts && r.value == Credited(old(tables).accounts[id], amount)
      ensures r.Err? ==> tables == old(tables) && Apply(AddBalance(id, amount), old(tables)).None?
      ensures r == Err(NoRows) <==> id !in old(tables).accounts
      ensures r == Err(OutOfRange) <==>
              id in old(tables).accounts && !InInt64(old(tables).accounts[id].balance + amount)
      ensures r.Ok? || r == Err(NoRows) || r == Err(OutOfRange)
    {
      if id !in tables.accounts {
        return Err(NoRows);
      }
      var row := tables.accounts[id];
      if !InInt64(row.balance + amount) {
        return Err(OutOfRange);
      }
      tables := tables.(accounts := tables.accounts[id := row.(balance := row.balance + amount)]);
      r := Ok(tables.accounts[id]);
    }

    method UpdateAccount(id: int, balance: int) returns (r: Result<Account>)
      requires Valid() && InInt64(balance)
      modifies this`tables
      ensures Valid()
      ensures r.Ok? <==> id in old(tables).accounts
      ensures r.Ok? ==> Serve(old(tables), SetAccount(id, balance), old(NextIds())) == Some(tables)
      ensures r.Ok? ==> id in tables.accounts && r.value == tables.accounts[id]
      ensures r.Err? ==> tables == old(tables) && r.error == NoRows
    {
      if id !in tables.accounts {
        return Err(NoRows);
      }
      tables := tables.(accounts := tables.accounts[id := tables.accounts[id].(balance := balance)]);
      r := Ok(tables.accounts[id]);
    }

    /** Exec reports no missing row: deleting an account that is not there is a success. */
    method DeleteAccount(id: int) returns (r: Result<()>)
      requires Valid()
      modifies this`tables
      ensures Valid()
      ensures r.Ok? && id in old(tables).accounts ==>
                Serve(old(tables), Request.DeleteAccount(id), old(NextIds())) == Some(tables)
      ensures r.Ok? && id !in old(tables).accounts ==> tables == old(tables)
      ensures r.Err? <==> id in old(tables).accounts && Referenced(old(tables), id)
      ensures r.Err? ==> tables == old(tables) && r.error == ForeignKeyViolation
    {
      if id in tables.accounts && Referenced(tables, id) {
        return Err(ForeignKeyViolation);
      }
      tables := tables.(accounts := tables.accounts - {id});
      assert id !in old(tables).accounts ==> tables.accounts == old(tables).accounts;
      r := Ok(());
    }

    method CreateAccount(owner: string, currency: string, balance: int) returns (r: Result<Account>)
      requires Valid() && InInt64(balance)
      modifies this`tables, this`nextAccount
      ensures Valid() && nextAccount == old(nextAccount) + 1
      ensures r.Ok? ==> Serve(old(tables), OpenAccount(owner, currency, balance), old(NextIds())) == Some(tables)
      ensures r.Ok? ==> r.value == Account(owner, currency, balance)
      ensures r.Err? ==> tables == old(tables)
      ensures r == Err(UniqueViolation) <==> KeyTaken(old(tables), owner, currency)
      ensures r == Err(ForeignKeyViolation) <==> !KeyTaken(old(tables), owner, currency) && owner !in old(tables).users
      ensures r.Ok? <==> !KeyTaken(old(tables), owner, currency) && owner in old(tables).users
    {
      var id := nextAccount;
      nextAccount := nextAccount + 1;
      if KeyTaken(tables, owner, currency) {
        return Err(UniqueViolation);
      }
      if owner !in tables.users {
        return Err(ForeignKeyViolation);
      }
      tables := tables.(accounts := tables.accounts[id := Account(owner, currency, balance)]);
      r := Ok(tables.accounts[id]);
    }

    method GetAccount(id: int) returns (r: Result<Account>)
      ensures r == if id in tables.accounts then Ok(tables.accounts[id]) else Err(NoRows)
    {
      if id !in tables.accounts {
        return Err(NoRows);
      }
      r := Ok(tables.accounts[id]);
    }

    // ---------- Transactions ----------

    method Begin()
      requires begun.None?
      modifies this`begun
      ensures begun == Some(tables)
    {
      begun := Some(tables);
    }

    /** The database takes back every change since BEGIN; the sequences stay where they are. */
    method Rollback()
      requires begun.Some?
      modifies this`tables, this`begun
      ensures begun.None? && tables == old(begun).value
    {
      tables := begun.value;
      begun := None;
    }

    method Commit()
      requires begun.Some?
      modifies this`begun
      ensures begun.None?
    {
      begun := None;
    }

    /** Two relative balance updates, one after the other. */
    method AddMoney(id1: int, amount1: int, id2: int, amount2: int)
      returns (account1: Account, account2: Account, err: Option<Error>)
      requires Valid()
      modifies this`tables
      ensures Valid()
      ensures err.None? <==> Exec([AddBalance(id1, amount1), AddBalance(id2, amount2)], old(tables)).Finished?
      ensures err == Some(NoRows) ==> id1 !in old(tables).accounts || id2 !in old(tables).accounts
      ensures err in {None, Some(NoRows), Some(OutOfRange)}
      ensures err.None? ==>
                Exec([AddBalance(id1, amount1), AddBalance(id2, amount2)], old(tables))
                == Finished(tables, [AccountRow(id1, account1), AccountRow(id2, account2)])
      ensures tables.transfers == old(tables).transfers && tables.entries == old(tables).entries
      ensures tables.accounts.Keys == old(tables).accounts.Keys
    {
      ExecPair(AddBalance(id1, amount1), AddBalance(id2, amount2), tables);
      account1, account2, err := Account("", "", 0), Account("", "", 0), None;
      var r := AddAccountBalance(id1, amount1);
      if r.Err? {
        return account1, account2, Some(r.error);
      }
      account1 := r.value;
      r := AddAccountBalance(id2, amount2);
      if r.Err? {
        return account1, account2, Some(r.error);
      }
      account2 := r.value;
    }

    /** The five statements of a transfer, in the order the program issues them. */
    method TransferStatements(from: int, to: int, amount: int, now: int)
      returns (result: Receipt, err: Option<Error>)
      requires Valid() && InInt64(amount)
      modifies this`tables, this`nextTransfer, this`nextEntry
      ensures nextTransfer > old(nextTransfer) && nextEntry >= old(nextEntry)
      ensures err.None? <==> CanTransfer(old(tables), from, to, amount, old(NextIds()))
      ensures err == Some(ForeignKeyViolation) <==> from !in old(tables).accounts || to !in old(tables).accounts
      ensures err in {None, Some(ForeignKeyViolation), Some(OutOfRange)}
      ensures err.None? ==>
                && Valid()
                && tables == Transferred(old(tables), from, to, amount, now, old(NextIds()))
                && result == ReceiptFor(old(tables), from, to, amount, now, old(NextIds()))
    {
      var ids := NextIds();
      var none := Account("", "", 0);
      var noEntry := Entry(0, 0, None, 0);
      result := Receipt(ids.transfer, Transfer(0, 0, 0), ids.fromEntry, noEntry, ids.toEntry, noEntry, none, none);
      var transfer := CreateTransfer(from, to, amount);
      match transfer {
        case Err(e) => return result, Some(e);
        case Ok(row) => result := result.(transfer := row);
      }
      var entry := CreateTransferEntry(from, Negate(amount), Some(ids.transfer), now);
      match entry {
        case Err(e) => return result, Some(e);
        case Ok(row) => result := result.(fromEntry := row);
      }
      entry := CreateTransferEntry(to, amount, Some(ids.transfer), now);
      match entry {
        case Err(e) => return result, Some(e);
        case Ok(row) => result := result.(toEntry := row);
      }
      UpdatesEffect(tables, from, to, amount);
      var a, b;
      if from < to {
        a, b, err := AddMoney(from, Negate(amount), to, amount);
        result := result.(fromAccount := a, toAccount := b);
      } else {
        a, b, err := AddMoney(to, amount, from, Negate(amount));
        result := result.(toAccount := a, fromAccount := b);
      }
    }

    /** A transfer happens as a whole or not at all. */
    method TransferTx(from: int, to: int, amount: int, now: int) returns (result: Receipt, err: Option<Error>)
      requires Valid() && begun.None? && InInt64(amount)
      modifies this
      ensures Valid() && begun.None?
      ensures err.None? <==> CanTransfer(old(tables), from, to, amount, old(NextIds()))
      ensures err.None? ==>
                && tables == Transferred(old(tables), from, to, amount, now, old(NextIds()))
                && result == ReceiptFor(old(tables), from, to, amount, now, old(NextIds()))
      ensures forall first ::
                Answer(old(tables), Move(from, to, amount, now, first), old(NextIds()))
                == if err.None? then Finished(tables, ReceiptRows(result)) else Failed
      ensures err.Some? ==> tables == old(tables)
      ensures err == Some(ForeignKeyViolation) <==> from !in old(tables).accounts || to !in old(tables).accounts
      ensures err in {None, Some(ForeignKeyViolation), Some(OutOfRange)}
    {
      Begin();
      result, err := TransferStatements(from, to, amount, now);
      if err.Some? {
        Rollback();
      } else {
        Commit();
      }
    }

    // ---------- The CreateTransfer handler ----------

    method ValidateTransferAccount(id: int, currency: string) returns (account: Account, status: Status)
      ensures status == OK <==> id in tables.accounts && tables.accounts[id].currency == currency
      ensures status == OK ==> account == tables.accounts[id]
      ensures status == NotFound <==> id !in tables.accounts
      ensures status in {OK, NotFound, InvalidArgument}
    {
      account := Account("", "", 0);
      var r := GetAccount(id);
      if r.Err? {
        return account, NotFound;
      }
      if r.value.currency != currency {
        return account, InvalidArgument;
      }
      return r.value, OK;
    }

    /** What the validator of the request accepts: three currencies, two different accounts, a positive amount. */
    static predicate WellFormed(from: int, to: int, currency: string, dollars: real) {
      && from >= 1 && to >= 1 && from != to && dollars > 0.0
      && currency in {"USD", "EUR", "EGP"}
    }

    static predicate Holds(t: Tables, id: int, currency: string) {
      id in t.accounts && t.accounts[id].currency == currency
    }

    static predicate OwnsIn(t: Tables, user: string, id: int, currency: string) {
      Holds(t, id, currency) && t.accounts[id].owner == user
    }

    /**
     * A payment of a positive amount, here also given in cents, goes through exactly when the caller owns the source,
     * both accounts hold the currency, the source covers the amount and the transfer itself can be made.
     * It then overdraws nobody and leaves the total of every currency as it was. Otherwise no table changes.
     */
    method CreateTransferFor(user: string, from: int, to: int, currency: string, dollars: real, amount: int, now: int)
      returns (receipt: Option<Receipt>, status: Status)
      requires Valid() && begun.None? && Money.FloatToCents(dollars, amount) && InInt64(amount)
      modifies this
      ensures Valid() && begun.None?
      ensures status == OK <==>
              && dollars > 0.0
              && Acceptable(Pay(user, currency, from, to, amount, now, true))
              && CanTransfer(old(tables), from, to, amount, old(NextIds()))
              && old(tables).accounts[from].owner == user
              && old(tables).accounts[from].currency == currency && old(tables).accounts[to].currency == currency
              && old(tables).accounts[from].balance >= amount
      ensures status == OK ==>
                && receipt == Some(ReceiptFor(old(tables), from, to, amount, now, old(NextIds())))
                && Serve(old(tables), Pay(user, currency, from, to, amount, now, true), old(NextIds())) == Some(tables)
                && tables.accounts[from].balance >= 0
                && forall c :: Total(tables, c) == Total(old(tables), c)
      ensures status != OK ==> tables == old(tables) && receipt.None?
      ensures status == InvalidArgument <==>
              || !WellFormed(from, to, currency, dollars)
              || (from in old(tables).accounts && !Holds(old(tables), from, currency))
              || (OwnsIn(old(tables), user, from, currency) && to in old(tables).accounts
                  && !Holds(old(tables), to, currency))
      ensures status == NotFound <==>
              && WellFormed(from, to, currency, dollars)
              && (from !in old(tables).accounts
                  || (OwnsIn(old(tables), user, from, currency) && to !in old(tables).accounts))
      ensures status == PermissionDenied <==>
              && WellFormed(from, to, currency, dollars)
              && Holds(old(tables), from, currency) && !OwnsIn(old(tables), user, from, currency)
      ensures status == FailedPrecondition <==>
              && WellFormed(from, to, currency, dollars) && OwnsIn(old(tables), user, from, currency)
              && Holds(old(tables), to, currency) && old(tables).accounts[from].balance < amount
      ensures status in {OK, InvalidArgument, NotFound, PermissionDenied, FailedPrecondition, Internal}
    {
      receipt := None;
      if from <= 0 || to <= 0 || dollars <= 0.0 || !Supported(currency) || from == to {
        return None, InvalidArgument;
      }
      Money.CentsKeepSign(dollars, amount);
      var source, s := ValidateTransferAccount(from, currency);
      if s != OK {
        return None, s;
      }
      if source.owner != user {
        return None, PermissionDenied;
      }
      var _, p := ValidateTransferAccount(to, currency);
      if p != OK {
        return None, p;
      }
      if source.balance < amount {
        return None, FailedPrecondition;
      }
      ghost var before, ids := tables, NextIds();
      var result, err := TransferTx(from, to, amount, now);
      if err.Some? {
        return None, Internal;
      }
      forall c ensures Total(tables, c) == Total(before, c) {
        TransferMovesTotals(before, from, to, amount, now, ids, c);
      }
      return Some(result), OK;
    }

    // ---------- The activity feed ----------

    /** Reads the rows of the query one by one. PostgreSQL refuses a negative OFFSET. */
    method ListActivityEntries(owner: string, limit: nat, offset: int) returns (items: Result<seq<FeedRow>>)
      ensures offset < 0 ==> items == Err(BadOffset)
      ensures offset >= 0 ==> items == Ok(Slice(FeedOf(tables, owner), limit, offset))
    {
      if offset < 0 {
        return Err(BadOffset);
      }
      var rows := Slice(FeedOf(tables, owner), limit, offset);
      var read: seq<FeedRow> := [];
      for i := 0 to |rows|
        invariant read == rows[..i]
      {
        read := read + [rows[i]];
      }
      assert rows[..|rows|] == rows;
      items := Ok(read);
    }

    /** The response copies the rows one by one. */
    method ConvertEntries(rows: seq<FeedRow>) returns (entries: seq<FeedRow>)
      ensures entries == rows
    {
      entries := [];
      for i := 0 to |rows|
        invariant entries == rows[..i]
      {
        entries := entries + [rows[i]];
      }
    }

    /** A page of the feed at the 32-bit offset, and exactly when it is the page asked for. */
    method ListEntries(user: string, page: int, size: int) returns (entries: seq<FeedRow>, status: Status)
      requires -MAX_INT32 - 1 <= page <= MAX_INT32 && -MAX_INT32 - 1 <= size <= MAX_INT32
      ensures status == InvalidArgument <==> page < 1 || size < 1 || size > 50
      ensures 1 <= page && 1 <= size <= 50 ==> (status == Internal <==> Offset(page, size) < 0)
      ensures status != InvalidArgument ==> size >= 0 && entries == PageOf(FeedOf(tables, user), page, size)
      ensures status in {OK, InvalidArgument, Internal}
      ensures 1 <= page && 1 <= size <= 50 ==>
                var rows, asked := FeedOf(tables, user), Asked(page, size);
                status == OK && entries == Slice(rows, size, asked) <==>
                  asked <= MAX_INT32 || (|rows| <= asked && 0 <= Offset(page, size) && |rows| <= Offset(page, size))
    {
      if page < 1 || size < 1 || size > 50 {
        return [], InvalidArgument;
      }
      FeedIsExact(tables, user);
      PageIsIntended(FeedOf(tables, user), page, size);
      var offset := Offset(page, size);
      var rows := ListActivityEntries(user, size, offset);
      if rows.Err? {
        return [], Internal;
      }
      entries := ConvertEntries(rows.value);
      status := OK;
    }
  }
}
