# GoBank: a verified model

GoBank is a small bank: users register and verify an email address, open one account per currency, and move money
between accounts through a gRPC server on PostgreSQL. This project models the part where correctness is decided by
more than one function at a time, and proves what the code, its tests and its documentation promise about it.

**The transfer engine.** `TransferTx` runs five statements in one Read Committed transaction. `Engine` runs any number
of requests against one set of shared tables: transfers (directly or through the `CreateTransfer` handler, whose account
lookups come before its transaction), `UpdateAccount`, `DeleteAccount`, `CreateAccount` and `CreateEntry`. Each event of
a run is one statement, one lookup, a commit, a cancellation or an arrival. Rows are changed in place; a transaction
holds row locks (`Locks` has the conflict table of section 13.3.2 of the PostgreSQL 16 documentation) and an undo record
of before-images. What a statement sees is computed from the shared rows and the undo records of the others (section
13.2.1). Nothing in the machine mentions a serial order: `Isolation` states the invariant that ties the shared tables to
one, `Preservation`, `Steps` and `Commits` prove that every event keeps it, and the theorems follow in
`Outcomes`, `Serializability`, `Waiting`, `Deadlock`, `Progress`, `Runs`, `SameTransfers`, `Overdraft`, `Overlap`,
`Overrun` and `Solo`; the last shows that whatever is going on, each request that nobody is in the way of gets exactly
the answer it should.

**The ledger.** `Transfers` says in closed form what one request does to the tables and what it returns; `Ledger`
proves what that keeps: references, keys, double entry, agreement of balances with entries, totals per currency.
`Feed` and `Ordering` do the same for the activity feed, its four-way join and its pages.

**One session at a time.** The classes `Store.Store` and `UserStore.UserStore` and the handlers around them follow the Go
code statement by statement, error exits and rollbacks included, and are proved against the same closed forms that the
concurrent machines are proved to refine.

**Registration and verification.** `Onboarding` is a second machine: registrations that enqueue a task inside their
transaction, a worker that retries, profile updates, and `VerifyEmailTx` in competition for codes.
`OnboardingProofs` has its invariant over all runs, `CommittedRows` what each event may do to the committed rows,
`Queue` what becomes of the tasks, and `Races` what does happen when verifications, registrations and retries meet.

**Money and sessions.** `Money` bounds the rounding of cents to binary64 and back; `Sessions` and `SessionServer` trace
every access token to the login behind it; a `Server` carries the run of the sessions machine it has been through, so
that what holds of every run holds of every call.

Some promises the code does not keep in general; for these the exact condition is proved:

- overlapping payments out of an account can leave it below zero if and only if those that pass their checks by
  themselves come to more than the balance (`Overrun.OverdraftIsExact`);
- a page is served as intended if and only if its offset fits 32 bits, or neither that offset nor the one it wraps
  around to reaches any row and the latter is not negative, which is refused (`Ordering.PageIsIntended`); on a list of
  ten rows page 85899347 of size 50 comes back with rows 4 to 9 (`Ordering.LargePageRepeatsEarlyRows`);
- the entries of a transfer cancel if and only if its amount is not the smallest 64-bit integer (`Ledger.LegsCancel`),
  and such a transfer goes through exactly between two accounts that are not in debt
  (`Ledger.SmallestAmountGoesThrough`);
- a registered user is left without a live task, a code or a task retried to the end if and only if the worker took
  every task of that name before the registration committed (`Queue.AttendedExactly`), which is settled at the commit
  (`Queue.SettledAtCommit`); four events are enough for it (`Queue.UserLeftWithNothing`).

Where the code and its comments differ, the model follows the code:

- the handler of `DeleteAccount` expects "no rows" from a DELETE (gapi/rpc_account.go:191-194), but an `:exec` query
  never reports it: deleting an account that has just gone is a success (db/sqlc/account.sql.go:67-70);
- the column comment says that transfer amounts are positive (db/migration/000002_balance_to_bigint.up.sql:18), but
  nothing checks it in the database, and a positive request can round to 0 cents (util/money.go:10-12);
- `CreateAccount` reports an unknown owner as "already exists" (gapi/rpc_account.go:71-72);
- the worker's comment speaks of users deleted after enqueuing (worker/task_send_verify_email.go:61); the case that
  occurs is a user whose registration has not committed.

## Model

| member | source | states |
|---|---|---|
| `Locks.StatementIsShielded` | db/sqlc/account.sql.go:12-17 | A statement whose locks are held gives the same result on any tables that agree on what the locks protect, and keeps them in agreement: this is what each lock mode is for. |
| `Locks.RunIsShielded` | db/sqlc/tx_transfer.go:28-75 | The same for a whole transaction: what others commit meanwhile cannot change its outcome or its returned rows. |
| `Isolation.VisibleIsAlone` | db/sqlc/store.go:25-46 | Whatever is in flight elsewhere, a transaction sees exactly the committed tables with its own changes on top. |
| `Commits.EventKeeps` | db/sqlc/tx_transfer.go:31-72 | Every event, in particular running any next statement that is not blocked, keeps the whole invariant: undo records stay exact, writers stay apart, locks stay compatible. |
| `Preservation.RollBackKeeps` | db/sqlc/store.go:37-43 | Undoing a transaction in place, at any point, keeps the whole invariant. |
| `Commits.CommitAdvances` | db/sqlc/store.go:45 | A commit turns the committed tables into those the transaction saw, as if its statements ran just then with nothing in between. |
| `Commits.RunsKeep` | db/sqlc/store.go:25-46 | The invariant holds after every run of any requests in any interleaving. |
| `Serializability.Serializable` | db/sqlc/store.go:25-46 | After any interleaving, serving the logged requests one at a time in log order serves each, with exactly the rows that the closed form answers it with, and ends in the committed tables; the log is that of the committed transactions. |
| `Outcomes.LogTellsWhatCommitted` | db/sqlc/store.go:37-45 | In every run the log lists, once each, in the order of the COMMITs and with the request that arrived, exactly the transactions that committed, but for a DELETE that matched nothing; none that was refused, cancelled, rolled back or is in progress. |
| `Serializability.OutsideSeesCommitted` | db/sqlc/account.sql.go:72-88 | Whatever is in flight, a reader outside sees exactly the tables of that serial execution. |
| `Serializability.RunsGiveGoodLogs` | db/sqlc/store.go:25-46 | The commit log of every run started on sound tables is one that the ledger results below speak of. |
| `Serializability.EachReceiptIsSerial` | db/sqlc/tx_transfer.go:25-78 | Every committed transfer returned the transfer, entries and balances it would have returned running by itself at its place in commit order. |
| `Serializability.EachReplyIsSerial` | db/sqlc/account.sql.go:168-191 | Every committed `UpdateAccount`, `CreateAccount`, `CreateEntry` and `DeleteAccount` changed what it asked for and nothing else, and returned that row as it stood at its place in commit order. |
| `Serializability.RollBackIsolated` | db/sqlc/store.go:37-43 | A rollback at any statement leaves the committed tables and every row it had not changed as they were, and if nothing else is in flight exactly the committed effects of the others. |
| `Serializability.RollBackUnseen` | db/sqlc/store.go:37-43 | Nobody else, reader or transaction, sees any difference when a transaction is rolled back. |
| `Serializability.CommitIsAtomic` | db/sqlc/store.go:45 | At a commit a reader goes from seeing none of a transaction's work to seeing all of it. |
| `Solo.ServedAlone` | gapi/rpc_transfer.go:19-62 | In any reachable state in which the others hold no locks any request may arrive, and its own steps, as many as were counted, end it: committed with exactly the answer it should get if its checks pass and its statements can be run, otherwise rolled back without a trace. |
| `Solo.AnyoneMayLeave` | db/sqlc/store.go:37-43 | Any transaction may be cancelled at any point of any run; it is gone, and nobody sees a difference. |
| `Waiting.WaitsExactly` | db/sqlc/tx_transfer.go:31-72 | In every reachable state one transaction waits for another exactly when that one has written the balance it is about to write, one of the two deletes an account that the other needs, or both insert or delete an account of one owner and currency. |
| `Waiting.InsertsWaitForDeletesAlone` | db/migration/000001_init_schema.up.sql:38-42 | The inserts of a transfer never wait for another transfer, whatever accounts they share: only for a delete of such an account that has run and not committed. |
| `Solo.AnyTablesCanStart` | db/sqlc/store.go:25-46 | Runs may start on any tables, and everyone then sees exactly these. |
| `Deadlock.FreshIsOrderly` | db/sqlc/tx_transfer.go:59-72 | Every request takes its balance locks last and in ascending id, also when both accounts are the same, although its key-share locks come unsorted. |
| `Deadlock.WaitingClimbs` | db/sqlc/tx_transfer.go:59-72 | A transaction only waits for one of strictly higher rank. |
| `Deadlock.NoDeadlock` | db/sqlc/tx_transfer.go:31-72 | In every reachable state of any mix of requests no chain of waiting transactions returns to its start. |
| `Progress.AlwaysProgress` | db/sqlc/store.go:30-45 | While any transaction is unfinished, some transaction can take its next step. |
| `Progress.SchedulesEnd` | db/sqlc/tx_transfer.go:28-75 | Without new arrivals every schedule is at most as long as the statements, lookups and endings that were left. |
| `Progress.MaximalSchedulesFinish` | db/sqlc/store.go:30-45 | When nothing can go forward any more, every request that arrived has committed or been rolled back. |
| `SameTransfers.StepsAreAPermutation` | db/sqlc/store_test.go:176-185 | For any number of concurrent transfers of one amount between two accounts left alone otherwise, the steps (start balance minus returned balance, divided by the amount, on both sides) are exactly 1 to n, each in one receipt. |
| `SameTransfers.ReceiptRowsAreInjective` | db/sqlc/tx_transfer.go:16-22 | The rows a transfer returns determine every field of its result, in both directions of the transfer. |
| `SameTransfers.BalancesMoveInSteps` | db/sqlc/store_test.go:188-205 | After any prefix of the commits both balances have moved by the amount times the number of these transfers. |
| `Transfers.TransferEffect` | db/sqlc/tx_transfer.go:25-101 | The statements of a transfer succeed exactly when both accounts exist, the ids are new and no balance leaves 64 bits, with the two legs, the moved balances and nothing else as the result, including a transfer from an account to itself. |
| `Transfers.ProgramServes` | db/sqlc/tx_transfer.go:25-78 | For every request, running its statements in order is the same as serving it in closed form. |
| `Transfers.ProgramAnswers` | db/sqlc/account.sql.go:37-60 | For every request, the statements run undisturbed end in the tables and return the rows that are spelled out for it, and fail exactly when it is to be refused. |
| `Schema.NegateWraps` | db/sqlc/tx_transfer.go:43 | The integers are those of 64-bit two's complement, and so is the negation. |
| `Locks.ConflictIsByStrength` | db/sqlc/account.sql.go:12-17 | The conflict table of the four lock modes: two conflict exactly when their strengths add up to three. |
| `Schema.Negate` | db/sqlc/tx_transfer.go:43 | The negation of an amount cancels it except for the smallest 64-bit integer. |
| `Ledger.LegsCancel` | db/sqlc/tx_transfer.go:40-57 | The two entries of a transfer sum to zero if and only if its amount is not the smallest 64-bit integer. |
| `Ledger.SmallestAmountGoesThrough` | db/sqlc/tx_transfer.go:43 | A transfer of that amount succeeds exactly between two different accounts with non-negative balances; both entries then carry the same negative amount. |
| `Ledger.ServeKeepsDoubleEntry` | db/sqlc/entry.sql.go:38-42 | Serving any request keeps: each transfer has exactly two entries with its id, minus the amount on the source and plus the amount on the target, and each linked entry belongs to one. |
| `Ledger.ServeKeepsReferences` | db/migration/000001_init_schema.up.sql:38-42 | No request leaves a transfer, entry or account that names a missing row. |
| `Ledger.ServeKeepsKeys` | db/migration/000003_add_users.up.sql:12 | At most one account per owner and currency, after every request. |
| `Ledger.ServeMovesDrift` | db/sqlc/tx_transfer.go:40-72 | Balance minus linked entries changes only at `UpdateAccount`, by new minus old; a new account starts at its opening balance. |
| `Ledger.TransferMovesTotals` | db/sqlc/tx_transfer.go:59-72 | What a transfer does to the total of each currency; within one currency, nothing. |
| `Ledger.ServeKeepsSound` | db/sqlc/tx_transfer.go:28-75 | References, keys, double entry and 64-bit balances together survive every request. |
| `Runs.CommittedIsSound` | db/sqlc/tx_transfer.go:31-57 | In every reachable state of every run the committed ledger has all of these. |
| `Runs.IdentityIsStable` | db/sqlc/account.sql.go:168-173 | An account present at two points of a run was there throughout with one owner and currency: ids do not come back. |
| `Runs.HistoryKeepsAccounts` | db/sqlc/account.sql.go:62-70 | An account that a transfer or entry names is never deleted. |
| `Runs.DeletedAccountsStayUntouched` | db/migration/000006_add_transfer_id_to_entries.up.sql:4-6 | After a delete commits, nothing that needs the account commits, be it a transfer, an entry, an update or a second delete, and no account gets its id: a transfer racing the delete aborts whole. |
| `Runs.LedgerAgrees` | db/sqlc/account.sql.go:168-173 | Over whole runs balance minus linked entries is the opening balance plus new minus old of every `UpdateAccount`, and nothing else. |
| `Runs.ChecksStillHold` | gapi/rpc_transfer.go:29-40 | The owner and currencies that the handler read without a lock before its transaction still hold when it commits. |
| `Runs.PaymentsConserve` | gapi/rpc_transfer.go:84-101 | Every committed payment leaves the total of every currency as it was. |
| `Runs.TotalsAgree` | db/sqlc/tx_transfer.go:59-72 | Over whole runs the total of a currency is that of the start plus opening balances, new minus old of every `UpdateAccount` and what bare transfers move between currencies, less deleted balances. |
| `Runs.OverdraftBound` | gapi/rpc_transfer.go:42-56 | A committed payment leaves its source at no less than minus the debits and `UpdateAccount` decreases that took effect between its balance read and its commit. |
| `Runs.SerialPaymentsNeverOverdraw` | gapi/rpc_transfer.go:43-50 | If nothing commits between each payment's balance read and its commit, no balance is ever negative. |
| `Overdraft.SerialRunsNeverOverdraw` | gapi/rpc_transfer.go:29-56 | Handler requests served one at a time, with all their failures and cancellations, keep every balance at zero or above. |
| `Overdraft.RunsToCommit` | db/sqlc/store.go:30-45 | A request that nobody blocks and whose statements would succeed can always run on to its commit, with exactly their effect. |
| `Overrun.OverdraftIsExact` | gapi/rpc_transfer.go:42-56 | For any payments out of one account with nothing else touching it, some run ends with the account below zero if and only if the payments that may pass at the start, each by itself, sum to more than its balance; payees may be opened during the run. |
| `Overlap.BalanceAfterThese` | gapi/rpc_transfer.go:43-56 | In every run of any payments out of an account, however they overlap and whether their payees are there or opened meanwhile, the balance stays between the opening balance less that sum and the opening balance. |
| `Overrun.OverlappingPaymentsOverdraw` | gapi/rpc_transfer.go:42-56 | Whenever an account covers a payment once but not twice, there is a run in which the same payment asked for twice commits both times and leaves it below zero. |
| `History.RunsChronicle` | gapi/rpc_transfer.go:29-50 | Over all runs, what a committed payment had checked was a committed version of its accounts, and no inserted id was ever in a row before. |
| `Feed.FeedIsExact` | db/sqlc/entry.sql.go:81-103 | The feed holds each entry of each account of the owner exactly once and no other, with its amount and sign, link, time and currency, latest first, ties by descending id. |
| `Feed.RowShowsItsEntry` | gapi/rpc_entry.go:62-85 | On any tables a row says what its entry says, and shows an account beside it exactly when the entry has a transfer that names it and it is there, with that account's owner and currency. |
| `Feed.CounterpartIsExact` | db/sqlc/entry.sql.go:94-99 | On a sound ledger a row has a counterpart exactly when its entry has a transfer, and it is the other account of that transfer, with its owner and currency. |
| `Feed.FeedIsExactInEveryState` | gapi/rpc_entry.go:62-85 | In every reachable state of every run, a row of anyone's feed has a counterpart exactly when it has a transfer, and it is the other account. |
| `Feed.CounterpartsAreMutual` | db/sqlc/entry.sql.go:95-99 | The two entries of a transfer show each other's account. |
| `Feed.PaymentsShowBothSides` | gapi/rpc_transfer.go:93-98 | At any later time the feed of the payer has the debit, minus the amount, with the payee beside it, and the feed of the payee's owner the credit, plus the amount, with the payer beside it, both in the currency of the payment. |
| `Ordering.SortedIsExact` | db/sqlc/entry.sql.go:101 | Sorting by a total key keeps every row once in strictly ascending order, so pages are well defined. |
| `Ordering.OffsetIsIntended` | gapi/rpc_entry.go:31 | The int32 offset is the intended one if and only if the product fits. |
| `Ordering.OffsetWraps` | gapi/rpc_entry.go:31 | In any case it is the one 32-bit integer that differs from the intended one by a multiple of 2^32. |
| `Ordering.LargePageRepeatsEarlyRows` | gapi/rpc_account.go:123 | A page number within its type for which, on any list of 5 to four billion rows, the page asked for is empty and the one served begins with the fifth row. |
| `Ordering.PageIsIntended` | gapi/rpc_account.go:120-124 | Of any list of different rows, a page is served as intended if and only if its offset fits 32 bits, or neither it nor the wrapped offset reaches a row and the wrapped one is not refused; likewise for the rows alone, a refusal counting as none. |
| `Ordering.PagesCover` | db/sqlc/entry.sql.go:100-102 | Pages 1 to k as the handlers serve them, cut at the 32-bit offset, joined are the first k times size rows, without gap or repeat, while the last offset fits. |
| `Store.Store.CreateTransfer` | db/sqlc/transfer.sql.go:12-35 | Inserts under a new id exactly when both accounts exist; otherwise a foreign-key error and no change. |
| `Store.Store.CreateTransferEntry` | db/sqlc/entry.sql.go:38-61 | Inserts under a new id exactly when the account and the transfer, if given, exist. |
| `Store.Store.CreateEntry` | db/sqlc/entry.sql.go:14-36 | Inserts an entry without a transfer exactly when the account exists; no balance changes. |
| `Store.Store.AddAccountBalance` | db/sqlc/account.sql.go:12-35 | Adds to one balance, or fails without change when the row is missing or the sum leaves 64 bits. |
| `Store.Store.UpdateAccount` | db/sqlc/account.sql.go:168-191 | Sets one balance, exactly when the account exists. |
| `Store.Store.DeleteAccount` | db/sqlc/account.sql.go:62-70 | Removes the account unless it is referenced; a missing account is a success without change. |
| `Store.Store.CreateAccount` | db/sqlc/account.sql.go:37-60 | Inserts exactly when the owner exists and has no account in the currency; says which error otherwise. |
| `Store.Store.AddMoney` | db/sqlc/tx_transfer.go:80-101 | The two updates in turn, with both returned rows, exactly when both succeed. |
| `Store.Store.TransferTx` | db/sqlc/tx_transfer.go:25-78 | A transfer happens as a whole, with the result that the engine answers with, exactly when it can; otherwise the tables are untouched, only sequence values are used up, and the error says whether an account was missing or a balance out of range. |
| `Store.Store.CreateTransferFor` | gapi/rpc_transfer.go:19-62 | A payment goes through exactly when the amount sent is positive, the caller owns the source, both accounts hold the currency, the source covers the cents and the transfer can be made; then nobody is overdrawn and no total changes; otherwise nothing changes, and each status has its exact cause. |
| `Store.Store.ListEntries` | gapi/rpc_entry.go:18-43 | The page of the feed at the 32-bit offset, refused exactly when the arguments are out of range or the offset is negative after wrapping, and exactly when it is the page asked for. |
| `AccountHandlers.AuthorizeAccount` | gapi/rpc_account.go:30-49 | Passes exactly for the owner of an existing account. |
| `AccountHandlers.OpenAccountFor` | gapi/rpc_account.go:52-79 | Opens an empty account exactly for a supported currency the user does not hold yet. |
| `AccountHandlers.UpdateAccountFor` | gapi/rpc_account.go:148-169 | Only the owner sets a balance, refused exactly for a negative amount even when it rounds to zero cents, on one account, which is returned as it then is; a sound ledger stays sound and free of debt. |
| `AccountHandlers.DeleteAccountFor` | gapi/rpc_account.go:182-199 | Only the owner deletes, and only an account without history; everything else stays. |
| `AccountHandlers.AccountsOf` | db/sqlc/account.sql.go:128-134 | All accounts of the owner and no other, by strictly ascending id. |
| `AccountHandlers.ListAccountsFor` | gapi/rpc_account.go:110-135 | The page of that list at the 32-bit offset, with its exact refusals, and exactly when it is the page asked for. |
| `OnboardingProofs.RunsKeep` | db/sqlc/tx_verify_email.go:20-42 | The invariant of registrations, worker, profile updates and verifications over all their interleavings. |
| `OnboardingProofs.VerifiedExactlyWhenUsed` | db/sqlc/tx_verify_email.go:23-39 | In every reachable state a user is verified if and only if some code of that user is used. |
| `OnboardingProofs.EachCodeIsConsumedOnce` | db/sqlc/verify_email.sql.go:39-46 | A code is used exactly when one successful verification consumed it, and never by two. |
| `OnboardingProofs.FlagsOnlyRise` | db/sqlc/user.sql.go:67-77 | No event takes back a committed used code or verified user. |
| `OnboardingProofs.VerificationsNeverDeadlock` | db/sqlc/tx_verify_email.go:26-37 | In every reachable state no chain of verifications that wait for each other's codes and users returns to its start. |
| `OnboardingProofs.VerificationsGoOn` | db/sqlc/tx_verify_email.go:23-39 | While a verification is in progress, some verification can take its next step. |
| `CommittedRows.CommittedRowsFollow` | db/sqlc/tx_verify_email.go:23-39 | In every run the committed row of a user changes at the commit of a registration, at a profile update in the fields given, and at the commit of a verification in the flag; that of a code when it is issued and when a commit uses it; marking, flagging and rolling back change neither. |
| `CommittedRows.RegistrationsAreAsAsked` | db/sqlc/user.sql.go:14-45 | What a registration is about to commit is what was asked for with the default columns, whatever happens in between. |
| `Races.OneRivalWins` | db/sqlc/verify_email.sql.go:39-46 | Of two verifications of one code, among whatever else, the second waits from the first's mark to its commit and is then refused; the user is verified and the code consumed once. |
| `Races.RivalTakesOver` | db/sqlc/store.go:37-43 | If the first gives up instead, the second finds everything as if the first had never been. |
| `Races.RegistrationsOverlap` | db/sqlc/tx_create_user.go:17-32 | Registrations with different names and addresses may be open at once and commit in either order. |
| `Races.SecondRegistrationWaits` | db/migration/000003_add_users.up.sql:5 | One with a name or address that is in flight cannot go on until the other gives up, and never if the other commits. |
| `Races.TaskOutlivesItsRegistration` | db/sqlc/tx_create_user.go:20-31 | A commit may fail after the task is enqueued: only the task is left, the name and address are free again, and a worker that takes the task gives it up. |
| `Races.SomebodyGetsVerified` | gapi/rpc_create_user.go:37-49 | From an empty database anybody can register, get a code and be verified with it within fifteen minutes, with exactly these rows at the end. |
| `Races.ElevenFailures` | gapi/rpc_create_user.go:43 | A new task may fail ten times in a row and is tried again; the eleventh failure puts it in the archive. |
| `Queue.RegisteredMeansEnqueued` | db/sqlc/tx_create_user.go:20-31 | In every run each committed user had a task enqueued at an earlier event, and every code names a committed user. |
| `Queue.EveryUserIsAttended` | worker/task_send_verify_email.go:58-95 | In every run each committed user, and each registration that has enqueued, has a live task, or a code, or a task that failed once too often, as long as the worker has not looked for the name before there was a user. |
| `Queue.AttendedExactly` | worker/task_send_verify_email.go:58-65 | Over all runs: a committed user is left without any of these if and only if every task ever enqueued under the name was taken before there was a user. |
| `Queue.SettledAtCommit` | gapi/rpc_create_user.go:37-49 | Whatever happens in between, a user registered at some event of a run has one of these at the end if and only if, just before that commit, a task of the name was live or had failed once too often. |
| `Queue.OrphanTasksEnd` | worker/task_send_verify_email.go:58-65 | Over any stretch of a run in which its user is not committed, a task issues no code, is tried at most eleven times in all, and has failed at every try as long as it is there. |
| `Queue.EarlyFetchLosesTheTask` | gapi/rpc_create_user.go:42-46 | From any state with a registration about to commit, a fetch before the commit takes the task out of the queue into the archive: the registered user has no code, and a live task exactly if another registration of the name left one. The delay is not a guarantee. |
| `Queue.UserLeftWithNothing` | worker/task_send_verify_email.go:60-63 | Four events from the start after which a registered user has no live task and no code, and the archive holds the one task that was not to be retried. |
| `Queue.CodesCarryAnAddressTheUserHad` | worker/task_send_verify_email.go:67-71 | Over all runs every code carries an address that its user had at some point, with updates in between. |
| `OnboardingProofs.RetriesAreBounded` | gapi/rpc_create_user.go:43 | No task ever has more failures than the retry limit. |
| `OnboardingProofs.TasksLeaveOnlyWhenDone` | worker/task_send_verify_email.go:58-95 | A task leaves the queue exactly when its mail went out, its user is missing, or it failed once too often; after any other failure it is read anew. |
| `OnboardingProofs.AddressesAreUnique` | db/migration/000003_add_users.up.sql:5 | No two committed users share an address, through concurrent registrations and changes. |
| `OnboardingProofs.MergesTouchTheirFields` | gapi/rpc_update_user.go:36-58 | A profile update keeps the verified flag and stamps the password time exactly with a new password; a verification changes the flag alone. |
| `UserStore.UserStore.CreateUser` | db/sqlc/user.sql.go:14-45 | Inserts an unverified user exactly when name and address are free. |
| `UserStore.UserStore.UpdateUser` | db/sqlc/user.sql.go:67-108 | Given fields replace, the others stay; a missing row and a taken address are told apart. |
| `UserStore.UserStore.CreateVerifyEmail` | db/sqlc/verify_email.sql.go:12-37 | One unused code for fifteen minutes under a new id, exactly when the user exists. |
| `UserStore.UserStore.UpdateVerifyEmail` | db/sqlc/verify_email.sql.go:39-66 | Marks a code used exactly when id, secret, use and expiry allow it. |
| `UserStore.UserStore.VerifyEmailTx` | db/sqlc/tx_verify_email.go:20-42 | Uses the code and flags its user, both or neither; afterwards no secret and no time makes the code acceptable again. |
| `UserStore.UserStore.CreateUserTx` | db/sqlc/tx_create_user.go:17-32 | A registered user has a task in the queue; on every failure, each with its exact cause, the rows are as before, and the task stays exactly when it had been enqueued. |
| `UserStore.UserStore.ProcessTask` | worker/task_send_verify_email.go:50-105 | Skips a missing user; otherwise issues one code for the current address and asks for a retry exactly when the mail fails. |
| `UserStore.UserStore.UpdateUserFor` | gapi/rpc_update_user.go:22-77 | Only the user changes the profile, only given fields, never the verified flag and nobody else; each status has its exact cause. |
| `UserStore.VerificationAlone` | db/sqlc/tx_verify_email.go:20-42 | The steps of the concurrent machine, undisturbed, do what `VerifyEmailTx` does by itself. |
| `UserStore.RefusalAlone` | db/sqlc/verify_email.sql.go:39-46 | For a code that is not acceptable they end in the state they began in. |
| `UserStore.DropAlone` | db/sqlc/store.go:37-43 | A verification that is rolled back, before or after either statement, ends in the state it began in. |
| `UserStore.TaskAlone` | worker/task_send_verify_email.go:58-95 | A waiting task of a user who is there can be fetched and then issues a code for the current address for fifteen minutes, as `ProcessTask` does; a mail that fails leaves the task for a retry, or in the archive after too many. |
| `UserStore.ProfileAlone` | gapi/rpc_update_user.go:22-77 | Whatever else is in progress, if it concerns neither the user nor the address, a profile update goes through exactly when `UpdateUser` would, with its effect. |
| `UserStore.RegistrationAlone` | db/sqlc/tx_create_user.go:17-32 | The same for `CreateUserTx`, and the insert is possible exactly when it is there. |
| `Money.CentsSurvive` | util/money.go:10-18 | For every amount below 2^51 cents in size, to float and back gives the same cents, if each operation errs by at most 2^-53 of its result. |
| `Money.BoundIsSharp` | util/money.go:10-18 | At 2^51 two errors of that size already change the amount. |
| `Money.CentsSurviveNearest` | util/money.go:10-18 | In particular every such amount, zero included, survives rounding to the nearest binary64 (section 4.3.1 of IEEE 754-2019) in both operations. |
| `Money.CentsOfAnAmount` | util/money.go:10-12 | Exactly which cents any amount may come out as: those it is within half a cent of once the product has been moved by one rounding, half a cent itself going up. |
| `Money.CentsMirror` | util/money.go:10-12 | The same below zero, with the sign changed. |
| `Money.CentsAreNearest` | util/money.go:10-12 | So the result is within half a cent of the amount up to one rounding, and the exactly rounded amount is always among the possible ones. |
| `Money.SmallAmountsVanish` | util/money.go:10-12 | A positive amount may become zero cents if and only if it is below half a cent up to one rounding, and must if and only if it is below by as much. |
| `Money.RoundHalfAwayIsNearest` | util/money.go:11 | The rounding finds the nearest integer and takes halves away from zero. |
| `Sessions.AccessGoesBackToLogin` | gapi/rpc_token.go:23-57 | Every access token of every run goes back to a successful login of the same user and expires at most one access duration after that session. |
| `Sessions.AccessTokensNeverRenew` | gapi/rpc_token.go:28-34 | A token without a session of its own id, as every access token, is never renewed. |
| `Sessions.BlockingEndsRenewal` | gapi/rpc_token.go:36-38 | Any session may be blocked at any time; no token of its id is renewed in any run from then on, and all other tokens are treated as before. |
| `Sessions.RenewalIsExact` | gapi/rpc_token.go:23-47 | Over all runs renewal is granted exactly to the refresh tokens of successful logins while their session is open and unexpired; no other payload passes the checks, and the new token is that user's for one access duration. |
| `SessionServer.Server.LoginUser` | gapi/rpc_login_user.go:19-68 | A login opens one session; its refresh token renews until it expires, its access token never, and all other tokens as before. When the session cannot be stored nothing is handed out. Each is one event of the sessions machine. |
| `SessionServer.Server.RenewAccessToken` | gapi/rpc_token.go:18-58 | Granted exactly to a token that a login of this server handed out for renewing, while its session is open and it has not expired; the new token is for that user and one access duration; each refusal with its exact cause, and the last check never the one that refuses. |

## Left out

- Locks.Wanted: lock queues, lock upgrades in several steps and the key-share lock on a user row taken by an account insert; the set of users does not change in the engine.
- Engine.Start: sequence values are drawn when a request arrives instead of at each insert; they are new and never drawn again either way, but their order across transactions is not modelled.
- Requests.TransferOps: the two foreign-key checks of the transfer row come before the row instead of after it (nobody else can see it in between), in either order; the key-share lock of an entry on its transfer is omitted because no query changes a transfer.
- Engine.Execute: a DELETE that matches no row writes nothing and therefore leaves no commit record.
- Engine.Check: the owner checks before `UpdateAccount` and `DeleteAccount` are modelled for one session (`AccountHandlers`), not as separate steps of the engine, which lets these requests run unchecked.
- Store.Store.TransferTx: on an error Go still returns the fields filled so far; the model says nothing about them, since the handler drops them.
- Store.Store.Commit: a failing BEGIN or COMMIT of a transfer is not a step of its own here; in the engine it is a cancellation.
- Feed.RowOfEntry: the presentation types of the response (wrappers, timestamps) are not modelled.
- Sessions.Renewed: one clock reading serves a whole call; the code reads the clock anew for the token, the session and the new payload.
- SessionServer.Server: nothing in the repository sets `is_blocked`, so the class has no method for it; the machine has the event.
- Races.SecondRegistrationWaits: an insert that meets a unique key of a transaction in flight waits as a step that is not enabled, and its error is no event of the machine; `UserStore` has the errors.
- Sessions.AccessGoesBackToLogin: for a negative refresh duration, which no configuration uses, only the token minted by the login itself may outlive the bound.
- Overrun.OverdraftIsExact: the users are fixed in the engine, so a payee opened during the run needs a user without an account in the currency (`Housed`); the bound `Overlap.BalanceAfterThese` needs none.
- Onboarding.Enabled: a registration or profile update that a unique key refuses changes nothing and is no event of the machine; `UserStore` has these errors.
- Money.CentsSurvive: NaN, infinities, overflow of the conversion to int64, and the text of `FormatMoney`.
- Timestamps are integers given with each request; `created_at` of accounts and transfers is not kept, that of entries orders the feed.
- Tokens are modelled by their payloads (PASETO and JWT internals, key handling); password hashing is an oracle; UUIDs are ids that are never drawn twice.
- Redis and asynq scheduling, queue weights and timing: a task is delivered at any time, and again after a failure up to the limit.
- Field validation by regular expression or length, gRPC plumbing, authentication middleware, logging, mail, migrations beyond their constraints.
- The Gin handlers under api/: a second copy of the same logic, switched off in main.go.
- PostgreSQL itself beyond row locks, Read Committed, foreign and unique keys and sequences: crash recovery, statement timeouts, replication.
