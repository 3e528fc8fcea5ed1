/** The activity feed: the join behind it, its order, and what the ledger guarantees about its rows. */
module Feed {
  import opened Schema
  import opened Statements
  import opened Requests
  import opened Ledger
  import opened Engine
  import opened Serializability
  import opened Runs
  import opened Ordering

  datatype FeedRow = FeedRow(
    id: int, account: int, amount: int, currency: string, createdAt: int, transfer: Option<int>,
    counterpart: Option<int>, counterpartOwner: Option<string>, counterpartCurrency: Option<string>)

  /** The CASE of the join: NULL without a transfer, otherwise the side the entry is not on. */
  function OtherSide(t: Tables, e: Entry): Option<int> {
    if e.transfer.None? || e.transfer.value !in t.transfers then None
    else
      var x := t.transfers[e.transfer.value];
      if x.from == e.account then Some(x.to)
      else if x.to == e.account then Some(x.from)
      else None
  }

  /** The row of entry `i`: its account joined, the counterpart account left-joined. */
  function RowOfEntry(t: Tables, i: int): FeedRow
    requires i in t.entries && t.entries[i].account in t.accounts
  {
    var e := t.entries[i];
    var other := OtherSide(t, e);
    var joined := other.Some? && other.value in t.accounts;
    FeedRow(i, e.account, e.amount, t.accounts[e.account].currency, e.createdAt, e.transfer,
            if joined then other else None,
            if joined then Some(t.accounts[other.value].owner) else None,
            if joined then Some(t.accounts[other.value].currency) else None)
  }

  /** The account that transfer `x` names beside account `a`. */
  predicate NamesBeside(x: Transfer, a: int, b: int) {
    (x.from == a && x.to == b) || (x.from != a && x.to == a && x.from == b)
  }

  /**
   * A row says what its entry says, amount and sign included, in the currency of its account. The left joins show
   * an account exactly when the entry has a transfer that names it beside the entry's own, and it is there.
   */
  lemma RowShowsItsEntry(t: Tables, i: int)
    requires i in t.entries && t.entries[i].account in t.accounts
    ensures var row := RowOfEntry(t, i);
            && t.entries[row.id] == Entry(row.account, row.amount, row.transfer, row.createdAt) && row.id == i
            && row.currency == t.accounts[row.account].currency
            && (forall b :: row.counterpart == Some(b) <==>
                  && b in t.accounts && row.transfer.Some? && row.transfer.value in t.transfers
                  && NamesBeside(t.transfers[row.transfer.value], row.account, b))
            && (forall o :: row.counterpartOwner == Some(o) <==>
                  row.counterpart.Some? && t.accounts[row.counterpart.value].owner == o)
            && (forall c :: row.counterpartCurrency == Some(c) <==>
                  row.counterpart.Some? && t.accounts[row.counterpart.value].currency == c)
  {
    var row := RowOfEntry(t, i);
    forall b
      ensures row.counterpart == Some(b) <==>
              && b in t.accounts && row.transfer.Some? && row.transfer.value in t.transfers
              && NamesBeside(t.transfers[row.transfer.value], row.account, b)
    {}
  }

  predicate OwnEntry(t: Tables, owner: string, i: int) {
    i in t.entries && t.entries[i].account in t.accounts && t.accounts[t.entries[i].account].owner == owner
  }

  /** ORDER BY created_at DESC, id DESC. */
  function FeedKeys(t: Tables, owner: string): map<int, Key> {
    map i | i in t.entries && OwnEntry(t, owner, i) :: (-t.entries[i].createdAt, -i)
  }

  lemma FeedKeysAreDistinct(t: Tables, owner: string)
    ensures Distinct(FeedKeys(t, owner))
  {}

  /** The whole feed of a user. */
  function FeedOf(t: Tables, owner: string): seq<FeedRow> {
    FeedKeysAreDistinct(t, owner);
    SortedIsExact(FeedKeys(t, owner));
    var ids := Sorted(FeedKeys(t, owner));
    assert forall k :: 0 <= k < |ids| ==> ids[k] in FeedKeys(t, owner);
    seq(|ids|, k requires 0 <= k < |ids| => RowOfEntry(t, ids[k]))
  }

  lemma FeedFollowsKeys(t: Tables, owner: string)
    ensures Distinct(FeedKeys(t, owner)) && |FeedOf(t, owner)| == |Sorted(FeedKeys(t, owner))|
    ensures forall k :: 0 <= k < |FeedOf(t, owner)| ==>
              var i := Sorted(FeedKeys(t, owner))[k];
              OwnEntry(t, owner, i) && FeedOf(t, owner)[k] == RowOfEntry(t, i) && i in FeedKeys(t, owner)
  {
    FeedKeysAreDistinct(t, owner);
    SortedIsExact(FeedKeys(t, owner));
    var ids := Sorted(FeedKeys(t, owner));
    assert forall k :: 0 <= k < |ids| ==> ids[k] in FeedKeys(t, owner);
  }

  lemma FeedHasAll(t: Tables, owner: string, i: int)
    requires OwnEntry(t, owner, i)
    ensures exists k :: 0 <= k < |FeedOf(t, owner)| && FeedOf(t, owner)[k].id == i
  {
    FeedFollowsKeys(t, owner);
    SortedIsExact(FeedKeys(t, owner));
    assert i in FeedKeys(t, owner);
    var k :| 0 <= k < |Sorted(FeedKeys(t, owner))| && Sorted(FeedKeys(t, owner))[k] == i;
    assert FeedOf(t, owner)[k].id == i;
  }

  lemma FeedIsOrdered(t: Tables, owner: string, j: nat, k: nat)
    requires j < k < |FeedOf(t, owner)|
    ensures var x, y := FeedOf(t, owner)[j], FeedOf(t, owner)[k];
            x.id != y.id && (x.createdAt > y.createdAt || (x.createdAt == y.createdAt && x.id > y.id))
  {
    FeedFollowsKeys(t, owner);
    SortedIsExact(FeedKeys(t, owner));
    var ids := Sorted(FeedKeys(t, owner));
    assert Less(FeedKeys(t, owner)[ids[j]], FeedKeys(t, owner)[ids[k]]);
  }

  /** A row of the feed of `owner` shows what its entry says, and the entry is of an account of `owner`. */
  predicate ShowsItsEntry(t: Tables, owner: string, row: FeedRow) {
    && row.id in t.entries && row.account in t.accounts
    && t.entries[row.id] == Entry(row.account, row.amount, row.transfer, row.createdAt)
    && row.currency == t.accounts[row.account].currency && t.accounts[row.account].owner == owner
  }

  /**
   * The feed holds each entry of each account of the owner exactly once, and no other, with its amount and sign,
   * latest first and among equally late ones by descending id.
   */
  lemma FeedIsExact(t: Tables, owner: string)
    ensures forall k :: 0 <= k < |FeedOf(t, owner)| ==>
              OwnEntry(t, owner, FeedOf(t, owner)[k].id) && FeedOf(t, owner)[k] == RowOfEntry(t, FeedOf(t, owner)[k].id)
    ensures forall k :: 0 <= k < |FeedOf(t, owner)| ==> ShowsItsEntry(t, owner, FeedOf(t, owner)[k])
    ensures forall i :: i in t.entries && t.entries[i].account in t.accounts
                        && t.accounts[t.entries[i].account].owner == owner ==>
              exists k :: 0 <= k < |FeedOf(t, owner)| && FeedOf(t, owner)[k].id == i
    ensures forall j, k :: 0 <= j < k < |FeedOf(t, owner)| ==>
              var x, y := FeedOf(t, owner)[j], FeedOf(t, owner)[k];
              x.id != y.id && (x.createdAt > y.createdAt || (x.createdAt == y.createdAt && x.id > y.id))
  {
    var feed := FeedOf(t, owner);
    FeedFollowsKeys(t, owner);
    forall k | 0 <= k < |feed| ensures ShowsItsEntry(t, owner, feed[k]) {
      RowShowsItsEntry(t, Sorted(FeedKeys(t, owner))[k]);
    }
    forall i | i in t.entries && t.entries[i].account in t.accounts
               && t.accounts[t.entries[i].account].owner == owner
      ensures exists k :: 0 <= k < |feed| && feed[k].id == i
    {
      FeedHasAll(t, owner, i);
    }
    forall j, k | 0 <= j < k < |feed|
      ensures feed[j].id != feed[k].id
      ensures feed[j].createdAt > feed[k].createdAt
              || (feed[j].createdAt == feed[k].createdAt && feed[j].id > feed[k].id)
    {
      FeedIsOrdered(t, owner, j, k);
    }
  }

  // ---------- Counterparts ----------

  /** On a sound ledger a row shows a counterpart exactly when its entry belongs to a transfer. */
  lemma CounterpartIsExact(t: Tables, i: int)
    requires Sound(t) && i in t.entries
    ensures t.entries[i].account in t.accounts
    ensures var e, row := t.entries[i], RowOfEntry(t, i);
            && (row.counterpart.Some? <==> e.transfer.Some?)
            && (e.transfer.Some? ==>
                  var x := t.transfers[e.transfer.value];
                  (e.account == x.from && row.counterpart == Some(x.to))
                  || (e.account == x.to && row.counterpart == Some(x.from)))
            && (row.counterpart.Some? ==>
                  && row.counterpart.value in t.accounts
                  && row.counterpartOwner == Some(t.accounts[row.counterpart.value].owner)
                  && row.counterpartCurrency == Some(t.accounts[row.counterpart.value].currency))
  {
    var e := t.entries[i];
    if e.transfer.Some? {
      var d, c :| Legs(t, e.transfer.value, d, c);
      assert i == d || i == c;
    }
  }

  /** In every reachable state a row of anyone's feed shows a counterpart exactly when its entry has a transfer. */
  lemma FeedIsExactInEveryState(s: State, run: seq<Event>, owner: string, k: nat)
    requires Initial(s) && Sound(s.base) && Legal(s, run)
    requires k < |FeedOf(CommittedTables(Final(s, run)), owner)|
    ensures var t := CommittedTables(Final(s, run)); var row := FeedOf(t, owner)[k];
            && OwnEntry(t, owner, row.id)
            && (row.counterpart.Some? <==> row.transfer.Some?)
            && (row.transfer.Some? ==>
                  && row.transfer.value in t.transfers
                  && var x := t.transfers[row.transfer.value];
                     (row.account == x.from && row.counterpart == Some(x.to))
                     || (row.account == x.to && row.counterpart == Some(x.from)))
  {
    var t := CommittedTables(Final(s, run));
    CommittedIsSound(s, run);
    FeedIsExact(t, owner);
    CounterpartIsExact(t, FeedOf(t, owner)[k].id);
  }

  /** The two entries of a transfer show each other's account. */
  lemma CounterpartsAreMutual(t: Tables, x: int, d: int, c: int)
    requires Sound(t) && Legs(t, x, d, c)
    ensures t.entries[d].account in t.accounts && t.entries[c].account in t.accounts
    ensures RowOfEntry(t, d).counterpart == Some(t.entries[c].account)
    ensures RowOfEntry(t, c).counterpart == Some(t.entries[d].account)
  {
    CounterpartIsExact(t, d);
    CounterpartIsExact(t, c);
  }

  /** An entry made by a committed payment, at any later point of the run. */
  lemma {:induction false} EntriesStay(base: Tables, log: seq<Record>, p: nat, q: nat, i: int)
    requires GoodLog(base, log) && p <= q <= |log| && i in At(base, log, p).entries
    ensures i in At(base, log, q).entries && At(base, log, q).entries[i] == At(base, log, p).entries[i]
    decreases q
  {
    if p < q {
      EntriesStay(base, log, p, q - 1, i);
      EachCommitRuns(base, log, q - 1);
      ExecFootprint(log[q - 1].ops, At(base, log, q - 1));
    }
  }

  lemma {:induction false} TransfersStay(base: Tables, log: seq<Record>, p: nat, q: nat, i: int)
    requires GoodLog(base, log) && p <= q <= |log| && i in At(base, log, p).transfers
    ensures i in At(base, log, q).transfers && At(base, log, q).transfers[i] == At(base, log, p).transfers[i]
    decreases q
  {
    if p < q {
      TransfersStay(base, log, p, q - 1, i);
      EachCommitRuns(base, log, q - 1);
      ExecFootprint(log[q - 1].ops, At(base, log, q - 1));
    }
  }

  lemma PaymentRows(base: Tables, log: seq<Record>, p: nat)
    requires GoodLog(base, log) && p < |log| && log[p].req.Pay?
    ensures var w, ids, req := At(base, log, p + 1), log[p].ids, log[p].req;
            && ids.transfer in w.transfers && w.transfers[ids.transfer] == Transfer(req.from, req.to, req.amount)
            && ids.fromEntry in w.entries && ids.toEntry in w.entries
            && w.entries[ids.fromEntry] == Entry(req.from, -req.amount, Some(ids.transfer), req.at)
            && w.entries[ids.toEntry] == Entry(req.to, req.amount, Some(ids.transfer), req.at)
            && req.from in At(base, log, p).accounts && req.to in At(base, log, p).accounts && req.from != req.to
  {
    EachReceiptIsSerial(base, log, p);
    EachCommitServes(base, log, p);
  }

  lemma PaymentAccountStays(base: Tables, log: seq<Record>, p: nat, q: nat, a: int)
    requires GoodLog(base, log) && p < q <= |log| && log[p].req.Pay? && (a == log[p].req.from || a == log[p].req.to)
    ensures a in At(base, log, p).accounts && a in At(base, log, q).accounts
    ensures At(base, log, q).accounts[a].owner == At(base, log, p).accounts[a].owner
    ensures At(base, log, q).accounts[a].currency == At(base, log, p).accounts[a].currency
  {
    PaymentRows(base, log, p);
    assert Referenced(At(base, log, p + 1), a);
    HistoryKeepsAccounts(base, log, p + 1, q, a);
    IdentityIsStable(base, log, p, p, q, a);
  }

  /** The accounts of a payment at any later time: the payer's still, and in the currency of the payment. */
  lemma PaymentAccounts(base: Tables, log: seq<Record>, p: nat, q: nat)
    requires GoodLog(base, log) && p < q <= |log| && log[p].req.Pay?
    ensures var t, req := At(base, log, q), log[p].req;
            && req.from in t.accounts && t.accounts[req.from].owner == req.user
            && t.accounts[req.from].currency == req.currency
            && req.to in t.accounts && t.accounts[req.to].currency == req.currency
  {
    ChecksStillHold(base, log, p);
    PaymentAccountStays(base, log, p, q, log[p].req.from);
    PaymentAccountStays(base, log, p, q, log[p].req.to);
  }

  lemma EntryIsInFeed(t: Tables, i: int)
    requires i in t.entries && t.entries[i].account in t.accounts
    ensures RowOfEntry(t, i) in FeedOf(t, t.accounts[t.entries[i].account].owner)
  {
    var owner := t.accounts[t.entries[i].account].owner;
    FeedIsExact(t, owner);
    assert OwnEntry(t, owner, i);
    var k :| 0 <= k < |FeedOf(t, owner)| && FeedOf(t, owner)[k].id == i;
  }

  /** How one leg of a transfer between two accounts appears to the owner of the first. */
  lemma LegIsInFeed(t: Tables, i: int, x: int, a: int, b: int, amount: int, at: int)
    requires i in t.entries && t.entries[i] == Entry(a, amount, Some(x), at)
    requires x in t.transfers && NamesBeside(t.transfers[x], a, b)
    requires a in t.accounts && b in t.accounts
    ensures FeedRow(i, a, amount, t.accounts[a].currency, at, Some(x), Some(b), Some(t.accounts[b].owner),
                    Some(t.accounts[b].currency)) in FeedOf(t, t.accounts[a].owner)
  {
    EntryIsInFeed(t, i);
    RowShowsItsEntry(t, i);
  }

  lemma PaymentRowsStay(base: Tables, log: seq<Record>, p: nat, q: nat)
    requires GoodLog(base, log) && p < q <= |log| && log[p].req.Pay?
    ensures var t, ids, req := At(base, log, q), log[p].ids, log[p].req;
            && ids.transfer in t.transfers && t.transfers[ids.transfer] == Transfer(req.from, req.to, req.amount)
            && ids.fromEntry in t.entries && ids.toEntry in t.entries && req.from != req.to
            && t.entries[ids.fromEntry] == Entry(req.from, -req.amount, Some(ids.transfer), req.at)
            && t.entries[ids.toEntry] == Entry(req.to, req.amount, Some(ids.transfer), req.at)
  {
    PaymentRows(base, log, p);
    TransfersStay(base, log, p + 1, q, log[p].ids.transfer);
    EntriesStay(base, log, p + 1, q, log[p].ids.fromEntry);
    EntriesStay(base, log, p + 1, q, log[p].ids.toEntry);
  }

  /** The debit is in the feed of the payer, the credit in that of the payee's owner, each beside the other. */
  ghost predicate ShownToBoth(t: Tables, req: Request, ids: Ids)
    requires req.Pay?
  {
    && req.from in t.accounts && req.to in t.accounts
    && var payee := t.accounts[req.to].owner;
       && FeedRow(ids.fromEntry, req.from, -req.amount, req.currency, req.at, Some(ids.transfer),
                  Some(req.to), Some(payee), Some(req.currency)) in FeedOf(t, req.user)
       && FeedRow(ids.toEntry, req.to, req.amount, req.currency, req.at, Some(ids.transfer),
                  Some(req.from), Some(req.user), Some(req.currency)) in FeedOf(t, payee)
  }

  lemma LegsAreShown(t: Tables, req: Request, ids: Ids)
    requires req.Pay? && req.from != req.to
    requires ids.transfer in t.transfers && t.transfers[ids.transfer] == Transfer(req.from, req.to, req.amount)
    requires ids.fromEntry in t.entries && ids.toEntry in t.entries
    requires t.entries[ids.fromEntry] == Entry(req.from, -req.amount, Some(ids.transfer), req.at)
    requires t.entries[ids.toEntry] == Entry(req.to, req.amount, Some(ids.transfer), req.at)
    requires req.from in t.accounts && t.accounts[req.from].owner == req.user
    requires t.accounts[req.from].currency == req.currency
    requires req.to in t.accounts && t.accounts[req.to].currency == req.currency
    ensures ShownToBoth(t, req, ids)
  {
    LegIsInFeed(t, ids.fromEntry, ids.transfer, req.from, req.to, -req.amount, req.at);
    LegIsInFeed(t, ids.toEntry, ids.transfer, req.to, req.from, req.amount, req.at);
  }

  /**
   * At any time after a payment has committed the feed of the payer shows the debit, with the payee beside it,
   * and the feed of the payee's owner shows the credit, with the payer beside it, both in the currency paid.
   */
  lemma PaymentsShowBothSides(base: Tables, log: seq<Record>, p: nat, q: nat)
    requires GoodLog(base, log) && p < q <= |log| && log[p].req.Pay?
    ensures ShownToBoth(At(base, log, q), log[p].req, log[p].ids)
  {
    PaymentRowsStay(base, log, p, q);
    PaymentAccounts(base, log, p, q);
    LegsAreShown(At(base, log, q), log[p].req, log[p].ids);
  }
}
