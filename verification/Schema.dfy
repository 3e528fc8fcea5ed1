/** The tables of the bank: rows, keys and 64-bit integers. */
module Schema {

  datatype Option<+T> = None | Some(value: T)

  const MIN_INT64: int := -0x8000_0000_0000_0000
  const MAX_INT64: int := 0x7fff_ffff_ffff_ffff

  predicate InInt64(x: int) {
    MIN_INT64 <= x <= MAX_INT64
  }

  /** Go's unary minus on int64: the smallest value is its own negation. */
  function Negate(x: int): (r: int)
    requires InInt64(x)
    ensures InInt64(r)
    ensures x + r == 0 <==> x != MIN_INT64
  {
    if x == MIN_INT64 then x else -x
  }

  /** 64-bit integers are those that two's complement keeps, and negation is that of two's complement. */
  lemma NegateWraps(x: int)
    ensures InInt64(x) <==> (x + 0x8000_0000_0000_0000) % 0x1_0000_0000_0000_0000 - 0x8000_0000_0000_0000 == x
    ensures InInt64(x) ==>
              Negate(x) == (-x + 0x8000_0000_0000_0000) % 0x1_0000_0000_0000_0000 - 0x8000_0000_0000_0000
  {}

  /** Balances and amounts are in cents. The id of a row is its key in the table. */
  datatype Account = Account(owner: string, currency: string, balance: int)
  datatype Transfer = Transfer(from: int, to: int, amount: int)
  datatype Entry = Entry(account: int, amount: int, transfer: Option<int>, createdAt: int)

  datatype Tables = Tables(
    users: set<string>,
    accounts: map<int, Account>,
    transfers: map<int, Transfer>,
    entries: map<int, Entry>)

  function Lookup<K, V>(m: map<K, V>, k: K): Option<V> {
    if k in m then Some(m[k]) else None
  }

  /** Some transfer or entry names account `a`. */
  predicate Referenced(tables: Tables, a: int) {
    || (exists i :: i in tables.transfers && (tables.transfers[i].from == a || tables.transfers[i].to == a))
    || (exists i :: i in tables.entries && tables.entries[i].account == a)
  }

  /** Account `a` carries the unique key (owner, currency). */
  predicate HasKey(tables: Tables, a: int, owner: string, currency: string) {
    a in tables.accounts && tables.accounts[a].owner == owner && tables.accounts[a].currency == currency
  }

  predicate KeyTaken(tables: Tables, owner: string, currency: string) {
    exists a :: a in tables.accounts && HasKey(tables, a, owner, currency)
  }

  lemma SameMap<K, V>(m: map<K, V>, n: map<K, V>)
    requires forall k :: Lookup(m, k) == Lookup(n, k)
    ensures m == n
  {
    forall k
      ensures k in m <==> k in n
      ensures k in m ==> m[k] == n[k]
    {
      assert Lookup(m, k) == Lookup(n, k);
    }
  }
}
