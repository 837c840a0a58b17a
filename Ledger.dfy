/** The ledger store: a table of users and a table of transactions, with the
    upsert, insert, delete, filter, sum, count and distinct queries the bot
    issues against them. Rows are values; the store is an object whose two
    tables (and their auto-increment counters) its methods replace in place. */
module Ledger {
  import opened Wrappers
  import opened Calendar
  import opened Sorting

  /** The two `jenis` values the queries and the report look for. */
  const Masuk: string := "masuk"
  const Keluar: string := "keluar"

  /** Column defaults of a new user row. */
  const DefaultStatus: string := "free"
  const DefaultAutoLaporan: string := "off"

  /** A row of `users`. Subscription instants are local time stamps (see Calendar). */
  datatype User = User(
    id: int,
    telegramId: int,
    nama: string,
    status: string,
    subscriptionStart: Option<int>,
    subscriptionEnd: Option<int>,
    autoLaporan: string)

  /** A row of `transactions`. `amaun` is an exact amount (e.g. in sen) and
      `tarikh` the local time stamp, in microseconds, at which the row was written. */
  datatype Transaction = Transaction(
    id: int,
    userId: int,
    jenis: string,
    amaun: int,
    kategori: Option<string>,
    nota: Option<string>,
    tarikh: int)

  /** Sort key of `ORDER BY tarikh`. */
  function Tarikh(t: Transaction): int { t.tarikh }

  /** Newest first, as `ORDER BY tarikh DESC` returns rows. */
  ghost predicate NewestFirst(rows: seq<Transaction>) {
    Descending(rows, Tarikh)
  }

  // ---- Row-level queries, over a table given as a sequence ----

  /** `WHERE user_id = uid`, keeping table order. */
  function Owned(rows: seq<Transaction>, uid: int): (r: seq<Transaction>)
    ensures forall t :: t in r <==> t in rows && t.userId == uid
  {
    if rows == [] then []
    else
      var n := |rows| - 1;
      assert rows == rows[..n] + [rows[n]];
      Owned(rows[..n], uid) + (if rows[n].userId == uid then [rows[n]] else [])
  }

  /** `WHERE tarikh >= since`, keeping table order. */
  function Since(rows: seq<Transaction>, since: int): (r: seq<Transaction>)
    ensures forall t :: t in r <==> t in rows && t.tarikh >= since
  {
    if rows == [] then []
    else
      var n := |rows| - 1;
      assert rows == rows[..n] + [rows[n]];
      Since(rows[..n], since) + (if rows[n].tarikh >= since then [rows[n]] else [])
  }

  /** `SUM(amaun) WHERE jenis = k`, with an empty sum read as 0 (`or 0.0`). */
  function Total(rows: seq<Transaction>, k: string): int {
    if rows == [] then 0
    else
      var n := |rows| - 1;
      Total(rows[..n], k) + (if rows[n].jenis == k then rows[n].amaun else 0)
  }

  /** `get_balance`: the user's inflow sum minus the user's outflow sum. */
  function Balance(rows: seq<Transaction>, uid: int): int {
    Total(Owned(rows, uid), Masuk) - Total(Owned(rows, uid), Keluar)
  }

  /** What one row contributes to its owner's balance: plus an inflow, minus an
      outflow, nothing for any other `jenis` or any other user. */
  function Signed(t: Transaction, uid: int): int {
    if t.userId != uid then 0
    else if t.jenis == Masuk then t.amaun
    else if t.jenis == Keluar then -t.amaun
    else 0
  }

  /** A one-pass running balance, the reference `Balance` is checked against. */
  function Net(rows: seq<Transaction>, uid: int): int {
    if rows == [] then 0
    else Net(rows[..|rows| - 1], uid) + Signed(rows[|rows| - 1], uid)
  }

  /** `COUNT(*) WHERE user_id = uid`. */
  function CountOwned(rows: seq<Transaction>, uid: int): (n: nat)
    ensures n == |Owned(rows, uid)|
  {
    if rows == [] then 0
    else CountOwned(rows[..|rows| - 1], uid) + (if rows[|rows| - 1].userId == uid then 1 else 0)
  }

  /** `SELECT DISTINCT kategori WHERE user_id = uid AND kategori IS NOT NULL`. */
  function Categories(rows: seq<Transaction>, uid: int): (r: set<string>)
    ensures forall c :: c in r <==> exists t :: t in rows && t.userId == uid && t.kategori == Some(c)
  {
    if rows == [] then {}
    else
      var n := |rows| - 1;
      var t := rows[n];
      assert rows == rows[..n] + [t];
      Categories(rows[..n], uid) + (if t.userId == uid && t.kategori.Some? then {t.kategori.value} else {})
  }

  /** `.first()` of `WHERE telegram_id = tid` on the user table. */
  function FindUser(users: seq<User>, tid: int): (r: Option<User>)
    ensures r.Some? ==> r.value in users && r.value.telegramId == tid
    ensures r.None? <==> forall u :: u in users ==> u.telegramId != tid
  {
    if users == [] then None
    else if users[0].telegramId == tid then Some(users[0])
    else
      assert users == [users[0]] + users[1..];
      FindUser(users[1..], tid)
  }

  /** Position of the `.first()` row with this `id` and this owner, if any. */
  function FindOwned(rows: seq<Transaction>, id: int, uid: int): (r: Option<nat>)
    ensures r.Some? ==> r.value < |rows| && rows[r.value].id == id && rows[r.value].userId == uid
    ensures r.Some? ==> forall j :: 0 <= j < r.value ==> !(rows[j].id == id && rows[j].userId == uid)
    ensures r.None? <==> forall j :: 0 <= j < |rows| ==> !(rows[j].id == id && rows[j].userId == uid)
  {
    if rows == [] then None
    else if rows[0].id == id && rows[0].userId == uid then Some(0)
    else
      match FindOwned(rows[1..], id, uid)
      case None => None
      case Some(k) => Some(k + 1)
  }

  function RemoveAt<T>(s: seq<T>, k: nat): seq<T>
    requires k < |s|
  {
    s[..k] + s[k + 1..]
  }

  function NewUser(id: int, telegramId: int, nama: string): User {
    User(id, telegramId, nama, DefaultStatus, None, None, DefaultAutoLaporan)
  }

  /** Key invariants of the user table: ids are allocated increasingly below
      the counter, and `telegram_id` is unique. */
  ghost predicate UserKeys(users: seq<User>, next: int) {
    && 1 <= next
    && (forall i :: 0 <= i < |users| ==> 1 <= users[i].id < next)
    && (forall i, j :: 0 <= i < j < |users| ==>
          users[i].id < users[j].id && users[i].telegramId != users[j].telegramId)
  }

  /** Key invariant of the transaction table: ids are allocated increasingly below the counter. */
  ghost predicate TransactionKeys(rows: seq<Transaction>, next: int) {
    && 1 <= next
    && (forall i :: 0 <= i < |rows| ==> 1 <= rows[i].id < next)
    && (forall i, j :: 0 <= i < j < |rows| ==> rows[i].id < rows[j].id)
  }

  // ---- Lemmas about the row-level queries ----

  lemma {:induction false} OwnedConcat(a: seq<Transaction>, b: seq<Transaction>, uid: int)
    ensures Owned(a + b, uid) == Owned(a, uid) + Owned(b, uid)
  {
    if b != [] {
      var n := |b| - 1;
      assert (a + b)[..|a + b| - 1] == a + b[..n];
      OwnedConcat(a, b[..n], uid);
    } else {
      assert a + b == a;
    }
  }

  lemma {:induction false} NetConcat(a: seq<Transaction>, b: seq<Transaction>, uid: int)
    ensures Net(a + b, uid) == Net(a, uid) + Net(b, uid)
  {
    if b != [] {
      var n := |b| - 1;
      assert (a + b)[..|a + b| - 1] == a + b[..n];
      NetConcat(a, b[..n], uid);
    } else {
      assert a + b == a;
    }
  }

  lemma {:induction false} TotalConcat(a: seq<Transaction>, b: seq<Transaction>, k: string)
    ensures Total(a + b, k) == Total(a, k) + Total(b, k)
  {
    if b != [] {
      var n := |b| - 1;
      assert (a + b)[..|a + b| - 1] == a + b[..n];
      TotalConcat(a, b[..n], k);
    } else {
      assert a + b == a;
    }
  }

  /** Sums do not depend on row order: any permutation has the same totals. */
  lemma {:induction false} TotalPermutation(a: seq<Transaction>, b: seq<Transaction>, k: string)
    requires multiset(a) == multiset(b)
    ensures Total(a, k) == Total(b, k)
    decreases |a|
  {
    if a == [] {
      assert |b| == |multiset(b)| == 0;
    } else {
      var n := |a| - 1;
      var x := a[n];
      assert a == a[..n] + [x];
      assert x in multiset(b);
      var i :| 0 <= i < |b| && b[i] == x;
      var b' := b[..i] + b[i + 1..];
      assert b == b[..i] + [x] + b[i + 1..];
      assert multiset(b) == multiset(b[..i]) + multiset{x} + multiset(b[i + 1..]);
      assert multiset(a) == multiset(a[..n]) + multiset{x};
      assert multiset(b') == multiset(b[..i]) + multiset(b[i + 1..]);
      assert multiset(a[..n]) == multiset(a) - multiset{x};
      assert multiset(b') == multiset(b) - multiset{x};
      TotalPermutation(a[..n], b', k);
      TotalConcat(b[..i], b[i + 1..], k);
      TotalConcat(b[..i] + [x], b[i + 1..], k);
      TotalConcat(b[..i], [x], k);
      assert Total([x], k) == Total([], k) + (if x.jenis == k then x.amaun else 0) by {
        assert [x][..0] == [];
      }
    }
  }

  /** The two-sum balance equals the one-pass running balance. */
  lemma {:induction false} BalanceIsNet(rows: seq<Transaction>, uid: int)
    ensures Balance(rows, uid) == Net(rows, uid)
  {
    if rows != [] {
      var n := |rows| - 1;
      var t := rows[n];
      BalanceIsNet(rows[..n], uid);
      var tail := if t.userId == uid then [t] else [];
      assert Owned(rows, uid) == Owned(rows[..n], uid) + tail;
      TotalConcat(Owned(rows[..n], uid), tail, Masuk);
      TotalConcat(Owned(rows[..n], uid), tail, Keluar);
      if tail != [] {
        assert tail[..0] == [];
      }
    }
  }

  /** A user with no rows has balance 0. */
  lemma {:induction false} BalanceOfNoRows(rows: seq<Transaction>, uid: int)
    requires forall t :: t in rows ==> t.userId != uid
    ensures Balance(rows, uid) == 0
  {
    if rows != [] {
      var n := |rows| - 1;
      assert rows[n] in rows;
      BalanceOfNoRows(rows[..n], uid);
    }
  }

  /** Appending a row moves its owner's balance by the row's signed amount and
      leaves every other balance alone. */
  lemma BalanceAfterAdd(rows: seq<Transaction>, t: Transaction, uid: int)
    ensures Balance(rows + [t], uid) == Balance(rows, uid) + Signed(t, uid)
  {
    BalanceIsNet(rows + [t], uid);
    BalanceIsNet(rows, uid);
    assert (rows + [t])[..|rows|] == rows;
  }

  /** Removing row `k` takes its signed amount back out of its owner's balance. */
  lemma BalanceAfterRemove(rows: seq<Transaction>, k: nat, uid: int)
    requires k < |rows|
    ensures Balance(RemoveAt(rows, k), uid) == Balance(rows, uid) - Signed(rows[k], uid)
  {
    BalanceIsNet(RemoveAt(rows, k), uid);
    BalanceIsNet(rows, uid);
    assert rows == rows[..k] + [rows[k]] + rows[k + 1..];
    NetConcat(rows[..k], rows[k + 1..], uid);
    NetConcat(rows[..k] + [rows[k]], rows[k + 1..], uid);
    NetConcat(rows[..k], [rows[k]], uid);
    assert [rows[k]][..0] == [];
  }

  /** Removing a row of one user leaves every other user's rows as they were. */
  lemma OwnedAfterRemove(rows: seq<Transaction>, k: nat, uid: int)
    requires k < |rows|
    ensures rows[k].userId != uid ==> Owned(RemoveAt(rows, k), uid) == Owned(rows, uid)
    ensures rows[k].userId == uid ==> |Owned(RemoveAt(rows, k), uid)| == |Owned(rows, uid)| - 1
    ensures rows[k].userId == uid ==>
      multiset(Owned(RemoveAt(rows, k), uid)) == multiset(Owned(rows, uid)) - multiset{rows[k]}
  {
    var a, x, b := rows[..k], rows[k], rows[k + 1..];
    assert rows == (a + [x]) + b;
    assert RemoveAt(rows, k) == a + b;
    OwnedConcat(a, b, uid);
    OwnedConcat(a + [x], b, uid);
    OwnedAfterAppend(a, x, uid);
  }

  /** Appending a row adds it to its owner's rows only. */
  lemma OwnedAfterAppend(rows: seq<Transaction>, t: Transaction, uid: int)
    ensures Owned(rows + [t], uid) == Owned(rows, uid) + (if t.userId == uid then [t] else [])
  {
    assert (rows + [t])[..|rows|] == rows;
  }

  /** Once a user with this `telegram_id` exists, appending more users does not
      change which row the lookup finds; otherwise it finds the new one if it matches. */
  lemma {:induction false} FindUserAfterAppend(users: seq<User>, u: User, tid: int)
    ensures FindUser(users + [u], tid)
         == if FindUser(users, tid).Some? then FindUser(users, tid)
            else if u.telegramId == tid then Some(u) else None
  {
    if users == [] {
      assert [] + [u] == [u];
    } else {
      assert (users + [u])[1..] == users[1..] + [u];
      FindUserAfterAppend(users[1..], u, tid);
    }
  }

  lemma RemoveAtKeys(rows: seq<Transaction>, k: nat, next: int)
    requires k < |rows| && TransactionKeys(rows, next)
    ensures TransactionKeys(RemoveAt(rows, k), next)
    ensures forall t :: t in RemoveAt(rows, k) ==> t.id != rows[k].id
  {
    var r := RemoveAt(rows, k);
    assert forall i :: 0 <= i < |r| ==> r[i] == (if i < k then rows[i] else rows[i + 1]);
  }

  /** The store: the two tables and the next value of each auto-increment key. */
  class Store {
    var users: seq<User>
    var transactions: seq<Transaction>
    var nextUserId: int
    var nextTransactionId: int

    ghost predicate Valid()
      reads this
    {
      UserKeys(users, nextUserId) && TransactionKeys(transactions, nextTransactionId)
    }

    constructor ()
      ensures Valid()
      ensures users == [] && transactions == []
    {
      users, transactions := [], [];
      nextUserId, nextTransactionId := 1, 1;
    }

    /** `get_or_create_user`: the existing row for this Telegram id, or a new
        row with the column defaults (status free, auto report off). */
    method GetOrCreateUser(telegramId: int, nama: string) returns (u: User)
      requires Valid()
      modifies this
      ensures Valid()
      ensures transactions == old(transactions) && nextTransactionId == old(nextTransactionId)
      ensures old(FindUser(users, telegramId)).Some? ==>
        u == old(FindUser(users, telegramId)).value && users == old(users) && nextUserId == old(nextUserId)
      ensures old(FindUser(users, telegramId)).None? ==>
        && u == NewUser(old(nextUserId), telegramId, nama)
        && users == old(users) + [u]
        && nextUserId == old(nextUserId) + 1
      ensures u.telegramId == telegramId
      ensures FindUser(users, telegramId) == Some(u)
    {
      var found := FindUser(users, telegramId);
      if found.Some? {
        u := found.value;
      } else {
        u := NewUser(nextUserId, telegramId, nama);
        FindUserAfterAppend(users, u, telegramId);
        users := users + [u];
        nextUserId := nextUserId + 1;
      }
    }

    /** `add_transaction`: inserts one row stamped `now` under the next id. */
    method AddTransaction(userId: int, jenis: string, amaun: int, kategori: Option<string>,
                          nota: Option<string>, now: int) returns (t: Transaction)
      requires Valid()
      modifies this
      ensures Valid()
      ensures t == Transaction(old(nextTransactionId), userId, jenis, amaun, kategori, nota, now)
      ensures transactions == old(transactions) + [t]
      ensures users == old(users) && nextUserId == old(nextUserId)
      ensures nextTransactionId == old(nextTransactionId) + 1
      ensures CountTransactions(userId) == old(CountTransactions(userId)) + 1
      ensures GetBalance(userId) == old(GetBalance(userId)) + Signed(t, userId)
      ensures forall o :: o != userId ==> Owned(transactions, o) == Owned(old(transactions), o)
    {
      t := Transaction(nextTransactionId, userId, jenis, amaun, kategori, nota, now);
      OwnedAfterAppend(transactions, t, userId);
      BalanceAfterAdd(transactions, t, userId);
      BalanceIsNet(transactions, userId);
      BalanceIsNet(transactions + [t], userId);
      forall o | o != userId
        ensures Owned(transactions + [t], o) == Owned(transactions, o)
      {
        OwnedAfterAppend(transactions, t, o);
      }
      transactions := transactions + [t];
      nextTransactionId := nextTransactionId + 1;
    }

    /** `delete_transaction`: removes the first row with this id AND this owner
        and returns it; with no such row nothing changes and None comes back. */
    method DeleteTransaction(userId: int, transactionId: int) returns (r: Option<Transaction>)
      requires Valid()
      modifies this
      ensures Valid()
      ensures users == old(users) && nextUserId == old(nextUserId) && nextTransactionId == old(nextTransactionId)
      ensures r.None? <==> forall t :: t in old(transactions) ==> !(t.id == transactionId && t.userId == userId)
      ensures r.None? ==> transactions == old(transactions)
      ensures r.Some? ==>
        && r.value in old(transactions) && r.value.id == transactionId && r.value.userId == userId
        && r.value !in transactions
        && transactions == RemoveAt(old(transactions), old(FindOwned(transactions, transactionId, userId)).value)
        && CountTransactions(userId) == old(CountTransactions(userId)) - 1
        && GetBalance(userId) == old(GetBalance(userId)) - Signed(r.value, userId)
      ensures forall o :: o != userId ==> Owned(transactions, o) == Owned(old(transactions), o)
    {
      var k := FindOwned(transactions, transactionId, userId);
      if k.None? {
        r := None;
      } else {
        var i := k.value;
        var t := transactions[i];
        r := Some(t);
        RemoveAtKeys(transactions, i, nextTransactionId);
        OwnedAfterRemove(transactions, i, userId);
        BalanceAfterRemove(transactions, i, userId);
        BalanceIsNet(transactions, userId);
        BalanceIsNet(RemoveAt(transactions, i), userId);
        forall o | o != userId
          ensures Owned(RemoveAt(transactions, i), o) == Owned(transactions, o)
        {
          OwnedAfterRemove(transactions, i, o);
        }
        transactions := RemoveAt(transactions, i);
      }
    }

    /** `get_transactions`: the user's rows dated on or after the first day of
        the period, newest first; nothing for an unknown period keyword. */
    function GetTransactions(userId: int, period: string, today: CivilDate): (r: seq<Transaction>)
      reads this
      ensures !IsPeriod(period) ==> r == []
      ensures IsPeriod(period) ==>
        var start := PeriodStart(period, today).value;
        && (forall t :: t in r <==> t in transactions && t.userId == userId && DayOf(t.tarikh) >= start)
        && multiset(r) == multiset(Since(Owned(transactions, userId), StartOfDay(start)))
        && NewestFirst(r)
    {
      match PeriodStart(period, today)
      case None => []
      case Some(start) =>
        var r := SortDesc(Since(Owned(transactions, userId), StartOfDay(start)), Tarikh);
        assert forall t :: t in r <==> t in multiset(r);
        assert forall t :: t in r ==> DayOf(t.tarikh) >= start by {
          forall t | t in r ensures DayOf(t.tarikh) >= start {
            AfterMidnightIff(t.tarikh, start);
          }
        }
        assert forall t :: t in transactions && t.userId == userId && DayOf(t.tarikh) >= start ==> t in r by {
          forall t | t in transactions && t.userId == userId && DayOf(t.tarikh) >= start
            ensures t in r
          {
            AfterMidnightIff(t.tarikh, start);
          }
        }
        r
    }

    /** `get_balance`: all-time inflow minus all-time outflow of this user. */
    function GetBalance(userId: int): (r: int)
      reads this
      ensures r == Net(transactions, userId)
    {
      BalanceIsNet(transactions, userId);
      Balance(transactions, userId)
    }

    /** `get_kategori`: the distinct non-NULL categories of this user's rows
        (the empty string included, since only NULL is filtered out). */
    function GetKategori(userId: int): (r: set<string>)
      reads this
      ensures forall c :: c in r <==> exists t :: t in transactions && t.userId == userId && t.kategori == Some(c)
    {
      Categories(transactions, userId)
    }

    /** `get_all_transactions_by_user`: all and only the user's rows, newest first. */
    function GetAllTransactionsByUser(userId: int): (r: seq<Transaction>)
      reads this
      ensures forall t :: t in r <==> t in transactions && t.userId == userId
      ensures multiset(r) == multiset(Owned(transactions, userId))
      ensures |r| == CountTransactions(userId)
      ensures NewestFirst(r)
    {
      var r := SortDesc(Owned(transactions, userId), Tarikh);
      assert forall t :: t in r <==> t in multiset(r);
      r
    }

    /** `count_transactions`: how many rows this user owns. */
    function CountTransactions(userId: int): (n: nat)
      reads this
      ensures n == |Owned(transactions, userId)|
    {
      CountOwned(transactions, userId)
    }
  }
}
