/**
 * The transaction hooks: history statistics, the newest-first ordering, the per-type view,
 * the five most recent entries, and adding an entry that still lacks its hash.
 */
module TransactionHooks {
  import opened Wrappers
  import opened TxQuery
  import Blockchain
  import opened Store

  // ---------------------------------------------------------------------------------
  // Tests on a single entry, named so that every count uses the same test

  function TypeIs(t: TxType): Transaction -> bool
  {
    (tx: Transaction) => tx.txType == t
  }

  function StatusIs(st: Blockchain.Status): Transaction -> bool
  {
    (tx: Transaction) => tx.status == st
  }

  function AtTime(time: int): Transaction -> bool
  {
    (tx: Transaction) => tx.timestamp == time
  }

  // ---------------------------------------------------------------------------------
  // useTransactionStats

  datatype TransactionStats = TransactionStats(
    total: nat, sent: nat, received: nat, pending: nat, successful: nat, failed: nat)

  /**
   * The six counts over the history: the total, and for each type and status the number
   * of positions in the history whose entry has it.
   */
  function Stats(txs: seq<Transaction>): (st: TransactionStats)
    ensures st.total == |txs|
    ensures st.sent == |set i | 0 <= i < |txs| && txs[i].txType == Send|
    ensures st.received == |set i | 0 <= i < |txs| && txs[i].txType == Receive|
    ensures st.pending == |set i | 0 <= i < |txs| && txs[i].status == Blockchain.Pending|
    ensures st.successful == |set i | 0 <= i < |txs| && txs[i].status == Blockchain.Success|
    ensures st.failed == |set i | 0 <= i < |txs| && txs[i].status == Blockchain.Failed|
  {
    CountTypeIs(txs, Send);
    CountTypeIs(txs, Receive);
    CountStatusIs(txs, Blockchain.Pending);
    CountStatusIs(txs, Blockchain.Success);
    CountStatusIs(txs, Blockchain.Failed);
    TransactionStats(
      |txs|,
      Count(txs, TypeIs(Send)),
      Count(txs, TypeIs(Receive)),
      Count(txs, StatusIs(Blockchain.Pending)),
      Count(txs, StatusIs(Blockchain.Success)),
      Count(txs, StatusIs(Blockchain.Failed)))
  }

  /** The count of a type is the number of positions holding an entry of that type. */
  lemma CountTypeIs(txs: seq<Transaction>, t: TxType)
    ensures Count(txs, TypeIs(t)) == |set i | 0 <= i < |txs| && txs[i].txType == t|
  {
    CountPassing(txs, TypeIs(t));
    assert Passing(txs, TypeIs(t)) == set i | 0 <= i < |txs| && txs[i].txType == t;
  }

  /** The count of a status is the number of positions holding an entry with that status. */
  lemma CountStatusIs(txs: seq<Transaction>, st: Blockchain.Status)
    ensures Count(txs, StatusIs(st)) == |set i | 0 <= i < |txs| && txs[i].status == st|
  {
    CountPassing(txs, StatusIs(st));
    assert Passing(txs, StatusIs(st)) == set i | 0 <= i < |txs| && txs[i].status == st;
  }

  /** Every entry has exactly one of the three statuses, so their counts add up to the total. */
  lemma StatusCountsAddUp(txs: seq<Transaction>)
    ensures var st := Stats(txs); st.pending + st.successful + st.failed == st.total
  {
    CountPartition(txs, StatusIs(Blockchain.Pending), StatusIs(Blockchain.Success), StatusIs(Blockchain.Failed));
  }

  /** Sends and receives are disjoint, and approvals are counted in neither. */
  lemma SentAndReceivedWithinTotal(txs: seq<Transaction>)
    ensures var st := Stats(txs);
      st.sent + st.received + Count(txs, TypeIs(Approval)) == st.total
      && st.sent + st.received <= st.total
  {
    CountPartition(txs, TypeIs(Send), TypeIs(Receive), TypeIs(Approval));
  }

  // ---------------------------------------------------------------------------------
  // sortedTransactions: a stable sort on `b.timestamp - a.timestamp`

  predicate NewestFirst(s: seq<Transaction>)
  {
    forall i, j :: 0 <= i < j < |s| ==> s[i].timestamp >= s[j].timestamp
  }

  /** Place `tx` before the first entry that is not newer than it. */
  function Insert(tx: Transaction, s: seq<Transaction>): (r: seq<Transaction>)
    ensures |r| == |s| + 1 && r[0] == (if s == [] || tx.timestamp >= s[0].timestamp then tx else s[0])
    decreases |s|
  {
    if s == [] || tx.timestamp >= s[0].timestamp then [tx] + s
    else [s[0]] + Insert(tx, s[1..])
  }

  /** Inserting adds exactly the one entry. */
  lemma {:induction false} InsertPermutes(tx: Transaction, s: seq<Transaction>)
    ensures multiset(Insert(tx, s)) == multiset(s) + multiset{tx}
    decreases |s|
  {
    if s != [] && tx.timestamp < s[0].timestamp {
      InsertPermutes(tx, s[1..]);
      assert s == [s[0]] + s[1..];
      assert Insert(tx, s) == [s[0]] + Insert(tx, s[1..]);
    }
  }

  /** Inserting into a newest-first list keeps it newest first. */
  lemma {:induction false} InsertNewestFirst(tx: Transaction, s: seq<Transaction>)
    requires NewestFirst(s)
    ensures NewestFirst(Insert(tx, s))
    decreases |s|
  {
    if s != [] && tx.timestamp < s[0].timestamp {
      var rest := Insert(tx, s[1..]);
      InsertNewestFirst(tx, s[1..]);
      assert rest[0].timestamp <= s[0].timestamp;
      assert Insert(tx, s) == [s[0]] + rest;
    }
  }

  /**
   * `[...transactions].sort((a, b) => b.timestamp - a.timestamp)`: a new list, newest
   * first, holding the same entries. The sort is stable (see `SortStable`), and a stable
   * sort on a key has only one possible result, so this is the order the page shows.
   */
  function SortedByTime(txs: seq<Transaction>): (r: seq<Transaction>)
    ensures NewestFirst(r) && multiset(r) == multiset(txs)
    decreases |txs|
  {
    if txs == [] then []
    else
      assert txs == [txs[0]] + txs[1..];
      InsertNewestFirst(txs[0], SortedByTime(txs[1..]));
      InsertPermutes(txs[0], SortedByTime(txs[1..]));
      Insert(txs[0], SortedByTime(txs[1..]))
  }

  lemma FilterCons(x: Transaction, s: seq<Transaction>, p: Transaction -> bool)
    ensures Filter([x] + s, p) == (if p(x) then [x] else []) + Filter(s, p)
  {
    assert ([x] + s)[0] == x && ([x] + s)[1..] == s;
  }

  /** Inserting keeps the entries with any one timestamp in their previous order. */
  lemma {:induction false} InsertAtTime(tx: Transaction, s: seq<Transaction>, time: int)
    ensures Filter(Insert(tx, s), AtTime(time)) == (if tx.timestamp == time then [tx] else []) + Filter(s, AtTime(time))
    decreases |s|
  {
    var p := AtTime(time);
    if s == [] || tx.timestamp >= s[0].timestamp {
      FilterCons(tx, s, p);
    } else {
      var rest := Insert(tx, s[1..]);
      assert Insert(tx, s) == [s[0]] + rest;
      var head: seq<Transaction> := if s[0].timestamp == time then [s[0]] else [];
      var added: seq<Transaction> := if tx.timestamp == time then [tx] else [];
      var tail := Filter(s[1..], p);
      InsertAtTime(tx, s[1..], time);
      assert Filter(rest, p) == added + tail;
      FilterCons(s[0], rest, p);
      assert Filter(Insert(tx, s), p) == head + (added + tail);
      FilterCons(s[0], s[1..], p);
      assert [s[0]] + s[1..] == s;
      assert Filter(s, p) == head + tail;
      // s[0] is strictly newer than tx, so at most one of them has this timestamp
      if added == [] {
        assert head + (added + tail) == head + tail;
        assert added + (head + tail) == head + tail;
      } else {
        assert head == [];
        assert head + (added + tail) == added + tail;
        assert added + (head + tail) == added + tail;
      }
    }
  }

  /** Stability: the entries sharing a timestamp appear in the order the history had them. */
  lemma {:induction false} SortStable(txs: seq<Transaction>, time: int)
    ensures Filter(SortedByTime(txs), AtTime(time)) == Filter(txs, AtTime(time))
    decreases |txs|
  {
    if txs != [] {
      SortStable(txs[1..], time);
      InsertAtTime(txs[0], SortedByTime(txs[1..]), time);
      FilterCons(txs[0], txs[1..], AtTime(time));
      assert [txs[0]] + txs[1..] == txs;
    }
  }

  /** Inserting adds one to a count exactly when the new entry passes the test. */
  lemma {:induction false} InsertCount(tx: Transaction, s: seq<Transaction>, p: Transaction -> bool)
    ensures Count(Insert(tx, s), p) == Count(s, p) + (if p(tx) then 1 else 0)
    decreases |s|
  {
    if s == [] || tx.timestamp >= s[0].timestamp {
      FilterCons(tx, s, p);
    } else {
      var rest := Insert(tx, s[1..]);
      assert Insert(tx, s) == [s[0]] + rest;
      InsertCount(tx, s[1..], p);
      FilterCons(s[0], rest, p);
      FilterCons(s[0], s[1..], p);
      assert [s[0]] + s[1..] == s;
      assert |Filter(s, p)| == (if p(s[0]) then 1 else 0) + |Filter(s[1..], p)|;
    }
  }

  /** Sorting changes no count. */
  lemma {:induction false} SortedCount(txs: seq<Transaction>, p: Transaction -> bool)
    ensures Count(SortedByTime(txs), p) == Count(txs, p)
    decreases |txs|
  {
    if txs != [] {
      SortedCount(txs[1..], p);
      InsertCount(txs[0], SortedByTime(txs[1..]), p);
      FilterCons(txs[0], txs[1..], p);
      assert [txs[0]] + txs[1..] == txs;
    }
  }

  /** No entry is newer than `bound`. */
  predicate NotNewerThan(s: seq<Transaction>, bound: int)
  {
    forall i :: 0 <= i < |s| ==> s[i].timestamp <= bound
  }

  lemma {:induction false} FilterNotNewer(s: seq<Transaction>, p: Transaction -> bool, bound: int)
    requires NotNewerThan(s, bound)
    ensures NotNewerThan(Filter(s, p), bound)
    decreases |s|
  {
    if s != [] {
      FilterNotNewer(s[1..], p, bound);
      FilterCons(s[0], s[1..], p);
      assert [s[0]] + s[1..] == s;
    }
  }

  /** Keeping some entries of a newest-first list leaves it newest first. */
  lemma {:induction false} FilterNewestFirst(s: seq<Transaction>, p: Transaction -> bool)
    requires NewestFirst(s)
    ensures NewestFirst(Filter(s, p))
    decreases |s|
  {
    if s != [] {
      FilterNewestFirst(s[1..], p);
      FilterNotNewer(s[1..], p, s[0].timestamp);
      FilterCons(s[0], s[1..], p);
      assert [s[0]] + s[1..] == s;
    }
  }

  // ---------------------------------------------------------------------------------
  // getTransactionsByType and recentTransactions

  /** `sortedTransactions.filter(tx => tx.type === type)` */
  function TransactionsByType(txs: seq<Transaction>, t: TxType): seq<Transaction>
  {
    Filter(SortedByTime(txs), TypeIs(t))
  }

  /**
   * Exactly the entries of type `t`, each as often as in the history, newest first, in the
   * order of the sorted list.
   */
  lemma TransactionsByTypeSpec(txs: seq<Transaction>, t: TxType)
    ensures var r := TransactionsByType(txs, t);
      && (forall x :: x in r <==> x in txs && x.txType == t)
      && |r| == Count(txs, TypeIs(t))
      && NewestFirst(r)
      && IsSubsequence(r, SortedByTime(txs))
  {
    var sorted := SortedByTime(txs);
    assert forall x :: x in sorted <==> x in txs by {
      assert forall x :: x in sorted <==> x in multiset(sorted);
    }
    FilterMembers(sorted, TypeIs(t));
    SortedCount(txs, TypeIs(t));
    FilterNewestFirst(sorted, TypeIs(t));
    FilterIsSubsequence(sorted, TypeIs(t));
  }

  /** How many entries the dashboard lists. */
  const RecentCount: nat := 5

  /** `sortedTransactions.slice(0, 5)` */
  function RecentTransactions(txs: seq<Transaction>): seq<Transaction>
  {
    var sorted := SortedByTime(txs);
    sorted[..Min(RecentCount, |sorted|)]
  }

  /** The first `min(5, n)` entries of the sorted list: none of the rest is newer. */
  lemma RecentTransactionsSpec(txs: seq<Transaction>)
    ensures var r, sorted := RecentTransactions(txs), SortedByTime(txs);
      && |r| == Min(RecentCount, |txs|)
      && r == sorted[..|r|]
      && NewestFirst(r)
      && (forall i, j :: 0 <= i < |r| <= j < |sorted| ==> r[i].timestamp >= sorted[j].timestamp)
  {
    var sorted := SortedByTime(txs);
    assert |sorted| == |txs| by {
      assert |sorted| == |multiset(sorted)| == |multiset(txs)| == |txs|;
    }
    PrefixNewestFirst(sorted, Min(RecentCount, |sorted|));
  }

  /** A prefix of a newest-first list is newest first, and no later entry is newer than it. */
  lemma PrefixNewestFirst(s: seq<Transaction>, k: nat)
    requires NewestFirst(s) && k <= |s|
    ensures NewestFirst(s[..k])
    ensures forall i, j :: 0 <= i < k <= j < |s| ==> s[..k][i].timestamp >= s[j].timestamp
  {
  }

  // ---------------------------------------------------------------------------------
  // addNewTransaction

  /** A history entry without its hash (`Omit<Transaction, "hash">`). */
  datatype NewTransaction = NewTransaction(
    from: string,
    to: string,
    amount: string,
    timestamp: int,
    status: Blockchain.Status,
    txType: TxType,
    tokenSymbol: string,
    gasUsed: Option<string>)

  /** The caller's fields of an entry. */
  function FieldsOf(tx: Transaction): NewTransaction
  {
    NewTransaction(tx.from, tx.to, tx.amount, tx.timestamp, tx.status, tx.txType, tx.tokenSymbol, tx.gasUsed)
  }

  /** `{ ...tx, hash }`: the caller's fields unchanged, with the hash supplied. */
  function WithHash(f: NewTransaction, hash: string): (tx: Transaction)
    ensures tx.hash == hash
    ensures FieldsOf(tx) == f
  {
    Transaction(hash, f.from, f.to, f.amount, f.timestamp, f.status, f.txType, f.tokenSymbol, f.gasUsed)
  }

  /** An entry is its fields with its hash. */
  lemma FieldsWithHash(tx: Transaction)
    ensures WithHash(FieldsOf(tx), tx.hash) == tx
  {
  }

  /**
   * `addNewTransaction`; the random hash it generates is the parameter `hash`, and
   * `stored` says whether the history write succeeded.
   */
  method AddNewTransaction(store: WalletStore, fields: NewTransaction, hash: string, stored: bool)
    modifies store
    ensures store.state == AddTransactionStep(old(store.state), WithHash(fields, hash), stored)
    ensures store.state.transactions[0].hash == hash && FieldsOf(store.state.transactions[0]) == fields
  {
    store.AddTransaction(WithHash(fields, hash), stored);
  }
}
