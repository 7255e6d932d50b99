/**
 * The transaction history page: the four filters, the stat cards, and how each row is
 * classified as sent or received.
 */
module TransactionsPage {
  import opened Wrappers
  import opened JsText
  import opened TxQuery
  import Blockchain
  import opened Store
  import Hooks = TransactionHooks
  import Utils

  datatype PageFilter = All | Sent | Received | PendingOnly

  /** The test each filter applies. */
  function Matches(f: PageFilter): Transaction -> bool
  {
    (tx: Transaction) =>
      match f
      case All => true
      case PendingOnly => tx.status == Blockchain.Pending
      case Sent => tx.txType == Send
      case Received => tx.txType == Receive
  }

  function FilteredTransactions(txs: seq<Transaction>, f: PageFilter): seq<Transaction>
  {
    Filter(txs, Matches(f))
  }

  /**
   * "all" changes nothing; each other filter keeps exactly the entries with its status or
   * type, each as often as the history holds it, in the history's order.
   */
  lemma FilteredTransactionsSpec(txs: seq<Transaction>, f: PageFilter)
    ensures var r := FilteredTransactions(txs, f);
      && (f == All ==> r == txs)
      && (f == PendingOnly ==> forall x :: x in r <==> x in txs && x.status == Blockchain.Pending)
      && (f == Sent ==> forall x :: x in r <==> x in txs && x.txType == Send)
      && (f == Received ==> forall x :: x in r <==> x in txs && x.txType == Receive)
      && IsSubsequence(r, txs)
      && (forall x :: multiset(r)[x] == if Matches(f)(x) then multiset(txs)[x] else 0)
  {
    FilterMultiset(txs, Matches(f));
    FilterMembers(txs, Matches(f));
    FilterIsSubsequence(txs, Matches(f));
    if f == All {
      FilterAll(txs, Matches(f));
    }
  }

  // ---------------------------------------------------------------------------------
  // The stat cards

  datatype PageStats = PageStats(total: nat, received: nat, sent: nat, pending: nat)

  function Stats(txs: seq<Transaction>): PageStats
  {
    PageStats(|txs|, Count(txs, Hooks.TypeIs(Receive)), Count(txs, Hooks.TypeIs(Send)),
              Count(txs, Hooks.StatusIs(Blockchain.Pending)))
  }

  /** Each card shows the length of the list its filter button would show. */
  lemma StatsMatchFilters(txs: seq<Transaction>)
    ensures var st := Stats(txs);
      && st.total == |FilteredTransactions(txs, All)|
      && st.received == |FilteredTransactions(txs, Received)|
      && st.sent == |FilteredTransactions(txs, Sent)|
      && st.pending == |FilteredTransactions(txs, PendingOnly)|
  {
    FilterAll(txs, Matches(All));
    FilterCongruent(txs, Hooks.TypeIs(Receive), Matches(Received));
    FilterCongruent(txs, Hooks.TypeIs(Send), Matches(Sent));
    FilterCongruent(txs, Hooks.StatusIs(Blockchain.Pending), Matches(PendingOnly));
  }

  /** The page's cards agree with the statistics hook. */
  lemma StatsAgreeWithHook(txs: seq<Transaction>)
    ensures var st, hook := Stats(txs), Hooks.Stats(txs);
      st.total == hook.total && st.received == hook.received && st.sent == hook.sent
      && st.pending == hook.pending
  {
  }

  // ---------------------------------------------------------------------------------
  // Rows

  /** Sent when the entry is a send, or was sent from the connected address in any letter case. */
  predicate IsSent(tx: Transaction, address: Option<string>)
  {
    tx.txType == Send || (address.Some? && ToLower(tx.from) == ToLower(address.value))
  }

  datatype RowDisplay = RowDisplay(title: string, counterparty: string, sign: string)

  function Row(tx: Transaction, address: Option<string>): (row: RowDisplay)
    ensures row.sign == "-" <==> IsSent(tx, address)
    ensures row.sign == "+" <==> !IsSent(tx, address)
  {
    if IsSent(tx, address) then RowDisplay("Sent " + tx.tokenSymbol, "To: " + Utils.FormatAddress(tx.to), "-")
    else RowDisplay("Received " + tx.tokenSymbol, "From: " + Utils.FormatAddress(tx.from), "+")
  }

  /** A sent row names the recipient, a received row the sender. */
  lemma RowCounterparty(tx: Transaction, address: Option<string>)
    ensures IsSent(tx, address) ==> Row(tx, address).counterparty == "To: " + Utils.FormatAddress(tx.to)
    ensures !IsSent(tx, address) ==> Row(tx, address).counterparty == "From: " + Utils.FormatAddress(tx.from)
  {
  }

  /** The comparison with the connected address ignores letter case on either side. */
  lemma IsSentIgnoresCase(tx: Transaction, address: string)
    ensures IsSent(tx, Some(ToLower(address))) == IsSent(tx, Some(address))
    ensures IsSent(tx.(from := ToLower(tx.from)), Some(address)) == IsSent(tx, Some(address))
  {
    ToLowerIdempotent(address);
    ToLowerIdempotent(tx.from);
  }

  /** Without a connected address, only sends count as sent. */
  lemma IsSentWithoutAddress(tx: Transaction)
    ensures IsSent(tx, None) <==> tx.txType == Send
  {
  }

  /** Every transfer the store records after a send shows as sent, to its recipient, with "-". */
  lemma SentTransferShowsAsSent(s: WalletState, to: string, amount: string, now: int, rc: SendReceipt,
                                shown: Option<string>)
    ensures var row := Row(SentRecord(s, to, amount, now, rc), shown);
      row.sign == "-" && row.counterparty == "To: " + Utils.FormatAddress(to) && row.title == "Sent BBC"
  {
  }

  /** What the page renders: a notice when disconnected, else the cards and the filtered rows. */
  datatype PageView = NotConnected | Listing(stats: PageStats, rows: seq<RowDisplay>)

  function View(s: WalletState, f: PageFilter): (v: PageView)
    ensures v.NotConnected? <==> !s.isConnected
    ensures v.Listing? ==> |v.rows| == |FilteredTransactions(s.transactions, f)|
    ensures v.Listing? ==> forall i :: 0 <= i < |v.rows| ==>
              v.rows[i] == Row(FilteredTransactions(s.transactions, f)[i], s.address)
  {
    if !s.isConnected then NotConnected
    else
      var shown := FilteredTransactions(s.transactions, f);
      Listing(Stats(s.transactions), seq(|shown|, i requires 0 <= i < |shown| => Row(shown[i], s.address)))
  }
}
