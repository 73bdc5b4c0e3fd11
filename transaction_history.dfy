/** The read side of the transaction log in the history modal: a filter by
    transaction type, a window of ten rows per page, the page count handed to
    the paginator, and the serial number printed in each row. */
module TransactionHistory {
  import opened Bank
  import opened AnchorClient

  const TransactionsPerPage: nat := 10

  function Min(a: int, b: int): int { if a <= b then a else b }

  // ---------------------------------------------------------------------------
  // Reference notions
  // ---------------------------------------------------------------------------

  /** The number of entries of type `t` in a log. */
  function CountOfType(history: seq<Transaction>, t: TransactionType): nat {
    if history == [] then 0
    else (if history[0].txnType == t then 1 else 0) + CountOfType(history[1..], t)
  }

  /** `a` is obtained from `b` by deleting entries, keeping the order of the
      rest. */
  predicate IsSubsequence<T(==)>(a: seq<T>, b: seq<T>)
    decreases |b|
  {
    if b == [] then a == []
    else IsSubsequence(a, b[1..]) || (a != [] && a[0] == b[0] && IsSubsequence(a[1..], b[1..]))
  }

  // ---------------------------------------------------------------------------
  // Filter
  // ---------------------------------------------------------------------------

  /** The filter callback: "All" keeps everything, any other value keeps the
      entries whose upper-cased variant key equals the upper-cased filter. */
  predicate Keep(filter: string, tx: Transaction) {
    filter == "All" || Upper(VariantKey(tx.txnType)) == Upper(filter)
  }

  /** `filteredTransactions`: the log restricted to the entries `Keep`
      accepts, as `Array.prototype.filter` does. */
  function Filtered(history: seq<Transaction>, filter: string): (r: seq<Transaction>)
    ensures IsSubsequence(r, history)
    ensures forall i :: 0 <= i < |r| ==> Keep(filter, r[i])
  {
    if history == [] then []
    else if Keep(filter, history[0]) then [history[0]] + Filtered(history[1..], filter)
    else Filtered(history[1..], filter)
  }

  /** With the filter "All" the list is the whole log, unchanged. */
  lemma {:induction false} FilterAllIsIdentity(history: seq<Transaction>)
    ensures Filtered(history, "All") == history
  {
    if history != [] {
      FilterAllIsIdentity(history[1..]);
      assert history == [history[0]] + history[1..];
    }
  }

  /** A filter naming type `t` (in any letter case) keeps exactly the entries
      of type `t`, in their original order: every kept entry has type `t`, as
      many are kept as the log holds, and they form a subsequence of it. */
  lemma {:induction false} FilterByTypeKeepsThatType(
    history: seq<Transaction>, filter: string, t: TransactionType)
    requires filter != "All" && Upper(filter) == Upper(VariantKey(t))
    ensures forall i :: 0 <= i < |Filtered(history, filter)| ==> Filtered(history, filter)[i].txnType == t
    ensures |Filtered(history, filter)| == CountOfType(history, t)
    ensures IsSubsequence(Filtered(history, filter), history)
  {
    VariantLabels();
    if history != [] {
      FilterByTypeKeepsThatType(history[1..], filter, t);
      assert Keep(filter, history[0]) <==> history[0].txnType == t;
    }
  }

  /** The two non-trivial options of the filter menu. */
  lemma FilterMenuOptions(history: seq<Transaction>)
    ensures |Filtered(history, "Deposit")| == CountOfType(history, TransactionType.Deposit)
    ensures forall i :: 0 <= i < |Filtered(history, "Deposit")| ==>
              Filtered(history, "Deposit")[i].txnType == TransactionType.Deposit
    ensures |Filtered(history, "Withdraw")| == CountOfType(history, TransactionType.Withdraw)
    ensures forall i :: 0 <= i < |Filtered(history, "Withdraw")| ==>
              Filtered(history, "Withdraw")[i].txnType == TransactionType.Withdraw
  {
    VariantLabels();
    FilterByTypeKeepsThatType(history, "Deposit", TransactionType.Deposit);
    FilterByTypeKeepsThatType(history, "Withdraw", TransactionType.Withdraw);
  }

  // ---------------------------------------------------------------------------
  // Pagination
  // ---------------------------------------------------------------------------

  /** `currentTransactions`: `slice(currentPage * 10, (currentPage + 1) * 10)`,
      which clamps both ends to the length. */
  function Page<T>(items: seq<T>, currentPage: nat): (r: seq<T>)
    ensures |r| == if TransactionsPerPage * currentPage >= |items| then 0
                   else Min(TransactionsPerPage, |items| - TransactionsPerPage * currentPage)
    ensures forall i :: 0 <= i < |r| ==> r[i] == items[TransactionsPerPage * currentPage + i]
  {
    var start := Min(currentPage * TransactionsPerPage, |items|);
    var end := Min((currentPage + 1) * TransactionsPerPage, |items|);
    items[start..end]
  }

  /** `pageCount`: `Math.ceil(length / 10)`, the least number of ten-row
      pages that hold every item. */
  function PageCount(length: nat): (count: nat)
    ensures TransactionsPerPage * count >= length
    ensures count > 0 ==> TransactionsPerPage * (count - 1) < length
  {
    (length + TransactionsPerPage - 1) / TransactionsPerPage
  }

  /** Pages 0 .. pages-1, one after the other. */
  function AllPages<T>(items: seq<T>, pages: nat): seq<T> {
    if pages == 0 then [] else AllPages(items, pages - 1) + Page(items, pages - 1)
  }

  lemma {:induction false} AllPagesIsPrefix<T>(items: seq<T>, pages: nat)
    ensures AllPages(items, pages) == items[..Min(TransactionsPerPage * pages, |items|)]
  {
    if pages > 0 {
      AllPagesIsPrefix(items, pages - 1);
      var lo := Min(TransactionsPerPage * (pages - 1), |items|);
      var hi := Min(TransactionsPerPage * pages, |items|);
      assert Page(items, pages - 1) == items[lo..hi];
      assert items[..lo] + items[lo..hi] == items[..hi];
    }
  }

  /** Every page the paginator offers is non-empty, and reading them all in
      order gives back the whole filtered list. */
  lemma PagesCoverList<T>(items: seq<T>)
    ensures forall p :: 0 <= p < PageCount(|items|) ==> Page(items, p) != []
    ensures AllPages(items, PageCount(|items|)) == items
  {
    AllPagesIsPrefix(items, PageCount(|items|));
  }

  /** Past the last page, a page is empty. */
  lemma PageBeyondEndIsEmpty<T>(items: seq<T>, p: nat)
    requires p >= PageCount(|items|)
    ensures Page(items, p) == []
  {
  }

  // ---------------------------------------------------------------------------
  // Row serial numbers
  // ---------------------------------------------------------------------------

  /** The "S.No" cell of row `index` on page `currentPage`. */
  function Serial(currentPage: nat, index: nat): nat {
    currentPage * TransactionsPerPage + index + 1
  }

  /** The serial of a row is its one-based position in the filtered list. */
  lemma SerialIsPosition<T>(items: seq<T>, p: nat, index: nat)
    requires index < |Page(items, p)|
    ensures 1 <= Serial(p, index) <= |items|
    ensures Page(items, p)[index] == items[Serial(p, index) - 1]
  {
  }

  /** The serial column of one page. */
  function SerialColumn<T>(items: seq<T>, p: nat): (col: seq<nat>)
    ensures |col| == |Page(items, p)|
  {
    seq(|Page(items, p)|, i requires 0 <= i < |Page(items, p)| => Serial(p, i))
  }

  /** The serial columns of pages 0 .. pages-1, one after the other. */
  function AllSerials<T>(items: seq<T>, pages: nat): seq<nat> {
    if pages == 0 then [] else AllSerials(items, pages - 1) + SerialColumn(items, pages - 1)
  }

  lemma {:induction false} AllSerialsCount<T>(items: seq<T>, pages: nat)
    ensures AllSerials(items, pages)
            == seq(Min(TransactionsPerPage * pages, |items|), i => i + 1)
  {
    if pages > 0 {
      AllSerialsCount(items, pages - 1);
      var lo := Min(TransactionsPerPage * (pages - 1), |items|);
      var hi := Min(TransactionsPerPage * pages, |items|);
      var col := SerialColumn(items, pages - 1);
      assert |col| == hi - lo;
      assert forall i :: 0 <= i < |col| ==> col[i] == lo + i + 1;
    }
  }

  /** Across all pages the serials read 1, 2, ..., n: no gaps, no repeats. */
  lemma SerialsAreOneToN<T>(items: seq<T>)
    ensures AllSerials(items, PageCount(|items|)) == seq(|items|, i => i + 1)
  {
    AllSerialsCount(items, PageCount(|items|));
  }
}
