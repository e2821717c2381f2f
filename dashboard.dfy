/** The dashboard (`app/dashboard/page.tsx`): chart aggregates over the stock
    list, the inventory table's search and paging, the transaction filter and
    the total-remaining-weight card. Missing text fields are "". */
module Dashboard {
  import opened Common
  import opened Foreign

  /** A stock as the dashboard endpoint returns it. */
  datatype Stock = Stock(weightCarat: string, quality: string, remainingWeight: Option<real>)

  /** A row of the inventory table. */
  datatype Diamond = Diamond(roughName: string, vepariName: string, dalalName: string, quality: string, size: string)

  datatype Transaction = Transaction(date: string, status: string)

  // ---------------------------------------------------------------------
  // Weight histogram
  // ---------------------------------------------------------------------

  /** The chart's category labels, in the order the counter object lists them. */
  const WeightLabels: seq<string> := ["0-1ct", "1-2ct", "2-5ct", "5-10ct", "10ct+"]

  /** `parseFloat(weight_carat) || 0`: `NaN` and 0 both read as 0. */
  function CaratWeight(num: Numerics, text: string): real {
    match num.parseFloat(text)
    case None => 0.0
    case Some(v) => v
  }

  /** The band a weight falls in; every upper bound is inclusive. */
  function Band(w: real): (b: nat)
    ensures b < 5
    ensures b == 0 <==> w <= 1.0
    ensures b == 1 <==> 1.0 < w <= 2.0
    ensures b == 2 <==> 2.0 < w <= 5.0
    ensures b == 3 <==> 5.0 < w <= 10.0
    ensures b == 4 <==> 10.0 < w
  {
    if w <= 1.0 then 0
    else if w <= 2.0 then 1
    else if w <= 5.0 then 2
    else if w <= 10.0 then 3
    else 4
  }

  function StockBand(num: Numerics, s: Stock): nat {
    Band(CaratWeight(num, s.weightCarat))
  }

  /** The test "this stock falls in band b". */
  function InBand(num: Numerics, b: nat): Stock -> bool {
    (s: Stock) => StockBand(num, s) == b
  }

  /** A stock whose weight does not parse is counted in the first band. */
  lemma UnparsableWeightInFirstBand(num: Numerics, s: Stock)
    requires num.parseFloat(s.weightCarat).None?
    ensures StockBand(num, s) == 0
  {
  }

  /** The counters after visiting the stocks in order. */
  function Histogram(num: Numerics, stocks: seq<Stock>): (h: seq<nat>)
    ensures |h| == 5
  {
    if stocks == [] then [0, 0, 0, 0, 0]
    else
      var h := Histogram(num, stocks[..|stocks| - 1]);
      var b := StockBand(num, stocks[|stocks| - 1]);
      h[b := h[b] + 1]
  }

  function Sum(s: seq<nat>): nat {
    if s == [] then 0 else s[0] + Sum(s[1..])
  }

  lemma {:induction false} SumZero(s: seq<nat>)
    requires forall i :: 0 <= i < |s| ==> s[i] == 0
    ensures Sum(s) == 0
  {
    if s != [] {
      SumZero(s[1..]);
    }
  }

  lemma {:induction false} SumBump(s: seq<nat>, b: nat)
    requires b < |s|
    ensures Sum(s[b := s[b] + 1]) == Sum(s) + 1
  {
    if b > 0 {
      SumBump(s[1..], b - 1);
      assert s[b := s[b] + 1][1..] == s[1..][b - 1 := s[1..][b - 1] + 1];
    }
  }

  /** Each stock lands in exactly one band, so the counts add up to the
      number of stocks. */
  lemma {:induction false} HistogramTotal(num: Numerics, stocks: seq<Stock>)
    ensures Sum(Histogram(num, stocks)) == |stocks|
  {
    if stocks != [] {
      var h := Histogram(num, stocks[..|stocks| - 1]);
      var b := StockBand(num, stocks[|stocks| - 1]);
      HistogramTotal(num, stocks[..|stocks| - 1]);
      SumBump(h, b);
      assert Histogram(num, stocks) == h[b := h[b] + 1];
    } else {
      SumZero([0, 0, 0, 0, 0]);
    }
  }

  /** Band b's counter is the number of stocks whose weight falls in band b. */
  lemma {:induction false} HistogramCounts(num: Numerics, stocks: seq<Stock>, b: nat)
    requires b < 5
    ensures Histogram(num, stocks)[b] == |Filter(InBand(num, b), stocks)|
  {
    var f := InBand(num, b);
    if stocks != [] {
      var init, last := stocks[..|stocks| - 1], stocks[|stocks| - 1];
      HistogramCounts(num, init, b);
      assert stocks == init + [last];
      FilterAppend(f, init, [last]);
      assert Filter(f, [last]) == if f(last) then [last] else [] by {
        assert [last][1..] == [];
      }
    }
  }

  /** `processWeightDistribution`: one pass over the stocks, bumping the
      counter of each stock's band. */
  method WeightDistribution(num: Numerics, stocks: seq<Stock>) returns (labels: seq<string>, counts: seq<nat>)
    ensures labels == WeightLabels
    ensures counts == Histogram(num, stocks)
    ensures Sum(counts) == |stocks|
  {
    labels := WeightLabels;
    counts := [0, 0, 0, 0, 0];
    var i := 0;
    while i < |stocks|
      invariant 0 <= i <= |stocks|
      invariant counts == Histogram(num, stocks[..i])
    {
      var b := StockBand(num, stocks[i]);
      assert stocks[..i + 1][..i] == stocks[..i];
      counts := counts[b := counts[b] + 1];
      i := i + 1;
    }
    assert stocks[..|stocks|] == stocks;
    HistogramTotal(num, stocks);
  }

  // ---------------------------------------------------------------------
  // Processing status
  // ---------------------------------------------------------------------

  /** `x || 0` on a count that may be missing. */
  function OrZero(x: Option<int>): int {
    if x.Some? then x.value else 0
  }

  function StockCount(stocks: Option<seq<Stock>>): nat {
    if stocks.Some? then |stocks.value| else 0
  }

  /** The status chart's three values: in progress, completed, pending. */
  function ProcessingStatus(stocks: Option<seq<Stock>>, inProgress: Option<int>, completed: Option<int>): (r: seq<int>)
    ensures |r| == 3
    ensures r[0] + r[1] + r[2] == StockCount(stocks)
    ensures r[0] == OrZero(inProgress) && r[1] == OrZero(completed)
  {
    var pending := StockCount(stocks) - OrZero(inProgress) - OrZero(completed);
    [OrZero(inProgress), OrZero(completed), pending]
  }

  /** Pending is not clamped: more in-progress stocks than stocks gives a
      negative slice. */
  lemma PendingCanBeNegative()
    ensures ProcessingStatus(Some([]), Some(1), None)[2] == -1
  {
  }

  // ---------------------------------------------------------------------
  // Quality analysis
  // ---------------------------------------------------------------------

  /** `stock.quality || 'Unknown'`. */
  function QualityOf(s: Stock): (q: string)
    ensures q != ""
  {
    if s.quality == "" then "Unknown" else s.quality
  }

  /** The counter object: its keys in insertion order and the count per key. */
  datatype Tally = Tally(keys: seq<string>, counts: map<string, nat>)

  function Bump(t: Tally, q: string): Tally {
    if q in t.counts then Tally(t.keys, t.counts[q := t.counts[q] + 1])
    else Tally(t.keys + [q], t.counts[q := 1])
  }

  /** The counter object after visiting the stocks in order. */
  function QualityTally(stocks: seq<Stock>): Tally {
    if stocks == [] then Tally([], map[])
    else Bump(QualityTally(stocks[..|stocks| - 1]), QualityOf(stocks[|stocks| - 1]))
  }

  ghost predicate TallyValid(t: Tally) {
    NoDuplicates(t.keys) && forall k :: k in t.keys <==> k in t.counts
  }

  /** The test "this stock reports quality q". */
  function HasQuality(q: string): Stock -> bool {
    (s: Stock) => QualityOf(s) == q
  }

  /** How many stocks report quality q. */
  function Occurrences(stocks: seq<Stock>, q: string): nat {
    |Filter(HasQuality(q), stocks)|
  }

  /** The counts listed in key order, as `Object.values` gives them. */
  function Values(keys: seq<string>, counts: map<string, nat>): (r: seq<nat>)
    requires forall k :: k in keys ==> k in counts
    ensures |r| == |keys| && forall i :: 0 <= i < |keys| ==> r[i] == counts[keys[i]]
  {
    if keys == [] then [] else [counts[keys[0]]] + Values(keys[1..], counts)
  }

  lemma OccurrencesSnoc(init: seq<Stock>, last: Stock, q: string)
    ensures Occurrences(init + [last], q) == Occurrences(init, q) + (if QualityOf(last) == q then 1 else 0)
  {
    FilterAppend(HasQuality(q), init, [last]);
    assert [last][1..] == [];
  }

  /** A quality occurs exactly when some stock reports it. */
  lemma OccurrencesPositive(stocks: seq<Stock>, q: string)
    ensures Occurrences(stocks, q) > 0 <==> exists s :: s in stocks && QualityOf(s) == q
  {
    var r := Filter(HasQuality(q), stocks);
    if |r| > 0 {
      assert r[0] in r;
    }
    if exists s :: s in stocks && QualityOf(s) == q {
      var s :| s in stocks && QualityOf(s) == q;
      assert s in r;
    }
  }

  /** The key list has no repeats and names exactly the counted qualities. */
  lemma {:induction false} QualityTallyValid(stocks: seq<Stock>)
    ensures TallyValid(QualityTally(stocks))
  {
    if stocks != [] {
      var init := stocks[..|stocks| - 1];
      QualityTallyValid(init);
      var t := QualityTally(init);
      var q0 := QualityOf(stocks[|stocks| - 1]);
      if q0 !in t.counts {
        var keys := t.keys + [q0];
        forall i, j | 0 <= i < j < |keys| ensures keys[i] != keys[j] {
          if j == |keys| - 1 { assert keys[i] == t.keys[i]; assert keys[i] in t.keys; }
        }
      }
    }
  }

  /** A quality is a key exactly when it occurs, and its count is the
      number of stocks reporting it. */
  lemma {:induction false} QualityTallyCounts(stocks: seq<Stock>, q: string)
    ensures q in QualityTally(stocks).counts <==> Occurrences(stocks, q) > 0
    ensures q in QualityTally(stocks).counts ==> QualityTally(stocks).counts[q] == Occurrences(stocks, q)
  {
    if stocks != [] {
      var init, last := stocks[..|stocks| - 1], stocks[|stocks| - 1];
      QualityTallyCounts(init, q);
      assert stocks == init + [last];
      OccurrencesSnoc(init, last, q);
    }
  }

  /** The key list has no repeats; a quality is a key exactly when some
      stock reports it; and each count is the number of stocks reporting
      that quality. */
  lemma QualityTallyCorrect(stocks: seq<Stock>)
    ensures TallyValid(QualityTally(stocks))
    ensures forall q :: q in QualityTally(stocks).counts <==> exists s :: s in stocks && QualityOf(s) == q
    ensures forall q :: q in QualityTally(stocks).counts ==> QualityTally(stocks).counts[q] == Occurrences(stocks, q)
  {
    QualityTallyValid(stocks);
    forall q ensures (q in QualityTally(stocks).counts <==> exists s :: s in stocks && QualityOf(s) == q)
      && (q in QualityTally(stocks).counts ==> QualityTally(stocks).counts[q] == Occurrences(stocks, q))
    {
      QualityTallyCounts(stocks, q);
      OccurrencesPositive(stocks, q);
    }
  }

  lemma {:induction false} SumOverBump(keys: seq<string>, counts: map<string, nat>, q: string)
    requires NoDuplicates(keys) && q in keys && forall k :: k in keys ==> k in counts
    ensures Sum(Values(keys, counts[q := counts[q] + 1])) == Sum(Values(keys, counts)) + 1
  {
    var c2 := counts[q := counts[q] + 1];
    if keys[0] == q {
      assert q !in keys[1..] by {
        forall i | 0 <= i < |keys[1..]| ensures keys[1..][i] != q { assert keys[1..][i] == keys[i + 1]; }
      }
      ValuesUnchanged(keys[1..], counts, q);
    } else {
      assert NoDuplicates(keys[1..]) by {
        forall i, j | 0 <= i < j < |keys[1..]| ensures keys[1..][i] != keys[1..][j] {
          assert keys[1..][i] == keys[i + 1] && keys[1..][j] == keys[j + 1];
        }
      }
      SumOverBump(keys[1..], counts, q);
    }
  }

  lemma {:induction false} ValuesUnchanged(keys: seq<string>, counts: map<string, nat>, q: string)
    requires q !in keys && forall k :: k in keys ==> k in counts
    ensures Values(keys, counts[q := counts[q] + 1]) == Values(keys, counts)
    requires q in counts
  {
    if keys != [] {
      ValuesUnchanged(keys[1..], counts, q);
    }
  }

  lemma {:induction false} SumAppend(s: seq<nat>, x: nat)
    ensures Sum(s + [x]) == Sum(s) + x
  {
    if s != [] {
      assert (s + [x])[1..] == s[1..] + [x];
      SumAppend(s[1..], x);
    }
  }

  lemma {:induction false} ValuesAppend(keys: seq<string>, counts: map<string, nat>, q: string)
    requires q !in keys && forall k :: k in keys ==> k in counts
    ensures Values(keys + [q], counts[q := 1]) == Values(keys, counts) + [1]
  {
    if keys == [] {
      assert [q][1..] == [];
    } else {
      assert (keys + [q])[1..] == keys[1..] + [q];
      ValuesAppend(keys[1..], counts, q);
    }
  }

  /** The quality chart's values add up to the number of stocks. */
  lemma {:induction false} QualityTotal(stocks: seq<Stock>)
    ensures TallyValid(QualityTally(stocks))
    ensures Sum(Values(QualityTally(stocks).keys, QualityTally(stocks).counts)) == |stocks|
  {
    QualityTallyValid(stocks);
    if stocks != [] {
      var init := stocks[..|stocks| - 1];
      QualityTotal(init);
      assert QualityTally(stocks) == Bump(QualityTally(init), QualityOf(stocks[|stocks| - 1]));
      var t := QualityTally(init);
      var q := QualityOf(stocks[|stocks| - 1]);
      if q in t.counts {
        SumOverBump(t.keys, t.counts, q);
      } else {
        ValuesAppend(t.keys, t.counts, q);
        SumAppend(Values(t.keys, t.counts), 1);
      }
    }
  }

  /** `processQualityAnalysis`: one pass that bumps the counter of each
      stock's quality, adding the key the first time it is seen; then the
      keys and values in insertion order. */
  method QualityAnalysis(stocks: seq<Stock>) returns (labels: seq<string>, data: seq<nat>)
    ensures labels == QualityTally(stocks).keys
    ensures NoDuplicates(labels)
    ensures forall q :: q in labels <==> exists s :: s in stocks && QualityOf(s) == q
    ensures |data| == |labels| && forall i :: 0 <= i < |labels| ==> data[i] == Occurrences(stocks, labels[i])
    ensures Sum(data) == |stocks|
  {
    var keys: seq<string> := [];
    var counts: map<string, nat> := map[];
    var i := 0;
    while i < |stocks|
      invariant 0 <= i <= |stocks|
      invariant Tally(keys, counts) == QualityTally(stocks[..i])
    {
      var q := QualityOf(stocks[i]);
      assert stocks[..i + 1][..i] == stocks[..i];
      if q in counts {
        counts := counts[q := counts[q] + 1];
      } else {
        keys := keys + [q];
        counts := counts[q := 1];
      }
      i := i + 1;
    }
    assert stocks[..|stocks|] == stocks;
    QualityTallyCorrect(stocks);
    QualityTotal(stocks);
    labels := keys;
    data := Values(keys, counts);
  }

  // ---------------------------------------------------------------------
  // Inventory search and paging
  // ---------------------------------------------------------------------

  /** `field && field.toLowerCase().includes(term.toLowerCase())`. */
  predicate FieldMatches(field: string, term: string) {
    field != "" && Contains(Lower(field), Lower(term))
  }

  predicate Matches(d: Diamond, term: string) {
    term == "" ||
    FieldMatches(d.roughName, term) || FieldMatches(d.vepariName, term) ||
    FieldMatches(d.dalalName, term) || FieldMatches(d.quality, term) || FieldMatches(d.size, term)
  }

  /** `filteredInventoryData`. */
  function FilterInventory(ds: seq<Diamond>, term: string): (r: seq<Diamond>)
    ensures forall d :: d in r <==> d in ds && Matches(d, term)
    ensures |r| <= |ds|
  {
    Filter((d: Diamond) => Matches(d, term), ds)
  }

  /** An empty search keeps every record, in order. */
  lemma EmptySearchKeepsAll(ds: seq<Diamond>)
    ensures FilterInventory(ds, "") == ds
  {
    FilterKeepsAll((d: Diamond) => Matches(d, ""), ds);
  }

  lemma LowerIdempotent(s: string)
    ensures Lower(Lower(s)) == Lower(s)
  {
  }

  /** The search ignores the case of the term. */
  lemma SearchIgnoresTermCase(ds: seq<Diamond>, term: string)
    ensures FilterInventory(ds, Lower(term)) == FilterInventory(ds, term)
  {
    LowerIdempotent(term);
    assert Lower(term) == "" <==> term == "";
    forall i | 0 <= i < |ds| ensures Matches(ds[i], Lower(term)) == Matches(ds[i], term) {
      var d := ds[i];
      assert Lower(Lower(d.roughName)) == Lower(d.roughName);
    }
    FilterSame((d: Diamond) => Matches(d, Lower(term)), (d: Diamond) => Matches(d, term), ds);
  }

  /** JavaScript's `slice(start, end)`: negative positions count from the
      end, everything is clamped to the length, and an empty range gives []. */
  function JsSlice<T>(s: seq<T>, start: int, end: int): (r: seq<T>)
    ensures |r| <= |s|
  {
    var n := |s|;
    var a := if start < 0 then (if n + start < 0 then 0 else n + start) else (if start > n then n else start);
    var b := if end < 0 then (if n + end < 0 then 0 else n + end) else (if end > n then n else end);
    if a < b then s[a..b] else []
  }

  const ItemsPerPage := 10

  /** `paginatedInventoryData`. */
  function Page<T>(s: seq<T>, page: int): (r: seq<T>)
    ensures |r| <= ItemsPerPage
  {
    JsSlice(s, (page - 1) * ItemsPerPage, page * ItemsPerPage)
  }

  /** On a page from 1 on, the slice is the expected run of items; item k of
      the list is item k % 10 of page k / 10 + 1. */
  lemma PageContents<T>(s: seq<T>, page: int, k: nat)
    requires page >= 1 && (page - 1) * ItemsPerPage <= k < page * ItemsPerPage && k < |s|
    ensures |Page(s, page)| > k - (page - 1) * ItemsPerPage
    ensures Page(s, page)[k - (page - 1) * ItemsPerPage] == s[k]
  {
  }

  lemma EveryItemOnItsPage<T>(s: seq<T>, k: nat)
    requires k < |s|
    ensures |Page(s, k / ItemsPerPage + 1)| > k % ItemsPerPage
    ensures Page(s, k / ItemsPerPage + 1)[k % ItemsPerPage] == s[k]
  {
    PageContents(s, k / ItemsPerPage + 1, k);
  }

  /** Page 0, which the Next button can reach when nothing matches, shows
      nothing. */
  lemma PageZeroEmpty<T>(s: seq<T>)
    ensures Page(s, 0) == []
  {
  }

  /** `Math.ceil(n / itemsPerPage)`. */
  function PageCount(n: nat): (c: nat)
    ensures c * ItemsPerPage >= n && (c == 0 || (c - 1) * ItemsPerPage < n)
  {
    (n + ItemsPerPage - 1) / ItemsPerPage
  }

  function Max(a: int, b: int): int { if a >= b then a else b }
  function Min(a: int, b: int): int { if a <= b then a else b }

  class InventoryView {
    var inventoryData: seq<Diamond>
    var searchTerm: string
    var currentPage: int

    ghost predicate Valid()
      reads this
    {
      currentPage >= 0
    }

    constructor ()
      ensures Valid() && inventoryData == [] && searchTerm == "" && currentPage == 1
    {
      inventoryData := [];
      searchTerm := "";
      currentPage := 1;
    }

    function Filtered(): seq<Diamond>
      reads this
    {
      FilterInventory(inventoryData, searchTerm)
    }

    function Shown(): (r: seq<Diamond>)
      reads this
      ensures |r| <= ItemsPerPage
      ensures forall d :: d in r ==> d in inventoryData && Matches(d, searchTerm)
    {
      Page(Filtered(), currentPage)
    }

    method LoadInventory(reply: Outcome<seq<Diamond>>)
      requires Valid()
      modifies this`inventoryData
      ensures Valid()
      ensures inventoryData == if reply.Ok? then reply.payload else old(inventoryData)
    {
      if reply.Ok? {
        inventoryData := reply.payload;
      }
    }

    /** Typing in the search box also returns to the first page. */
    method Search(term: string)
      requires Valid()
      modifies this`searchTerm, this`currentPage
      ensures Valid() && searchTerm == term && currentPage == 1
    {
      searchTerm := term;
      currentPage := 1;
    }

    /** The Previous button is disabled on page 1; `Previous` can then only
        keep the page. */
    predicate PreviousDisabled()
      reads this
    {
      currentPage == 1
    }

    /** The Next button is disabled on the last page; `Next` can then only
        keep the page. */
    predicate NextDisabled()
      reads this
    {
      currentPage == PageCount(|Filtered()|)
    }

    /** Previous never goes below page 1. */
    method Previous()
      requires Valid()
      modifies this`currentPage
      ensures Valid()
      ensures currentPage == Max(old(currentPage) - 1, 1) && currentPage >= 1
      ensures old(PreviousDisabled()) ==> currentPage == old(currentPage)
    {
      currentPage := Max(currentPage - 1, 1);
    }

    /** Next never goes past the last page, which is page 0 when nothing
        matches. */
    method Next()
      requires Valid()
      modifies this`currentPage
      ensures Valid()
      ensures currentPage == Min(old(currentPage) + 1, PageCount(|Filtered()|))
      ensures currentPage <= PageCount(|Filtered()|)
      ensures old(NextDisabled()) ==> currentPage == old(currentPage)
    {
      currentPage := Min(currentPage + 1, PageCount(|Filtered()|));
    }
  }

  // ---------------------------------------------------------------------
  // Transactions and totals
  // ---------------------------------------------------------------------

  /** `(!transactionDate || tx.date === transactionDate) && (!transactionStatus || tx.status === transactionStatus)`. */
  predicate KeepTransaction(tx: Transaction, date: string, status: string) {
    (date == "" || tx.date == date) && (status == "" || tx.status == status)
  }

  function FilterTransactions(txs: seq<Transaction>, date: string, status: string): (r: seq<Transaction>)
    ensures forall tx :: tx in r <==> tx in txs && KeepTransaction(tx, date, status)
  {
    Filter((tx: Transaction) => KeepTransaction(tx, date, status), txs)
  }

  /** Filtering by both criteria is filtering by date and then by status. */
  lemma {:induction false} TransactionFilterComposes(txs: seq<Transaction>, date: string, status: string)
    ensures FilterTransactions(txs, date, status) == FilterTransactions(FilterTransactions(txs, date, ""), "", status)
  {
    if txs != [] {
      TransactionFilterComposes(txs[1..], date, status);
      var t, rest := txs[0], FilterTransactions(txs[1..], date, "");
      if KeepTransaction(t, date, "") {
        assert FilterTransactions(txs, date, "") == [t] + rest;
        assert ([t] + rest)[0] == t && ([t] + rest)[1..] == rest;
      } else {
        assert FilterTransactions(txs, date, "") == [] + rest == rest;
      }
    }
  }

  /** With neither filter set, every transaction is listed. */
  lemma NoTransactionFilterKeepsAll(txs: seq<Transaction>)
    ensures FilterTransactions(txs, "", "") == txs
  {
    FilterKeepsAll((tx: Transaction) => KeepTransaction(tx, "", ""), txs);
  }

  function OrZeroReal(x: Option<real>): real {
    if x.Some? then x.value else 0.0
  }

  /** The "Total Stock Weight" card: the remaining weights summed, a missing
      weight counting as 0. */
  function TotalRemaining(stocks: seq<Stock>): real {
    if stocks == [] then 0.0 else TotalRemaining(stocks[..|stocks| - 1]) + OrZeroReal(stocks[|stocks| - 1].remainingWeight)
  }

  /** The total over two lists is the sum of their totals. */
  lemma {:induction false} TotalRemainingAppend(a: seq<Stock>, b: seq<Stock>)
    ensures TotalRemaining(a + b) == TotalRemaining(a) + TotalRemaining(b)
    decreases |b|
  {
    if b != [] {
      assert (a + b)[..|a + b| - 1] == a + b[..|b| - 1];
      TotalRemainingAppend(a, b[..|b| - 1]);
    } else {
      assert a + b == a;
    }
  }

  /** With no negative weights the total is never negative. */
  lemma {:induction false} TotalRemainingNonNegative(stocks: seq<Stock>)
    requires forall i :: 0 <= i < |stocks| ==> OrZeroReal(stocks[i].remainingWeight) >= 0.0
    ensures TotalRemaining(stocks) >= 0.0
  {
    if stocks != [] {
      TotalRemainingNonNegative(stocks[..|stocks| - 1]);
    }
  }
}
