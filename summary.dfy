/**
 * The summary controller: daily and range totals over the caller's live
 * records inside a closed date window, and the transaction history that
 * merges both collections, newest first, and pages through it. None of it
 * changes the store.
 */
module Summary {
  import opened Common
  import opened Records
  import opened Ordering
  import opened Paging
  import opened Store

  const MISSING_DATE: string := "Please provide a date"
  const MISSING_RANGE: string := "Please provide start and end dates"

  function SumAmounts(s: seq<Entry>): real {
    if s == [] then 0.0 else s[0].amount + SumAmounts(s[1..])
  }

  lemma {:induction false} SumAppend(a: seq<Entry>, b: seq<Entry>)
    ensures SumAmounts(a + b) == SumAmounts(a) + SumAmounts(b)
  {
    if a == [] {
      assert a + b == b;
    } else {
      SumAppend(a[1..], b);
      assert (a + b)[0] == a[0] && (a + b)[1..] == a[1..] + b;
    }
  }

  /** A group stage with `_id: null`: the sum of `amount` and a count. */
  datatype Group = Group(total: real, count: nat)

  /** `$match` then `$group`: no group at all when nothing matches, otherwise exactly one. */
  function Aggregate(rs: seq<Entry>, q: Query): (r: seq<Group>)
    ensures |r| <= 1
    ensures r == [] <==> Select(rs, q) == []
    ensures r != [] ==> r[0].total == SumAmounts(Select(rs, q)) && r[0].count == |Select(rs, q)|
  {
    var matched := Select(rs, q);
    if matched == [] then [] else [Group(SumAmounts(matched), |matched|)]
  }

  /** `result.length > 0 ? result[0].total : 0`. */
  function TotalOf(g: seq<Group>): (r: real)
    ensures g == [] ==> r == 0.0
    ensures g != [] ==> r == g[0].total
  {
    if |g| > 0 then g[0].total else 0.0
  }

  /** `result.length > 0 ? result[0].count : 0`. */
  function CountOf(g: seq<Group>): (r: nat)
    ensures g == [] ==> r == 0
    ensures g != [] ==> r == g[0].count
  {
    if |g| > 0 then g[0].count else 0
  }

  /** The caller's live records dated inside `w`. */
  function InWindow(owner: UserId, w: Window): Query {
    Query(owner, Some(w), None)
  }

  datatype DailySummary = DailySummary(
    date: int,
    totalInflows: real,
    totalOutflows: real,
    netBalance: real,
    inflowCount: nat,
    outflowCount: nat,
    totalTransactions: nat)

  /**
   * getDailySummary: without a date, a 400; otherwise the sums and counts of
   * the caller's live inflows and outflows dated that day, zero when there
   * are none, their difference and the number of transactions.
   */
  function GetDailySummary(inflows: seq<Entry>, outflows: seq<Entry>, owner: UserId, date: Option<int>): (r: Result<DailySummary>)
    ensures date.None? <==> r == Err(BadRequest(MISSING_DATE))
    ensures date.Some? ==> r.Ok? && r.value.date == date.value
    ensures r.Ok? ==>
      var q := InWindow(owner, DayWindow(date.value));
      && r.value.totalInflows == SumAmounts(Select(inflows, q))
      && r.value.totalOutflows == SumAmounts(Select(outflows, q))
      && r.value.inflowCount == |Select(inflows, q)|
      && r.value.outflowCount == |Select(outflows, q)|
      && r.value.netBalance == r.value.totalInflows - r.value.totalOutflows
      && r.value.totalTransactions == r.value.inflowCount + r.value.outflowCount
  {
    if date.None? then Err(BadRequest(MISSING_DATE))
    else
      var q := InWindow(owner, DayWindow(date.value));
      var ins, outs := Aggregate(inflows, q), Aggregate(outflows, q);
      var totalInflows, totalOutflows := TotalOf(ins), TotalOf(outs);
      var inflowCount, outflowCount := CountOf(ins), CountOf(outs);
      Ok(DailySummary(date.value, totalInflows, totalOutflows, totalInflows - totalOutflows,
                      inflowCount, outflowCount, inflowCount + outflowCount))
  }

  datatype RangeSummary = RangeSummary(
    startDate: int,
    endDate: int,
    totalInflows: real,
    totalOutflows: real,
    netBalance: real)

  /**
   * getRangeSummary: without both bounds, a 400; otherwise the totals of the
   * caller's live records from the first moment of the start day to the last
   * moment of the end day, and their difference.
   */
  function GetRangeSummary(inflows: seq<Entry>, outflows: seq<Entry>, owner: UserId,
                           startDate: Option<int>, endDate: Option<int>): (r: Result<RangeSummary>)
    ensures (startDate.None? || endDate.None?) <==> r == Err(BadRequest(MISSING_RANGE))
    ensures startDate.Some? && endDate.Some? ==>
      r.Ok? && r.value.startDate == startDate.value && r.value.endDate == endDate.value
    ensures r.Ok? ==>
      var q := InWindow(owner, RangeWindow(startDate.value, endDate.value));
      && r.value.totalInflows == SumAmounts(Select(inflows, q))
      && r.value.totalOutflows == SumAmounts(Select(outflows, q))
      && r.value.netBalance == r.value.totalInflows - r.value.totalOutflows
  {
    if startDate.None? || endDate.None? then Err(BadRequest(MISSING_RANGE))
    else
      var q := InWindow(owner, RangeWindow(startDate.value, endDate.value));
      var totalInflows, totalOutflows := TotalOf(Aggregate(inflows, q)), TotalOf(Aggregate(outflows, q));
      Ok(RangeSummary(startDate.value, endDate.value, totalInflows, totalOutflows, totalInflows - totalOutflows))
  }

  /** The daily counts are the totals the list endpoints report for that day without a kind filter. */
  lemma DailyCountsMatchList(inflows: seq<Entry>, outflows: seq<Entry>, owner: UserId, day: int)
    ensures GetDailySummary(inflows, outflows, owner, Some(day)).value.inflowCount
            == List(inflows, owner, ListFilter(Some(day), None), None, None).total
    ensures GetDailySummary(inflows, outflows, owner, Some(day)).value.outflowCount
            == List(outflows, owner, ListFilter(Some(day), None), None, None).total
  {
  }

  /** A daily summary has the totals of the range that starts and ends on that day. */
  lemma DailyIsOneDayRange(inflows: seq<Entry>, outflows: seq<Entry>, owner: UserId, day: int)
    ensures var d := GetDailySummary(inflows, outflows, owner, Some(day)).value;
            var r := GetRangeSummary(inflows, outflows, owner, Some(day), Some(day)).value;
            d.totalInflows == r.totalInflows && d.totalOutflows == r.totalOutflows && d.netBalance == r.netBalance
  {
  }

  lemma EmptyWindowSelectsNothing(rs: seq<Entry>, q: Query)
    requires q.window.Some? && forall x :: !q.window.value.Contains(x)
    ensures Select(rs, q) == []
  {
  }

  /** A range whose start day comes after its end day matches nothing: zero totals, not an error. */
  lemma InvertedRangeIsZero(inflows: seq<Entry>, outflows: seq<Entry>, owner: UserId, startDate: int, endDate: int)
    requires DayStart(startDate) > DayStart(endDate)
    ensures GetRangeSummary(inflows, outflows, owner, Some(startDate), Some(endDate))
            == Ok(RangeSummary(startDate, endDate, 0.0, 0.0, 0.0))
  {
    var q := InWindow(owner, RangeWindow(startDate, endDate));
    EmptyWindowSelectsNothing(inflows, q);
    EmptyWindowSelectsNothing(outflows, q);
  }

  /** What the first record adds to a total and a count. */
  lemma SelectFirst(rs: seq<Entry>, q: Query)
    requires rs != []
    ensures SumAmounts(Select(rs, q)) == (if Matches(rs[0], q) then rs[0].amount else 0.0) + SumAmounts(Select(rs[1..], q))
    ensures |Select(rs, q)| == (if Matches(rs[0], q) then 1 else 0) + |Select(rs[1..], q)|
  {
    var head := if Matches(rs[0], q) then [rs[0]] else [];
    SumAppend(head, Select(rs[1..], q));
    if head != [] {
      assert head[1..] == [];
    }
  }

  /** Splitting a window in two splits its total and its count in two. */
  lemma {:induction false} WindowSplits(rs: seq<Entry>, owner: UserId, lo: int, mid: int, hi: int)
    requires lo - 1 <= mid <= hi
    ensures var whole, left, right := InWindow(owner, Window(lo, hi)), InWindow(owner, Window(lo, mid)),
                                      InWindow(owner, Window(mid + 1, hi));
            && SumAmounts(Select(rs, whole)) == SumAmounts(Select(rs, left)) + SumAmounts(Select(rs, right))
            && |Select(rs, whole)| == |Select(rs, left)| + |Select(rs, right)|
  {
    if rs != [] {
      var whole, left, right := InWindow(owner, Window(lo, hi)), InWindow(owner, Window(lo, mid)),
                                InWindow(owner, Window(mid + 1, hi));
      WindowSplits(rs[1..], owner, lo, mid, hi);
      SelectFirst(rs, whole);
      SelectFirst(rs, left);
      SelectFirst(rs, right);
    }
  }

  lemma NextDayStart(t: int)
    ensures DayStart(t + MS_PER_DAY) == DayStart(t) + MS_PER_DAY
  {
    SameDay(DayStart(t) + MS_PER_DAY, t + MS_PER_DAY);
  }

  /**
   * A range summary is the sum of the summaries of two consecutive ranges:
   * from the start day to a middle day, and from the day after it to the end
   * day.
   */
  lemma RangeSplits(inflows: seq<Entry>, outflows: seq<Entry>, owner: UserId, startDate: int, midDate: int, endDate: int)
    requires DayStart(startDate) <= DayStart(midDate) <= DayStart(endDate)
    ensures var whole := GetRangeSummary(inflows, outflows, owner, Some(startDate), Some(endDate)).value;
            var left := GetRangeSummary(inflows, outflows, owner, Some(startDate), Some(midDate)).value;
            var right := GetRangeSummary(inflows, outflows, owner, Some(midDate + MS_PER_DAY), Some(endDate)).value;
            && whole.totalInflows == left.totalInflows + right.totalInflows
            && whole.totalOutflows == left.totalOutflows + right.totalOutflows
            && whole.netBalance == left.netBalance + right.netBalance
  {
    NextDayStart(midDate);
    var lo, mid, hi := DayStart(startDate), DayStart(midDate) + MS_PER_DAY - 1, DayStart(endDate) + MS_PER_DAY - 1;
    assert RangeWindow(startDate, endDate) == Window(lo, hi);
    assert RangeWindow(startDate, midDate) == Window(lo, mid);
    assert RangeWindow(midDate + MS_PER_DAY, endDate) == Window(mid + 1, hi);
    WindowSplits(inflows, owner, lo, mid, hi);
    WindowSplits(outflows, owner, lo, mid, hi);
  }

  /**
   * Every stored amount being at least the schema minimum, a total is at
   * least that minimum times the count, and it is zero exactly when nothing
   * was counted.
   */
  lemma {:induction false} TotalBoundedByCount(t: RecordType, rs: seq<Entry>, q: Query)
    requires WellFormed(t, rs)
    ensures SumAmounts(Select(rs, q)) >= MIN_AMOUNT * (|Select(rs, q)| as real)
    ensures SumAmounts(Select(rs, q)) == 0.0 <==> |Select(rs, q)| == 0
  {
    var s := Select(rs, q);
    forall e | e in s ensures e.amount >= MIN_AMOUNT {
      var i :| 0 <= i < |rs| && rs[i] == e;
      assert Conforms(t, rs[i]);
    }
    SumAtLeast(s);
  }

  lemma {:induction false} SumAtLeast(s: seq<Entry>)
    requires forall e :: e in s ==> e.amount >= MIN_AMOUNT
    ensures SumAmounts(s) >= MIN_AMOUNT * (|s| as real)
  {
    if s != [] {
      assert s[0] in s;
      assert forall e :: e in s[1..] ==> e in s;
      SumAtLeast(s[1..]);
    }
  }

  /**
   * Soft-deleting a record lowers every total it was counted in by its
   * amount and every count by one, and leaves the others unchanged.
   */
  lemma {:induction false} DeleteLowersTotals(rs: seq<Entry>, i: nat, q: Query)
    requires i < |rs|
    ensures var after := Select(rs[i := SoftDelete(rs[i])], q);
            && SumAmounts(after) == SumAmounts(Select(rs, q)) - (if Matches(rs[i], q) then rs[i].amount else 0.0)
            && |after| == |Select(rs, q)| - (if Matches(rs[i], q) then 1 else 0)
  {
    var rs' := rs[i := SoftDelete(rs[i])];
    SelectFirst(rs, q);
    SelectFirst(rs', q);
    if i == 0 {
      assert rs'[1..] == rs[1..];
    } else {
      DeleteLowersTotals(rs[1..], i - 1, q);
      assert rs'[1..] == rs[1..][i - 1 := SoftDelete(rs[i])];
    }
  }

  /**
   * Creating a record raises exactly the totals it falls in by its amount,
   * so records of other owners, deleted ones and ones outside the window
   * never show up in a summary.
   */
  lemma CreateRaisesTotals(rs: seq<Entry>, e: Entry, q: Query)
    ensures SumAmounts(Select(rs + [e], q)) == SumAmounts(Select(rs, q)) + (if Matches(e, q) then e.amount else 0.0)
    ensures |Select(rs + [e], q)| == |Select(rs, q)| + (if Matches(e, q) then 1 else 0)
  {
    SelectAppend(rs, [e], q);
    SumAppend(Select(rs, q), Select([e], q));
    assert Select([e], q) == (if Matches(e, q) then [e] else []) + Select([], q);
  }

  // ---------------------------------------------------------------- history

  /** A history item: the record's fields, tagged with its type; the kind is the channel or the category. */
  datatype Txn = Txn(id: RecordId, recordType: RecordType, amount: real, date: int, kind: Kind, note: Option<string>)

  /** `{ type: 'inflow', ... }`: the record's own fields, with its payment channel. */
  function TagInflow(e: Entry): (x: Txn)
    ensures x.recordType == InflowType
    ensures x.id == e.id && x.amount == e.amount && x.date == e.date && x.kind == e.kind && x.note == e.note
  {
    Txn(e.id, InflowType, e.amount, e.date, e.kind, e.note)
  }

  /** `{ type: 'outflow', ... }`: the record's own fields, with its category. */
  function TagOutflow(e: Entry): (x: Txn)
    ensures x.recordType == OutflowType
    ensures x.id == e.id && x.amount == e.amount && x.date == e.date && x.kind == e.kind && x.note == e.note
  {
    Txn(e.id, OutflowType, e.amount, e.date, e.kind, e.note)
  }

  function TxnDate(x: Txn): int {
    x.date
  }

  /** Inflows come first in the merged array, before any outflow. */
  function TypeRank(x: Txn): int {
    if x.recordType == InflowType then 0 else 1
  }

  /**
   * Each collection's live records of the caller sorted newest first, tagged
   * and concatenated, inflows first, then the whole array sorted by date
   * with a stable sort.
   */
  function Merged(inflows: seq<Entry>, outflows: seq<Entry>, owner: UserId): (r: seq<Txn>)
    ensures |r| == |Select(inflows, Live(owner))| + |Select(outflows, Live(owner))|
    ensures SortedDesc(r, TxnDate)
  {
    var ins := SortDesc(Select(inflows, Live(owner)), EntryDate);
    var outs := SortDesc(Select(outflows, Live(owner)), EntryDate);
    SortDesc(Map(ins, TagInflow) + Map(outs, TagOutflow), TxnDate)
  }

  datatype History = History(transactions: seq<Txn>, total: nat, page: nat, pages: nat)

  const DEFAULT_HISTORY_LIMIT: nat := 20

  /**
   * getTransactionHistory: page `page` of `limit` (1 and 20 by default) of
   * the merged history, newest first; the total is the length of the whole
   * merged history.
   */
  function GetTransactionHistory(inflows: seq<Entry>, outflows: seq<Entry>, owner: UserId,
                                 page: Option<int>, limit: Option<int>): (r: History)
    requires ValidPaging(page, limit)
    ensures r.total == |Select(inflows, Live(owner))| + |Select(outflows, Live(owner))|
    ensures r.page == page.GetOr(DEFAULT_PAGE)
    ensures r.transactions == Slice(Merged(inflows, outflows, owner),
                                    Skip(page.GetOr(DEFAULT_PAGE), limit.GetOr(DEFAULT_HISTORY_LIMIT)),
                                    limit.GetOr(DEFAULT_HISTORY_LIMIT))
    ensures r.pages == PageCount(r.total, limit.GetOr(DEFAULT_HISTORY_LIMIT))
    ensures |r.transactions| <= limit.GetOr(DEFAULT_HISTORY_LIMIT)
    ensures SortedDesc(r.transactions, TxnDate)
  {
    var p: nat := page.GetOr(DEFAULT_PAGE);
    var l: nat := limit.GetOr(DEFAULT_HISTORY_LIMIT);
    var merged := Merged(inflows, outflows, owner);
    var items := Slice(merged, Skip(p, l), l);
    SortedPage(merged, TxnDate, Skip(p, l), l);
    History(items, |merged|, p, PageCount(|merged|, l))
  }

  /**
   * The merged history holds every live record of the caller from both
   * collections, each exactly once and tagged with its type, and nothing
   * else.
   */
  lemma HistoryHoldsEveryLiveRecord(inflows: seq<Entry>, outflows: seq<Entry>, owner: UserId)
    ensures multiset(Merged(inflows, outflows, owner))
            == multiset(Map(Select(inflows, Live(owner)), TagInflow)) + multiset(Map(Select(outflows, Live(owner)), TagOutflow))
  {
    var ins, outs := Select(inflows, Live(owner)), Select(outflows, Live(owner));
    SortCommutes(ins, TagInflow, EntryDate, TxnDate);
    SortCommutes(outs, TagOutflow, EntryDate, TxnDate);
  }

  /** The selected records of a well-formed collection conform to its schema. */
  lemma SelectionConforms(t: RecordType, rs: seq<Entry>, q: Query)
    requires WellFormed(t, rs)
    ensures forall e :: e in Select(rs, q) ==> Conforms(t, e)
  {
    forall e | e in Select(rs, q) ensures Conforms(t, e) {
      var i :| 0 <= i < |rs| && rs[i] == e;
    }
  }

  /** An inflow item carries a payment channel and an outflow item a category. */
  predicate TypedItem(x: Txn) {
    if x.recordType == InflowType then x.kind.ByChannel? else x.kind.ByCategory?
  }

  /** Tagging the conforming records of type `t` gives items of type `t` with that type's kind. */
  lemma SortedSelectionTyped(t: RecordType, rs: seq<Entry>, q: Query, f: Entry -> Txn)
    requires WellFormed(t, rs)
    requires forall e :: f(e).recordType == t && f(e).kind == e.kind
    ensures forall x :: x in Map(SortDesc(Select(rs, q), EntryDate), f) ==> TypedItem(x)
  {
    var sel := Select(rs, q);
    var sorted := SortDesc(sel, EntryDate);
    SelectionConforms(t, rs, q);
    forall x | x in Map(sorted, f) ensures TypedItem(x) {
      var k :| 0 <= k < |sorted| && Map(sorted, f)[k] == x;
      assert sorted[k] in multiset(sel);
      assert sorted[k] in sel;
      assert x == f(sorted[k]) && Fits(t, sorted[k].kind);
    }
  }

  /**
   * In a history built from well-formed collections, an inflow item carries
   * a payment channel and an outflow item a category.
   */
  lemma HistoryKeepsTypedFields(inflows: seq<Entry>, outflows: seq<Entry>, owner: UserId)
    requires WellFormed(InflowType, inflows) && WellFormed(OutflowType, outflows)
    ensures forall x :: x in Merged(inflows, outflows, owner) ==> TypedItem(x)
  {
    var a := Map(SortDesc(Select(inflows, Live(owner)), EntryDate), TagInflow);
    var b := Map(SortDesc(Select(outflows, Live(owner)), EntryDate), TagOutflow);
    SortedSelectionTyped(InflowType, inflows, Live(owner), TagInflow);
    SortedSelectionTyped(OutflowType, outflows, Live(owner), TagOutflow);
    forall x | x in Merged(inflows, outflows, owner) ensures TypedItem(x) {
      assert x in multiset(a + b);
    }
  }

  /** On equal dates the stable sort keeps inflows ahead of outflows. */
  lemma HistoryTiesInflowFirst(inflows: seq<Entry>, outflows: seq<Entry>, owner: UserId)
    ensures var m := Merged(inflows, outflows, owner);
            forall i, j :: 0 <= i < j < |m| && m[i].date == m[j].date ==>
              !(m[i].recordType == OutflowType && m[j].recordType == InflowType)
  {
    var ins := SortDesc(Select(inflows, Live(owner)), EntryDate);
    var outs := SortDesc(Select(outflows, Live(owner)), EntryDate);
    var a, b := Map(ins, TagInflow), Map(outs, TagOutflow);
    var joined := a + b;
    assert RankSorted(joined, TypeRank) by {
      forall i, j | 0 <= i < j < |joined| ensures TypeRank(joined[i]) <= TypeRank(joined[j]) {
        if i < |a| {
          assert joined[i] == a[i] == TagInflow(ins[i]);
        } else {
          assert joined[j] == b[j - |a|] == TagOutflow(outs[j - |a|]);
        }
      }
    }
    SortKeepsTieOrder(joined, TxnDate, TypeRank);
    var m := SortDesc(joined, TxnDate);
    forall i, j | 0 <= i < j < |m| && m[i].date == m[j].date
      ensures !(m[i].recordType == OutflowType && m[j].recordType == InflowType)
    {
      assert TxnDate(m[i]) == TxnDate(m[j]);
    }
  }

  /** A page after the last one is empty rather than an error. */
  lemma HistoryPastLastPage(inflows: seq<Entry>, outflows: seq<Entry>, owner: UserId, page: int, limit: Option<int>)
    requires page >= 1 && (limit.Some? ==> limit.value >= 1)
    requires page > GetTransactionHistory(inflows, outflows, owner, None, limit).pages
    ensures GetTransactionHistory(inflows, outflows, owner, Some(page), limit).transactions == []
  {
    PageBeyondEndIsEmpty(Merged(inflows, outflows, owner), page, limit.GetOr(DEFAULT_HISTORY_LIMIT));
  }

  /**
   * Item `skip + slot` of the merged history is item `slot` of the page that
   * starts at `skip`, and that page is within the reported page count, so
   * walking pages 1..pages visits the whole history in order.
   */
  lemma HistoryReachesEveryItem(inflows: seq<Entry>, outflows: seq<Entry>, owner: UserId,
                                page: nat, slot: nat, limit: Option<int>)
    requires page >= 1 && (limit.Some? ==> limit.value >= 1)
    requires slot < limit.GetOr(DEFAULT_HISTORY_LIMIT)
    requires Skip(page, limit.GetOr(DEFAULT_HISTORY_LIMIT)) + slot < |Merged(inflows, outflows, owner)|
    ensures var h := GetTransactionHistory(inflows, outflows, owner, Some(page), limit);
            && page <= h.pages
            && slot < |h.transactions|
            && h.transactions[slot] == Merged(inflows, outflows, owner)[Skip(page, limit.GetOr(DEFAULT_HISTORY_LIMIT)) + slot]
  {
    var l: nat := limit.GetOr(DEFAULT_HISTORY_LIMIT);
    PageAt(Merged(inflows, outflows, owner), page, slot, l);
  }
}
