/**
 * The list view: the period's entries grouped by their date, the dates newest
 * first, and the hour, revenue and margin totals of each date.
 */
module ListViewComponent {
  import opened Lists
  import opened Sorting
  import opened CivilDate
  import opened Records
  import opened DailyWorkPage

  predicate DatedOn(e: WorkEntry, d: Date) { e.date == d }

  /** The entries of one date, in input order: what `entriesByDate[d]` should hold. */
  function EntriesOn(entries: seq<WorkEntry>, d: Date): seq<WorkEntry> {
    Filter(entries, e => DatedOn(e, d))
  }

  lemma EntriesOnSpec(entries: seq<WorkEntry>, d: Date)
    ensures forall e :: e in EntriesOn(entries, d) <==> e in entries && e.date == d
    ensures SubsequenceOf(EntriesOn(entries, d), entries)
  {
    FilterSpec(entries, e => DatedOn(e, d));
    FilterIsSubsequence(entries, e => DatedOn(e, d));
  }

  /** One more entry extends only the group of its own date. */
  lemma EntriesOnStep(entries: seq<WorkEntry>, i: int, d: Date)
    requires 0 <= i < |entries|
    ensures EntriesOn(entries[..i + 1], d) == EntriesOn(entries[..i], d) + (if entries[i].date == d then [entries[i]] else [])
  {
    assert entries[..i + 1][..i] == entries[..i];
  }

  /** The dates that occur in the entries. */
  function DatesOf(entries: seq<WorkEntry>): set<Date> {
    set k | 0 <= k < |entries| :: entries[k].date
  }

  predicate Distinct(s: seq<Date>) {
    forall a, b :: 0 <= a < b < |s| ==> s[a] != s[b]
  }

  /**
   * The `reduce` that builds `entriesByDate`: each entry is pushed onto the
   * group of its date, creating the group on the date's first entry.  `keys`
   * is `Object.keys` of the result, in the order the groups were created.
   */
  method GroupByDate(entries: seq<WorkEntry>) returns (groups: map<Date, seq<WorkEntry>>, keys: seq<Date>)
    ensures groups.Keys == DatesOf(entries)
    ensures forall d :: d in groups ==> groups[d] == EntriesOn(entries, d)
    ensures forall d :: d in groups <==> d in keys
    ensures Distinct(keys)
  {
    groups := map[];
    keys := [];
    var i := 0;
    while i < |entries|
      invariant 0 <= i <= |entries|
      invariant groups.Keys == DatesOf(entries[..i])
      invariant forall d :: d in groups ==> groups[d] == EntriesOn(entries[..i], d)
      invariant forall d :: d !in groups ==> EntriesOn(entries[..i], d) == []
      invariant forall d :: d in groups <==> d in keys
      invariant Distinct(keys)
    {
      var e := entries[i];
      if e.date !in groups {
        groups := groups[e.date := []];
        keys := keys + [e.date];
      }
      groups := groups[e.date := groups[e.date] + [e]];
      forall d
        ensures EntriesOn(entries[..i + 1], d) == EntriesOn(entries[..i], d) + (if e.date == d then [e] else [])
      {
        EntriesOnStep(entries, i, d);
      }
      DatesStep(entries, i);
      i := i + 1;
    }
    assert entries[..|entries|] == entries;
  }

  lemma DatesStep(entries: seq<WorkEntry>, i: int)
    requires 0 <= i < |entries|
    ensures DatesOf(entries[..i + 1]) == DatesOf(entries[..i]) + {entries[i].date}
  {
    var p, q := entries[..i], entries[..i + 1];
    forall d | d in DatesOf(q)
      ensures d in DatesOf(p) + {entries[i].date}
    {
      var k :| 0 <= k < |q| && q[k].date == d;
      if k < i {
        assert p[k] == q[k];
      }
    }
    forall d | d in DatesOf(p)
      ensures d in DatesOf(q)
    {
      var k :| 0 <= k < |p| && p[k].date == d;
      assert q[k] == p[k];
    }
    assert q[i] == entries[i];
  }

  /** `b.localeCompare(a)` on ISO dates: the later date first. */
  predicate DateGe(a: Date, b: Date) {
    OnOrBefore(b, a)
  }

  /** `sortedDates`: the group keys, newest first, each exactly once. */
  function SortedDates(keys: seq<Date>): (r: seq<Date>)
    ensures multiset(r) == multiset(keys)
    ensures Sorted(r, DateGe)
  {
    assert IsTotal(DateGe);
    SortBySorted(keys, DateGe);
    SortBy(keys, DateGe)
  }

  /** Σ over the groups of `keys` of a per-entry figure summed within each group. */
  function GroupSum(keys: seq<Date>, entries: seq<WorkEntry>, f: WorkEntry -> real): real
    decreases |keys|
  {
    if |keys| == 0 then 0.0
    else GroupSum(keys[..|keys| - 1], entries, f) + Sum(EntriesOn(entries, keys[|keys| - 1]), f)
  }

  /** Appending an entry adds its figure to the total once when its date is among the distinct keys, and not at all otherwise. */
  lemma {:induction false} GroupSumStep(keys: seq<Date>, entries: seq<WorkEntry>, x: WorkEntry, f: WorkEntry -> real)
    requires Distinct(keys)
    ensures GroupSum(keys, entries + [x], f) == GroupSum(keys, entries, f) + (if x.date in keys then f(x) else 0.0)
    decreases |keys|
  {
    if |keys| > 0 {
      var init, k := keys[..|keys| - 1], keys[|keys| - 1];
      assert Distinct(init);
      GroupSumStep(init, entries, x, f);
      assert (entries + [x])[..|entries|] == entries;
      var before := EntriesOn(entries, k);
      assert EntriesOn(entries + [x], k) == before + (if x.date == k then [x] else []);
      SumAppend(before, if x.date == k then [x] else [], f);
      assert x.date in keys <==> x.date in init || x.date == k;
      assert x.date == k ==> x.date !in init;
    }
  }

  lemma {:induction false} GroupSumEmpty(keys: seq<Date>, f: WorkEntry -> real)
    ensures GroupSum(keys, [], f) == 0.0
    decreases |keys|
  {
    if |keys| > 0 {
      GroupSumEmpty(keys[..|keys| - 1], f);
    }
  }

  /** Over keys that list every date once, the per-date totals add up to the period's total. */
  lemma {:induction false} GroupSumsToTotal(keys: seq<Date>, entries: seq<WorkEntry>, f: WorkEntry -> real)
    requires Distinct(keys)
    requires forall k :: 0 <= k < |entries| ==> entries[k].date in keys
    ensures GroupSum(keys, entries, f) == Sum(entries, f)
    decreases |entries|
  {
    if |entries| == 0 {
      GroupSumEmpty(keys, f);
    } else {
      var init, x := entries[..|entries| - 1], entries[|entries| - 1];
      assert entries == init + [x];
      GroupSumsToTotal(keys, init, f);
      GroupSumStep(keys, init, x, f);
    }
  }

  /** Σ of the group sizes over `keys`. */
  function GroupTotal(keys: seq<Date>, entries: seq<WorkEntry>): nat
    decreases |keys|
  {
    if |keys| == 0 then 0
    else GroupTotal(keys[..|keys| - 1], entries) + |EntriesOn(entries, keys[|keys| - 1])|
  }

  function One(e: WorkEntry): real { 1.0 }

  lemma {:induction false} SumOfOnes(s: seq<WorkEntry>)
    ensures Sum(s, One) == |s| as real
    decreases |s|
  {
    if |s| > 0 {
      SumOfOnes(s[..|s| - 1]);
    }
  }

  lemma {:induction false} GroupTotalCounts(keys: seq<Date>, entries: seq<WorkEntry>)
    ensures GroupTotal(keys, entries) as real == GroupSum(keys, entries, One)
    decreases |keys|
  {
    if |keys| > 0 {
      GroupTotalCounts(keys[..|keys| - 1], entries);
      SumOfOnes(EntriesOn(entries, keys[|keys| - 1]));
    }
  }

  /** Over keys that list every date once, the group sizes add up to the number of entries, the count the header shows. */
  lemma GroupSizesSumToCount(keys: seq<Date>, entries: seq<WorkEntry>)
    requires Distinct(keys)
    requires forall k :: 0 <= k < |entries| ==> entries[k].date in keys
    ensures GroupTotal(keys, entries) == |entries|
  {
    GroupTotalCounts(keys, entries);
    GroupSumsToTotal(keys, entries, One);
    SumOfOnes(entries);
  }

  /** `totalEntries === 1 ? 'entry' : 'entries'`. */
  function EntryWord(n: nat): (r: string)
    ensures r == "entry" <==> n == 1
  {
    if n == 1 then "entry" else "entries"
  }

  datatype DateTotals = DateTotals(totalHours: real, totalRevenue: real, totalMargin: real)

  /** `getDateTotals(entries)`: hours, revenue (`client_cost || override_cost || calculated_cost`) and revenue less calculated cost. */
  function GetDateTotals(entries: seq<WorkEntry>): (r: DateTotals)
    ensures r.totalMargin == r.totalRevenue - Sum(entries, EntryCalculatedCost)
  {
    var revenue := Sum(entries, EntryRevenue);
    DateTotals(Sum(entries, EntryHours), revenue, revenue - Sum(entries, EntryCalculatedCost))
  }

  /**
   * The per-date totals of the groups `GroupByDate` builds add up to the
   * period's figures on the page: each entry is counted under exactly one date.
   */
  lemma DateTotalsAddUp(keys: seq<Date>, entries: seq<WorkEntry>)
    requires Distinct(keys)
    requires forall k :: 0 <= k < |entries| ==> entries[k].date in keys
    ensures GroupSum(keys, entries, EntryHours) == CalculateStats(entries).totalHours
    ensures GroupSum(keys, entries, EntryRevenue) == CalculateStats(entries).totalRevenue
    ensures GroupSum(keys, entries, EntryRevenue) - GroupSum(keys, entries, EntryCalculatedCost) == CalculateStats(entries).totalMargin
  {
    GroupSumsToTotal(keys, entries, EntryHours);
    GroupSumsToTotal(keys, entries, EntryRevenue);
    GroupSumsToTotal(keys, entries, EntryCalculatedCost);
  }
}
