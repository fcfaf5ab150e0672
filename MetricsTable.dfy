/**
 * The recent-runs table of the metrics page (frontend/src/pages/Metrics.tsx):
 * the model and status filters, the column sort and its header toggle, and the
 * list of statuses offered by the status filter.
 *
 * `new Date(s).getTime()` is a parameter. `localeCompare` is taken as the
 * code-point order of strings. `Array.prototype.sort` on the copy is the stable
 * sort of the Sorting module; the copy leaves the filtered list as it was.
 */
module MetricsTable {
  import opened Common
  import Strings
  import Sorting

  /** `RunListItem`, with the fields the table filters and sorts on. */
  datatype RunListItem = RunListItem(
    runId: string,
    status: string,
    model: string,
    latencyMs: Option<real>,
    costUsd: Option<real>,
    confidence: Option<real>,
    startedAt: Option<string>)

  datatype SortKey = StartedAt | LatencyMs | CostUsd | Confidence | Status | Model

  datatype SortDir = Asc | Desc

  /** The filter value that means "no filter". */
  const All := "all"

  // ---------------------------------------------------------------------------
  // Filtering

  /** `runs.filter((r) => r.model === model)` and `runs.filter((r) => r.status === status)`, with `field` the column read. */
  function WithField(runs: seq<RunListItem>, field: RunListItem -> string, value: string): (r: seq<RunListItem>)
    ensures forall x :: x in r <==> x in runs && field(x) == value
    ensures |r| <= |runs|
  {
    if |runs| == 0 then []
    else (if field(runs[0]) == value then [runs[0]] else []) + WithField(runs[1..], field, value)
  }

  function ModelOf(x: RunListItem): string { x.model }

  function StatusOf(x: RunListItem): string { x.status }

  /** Whether a run passes both filters, `"all"` letting every run through. */
  predicate Shown(x: RunListItem, filterModel: string, filterStatus: string)
  {
    (filterModel == All || x.model == filterModel) && (filterStatus == All || x.status == filterStatus)
  }

  /** `filteredRuns`: the fetched runs (none while loading), by model and then by status. */
  function FilteredRuns(data: Option<seq<RunListItem>>, filterModel: string, filterStatus: string)
    : (r: seq<RunListItem>)
    ensures forall x :: x in r <==> x in Listed(data) && Shown(x, filterModel, filterStatus)
    ensures filterModel == All && filterStatus == All ==> r == Listed(data)
  {
    var runs := Listed(data);
    var byModel := if filterModel != All then WithField(runs, ModelOf, filterModel) else runs;
    if filterStatus != All then WithField(byModel, StatusOf, filterStatus) else byModel
  }

  /** `recentRuns.data ?? []`. */
  function Listed(data: Option<seq<RunListItem>>): seq<RunListItem>
  {
    if data.Some? then data.value else []
  }

  /** Filtering keeps the order: it distributes over concatenation. */
  lemma {:induction false} WithFieldAppend(a: seq<RunListItem>, b: seq<RunListItem>, field: RunListItem -> string, value: string)
    ensures WithField(a + b, field, value) == WithField(a, field, value) + WithField(b, field, value)
  {
    if |a| > 0 {
      assert (a + b)[1..] == a[1..] + b;
      WithFieldAppend(a[1..], b, field, value);
    } else {
      assert a + b == b;
    }
  }

  /** The filtered list of a concatenation is the concatenation of the filtered lists, so the runs keep their order. */
  lemma FilteredRunsAppend(a: seq<RunListItem>, b: seq<RunListItem>, filterModel: string, filterStatus: string)
    ensures FilteredRuns(Some(a + b), filterModel, filterStatus) ==
            FilteredRuns(Some(a), filterModel, filterStatus) + FilteredRuns(Some(b), filterModel, filterStatus)
  {
    WithFieldAppend(a, b, ModelOf, filterModel);
    var ma := if filterModel != All then WithField(a, ModelOf, filterModel) else a;
    var mb := if filterModel != All then WithField(b, ModelOf, filterModel) else b;
    WithFieldAppend(ma, mb, StatusOf, filterStatus);
  }

  // ---------------------------------------------------------------------------
  // Sorting

  /** The numeric value a run sorts by: missing values are 0, and so is a missing or empty start time. */
  function NumKey(x: RunListItem, key: SortKey, timestamp: string -> real): (v: real)
  {
    match key
    case StartedAt => if x.startedAt.Some? && x.startedAt.value != "" then timestamp(x.startedAt.value) else 0.0
    case LatencyMs => if x.latencyMs.Some? then x.latencyMs.value else 0.0
    case CostUsd => if x.costUsd.Some? then x.costUsd.value else 0.0
    case Confidence => if x.confidence.Some? then x.confidence.value else 0.0
    case _ => 0.0
  }

  /** The text value a run sorts by, for the two string columns. */
  function TextKey(x: RunListItem, key: SortKey): string
  {
    if key == Status then x.status else x.model
  }

  /** `a.localeCompare(b)`, as code-point order: negative, zero or positive. */
  function LocaleCompare(a: string, b: string): (c: int)
    ensures c <= 0 <==> Strings.StrLe(a, b)
    ensures c == 0 ==> a == b
  {
    if Strings.StrLe(a, b) then (if a == b then 0 else -1) else 1
  }

  /** The comparator passed to `arr.sort`. */
  function Comparator(key: SortKey, dir: SortDir, timestamp: string -> real, a: RunListItem, b: RunListItem): real
  {
    if key == Status || key == Model then
      if dir == Asc then LocaleCompare(TextKey(a, key), TextKey(b, key)) as real
      else LocaleCompare(TextKey(b, key), TextKey(a, key)) as real
    else if dir == Asc then NumKey(a, key, timestamp) - NumKey(b, key, timestamp)
    else NumKey(b, key, timestamp) - NumKey(a, key, timestamp)
  }

  /** Swapping the two runs negates the comparator, so it never puts each run before the other. */
  lemma ComparatorAntisymmetric(key: SortKey, dir: SortDir, timestamp: string -> real, a: RunListItem, b: RunListItem)
    ensures Comparator(key, dir, timestamp, a, b) == -Comparator(key, dir, timestamp, b, a)
  {
    if key == Status || key == Model {
      var x, y := TextKey(a, key), TextKey(b, key);
      Strings.StrLeTotal(x, y);
      if Strings.StrLe(x, y) && Strings.StrLe(y, x) {
        Strings.StrLeAntisym(x, y);
      }
    }
  }

  /** `a` may come before `b`: the comparator does not put it after. */
  predicate Before(key: SortKey, dir: SortDir, timestamp: string -> real, a: RunListItem, b: RunListItem)
  {
    Comparator(key, dir, timestamp, a, b) <= 0.0
  }

  /** The order the comparator induces on runs, as a function value for the sort. */
  function Order(key: SortKey, dir: SortDir, timestamp: string -> real): (RunListItem, RunListItem) -> bool
  {
    (a, b) => Before(key, dir, timestamp, a, b)
  }

  /** The descending comparator is the ascending one with its arguments swapped. */
  lemma DescIsSwappedAsc(key: SortKey, timestamp: string -> real, a: RunListItem, b: RunListItem)
    ensures Comparator(key, Desc, timestamp, a, b) == Comparator(key, Asc, timestamp, b, a)
    ensures Before(key, Desc, timestamp, a, b) <==> Before(key, Asc, timestamp, b, a)
  {
  }

  /** Numbers compare numerically and strings in code-point order. */
  lemma BeforeMeans(key: SortKey, dir: SortDir, timestamp: string -> real, a: RunListItem, b: RunListItem)
    ensures (key == Status || key == Model) && dir == Asc ==>
      (Before(key, dir, timestamp, a, b) <==> Strings.StrLe(TextKey(a, key), TextKey(b, key)))
    ensures key != Status && key != Model && dir == Asc ==>
      (Before(key, dir, timestamp, a, b) <==> NumKey(a, key, timestamp) <= NumKey(b, key, timestamp))
  {
  }

  /** Every column's comparator is consistent: it orders any two runs, and its order chains. */
  lemma OrderTotal(key: SortKey, dir: SortDir, timestamp: string -> real)
    ensures Sorting.TotalPreorder(Order(key, dir, timestamp))
  {
    var le := Order(key, dir, timestamp);
    forall a, b ensures le(a, b) || le(b, a) {
      if key == Status || key == Model {
        Strings.StrLeTotal(TextKey(a, key), TextKey(b, key));
      }
    }
    forall a, b, c | le(a, b) && le(b, c) ensures le(a, c) {
      if key == Status || key == Model {
        if dir == Asc {
          Strings.StrLeTrans(TextKey(a, key), TextKey(b, key), TextKey(c, key));
        } else {
          Strings.StrLeTrans(TextKey(c, key), TextKey(b, key), TextKey(a, key));
        }
      }
    }
  }

  /** `sortedRuns`: a sorted copy of the filtered runs, each run kept as often as it occurs. */
  function SortedRuns(filtered: seq<RunListItem>, key: SortKey, dir: SortDir, timestamp: string -> real)
    : (r: seq<RunListItem>)
    ensures Sorting.SortedBy(r, Order(key, dir, timestamp))
    ensures multiset(r) == multiset(filtered)
    ensures |r| == |filtered|
    ensures forall y :: Sorting.Ties(r, y, Order(key, dir, timestamp)) == Sorting.Ties(filtered, y, Order(key, dir, timestamp))
  {
    OrderTotal(key, dir, timestamp);
    var le := Order(key, dir, timestamp);
    assert forall y :: Sorting.Ties(Sorting.Sort(filtered, le), y, le) == Sorting.Ties(filtered, y, le) by {
      forall y ensures Sorting.Ties(Sorting.Sort(filtered, le), y, le) == Sorting.Ties(filtered, y, le) {
        Sorting.SortStable(filtered, y, le);
      }
    }
    Sorting.Sort(filtered, le)
  }

  function Reverse<T>(s: seq<T>): (r: seq<T>)
    ensures |r| == |s| && forall i :: 0 <= i < |s| ==> r[i] == s[|s| - 1 - i]
  {
    if |s| == 0 then [] else Reverse(s[1..]) + [s[0]]
  }

  /** A list in descending order, read backwards, is in ascending order. */
  lemma DescReversedIsAsc(s: seq<RunListItem>, key: SortKey, timestamp: string -> real)
    requires Sorting.SortedBy(s, Order(key, Desc, timestamp))
    ensures Sorting.SortedBy(Reverse(s), Order(key, Asc, timestamp))
  {
    var r := Reverse(s);
    forall i, j | 0 <= i < j < |r| ensures Order(key, Asc, timestamp)(r[i], r[j]) {
      var n := |s| - 1;
      assert Order(key, Desc, timestamp)(s[n - j], s[n - i]);
      DescIsSwappedAsc(key, timestamp, s[n - j], s[n - i]);
    }
  }

  // ---------------------------------------------------------------------------
  // The status filter's choices

  function StatusList(runs: seq<RunListItem>): (r: seq<string>)
    ensures |r| == |runs| && forall i :: 0 <= i < |runs| ==> r[i] == runs[i].status
  {
    if |runs| == 0 then [] else [runs[0].status] + StatusList(runs[1..])
  }

  /** `statuses`: each status of the fetched runs once, in order of first appearance. */
  function Statuses(data: Option<seq<RunListItem>>): (r: seq<string>)
    ensures Sorting.NoDuplicates(r)
    ensures forall s :: s in r <==> exists i :: 0 <= i < |Listed(data)| && Listed(data)[i].status == s
  {
    var all := StatusList(Listed(data));
    Sorting.Distinct(all)
  }

  // ---------------------------------------------------------------------------
  // The column header toggle

  /** The sort after a click on a column header. */
  function NextSort(current: SortKey, dir: SortDir, key: SortKey): (r: (SortKey, SortDir))
    ensures r.0 == key
    ensures current == key ==> r.1 != dir
    ensures current != key ==> r.1 == Desc
  {
    if current == key then (key, if dir == Asc then Desc else Asc) else (key, Desc)
  }

  /** Two clicks on one header give back the direction it had on that column, or ascending on a new column. */
  lemma NextSortTwice(current: SortKey, dir: SortDir, key: SortKey)
    ensures var once := NextSort(current, dir, key);
      NextSort(once.0, once.1, key) == (key, if current == key then dir else Asc)
  {
  }

  /** The table's sort and filter state. */
  class MetricsPage {
    var sortKey: SortKey
    var sortDir: SortDir
    var filterModel: string
    var filterStatus: string

    constructor()
      ensures sortKey == StartedAt && sortDir == Desc && filterModel == All && filterStatus == All
    {
      sortKey := StartedAt;
      sortDir := Desc;
      filterModel := All;
      filterStatus := All;
    }

    /** `toggleSort`: the current column flips its direction; another column is selected, descending. */
    method ToggleSort(key: SortKey)
      modifies this
      ensures old(sortKey) == key ==> sortKey == key && sortDir != old(sortDir)
      ensures old(sortKey) != key ==> sortKey == key && sortDir == Desc
      ensures (sortKey, sortDir) == NextSort(old(sortKey), old(sortDir), key)
      ensures filterModel == old(filterModel) && filterStatus == old(filterStatus)
    {
      if sortKey == key {
        sortDir := if sortDir == Asc then Desc else Asc;
      } else {
        sortKey := key;
        sortDir := Desc;
      }
    }

    /** The table's rows: the fetched runs filtered, then sorted by the current column. */
    function Rows(data: Option<seq<RunListItem>>, timestamp: string -> real): (r: seq<RunListItem>)
      reads this
      ensures multiset(r) == multiset(FilteredRuns(data, filterModel, filterStatus))
      ensures forall x :: x in r <==> x in Listed(data) && Shown(x, filterModel, filterStatus)
      ensures Sorting.SortedBy(r, Order(sortKey, sortDir, timestamp))
      ensures forall y ::
        Sorting.Ties(r, y, Order(sortKey, sortDir, timestamp)) ==
        Sorting.Ties(FilteredRuns(data, filterModel, filterStatus), y, Order(sortKey, sortDir, timestamp))
    {
      var filtered := FilteredRuns(data, filterModel, filterStatus);
      var r := SortedRuns(filtered, sortKey, sortDir, timestamp);
      assert forall x :: x in r <==> x in multiset(r);
      assert forall x :: x in filtered <==> x in multiset(filtered);
      r
    }
  }
}
