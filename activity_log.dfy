/** The activity-log table of page.tsx: rows ordered by one column with a
    stable sort, a four-part filter, a date reformatting, and the pagination
    state (order, ordered column, page, rows per page, filters). */
module ActivityLog {
  import opened Common

  /** One log row; every row has all seven columns. */
  datatype Row = Row(id: string, timestamp: string, userSystem: string, action: string,
                     location: string, status: string, additionalDetails: string)

  /** The columns a header cell can order by, plus `id`. */
  datatype Column = Id | Timestamp | UserSystem | Action | Location | Status | AdditionalDetails

  datatype Order = Asc | Desc

  /** `row[orderBy]` */
  function Cell(row: Row, col: Column): string {
    match col
    case Id => row.id
    case Timestamp => row.timestamp
    case UserSystem => row.userSystem
    case Action => row.action
    case Location => row.location
    case Status => row.status
    case AdditionalDetails => row.additionalDetails
  }

  // ------------------------------------------------------------------ string order

  /** JavaScript's `<` on strings: lexicographic by character code. */
  predicate LexLess(a: string, b: string) {
    if a == [] then b != []
    else if b == [] then false
    else if a[0] != b[0] then a[0] < b[0]
    else LexLess(a[1..], b[1..])
  }

  lemma {:induction false} LexLessIrreflexive(a: string)
    ensures !LexLess(a, a)
  {
    if a != [] {
      LexLessIrreflexive(a[1..]);
    }
  }

  lemma {:induction false} LexLessTransitive(a: string, b: string, c: string)
    requires LexLess(a, b) && LexLess(b, c)
    ensures LexLess(a, c)
  {
    if a != [] && b != [] && c != [] && a[0] == b[0] && b[0] == c[0] {
      LexLessTransitive(a[1..], b[1..], c[1..]);
    }
  }

  lemma {:induction false} LexLessTotal(a: string, b: string)
    ensures a == b || LexLess(a, b) || LexLess(b, a)
  {
    if a != [] && b != [] && a[0] == b[0] {
      LexLessTotal(a[1..], b[1..]);
      if a[1..] == b[1..] {
        assert a == [a[0]] + a[1..] && b == [b[0]] + b[1..];
      }
    }
  }

  lemma {:induction false} LexLessAsymmetric(a: string, b: string)
    requires LexLess(a, b)
    ensures !LexLess(b, a)
  {
    if a != [] && b != [] && a[0] == b[0] {
      LexLessAsymmetric(a[1..], b[1..]);
    }
  }

  // ------------------------------------------------------------------ comparators

  /** `descendingComparator`: -1 puts `a` first when its cell is the greater one. */
  function DescendingComparator(a: Row, b: Row, orderBy: Column): (r: int)
    ensures r == -1 <==> LexLess(Cell(b, orderBy), Cell(a, orderBy))
    ensures r == 1 <==> LexLess(Cell(a, orderBy), Cell(b, orderBy))
    ensures r == 0 <==> Cell(a, orderBy) == Cell(b, orderBy)
  {
    LexLessTotal(Cell(a, orderBy), Cell(b, orderBy));
    LexLessIrreflexive(Cell(a, orderBy));
    if LexLess(Cell(b, orderBy), Cell(a, orderBy)) then
      LexLessAsymmetric(Cell(b, orderBy), Cell(a, orderBy));
      -1
    else if LexLess(Cell(a, orderBy), Cell(b, orderBy)) then 1
    else 0
  }

  /** `getComparator(order, orderBy)` applied to two rows: the ascending comparator is the negation. */
  function Compare(order: Order, orderBy: Column, a: Row, b: Row): int {
    if order == Desc then DescendingComparator(a, b, orderBy) else -DescendingComparator(a, b, orderBy)
  }

  /** `getComparator` as the function value the table passes to `stableSort`. */
  function GetComparator(order: Order, orderBy: Column): (cmp: (Row, Row) -> int)
    ensures forall a, b :: cmp(a, b) == Compare(order, orderBy, a, b)
  {
    (a, b) => Compare(order, orderBy, a, b)
  }

  /** The ascending comparator puts the smaller cell first, the descending one the greater. */
  lemma CompareMeaning(order: Order, orderBy: Column, a: Row, b: Row)
    ensures Compare(order, orderBy, a, b) < 0 <==>
      (if order == Asc then LexLess(Cell(a, orderBy), Cell(b, orderBy)) else LexLess(Cell(b, orderBy), Cell(a, orderBy)))
    ensures Compare(order, orderBy, a, b) == 0 <==> Cell(a, orderBy) == Cell(b, orderBy)
    ensures Compare(order, orderBy, a, b) == -Compare(order, orderBy, b, a)
  {
  }

  // ------------------------------------------------------------------ stable sort

  /** An element of `stabilizedThis`: the row and its position in the input. */
  datatype Tagged = Tagged(el: Row, index: nat)

  function Decorate(rows: seq<Row>): (t: seq<Tagged>)
    ensures |t| == |rows|
    ensures forall i :: 0 <= i < |t| ==> t[i] == Tagged(rows[i], i)
  {
    seq(|rows|, i requires 0 <= i < |rows| => Tagged(rows[i], i))
  }

  function Strip(t: seq<Tagged>): (rows: seq<Row>)
    ensures |rows| == |t|
    ensures forall i :: 0 <= i < |t| ==> rows[i] == t[i].el
  {
    seq(|t|, i requires 0 <= i < |t| => t[i].el)
  }

  /** The comparator handed to `stabilizedThis.sort`, as "x goes before y":
      the row comparator, with the original position breaking ties. */
  predicate Before(order: Order, orderBy: Column, x: Tagged, y: Tagged) {
    var k := Compare(order, orderBy, x.el, y.el);
    k < 0 || (k == 0 && x.index < y.index)
  }

  lemma BeforeTransitive(order: Order, orderBy: Column, x: Tagged, y: Tagged, z: Tagged)
    requires Before(order, orderBy, x, y) && Before(order, orderBy, y, z)
    ensures Before(order, orderBy, x, z)
  {
    var a, b, c := Cell(x.el, orderBy), Cell(y.el, orderBy), Cell(z.el, orderBy);
    CompareMeaning(order, orderBy, x.el, y.el);
    CompareMeaning(order, orderBy, y.el, z.el);
    CompareMeaning(order, orderBy, x.el, z.el);
    if a != b && b != c {
      if order == Asc { LexLessTransitive(a, b, c); } else { LexLessTransitive(c, b, a); }
    }
  }

  lemma BeforeTotal(order: Order, orderBy: Column, x: Tagged, y: Tagged)
    requires x.index != y.index
    ensures Before(order, orderBy, x, y) || Before(order, orderBy, y, x)
  {
    CompareMeaning(order, orderBy, x.el, y.el);
  }

  ghost predicate SortedBy(order: Order, orderBy: Column, t: seq<Tagged>) {
    forall i, j :: 0 <= i < j < |t| ==> Before(order, orderBy, t[i], t[j])
  }

  /** Insert one tagged row into an ordered sequence. */
  function Insert(order: Order, orderBy: Column, x: Tagged, t: seq<Tagged>): (r: seq<Tagged>)
    ensures multiset(r) == multiset(t) + multiset{x}
  {
    if t == [] then [x]
    else if Before(order, orderBy, x, t[0]) then [x] + t
    else
      assert t == [t[0]] + t[1..];
      [t[0]] + Insert(order, orderBy, x, t[1..])
  }

  /** The sort applied to `stabilizedThis` (its result does not depend on the
      algorithm, since `Before` is a strict total order on distinct positions). */
  function SortTagged(order: Order, orderBy: Column, t: seq<Tagged>): (r: seq<Tagged>)
    ensures multiset(r) == multiset(t)
  {
    if t == [] then []
    else
      assert t == [t[0]] + t[1..];
      Insert(order, orderBy, t[0], SortTagged(order, orderBy, t[1..]))
  }

  /** `stableSort(array, getComparator(order, orderBy))` */
  function StableSort(rows: seq<Row>, order: Order, orderBy: Column): seq<Row> {
    Strip(SortTagged(order, orderBy, Decorate(rows)))
  }

  /** A row before every row of an ordered sequence can go in front of it. */
  lemma ConsSorted(order: Order, orderBy: Column, y: Tagged, t: seq<Tagged>)
    requires SortedBy(order, orderBy, t)
    requires forall j :: 0 <= j < |t| ==> Before(order, orderBy, y, t[j])
    ensures SortedBy(order, orderBy, [y] + t)
  {
    var s := [y] + t;
    forall i, j | 0 <= i < j < |s|
      ensures Before(order, orderBy, s[i], s[j])
    {
      assert s[j] == t[j - 1];
      if i > 0 {
        assert s[i] == t[i - 1];
      }
    }
  }

  lemma TailSorted(order: Order, orderBy: Column, t: seq<Tagged>)
    requires t != [] && SortedBy(order, orderBy, t)
    ensures SortedBy(order, orderBy, t[1..])
  {
    forall i, j | 0 <= i < j < |t[1..]|
      ensures Before(order, orderBy, t[1..][i], t[1..][j])
    {
      assert t[1..][i] == t[i + 1] && t[1..][j] == t[j + 1];
    }
  }

  lemma {:induction false} InsertSorted(order: Order, orderBy: Column, x: Tagged, t: seq<Tagged>)
    requires SortedBy(order, orderBy, t)
    requires forall y :: y in t ==> y.index != x.index
    ensures SortedBy(order, orderBy, Insert(order, orderBy, x, t))
  {
    if t != [] {
      if Before(order, orderBy, x, t[0]) {
        forall j | 0 <= j < |t|
          ensures Before(order, orderBy, x, t[j])
        {
          if j > 0 {
            BeforeTransitive(order, orderBy, x, t[0], t[j]);
          }
        }
        ConsSorted(order, orderBy, x, t);
      } else {
        BeforeTotal(order, orderBy, x, t[0]);
        TailSorted(order, orderBy, t);
        assert forall y :: y in t[1..] ==> y in t;
        InsertSorted(order, orderBy, x, t[1..]);
        var rest := Insert(order, orderBy, x, t[1..]);
        forall j | 0 <= j < |rest|
          ensures Before(order, orderBy, t[0], rest[j])
        {
          assert rest[j] in multiset(rest);
          if rest[j] != x {
            assert rest[j] in multiset(t[1..]);
            var k :| 0 <= k < |t[1..]| && t[1..][k] == rest[j];
            assert t[k + 1] == rest[j];
          }
        }
        ConsSorted(order, orderBy, t[0], rest);
      }
    }
  }

  lemma {:induction false} SortTaggedSorted(order: Order, orderBy: Column, t: seq<Tagged>)
    requires forall i, j :: 0 <= i < j < |t| ==> t[i].index != t[j].index
    ensures SortedBy(order, orderBy, SortTagged(order, orderBy, t))
  {
    if t != [] {
      SortTaggedSorted(order, orderBy, t[1..]);
      var rest := SortTagged(order, orderBy, t[1..]);
      forall y | y in rest
        ensures y.index != t[0].index
      {
        assert y in multiset(t[1..]);
      }
      InsertSorted(order, orderBy, t[0], rest);
    }
  }

  /** `stableSort` returns a permutation of its input, ordered by the
      comparator, with rows that compare equal kept in their input order. The
      sorted tagged sequence `t` is the witness: it is a rearrangement of the
      positions of `rows` and strips to the result. */
  lemma StableSortCorrect(rows: seq<Row>, order: Order, orderBy: Column)
    ensures var t := SortTagged(order, orderBy, Decorate(rows));
      && multiset(StableSort(rows, order, orderBy)) == multiset(rows)
      && StableSort(rows, order, orderBy) == Strip(t)
      && (forall i :: 0 <= i < |t| ==> t[i].index < |rows| && t[i].el == rows[t[i].index])
      && (forall i, j :: 0 <= i < j < |t| ==>
            Compare(order, orderBy, t[i].el, t[j].el) <= 0
            && (Compare(order, orderBy, t[i].el, t[j].el) == 0 ==> t[i].index < t[j].index))
  {
    var d := Decorate(rows);
    var t := SortTagged(order, orderBy, d);
    SortTaggedSorted(order, orderBy, d);
    forall i | 0 <= i < |t|
      ensures t[i].index < |rows| && t[i].el == rows[t[i].index]
    {
      assert t[i] in multiset(d);
    }
    StripSort(order, orderBy, d);
    assert Strip(d) == rows;
  }

  lemma StripCons(x: Tagged, t: seq<Tagged>)
    ensures multiset(Strip([x] + t)) == multiset{x.el} + multiset(Strip(t))
  {
    assert Strip([x] + t) == [x.el] + Strip(t);
  }

  lemma {:induction false} StripInsert(order: Order, orderBy: Column, x: Tagged, t: seq<Tagged>)
    ensures multiset(Strip(Insert(order, orderBy, x, t))) == multiset(Strip(t)) + multiset{x.el}
  {
    if t == [] {
      assert Strip([x]) == [x.el];
    } else if Before(order, orderBy, x, t[0]) {
      StripCons(x, t);
    } else {
      var r := Insert(order, orderBy, x, t[1..]);
      StripInsert(order, orderBy, x, t[1..]);
      StripCons(t[0], r);
      StripFirst(t);
    }
  }

  lemma StripFirst(t: seq<Tagged>)
    requires t != []
    ensures multiset(Strip(t)) == multiset{t[0].el} + multiset(Strip(t[1..]))
  {
    assert Strip(t) == [t[0].el] + Strip(t[1..]);
  }

  lemma {:induction false} StripSort(order: Order, orderBy: Column, t: seq<Tagged>)
    ensures multiset(Strip(SortTagged(order, orderBy, t))) == multiset(Strip(t))
  {
    if t != [] {
      var s := SortTagged(order, orderBy, t[1..]);
      StripSort(order, orderBy, t[1..]);
      StripInsert(order, orderBy, t[0], s);
      StripFirst(t);
    }
  }

  // ------------------------------------------------------------------ filtering

  /** The local `formatDate`: the text before the first space, split on `/`,
      reassembled as year-month-day; a missing part renders as `undefined`. */
  function FormatDate(timestamp: string): string {
    var datePart := Split(timestamp, ' ')[0];
    var parts := Split(datePart, '/');
    var day := parts[0];
    var month := if |parts| > 1 then parts[1] else "undefined";
    var year := if |parts| > 2 then parts[2] else "undefined";
    year + "-" + month + "-" + day
  }

  /** `dd/mm/yyyy hh:mm` becomes `yyyy-mm-dd`. */
  lemma FormatDateOfLayout(d: string, m: string, y: string, time: string)
    requires Lacks(d, '/') && Lacks(m, '/') && Lacks(y, '/')
    requires Lacks(d, ' ') && Lacks(m, ' ') && Lacks(y, ' ')
    ensures FormatDate(d + "/" + m + "/" + y + " " + time) == y + "-" + m + "-" + d
  {
    var date := d + "/" + m + "/" + y;
    assert Lacks(date, ' ') by {
      assert forall i :: 0 <= i < |date| ==> date[i] == (if i < |d| then d[i] else if i == |d| then '/' else if i < |d| + 1 + |m| then m[i - |d| - 1] else if i == |d| + 1 + |m| then '/' else y[i - |d| - |m| - 2]);
    }
    SplitAt(date, ' ', time);
    assert d + "/" + m + "/" + y + " " + time == date + [' '] + time;
    SplitAt(d, '/', m + "/" + y);
    assert date == d + ['/'] + (m + "/" + y);
    SplitAt(m, '/', y);
    assert m + "/" + y == m + ['/'] + y;
    SplitWhole(y, '/');
  }

  /** The four filter inputs; the empty text disables a filter. */
  datatype Filters = Filters(user: string, activity: string, status: string, date: string)

  const NoFilters: Filters := Filters("", "", "", "")

  /** The predicate `filteredRows` keeps rows by. */
  predicate Matches(row: Row, f: Filters) {
    (f.user == "" || Contains(Lower(row.userSystem), Lower(f.user)))
    && (f.activity == "" || row.action == f.activity)
    && (f.status == "" || row.status == f.status)
    && (f.date == "" || FormatDate(row.timestamp) == f.date)
  }

  /** `filteredRows` */
  function FilterRows(rows: seq<Row>, f: Filters): (r: seq<Row>)
    ensures |r| <= |rows|
    ensures forall x :: x in r ==> x in rows && Matches(x, f)
  {
    if rows == [] then []
    else (if Matches(rows[0], f) then [rows[0]] else []) + FilterRows(rows[1..], f)
  }

  /** Every matching row is kept. */
  lemma {:induction false} FilterRowsComplete(rows: seq<Row>, f: Filters, x: Row)
    requires x in rows && Matches(x, f)
    ensures x in FilterRows(rows, f)
  {
    if rows[0] != x {
      FilterRowsComplete(rows[1..], f, x);
    }
  }

  /** Filtering keeps the input order: it distributes over concatenation. */
  lemma {:induction false} FilterRowsAppend(a: seq<Row>, b: seq<Row>, f: Filters)
    ensures FilterRows(a + b, f) == FilterRows(a, f) + FilterRows(b, f)
  {
    if a == [] {
      assert a + b == b;
    } else {
      assert (a + b)[1..] == a[1..] + b;
      FilterRowsAppend(a[1..], b, f);
    }
  }

  /** With all four filters empty every row is kept. */
  lemma {:induction false} NoFiltersKeepAll(rows: seq<Row>)
    ensures FilterRows(rows, NoFilters) == rows
  {
    if rows != [] {
      NoFiltersKeepAll(rows[1..]);
    }
  }

  // ------------------------------------------------------------------ pagination

  /** `array.slice(start, end)` for non-negative bounds. */
  function Slice(s: seq<Row>, start: nat, end: nat): (r: seq<Row>)
    ensures |r| == if start < |s| && start < end then (if end < |s| then end else |s|) - start else 0
    ensures forall i :: 0 <= i < |r| ==> start + i < |s| && r[i] == s[start + i]
  {
    if start >= |s| || end <= start then []
    else s[start..if end < |s| then end else |s|]
  }

  /** The rows the table body shows. */
  function Visible(sorted: seq<Row>, page: nat, rowsPerPage: nat): seq<Row> {
    Slice(sorted, page * rowsPerPage, page * rowsPerPage + rowsPerPage)
  }

  /** `emptyRows` */
  function EmptyRows(page: nat, rowsPerPage: nat, count: nat): (r: nat)
    ensures r >= (1 + page) * rowsPerPage - count
    ensures r == 0 || r == (1 + page) * rowsPerPage - count
  {
    if (1 + page) * rowsPerPage - count > 0 then (1 + page) * rowsPerPage - count else 0
  }

  /** A page holds at most `rowsPerPage` rows, and on a page that starts inside
      the data the shown rows and the padding rows together fill the page. */
  lemma PageIsFilled(sorted: seq<Row>, page: nat, rowsPerPage: nat)
    ensures |Visible(sorted, page, rowsPerPage)| <= rowsPerPage
    ensures page * rowsPerPage < |sorted| ==>
      |Visible(sorted, page, rowsPerPage)| + EmptyRows(page, rowsPerPage, |sorted|) == rowsPerPage
  {
    if page * rowsPerPage < |sorted| {
      assert (1 + page) * rowsPerPage == page * rowsPerPage + rowsPerPage;
    }
  }

  /** The `page` passed to the pager. */
  function DisplayedPage(count: nat, page: nat, rowsPerPage: nat): (r: nat)
    ensures r == page || r == 0
  {
    if count <= page * rowsPerPage && page > 0 then 0 else page
  }

  /** The pager falls back to page 0 exactly when a later page starts beyond the data. */
  lemma DisplayedPageInRange(count: nat, page: nat, rowsPerPage: nat)
    ensures DisplayedPage(count, page, rowsPerPage) == page <==> page == 0 || page * rowsPerPage < count
  {
  }

  /** `handleRequestSort`: the order and column after a click on `property`. */
  function NextSort(order: Order, orderBy: Column, property: Column): (r: (Order, Column))
    ensures r.1 == property
    ensures r.0 == Desc <==> orderBy == property && order == Asc
  {
    (if orderBy == property && order == Asc then Desc else Asc, property)
  }

  /** Clicking one column again and again alternates its direction. */
  lemma SortToggles(order: Order, orderBy: Column, property: Column)
    ensures var first := NextSort(order, orderBy, property);
      var second := NextSort(first.0, first.1, property);
      second.1 == property && second.0 != first.0
  {
  }

  /** The state of `EnhancedTable`. */
  class Table {
    var order: Order
    var orderBy: Column
    var page: nat
    var rowsPerPage: nat
    var filters: Filters

    constructor ()
      ensures order == Asc && orderBy == Timestamp && page == 0 && rowsPerPage == 6 && filters == NoFilters
    {
      order := Asc;
      orderBy := Timestamp;
      page := 0;
      rowsPerPage := 6;
      filters := NoFilters;
    }

    /** The rows of the current page, from the full list of log rows. */
    function Shown(rows: seq<Row>): seq<Row>
      reads this
    {
      Visible(StableSort(FilterRows(rows, filters), order, orderBy), page, rowsPerPage)
    }

    method HandleRequestSort(property: Column)
      modifies this`order, this`orderBy
      ensures (order, orderBy) == NextSort(old(order), old(orderBy), property)
    {
      var isAsc := orderBy == property && order == Asc;
      order := if isAsc then Desc else Asc;
      orderBy := property;
    }

    method HandleChangePage(newPage: nat)
      modifies this`page
      ensures page == newPage
    {
      page := newPage;
    }

    /** `handleChangeRowsPerPage`: a new page size starts again at page 0. */
    method HandleChangeRowsPerPage(newRowsPerPage: nat)
      modifies this`rowsPerPage, this`page
      ensures rowsPerPage == newRowsPerPage && page == 0
    {
      rowsPerPage := newRowsPerPage;
      page := 0;
    }

    /** A filter edit followed by the effect that resets the page. */
    method SetFilters(f: Filters)
      modifies this`filters, this`page
      ensures filters == f && page == 0
    {
      filters := f;
      page := 0;
    }
  }
}
