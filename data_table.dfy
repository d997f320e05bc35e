/**
 * The generic data table of the front end: the rows matching the search box, their order when a
 * sortable column is chosen, the page shown, the blank rows that pad the last page, and the CSV
 * export of the sorted rows.
 */
module DataTable {
  import opened Common
  import opened Text

  /** A cell value: null (or absent), a number, or text. */
  datatype Cell = NullCell | Num(n: int) | TextCell(s: string)

  /** A row: its values by column id. */
  type Row = map<string, Cell>

  /** A column: its id, its caption (the label), whether it can be sorted on, and whether print and CSV skip it. */
  datatype HeadCell = HeadCell(id: string, caption: string, sortable: bool, hideInPrint: bool)

  datatype Order = Asc | Desc

  /** `String(value ?? '')`. */
  function CellText(c: Cell): string
  {
    match c
    case NullCell => ""
    case Num(n) => IntToString(n)
    case TextCell(s) => s
  }

  /** `row[col]`, where an absent column reads as null. */
  function ValueAt(row: Row, col: string): Cell
  {
    if col in row then row[col] else NullCell
  }

  /** Some value of the row, lower-cased, contains the lower-cased search text. */
  predicate RowMatches(row: Row, lowerSearch: string)
  {
    exists k :: k in row && Contains(Lower(CellText(row[k])), lowerSearch)
  }

  /**
   * filteredRows: every row for a search that is blank once trimmed; otherwise the rows with a
   * value containing the search text, compared in lower case, in their order.
   */
  function FilteredRows(rows: seq<Row>, search: string): (r: seq<Row>)
    ensures IsBlank(search) ==> r == rows
    ensures !IsBlank(search) ==> forall x :: x in r <==> x in rows && RowMatches(x, Lower(search))
    ensures !IsBlank(search) ==> forall x :: multiset(r)[x] == if RowMatches(x, Lower(search)) then multiset(rows)[x] else 0
  {
    if IsBlank(search) then rows
    else
      var r := Filter(rows, (row: Row) => RowMatches(row, Lower(search)));
      FilterCounts(rows, (row: Row) => RowMatches(row, Lower(search)));
      assert forall x :: x in r <==> multiset(r)[x] > 0;
      assert forall x :: x in rows <==> multiset(rows)[x] > 0;
      r
  }

  /** Searching two runs of rows keeps the first run's matches first. */
  lemma FilteredRowsKeepOrder(a: seq<Row>, b: seq<Row>, search: string)
    ensures FilteredRows(a + b, search) == FilteredRows(a, search) + FilteredRows(b, search)
  {
    if !IsBlank(search) {
      FilterKeepsOrder(a, b, (row: Row) => RowMatches(row, Lower(search)));
    }
  }

  /** A row with a value equal to the search text, in any case, is found. */
  lemma ExactValueFound(rows: seq<Row>, search: string, i: nat, col: string)
    requires i < |rows| && col in rows[i]
    requires Lower(CellText(rows[i][col])) == Lower(search)
    ensures rows[i] in FilteredRows(rows, search)
  {
    var t := Lower(search);
    assert OccursAt(t, t, 0) by { assert t[0..|t|] == t; }
    assert Contains(Lower(CellText(rows[i][col])), t);
  }

  /** isSortable: the first column with that id exists and has `sortable === true`. */
  predicate IsSortable(headCells: seq<HeadCell>, id: string)
  {
    exists i :: 0 <= i < |headCells| && headCells[i].id == id && headCells[i].sortable
      && forall j :: 0 <= j < i ==> headCells[j].id != id
  }

  /**
   * The comparator of sortedRows: positive when `a` goes after `b`. A null on the left goes
   * after, a null on the right before; two numbers compare by difference; anything else
   * compares as text.
   */
  function Compare(a: Row, b: Row, col: string, order: Order): (r: int)
    ensures ValueAt(a, col).NullCell? ==> r > 0
    ensures !ValueAt(a, col).NullCell? && ValueAt(b, col).NullCell? ==> r < 0
    ensures ValueAt(a, col).Num? && ValueAt(b, col).Num? ==>
      (r < 0 <==> if order == Asc then ValueAt(a, col).n < ValueAt(b, col).n else ValueAt(a, col).n > ValueAt(b, col).n)
    ensures ValueAt(a, col).TextCell? && ValueAt(b, col).TextCell? ==>
      && (r <= 0 <==> if order == Asc then LessEq(ValueAt(a, col).s, ValueAt(b, col).s) else LessEq(ValueAt(b, col).s, ValueAt(a, col).s))
      && (r == 0 <==> ValueAt(a, col).s == ValueAt(b, col).s)
  {
    var x, y := ValueAt(a, col), ValueAt(b, col);
    if x.NullCell? then 1
    else if y.NullCell? then -1
    else if x.Num? && y.Num? then (if order == Asc then x.n - y.n else y.n - x.n)
    else if order == Asc then CompareText(CellText(x), CellText(y))
    else CompareText(CellText(y), CellText(x))
  }

  /** Inserts a row before the first row it compares below, after rows it ties with. */
  function Insert(sorted: seq<Row>, x: Row, col: string, order: Order): (r: seq<Row>)
    ensures multiset(r) == multiset(sorted) + multiset{x}
  {
    if sorted == [] then [x]
    else if Compare(x, sorted[0], col, order) < 0 then [x] + sorted
    else
      assert sorted == [sorted[0]] + sorted[1..];
      [sorted[0]] + Insert(sorted[1..], x, col, order)
  }

  /** A stable sort by the comparator, each row inserted in turn. */
  function SortBy(rows: seq<Row>, col: string, order: Order): (r: seq<Row>)
    ensures multiset(r) == multiset(rows)
  {
    if rows == [] then []
    else
      assert rows == rows[..|rows| - 1] + [rows[|rows| - 1]];
      Insert(SortBy(rows[..|rows| - 1], col, order), rows[|rows| - 1], col, order)
  }

  /** sortedRows: the filtered rows as they are unless the chosen column is sortable. */
  function SortedRows(rows: seq<Row>, headCells: seq<HeadCell>, orderBy: string, order: Order): (r: seq<Row>)
    ensures multiset(r) == multiset(rows)
    ensures orderBy == "" || !IsSortable(headCells, orderBy) ==> r == rows
    ensures orderBy != "" && IsSortable(headCells, orderBy) ==> NullsLast(r, orderBy)
    ensures orderBy != "" && IsSortable(headCells, orderBy) && NumericColumn(rows, orderBy) ==> Ordered(r, orderBy, order)
    ensures orderBy != "" && IsSortable(headCells, orderBy) && TextColumn(rows, orderBy) ==> TextOrdered(r, orderBy, order)
  {
    if orderBy == "" || !IsSortable(headCells, orderBy) then rows
    else
      SortPutsNullsLast(rows, orderBy, order);
      if NumericColumn(rows, orderBy) && TextColumn(rows, orderBy) then
        SortOrdersNumbers(rows, orderBy, order);
        SortOrdersText(rows, orderBy, order);
        SortBy(rows, orderBy, order)
      else if NumericColumn(rows, orderBy) then
        SortOrdersNumbers(rows, orderBy, order);
        SortBy(rows, orderBy, order)
      else if TextColumn(rows, orderBy) then
        SortOrdersText(rows, orderBy, order);
        SortBy(rows, orderBy, order)
      else SortBy(rows, orderBy, order)
  }

  /** The column holds only numbers and nulls. */
  predicate NumericColumn(rows: seq<Row>, col: string)
  {
    forall i :: 0 <= i < |rows| ==> !ValueAt(rows[i], col).TextCell?
  }

  /** `a` may come before `b`: nulls only after nulls, numbers in the chosen direction. */
  predicate InOrder(a: Row, b: Row, col: string, order: Order)
  {
    var x, y := ValueAt(a, col), ValueAt(b, col);
    && (x.NullCell? ==> y.NullCell?)
    && (x.Num? && y.Num? ==> if order == Asc then x.n <= y.n else x.n >= y.n)
  }

  predicate Ordered(rows: seq<Row>, col: string, order: Order)
  {
    forall i, j :: 0 <= i < j < |rows| ==> InOrder(rows[i], rows[j], col, order)
  }

  /** Inserting into an ordered numeric column keeps it ordered. */
  lemma {:induction false} InsertKeepsOrdered(sorted: seq<Row>, x: Row, col: string, order: Order)
    requires NumericColumn(sorted, col) && !ValueAt(x, col).TextCell?
    requires Ordered(sorted, col, order)
    ensures Ordered(Insert(sorted, x, col, order), col, order)
  {
    var r := Insert(sorted, x, col, order);
    if sorted == [] {
    } else if Compare(x, sorted[0], col, order) < 0 {
      forall j | 1 <= j < |r|
        ensures InOrder(x, r[j], col, order)
      {
        assert r[j] == sorted[j - 1];
        if j > 1 {
          assert InOrder(sorted[0], sorted[j - 1], col, order);
        }
      }
    } else {
      var rest := Insert(sorted[1..], x, col, order);
      assert NumericColumn(sorted[1..], col);
      InsertKeepsOrdered(sorted[1..], x, col, order);
      HeadStaysFirst(sorted, x, col, order);
      forall i, j | 0 <= i < j < |r|
        ensures InOrder(r[i], r[j], col, order)
      {
        if i > 0 {
          assert r[i] == rest[i - 1] && r[j] == rest[j - 1];
        } else {
          assert r[j] == rest[j - 1];
        }
      }
    }
  }

  /** When a row is inserted after the first, the first may still precede every row after it. */
  lemma HeadStaysFirst(sorted: seq<Row>, x: Row, col: string, order: Order)
    requires NumericColumn(sorted, col) && !ValueAt(x, col).TextCell?
    requires Ordered(sorted, col, order)
    requires sorted != [] && Compare(x, sorted[0], col, order) >= 0
    ensures forall j :: 0 <= j < |Insert(sorted[1..], x, col, order)| ==>
      InOrder(sorted[0], Insert(sorted[1..], x, col, order)[j], col, order)
  {
    var rest := Insert(sorted[1..], x, col, order);
    forall j | 0 <= j < |rest|
      ensures InOrder(sorted[0], rest[j], col, order)
    {
      assert rest[j] in multiset(rest);
      if rest[j] != x {
        assert rest[j] in multiset(sorted[1..]);
        var k :| 0 <= k < |sorted[1..]| && sorted[1..][k] == rest[j];
        assert InOrder(sorted[0], sorted[k + 1], col, order);
      }
    }
  }

  /** Sorting a numeric column puts nulls last and the numbers in the chosen direction. */
  lemma {:induction false} SortOrdersNumbers(rows: seq<Row>, col: string, order: Order)
    requires NumericColumn(rows, col)
    ensures Ordered(SortBy(rows, col, order), col, order)
  {
    if rows != [] {
      var init := rows[..|rows| - 1];
      assert NumericColumn(init, col);
      SortOrdersNumbers(init, col, order);
      var s := SortBy(init, col, order);
      assert NumericColumn(s, col) by {
        forall i | 0 <= i < |s|
          ensures !ValueAt(s[i], col).TextCell?
        {
          assert s[i] in multiset(init);
          var k :| 0 <= k < |init| && init[k] == s[i];
        }
      }
      InsertKeepsOrdered(s, rows[|rows| - 1], col, order);
    }
  }

  /** The column holds only text and nulls. */
  predicate TextColumn(rows: seq<Row>, col: string)
  {
    forall i :: 0 <= i < |rows| ==> !ValueAt(rows[i], col).Num?
  }

  /** `a` may come before `b` in a text column: nulls only after nulls, texts in the chosen direction. */
  predicate InTextOrder(a: Row, b: Row, col: string, order: Order)
  {
    var x, y := ValueAt(a, col), ValueAt(b, col);
    && (x.NullCell? ==> y.NullCell?)
    && (x.TextCell? && y.TextCell? ==> if order == Asc then LessEq(x.s, y.s) else LessEq(y.s, x.s))
  }

  predicate TextOrdered(rows: seq<Row>, col: string, order: Order)
  {
    forall i, j :: 0 <= i < j < |rows| ==> InTextOrder(rows[i], rows[j], col, order)
  }

  /** Inserting into an ordered text column keeps it ordered. */
  lemma {:induction false} InsertKeepsTextOrdered(sorted: seq<Row>, x: Row, col: string, order: Order)
    requires TextColumn(sorted, col) && !ValueAt(x, col).Num?
    requires TextOrdered(sorted, col, order)
    ensures TextOrdered(Insert(sorted, x, col, order), col, order)
  {
    var r := Insert(sorted, x, col, order);
    if sorted == [] {
    } else if Compare(x, sorted[0], col, order) < 0 {
      forall j | 1 <= j < |r|
        ensures InTextOrder(x, r[j], col, order)
      {
        assert r[j] == sorted[j - 1];
        if j > 1 {
          assert InTextOrder(sorted[0], sorted[j - 1], col, order);
          if ValueAt(sorted[0], col).TextCell? && ValueAt(r[j], col).TextCell? {
            var a, b, c := ValueAt(x, col).s, ValueAt(sorted[0], col).s, ValueAt(r[j], col).s;
            if order == Asc { LessEqTrans(a, b, c); } else { LessEqTrans(c, b, a); }
          }
        }
      }
    } else {
      var rest := Insert(sorted[1..], x, col, order);
      assert TextColumn(sorted[1..], col);
      InsertKeepsTextOrdered(sorted[1..], x, col, order);
      HeadStaysFirstText(sorted, x, col, order);
      forall i, j | 0 <= i < j < |r|
        ensures InTextOrder(r[i], r[j], col, order)
      {
        if i > 0 {
          assert r[i] == rest[i - 1] && r[j] == rest[j - 1];
        } else {
          assert r[j] == rest[j - 1];
        }
      }
    }
  }

  /** In a text column, when a row is inserted after the first, the first may still precede every row after it. */
  lemma HeadStaysFirstText(sorted: seq<Row>, x: Row, col: string, order: Order)
    requires TextColumn(sorted, col) && !ValueAt(x, col).Num?
    requires TextOrdered(sorted, col, order)
    requires sorted != [] && Compare(x, sorted[0], col, order) >= 0
    ensures forall j :: 0 <= j < |Insert(sorted[1..], x, col, order)| ==>
      InTextOrder(sorted[0], Insert(sorted[1..], x, col, order)[j], col, order)
  {
    var rest := Insert(sorted[1..], x, col, order);
    assert InTextOrder(sorted[0], x, col, order) by {
      var h, v := ValueAt(sorted[0], col), ValueAt(x, col);
      if h.TextCell? && v.TextCell? {
        LessEqTotal(h.s, v.s);
        LessEqTotal(h.s, h.s);
      }
    }
    forall j | 0 <= j < |rest|
      ensures InTextOrder(sorted[0], rest[j], col, order)
    {
      assert rest[j] in multiset(rest);
      if rest[j] != x {
        assert rest[j] in multiset(sorted[1..]);
        var k :| 0 <= k < |sorted[1..]| && sorted[1..][k] == rest[j];
        assert InTextOrder(sorted[0], sorted[k + 1], col, order);
      }
    }
  }

  /** Sorting a text column puts nulls last and the texts in character order, reversed for a descending sort. */
  lemma {:induction false} SortOrdersText(rows: seq<Row>, col: string, order: Order)
    requires TextColumn(rows, col)
    ensures TextOrdered(SortBy(rows, col, order), col, order)
  {
    if rows != [] {
      var init := rows[..|rows| - 1];
      assert TextColumn(init, col);
      SortOrdersText(init, col, order);
      var s := SortBy(init, col, order);
      assert TextColumn(s, col) by {
        forall i | 0 <= i < |s|
          ensures !ValueAt(s[i], col).Num?
        {
          assert s[i] in multiset(init);
          var k :| 0 <= k < |init| && init[k] == s[i];
        }
      }
      InsertKeepsTextOrdered(s, rows[|rows| - 1], col, order);
    }
  }

  /** No null cell of the column comes before a non-null one. */
  predicate NullsLast(rows: seq<Row>, col: string)
  {
    forall i, j :: 0 <= i < j < |rows| && ValueAt(rows[i], col).NullCell? ==> ValueAt(rows[j], col).NullCell?
  }

  /** Inserting into a column whose nulls are last keeps them last, whatever else the column holds. */
  lemma {:induction false} InsertKeepsNullsLast(sorted: seq<Row>, x: Row, col: string, order: Order)
    requires NullsLast(sorted, col)
    ensures NullsLast(Insert(sorted, x, col, order), col)
  {
    if sorted == [] {
    } else if Compare(x, sorted[0], col, order) < 0 {
      ConsKeepsNullsLast(x, sorted, col);
    } else {
      assert NullsLast(sorted[1..], col);
      InsertKeepsNullsLast(sorted[1..], x, col, order);
      if ValueAt(sorted[0], col).NullCell? {
        NullHeadKeepsRestNull(sorted, x, col, order);
      }
      ConsKeepsNullsLast(sorted[0], Insert(sorted[1..], x, col, order), col);
    }
  }

  /** A row put in front keeps the nulls last when it is not null, or when everything behind it is null. */
  lemma ConsKeepsNullsLast(h: Row, rest: seq<Row>, col: string)
    requires NullsLast(rest, col)
    requires ValueAt(h, col).NullCell? ==> forall j :: 0 <= j < |rest| ==> ValueAt(rest[j], col).NullCell?
    ensures NullsLast([h] + rest, col)
  {
    var r := [h] + rest;
    forall i, j | 0 <= i < j < |r| && ValueAt(r[i], col).NullCell?
      ensures ValueAt(r[j], col).NullCell?
    {
      assert r[j] == rest[j - 1];
      if i > 0 {
        assert r[i] == rest[i - 1];
      }
    }
  }

  /** A row inserted after a null head is itself null, and so is everything after the head. */
  lemma NullHeadKeepsRestNull(sorted: seq<Row>, x: Row, col: string, order: Order)
    requires NullsLast(sorted, col)
    requires sorted != [] && ValueAt(sorted[0], col).NullCell? && Compare(x, sorted[0], col, order) >= 0
    ensures forall j :: 0 <= j < |Insert(sorted[1..], x, col, order)| ==>
      ValueAt(Insert(sorted[1..], x, col, order)[j], col).NullCell?
  {
    var rest := Insert(sorted[1..], x, col, order);
    forall j | 0 <= j < |rest|
      ensures ValueAt(rest[j], col).NullCell?
    {
      assert rest[j] in multiset(rest);
      if rest[j] != x {
        assert rest[j] in multiset(sorted[1..]);
        var k :| 0 <= k < |sorted[1..]| && sorted[1..][k] == rest[j];
        assert sorted[k + 1] == rest[j];
      }
    }
  }

  /** Sorting on any column, numbers, text or both, puts the nulls last. */
  lemma {:induction false} SortPutsNullsLast(rows: seq<Row>, col: string, order: Order)
    ensures NullsLast(SortBy(rows, col, order), col)
  {
    if rows != [] {
      SortPutsNullsLast(rows[..|rows| - 1], col, order);
      InsertKeepsNullsLast(SortBy(rows[..|rows| - 1], col, order), rows[|rows| - 1], col, order);
    }
  }

  /** `rows.slice(start, end)`: both ends clamped to the length. */
  function SliceRows(rows: seq<Row>, start: nat, end: nat): (r: seq<Row>)
    ensures start <= end <= |rows| ==> r == rows[start..end]
    ensures end <= start ==> r == []
    ensures |r| <= |rows|
  {
    var e := if end <= |rows| then end else |rows|;
    var b := if start <= e then start else e;
    rows[b..e]
  }

  /** The rows shown on a page: at most a page of them, starting at the page's first row. */
  function PageRows(rows: seq<Row>, page: nat, rowsPerPage: nat): (r: seq<Row>)
    ensures |r| <= rowsPerPage
    ensures (page + 1) * rowsPerPage <= |rows| ==> r == rows[page * rowsPerPage..(page + 1) * rowsPerPage]
    ensures page * rowsPerPage >= |rows| ==> r == []
    ensures forall i :: 0 <= i < |r| ==> page * rowsPerPage + i < |rows| && r[i] == rows[page * rowsPerPage + i]
  {
    SliceRows(rows, page * rowsPerPage, page * rowsPerPage + rowsPerPage)
  }

  /** emptyRows: none on the first page; otherwise the rows the table lacks to fill the page. */
  function EmptyRows(page: nat, rowsPerPage: nat, rowCount: nat): (r: nat)
    ensures page == 0 ==> r == 0
    ensures page > 0 && (page + 1) * rowsPerPage <= rowCount ==> r == 0
  {
    if page > 0 then MaxInt(0, (1 + page) * rowsPerPage - rowCount) else 0
  }

  /**
   * On a later page of an unfiltered table that starts within the rows, the rows shown and the
   * blank rows fill exactly one page.
   */
  lemma PageIsFilled(rows: seq<Row>, page: nat, rowsPerPage: nat)
    requires page > 0 && page * rowsPerPage <= |rows|
    ensures |PageRows(rows, page, rowsPerPage)| + EmptyRows(page, rowsPerPage, |rows|) == rowsPerPage
  {
  }

  /** The columns the CSV exports: those not hidden in print, in order. */
  function Exportable(headCells: seq<HeadCell>): (r: seq<HeadCell>)
    ensures forall h :: h in r <==> h in headCells && !h.hideInPrint
    ensures forall h :: multiset(r)[h] == if h.hideInPrint then 0 else multiset(headCells)[h]
    ensures |r| <= |headCells|
  {
    var r := Filter(headCells, (h: HeadCell) => !h.hideInPrint);
    FilterCounts(headCells, (h: HeadCell) => !h.hideInPrint);
    assert forall h :: h in r <==> multiset(r)[h] > 0;
    assert forall h :: h in headCells <==> multiset(headCells)[h] > 0;
    r
  }

  /** The exported columns of two runs of columns keep the first run's columns first. */
  lemma ExportableKeepsOrder(a: seq<HeadCell>, b: seq<HeadCell>)
    ensures Exportable(a + b) == Exportable(a) + Exportable(b)
  {
    FilterKeepsOrder(a, b, (h: HeadCell) => !h.hideInPrint);
  }

  /** Every '"' doubled. */
  function Escape(s: string): (r: string)
    ensures |r| >= |s|
  {
    if s == [] then [] else (if s[0] == '"' then "\"\"" else [s[0]]) + Escape(s[1..])
  }

  /** A field between quotes, every '"' in it doubled. */
  function QuotedCell(s: string): string
  {
    "\"" + Escape(s) + "\""
  }

  /** Reads the inside of a quoted field: a doubled quote is one quote; a lone quote is an error. */
  function Unescape(s: string): (r: Option<string>)
  {
    if s == [] then Some([])
    else if s[0] != '"' then (match Unescape(s[1..]) case Some(t) => Some([s[0]] + t) case None => None)
    else if |s| >= 2 && s[1] == '"' then (match Unescape(s[2..]) case Some(t) => Some("\"" + t) case None => None)
    else None
  }

  /** Reads a quoted field back. */
  function ParseQuoted(f: string): Option<string>
  {
    if |f| >= 2 && f[0] == '"' && f[|f| - 1] == '"' then Unescape(f[1..|f| - 1]) else None
  }

  /** Unescaping undoes escaping. */
  lemma {:induction false} EscapeRoundTrip(s: string)
    ensures Unescape(Escape(s)) == Some(s)
  {
    if s != [] {
      EscapeRoundTrip(s[1..]);
      var e := Escape(s);
      if s[0] == '"' {
        assert e == "\"\"" + Escape(s[1..]);
        assert e[2..] == Escape(s[1..]);
      } else {
        assert e[1..] == Escape(s[1..]);
      }
      assert s == [s[0]] + s[1..];
    }
  }

  /** Every data cell of the CSV reads back as the text of the value. */
  lemma CellRoundTrip(s: string)
    ensures ParseQuoted(QuotedCell(s)) == Some(s)
  {
    var f := QuotedCell(s);
    assert f[1..|f| - 1] == Escape(s);
    EscapeRoundTrip(s);
  }

  /** A header label is quoted as it is, without escaping. */
  function HeaderCell(caption: string): string
  {
    "\"" + caption + "\""
  }

  /** So a label holding a quote does not read back. */
  lemma HeaderQuoteBreaks()
    ensures ParseQuoted(HeaderCell("\"")) == None
  {
    var f := HeaderCell("\"");
    assert f[1..|f| - 1] == "\"";
  }

  /** The CSV line of one row: its exported cells, each quoted and escaped, joined with ','. */
  function DataLine(row: Row, columns: seq<HeadCell>): string
  {
    Join(seq(|columns|, i requires 0 <= i < |columns| => QuotedCell(CellText(ValueAt(row, columns[i].id)))), ",")
  }

  function HeaderLine(columns: seq<HeadCell>): string
  {
    Join(seq(|columns|, i requires 0 <= i < |columns| => HeaderCell(columns[i].caption)), ",")
  }

  /** The CSV lines: the header, then one line per sorted row. */
  function CsvLines(headCells: seq<HeadCell>, sortedRows: seq<Row>): (lines: seq<string>)
    ensures |lines| == 1 + |sortedRows|
    ensures lines[0] == HeaderLine(Exportable(headCells))
    ensures forall i :: 0 <= i < |sortedRows| ==> lines[i + 1] == DataLine(sortedRows[i], Exportable(headCells))
  {
    var columns := Exportable(headCells);
    [HeaderLine(columns)] + seq(|sortedRows|, i requires 0 <= i < |sortedRows| => DataLine(sortedRows[i], columns))
  }

  /** handleDownloadCSV's content: the lines joined with CR LF. */
  function Csv(headCells: seq<HeadCell>, sortedRows: seq<Row>): (r: string)
    ensures var header := HeaderLine(Exportable(headCells));
      && |header| <= |r| && r[..|header|] == header
      && (sortedRows == [] ==> r == header)
  {
    Join(CsvLines(headCells, sortedRows), "\r\n")
  }
}
