/** Result rows as the database layer returns them, and format_results, the
    bounded table renderer that turns them into text for the language model.
    The renderer appears twice in the source, in RAG/database.py and in
    RAG/sql_utils.py, with the same text; it is modelled once. */
module Rows {
  import opened Text

  /** One value of a result row: SQL NULL (Python's None), a datetime
      given by its date and time-of-day parts as Python writes them, or any
      other value as `str()` renders it. */
  datatype Value = Null | DateTime(date: string, time: string) | Scalar(text: string)

  /** `str(value)` for a value that is not None: a datetime is written
      with a space between date and time. */
  function Str(v: Value): string
    requires !v.Null?
  {
    match v
    case DateTime(date, time) => date + " " + time
    case Scalar(text) => text
  }

  /** One result row, a Python dict: its keys in insertion order and the
      value stored under each key. */
  datatype Row = Row(keys: seq<string>, values: map<string, Value>)

  const MaxRowsForLlm: nat := 15
  const NoResults := "Không có kết quả từ database."
  const ResultsTitle := "Results:\n"

  function Min(a: nat, b: nat): nat { if a < b then a else b }
  function Max(a: nat, b: nat): nat { if a < b then b else a }

  /** The text of one cell: 'NULL' for a missing key or a None value, the
      value's text otherwise, with every '|' turned into '-'. */
  function Cell(row: Row, column: string): (r: string)
    ensures '|' !in r
    ensures (column !in row.values || row.values[column].Null?) ==> r == "NULL"
  {
    var value := if column in row.values && !row.values[column].Null? then Str(row.values[column]) else "NULL";
    ReplaceChar(value, '|', '-')
  }

  function Cells(columns: seq<string>, row: Row): (r: seq<string>)
    ensures |r| == |columns|
  {
    seq(|columns|, i requires 0 <= i < |columns| => Cell(row, columns[i]))
  }

  /** The rule under one column: as many dashes as the column name is long,
      and at least three. */
  function Dashes(column: string): (r: string)
    ensures |r| == Max(|column|, 3) && forall k :: 0 <= k < |r| ==> r[k] == '-'
  {
    Repeat('-', Max(|column|, 3))
  }

  function HeaderLine(columns: seq<string>): string
  {
    "| " + Join(" | ", columns) + " |\n"
  }

  function SeparatorLine(columns: seq<string>): string
  {
    "|-" + Join("-|-", seq(|columns|, i requires 0 <= i < |columns| => Dashes(columns[i]))) + "-|\n"
  }

  function RowLine(columns: seq<string>, row: Row): string
  {
    "| " + Join(" | ", Cells(columns, row)) + " |\n"
  }

  /** The row lines of `rows`, in order. */
  function Body(columns: seq<string>, rows: seq<Row>): string
  {
    if rows == [] then "" else Body(columns, rows[..|rows| - 1]) + RowLine(columns, rows[|rows| - 1])
  }

  function Trailer(hidden: nat): string
  {
    "(... " + NatToString(hidden) + " hàng khác bị ẩn ...)\n"
  }

  /** What format_results renders: the first fifteen rows under the columns
      of the first row, then a line counting the rows left out. */
  function RenderTable(results: seq<Row>): string
  {
    if results == [] then NoResults
    else
      var shown := results[..Min(|results|, MaxRowsForLlm)];
      var columns := shown[0].keys;
      ResultsTitle + HeaderLine(columns) + SeparatorLine(columns) + Body(columns, shown)
        + (if |results| > MaxRowsForLlm then Trailer(|results| - MaxRowsForLlm) else "")
  }

  /** format_results: the title, the header and separator lines, the
      shown rows (AppendRows) and the trailer. */
  method FormatResults(results: seq<Row>) returns (formatted: string)
    ensures formatted == RenderTable(results)
  {
    if |results| == 0 {
      return NoResults;
    }
    var displayResults := results[..Min(|results|, MaxRowsForLlm)];
    var columns := displayResults[0].keys;
    var header := "| " + Join(" | ", columns) + " |\n";
    var separator := Separator(columns);
    formatted := AppendRows(ResultsTitle + header + separator, columns, displayResults);
    if |results| > MaxRowsForLlm {
      var trailer := "(... " + NatToString(|results| - MaxRowsForLlm) + " hàng khác bị ẩn ...)\n";
      formatted := formatted + trailer;
    }
  }

  /** The separator line of format_results, built from the column widths. */
  method Separator(columns: seq<string>) returns (separator: string)
    ensures separator == SeparatorLine(columns)
  {
    var colWidths := seq(|columns|, i requires 0 <= i < |columns| => Max(|columns[i]|, 3));
    var rules := seq(|colWidths|, i requires 0 <= i < |colWidths| => Repeat('-', colWidths[i]));
    assert rules == seq(|columns|, i requires 0 <= i < |columns| => Dashes(columns[i]));
    separator := "|-" + Join("-|-", rules) + "-|\n";
  }

  /** The loop of format_results over the shown rows: one line per row,
      in order, after `top`. */
  method AppendRows(top: string, columns: seq<string>, rows: seq<Row>) returns (formatted: string)
    ensures formatted == top + Body(columns, rows)
  {
    formatted := top;
    for r := 0 to |rows|
      invariant formatted == top + Body(columns, rows[..r])
    {
      var rowValues := RowValues(columns, rows[r]);
      assert rows[..r + 1][..r] == rows[..r];
      formatted := formatted + ("| " + Join(" | ", rowValues) + " |\n");
    }
    assert rows[..|rows|] == rows;
  }

  /** The inner loop of format_results: one cell per column of the first
      row, in column order. */
  method RowValues(columns: seq<string>, rowDict: Row) returns (rowValues: seq<string>)
    ensures rowValues == Cells(columns, rowDict)
  {
    rowValues := [];
    for c := 0 to |columns|
      invariant rowValues == Cells(columns, rowDict)[..c]
    {
      var column := columns[c];
      var value := if column in rowDict.values && !rowDict.values[column].Null? then Str(rowDict.values[column]) else "NULL";
      value := ReplaceChar(value, '|', '-');
      rowValues := rowValues + [value];
    }
  }

  /** An empty result gives the fixed message; anything else gives a table
      under the "Results:" title. */
  lemma RenderTableShape(results: seq<Row>)
    ensures results == [] <==> RenderTable(results) == NoResults
    ensures results != [] ==> StartsWith(RenderTable(results), ResultsTitle)
  {
    if results != [] {
      var r := RenderTable(results);
      StartsWithConcat(ResultsTitle, r[|ResultsTitle|..], ResultsTitle);
      assert r[0] == 'R' != NoResults[0];
    }
  }

  /** Only the first fifteen rows and the number of rows reach the text:
      two results that agree on those render the same. */
  lemma RenderTableIgnoresHiddenRows(a: seq<Row>, b: seq<Row>)
    requires |a| == |b|
    requires a[..Min(|a|, MaxRowsForLlm)] == b[..Min(|b|, MaxRowsForLlm)]
    ensures RenderTable(a) == RenderTable(b)
  {
  }

  /** The "(... k hàng khác bị ẩn ...)" line closes the text exactly when
      there are more than fifteen rows, with k the number left out. */
  lemma RenderTableTrailer(results: seq<Row>)
    ensures EndsWith(RenderTable(results), ")\n") <==> |results| > MaxRowsForLlm
    ensures |results| > MaxRowsForLlm ==> EndsWith(RenderTable(results), Trailer(|results| - MaxRowsForLlm))
  {
    if results == [] {
      assert NoResults[|NoResults| - 1] == '.';
    } else if |results| > MaxRowsForLlm {
      TrailerCloses(results);
    } else {
      TableWithoutTrailer(results);
    }
  }

  lemma TrailerCloses(results: seq<Row>)
    requires |results| > MaxRowsForLlm
    ensures EndsWith(RenderTable(results), ")\n")
    ensures EndsWith(RenderTable(results), Trailer(|results| - MaxRowsForLlm))
  {
    var shown := results[..MaxRowsForLlm];
    var columns := shown[0].keys;
    var front := ResultsTitle + HeaderLine(columns) + SeparatorLine(columns) + Body(columns, shown);
    var t := Trailer(|results| - MaxRowsForLlm);
    assert RenderTable(results) == front + t;
    EndsWithConcat(front, t, t);
    assert t[|t| - 2..] == ")\n";
    EndsWithConcat(front, t, ")\n");
  }

  /** Up to MaxRowsForLlm rows, every row is shown and the text ends with
      the last row line, with no "more rows" trailer. */
  lemma TableWithoutTrailer(results: seq<Row>)
    requires 0 < |results| <= MaxRowsForLlm
    ensures EndsWith(RenderTable(results), " |\n")
    ensures !EndsWith(RenderTable(results), ")\n")
  {
    var columns := results[0].keys;
    assert results[..Min(|results|, MaxRowsForLlm)] == results;
    var front := ResultsTitle + HeaderLine(columns) + SeparatorLine(columns);
    assert RenderTable(results) == front + Body(columns, results);
    BodyEndsWithBar(columns, results);
    EndsWithConcat(front, Body(columns, results), " |\n");
    var r := RenderTable(results);
    assert r[|r| - 3..] == " |\n";
    assert r[|r| - 2] == '|';
  }

  /** Every row line, so every non-empty body, ends with " |" and a line
      break. */
  lemma BodyEndsWithBar(columns: seq<string>, rows: seq<Row>)
    requires rows != []
    ensures EndsWith(Body(columns, rows), " |\n")
  {
    var line := RowLine(columns, rows[|rows| - 1]);
    assert line[|line| - 3..] == " |\n";
    EndsWithConcat(Body(columns, rows[..|rows| - 1]), line, " |\n");
  }
}
