/**
 * The CSV text both chart components export: each row's cells joined by
 * ",", the rows joined by "\n", a header row `Month,<title>` first.
 * Nothing is quoted or escaped, so the text can be read back only when no
 * cell holds a comma or a line break.
 */
module Csv {
  import opened Series

  /** The cells joined by sep, as Array.prototype.join does: no cells give "". */
  function Join(cells: seq<string>, sep: char): (r: string)
    ensures |cells| == 1 ==> r == cells[0]
  {
    if |cells| == 0 then ""
    else if |cells| == 1 then cells[0]
    else cells[0] + [sep] + Join(cells[1..], sep)
  }

  /** The inverse of Join: cut at every sep, as String.prototype.split does; "" gives [""]. */
  function Split(s: string, sep: char): (r: seq<string>)
    ensures |r| >= 1
  {
    if |s| == 0 then [""]
    else if s[0] == sep then [""] + Split(s[1..], sep)
    else var rest := Split(s[1..], sep); [[s[0]] + rest[0]] + rest[1..]
  }

  /** Text without the separator is one piece. */
  lemma {:induction false} SplitWithoutSeparator(s: string, sep: char)
    requires sep !in s
    ensures Split(s, sep) == [s]
  {
    if |s| > 0 {
      SplitWithoutSeparator(s[1..], sep);
      assert [s[0]] + s[1..] == s;
    }
  }

  /** Splitting stops at the first separator. */
  lemma {:induction false} SplitAtSeparator(a: string, b: string, sep: char)
    requires sep !in a
    ensures Split(a + [sep] + b, sep) == [a] + Split(b, sep)
  {
    if |a| == 0 {
      assert a + [sep] + b == [sep] + b;
    } else {
      var t := a + [sep] + b;
      SplitAtSeparator(a[1..], b, sep);
      assert t[0] == a[0] && t[1..] == a[1..] + [sep] + b;
      assert [a[0]] + a[1..] == a;
    }
  }

  /** Join then Split gives the cells back when no cell holds the separator. */
  lemma {:induction false} SplitJoin(cells: seq<string>, sep: char)
    requires |cells| >= 1
    requires forall i :: 0 <= i < |cells| ==> sep !in cells[i]
    ensures Split(Join(cells, sep), sep) == cells
  {
    if |cells| == 1 {
      SplitWithoutSeparator(cells[0], sep);
    } else {
      SplitJoin(cells[1..], sep);
      SplitAtSeparator(cells[0], Join(cells[1..], sep), sep);
      assert [cells[0]] + cells[1..] == cells;
    }
  }

  /** A character that is neither the separator nor in any cell is not in the joined text. */
  lemma {:induction false} JoinAvoids(cells: seq<string>, sep: char, c: char)
    requires c != sep
    requires forall i :: 0 <= i < |cells| ==> c !in cells[i]
    ensures c !in Join(cells, sep)
  {
    if |cells| > 1 {
      JoinAvoids(cells[1..], sep, c);
    }
  }

  /** The joined text starts with the first cell. */
  lemma JoinStartsWithFirst(cells: seq<string>, sep: char)
    requires |cells| >= 1
    ensures cells[0] <= Join(cells, sep)
  {
  }

  /** Each row joined with ",": the `.map((row) => row.join(","))` step. */
  function Lines(rows: seq<seq<string>>): (r: seq<string>)
    ensures |r| == |rows|
    ensures forall i :: 0 <= i < |rows| ==> r[i] == Join(rows[i], ',')
  {
    seq(|rows|, i requires 0 <= i < |rows| => Join(rows[i], ','))
  }

  /** The whole text: the lines joined with "\n", no line break after the last. */
  function Table(rows: seq<seq<string>>): string
  {
    Join(Lines(rows), '\n')
  }

  /** No cell holds a comma or a line break. */
  predicate PlainCells(rows: seq<seq<string>>)
  {
    forall i, j :: 0 <= i < |rows| && 0 <= j < |rows[i]| ==> ',' !in rows[i][j] && '\n' !in rows[i][j]
  }

  /**
   * A table of plain cells reads back: its text splits into one line per
   * row, and each line splits into that row's cells.
   */
  lemma TableReadsBack(rows: seq<seq<string>>)
    requires |rows| >= 1 && PlainCells(rows)
    requires forall i :: 0 <= i < |rows| ==> |rows[i]| >= 1
    ensures Split(Table(rows), '\n') == Lines(rows)
    ensures forall i :: 0 <= i < |rows| ==> Split(Lines(rows)[i], ',') == rows[i]
  {
    var lines := Lines(rows);
    forall i | 0 <= i < |rows|
      ensures '\n' !in lines[i] && Split(lines[i], ',') == rows[i]
    {
      JoinAvoids(rows[i], ',', '\n');
      SplitJoin(rows[i], ',');
    }
    SplitJoin(lines, '\n');
  }

  /** The rows of a chart export: the header, then one month/value row per point. */
  function ExportRows(title: string, points: seq<Point>, show: real -> string): (r: seq<seq<string>>)
    ensures |r| == |points| + 1
    ensures r[0] == ["Month", title]
    ensures forall i :: 0 <= i < |points| ==> r[i + 1] == [points[i].month, show(points[i].value)]
  {
    [["Month", title]] + seq(|points|, i requires 0 <= i < |points| => [points[i].month, show(points[i].value)])
  }

  /** The CSV text of a chart; `show` is how the page turns a number into text. */
  function Export(title: string, points: seq<Point>, show: real -> string): string
  {
    Table(ExportRows(title, points, show))
  }

  /** The text always begins with "Month," and the title, whatever the cells hold. */
  lemma ExportStartsWithHeader(title: string, points: seq<Point>, show: real -> string)
    ensures "Month," + title <= Export(title, points, show)
  {
    var rows := ExportRows(title, points, show);
    assert Lines(rows)[0] == "Month," + title;
    JoinStartsWithFirst(Lines(rows), '\n');
  }

  /**
   * With plain title, months and numbers the text reads back as |points| + 1
   * lines: the header, then month,value for each point in order.
   */
  lemma ExportReadsBack(title: string, points: seq<Point>, show: real -> string)
    requires ',' !in title && '\n' !in title
    requires forall i :: 0 <= i < |points| ==> ',' !in points[i].month && '\n' !in points[i].month
    requires forall i :: 0 <= i < |points| ==> ',' !in show(points[i].value) && '\n' !in show(points[i].value)
    ensures |Split(Export(title, points, show), '\n')| == |points| + 1
    ensures Split(Export(title, points, show), '\n')[0] == "Month," + title
    ensures forall i :: 0 <= i < |points| ==>
      Split(Export(title, points, show), '\n')[i + 1] == points[i].month + "," + show(points[i].value)
    ensures forall i :: 0 <= i < |points| ==>
      Split(Split(Export(title, points, show), '\n')[i + 1], ',') == [points[i].month, show(points[i].value)]
  {
    var rows := ExportRows(title, points, show);
    assert PlainCells(rows) by {
      forall i, j | 0 <= i < |rows| && 0 <= j < |rows[i]|
        ensures ',' !in rows[i][j] && '\n' !in rows[i][j]
      {
        if i > 0 {
          assert rows[i] == [points[i - 1].month, show(points[i - 1].value)];
        }
      }
    }
    TableReadsBack(rows);
    assert Lines(rows)[0] == "Month," + title;
    forall i | 0 <= i < |points|
      ensures Lines(rows)[i + 1] == points[i].month + "," + show(points[i].value)
    {
      assert rows[i + 1] == [points[i].month, show(points[i].value)];
    }
  }
}
