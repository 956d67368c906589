/**
 * The CSV importer of the signal analysis: a text whose first line holds the
 * time resolution, whose second line names the input channels, and whose
 * remaining lines hold one voltage per channel, becomes one measurement
 * signal per channel.
 */
module CsvImporter {
  import opened Wrappers
  import opened SignalAnalysisResult
  import opened PythonNumeric

  // ---------------------------------------------------------------------------
  // Splitting and stripping

  /** The index of the first occurrence of `c` in `s`. */
  function FirstIndex(s: string, c: char): (r: nat)
    requires c in s
    ensures r < |s| && s[r] == c && c !in s[..r]
  {
    if s[0] == c then 0 else FirstIndex(s[1..], c) + 1
  }

  /** `s.split(sep)`: the pieces between the separators. */
  function Split(s: string, sep: char): (r: seq<string>)
    ensures |r| >= 1
    ensures forall k :: 0 <= k < |r| ==> sep !in r[k]
    decreases |s|
  {
    if sep !in s then [s]
    else
      var i := FirstIndex(s, sep);
      [s[..i]] + Split(s[i + 1..], sep)
  }

  /** `sep.join(pieces)`. */
  function Join(pieces: seq<string>, sep: char): string
    requires |pieces| >= 1
  {
    if |pieces| == 1 then pieces[0] else pieces[0] + [sep] + Join(pieces[1..], sep)
  }

  /** Splitting loses nothing: joining the pieces with the separator gives the text back. */
  lemma {:induction false} JoinSplit(s: string, sep: char)
    ensures Join(Split(s, sep), sep) == s
    decreases |s|
  {
    if sep in s {
      var i := FirstIndex(s, sep);
      JoinSplit(s[i + 1..], sep);
      assert Split(s, sep) == [s[..i]] + Split(s[i + 1..], sep);
      assert Split(s, sep)[1..] == Split(s[i + 1..], sep);
      assert s == s[..i] + [sep] + s[i + 1..];
    }
  }

  /** How many times `c` occurs in `s`. */
  function Occurrences(s: string, c: char): nat
  {
    if s == [] then 0 else (if s[0] == c then 1 else 0) + Occurrences(s[1..], c)
  }

  lemma {:induction false} OccurrencesSplit(s: string, t: string, c: char)
    ensures Occurrences(s + t, c) == Occurrences(s, c) + Occurrences(t, c)
    decreases |s|
  {
    if s != [] {
      assert (s + t)[1..] == s[1..] + t;
      OccurrencesSplit(s[1..], t, c);
    } else {
      assert s + t == t;
    }
  }

  lemma {:induction false} NoOccurrences(s: string, c: char)
    requires c !in s
    ensures Occurrences(s, c) == 0
    decreases |s|
  {
    if s != [] {
      NoOccurrences(s[1..], c);
    }
  }

  /** There is one more piece than there are separators. */
  lemma {:induction false} SplitCount(s: string, sep: char)
    ensures |Split(s, sep)| == Occurrences(s, sep) + 1
    decreases |s|
  {
    if sep in s {
      var i := FirstIndex(s, sep);
      SplitCount(s[i + 1..], sep);
      assert s == s[..i] + ([sep] + s[i + 1..]);
      OccurrencesSplit(s[..i], [sep] + s[i + 1..], sep);
      NoOccurrences(s[..i], sep);
      assert ([sep] + s[i + 1..])[1..] == s[i + 1..];
    } else {
      NoOccurrences(s, sep);
    }
  }

  /** The ASCII characters `str.strip` removes. */
  predicate IsSpace(c: char)
  {
    c == ' ' || ('\t' <= c <= '\r') || ('\U{1C}' <= c <= '\U{1F}')
  }

  /** `str.lstrip()`. */
  function TrimStart(s: string): (r: string)
    ensures |r| <= |s|
  {
    if s != [] && IsSpace(s[0]) then TrimStart(s[1..]) else s
  }

  /** `str.rstrip()`. */
  function TrimEnd(s: string): (r: string)
    ensures |r| <= |s|
  {
    if s != [] && IsSpace(s[|s| - 1]) then TrimEnd(s[..|s| - 1]) else s
  }

  /** Left stripping keeps a suffix that does not start with white space and cuts off only white space. */
  lemma {:induction false} TrimStartMeans(s: string)
    ensures var r := TrimStart(s);
      r == s[|s| - |r|..] && (r == [] || !IsSpace(r[0])) &&
      forall k :: 0 <= k < |s| - |r| ==> IsSpace(s[k])
  {
    if s != [] && IsSpace(s[0]) {
      TrimStartMeans(s[1..]);
      var r := TrimStart(s);
      forall k | 1 <= k < |s| - |r|
        ensures IsSpace(s[k])
      {
        assert s[k] == s[1..][k - 1];
      }
    }
  }

  /** Right stripping keeps a prefix that does not end with white space and cuts off only white space. */
  lemma {:induction false} TrimEndMeans(s: string)
    ensures var r := TrimEnd(s);
      r == s[..|r|] && (r == [] || !IsSpace(r[|r| - 1])) &&
      forall k :: |r| <= k < |s| ==> IsSpace(s[k])
  {
    if s != [] && IsSpace(s[|s| - 1]) {
      TrimEndMeans(s[..|s| - 1]);
      var r := TrimEnd(s);
      forall k | |r| <= k < |s| - 1
        ensures IsSpace(s[k])
      {
        assert s[k] == s[..|s| - 1][k];
      }
    }
  }

  /** `str.strip()`. */
  function Strip(s: string): (r: string)
    ensures |r| <= |s|
    ensures r == [] || (!IsSpace(r[0]) && !IsSpace(r[|r| - 1]))
  {
    TrimStartMeans(s);
    TrimEndMeans(TrimStart(s));
    TrimEnd(TrimStart(s))
  }

  lemma SliceOfSuffix(s: string, i: nat, n: nat)
    requires i + n <= |s|
    ensures s[i..i + n] == s[i..][..n]
  {
  }

  /**
   * The stripped line is the part of the line between its leading and its
   * trailing white space: it neither starts nor ends with white space, and
   * everything cut off is white space.
   */
  lemma StripMeans(s: string)
    ensures var r := Strip(s); var i := |s| - |TrimStart(s)|;
      i + |r| <= |s| && s[i..i + |r|] == r &&
      (forall k :: 0 <= k < i ==> IsSpace(s[k])) &&
      (forall k :: i + |r| <= k < |s| ==> IsSpace(s[k]))
  {
    var t := TrimStart(s);
    var r := TrimEnd(t);
    var i := |s| - |t|;
    TrimStartMeans(s);
    TrimEndMeans(t);
    assert t == s[i..];
    SliceOfSuffix(s, i, |r|);
    assert s[i..i + |r|] == t[..|r|] == r;
    forall k | i + |r| <= k < |s|
      ensures IsSpace(s[k])
    {
      assert s[k] == t[k - i];
      assert |r| <= k - i < |t|;
    }
  }

  /** The stripped line neither starts nor ends with white space. */
  lemma StripEnds(s: string)
    ensures Strip(s) == [] || (!IsSpace(Strip(s)[0]) && !IsSpace(Strip(s)[|Strip(s)| - 1]))
  {
    var t := TrimStart(s);
    var r := TrimEnd(t);
    TrimStartMeans(s);
    TrimEndMeans(t);
    if r != [] {
      assert r[0] == t[0];
    }
  }

  /** Stripping twice is stripping once. */
  lemma StripIdempotent(s: string)
    ensures Strip(Strip(s)) == Strip(s)
  {
    var r := Strip(s);
    StripEnds(s);
    assert TrimStart(r) == r;
    TrimEndMeans(r);
  }

  /** `[line.strip() for line in lines if line.strip() != '']`. */
  function CleanLines(lines: seq<string>): (r: seq<string>)
    ensures |r| <= |lines|
    ensures forall k :: 0 <= k < |r| ==> r[k] != []
  {
    if lines == [] then []
    else
      var t := Strip(lines[0]);
      (if t != [] then [t] else []) + CleanLines(lines[1..])
  }

  /** Every kept line is already stripped. */
  lemma {:induction false} CleanLinesStripped(lines: seq<string>)
    ensures forall k :: 0 <= k < |CleanLines(lines)| ==> Strip(CleanLines(lines)[k]) == CleanLines(lines)[k]
  {
    if lines != [] {
      CleanLinesStripped(lines[1..]);
      StripIdempotent(lines[0]);
    }
  }

  /** Every line that is not blank is kept, stripped. */
  lemma {:induction false} CleanLinesKeep(lines: seq<string>, k: nat)
    requires k < |lines| && Strip(lines[k]) != []
    ensures Strip(lines[k]) in CleanLines(lines)
  {
    if k > 0 {
      CleanLinesKeep(lines[1..], k - 1);
    }
  }

  /** The cells of a CSV line (the model reads no quoting). */
  function Cells(line: string): (r: seq<string>)
    ensures |r| >= 1
  {
    Split(line, ',')
  }

  // ---------------------------------------------------------------------------
  // Collecting the columns

  /**
   * One cell of a data row into column `i`: an empty cell repeats the
   * column's last value, any other is parsed as a float. A cell beyond the
   * named columns, an empty first cell and an unparsable cell fail.
   */
  function AddCell(columns: seq<seq<real>>, i: nat, cell: string, parse: string -> Option<real>): (r: Result<seq<seq<real>>>)
    ensures r.Ok? <==> i < |columns| && (if cell == [] then columns[i] != [] else parse(cell).Some?)
    ensures r.Ok? ==> i < |columns| && |r.value| == |columns|
    ensures r.Ok? ==> forall j :: 0 <= j < |columns| && j != i ==> r.value[j] == columns[j]
    ensures r.Ok? ==> (i < |columns| &&
      r.value[i] == columns[i] + [if cell == [] then columns[i][|columns[i]| - 1] else parse(cell).value])
  {
    if i >= |columns| then Err(IndexError)
    else if cell == [] then
      if columns[i] == [] then Err(IndexError)
      else Ok(columns[i := columns[i] + [columns[i][|columns[i]| - 1]]])
    else
      match parse(cell)
      case None => Err(ValueError)
      case Some(v) => Ok(columns[i := columns[i] + [v]])
  }

  /** The first `n` cells of a row into the columns, cell `i` into column `i`. */
  function AddRow(columns: seq<seq<real>>, row: seq<string>, n: nat, parse: string -> Option<real>): (r: Result<seq<seq<real>>>)
    requires n <= |row|
    ensures r.Ok? ==> |r.value| == |columns|
  {
    if n == 0 then Ok(columns)
    else
      match AddRow(columns, row, n - 1, parse)
      case Err(e) => Err(e)
      case Ok(c) => AddCell(c, n - 1, row[n - 1], parse)
  }

  /** The first `m` data rows into the columns. */
  function AddRows(columns: seq<seq<real>>, rows: seq<seq<string>>, m: nat, parse: string -> Option<real>): (r: Result<seq<seq<real>>>)
    requires m <= |rows|
    ensures r.Ok? ==> |r.value| == |columns|
  {
    if m == 0 then Ok(columns)
    else
      match AddRows(columns, rows, m - 1, parse)
      case Err(e) => Err(e)
      case Ok(c) => AddRow(c, rows[m - 1], |rows[m - 1]|, parse)
  }

  /** A row of `n` cells adds one value to each of the first `n` columns and leaves the rest. */
  lemma {:induction false} AddRowGrows(columns: seq<seq<real>>, row: seq<string>, n: nat, parse: string -> Option<real>)
    requires n <= |row|
    requires AddRow(columns, row, n, parse).Ok?
    ensures n <= |columns|
    ensures var c := AddRow(columns, row, n, parse).value;
      forall j :: 0 <= j < |columns| ==> |c[j]| == |columns[j]| + (if j < n then 1 else 0)
  {
    if n > 0 {
      AddRowGrows(columns, row, n - 1, parse);
    }
  }

  /** When every data row fills every column, each column holds one value per data row. */
  lemma {:induction false} FullRowsFillColumns(columns: seq<seq<real>>, rows: seq<seq<string>>, m: nat, parse: string -> Option<real>)
    requires m <= |rows|
    requires forall k :: 0 <= k < |rows| ==> |rows[k]| == |columns|
    requires AddRows(columns, rows, m, parse).Ok?
    ensures var c := AddRows(columns, rows, m, parse).value;
      forall j :: 0 <= j < |columns| ==> |c[j]| == |columns[j]| + m
  {
    if m > 0 {
      FullRowsFillColumns(columns, rows, m - 1, parse);
      var c := AddRows(columns, rows, m - 1, parse).value;
      AddRowGrows(c, rows[m - 1], |rows[m - 1]|, parse);
    }
  }

  /** Within one row, the cells before `n` never touch column `n` or later ones. */
  lemma {:induction false} AddRowKeepsLater(columns: seq<seq<real>>, row: seq<string>, n: nat, parse: string -> Option<real>)
    requires n <= |row|
    requires AddRow(columns, row, n, parse).Ok?
    ensures forall j :: n <= j < |columns| ==> AddRow(columns, row, n, parse).value[j] == columns[j]
  {
    if n > 0 {
      AddRowKeepsLater(columns, row, n - 1, parse);
    }
  }

  /**
   * An empty cell in column `i` of a row repeats the value that column held
   * before the row.
   */
  lemma EmptyCellRepeats(columns: seq<seq<real>>, row: seq<string>, i: nat, parse: string -> Option<real>)
    requires i < |row| && row[i] == []
    requires AddRow(columns, row, i + 1, parse).Ok?
    ensures i < |columns| && columns[i] != []
    ensures var c := AddRow(columns, row, i + 1, parse).value;
      c[i] == columns[i] + [columns[i][|columns[i]| - 1]]
  {
    AddRowGrows(columns, row, i + 1, parse);
    AddRowKeepsLater(columns, row, i, parse);
  }

  // ---------------------------------------------------------------------------
  // The import

  /** The source name of channel `name`: the file name, if any, then "/" and the name. */
  function SourceName(filename: Option<string>, name: string): string
  {
    (if filename.Some? then filename.value else "") + "/" + name
  }

  /** The lines the reader sees: split at line breaks, stripped, blank ones dropped. */
  function Lines(data: string): seq<string>
  {
    CleanLines(Split(data, '\n'))
  }

  /** `int(float(first cell of the first line))`. */
  function Resolution(lines: seq<string>, parse: string -> Option<real>): (r: Result<int>)
    ensures r.Err? <==> lines == [] || parse(Cells(lines[0])[0]).None?
  {
    if lines == [] then Err(StopIteration)
    else
      match parse(Cells(lines[0])[0])
      case None => Err(ValueError)
      case Some(x) => Ok(Trunc(x))
  }

  /** An empty column for each name. */
  function EmptyColumns(n: nat): (r: seq<seq<real>>)
    ensures |r| == n && forall j :: 0 <= j < n ==> r[j] == []
  {
    seq(n, _ => [])
  }

  /** The data rows' cells. */
  function DataRows(lines: seq<string>): (r: seq<seq<string>>)
    requires |lines| >= 2
    ensures |r| == |lines| - 2 && forall k :: 0 <= k < |r| ==> r[k] == Cells(lines[k + 2])
  {
    seq(|lines| - 2, k requires 0 <= k < |lines| - 2 => Cells(lines[k + 2]))
  }

  /** The signals of the named columns, all sharing the resolution and the start time. */
  function Signals(names: seq<string>, columns: seq<seq<real>>, filename: Option<string>, resolution: int, startTime: Option<int>): (r: seq<MeasurementSignal>)
    requires |columns| == |names|
    ensures |r| == |names|
    ensures forall i :: 0 <= i < |r| ==> r[i] == MeasurementSignal(i, SourceName(filename, names[i]), columns[i], resolution, startTime)
  {
    seq(|names|, i requires 0 <= i < |names| => MeasurementSignal(i, SourceName(filename, names[i]), columns[i], resolution, startTime))
  }

  /**
   * `import_csv_data`: the resolution from the first line, the channel names
   * from the second, the values from the rest. A missing line stops the
   * reader; `parse` is `float` on one cell, `None` where it raises.
   */
  function ImportCsv(data: string, filename: Option<string>, startTime: Option<int>, parse: string -> Option<real>): (r: Result<seq<MeasurementSignal>>)
    ensures |Lines(data)| < 2 ==> r.Err?
  {
    var lines := Lines(data);
    match Resolution(lines, parse)
    case Err(e) => Err(e)
    case Ok(resolution) =>
      if |lines| < 2 then Err(StopIteration)
      else
        var names := Cells(lines[1]);
        match AddRows(EmptyColumns(|names|), DataRows(lines), |lines| - 2, parse)
        case Err(e) => Err(e)
        case Ok(columns) => Ok(Signals(names, columns, filename, resolution, startTime))
  }

  /** One signal per channel name, numbered by column, named after the file and the channel, sharing resolution and start time. */
  lemma ImportFacts(data: string, filename: Option<string>, startTime: Option<int>, parse: string -> Option<real>)
    requires ImportCsv(data, filename, startTime, parse).Ok?
    ensures var r := ImportCsv(data, filename, startTime, parse).value;
      |Lines(data)| >= 2 && |r| == |Cells(Lines(data)[1])| &&
      forall i :: 0 <= i < |r| ==>
        r[i].index == i &&
        r[i].sourceName == SourceName(filename, Cells(Lines(data)[1])[i]) &&
        Resolution(Lines(data), parse) == Ok(r[i].timeResolution) &&
        r[i].startTime == startTime
  {
  }

  /** With full-width data rows, every signal has one value per data row. */
  lemma FullRowsGiveFullSignals(data: string, filename: Option<string>, startTime: Option<int>, parse: string -> Option<real>)
    requires ImportCsv(data, filename, startTime, parse).Ok?
    requires forall k :: 2 <= k < |Lines(data)| ==> |Cells(Lines(data)[k])| == |Cells(Lines(data)[1])|
    ensures forall i :: 0 <= i < |ImportCsv(data, filename, startTime, parse).value| ==>
      |ImportCsv(data, filename, startTime, parse).value[i].voltageLevels| == |Lines(data)| - 2
  {
    var lines := Lines(data);
    var names := Cells(lines[1]);
    var rows := DataRows(lines);
    forall k | 0 <= k < |rows|
      ensures |rows[k]| == |names|
    {
      assert rows[k] == Cells(lines[k + 2]);
    }
    FullRowsFillColumns(EmptyColumns(|names|), rows, |lines| - 2, parse);
  }

  // ---------------------------------------------------------------------------
  // The row loop

  /** Once a row fails, the cells after the failing one do not change the outcome. */
  lemma {:induction false} RowErrorSticks(columns: seq<seq<real>>, row: seq<string>, n: nat, n': nat, parse: string -> Option<real>)
    requires n <= n' <= |row|
    requires AddRow(columns, row, n, parse).Err?
    ensures AddRow(columns, row, n', parse) == AddRow(columns, row, n, parse)
    decreases n'
  {
    if n < n' {
      RowErrorSticks(columns, row, n, n' - 1, parse);
    }
  }

  /** Once a data row fails, the rows after it do not change the outcome. */
  lemma {:induction false} RowsErrorSticks(columns: seq<seq<real>>, rows: seq<seq<string>>, m: nat, m': nat, parse: string -> Option<real>)
    requires m <= m' <= |rows|
    requires AddRows(columns, rows, m, parse).Err?
    ensures AddRows(columns, rows, m', parse) == AddRows(columns, rows, m, parse)
    decreases m'
  {
    if m < m' {
      RowsErrorSticks(columns, rows, m, m' - 1, parse);
    }
  }

  /** The body of the cell loop: append the cell's value to its channel's list. */
  method AppendCell(columns: seq<seq<real>>, i: nat, cell: string, parse: string -> Option<real>) returns (r: Result<seq<seq<real>>>)
    ensures r == AddCell(columns, i, cell, parse)
  {
    if i >= |columns| {
      return Err(IndexError);
    }
    var value: real;
    if cell == [] {
      if columns[i] == [] {
        return Err(IndexError);
      }
      value := columns[i][|columns[i]| - 1];
    } else {
      var parsed := parse(cell);
      if parsed.None? {
        return Err(ValueError);
      }
      value := parsed.value;
    }
    r := Ok(columns[i := columns[i] + [value]]);
  }

  /** The loop over the data rows and their cells, appending to the per-channel lists. */
  method CollectColumns(width: nat, rows: seq<seq<string>>, parse: string -> Option<real>) returns (r: Result<seq<seq<real>>>)
    ensures r == AddRows(EmptyColumns(width), rows, |rows|, parse)
  {
    ghost var empty := EmptyColumns(width);
    var columns := EmptyColumns(width);
    var m := 0;
    while m < |rows|
      invariant 0 <= m <= |rows|
      invariant AddRows(empty, rows, m, parse) == Ok(columns)
    {
      var row := rows[m];
      ghost var before := columns;
      var n := 0;
      while n < |row|
        invariant 0 <= n <= |row|
        invariant AddRow(before, row, n, parse) == Ok(columns)
      {
        var added := AppendCell(columns, n, row[n], parse);
        if added.Err? {
          RowErrorSticks(before, row, n + 1, |row|, parse);
          RowsErrorSticks(empty, rows, m + 1, |rows|, parse);
          return Err(added.error);
        }
        columns := added.value;
        n := n + 1;
      }
      m := m + 1;
    }
    return Ok(columns);
  }

  /** `import_csv_data`: the header lines, then the row loop. */
  method ImportCsvData(data: string, filename: Option<string>, startTime: Option<int>, parse: string -> Option<real>)
    returns (r: Result<seq<MeasurementSignal>>)
    ensures r == ImportCsv(data, filename, startTime, parse)
  {
    var lines := Lines(data);
    var resolution := Resolution(lines, parse);
    if resolution.Err? {
      return Err(resolution.error);
    }
    if |lines| < 2 {
      return Err(StopIteration);
    }
    var names := Cells(lines[1]);
    var columns := CollectColumns(|names|, DataRows(lines), parse);
    if columns.Err? {
      return Err(columns.error);
    }
    return Ok(Signals(names, columns.value, filename, resolution.value, startTime));
  }
}
