/** Data export: the CSV serialisation of the state and score, its parse back
    into rows, and the verdicts the text report selects. */
module DataExport {
  import opened Common
  import opened VacuumSimulation

  /** A cell that holds neither separator. */
  predicate NoSeparators(s: string) {
    forall i :: 0 <= i < |s| ==> s[i] != ',' && s[i] != '\n'
  }

  /** The text a number prints as; printed numbers hold neither separator. */
  type NumberText = s: string | NoSeparators(s)

  /** The labels of the ten data rows, in export order. */
  const Labels: seq<string> := [
    "Mirror Angle", "Mirror Spacing", "Magnetic Field", "Field Direction", "Chirality",
    "Inserted Material", "Energy", "Coherence", "Topological Phase", "Score"
  ]

  function BoolText(b: bool): (t: string)
    ensures NoSeparators(t)
  {
    if b then "true" else "false"
  }

  /** Every cell of every row holds neither separator. */
  predicate CellsClean(rows: seq<seq<string>>) {
    forall i, j :: 0 <= i < |rows| && 0 <= j < |rows[i]| ==> NoSeparators(rows[i][j])
  }

  /** The ten value cells, in label order. `show` is the host's
      number-to-text conversion. */
  function Values(s: SimulationState, score: int, show: real -> NumberText): (v: seq<string>)
    ensures |v| == |Labels|
    ensures v[0] == show(s.mirrorAngle) && v[1] == show(s.mirrorSpacing)
    ensures v[2] == show(s.magneticField) && v[3] == show(s.fieldDirection)
    ensures v[4] == show(s.chirality) && v[6] == show(s.energy as real) && v[7] == show(s.coherence as real)
    ensures v[5] == s.insertedMaterial && v[8] == BoolText(s.topologicalPhase) && v[9] == show(score as real)
    ensures forall i :: 0 <= i < |v| && i != 5 ==> NoSeparators(v[i])
  {
    [show(s.mirrorAngle), show(s.mirrorSpacing), show(s.magneticField), show(s.fieldDirection),
     show(s.chirality), s.insertedMaterial, show(s.energy as real), show(s.coherence as real),
     BoolText(s.topologicalPhase), show(score as real)]
  }

  lemma LabelsClean()
    ensures forall i :: 0 <= i < |Labels| ==> NoSeparators(Labels[i])
    ensures NoSeparators("Parameter") && NoSeparators("Value")
  {
  }

  /** The row list of the CSV: a header, then one label/value pair per field. */
  function CsvRows(s: SimulationState, score: int, show: real -> NumberText): (rows: seq<seq<string>>)
    ensures |rows| == 11 && rows[0] == ["Parameter", "Value"]
    ensures forall i :: 0 <= i < |rows| ==> |rows[i]| == 2
    ensures forall i :: 1 <= i < |rows| ==> rows[i][0] == Labels[i - 1]
    ensures forall i :: 1 <= i < |rows| ==> rows[i] == [Labels[i - 1], Values(s, score, show)[i - 1]]
    ensures rows[6][1] == s.insertedMaterial && rows[9][1] == BoolText(s.topologicalPhase)
    ensures rows[10] == ["Score", show(score as real)]
    ensures CellsClean(rows) <==> NoSeparators(s.insertedMaterial)
  {
    var v := Values(s, score, show);
    var rows := [["Parameter", "Value"]] + seq(|Labels|, i requires 0 <= i < |Labels| => [Labels[i], v[i]]);
    LabelsClean();
    assert rows[6][1] == s.insertedMaterial;
    rows
  }

  /** Cells joined with a separator; no cells join to the empty text. */
  function Join(cells: seq<string>, sep: char): string {
    if |cells| == 0 then ""
    else if |cells| == 1 then cells[0]
    else cells[0] + [sep] + Join(cells[1..], sep)
  }

  /** How often `c` occurs in `s`. */
  function Count(s: string, c: char): nat {
    if s == [] then 0 else (if s[0] == c then 1 else 0) + Count(s[1..], c)
  }

  /** Splits a text at every separator: one more piece than separators, and no
      piece holds the separator. */
  function Split(s: string, sep: char): (pieces: seq<string>)
    ensures |pieces| == Count(s, sep) + 1
    ensures forall i :: 0 <= i < |pieces| ==> sep !in pieces[i]
  {
    if s == [] then [""]
    else if s[0] == sep then [""] + Split(s[1..], sep)
    else
      var r := Split(s[1..], sep);
      [[s[0]] + r[0]] + r[1..]
  }

  /** Splitting a text and joining the pieces gives the text back. */
  lemma {:induction false} JoinSplit(s: string, sep: char)
    ensures Join(Split(s, sep), sep) == s
  {
    if s != [] {
      JoinSplit(s[1..], sep);
      var r := Split(s[1..], sep);
      if s[0] != sep && |r| > 1 {
        assert Join(r, sep) == r[0] + [sep] + Join(r[1..], sep);
        assert [s[0]] + s[1..] == s;
      }
    }
  }

  /** A separator-free text splits into itself. */
  lemma {:induction false} SplitNoSeparator(a: string, sep: char)
    requires sep !in a
    ensures Split(a, sep) == [a]
  {
    if a != [] {
      SplitNoSeparator(a[1..], sep);
      assert [a[0]] + a[1..] == a;
    }
  }

  /** A separator-free head before a separator splits off as one piece. */
  lemma {:induction false} SplitAfter(a: string, b: string, sep: char)
    requires sep !in a
    ensures Split(a + [sep] + b, sep) == [a] + Split(b, sep)
  {
    var s := a + [sep] + b;
    if a == [] {
      assert s[1..] == b;
    } else {
      assert s[1..] == a[1..] + [sep] + b;
      SplitAfter(a[1..], b, sep);
      assert [a[0]] + a[1..] == a;
    }
  }

  /** Joining separator-free cells and splitting again gives the cells back. */
  lemma {:induction false} SplitJoin(cells: seq<string>, sep: char)
    requires |cells| >= 1
    requires forall i :: 0 <= i < |cells| ==> sep !in cells[i]
    ensures Split(Join(cells, sep), sep) == cells
  {
    if |cells| == 1 {
      SplitNoSeparator(cells[0], sep);
    } else {
      SplitJoin(cells[1..], sep);
      SplitAfter(cells[0], Join(cells[1..], sep), sep);
    }
  }

  /** Joining cells that avoid `c` with a separator other than `c` avoids `c`. */
  lemma {:induction false} JoinAvoids(cells: seq<string>, sep: char, c: char)
    requires c != sep
    requires forall i :: 0 <= i < |cells| ==> c !in cells[i]
    ensures c !in Join(cells, sep)
  {
    if |cells| > 1 {
      JoinAvoids(cells[1..], sep, c);
    }
  }

  /** Each row's cells joined with ','. */
  function Lines(rows: seq<seq<string>>): seq<string> {
    seq(|rows|, i requires 0 <= i < |rows| => Join(rows[i], ','))
  }

  /** The CSV text: rows joined with '\n', no trailing newline. */
  function CsvContent(rows: seq<seq<string>>): string {
    Join(Lines(rows), '\n')
  }

  /** Reads a CSV text back into rows: split on '\n', then each line on ','. */
  function ParseCsv(text: string): seq<seq<string>> {
    var lines := Split(text, '\n');
    seq(|lines|, i requires 0 <= i < |lines| => Split(lines[i], ','))
  }

  /** Rows of clean cells, none of them empty, survive serialisation. */
  lemma CsvRoundTrip(rows: seq<seq<string>>)
    requires |rows| >= 1
    requires forall i :: 0 <= i < |rows| ==> |rows[i]| >= 1
    requires CellsClean(rows)
    ensures ParseCsv(CsvContent(rows)) == rows
    ensures Count(CsvContent(rows), '\n') == |rows| - 1
  {
    var lines := Lines(rows);
    forall i | 0 <= i < |lines| ensures '\n' !in lines[i] && Split(lines[i], ',') == rows[i] {
      forall j | 0 <= j < |rows[i]| ensures '\n' !in rows[i][j] && ',' !in rows[i][j] {
        assert NoSeparators(rows[i][j]);
      }
      JoinAvoids(rows[i], ',', '\n');
      SplitJoin(rows[i], ',');
    }
    SplitJoin(lines, '\n');
  }

  /** The exported CSV of any state whose material key is separator-free
      parses back to its row list and holds exactly ten newlines. */
  lemma CsvExportRoundTrip(s: SimulationState, score: int, show: real -> NumberText)
    requires NoSeparators(s.insertedMaterial)
    ensures var rows := CsvRows(s, score, show);
            ParseCsv(CsvContent(rows)) == rows && Count(CsvContent(rows), '\n') == 10
  {
    CsvRoundTrip(CsvRows(s, score, show));
  }

  /** The three verdict headlines of the report's analysis section. */
  datatype Verdicts = Verdicts(phase: string, coherence: string, chirality: string)

  function AnalysisVerdicts(s: SimulationState): (v: Verdicts)
    ensures v.phase == "Topological Phase Achieved" <==> s.topologicalPhase
    ensures v.phase == "No Topological Phase" <==> !s.topologicalPhase
    ensures v.coherence == "High Coherence" <==> s.coherence > 80
    ensures v.coherence == "Low Coherence" <==> s.coherence <= 80
    ensures v.chirality == "Strong Chiral Effects" <==> Abs(s.chirality) > 0.5
    ensures v.chirality == "Weak Chiral Effects" <==> Abs(s.chirality) <= 0.5
  {
    Verdicts(
      if s.topologicalPhase then "Topological Phase Achieved" else "No Topological Phase",
      if s.coherence > 80 then "High Coherence" else "Low Coherence",
      if Abs(s.chirality) > 0.5 then "Strong Chiral Effects" else "Weak Chiral Effects")
  }
}
