/** The dataset import panel (frontend/src/components/DatasetUpload.jsx): it
    checks the file name, inspects the CSV text (line, row and column counts,
    a preview and per-column statistics over a sample) and hands the file to
    the upload endpoint. */
module DatasetUpload {
  import opened Wrappers
  import opened Strings
  import opened Seqs
  import opened Csv
  import opened NumberSyntax

  /** A file as the browser hands it over, with the text `FileReader` reads. */
  datatype SelectedFile = SelectedFile(name: string, size: nat, text: string)

  /** `size` is `(bytes / (1024 * 1024))`, before `toFixed(2)` formats it. */
  datatype Stats = Stats(rows: nat, cols: nat, sizeMB: real)

  datatype ColumnType = Numeric | Categorical

  datatype ColumnInfo = ColumnInfo(name: string, kind: ColumnType, missing: nat)

  datatype Analysis = Analysis(stats: Stats, preview: seq<seq<string>>, columns: seq<ColumnInfo>)

  const INVALID_TYPE := "Invalid file type. Please upload a .csv file."
  const TOO_SHORT := "File is empty or too short."
  const PREVIEW_ROWS: nat := 5
  const SAMPLE_ROWS: nat := 100
  const ZERO_STATS := Stats(0, 0, 0.0)

  /** `name.toLowerCase().endsWith(".csv")` */
  predicate IsCsvName(name: string) {
    EndsWith(ToLower(name), ".csv")
  }

  /** `row[idx]?.trim()` */
  function FieldAt(row: seq<string>, idx: nat): (v: Option<string>)
    ensures v.None? <==> idx >= |row|
    ensures v.Some? ==> v.value == Trim(row[idx])
  {
    if idx < |row| then Some(Trim(row[idx])) else None
  }

  /** `!val || val === ""`: counted as missing. */
  function MissingField(idx: nat): seq<string> -> bool {
    row => var v := FieldAt(row, idx); v.None? || v.value == ""
  }

  /** `val && isNaN(Number(val))`: a present value that is not a number. */
  function NonNumericField(idx: nat): seq<string> -> bool {
    row => var v := FieldAt(row, idx); v.Some? && v.value != "" && !IsNumericLiteral(v.value)
  }

  /** The statistics of column `idx` over the sample rows. */
  function ColumnInfoOf(name: string, idx: nat, sample: seq<seq<string>>): ColumnInfo {
    ColumnInfo(name, if Count(sample, NonNumericField(idx)) == 0 then Numeric else Categorical,
      Count(sample, MissingField(idx)))
  }

  /** A column is numeric exactly when every present sampled value parses as
      a number, and it has at most one missing value per sampled row. */
  lemma {:induction false} ColumnInfoMeaning(name: string, idx: nat, sample: seq<seq<string>>)
    ensures ColumnInfoOf(name, idx, sample).missing <= |sample|
    ensures ColumnInfoOf(name, idx, sample).kind == Numeric <==>
      forall r :: r in sample ==>
        idx >= |r| || Trim(r[idx]) == "" || IsNumericLiteral(Trim(r[idx]))
  {
    var p := NonNumericField(idx);
    FilterLength(sample, p);
    if Count(sample, p) == 0 {
      forall r | r in sample ensures !p(r) {
        assert r !in Filter(sample, p);
      }
    } else {
      var bad := Filter(sample, p)[0];
      assert bad in sample && p(bad);
    }
  }

  /** The `forEach` over the sample rows for one column. */
  method AnalyzeColumn(name: string, idx: nat, sample: seq<seq<string>>) returns (info: ColumnInfo)
    ensures info == ColumnInfoOf(name, idx, sample)
  {
    var missingCount := 0;
    var isNumeric := true;
    var i := 0;
    while i < |sample|
      invariant 0 <= i <= |sample|
      invariant missingCount == Count(sample[..i], MissingField(idx))
      invariant isNumeric == (Count(sample[..i], NonNumericField(idx)) == 0)
    {
      CountPrefixStep(sample, i, MissingField(idx));
      CountPrefixStep(sample, i, NonNumericField(idx));
      var row := sample[i];
      if MissingField(idx)(row) {
        missingCount := missingCount + 1;
      }
      if NonNumericField(idx)(row) {
        isNumeric := false;
      }
      i := i + 1;
    }
    assert sample[..|sample|] == sample;
    info := ColumnInfo(name, if isNumeric then Numeric else Categorical, missingCount);
  }

  /** The column statistics of a header over a sample. */
  function ColumnInfos(header: seq<string>, sample: seq<seq<string>>): (infos: seq<ColumnInfo>)
    ensures |infos| == |header|
    ensures forall i :: 0 <= i < |header| ==> infos[i] == ColumnInfoOf(header[i], i, sample)
  {
    seq(|header|, i requires 0 <= i < |header| => ColumnInfoOf(header[i], i, sample))
  }

  /** `header.map((colName, idx) => ...)` */
  method AnalyzeColumns(header: seq<string>, sample: seq<seq<string>>) returns (infos: seq<ColumnInfo>)
    ensures infos == ColumnInfos(header, sample)
  {
    infos := [];
    var i := 0;
    while i < |header|
      invariant 0 <= i <= |header|
      invariant infos == ColumnInfos(header, sample)[..i]
    {
      var info := AnalyzeColumn(header[i], i, sample);
      ColumnInfosSnoc(header, sample, infos, info, i);
      infos := infos + [info];
      i := i + 1;
    }
  }

  lemma ColumnInfosSnoc(header: seq<string>, sample: seq<seq<string>>, infos: seq<ColumnInfo>, info: ColumnInfo, i: nat)
    requires i < |header| && infos == ColumnInfos(header, sample)[..i]
    requires info == ColumnInfoOf(header[i], i, sample)
    ensures infos + [info] == ColumnInfos(header, sample)[..i + 1]
  {
    var all := ColumnInfos(header, sample);
    PrefixSnoc(all, i);
  }

  /** The sample rows, split on commas but not trimmed. */
  function SampleRows(lines: seq<string>): (sample: seq<seq<string>>)
    ensures |sample| == |Slice(lines, 1, SAMPLE_ROWS + 1)|
    ensures forall i :: 0 <= i < |sample| ==> sample[i] == Split(lines[i + 1], ',')
  {
    var window := Slice(lines, 1, SAMPLE_ROWS + 1);
    seq(|window|, i requires 0 <= i < |window| => Split(window[i], ','))
  }

  /** What `reader.onload` computes from the text. */
  function Analyze(file: SelectedFile): Result<Analysis, string> {
    var lines := NonBlankLines(file.text);
    if |lines| < 2 then Err(TOO_SHORT)
    else
      var header := Cells(lines[0]);
      var sample := SampleRows(lines);
      Ok(Analysis(
        Stats(|lines| - 1, |header|, file.size as real / 1048576.0),
        [header] + ParseRows(Slice(lines, 1, PREVIEW_ROWS + 1)),
        ColumnInfos(header, sample)))
  }

  /** The shape of a successful inspection: the row count excludes the
      header; the preview is the header and at most five data rows, all
      trimmed; there is one column stat per header field, in header order,
      each counting at most one missing value per sampled row (at most 100). */
  lemma AnalyzeShape(file: SelectedFile)
    requires Analyze(file).Ok?
    ensures var a, lines := Analyze(file).value, NonBlankLines(file.text);
      |lines| >= 2 && a.stats.rows == |lines| - 1 &&
      a.stats.cols == |Cells(lines[0])| == |a.columns| &&
      |a.preview| == (if |lines| < PREVIEW_ROWS + 1 then |lines| else PREVIEW_ROWS + 1) &&
      a.preview[0] == Cells(lines[0]) &&
      (forall i :: 1 <= i < |a.preview| ==> a.preview[i] == Cells(lines[i])) &&
      (forall i :: 0 <= i < |a.columns| ==>
        a.columns[i].name == Cells(lines[0])[i] &&
        a.columns[i].missing <= SAMPLE_ROWS && a.columns[i].missing <= a.stats.rows)
  {
    var lines := NonBlankLines(file.text);
    PanelRows(lines);
    ColumnInfosBounded(Cells(lines[0]), SampleRows(lines), |lines| - 1);
  }

  /** The panel's rows: the header line and up to five more, each trimmed. */
  lemma PanelRows(lines: seq<string>)
    requires |lines| >= 2
    ensures var p := [Cells(lines[0])] + ParseRows(Slice(lines, 1, PREVIEW_ROWS + 1));
      |p| == (if |lines| < PREVIEW_ROWS + 1 then |lines| else PREVIEW_ROWS + 1) &&
      forall i :: 0 <= i < |p| ==> p[i] == Cells(lines[i])
  {
    var window := Slice(lines, 1, PREVIEW_ROWS + 1);
    var p := [Cells(lines[0])] + ParseRows(window);
    forall i | 1 <= i < |p| ensures p[i] == Cells(lines[i]) {
      PanelRowAt(lines, window, i);
    }
  }

  lemma PanelRowAt(lines: seq<string>, window: seq<string>, i: nat)
    requires window == Slice(lines, 1, PREVIEW_ROWS + 1)
    requires 1 <= i <= |window|
    ensures ([Cells(lines[0])] + ParseRows(window))[i] == Cells(lines[i])
  {
    assert window[i - 1] == lines[i];
  }

  /** Every column statistic is named after its header field and counts at
      most one missing value per sampled row. */
  lemma ColumnInfosBounded(header: seq<string>, sample: seq<seq<string>>, rows: nat)
    requires |sample| <= SAMPLE_ROWS && |sample| <= rows
    ensures forall i :: 0 <= i < |header| ==>
      ColumnInfos(header, sample)[i].name == header[i] &&
      ColumnInfos(header, sample)[i].missing <= SAMPLE_ROWS &&
      ColumnInfos(header, sample)[i].missing <= rows
  {
    forall i | 0 <= i < |header|
      ensures ColumnInfos(header, sample)[i].missing <= |sample|
    {
      ColumnInfoMeaning(header[i], i, sample);
    }
  }

  /** A text with fewer than two non-blank lines is refused. */
  lemma ShortTextRefused(file: SelectedFile)
    ensures Analyze(file).Err? <==> |NonBlankLines(file.text)| < 2
    ensures Analyze(file).Err? ==> Analyze(file).error == TOO_SHORT
  {
  }

  /** The component's state. */
  class DatasetUploadView {
    var file: Option<SelectedFile>
    var stats: Stats
    var previewRows: seq<seq<string>>
    var columnsInfo: seq<ColumnInfo>
    var uploading: bool
    var error: string

    constructor ()
      ensures file == None && stats == ZERO_STATS && previewRows == [] && columnsInfo == []
      ensures !uploading && error == ""
    {
      file := None;
      stats := ZERO_STATS;
      previewRows := [];
      columnsInfo := [];
      uploading := false;
      error := "";
    }

    /** `resetState()` */
    method ResetState()
      modifies this
      ensures file == None && stats == ZERO_STATS && previewRows == [] && columnsInfo == []
      ensures error == "" && uploading == old(uploading)
    {
      file := None;
      stats := ZERO_STATS;
      previewRows := [];
      columnsInfo := [];
      error := "";
    }

    /** `analyzeFile(selectedFile)`, with the read completing at once. An
        absent file changes nothing; a rejected one only sets the error. */
    method AnalyzeFile(selected: Option<SelectedFile>)
      modifies this
      ensures selected.None? ==> unchanged(this)
      ensures selected.Some? && !IsCsvName(selected.value.name) ==>
        error == INVALID_TYPE &&
        file == old(file) && stats == old(stats) && previewRows == old(previewRows) &&
        columnsInfo == old(columnsInfo) && uploading == old(uploading)
      ensures selected.Some? && IsCsvName(selected.value.name) && Analyze(selected.value).Err? ==>
        error == TOO_SHORT &&
        file == old(file) && stats == old(stats) && previewRows == old(previewRows) &&
        columnsInfo == old(columnsInfo) && uploading == old(uploading)
      ensures selected.Some? && IsCsvName(selected.value.name) && Analyze(selected.value).Ok? ==>
        var a := Analyze(selected.value).value;
        file == selected && stats == a.stats && previewRows == a.preview &&
        columnsInfo == a.columns && error == "" && uploading == old(uploading)
    {
      if selected.None? {
        return;
      }
      var f := selected.value;
      if !IsCsvName(f.name) {
        error := INVALID_TYPE;
        return;
      }
      var allLines := NonBlankLines(f.text);
      if |allLines| < 2 {
        error := TOO_SHORT;
        return;
      }
      var header := Cells(allLines[0]);
      var dataRows := Slice(allLines, 1, PREVIEW_ROWS + 1);
      var sampleRows := SampleRows(allLines);
      var colStats := AnalyzeColumns(header, sampleRows);
      file := selected;
      stats := Stats(|allLines| - 1, |header|, f.size as real / 1048576.0);
      previewRows := [header] + ParseRows(dataRows);
      columnsInfo := colStats;
      error := "";
    }

    /** `uploadToServer()`: the name handed to `onUploadComplete`, which is
        the file's name whether the post succeeds or fails. */
    method UploadToServer() returns (completedWith: Option<string>)
      modifies this
      ensures file.None? ==> completedWith == None && unchanged(this)
      ensures file.Some? ==> completedWith == Some(file.value.name) && !uploading
      ensures file == old(file) && stats == old(stats) && previewRows == old(previewRows)
      ensures columnsInfo == old(columnsInfo) && error == old(error)
    {
      if file.None? {
        return None;
      }
      uploading := true;
      completedWith := Some(file.value.name);
      uploading := false;
    }
  }
}
