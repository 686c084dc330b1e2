/** The upload screen (frontend/src/pages/UploadPage.jsx): it accepts a CSV
    file, shows a preview of its first lines and records the name the server
    stored it under. */
module UploadPage {
  import opened Wrappers
  import opened Strings
  import opened Csv
  import opened Storage
  import DatasetUpload

  const UPLOADED_FILENAME := "uploadedFilename"
  const PREVIEW_LINES: nat := 21

  const ONLY_CSV := "\U{26A0}\U{FE0F} Only CSV files are supported right now."
  const CHOOSE_FIRST := "\U{26A0}\U{FE0F} Please choose a CSV file first."
  const UPLOADED := "\U{2705} File uploaded successfully. You can now run AutoML."
  const UNEXPECTED := "\U{26A0}\U{FE0F} File uploaded, but server response was unexpected."
  const FAILED := "\U{274C} Failed to upload file. Is backend running?"

  /** The outcome of the post: a network or server error, or a reply whose
      `data.filename` may be absent. */
  datatype UploadResponse = RequestFailed | Reply(filename: Option<string>)

  /** `generatePreview`: the first at most 21 non-blank lines, split on
      commas and trimmed. */
  function Preview(text: string): (rows: seq<seq<string>>)
    ensures |rows| <= PREVIEW_LINES
    ensures |rows| == (if |NonBlankLines(text)| < PREVIEW_LINES then |NonBlankLines(text)| else PREVIEW_LINES)
    ensures forall i :: 0 <= i < |rows| ==> rows[i] == Cells(NonBlankLines(text)[i])
  {
    ParseRows(Slice(NonBlankLines(text), 0, PREVIEW_LINES))
  }

  /** The preview here is the header and up to 20 rows, where the import
      panel shows the header and up to 5: the first six rows agree. */
  lemma PreviewExtendsPanelPreview(f: DatasetUpload.SelectedFile)
    requires DatasetUpload.Analyze(f).Ok?
    ensures var mine, panel := Preview(f.text), DatasetUpload.Analyze(f).value.preview;
      |panel| <= |mine| && mine[..|panel|] == panel
  {
    var lines := NonBlankLines(f.text);
    assert DatasetUpload.Analyze(f).value.preview ==
      [Cells(lines[0])] + ParseRows(Slice(lines, 1, DatasetUpload.PREVIEW_ROWS + 1));
    PanelPrefix(lines);
  }

  lemma PanelPrefix(lines: seq<string>)
    requires |lines| >= 2
    ensures var mine := ParseRows(Slice(lines, 0, PREVIEW_LINES));
      var panel := [Cells(lines[0])] + ParseRows(Slice(lines, 1, DatasetUpload.PREVIEW_ROWS + 1));
      |panel| <= |mine| && mine[..|panel|] == panel
  {
    var mine := ParseRows(Slice(lines, 0, PREVIEW_LINES));
    var panel := [Cells(lines[0])] + ParseRows(Slice(lines, 1, DatasetUpload.PREVIEW_ROWS + 1));
    DatasetUpload.PanelRows(lines);
    forall i | 0 <= i < |panel| ensures mine[i] == panel[i] { }
    assert mine[..|panel|] == panel;
  }

  class UploadView {
    var file: Option<DatasetUpload.SelectedFile>
    var message: string
    var uploadedFilename: string
    var previewRows: seq<seq<string>>
    const store: LocalStorage

    /** The initial state: the stored name, or "" when none is stored. */
    constructor (store: LocalStorage)
      ensures this.store == store
      ensures file == None && message == "" && previewRows == []
      ensures uploadedFilename == (if store.GetText(UPLOADED_FILENAME).Some? then store.GetText(UPLOADED_FILENAME).value else "")
    {
      this.store := store;
      file := None;
      message := "";
      previewRows := [];
      var stored := store.GetText(UPLOADED_FILENAME);
      uploadedFilename := if stored.Some? && stored.value != "" then stored.value else "";
    }

    /** `validateAndSetFile(selectedFile)`, with the read completing at once. */
    method ValidateAndSetFile(selected: Option<DatasetUpload.SelectedFile>)
      modifies this
      ensures selected.None? ==> unchanged(this)
      ensures selected.Some? && !DatasetUpload.IsCsvName(selected.value.name) ==>
        message == ONLY_CSV && file == None && previewRows == [] &&
        uploadedFilename == old(uploadedFilename)
      ensures selected.Some? && DatasetUpload.IsCsvName(selected.value.name) ==>
        file == selected && message == "" && previewRows == Preview(selected.value.text) &&
        uploadedFilename == old(uploadedFilename)
    {
      if selected.None? {
        return;
      }
      var name := ToLower(selected.value.name);
      if !EndsWith(name, ".csv") {
        message := ONLY_CSV;
        file := None;
        previewRows := [];
        return;
      }
      file := selected;
      message := "";
      previewRows := Preview(selected.value.text);
    }

    /** `uploadToServer()` once the post has produced `response`. */
    method UploadToServer(response: UploadResponse)
      modifies this, store
      ensures file == old(file) && previewRows == old(previewRows)
      ensures file.None? ==>
        message == CHOOSE_FIRST && uploadedFilename == old(uploadedFilename) &&
        store.items == old(store.items)
      ensures file.Some? && response.Reply? && response.filename.Some? && response.filename.value != "" ==>
        var name := response.filename.value;
        store.items == old(store.items)[UPLOADED_FILENAME := Text(name)] &&
        uploadedFilename == name && message == UPLOADED
      ensures file.Some? && response.Reply? && (response.filename.None? || response.filename.value == "") ==>
        store.items == old(store.items) && uploadedFilename == old(uploadedFilename) &&
        message == UNEXPECTED
      ensures file.Some? && response.RequestFailed? ==>
        store.items == old(store.items) && uploadedFilename == old(uploadedFilename) &&
        message == FAILED
    {
      if file.None? {
        message := CHOOSE_FIRST;
        return;
      }
      match response
      case RequestFailed =>
        message := FAILED;
      case Reply(filename) =>
        if filename.Some? && filename.value != "" {
          store.Set(UPLOADED_FILENAME, Text(filename.value));
          uploadedFilename := filename.value;
          message := UPLOADED;
        } else {
          message := UNEXPECTED;
        }
    }
  }
}
