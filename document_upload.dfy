/** The documents section of the wizard
    (src/components/sections/DocumentUploadSection.tsx): which of the chosen
    files are uploaded and added to `uploadedDocuments`, the message shown,
    and removing a document. The upload itself (`generateUploadUrl` and
    `fetch`) is an oracle `upload` that, for the file at position `i`,
    either fails or returns a storage id. */
module DocumentUpload {
  import opened JsSemantics
  import opened AssessmentTypes

  const MaxFileSizeMb: nat := 25
  const MaxFiles: nat := 20

  /** `MAX_FILE_SIZE_MB * 1024 * 1024`. */
  const MaxFileBytes: nat := MaxFileSizeMb * 1024 * 1024

  /** The key of the documents field in the record. */
  const DocumentsField: string := "uploadedDocuments"

  /** One chosen file: its name and its size in bytes. */
  datatype SelectedFile = SelectedFile(name: string, size: nat)

  /** What the upload of one file gives. */
  datatype UploadOutcome = Uploaded(storageId: string) | UploadFailed

  /** The messages of the section, spelled out by `UploadErrorText`. */
  datatype UploadError =
    | TooManyFiles(maxTotal: int)
    | FileTooLarge(fileName: string)
    | UploadsFailed

  /** A JavaScript template literal's rendering of an integer. */
  function IntToString(n: int): string {
    if n < 0 then "-" + NatToString(-n) else NatToString(n)
  }

  function UploadErrorText(e: UploadError): string {
    match e
    case TooManyFiles(maxTotal) =>
      "Only " + IntToString(maxTotal) + " more file(s) can be added (max " + NatToString(MaxFiles) + " total)."
    case FileTooLarge(name) =>
      "\"" + name + "\" is over " + NatToString(MaxFileSizeMb) + "MB and was skipped."
    case UploadsFailed => "One or more uploads failed. Please try again."
  }

  /** `file.size > MAX_FILE_SIZE_MB * 1024 * 1024` fails. */
  predicate WithinSizeLimit(f: SelectedFile) {
    f.size <= MaxFileBytes
  }

  /** `data.uploadedDocuments ?? []`. */
  function DocsOf(data: AssessmentData): seq<UploadedDocument> {
    DocumentsOf(data, DocumentsField).GetOr([])
  }

  /** `Math.min`. */
  function Min(a: int, b: int): (r: int)
    ensures r <= a && r <= b && (r == a || r == b)
  {
    if a <= b then a else b
  }

  /** `MAX_FILES - docs.length`: how many more documents fit. */
  function MaxTotal(docs: seq<UploadedDocument>): int {
    MaxFiles - |docs|
  }

  /** `remaining`: how many of the chosen files the loop looks at. */
  function Remaining(docs: seq<UploadedDocument>, files: seq<SelectedFile>): (r: int)
    ensures r <= |files| && r <= MaxFiles - |docs|
    ensures r == |files| || r == MaxFiles - |docs|
  {
    Min(|files|, MaxTotal(docs))
  }

  /** How many files the loop looks at: `remaining`, or none when it is
      negative. */
  function Looked(docs: seq<UploadedDocument>, files: seq<SelectedFile>): (n: nat)
    ensures n <= |files|
    ensures n <= MaxFiles - |docs| || n == 0
  {
    var r := Remaining(docs, files);
    if r < 0 then 0 else r
  }

  /** The message set before the loop: the "too many" one iff more files
      were chosen than fit. */
  function FirstError(docs: seq<UploadedDocument>, files: seq<SelectedFile>): (r: Option<UploadError>)
    ensures r.Some? <==> |files| > MaxFiles - |docs|
    ensures r.Some? ==> r.value == TooManyFiles(MaxFiles - |docs|)
  {
    if |files| > MaxTotal(docs) then Some(TooManyFiles(MaxTotal(docs))) else None
  }

  /** Where the loop over the files stands: the message last set, the
      documents collected in `toAdd`, and whether an upload has failed
      (which throws out of the loop). */
  datatype Progress = Progress(error: Option<UploadError>, toAdd: seq<UploadedDocument>, failed: bool)

  /** The loop's state after looking at the first `k` files, from the
      message `start`. */
  function Attempt(files: seq<SelectedFile>, upload: nat -> UploadOutcome, start: Option<UploadError>, k: nat): (r: Progress)
    requires k <= |files|
    ensures |r.toAdd| <= k
    decreases k
  {
    if k == 0 then Progress(start, [], false)
    else
      var prev := Attempt(files, upload, start, k - 1);
      var file := files[k - 1];
      if prev.failed then prev
      else if !WithinSizeLimit(file) then prev.(error := Some(FileTooLarge(file.name)))
      else match upload(k - 1)
        case UploadFailed => prev.(failed := true)
        case Uploaded(id) => prev.(toAdd := prev.toAdd + [UploadedDocument(id, file.name)])
  }

  /** The names of some files, or of some documents. */
  function FileNames(fs: seq<SelectedFile>): (r: seq<string>)
    ensures |r| == |fs| && forall i :: 0 <= i < |fs| ==> r[i] == fs[i].name
  {
    seq(|fs|, i requires 0 <= i < |fs| => fs[i].name)
  }

  function DocNames(ds: seq<UploadedDocument>): (r: seq<string>)
    ensures |r| == |ds| && forall i :: 0 <= i < |ds| ==> r[i] == ds[i].fileName
  {
    seq(|ds|, i requires 0 <= i < |ds| => ds[i].fileName)
  }

  /** Some file within the size limit among the first `k` failed to upload. */
  predicate SomeUploadFails(files: seq<SelectedFile>, upload: nat -> UploadOutcome, k: nat)
    requires k <= |files|
  {
    exists i :: 0 <= i < k && WithinSizeLimit(files[i]) && upload(i).UploadFailed?
  }

  /** The loop fails exactly when the upload of a file within the size limit
      fails. */
  lemma {:induction false} AttemptFailsIff(files: seq<SelectedFile>, upload: nat -> UploadOutcome, start: Option<UploadError>, k: nat)
    requires k <= |files|
    ensures Attempt(files, upload, start, k).failed <==> SomeUploadFails(files, upload, k)
  {
    if k > 0 {
      AttemptFailsIff(files, upload, start, k - 1);
      if SomeUploadFails(files, upload, k - 1) {
        var i :| 0 <= i < k - 1 && WithinSizeLimit(files[i]) && upload(i).UploadFailed?;
        assert 0 <= i < k;
      }
      if SomeUploadFails(files, upload, k) && !SomeUploadFails(files, upload, k - 1) {
        var i :| 0 <= i < k && WithinSizeLimit(files[i]) && upload(i).UploadFailed?;
        assert i == k - 1;
      }
    }
  }

  /** Without a failure, the documents added are the files within the size
      limit, in the order they were chosen: an oversized file is never
      added. */
  lemma {:induction false} AttemptAddsSmallFiles(files: seq<SelectedFile>, upload: nat -> UploadOutcome, start: Option<UploadError>, k: nat)
    requires k <= |files|
    ensures var r := Attempt(files, upload, start, k);
      !r.failed ==> DocNames(r.toAdd) == FileNames(Filter(files[..k], WithinSizeLimit))
  {
    if k > 0 {
      var prev := Attempt(files, upload, start, k - 1);
      var r := Attempt(files, upload, start, k);
      var f := files[k - 1];
      AttemptAddsSmallFiles(files, upload, start, k - 1);
      var small := Filter(files[..k - 1], WithinSizeLimit);
      assert Filter(files[..k], WithinSizeLimit) == small + Filter([f], WithinSizeLimit) by {
        assert files[..k] == files[..k - 1] + [f];
        FilterAppend(files[..k - 1], [f], WithinSizeLimit);
      }
      if !r.failed {
        assert !prev.failed;
        if WithinSizeLimit(f) {
          var d := UploadedDocument(upload(k - 1).storageId, f.name);
          assert r.toAdd == prev.toAdd + [d];
          assert Filter([f], WithinSizeLimit) == [f];
          DocNamesSnoc(prev.toAdd, d);
          FileNamesSnoc(small, f);
        } else {
          assert r.toAdd == prev.toAdd;
          assert Filter([f], WithinSizeLimit) == [];
          assert small + [] == small;
        }
      }
    }
  }

  lemma DocNamesSnoc(ds: seq<UploadedDocument>, d: UploadedDocument)
    ensures DocNames(ds + [d]) == DocNames(ds) + [d.fileName]
  {
  }

  lemma FileNamesSnoc(fs: seq<SelectedFile>, f: SelectedFile)
    ensures FileNames(fs + [f]) == FileNames(fs) + [f.name]
  {
  }

  /** The "too many" message survives the loop unless a file is oversized,
      and no other path shows it: it is shown at the end of a successful
      selection iff more files were chosen than fit and every file looked
      at was within the limit. */
  lemma {:induction false} AttemptKeepsStart(files: seq<SelectedFile>, upload: nat -> UploadOutcome, start: Option<UploadError>, k: nat)
    requires k <= |files|
    ensures var r := Attempt(files, upload, start, k);
      && ((forall i :: 0 <= i < k ==> WithinSizeLimit(files[i])) ==> r.error == start)
      && (r.error.Some? && r.error.value.TooManyFiles? ==> r.error == start)
  {
    if k > 0 {
      AttemptKeepsStart(files, upload, start, k - 1);
    }
  }

  /** Once an upload has failed the rest of the files are not looked at. */
  lemma {:induction false} FailedStays(files: seq<SelectedFile>, upload: nat -> UploadOutcome, start: Option<UploadError>, k: nat, m: nat)
    requires k <= m <= |files|
    requires Attempt(files, upload, start, k).failed
    ensures Attempt(files, upload, start, m) == Attempt(files, upload, start, k)
    decreases m - k
  {
    if k < m {
      FailedStays(files, upload, start, k, m - 1);
    }
  }

  /** `docs.filter((_, i) => i !== index)`: every document but the one at
      `index`; an index out of range removes nothing. */
  function RemoveDoc(docs: seq<UploadedDocument>, index: int): (r: seq<UploadedDocument>)
    ensures 0 <= index < |docs| ==> |r| == |docs| - 1
    ensures 0 <= index < |docs| ==> forall j :: 0 <= j < |r| ==> r[j] == (if j < index then docs[j] else docs[j + 1])
    ensures !(0 <= index < |docs|) ==> r == docs
  {
    if 0 <= index < |docs| then docs[..index] + docs[index + 1..] else docs
  }

  /** Putting the removed document back at its place gives the list back,
      and nothing else was lost. */
  lemma RemoveDocRoundTrip(docs: seq<UploadedDocument>, index: int)
    requires 0 <= index < |docs|
    ensures RemoveDoc(docs, index)[..index] + [docs[index]] + RemoveDoc(docs, index)[index..] == docs
    ensures multiset(RemoveDoc(docs, index)) + multiset{docs[index]} == multiset(docs)
  {
    var r := RemoveDoc(docs, index);
    assert r[..index] == docs[..index];
    assert r[index..] == docs[index + 1..];
    assert docs == docs[..index] + [docs[index]] + docs[index + 1..];
  }

  /** `removeDoc`: the record handed to `updateData`. */
  function RemoveDocUpdate(data: AssessmentData, index: int): (r: AssessmentData)
    ensures r.Keys == data.Keys + {DocumentsField}
    ensures r[DocumentsField] == Documents(RemoveDoc(DocsOf(data), index))
    ensures forall k :: k in data && k != DocumentsField ==> r[k] == data[k]
  {
    data[DocumentsField := Documents(RemoveDoc(DocsOf(data), index))]
  }

  /** The section's own state: the message shown and the busy flag. */
  class UploadSection {
    var uploading: bool
    var error: Option<UploadError>

    constructor()
      ensures !uploading && error == None
    {
      uploading := false;
      error := None;
    }

    /** `handleFileSelect` for the chosen `files`. The result is the record
        handed to `updateData`, or `None` when it is not called (no file
        chosen, or an upload failed). */
    method HandleFileSelect(data: AssessmentData, files: seq<SelectedFile>, upload: nat -> UploadOutcome)
      returns (update: Option<AssessmentData>)
      modifies this
      ensures files == [] ==> update == None && error == old(error) && uploading == old(uploading)
      ensures files != [] ==>
        var docs := DocsOf(data);
        var r := Attempt(files, upload, FirstError(docs, files), Looked(docs, files));
        && !uploading
        && (r.failed ==> update == None && error == Some(UploadsFailed))
        && (!r.failed ==> update == Some(data[DocumentsField := Documents(docs + r.toAdd)]) && error == r.error)
    {
      if |files| == 0 {
        return None;
      }
      var docs := DocsOf(data);
      var message: Option<UploadError> := None;
      var toAdd: seq<UploadedDocument> := [];
      var maxTotal := MaxTotal(docs);
      var remaining := Min(|files|, maxTotal);
      if |files| > maxTotal {
        message := Some(TooManyFiles(maxTotal));
      }
      uploading := true;
      var start := message;
      assert start == FirstError(docs, files);
      var n: nat := if remaining < 0 then 0 else remaining;
      assert n == Looked(docs, files);
      var failed := false;
      var i := 0;
      while i < remaining
        invariant 0 <= i <= n
        invariant Attempt(files, upload, start, i) == Progress(message, toAdd, false)
      {
        var file := files[i];
        if file.size > MaxFileSizeMb * 1024 * 1024 {
          message := Some(FileTooLarge(file.name));
          i := i + 1;
          continue;
        }
        var outcome := upload(i);
        if outcome.UploadFailed? {
          failed := true;
          FailedStays(files, upload, start, i + 1, n);
          break;
        }
        toAdd := toAdd + [UploadedDocument(outcome.storageId, file.name)];
        i := i + 1;
      }
      if failed {
        error := Some(UploadsFailed);
        update := None;
      } else {
        error := message;
        update := Some(data[DocumentsField := Documents(docs + toAdd)]);
      }
      uploading := false;
    }
  }

  /** A selection never takes the list past twenty documents when it was
      within twenty before. */
  lemma NeverMoreThanMaxFiles(data: AssessmentData, files: seq<SelectedFile>, upload: nat -> UploadOutcome)
    requires |DocsOf(data)| <= MaxFiles
    ensures var docs := DocsOf(data);
      var r := Attempt(files, upload, FirstError(docs, files), Looked(docs, files));
      |docs + r.toAdd| <= MaxFiles
  {
  }

  /** At most `min(files.length, 20 - docs.length)` files are looked at, so
      at most that many are added, and the files beyond are never uploaded:
      changing the outcome of their uploads changes nothing. */
  lemma OnlyFirstFilesAttempted(files: seq<SelectedFile>, upload: nat -> UploadOutcome, other: nat -> UploadOutcome, start: Option<UploadError>, n: nat)
    requires n <= |files|
    requires forall i :: 0 <= i < n ==> upload(i) == other(i)
    ensures Attempt(files, upload, start, n) == Attempt(files, other, start, n)
    ensures |Attempt(files, upload, start, n).toAdd| <= n
  {
    SameOutcomesSameAttempt(files, upload, other, start, n);
  }

  lemma {:induction false} SameOutcomesSameAttempt(files: seq<SelectedFile>, upload: nat -> UploadOutcome, other: nat -> UploadOutcome, start: Option<UploadError>, k: nat)
    requires k <= |files|
    requires forall i :: 0 <= i < k ==> upload(i) == other(i)
    ensures Attempt(files, upload, start, k) == Attempt(files, other, start, k)
  {
    if k > 0 {
      SameOutcomesSameAttempt(files, upload, other, start, k - 1);
    }
  }
}
