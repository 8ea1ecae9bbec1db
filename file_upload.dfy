/** The upload widget of components/file-upload.tsx: client-side validation
    of a chosen file, and the selection / cancel state around it. The upload
    request itself is not part of this model. */
module FileUpload {
  import opened Types
  import opened Text

  /** What the browser tells about a file. */
  datatype FileInfo = FileInfo(name: string, mimeType: string, size: nat)

  const AllowedFileTypes: seq<string> := [
    "text/csv",
    "application/vnd.ms-excel",
    "application/vnd.openxmlformats-officedocument.spreadsheetml.sheet"
  ]

  const AllowedExtensions: seq<string> := [".csv", ".xls", ".xlsx"]

  /** 5 MiB. */
  const MaxFileSize: nat := 5 * 1024 * 1024

  datatype UploadError = InvalidType | TooLarge {
    /** The message the widget shows. */
    function Message(): string {
      match this
      case InvalidType => "Ungültiger Dateityp. Erlaubt sind nur: .csv, .xls, .xlsx"
      case TooLarge => "Die Datei ist zu groß. Maximale Größe: 5MB"
    }
  }

  /** `name.substring(name.lastIndexOf(".")).toLowerCase()`: from the last dot
      to the end, lower-cased; the whole name when there is no dot. */
  function Extension(name: string): (r: string)
    ensures '.' !in name ==> r == ToLower(name)
    ensures '.' in name ==> |r| >= 1 && r[0] == '.' && '.' !in r[1..]
    ensures '.' in name ==> r == ToLower(name[LastIndexOf(name, '.')..])
    ensures '.' in name ==> exists k :: 0 <= k < |name| && name[k] == '.' && '.' !in name[k + 1..]
                                        && r == ToLower(name[k..])
  {
    var k := LastIndexOf(name, '.');
    assert '.' in name ==> 0 <= k && '.' !in name[k + 1..] by {
      if '.' in name {
        var tail := name[k + 1..];
        forall j | 0 <= j < |tail| ensures tail[j] != '.' {
          assert tail[j] == name[k + 1 + j];
        }
      }
    }
    ToLower(SubstringFrom(name, k))
  }

  /** The type check: an allowed MIME type, or else an allowed extension. */
  predicate TypeAllowed(f: FileInfo) {
    f.mimeType in AllowedFileTypes || Extension(f.name) in AllowedExtensions
  }

  /** `validateFile`: the type check first, then the size cap. */
  function ValidateFile(f: FileInfo): (r: Result<FileInfo, UploadError>)
    ensures r.Ok? <==> TypeAllowed(f) && f.size <= MaxFileSize
    ensures r.Ok? ==> r.value == f
    ensures r == Err(InvalidType) <==> !TypeAllowed(f)
    ensures r == Err(TooLarge) <==> TypeAllowed(f) && f.size > MaxFileSize
  {
    if !TypeAllowed(f) then Err(InvalidType)
    else if f.size > MaxFileSize then Err(TooLarge)
    else Ok(f)
  }

  /** An allowed MIME type passes the type check whatever the name: only the
      size then decides. */
  lemma AllowedMimeIgnoresName(f: FileInfo)
    requires f.mimeType in AllowedFileTypes
    ensures ValidateFile(f).Ok? <==> f.size <= MaxFileSize
  {
  }

  /** Without an allowed MIME type, a name without a dot is always rejected. */
  lemma NoDotRejected(f: FileInfo)
    requires f.mimeType !in AllowedFileTypes && '.' !in f.name
    ensures ValidateFile(f) == Err(InvalidType)
  {
    var e := Extension(f.name);
    assert '.' !in e by {
      forall k | 0 <= k < |e| ensures e[k] != '.' {
        assert e[k] == LowerChar(f.name[k]);
      }
    }
    forall x | x in AllowedExtensions ensures e != x {
      assert x[0] == '.';
    }
  }

  /** The extension is compared case-insensitively: names that differ only in
      letter case get the same verdict. */
  lemma ExtensionCaseInsensitive(f: FileInfo, g: FileInfo)
    requires ToLower(f.name) == ToLower(g.name)
    requires f.mimeType == g.mimeType && f.size == g.size
    ensures ValidateFile(f).Ok? <==> ValidateFile(g).Ok?
  {
    assert Extension(f.name) == Extension(g.name) by {
      LastIndexOfToLower(f.name, '.');
      LastIndexOfToLower(g.name, '.');
      ToLowerSuffix(f.name, LastIndexOf(f.name, '.'));
      ToLowerSuffix(g.name, LastIndexOf(g.name, '.'));
    }
  }

  /** Exactly 5 MiB is accepted, one byte more is not. */
  lemma SizeBoundary(f: FileInfo)
    requires TypeAllowed(f)
    ensures f.size == MaxFileSize ==> ValidateFile(f).Ok?
    ensures f.size == MaxFileSize + 1 ==> ValidateFile(f) == Err(TooLarge)
  {
  }

  /** A file with a bad type that is also too large reports the type error. */
  lemma TypeCheckedFirst(f: FileInfo)
    requires !TypeAllowed(f) && f.size > MaxFileSize
    ensures ValidateFile(f) == Err(InvalidType)
  {
  }

  /** An upper-case extension is accepted with no MIME type at all. */
  lemma UpperCaseExtensionAccepted()
    ensures ValidateFile(FileInfo("Rechnungen.CSV", "", 100)).Ok?
  {
    assert Extension("Rechnungen.CSV") == ".csv" by {
      assert "Rechnungen.CSV"[10] == '.';
      assert LastIndexOf("Rechnungen.CSV", '.') == 10;
    }
  }

  /** Only the part after the last dot counts: an earlier dot is ignored... */
  lemma LastDotCounts()
    ensures ValidateFile(FileInfo("q3.final.xlsx", "", MaxFileSize)).Ok?
  {
    assert Extension("q3.final.xlsx") == ".xlsx" by {
      assert "q3.final.xlsx"[8] == '.';
      assert LastIndexOf("q3.final.xlsx", '.') == 8;
    }
  }

  /** ...and so is an allowed extension before the last dot. */
  lemma InnerExtensionIgnored()
    ensures ValidateFile(FileInfo("daten.xlsx.pdf", "", 100)) == Err(InvalidType)
  {
    assert Extension("daten.xlsx.pdf") == ".pdf" by {
      assert "daten.xlsx.pdf"[10] == '.';
      assert LastIndexOf("daten.xlsx.pdf", '.') == 10;
    }
  }

  /** A CSV over the cap is refused for its size. */
  lemma OversizedCsvRejected()
    ensures ValidateFile(FileInfo("big.csv", "text/csv", 6815744)) == Err(TooLarge)
  {
  }

  /** The choice made by a drop or a file-input change: only the first file is
      considered; a valid one replaces the selection, an invalid one leaves the
      selection and reports why. Returns the new selection and the new error. */
  function Choose(current: Option<FileInfo>, files: seq<FileInfo>): (r: (Option<FileInfo>, Option<string>))
    ensures files == [] ==> r == (current, None)
    ensures files != [] && ValidateFile(files[0]).Ok? ==> r == (Some(files[0]), None)
    ensures files != [] && ValidateFile(files[0]).Err? ==>
      r == (current, Some(ValidateFile(files[0]).error.Message()))
    ensures r.0 == current || r.0 == Some(files[0])
  {
    if files == [] then (current, None)
    else match ValidateFile(files[0])
      case Ok(f) => (Some(f), None)
      case Err(e) => (current, Some(e.Message()))
  }

  /** The widget's state. */
  class Uploader {
    var isDragging: bool
    var file: Option<FileInfo>
    var isUploading: bool
    var uploadProgress: int
    var error: Option<string>
    var success: Option<string>

    constructor ()
      ensures !isDragging && file.None? && !isUploading && uploadProgress == 0
      ensures error.None? && success.None?
    {
      isDragging, file, isUploading, uploadProgress := false, None, false, 0;
      error, success := None, None;
    }

    /** `handleDrop`: ends dragging, clears both messages, then chooses. */
    method HandleDrop(files: seq<FileInfo>)
      modifies this
      ensures !isDragging && success.None?
      ensures (file, error) == Choose(old(file), files)
      ensures isUploading == old(isUploading) && uploadProgress == old(uploadProgress)
    {
      isDragging := false;
      error := None;
      success := None;
      file, error := Choose(file, files).0, Choose(file, files).1;
    }

    /** `handleFileChange`: clears both messages, then chooses. */
    method HandleFileChange(files: seq<FileInfo>)
      modifies this
      ensures success.None?
      ensures (file, error) == Choose(old(file), files)
      ensures isDragging == old(isDragging)
      ensures isUploading == old(isUploading) && uploadProgress == old(uploadProgress)
    {
      error := None;
      success := None;
      file, error := Choose(file, files).0, Choose(file, files).1;
    }

    /** The opening of `handleUpload`: without a selected file nothing
      happens; otherwise the upload starts with progress 0 and no error. */
    method BeginUpload() returns (started: bool)
      modifies this
      ensures started <==> old(file).Some?
      ensures !started ==> isUploading == old(isUploading) && uploadProgress == old(uploadProgress)
                           && error == old(error)
      ensures started ==> isUploading && uploadProgress == 0 && error.None?
      ensures file == old(file) && success == old(success) && isDragging == old(isDragging)
    {
      if file.None? {
        return false;
      }
      isUploading := true;
      uploadProgress := 0;
      error := None;
      started := true;
    }

    /** `handleCancel`: forgets the file and both messages. */
    method HandleCancel()
      modifies this
      ensures file.None? && error.None? && success.None?
      ensures isDragging == old(isDragging)
      ensures isUploading == old(isUploading) && uploadProgress == old(uploadProgress)
    {
      file, error, success := None, None, None;
    }

    /** `handleDragOver` / `handleDragLeave`. */
    method SetDragging(dragging: bool)
      modifies this`isDragging
      ensures isDragging == dragging
    {
      isDragging := dragging;
    }
  }
}
