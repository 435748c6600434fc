/** `FileProcessor`, which app.py and model_handlers.py define identically:
    classify an upload by its extension, reject what is not supported, and
    describe what is (for documents and Python files: line and word counts and
    the text). */
module Files {
  import opened Wrappers
  import opened Text

  datatype FileKind = Image | Document | Excel | Python | Unknown {
    function Name(): string {
      match this
      case Image => "image"
      case Document => "document"
      case Excel => "excel"
      case Python => "python"
      case Unknown => "unknown"
    }
  }

  /** The keys of `supported_extensions`, in the dictionary's order. */
  const ScanOrder: seq<FileKind> := [Image, Document, Excel, Python]

  /** The values of `supported_extensions`. */
  function ExtensionsOf(k: FileKind): seq<string> {
    match k
    case Image => [".jpg", ".jpeg", ".png", ".gif", ".bmp", ".tiff"]
    case Document => [".pdf", ".txt", ".doc", ".docx"]
    case Excel => [".xlsx", ".xls", ".csv"]
    case Python => [".py"]
    case Unknown => []
  }

  /** `ext` is on the list of kind `k`. */
  predicate Lists(k: FileKind, ext: string) {
    ext in ExtensionsOf(k)
  }

  /** No extension is on two lists. */
  lemma ExtensionListsDisjoint(ext: string, k1: FileKind, k2: FileKind)
    requires Lists(k1, ext) && Lists(k2, ext)
    ensures k1 == k2
  {
  }

  /** The kind whose list holds `ext`, or `Unknown`. */
  ghost function KindOf(ext: string): (k: FileKind)
    ensures k != Unknown ==> Lists(k, ext)
    ensures k == Unknown ==> forall k' :: !Lists(k', ext)
  {
    if exists k :: Lists(k, ext) then var k :| Lists(k, ext); k else Unknown
  }

  /** Any kind listing `ext` is the kind of `ext`: the answer does not depend
      on the order in which the lists are searched. */
  lemma KindOfListed(ext: string, k: FileKind)
    requires Lists(k, ext)
    ensures KindOf(ext) == k
  {
    ExtensionListsDisjoint(ext, k, KindOf(ext));
  }

  /** `_get_file_type`: scan the lists in dictionary order and return the first
      kind whose list holds `ext`; `Unknown` when none does. */
  method GetFileType(ext: string) returns (kind: FileKind)
    ensures kind == KindOf(ext)
    ensures kind != Unknown <==> exists i :: 0 <= i < |ScanOrder| && ext in ExtensionsOf(ScanOrder[i])
  {
    var i := 0;
    while i < |ScanOrder|
      invariant 0 <= i <= |ScanOrder|
      invariant forall m :: 0 <= m < i ==> ext !in ExtensionsOf(ScanOrder[m])
    {
      if ext in ExtensionsOf(ScanOrder[i]) {
        kind := ScanOrder[i];
        KindOfListed(ext, kind);
        return;
      }
      i := i + 1;
    }
    assert forall k :: !Lists(k, ext) by {
      forall k ensures !Lists(k, ext) {
        assert k == Unknown || k == ScanOrder[0] || k == ScanOrder[1] || k == ScanOrder[2] || k == ScanOrder[3];
      }
    }
    kind := Unknown;
  }

  /** Some character of `path` in `lo..hi` is not a `.`. */
  predicate NonDotIn(path: string, lo: int, hi: int) {
    exists i :: lo <= i < hi && 0 <= i < |path| && path[i] != '.'
  }

  /** The last component of `path` has a `.` with some other character
      before it: exactly the names `splitext` finds an extension in. */
  predicate HasSuffix(path: string) {
    exists j, k :: LastIndexOf(path, '/') < j < k < |path| && path[j] != '.' && path[k] == '.'
  }

  /** `os.path.splitext(path)[1]` under POSIX rules: the suffix from the last
      `.` of the last path component, or empty when that component has no `.`
      or only dots before its last one. */
  function SplitExt(path: string): (ext: string)
    ensures ext == [] || (ext[0] == '.' && '.' !in ext[1..] && '/' !in ext)
    ensures |ext| <= |path| && path[|path| - |ext|..] == ext
    ensures ext != [] <==> HasSuffix(path)
  {
    var sep := LastIndexOf(path, '/');
    var dot := LastIndexOf(path, '.');
    if dot > sep && NonDotIn(path, sep + 1, dot) then
      path[dot..]
    else
      assert forall j, k :: sep < j < k < |path| && path[j] != '.' && path[k] == '.' ==> sep + 1 <= j < dot;
      ""
  }

  /** `os.path.splitext(name)[1].lower()`: the suffix `splitext` finds, with
      its ASCII capitals lowered. */
  function FileExtension(name: string): (ext: string)
    ensures |ext| == |SplitExt(name)|
    ensures ext == [] || ext[0] == '.'
    ensures forall i :: 0 <= i < |ext| ==> ext[i] == LowerChar(SplitExt(name)[i])
  {
    Lower(SplitExt(name))
  }

  /** With a character other than `.` between the last `/` and the last `.`,
      the extension starts at that `.`. */
  lemma SplitExtAt(path: string, j: int)
    requires LastIndexOf(path, '/') < j < LastIndexOf(path, '.') && path[j] != '.'
    ensures SplitExt(path) == path[LastIndexOf(path, '.')..]
  {
    assert NonDotIn(path, LastIndexOf(path, '/') + 1, LastIndexOf(path, '.'));
  }

  /** Such a name's extension is the lowered suffix from its last `.` on. */
  lemma ExtensionAt(name: string, j: int)
    requires LastIndexOf(name, '/') < j < LastIndexOf(name, '.') && name[j] != '.'
    ensures FileExtension(name) == Lower(name[LastIndexOf(name, '.')..])
  {
    SplitExtAt(name, j);
  }

  /** The extension is lower-cased. */
  lemma UpperCaseExtension()
    ensures FileExtension("report.PDF") == ".pdf"
  {
    assert LastIndexOf("report.PDF", '/') == -1;
    assert LastIndexOf("report.PDF", '.') == 6;
    assert "report.PDF"[0] != '.';
    assert "report.PDF"[6..] == ".PDF";
    assert Lower(".PDF") == [LowerChar('.'), LowerChar('P'), LowerChar('D'), LowerChar('F')];
  }

  /** Only the last suffix counts. */
  lemma DoubleExtension()
    ensures FileExtension("a.tar.gz") == ".gz"
  {
    assert LastIndexOf("a.tar.gz", '/') == -1;
    assert LastIndexOf("a.tar.gz", '.') == 5;
    assert "a.tar.gz"[0] != '.';
    assert "a.tar.gz"[5..] == ".gz";
  }

  /** A name that is only a leading dot and a suffix has no extension. */
  lemma DotFileHasNoExtension()
    ensures FileExtension(".pdf") == ""
  {
    assert LastIndexOf(".pdf", '/') == -1;
    assert LastIndexOf(".pdf", '.') == 0;
  }

  /** An upload: its name, its size, and its bytes decoded as UTF-8 (`None`
      when they are not valid UTF-8, where `decode` raises). */
  datatype Upload = Upload(name: string, size: nat, text: Option<string>)

  /** What the per-kind extractors add to the description. The image and
      spreadsheet extractors are not part of this model. */
  datatype Details =
    | NoDetails
    | ImageData
    | SheetData
    | PythonSource(lines: nat, content: string)
    | DocumentText(lines: nat, words: nat, content: string)

  /** The `file_info` dictionary. */
  datatype FileInfo = FileInfo(filename: string, size: nat, kind: FileKind, extension: string, details: Details)

  datatype FileError = NoFile | Unsupported(extension: string) | ProcessingFailed {
    function Message(): string {
      match this
      case NoFile => "No file uploaded"
      case Unsupported(ext) => "Unsupported file type: " + ext
      case ProcessingFailed => "Error processing file: "
    }
  }

  const PreviewLength := 1000

  /** `content[:1000] + "..." if len(content) > 1000 else content`. */
  function Preview(content: string): (r: string)
    ensures |content| <= PreviewLength ==> r == content
    ensures |content| > PreviewLength ==> |r| == PreviewLength + 3 && r[..PreviewLength] == content[..PreviewLength] && r[PreviewLength..] == "..."
    ensures |r| <= PreviewLength + 3
  {
    if |content| > PreviewLength then content[..PreviewLength] + "..." else content
  }

  /** Previewing a preview changes nothing. */
  lemma PreviewIdempotent(content: string)
    ensures Preview(Preview(content)) == Preview(content)
  {
    if |content| > PreviewLength {
      var p := Preview(content);
      assert p[..PreviewLength] + "..." == p;
    }
  }

  /** `_process_document`: line count, word count and the preview of the text. */
  function ProcessDocument(info: FileInfo, content: string): (r: FileInfo)
    ensures r.filename == info.filename && r.size == info.size && r.kind == info.kind && r.extension == info.extension
    ensures r.details.DocumentText?
    ensures r.details.lines == Count(content, '\n') + 1
    ensures r.details.words == |Words(content)| == RunStarts(content, true)
    ensures r.details.content == Preview(content)
  {
    WordsCount(content);
    info.(details := DocumentText(|Split(content, '\n')|, |Words(content)|, Preview(content)))
  }

  /** `_process_python`: line count and the whole text (the function-name
      extraction is not part of this model). */
  function ProcessPython(info: FileInfo, content: string): (r: FileInfo)
    ensures r.filename == info.filename && r.size == info.size && r.kind == info.kind && r.extension == info.extension
    ensures r.details == PythonSource(Count(content, '\n') + 1, content)
  {
    info.(details := PythonSource(|Split(content, '\n')|, content))
  }

  /** What `process_file` makes of an upload, stated through `KindOf`: no
      upload, an unsupported extension and undecodable text are failures;
      otherwise the description of the upload's kind. */
  ghost function Processed(upload: Option<Upload>): (r: Result<FileInfo, FileError>)
    ensures r.Success? ==> upload.Some? && Lists(r.value.kind, r.value.extension)
    ensures r.Success? ==> r.value.filename == upload.value.name && r.value.size == upload.value.size
    ensures r.Success? ==> r.value.extension == FileExtension(upload.value.name)
  {
    if upload.None? then Failure(NoFile)
    else
      var u := upload.value;
      var ext := FileExtension(u.name);
      var info := FileInfo(u.name, u.size, KindOf(ext), ext, NoDetails);
      match KindOf(ext)
      case Unknown => Failure(Unsupported(ext))
      case Image => Success(info.(details := ImageData))
      case Excel => Success(info.(details := SheetData))
      case Document => if u.text.None? then Failure(ProcessingFailed) else Success(ProcessDocument(info, u.text.value))
      case Python => if u.text.None? then Failure(ProcessingFailed) else Success(ProcessPython(info, u.text.value))
  }

  /** `process_file`. */
  method ProcessFile(upload: Option<Upload>) returns (r: Result<FileInfo, FileError>)
    ensures r == Processed(upload)
    ensures upload.None? ==> r == Failure(NoFile)
    ensures upload.Some? ==>
      var u := upload.value;
      var ext := FileExtension(u.name);
      && (KindOf(ext) == Unknown ==> r == Failure(Unsupported(ext)))
      && ((KindOf(ext) == Document || KindOf(ext) == Python) && u.text.None? ==> r == Failure(ProcessingFailed))
      && (KindOf(ext) == Document && u.text.Some? ==>
            r == Success(ProcessDocument(FileInfo(u.name, u.size, Document, ext, NoDetails), u.text.value)))
      && (KindOf(ext) == Python && u.text.Some? ==>
            r == Success(ProcessPython(FileInfo(u.name, u.size, Python, ext, NoDetails), u.text.value)))
      && (KindOf(ext) == Image ==> r == Success(FileInfo(u.name, u.size, Image, ext, ImageData)))
      && (KindOf(ext) == Excel ==> r == Success(FileInfo(u.name, u.size, Excel, ext, SheetData)))
    ensures r.Success? ==> upload.Some? && Lists(r.value.kind, r.value.extension)
    ensures r.Success? ==> r.value.filename == upload.value.name && r.value.size == upload.value.size
    ensures r.Success? ==> r.value.extension == FileExtension(upload.value.name)
  {
    if upload.None? {
      return Failure(NoFile);
    }
    var u := upload.value;
    var ext := FileExtension(u.name);
    var kind := GetFileType(ext);
    var info := FileInfo(u.name, u.size, kind, ext, NoDetails);
    match kind {
      case Image => r := Success(info.(details := ImageData));
      case Excel => r := Success(info.(details := SheetData));
      case Python =>
        if u.text.None? {
          r := Failure(ProcessingFailed);
        } else {
          r := Success(ProcessPython(info, u.text.value));
        }
      case Document =>
        if u.text.None? {
          r := Failure(ProcessingFailed);
        } else {
          r := Success(ProcessDocument(info, u.text.value));
        }
      case Unknown => r := Failure(Unsupported(ext));
    }
  }
}
