/** `get_loader_for_file` (identical in main.py and Mock.py) and the staging
    path it is given, `os.path.join(UPLOAD_DIR, file.filename)`. */
module Loader {
  import opened Outcomes
  import opened Text

  /** The staging directory uploads are written to. */
  const UploadDir: string := "uploads"

  /** POSIX `os.path.join(a, b)`: an absolute `b` replaces `a`; otherwise a `/`
      is inserted unless `a` is empty or already ends with one. */
  function PosixJoin(a: string, b: string): string
  {
    if |b| > 0 && b[0] == '/' then b
    else if a == [] || a[|a| - 1] == '/' then a + b
    else a + "/" + b
  }

  /** The path an uploaded file is saved under and classified by. */
  function StagingPath(filename: string): (r: string)
    ensures |filename| <= |r| && r[|r| - |filename|..] == filename
    ensures filename != [] && filename[0] == '/' ==> r == filename
    ensures (filename == [] || filename[0] != '/') ==> r == "uploads/" + filename
  {
    PosixJoin(UploadDir, filename)
  }

  /** The four LangChain loader classes the classifier can pick. */
  datatype LoaderKind = PyPdfLoader | Docx2txtLoader | TextLoader | CsvLoader

  /** The supported lower-case extensions and the loader each selects. */
  const SupportedExtensions: map<string, LoaderKind> :=
    map["pdf" := PyPdfLoader, "docx" := Docx2txtLoader, "doc" := Docx2txtLoader,
        "txt" := TextLoader, "csv" := CsvLoader]

  /** `file_path.split(".")[-1].lower()`. */
  function Extension(path: string): string
  {
    Lower(LastSegment(path, '.'))
  }

  /** The `ValueError` raised for an extension no loader handles. */
  function UnsupportedFormat(ext: string): Exc
  {
    Exc(ValueError, "Unsupported file format: " + ext)
  }

  /** The branches of `get_loader_for_file` on an already lower-cased
      extension: the loader listed for it, or the unsupported-format error. */
  function ClassifyExtension(ext: string): (r: Result<LoaderKind>)
    ensures ext in SupportedExtensions ==> r == Success(SupportedExtensions[ext])
    ensures ext !in SupportedExtensions ==> r == Failure(UnsupportedFormat(ext))
  {
    if ext == "pdf" then Success(PyPdfLoader)
    else if ext == "docx" || ext == "doc" then Success(Docx2txtLoader)
    else if ext == "txt" then Success(TextLoader)
    else if ext == "csv" then Success(CsvLoader)
    else Failure(UnsupportedFormat(ext))
  }

  /** `get_loader_for_file`: the loader listed for the lower-cased extension,
      or the unsupported-format `ValueError` naming that extension. */
  function LoaderForFile(path: string): (r: Result<LoaderKind>)
    ensures Extension(path) in SupportedExtensions ==>
              r == Success(SupportedExtensions[Extension(path)])
    ensures Extension(path) !in SupportedExtensions ==>
              r == Failure(UnsupportedFormat(Extension(path)))
  {
    ClassifyExtension(Extension(path))
  }

  /** Staging does not change the extension of a name that has one: the
      directory prefix only matters for a dotless name. */
  lemma StagingKeepsExtension(filename: string)
    requires '.' in filename
    ensures Extension(StagingPath(filename)) == Extension(filename)
  {
    LastSegmentOfSuffix(StagingPath(filename), filename, '.');
  }

  /** The extension of `stem.e` is `e` lower-cased, whatever the stem holds. */
  lemma ExtensionOfDottedName(stem: string, e: string)
    requires '.' !in e
    ensures Extension(stem + "." + e) == Lower(e)
  {
    LastSegmentAfterSeparator(stem, '.', e);
  }

  /** Classification ignores case: two names whose final extensions differ only
      in letter case get the same loader, or the same error. */
  lemma ClassificationIgnoresCase(stem1: string, e1: string, stem2: string, e2: string)
    requires '.' !in e1 && '.' !in e2
    requires Lower(e1) == Lower(e2)
    ensures LoaderForFile(stem1 + "." + e1) == LoaderForFile(stem2 + "." + e2)
  {
    ExtensionOfDottedName(stem1, e1);
    ExtensionOfDottedName(stem2, e2);
  }

  /** A name ending in `.` has the empty extension, which is rejected. */
  lemma TrailingDotRejected(stem: string)
    ensures LoaderForFile(stem + ".") == Failure(UnsupportedFormat(""))
  {
    ExtensionOfDottedName(stem, "");
    assert stem + "." + "" == stem + ".";
  }

  /** The staging directory prefix is already lower-case. */
  lemma LowerStagingPrefix()
    ensures Lower("uploads/") == "uploads/"
  {
    var u := Lower("uploads/");
    assert forall i :: 0 <= i < |u| ==> u[i] == "uploads/"[i];
  }

  /** A relative file name is saved inside the staging directory. */
  lemma RelativeStagingPath(filename: string)
    requires filename == [] || filename[0] != '/'
    ensures StagingPath(filename) == "uploads/" + filename
  {
  }

  /** The staging path of a relative file name without any `.` is its own
      extension, lower-cased. */
  lemma DotlessExtension(filename: string)
    requires '.' !in filename
    requires filename == [] || filename[0] != '/'
    ensures Extension(StagingPath(filename)) == "uploads/" + Lower(filename)
  {
    RelativeStagingPath(filename);
    var path := "uploads/" + filename;
    assert '.' !in "uploads/";
    assert '.' !in path;
    LastSegmentWithoutSeparator(path, '.');
    LowerConcat("uploads/", filename);
    LowerStagingPrefix();
  }

  /** A path whose extension is longer than four characters is rejected, since
      no supported extension is that long. */
  lemma LongExtensionRejected(path: string)
    requires |Extension(path)| > 4
    ensures LoaderForFile(path) == Failure(UnsupportedFormat(Extension(path)))
  {
  }

  /** A relative file name without any `.` makes the whole staging path, lower-cased,
      the "extension"; it is rejected and the message names that path. */
  lemma DotlessNameRejected(filename: string)
    requires '.' !in filename
    requires filename == [] || filename[0] != '/'
    ensures LoaderForFile(StagingPath(filename)) ==
              Failure(UnsupportedFormat("uploads/" + Lower(filename)))
  {
    DotlessExtension(filename);
    LongExtensionRejected(StagingPath(filename));
  }

  /** The five supported extensions, in any letter case, after any stem. */
  lemma SupportedExtensionsSelectTheirLoader(stem: string, e: string)
    requires '.' !in e
    ensures Lower(e) == "pdf" ==> LoaderForFile(stem + "." + e) == Success(PyPdfLoader)
    ensures Lower(e) in {"docx", "doc"} ==> LoaderForFile(stem + "." + e) == Success(Docx2txtLoader)
    ensures Lower(e) == "txt" ==> LoaderForFile(stem + "." + e) == Success(TextLoader)
    ensures Lower(e) == "csv" ==> LoaderForFile(stem + "." + e) == Success(CsvLoader)
    ensures Lower(e) !in SupportedExtensions ==>
              LoaderForFile(stem + "." + e) == Failure(UnsupportedFormat(Lower(e)))
  {
    ExtensionOfDottedName(stem, e);
  }
}
