/**
 * The plain logic of the shop screen (components/ShopInterface.tsx): the
 * MIME type a download is given, the name of the placeholder file, the
 * shop-ID setup guard, the average-wait display and the rule that a
 * document is completed once its download went through.
 */
module ShopView {
  import opened Types
  import opened Text

  const OCTET_STREAM: string := "application/octet-stream"

  /** Extension (lower case, without the dot) to MIME type. */
  const MimeTypes: map<string, string> := map[
    "pdf" := "application/pdf",
    "doc" := "application/msword",
    "docx" := "application/vnd.openxmlformats-officedocument.wordprocessingml.document",
    "xls" := "application/vnd.ms-excel",
    "xlsx" := "application/vnd.openxmlformats-officedocument.spreadsheetml.sheet",
    "ppt" := "application/vnd.ms-powerpoint",
    "pptx" := "application/vnd.openxmlformats-officedocument.presentationml.presentation",
    "txt" := "text/plain",
    "rtf" := "application/rtf",
    "odt" := "application/vnd.oasis.opendocument.text",
    "jpg" := "image/jpeg",
    "jpeg" := "image/jpeg",
    "png" := "image/png",
    "gif" := "image/gif",
    "bmp" := "image/bmp",
    "webp" := "image/webp",
    "svg" := "image/svg+xml",
    "tiff" := "image/tiff",
    "tif" := "image/tiff",
    "zip" := "application/zip",
    "rar" := "application/x-rar-compressed",
    "7z" := "application/x-7z-compressed",
    "tar" := "application/x-tar",
    "gz" := "application/gzip",
    "mp3" := "audio/mpeg",
    "mp4" := "video/mp4",
    "avi" := "video/x-msvideo",
    "mov" := "video/quicktime",
    "csv" := "text/csv",
    "json" := "application/json",
    "xml" := "application/xml",
    "html" := "text/html",
    "css" := "text/css",
    "js" := "application/javascript"
  ]

  /** `fileName.toLowerCase().split('.').pop()`. */
  function Extension(fileName: string): string {
    AfterLast(ToLower(fileName), '.')
  }

  /** The extension is the lower-cased name's last dot-free segment, after its last dot. */
  lemma ExtensionShape(fileName: string)
    ensures var ext := Extension(fileName);
            && '.' !in ext && |ext| <= |fileName|
            && ext == ToLower(fileName)[|fileName| - |ext|..]
            && (|ext| < |fileName| ==> ToLower(fileName)[|fileName| - |ext| - 1] == '.')
  {
  }

  /** The table entry for the extension, or application/octet-stream. */
  function MimeTypeOfExtension(ext: string): string {
    if ext in MimeTypes then MimeTypes[ext] else OCTET_STREAM
  }

  /** getMimeTypeFromFileName. */
  function MimeTypeFromFileName(fileName: string): string {
    MimeTypeOfExtension(Extension(fileName))
  }

  lemma LowerKeepsDots(s: string)
    ensures '.' in ToLower(s) <==> '.' in s
  {
    if '.' in s {
      var i :| 0 <= i < |s| && s[i] == '.';
      assert ToLower(s)[i] == '.';
    }
    if '.' in ToLower(s) {
      var i :| 0 <= i < |s| && ToLower(s)[i] == '.';
      assert s[i] == '.';
    }
  }

  /**
   * A name `base.ext` whose last segment `ext` has no dot is typed by the
   * table entry for `ext` in lower case, whatever `base` is.
   */
  lemma MimeOfExtension(base: string, ext: string)
    requires '.' !in ext
    ensures Extension(base + "." + ext) == ToLower(ext)
    ensures MimeTypeFromFileName(base + "." + ext) == MimeTypeOfExtension(ToLower(ext))
  {
    ToLowerConcat(base + ".", ext);
    ToLowerConcat(base, ".");
    assert ToLower(".") == ".";
    LowerKeepsDots(ext);
    assert ToLower(base + "." + ext) == ToLower(base) + (['.'] + ToLower(ext));
    AfterLastOfJoin(ToLower(base), '.', ToLower(ext));
  }

  /** A name without any dot is looked up whole, in lower case. */
  lemma MimeWithoutDot(fileName: string)
    requires '.' !in fileName
    ensures Extension(fileName) == ToLower(fileName)
    ensures MimeTypeFromFileName(fileName) == MimeTypeOfExtension(ToLower(fileName))
  {
    var s := ToLower(fileName);
    LowerKeepsDots(fileName);
    var r := AfterLast(s, '.');
    assert forall i | 0 <= i < |s| :: s[i] != '.';
    assert r == s;
  }

  /** A trailing dot leaves an empty extension, which the table does not hold. */
  lemma TrailingDotIsOctetStream(base: string)
    ensures MimeTypeFromFileName(base + ".") == OCTET_STREAM
  {
    MimeOfExtension(base, "");
    assert base + "." + "" == base + ".";
    assert ToLower("") == "";
    assert "" !in MimeTypes;
  }

  /** Names that differ only in the case of their letters get the same type. */
  lemma MimeIgnoresCase(a: string, b: string)
    requires ToLower(a) == ToLower(b)
    ensures MimeTypeFromFileName(a) == MimeTypeFromFileName(b)
  {
  }

  /** Lower-casing leaves a text without capital letters as it is. */
  lemma LowerOfUncapitalised(e: string)
    requires forall i | 0 <= i < |e| :: !('A' <= e[i] <= 'Z')
    ensures ToLower(e) == e
  {
  }

  /** The table entries of the two image aliases. */
  lemma AliasEntries()
    ensures MimeTypeOfExtension("jpg") == MimeTypeOfExtension("jpeg") == "image/jpeg"
    ensures MimeTypeOfExtension("tif") == MimeTypeOfExtension("tiff") == "image/tiff"
  {
    assert MimeTypes["jpg"] == "image/jpeg";
    assert MimeTypes["jpeg"] == "image/jpeg";
    assert MimeTypes["tif"] == "image/tiff";
    assert MimeTypes["tiff"] == "image/tiff";
  }

  /** The alias extensions are written in lower case. */
  lemma AliasesLowerCase()
    ensures ToLower("jpg") == "jpg" && ToLower("jpeg") == "jpeg"
    ensures ToLower("tif") == "tif" && ToLower("tiff") == "tiff"
  {
    LowerOfUncapitalised("jpg");
    LowerOfUncapitalised("jpeg");
    LowerOfUncapitalised("tif");
    LowerOfUncapitalised("tiff");
  }

  /** Two extensions that share a table entry give files with either of them the same type. */
  lemma SharedEntrySameType(base: string, e1: string, e2: string)
    requires '.' !in e1 && '.' !in e2 && ToLower(e1) == e1 && ToLower(e2) == e2
    requires MimeTypeOfExtension(e1) == MimeTypeOfExtension(e2)
    ensures MimeTypeFromFileName(base + "." + e1) == MimeTypeFromFileName(base + "." + e2) == MimeTypeOfExtension(e1)
  {
    MimeOfExtension(base, e1);
    MimeOfExtension(base, e2);
  }

  /** jpg and jpeg, and tif and tiff, are aliases: a file with either extension gets the same type. */
  lemma AliasFiles(base: string)
    ensures MimeTypeFromFileName(base + "." + "jpg") == MimeTypeFromFileName(base + "." + "jpeg") == "image/jpeg"
    ensures MimeTypeFromFileName(base + "." + "tif") == MimeTypeFromFileName(base + "." + "tiff") == "image/tiff"
  {
    AliasEntries();
    AliasesLowerCase();
    assert '.' !in "jpg" && '.' !in "jpeg" && '.' !in "tif" && '.' !in "tiff" by {
      assert "jpg" == ['j', 'p', 'g'] && "jpeg" == ['j', 'p', 'e', 'g'];
      assert "tif" == ['t', 'i', 'f'] && "tiff" == ['t', 'i', 'f', 'f'];
    }
    SharedEntrySameType(base, "jpg", "jpeg");
    SharedEntrySameType(base, "tif", "tiff");
  }

  /** `${fileName.split('.')[0]}_info.txt`. */
  function PlaceholderName(fileName: string): (r: string)
    ensures |r| >= 9 && r[|r| - 9..] == "_info.txt"
    ensures var stem := r[..|r| - 9];
            && |stem| <= |fileName| && stem == fileName[..|stem|] && '.' !in stem
            && (|stem| < |fileName| ==> fileName[|stem|] == '.')
  {
    var stem := BeforeFirst(fileName, '.');
    assert (stem + "_info.txt")[..|stem|] == stem;
    stem + "_info.txt"
  }

  /** The placeholder keeps what precedes the first dot, even for names with several dots. */
  lemma PlaceholderOfDotted(base: string, rest: string)
    requires '.' !in base
    ensures PlaceholderName(base + "." + rest) == base + "_info.txt"
  {
    assert base + "." + rest == base + ['.'] + rest;
    BeforeFirstOfJoin(base, '.', rest);
  }

  /** A name without a dot is kept whole. */
  lemma PlaceholderWithoutDot(fileName: string)
    requires '.' !in fileName
    ensures PlaceholderName(fileName) == fileName + "_info.txt"
  {
    BeforeFirstWithoutSep(fileName, '.');
  }

  /** The shop-ID field: `value.slice(0, SHOP_ID_MAX_LENGTH)`. */
  function ShopIdInput(typed: string): (field: string)
    ensures |field| <= SHOP_ID_MAX_LENGTH && |field| <= |typed|
    ensures field == typed[..|field|]
    ensures |typed| <= SHOP_ID_MAX_LENGTH ==> field == typed
    ensures |typed| > SHOP_ID_MAX_LENGTH ==> |field| == SHOP_ID_MAX_LENGTH
  {
    typed[..if |typed| < SHOP_ID_MAX_LENGTH then |typed| else SHOP_ID_MAX_LENGTH]
  }

  const EMPTY_SHOP_ID_MESSAGE: string := "Shop ID cannot be empty."

  /**
   * handleSetupShop: blank input is refused with an error notification;
   * otherwise the trimmed, upper-cased ID is handed to the application.
   */
  function SetupShop(field: string): (r: Result<string, string>)
    ensures r.Failure? <==> forall i | 0 <= i < |field| :: IsSpace(field[i])
    ensures r.Failure? ==> r.error == EMPTY_SHOP_ID_MESSAGE
    ensures r.Success? ==> r.value != [] && |r.value| <= |field|
    ensures r.Success? ==> NoLower(r.value) && Trimmed(r.value)
    ensures r.Success? ==> r.value == UpperTrim(field)
  {
    var t := Trim(field);
    TrimBlank(field);
    if t != [] then
      UpperTrimCommute(field);
      assert ToUpper(t) == UpperTrim(field);
      Success(ToUpper(t))
    else
      Failure(EMPTY_SHOP_ID_MESSAGE)
  }

  /**
   * The application normalises the ID it receives once more
   * (`id.toUpperCase().trim()`); for an ID that passed the setup guard this
   * changes nothing.
   */
  lemma SetupShopIdIsNormal(field: string)
    requires SetupShop(field).Success?
    ensures UpperTrim(SetupShop(field).value) == SetupShop(field).value
  {
    UpperTrimOfNormal(SetupShop(field).value);
  }

  /** An ID set up through the input field is at most 12 characters long. */
  lemma SetupShopBounded(typed: string)
    ensures SetupShop(ShopIdInput(typed)).Success? ==>
              |SetupShop(ShopIdInput(typed)).value| <= SHOP_ID_MAX_LENGTH
  {
  }

  /** What the average-wait card shows: N/A, or hours (formatting to one decimal left out). */
  datatype WaitDisplay = NotAvailable | Hours(hours: real)

  /** avgWaitTimeDisplay as written: it divides the never-updated avgWaitTimeMinutes. */
  function AvgWaitDisplay(stats: ShopStats): (r: WaitDisplay)
    ensures r.NotAvailable? <==> stats.avgWaitTimeCalculatedForItems <= 0
    ensures r.Hours? ==> r.hours * 60.0 == stats.avgWaitTimeMinutes
  {
    if stats.avgWaitTimeCalculatedForItems > 0 then Hours(stats.avgWaitTimeMinutes / 60.0)
    else NotAvailable
  }

  /** The display as evidently intended: the mean wait over the items counted so far. */
  function AvgWaitDisplayCorrected(stats: ShopStats): (r: WaitDisplay)
    ensures r.NotAvailable? <==> stats.avgWaitTimeCalculatedForItems <= 0
    ensures r.Hours? ==>
              r.hours * 60.0 * (stats.avgWaitTimeCalculatedForItems as real) == stats.totalWaitTime
  {
    var n := stats.avgWaitTimeCalculatedForItems;
    if n > 0 then Hours(stats.totalWaitTime / (n as real) / 60.0)
    else NotAvailable
  }

  /** What one click on a queue entry's download button leads to. */
  datatype DownloadOutcome =
    | Saved(saveAs: string, contentType: string, completes: string)
    | DownloadFailed

  /**
   * handleDownload: with file data (a non-empty string, as `if (doc.fileData)`
   * tests it) the stored file is saved under its own name and MIME type,
   * without it a text placeholder; either way the
   * document is then completed. A download that throws completes nothing.
   */
  function HandleDownload(doc: DocumentItem, fails: bool): (r: DownloadOutcome)
    ensures r.DownloadFailed? <==> fails
    ensures r.Saved? ==> r.completes == doc.id
    ensures r.Saved? && Truthy(doc.fileData) ==>
              r.saveAs == doc.fileName && r.contentType == MimeTypeFromFileName(doc.fileName)
    ensures r.Saved? && !Truthy(doc.fileData) ==>
              r.saveAs == PlaceholderName(doc.fileName) && r.contentType == "text/plain"
  {
    if fails then DownloadFailed
    else if Truthy(doc.fileData) then
      Saved(doc.fileName, MimeTypeFromFileName(doc.fileName), doc.id)
    else
      Saved(PlaceholderName(doc.fileName), "text/plain", doc.id)
  }
}
