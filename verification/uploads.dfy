/**
 * The multer disk-storage callbacks: which directory an uploaded file goes to
 * and the name it is given there. `Date.now()` is the parameter `now`.
 */
module Uploads {
  import opened Base
  import opened Paths

  /** What multer knows of one uploaded file part. */
  datatype FilePart = FilePart(fieldname: string, originalname: string, mimetype: string)

  /** The three storages: flat EmailGenerator and QrCode directories, and per-menu folders. */
  datatype DiskStorage =
    | EmailGeneratorStorage
    | QrCodeStorage
    | MenuFileStorage(folderName: Option<string>)

  /**
   * The last element of `mimetype.split("/")`: the text after the last `/`,
   * or the whole string when it has none. The ensures clauses pin it down as
   * the longest suffix free of `/` (MimeExtensionUnique).
   */
  function MimeExtension(mime: string): (ext: string)
    ensures '/' !in ext
    ensures |ext| <= |mime| && ext == mime[|mime| - |ext|..]
    ensures |ext| < |mime| ==> mime[|mime| - |ext| - 1] == '/'
    decreases |mime|
  {
    if |mime| == 0 || mime[|mime| - 1] == '/' then ""
    else MimeExtension(mime[..|mime| - 1]) + [mime[|mime| - 1]]
  }

  /** A MIME type without `/` is its own extension. */
  lemma MimeExtensionWithoutSlash(mime: string)
    requires '/' !in mime
    ensures MimeExtension(mime) == mime
  {
  }

  /** Any slash-free suffix preceded by `/` (or filling the string) is the extension. */
  lemma {:induction false} MimeExtensionUnique(mime: string, e: string)
    requires '/' !in e
    requires |e| <= |mime| && e == mime[|mime| - |e|..]
    requires |e| < |mime| ==> mime[|mime| - |e| - 1] == '/'
    ensures MimeExtension(mime) == e
    decreases |mime|
  {
    if |e| > 0 {
      // The last character belongs to e, so it is not `/`: peel it off both.
      var n, init := |mime|, e[..|e| - 1];
      assert e[|e| - 1] in e;
      assert mime[n - 1] == e[|e| - 1] != '/';
      assert e == init + [mime[n - 1]];
      assert '/' !in init;
      assert init == mime[..n - 1][n - 1 - |init|..];
      MimeExtensionUnique(mime[..n - 1], init);
      assert MimeExtension(mime) == MimeExtension(mime[..n - 1]) + [mime[n - 1]];
    }
  }

  predicate IsDigit(c: char)
  {
    '0' <= c <= '9'
  }

  function DigitChar(d: nat): char
    requires d < 10
  {
    ('0' as int + d) as char
  }

  function DigitValue(c: char): nat
    requires IsDigit(c)
  {
    c as int - '0' as int
  }

  /**
   * How a template literal prints a non-negative integer (`${Date.now()}`):
   * decimal digits, no leading zero.
   */
  function Decimal(n: nat): (s: string)
    ensures |s| > 0
    ensures forall i :: 0 <= i < |s| ==> IsDigit(s[i])
    ensures s[0] == '0' <==> n == 0
  {
    if n < 10 then [DigitChar(n)] else Decimal(n / 10) + [DigitChar(n % 10)]
  }

  /** The number a string of decimal digits denotes. */
  function DecimalValue(s: string): nat
    requires forall i :: 0 <= i < |s| ==> IsDigit(s[i])
  {
    if |s| == 0 then 0
    else DecimalValue(s[..|s| - 1]) * 10 + DigitValue(s[|s| - 1])
  }

  lemma {:induction false} DecimalRoundTrip(n: nat)
    ensures DecimalValue(Decimal(n)) == n
  {
    if n >= 10 {
      var s := Decimal(n);
      assert s[..|s| - 1] == Decimal(n / 10);
      DecimalRoundTrip(n / 10);
    }
  }

  /** Distinct timestamps print differently. */
  lemma DecimalInjective(a: nat, b: nat)
    requires Decimal(a) == Decimal(b)
    ensures a == b
  {
    DecimalRoundTrip(a);
    DecimalRoundTrip(b);
  }

  /**
   * The name given to a file in the EmailGenerator and QrCode storages:
   * `<fieldname>_dateVal_<now>.<ext>`. A field name without `/` yields a
   * single path segment.
   */
  function FlatUploadName(fieldname: string, now: nat, mimetype: string): (name: string)
    ensures '/' !in fieldname ==> '/' !in name
  {
    var digits := Decimal(now);
    forall i | 0 <= i < |digits| ensures digits[i] != '/' {
      assert IsDigit(digits[i]);
    }
    assert '/' !in digits;
    assert '/' !in "_dateVal_" && '/' !in ".";
    fieldname + "_dateVal_" + digits + "." + MimeExtension(mimetype)
  }

  /** For one field and MIME type, the upload name determines the timestamp. */
  lemma FlatUploadNameInjective(fieldname: string, mimetype: string, t1: nat, t2: nat)
    requires FlatUploadName(fieldname, t1, mimetype) == FlatUploadName(fieldname, t2, mimetype)
    ensures t1 == t2
  {
    var head := fieldname + "_dateVal_";
    var tail := "." + MimeExtension(mimetype);
    var d1, d2 := Decimal(t1), Decimal(t2);
    var name := FlatUploadName(fieldname, t1, mimetype);
    assert name == head + d1 + tail;
    assert name == head + d2 + tail;
    assert |d1| == |d2|;
    assert d1 == name[|head|..|head| + |d1|];
    assert d2 == name[|head|..|head| + |d2|];
    DecimalInjective(t1, t2);
  }

  /** The name given to a menu asset: `<originalname>.<ext>`. */
  function MenuAssetName(originalname: string, mimetype: string): (name: string)
    ensures '/' !in originalname ==> '/' !in name
  {
    originalname + "." + MimeExtension(mimetype)
  }

  /**
   * The destination callback. The menu storage joins the request's folder
   * name into the path, which throws when the field is absent.
   */
  function Destination(storage: DiskStorage): (r: Result<Path>)
    ensures r.Err? <==> storage == MenuFileStorage(None)
    ensures r.Ok? && storage.MenuFileStorage? ==> r.value == MenuDir(storage.folderName.value)
    ensures storage == EmailGeneratorStorage ==> r == Ok(EmailGeneratorDir)
    ensures storage == QrCodeStorage ==> r == Ok(QrCodeDir)
    ensures r.Ok? && !storage.MenuFileStorage? ==> r.value in LayoutDirs
  {
    match storage
    case EmailGeneratorStorage => Ok(EmailGeneratorDir)
    case QrCodeStorage => Ok(QrCodeDir)
    case MenuFileStorage(folder) =>
      if folder.Some? then Ok(MenuDir(folder.value)) else Err(InvalidPathArgument)
  }

  /** The filename callback of each storage. */
  function FileName(storage: DiskStorage, part: FilePart, now: nat): string
  {
    match storage
    case MenuFileStorage(_) => MenuAssetName(part.originalname, part.mimetype)
    case _ => FlatUploadName(part.fieldname, now, part.mimetype)
  }

  /** Where multer puts a file: its destination followed by its filename. */
  function StoredPath(storage: DiskStorage, part: FilePart, now: nat): Result<Path>
  {
    match Destination(storage)
    case Ok(dir) => Ok(dir + [FileName(storage, part, now)])
    case Err(e) => Err(e)
  }

  /**
   * A menu asset lands in the same directory as that menu's details.json, and
   * it is that file exactly when its name is "details.json".
   */
  lemma MenuAssetBesideDetails(folderName: string, part: FilePart, now: nat)
    ensures StoredPath(MenuFileStorage(Some(folderName)), part, now).Ok?
    ensures var p := StoredPath(MenuFileStorage(Some(folderName)), part, now).value;
      var details := RecordPath(RecordId(Menu, folderName));
      && Parent(p) == Parent(details) == MenuDir(folderName)
      && (p == details <==> MenuAssetName(part.originalname, part.mimetype) == DetailsFile)
  {
    var p := StoredPath(MenuFileStorage(Some(folderName)), part, now).value;
    var details := RecordPath(RecordId(Menu, folderName));
    assert Parent(p) == MenuDir(folderName);
    assert Parent(details) == MenuDir(folderName);
    if p == details {
      assert p[|p| - 1] == details[|details| - 1];
    }
  }
}
