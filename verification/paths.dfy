/**
 * Where records live on disk. A path is a sequence of segments below the
 * server's working directory, so `path.join` normalisation never enters.
 */
module Paths {
  import opened Base

  type Path = seq<string>

  /** The JSON record categories, each with its own directory under uploads/QrCode. */
  datatype Category = Menu | App | Fb | Coupon

  /** A record's identity: its category and the caller-supplied key. */
  datatype RecordId = RecordId(category: Category, key: string)

  const Uploads: Path := ["uploads"]
  const QrCodeDir: Path := ["uploads", "QrCode"]
  const EmailGeneratorDir: Path := ["uploads", "EmailGenerator"]
  const DetailsFile := "details.json"
  const JsonSuffix := ".json"

  function CategoryName(c: Category): string
  {
    match c
    case Menu => "menu"
    case App => "app"
    case Fb => "fb"
    case Coupon => "coupon"
  }

  /** Inverse of CategoryName on the four directory names, None elsewhere. */
  function CategoryNamed(name: string): (r: Option<Category>)
    ensures r.Some? ==> CategoryName(r.value) == name
  {
    if name == "menu" then Some(Menu)
    else if name == "app" then Some(App)
    else if name == "fb" then Some(Fb)
    else if name == "coupon" then Some(Coupon)
    else None
  }

  function CategoryDir(c: Category): Path
  {
    QrCodeDir + [CategoryName(c)]
  }

  /** The directories present before any request: the upload tree of the server. */
  const LayoutDirs: set<Path> :=
    {Uploads, QrCodeDir, EmailGeneratorDir,
     CategoryDir(Menu), CategoryDir(App), CategoryDir(Fb), CategoryDir(Coupon)}

  /** The per-menu directory holding details.json and the menu's uploaded assets. */
  function MenuDir(folderName: string): Path
  {
    CategoryDir(Menu) + [folderName]
  }

  /** The file a (category, key) pair is stored in. */
  function RecordPath(id: RecordId): (p: Path)
    ensures |p| > 0 && p[..|p| - 1] in LayoutDirs + {MenuDir(id.key)}
  {
    match id.category
    case Menu => MenuDir(id.key) + [DetailsFile]
    case _ => CategoryDir(id.category) + [id.key + JsonSuffix]
  }

  /** The containing directory of a non-empty path. */
  function Parent(p: Path): Path
    requires |p| > 0
  {
    p[..|p| - 1]
  }

  /** Recovers the record a path belongs to; None for any path no record uses. */
  function ParseRecordPath(p: Path): Option<RecordId>
  {
    if |p| == 5 && p[..3] == CategoryDir(Menu) && p[4] == DetailsFile then
      Some(RecordId(Menu, p[3]))
    else if |p| == 4 && p[..2] == QrCodeDir && CategoryNamed(p[2]).Some? && CategoryNamed(p[2]) != Some(Menu)
            && |p[3]| >= |JsonSuffix| && p[3][|p[3]| - |JsonSuffix|..] == JsonSuffix then
      Some(RecordId(CategoryNamed(p[2]).value, p[3][..|p[3]| - |JsonSuffix|]))
    else
      None
  }

  /** Parsing undoes path derivation. */
  lemma RecordPathRoundTrip(id: RecordId)
    ensures ParseRecordPath(RecordPath(id)) == Some(id)
  {
    var p := RecordPath(id);
    if id.category == Menu {
      assert p[..3] == CategoryDir(Menu);
    } else {
      var name := id.key + JsonSuffix;
      assert p[..2] == QrCodeDir;
      assert name[|name| - |JsonSuffix|..] == JsonSuffix;
      assert name[..|name| - |JsonSuffix|] == id.key;
    }
  }

  /** Every path that parses is the path of the record it parses to. */
  lemma ParsedPathIsRecordPath(p: Path, id: RecordId)
    requires ParseRecordPath(p) == Some(id)
    ensures RecordPath(id) == p
  {
    if |p| == 5 && p[..3] == CategoryDir(Menu) && p[4] == DetailsFile {
      assert p == p[..3] + [p[3], p[4]];
    } else {
      var name := p[3];
      assert name == name[..|name| - |JsonSuffix|] + JsonSuffix;
      assert p == p[..2] + [p[2], p[3]];
    }
  }

  /**
   * Path derivation is injective: distinct records never share a file,
   * within a category and across categories.
   */
  lemma RecordPathInjective(a: RecordId, b: RecordId)
    requires RecordPath(a) == RecordPath(b)
    ensures a == b
  {
    RecordPathRoundTrip(a);
    RecordPathRoundTrip(b);
  }

  /** A path rendered with `/` between segments, as a URL path or a relative file name. */
  function Join(p: Path): string
  {
    if |p| == 0 then ""
    else if |p| == 1 then p[0]
    else Join(p[..|p| - 1]) + "/" + p[|p| - 1]
  }
}
