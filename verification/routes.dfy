/**
 * The record routes: POST handlers that build a fixed-shape details document
 * from form fields and write it, GET handlers that read it back and map it to
 * the template's fields.
 */
module Routes {
  import opened Base
  import opened Paths
  import opened Uploads
  import opened Store

  // ---------------------------------------------------------------------------
  // Form fields of the POST routes; an absent field is `undefined` (None).

  datatype MenuForm = MenuForm(name: Option<string>, description: Option<string>, folderName: Option<string>)
  datatype AppForm = AppForm(android: Option<string>, ios: Option<string>, other: Option<string>, folderName: Option<string>)
  datatype FbForm = FbForm(username: Option<string>, folderName: Option<string>)
  datatype CouponForm = CouponForm(
    company: Option<string>, discountType: Option<string>, discountCode: Option<string>, folderName: Option<string>)

  // ---------------------------------------------------------------------------
  // The fields handed to each template.

  datatype MenuView = MenuView(
    restaurantName: Option<string>, description: Option<string>,
    logoLink: string, breakfastLink: string, lunchLink: string, dinnerLink: string)
  datatype AppView = AppView(android: Option<string>, ios: Option<string>, other: Option<string>)
  datatype FbView = FbView(username: Option<string>, fbLink: string)
  datatype CouponView = CouponView(company: Option<string>, discountType: Option<string>, discountCode: Option<string>)

  const FacebookPrefix := "https://www.facebook.com/"
  /**
   * The prefix the GET /menu handler writes into its links. This server
   * serves the upload tree at /uploads; the prefix reaches it only through a
   * proxy that maps /tools-backend/sig/ onto the server's root.
   */
  const SiteRoot := "https://demo.cuberootdigital.in/tools-backend/sig/"

  // ---------------------------------------------------------------------------
  // Documents: JSON.stringify drops properties whose value is undefined, and
  // reading a property JSON.parse did not produce gives undefined.

  function Prop(doc: Document, name: string, v: Option<string>): Document
  {
    if v.Some? then doc[name := v.value] else doc
  }

  function Field(doc: Document, name: string): Option<string>
  {
    if name in doc then Some(doc[name]) else None
  }

  function MenuDetails(form: MenuForm): Document
  {
    Prop(Prop(map[], "restaurantName", form.name), "description", form.description)
  }

  function AppDetails(form: AppForm): Document
  {
    Prop(Prop(Prop(map[], "androidUrl", form.android), "iosUrl", form.ios), "otherUrl", form.other)
  }

  function FbDetails(form: FbForm): Document
  {
    Prop(map[], "username", form.username)
  }

  function CouponDetails(form: CouponForm): Document
  {
    Prop(Prop(Prop(map[], "company", form.company), "discountType", form.discountType), "discountCode", form.discountCode)
  }

  // ---------------------------------------------------------------------------
  // Render-field mapping.

  function MenuBaseUrl(folderName: string): string
  {
    SiteRoot + "uploads/QrCode/menu/" + folderName + "/"
  }

  function RenderMenu(folderName: string, doc: Document): MenuView
  {
    var base := MenuBaseUrl(folderName);
    MenuView(Field(doc, "restaurantName"), Field(doc, "description"),
             base + "Logo.png", base + "Breakfast.pdf", base + "Lunch.pdf", base + "Dinner.pdf")
  }

  function RenderApp(doc: Document): AppView
  {
    AppView(Field(doc, "androidUrl"), Field(doc, "iosUrl"), Field(doc, "otherUrl"))
  }

  function RenderFb(doc: Document): FbView
  {
    FbView(Field(doc, "username"), FacebookPrefix + JsText(Field(doc, "username")))
  }

  function RenderCoupon(doc: Document): CouponView
  {
    CouponView(Field(doc, "company"), Field(doc, "discountType"), Field(doc, "discountCode"))
  }

  // ---------------------------------------------------------------------------
  // Rendering a stored details document gives back the posted fields.

  lemma RenderMenuUndoesDetails(form: MenuForm, folderName: string)
    ensures RenderMenu(folderName, MenuDetails(form)).restaurantName == form.name
    ensures RenderMenu(folderName, MenuDetails(form)).description == form.description
  {
  }

  lemma RenderAppUndoesDetails(form: AppForm)
    ensures RenderApp(AppDetails(form)) == AppView(form.android, form.ios, form.other)
  {
  }

  lemma RenderFbUndoesDetails(form: FbForm)
    ensures RenderFb(FbDetails(form)) == FbView(form.username, FacebookPrefix + JsText(form.username))
  {
  }

  lemma RenderCouponUndoesDetails(form: CouponForm)
    ensures RenderCoupon(CouponDetails(form)) == CouponView(form.company, form.discountType, form.discountCode)
  {
  }

  /** The URL path of a file in a menu folder. */
  lemma JoinMenuAsset(folderName: string, name: string)
    ensures Join(MenuDir(folderName) + [name]) == "uploads/QrCode/menu/" + folderName + "/" + name
  {
    var p := MenuDir(folderName) + [name];
    assert p[..1] == ["uploads"];
    assert p[..2][..1] == p[..1];
    assert p[..3][..2] == p[..2];
    assert p[..4][..3] == p[..3];
    assert p[..4] == MenuDir(folderName);
    calc {
      Join(p);
      Join(p[..4]) + "/" + name;
      Join(p[..3]) + "/" + folderName + "/" + name;
      Join(p[..2]) + "/" + "menu" + "/" + folderName + "/" + name;
      Join(p[..1]) + "/" + "QrCode" + "/" + "menu" + "/" + folderName + "/" + name;
    }
  }

  /** The public URL of a menu asset is the menu's base URL followed by the asset's name. */
  lemma MenuAssetUrl(folderName: string, part: FilePart, now: nat)
    ensures SiteRoot + Join(StoredPath(MenuFileStorage(Some(folderName)), part, now).value)
         == MenuBaseUrl(folderName) + MenuAssetName(part.originalname, part.mimetype)
  {
    var name := MenuAssetName(part.originalname, part.mimetype);
    assert StoredPath(MenuFileStorage(Some(folderName)), part, now).value == MenuDir(folderName) + [name];
    JoinMenuAsset(folderName, name);
    ConcatRegroup(SiteRoot, "uploads/QrCode/menu/", folderName, "/", name);
  }

  /** Regrouping a concatenation, stated over variables so literals are not unfolded. */
  lemma ConcatRegroup(a: string, b: string, c: string, d: string, e: string)
    ensures a + (b + c + d + e) == a + b + c + d + e
  {
  }

  /**
   * Each menu link addresses the file that multer stores for an item named
   * Logo (image/png), Breakfast, Lunch or Dinner (application/pdf) in that
   * menu's folder.
   */
  lemma MenuLinksAddressAssets(folderName: string, doc: Document, now: nat)
    ensures var v := RenderMenu(folderName, doc);
      var storage := MenuFileStorage(Some(folderName));
      && v.logoLink == SiteRoot + Join(StoredPath(storage, FilePart("items", "Logo", "image/png"), now).value)
      && v.breakfastLink == SiteRoot + Join(StoredPath(storage, FilePart("items", "Breakfast", "application/pdf"), now).value)
      && v.lunchLink == SiteRoot + Join(StoredPath(storage, FilePart("items", "Lunch", "application/pdf"), now).value)
      && v.dinnerLink == SiteRoot + Join(StoredPath(storage, FilePart("items", "Dinner", "application/pdf"), now).value)
  {
    MimeExtensionUnique("image/png", "png");
    MimeExtensionUnique("application/pdf", "pdf");
    assert "Logo" + "." + "png" == "Logo.png";
    assert "Breakfast" + "." + "pdf" == "Breakfast.pdf";
    assert "Lunch" + "." + "pdf" == "Lunch.pdf";
    assert "Dinner" + "." + "pdf" == "Dinner.pdf";
    MenuAssetUrl(folderName, FilePart("items", "Logo", "image/png"), now);
    MenuAssetUrl(folderName, FilePart("items", "Breakfast", "application/pdf"), now);
    MenuAssetUrl(folderName, FilePart("items", "Lunch", "application/pdf"), now);
    MenuAssetUrl(folderName, FilePart("items", "Dinner", "application/pdf"), now);
  }

  // ---------------------------------------------------------------------------
  // POST handlers.

  /**
   * POST /menu. multer's destination callback runs once per uploaded item,
   * while the request is still being parsed: it sees the folder name only
   * when that field comes before the file parts (`folderNameBeforeItems`),
   * and otherwise path.join throws and the handler never runs. Each call
   * makes the menu folder; the handler then writes details.json into it.
   * With no item and no earlier folder the write fails; without a folder
   * name path.join throws in the handler and nothing is written.
   */
  method PostMenu(store: RecordStore, form: MenuForm, items: seq<FilePart>, folderNameBeforeItems: bool)
    returns (r: Result<string>)
    requires store.Valid()
    modifies store
    ensures store.Valid()
    ensures form.folderName.None? || (|items| > 0 && !folderNameBeforeItems) ==>
      r == Err(InvalidPathArgument) && store.files == old(store.files) && store.dirs == old(store.dirs)
    ensures form.folderName.Some? && (|items| == 0 || folderNameBeforeItems) ==>
      var dir := MenuDir(form.folderName.value);
      var path := RecordPath(RecordId(Menu, form.folderName.value));
      && store.dirs == old(store.dirs) + (if |items| > 0 then {dir} else {})
      && (dir in store.dirs ==> r == Ok("Added files") && store.files == old(store.files)[path := MenuDetails(form)])
      && (dir !in store.dirs ==> r == Err(WriteFailure) && store.files == old(store.files))
  {
    if |items| > 0 {
      // What req.body.folderName holds when the destination callback runs.
      var seen := if folderNameBeforeItems then form.folderName else None;
      var dest := Destination(MenuFileStorage(seen));
      if dest.Err? {
        return Err(dest.error);
      }
      for i := 0 to |items|
        invariant store.Valid()
        invariant store.files == old(store.files)
        invariant store.dirs == old(store.dirs) + (if i > 0 then {dest.value} else {})
      {
        store.MakeDir(dest.value);
      }
    }
    if form.folderName.None? {
      return Err(InvalidPathArgument);
    }
    var written := store.Write(RecordPath(RecordId(Menu, form.folderName.value)), MenuDetails(form));
    if written.Ok? {
      r := Ok("Added files");
    } else {
      r := Err(written.error);
    }
  }

  /** POST /app: `req.body.folderName + ".json"` names the file, "undefined.json" when absent. */
  method PostApp(store: RecordStore, form: AppForm) returns (r: Result<string>)
    requires store.Valid()
    modifies store
    ensures store.Valid() && store.dirs == old(store.dirs)
    ensures r == Ok("Added details")
    ensures store.files == old(store.files)[RecordPath(RecordId(App, JsText(form.folderName))) := AppDetails(form)]
  {
    var written := store.Write(RecordPath(RecordId(App, JsText(form.folderName))), AppDetails(form));
    r := Ok("Added details");
  }

  /** POST /fb. */
  method PostFb(store: RecordStore, form: FbForm) returns (r: Result<string>)
    requires store.Valid()
    modifies store
    ensures store.Valid() && store.dirs == old(store.dirs)
    ensures r == Ok("Added details")
    ensures store.files == old(store.files)[RecordPath(RecordId(Fb, JsText(form.folderName))) := FbDetails(form)]
  {
    var written := store.Write(RecordPath(RecordId(Fb, JsText(form.folderName))), FbDetails(form));
    r := Ok("Added details");
  }

  /** POST /coupon. */
  method PostCoupon(store: RecordStore, form: CouponForm) returns (r: Result<string>)
    requires store.Valid()
    modifies store
    ensures store.Valid() && store.dirs == old(store.dirs)
    ensures r == Ok("Added details")
    ensures store.files == old(store.files)[RecordPath(RecordId(Coupon, JsText(form.folderName))) := CouponDetails(form)]
  {
    var written := store.Write(RecordPath(RecordId(Coupon, JsText(form.folderName))), CouponDetails(form));
    r := Ok("Added details");
  }

  // ---------------------------------------------------------------------------
  // GET handlers: read the record (NotFound when absent, and no render), then map it.

  /** GET /menu/:menuId. */
  method GetMenu(store: RecordStore, menuId: string) returns (r: Result<MenuView>)
    ensures RecordPath(RecordId(Menu, menuId)) !in store.files ==> r == Err(NotFound)
    ensures RecordPath(RecordId(Menu, menuId)) in store.files ==>
      r == Ok(RenderMenu(menuId, store.files[RecordPath(RecordId(Menu, menuId))]))
  {
    var doc := store.Read(RecordPath(RecordId(Menu, menuId)));
    if doc.Err? {
      return Err(doc.error);
    }
    r := Ok(RenderMenu(menuId, doc.value));
  }

  /** GET /app/:appId. */
  method GetApp(store: RecordStore, appId: string) returns (r: Result<AppView>)
    ensures RecordPath(RecordId(App, appId)) !in store.files ==> r == Err(NotFound)
    ensures RecordPath(RecordId(App, appId)) in store.files ==>
      r == Ok(RenderApp(store.files[RecordPath(RecordId(App, appId))]))
  {
    var doc := store.Read(RecordPath(RecordId(App, appId)));
    if doc.Err? {
      return Err(doc.error);
    }
    r := Ok(RenderApp(doc.value));
  }

  /** GET /fb/:id. */
  method GetFb(store: RecordStore, id: string) returns (r: Result<FbView>)
    ensures RecordPath(RecordId(Fb, id)) !in store.files ==> r == Err(NotFound)
    ensures RecordPath(RecordId(Fb, id)) in store.files ==>
      r == Ok(RenderFb(store.files[RecordPath(RecordId(Fb, id))]))
  {
    var doc := store.Read(RecordPath(RecordId(Fb, id)));
    if doc.Err? {
      return Err(doc.error);
    }
    r := Ok(RenderFb(doc.value));
  }

  /** GET /coupon/:id. */
  method GetCoupon(store: RecordStore, id: string) returns (r: Result<CouponView>)
    ensures RecordPath(RecordId(Coupon, id)) !in store.files ==> r == Err(NotFound)
    ensures RecordPath(RecordId(Coupon, id)) in store.files ==>
      r == Ok(RenderCoupon(store.files[RecordPath(RecordId(Coupon, id))]))
  {
    var doc := store.Read(RecordPath(RecordId(Coupon, id)));
    if doc.Err? {
      return Err(doc.error);
    }
    r := Ok(RenderCoupon(doc.value));
  }

  // ---------------------------------------------------------------------------
  // What a sequence of requests observes.

  /** A POST of one record leaves every other record exactly as it was. */
  lemma PostKeepsOtherRecords(files: map<Path, Document>, written: RecordId, doc: Document, other: RecordId)
    requires other != written
    ensures var after := files[RecordPath(written) := doc];
      && (RecordPath(other) in after <==> RecordPath(other) in files)
      && (RecordPath(other) in files ==> after[RecordPath(other)] == files[RecordPath(other)])
  {
    if RecordPath(other) == RecordPath(written) {
      RecordPathInjective(other, written);
    }
  }

  /** POST /app, then GET /app/<folderName> renders the posted links. */
  method PostThenGetApp(store: RecordStore, form: AppForm) returns (view: Result<AppView>)
    requires store.Valid()
    modifies store
    ensures store.Valid()
    ensures view == Ok(AppView(form.android, form.ios, form.other))
  {
    var posted := PostApp(store, form);
    view := GetApp(store, JsText(form.folderName));
    RenderAppUndoesDetails(form);
  }

  /** POST /fb, then GET /fb/<folderName> renders the user name and its profile link. */
  method PostThenGetFb(store: RecordStore, form: FbForm) returns (view: Result<FbView>)
    requires store.Valid()
    modifies store
    ensures store.Valid()
    ensures view == Ok(FbView(form.username, FacebookPrefix + JsText(form.username)))
  {
    var posted := PostFb(store, form);
    view := GetFb(store, JsText(form.folderName));
    RenderFbUndoesDetails(form);
  }

  /** POST /coupon, then GET /coupon/<folderName> renders the posted coupon. */
  method PostThenGetCoupon(store: RecordStore, form: CouponForm) returns (view: Result<CouponView>)
    requires store.Valid()
    modifies store
    ensures store.Valid()
    ensures view == Ok(CouponView(form.company, form.discountType, form.discountCode))
  {
    var posted := PostCoupon(store, form);
    view := GetCoupon(store, JsText(form.folderName));
    RenderCouponUndoesDetails(form);
  }

  /**
   * POST /menu with a folder name, then GET /menu/<folderName>. The POST
   * succeeds exactly when either no item was uploaded and the folder already
   * existed, or items were uploaded after the folder name field; the page
   * then shows the posted name and description.
   */
  method PostThenGetMenu(store: RecordStore, form: MenuForm, items: seq<FilePart>, folderNameBeforeItems: bool)
    returns (posted: Result<string>, view: Result<MenuView>)
    requires store.Valid()
    requires form.folderName.Some?
    modifies store
    ensures store.Valid()
    ensures posted.Ok? <==>
      if |items| > 0 then folderNameBeforeItems else MenuDir(form.folderName.value) in old(store.dirs)
    ensures posted.Ok? ==>
      && view.Ok?
      && view.value.restaurantName == form.name
      && view.value.description == form.description
  {
    posted := PostMenu(store, form, items, folderNameBeforeItems);
    view := GetMenu(store, form.folderName.value);
    RenderMenuUndoesDetails(form, form.folderName.value);
  }

  /** Two POSTs to the same key: GET shows only the second. */
  method RepostApp(store: RecordStore, first: AppForm, second: AppForm) returns (view: Result<AppView>)
    requires store.Valid()
    requires first.folderName == second.folderName
    modifies store
    ensures store.Valid()
    ensures view == Ok(AppView(second.android, second.ios, second.other))
  {
    var posted := PostApp(store, first);
    posted := PostApp(store, second);
    view := GetApp(store, JsText(second.folderName));
    RenderAppUndoesDetails(second);
  }
}
