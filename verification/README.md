# QR-code tools backend: record store model

A Dafny model of the core of a small Express server (`app.js`). The server
accepts uploads and four kinds of small records and keeps them as files under
`uploads/`: a restaurant menu, app-store links, a Facebook user name and a
coupon. It later renders a page from a stored record. The model covers four
pieces:

- **Upload naming** (module `Uploads`). The multer `destination` and `filename`
  callbacks are modelled as pure functions. The extension is the last part of
  the MIME type split on `/`. A flat upload is named
  `<fieldname>_dateVal_<now>.<ext>`, where `now` is `Date.now()` passed in as a
  parameter. A menu asset is named `<originalname>.<ext>` and lives in that
  menu's folder.
- **Record paths** (module `Paths`). A path is a sequence of segments, and
  `(category, key)` maps to a file:
  - `uploads/QrCode/<category>/<key>.json` for app, fb and coupon;
  - `uploads/QrCode/menu/<key>/details.json` for menu.

  A parser inverts this mapping, so paths of distinct records never collide.
- **The store** (module `Store`). Class `RecordStore` holds
  `files: map<Path, Document>` and the set of directories that exist:
  - `Write` is `fs.writeFileSync`: last write wins, and it fails when the
    containing directory is missing.
  - `Read` is `readFileSync` plus `JSON.parse`, and fails with `NotFound`.
  - `MakeDir` is a non-recursive `fs.mkdir`.
- **Routes** (module `Routes`). The POST handlers build the fixed-shape
  `details` document from form fields and write it. The GET handlers read it
  back and map it to the template's fields:
  - `androidUrl` becomes `android`, and likewise for the other app links;
  - `fbLink` is `https://www.facebook.com/` plus the user name;
  - the four menu links are the prefix app.js:186 writes into them
    (`https://demo.cuberootdigital.in/tools-backend/sig/uploads/QrCode/menu/<folderName>/`)
    plus `Logo.png`, `Breakfast.pdf`, `Lunch.pdf` or `Dinner.pdf`.

A form field may be absent. Such a field is `undefined` in JavaScript and
`None` here. `JSON.stringify` drops it, so it reads back as `undefined`.
`req.body.folderName + ".json"` with no folder name stores the record as
`undefined.json`. `path.join` with an absent menu folder name throws, so nothing
is written.

Three behaviours of the code are easy to miss:
- A write does not create missing parent directories. The menu folder is
  created only by multer's `destination` callback, which runs once per
  uploaded item. So a POST /menu with no items, for a folder that does not exist
  yet, fails at `writeFileSync` (`PostMenu`, `PostThenGetMenu`).
- The `destination` callback runs while the request is still being parsed, so
  `req.body.folderName` is set there only when that field precedes the file
  parts. Otherwise `path.join` throws in the callback and the handler never
  runs. `PostMenu` takes this order as the flag `folderNameBeforeItems`.
- The callbacks passed to `writeFileSync` as a fourth argument are never
  called. A failed write throws instead, and the handler sends no
  acknowledgement. The model returns `Err(WriteFailure)` and no response text.

## Model

| member | source | states |
|---|---|---|
| `Uploads.MimeExtension` | app.js:33-34 | the extension has no `/`, is a suffix of the MIME type, and is preceded by `/` unless it is the whole string; the same rule is at lines 44-45 and 60-61 |
| `Uploads.MimeExtensionWithoutSlash` | app.js:33-34 | a MIME type without `/` is its own extension |
| `Uploads.MimeExtensionUnique` | app.js:33-34 | any slash-free suffix that is preceded by `/` or is the whole string equals the extension, so the contract determines the split result |
| `Uploads.Decimal` | app.js:35 | `${Date.now()}` prints a non-empty string of decimal digits, with a leading `0` only for 0 |
| `Uploads.DecimalRoundTrip` | app.js:35 | reading the printed digits back gives the timestamp |
| `Uploads.DecimalInjective` | app.js:35 | distinct timestamps print differently |
| `Uploads.FlatUploadName` | app.js:35 | `<fieldname>_dateVal_<now>.<ext>` is a single path segment when the field name has no `/`; the same name is built at line 46 |
| `Uploads.FlatUploadNameInjective` | app.js:43-47 | for a fixed field name and MIME type, equal upload names imply equal timestamps |
| `Uploads.MenuAssetName` | app.js:59-63 | `<originalname>.<ext>` is a single path segment when the original name has no `/` |
| `Uploads.Destination` | app.js:29-57 | the EmailGenerator storage gives `uploads/EmailGenerator` and the QrCode storage `uploads/QrCode`, both layout directories; the menu storage gives `uploads/QrCode/menu/<folderName>`, and fails exactly when the folder name is absent |
| `Uploads.MenuAssetBesideDetails` | app.js:51-62 | a menu asset is stored in the same directory as that menu's `details.json`, and is that file exactly when its name is `details.json` |
| `Paths.RecordPath` | app.js:100-131 | a record's file lies in a layout directory or, for menu, in the menu's own folder; fb and coupon follow the app form at lines 145-151 and 170-176 |
| `Paths.RecordPathRoundTrip` | app.js:100-131 | parsing a record path gives back its category and key |
| `Paths.ParsedPathIsRecordPath` | app.js:100-131 | every path that parses is the path of the record it parses to |
| `Paths.RecordPathInjective` | app.js:100-176 | equal paths imply the same category and key, within a category and across categories |
| `Store.RecordStore.constructor` | app.js:29-42 | the upload tree starts with its layout directories and no records |
| `Store.RecordStore.MakeDir` | app.js:52-57 | `fs.mkdir` adds the directory when its parent exists and otherwise leaves the tree unchanged; files are untouched |
| `Store.RecordStore.Write` | app.js:109 | overwrites the document at its path and nothing else when the directory exists; otherwise fails and changes nothing |
| `Store.RecordStore.Read` | app.js:187-199 | returns the stored document, or `NotFound` when the path was never written |
| `Routes.RenderMenuUndoesDetails` | app.js:200-202 | the menu page shows the `restaurantName` and `description` stored from `name` and `description` at lines 92-98 |
| `Routes.RenderAppUndoesDetails` | app.js:224-228 | `android`, `ios` and `other` on the page equal the posted links stored under `androidUrl`, `iosUrl` and `otherUrl` |
| `Routes.RenderFbUndoesDetails` | app.js:239-242 | the page shows the posted user name and `fbLink` is `https://www.facebook.com/` followed by it |
| `Routes.RenderCouponUndoesDetails` | app.js:259-263 | company, discount type and discount code on the page equal the posted ones |
| `Routes.JoinMenuAsset` | app.js:186 | a file in a menu folder has the URL path `uploads/QrCode/menu/<folderName>/<name>` |
| `Routes.MenuAssetUrl` | app.js:203-206 | the menu's base URL followed by any asset's name is the link prefix followed by that asset's stored path |
| `Routes.MenuLinksAddressAssets` | app.js:203-206 | below the link prefix, the logo, breakfast, lunch and dinner links name the files multer stores for items named Logo (`image/png`) and Breakfast, Lunch and Dinner (`application/pdf`) in that menu's folder |
| `Routes.PostMenu` | app.js:91-113 | fails and changes nothing when there is no folder name, or when items were uploaded before the folder name field; otherwise the folder is created when an item was uploaded, and `details.json` is written exactly when the folder exists |
| `Routes.PostApp` | app.js:115-137 | writes the app details at `<folderName>.json`, or at `undefined.json` when the field is absent; only that record changes |
| `Routes.PostFb` | app.js:139-157 | writes the fb details at `<folderName>.json`; only that record changes |
| `Routes.PostCoupon` | app.js:159-182 | writes the coupon details at `<folderName>.json`; only that record changes |
| `Routes.GetMenu` | app.js:184-208 | fails with `NotFound` and renders nothing when the menu was never written; otherwise renders the stored document |
| `Routes.GetApp` | app.js:210-229 | fails with `NotFound` for a key never written; otherwise renders the stored links |
| `Routes.GetFb` | app.js:231-243 | fails with `NotFound` for a key never written; otherwise renders the stored user name and link |
| `Routes.GetCoupon` | app.js:245-264 | fails with `NotFound` for a key never written; otherwise renders the stored coupon |
| `Routes.PostKeepsOtherRecords` | app.js:125-137 | writing one record leaves the presence and content of every other record unchanged |
| `Routes.PostThenGetApp` | app.js:116-123 | POST /app, then GET /app/<folderName>, renders exactly the posted android, ios and other links |
| `Routes.PostThenGetFb` | app.js:140-143 | POST /fb, then GET /fb/<folderName>, renders the posted user name and its profile link |
| `Routes.PostThenGetCoupon` | app.js:160-168 | POST /coupon, then GET /coupon/<folderName>, renders the posted company, discount type and code |
| `Routes.PostThenGetMenu` | app.js:91-113 | for a form with a folder name, the POST succeeds exactly when items were uploaded after the folder name field, or no item was uploaded and the folder existed; the GET then shows the posted name and description |
| `Routes.RepostApp` | app.js:133 | after two POSTs to the same key, GET shows only the second one (last write wins) |
| `Base.JsText` | app.js:241 | how `+` renders a possibly `undefined` value: the string itself, or `"undefined"`; also the `+ ".json"` at line 130 |
| `Uploads.FileName` | app.js:32-36 | the filename callback: the flat name for the EmailGenerator and QrCode storages, the asset name for the menu storage (lines 59-63) |
| `Uploads.StoredPath` | app.js:59-63 | where multer puts a file: the storage's destination followed by its filename, failing with the destination |
| `Routes.MenuDetails` | app.js:95-98 | the menu document holds `restaurantName` and `description`, omitting an absent field |
| `Routes.AppDetails` | app.js:119-123 | the app document holds `androidUrl`, `iosUrl` and `otherUrl`, omitting an absent field |
| `Routes.FbDetails` | app.js:141-143 | the fb document holds `username` when present |
| `Routes.CouponDetails` | app.js:164-168 | the coupon document holds `company`, `discountType` and `discountCode`, omitting an absent field |
| `Routes.MenuBaseUrl` | app.js:186 | the link prefix followed by `uploads/QrCode/menu/<folderName>/` |
| `Routes.RenderMenu` | app.js:200-207 | the menu page fields: the stored name and description, and the four asset links |
| `Routes.RenderApp` | app.js:224-228 | `android`, `ios` and `other` are the stored `androidUrl`, `iosUrl` and `otherUrl` |
| `Routes.RenderFb` | app.js:239-242 | the stored user name, and `fbLink` built from it |
| `Routes.RenderCoupon` | app.js:259-263 | the three stored coupon fields |

## Left out

- Express setup, body parsers, CORS and static serving (app.js:10-26), the health route and the listen bootstrap (app.js:71-73, 275-278). They are framework configuration with no logic of their own.
- The `/image-upload`, `/image`, `/pdf-upload` and `/mp3-upload` handlers (app.js:75-89). They only echo the name `FlatUploadName` gives.
- The multipart decoding and the disk writes of uploaded bytes, which multer performs. The model keeps only the callbacks' names and directories. `PostMenu` uses the items only for the `mkdir` each one triggers.
- Which error multer reports when the menu `destination` callback throws on an absent folder name. It is modelled as a failure with nothing written.
- The `/ssl-check-url` proxy (app.js:267-273). It passes the request through to an external network library.
- EJS rendering. A render is the record of template fields.
- `path.join` normalisation (`..`, `/` inside a key, duplicate separators, an empty key), and so path traversal. A key is a single path segment. The multer destination is relative to the working directory while the handlers join under `__dirname`; the two are taken to be the same directory.
- Serialisation to JSON text. A document is the parsed object, and property values are strings. A body field that is not a string (an array from the URL-encoded parser) is not modelled. So the "corrupt record" read failure cannot arise: only the handlers write the record files.
- OS write failures other than a missing directory: disk full, permissions, a directory standing where a file should be. Concurrent requests are also not modelled; Node runs one handler at a time here.
- Uploads.Decimal: prints every timestamp in plain decimal. JavaScript switches to exponent notation from 10^21, which `Date.now()` does not reach.
- `Date.now()` is the parameter `now`, not a clock.
- Routes.PostThenGetMenu: requires a folder name. Without one the POST fails, as `PostMenu` states, and there is no key to GET.
- Paths.RecordPath: treats an empty key as a segment of its own. `path.join` drops an empty segment, so in the code `folderName: ""` names `uploads/QrCode/app/.json` and `uploads/QrCode/menu/details.json`.
- Routes.PostMenu: with an empty folder name and no items, the code writes `uploads/QrCode/menu/details.json` and answers "Added files", where the model fails with `WriteFailure`. With items, the code's `fs.mkdir` meets the existing `menu` directory, where the model adds a directory named by the empty segment.
- Store.RecordStore.constructor: the layout directories `uploads/QrCode/{menu,app,fb,coupon}` and `uploads/EmailGenerator` are assumed present. The server never creates them, and `PostApp`, `PostFb` and `PostCoupon` always succeed only because of this. Without them `writeFileSync` throws (app.js:133, 153, 178).
- Routes.MenuLinksAddressAssets: this server serves the upload tree at `/uploads` (app.js:13). The links built at app.js:186 point under `/tools-backend/sig/uploads/`, which no route or static mount of this server serves. They reach the stored files only through an outside proxy that maps `/tools-backend/sig/` onto this server's root, which is assumed.
