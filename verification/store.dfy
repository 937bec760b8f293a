/**
 * The upload tree as a flat-file record store: JSON documents at paths, and
 * the set of directories that exist. Every read goes to the files; there is
 * no cache.
 */
module Store {
  import opened Base
  import opened Paths

  /** A parsed JSON object whose properties are strings (`JSON.parse(JSON.stringify(details))`). */
  type Document = map<string, string>

  class RecordStore {
    var files: map<Path, Document>
    var dirs: set<Path>

    /** The server's directory layout exists, and every file sits in an existing directory. */
    ghost predicate Valid()
      reads this
    {
      && LayoutDirs <= dirs
      && forall p | p in files :: |p| > 0 && Parent(p) in dirs
    }

    /** The upload tree as shipped: the layout directories and no records. */
    constructor ()
      ensures Valid()
      ensures files == map[] && dirs == LayoutDirs
    {
      files := map[];
      dirs := LayoutDirs;
    }

    /**
     * `fs.mkdir` (not recursive): creates the directory when its parent exists;
     * an existing directory or a missing parent leaves the tree as it was.
     */
    method MakeDir(p: Path)
      requires Valid()
      requires |p| > 0
      modifies this
      ensures Valid()
      ensures files == old(files)
      ensures dirs == if Parent(p) in old(dirs) then old(dirs) + {p} else old(dirs)
    {
      if Parent(p) in dirs {
        dirs := dirs + {p};
      }
    }

    /**
     * `fs.writeFileSync`: replaces whatever the path held (last write wins) and
     * touches no other path; fails when the containing directory is missing.
     */
    method Write(p: Path, doc: Document) returns (r: Result<()>)
      requires Valid()
      requires |p| > 0
      modifies this
      ensures Valid()
      ensures dirs == old(dirs)
      ensures Parent(p) in dirs ==> r == Ok(()) && files == old(files)[p := doc]
      ensures Parent(p) !in dirs ==> r == Err(WriteFailure) && files == old(files)
    {
      if Parent(p) in dirs {
        files := files[p := doc];
        r := Ok(());
      } else {
        r := Err(WriteFailure);
      }
    }

    /** `fs.readFileSync` then `JSON.parse`: the stored document, or NotFound. */
    method Read(p: Path) returns (r: Result<Document>)
      ensures p in files ==> r == Ok(files[p])
      ensures p !in files ==> r == Err(NotFound)
    {
      if p in files {
        r := Ok(files[p]);
      } else {
        r := Err(NotFound);
      }
    }
  }
}
