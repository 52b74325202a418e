/**
  The admin file manager page: who may see it, the file list with its
  case-insensitive search, total size, latest upload and per-file icon,
  and the marker on the file being deleted. Listing and deleting are
  requests whose results are passed in.
 */
module FileManager {
  import opened Wrappers
  import opened Text

  /** A stored file as the listing returns it; `modified` is a Unix time in seconds. */
  datatype StoredFile = StoredFile(folder: string, filename: string, size: nat, modified: int, url: string)

  /** The session user's role: missing, explicitly null, or a name. */
  datatype Role = Undefined | Null | Named(name: string)

  datatype User = User(role: Role)

  /** The session: whether it is still loading, and its user if any. */
  datatype Session = Session(statusLoading: bool, user: Option<User>)

  /** What the page's effect does for a session. */
  datatype GateAction = Redirect | LoadFiles | Wait

  /** What the page renders below its header, for the session and the page state. */
  datatype View = Nothing | LoadingFiles | NoFilesFound | Rows(rows: seq<StoredFile>)

  /** How the listing request ended. */
  datatype ListOutcome = Listed(files: seq<StoredFile>) | Unsuccessful | ListThrew

  const AdminRole: string := "ADMIN"
  const SelectedFolder: string := "theolingua"
  const ImageExtensions: seq<string> := ["jpg", "jpeg", "png", "gif", "webp"]

  /** `isAdmin`: a user whose role is ADMIN. */
  predicate IsAdmin(s: Session) {
    s.user.Some? && s.user.value.role == Named(AdminRole)
  }

  /** `isLoadingAuth`: the session is loading, or the user's role is still null. */
  predicate IsLoadingAuth(s: Session) {
    s.statusLoading || (s.user.Some? && s.user.value.role == Null)
  }

  /**
    The page's effect: redirect home a signed-in user whose role is known
    and not ADMIN; load the files for an admin; otherwise wait.
   */
  function Gate(s: Session): (a: GateAction)
    ensures a == LoadFiles <==> IsAdmin(s)
    ensures a == Redirect <==> (&& !IsLoadingAuth(s) && s.user.Some?
                                && s.user.value.role != Named(AdminRole))
    ensures s.user.None? ==> a == Wait
  {
    if !IsLoadingAuth(s) && s.user.Some? && s.user.value.role != Named(AdminRole) then Redirect
    else if IsAdmin(s) then LoadFiles
    else Wait
  }

  /**
    The search test: the lowercased name contains the lowercased query. The
    empty query matches every file, and no query longer than a name
    matches it.
   */
  predicate Matches(f: StoredFile, query: string)
    ensures query == "" ==> Matches(f, query)
    ensures Matches(f, query) ==> |query| <= |f.filename|
  {
    assert OccursAt(Lower(f.filename), Lower(""), 0);
    Contains(Lower(f.filename), Lower(query))
  }

  /** `filteredFiles`: the matching files, in their listed order. */
  function Filter(files: seq<StoredFile>, query: string): (r: seq<StoredFile>)
    ensures |r| <= |files|
    ensures forall f :: f in r <==> f in files && Matches(f, query)
  {
    if files == [] then []
    else (if Matches(files[0], query) then [files[0]] else []) + Filter(files[1..], query)
  }

  /** Filtering a concatenation filters each part: the kept files stay in order. */
  lemma {:induction false} FilterAppend(a: seq<StoredFile>, b: seq<StoredFile>, query: string)
    ensures Filter(a + b, query) == Filter(a, query) + Filter(b, query)
    decreases |a|
  {
    if a == [] {
      assert a + b == b;
    } else {
      assert (a + b)[1..] == a[1..] + b;
      FilterAppend(a[1..], b, query);
    }
  }

  /** Every name contains the empty string, so an empty query keeps all files. */
  lemma {:induction false} EmptyQueryKeepsAll(files: seq<StoredFile>)
    ensures Filter(files, "") == files
    decreases |files|
  {
    if files != [] {
      assert OccursAt(Lower(files[0].filename), Lower(""), 0);
      EmptyQueryKeepsAll(files[1..]);
    }
  }

  lemma {:induction false} LowerIsIdempotent(s: string)
    ensures Lower(Lower(s)) == Lower(s)
  {
    assert forall i :: 0 <= i < |s| ==> Lower(Lower(s))[i] == Lower(s)[i];
  }

  /** The search ignores the case of the query. */
  lemma {:induction false} QueryCaseIgnored(files: seq<StoredFile>, query: string)
    ensures Filter(files, query) == Filter(files, Lower(query))
    decreases |files|
  {
    LowerIsIdempotent(query);
    if files != [] {
      QueryCaseIgnored(files[1..], query);
    }
  }

  /** `totalSize`: the sizes of all files added up. */
  function TotalSize(files: seq<StoredFile>): (t: nat)
    ensures files == [] ==> t == 0
    ensures |files| == 1 ==> t == files[0].size
    ensures forall i :: 0 <= i < |files| ==> files[i].size <= t
  {
    if files == [] then 0 else files[0].size + TotalSize(files[1..])
  }

  /** The total of two lists put together is the sum of their totals. */
  lemma {:induction false} TotalSizeAppend(a: seq<StoredFile>, b: seq<StoredFile>)
    ensures TotalSize(a + b) == TotalSize(a) + TotalSize(b)
    decreases |a|
  {
    if a == [] {
      assert a + b == b;
    } else {
      assert (a + b)[1..] == a[1..] + b;
      TotalSizeAppend(a[1..], b);
    }
  }

  /** The total is over all files, and the files a search shows never add up to more. */
  lemma {:induction false} FilteredSizeAtMostTotal(files: seq<StoredFile>, query: string)
    ensures TotalSize(Filter(files, query)) <= TotalSize(files)
    decreases |files|
  {
    if files != [] {
      FilteredSizeAtMostTotal(files[1..], query);
      if Matches(files[0], query) {
        assert Filter(files, query) == [files[0]] + Filter(files[1..], query);
        assert ([files[0]] + Filter(files[1..], query))[1..] == Filter(files[1..], query);
      } else {
        assert Filter(files, query) == Filter(files[1..], query);
      }
    }
  }

  /** The latest upload: the largest `modified`, none ("N/A") for an empty list. */
  function LatestModified(files: seq<StoredFile>): (r: Option<int>)
    ensures r.None? <==> files == []
    ensures r.Some? ==> exists i :: 0 <= i < |files| && files[i].modified == r.value
    ensures r.Some? ==> forall i :: 0 <= i < |files| ==> files[i].modified <= r.value
  {
    if files == [] then None
    else
      var rest := LatestModified(files[1..]);
      if rest.None? || files[0].modified >= rest.value then Some(files[0].modified)
      else
        assert forall i :: 1 <= i < |files| ==> files[i] == files[1..][i - 1];
        var j :| 0 <= j < |files[1..]| && files[1..][j].modified == rest.value;
        assert files[j + 1].modified == rest.value;
        rest
  }

  /** `name.split('.').pop()`: the text after the last dot, or the whole name without one. */
  function AfterLastDot(name: string): (r: string)
    ensures |r| <= |name| && r == name[|name| - |r|..]
    ensures '.' !in r
    ensures |r| < |name| ==> name[|name| - |r| - 1] == '.'
  {
    if name == [] then []
    else if name[|name| - 1] == '.' then []
    else
      var r := AfterLastDot(name[..|name| - 1]) + [name[|name| - 1]];
      assert name == name[..|name| - 1] + [name[|name| - 1]];
      r
  }

  /** Lowercasing never introduces a dot. */
  lemma LowerAddsNoDot(s: string)
    requires '.' !in s
    ensures '.' !in Lower(s)
  {
    assert forall i :: 0 <= i < |s| ==> Lower(s)[i] != '.' by {
      forall i | 0 <= i < |s|
        ensures Lower(s)[i] != '.'
      {
        assert s[i] in s;
      }
    }
  }

  /** The lowercased extension `getFileIcon` looks at: dot-free and without capitals. */
  function Extension(name: string): (e: string)
    ensures |e| <= |name| && '.' !in e
    ensures forall i :: 0 <= i < |e| ==> !('A' <= e[i] <= 'Z')
  {
    LowerAddsNoDot(AfterLastDot(name));
    Lower(AfterLastDot(name))
  }

  /**
    `getFileIcon` shows the image icon for these extensions, in any case. A
    name without a dot is its own extension, so a file named `png` counts.
   */
  predicate IsImageName(name: string)
    ensures IsImageName(name) ==> 3 <= |AfterLastDot(name)| <= 4
  {
    ImageExtensionLengths(Extension(name));
    Extension(name) in ImageExtensions
  }

  lemma ImageExtensionLengths(e: string)
    ensures e in ImageExtensions ==> 3 <= |e| <= 4
  {
  }

  /** A name with a dot takes its extension from after that last dot, whatever comes before. */
  lemma {:induction false} ExtensionAfterLastDot(base: string, ext: string)
    requires '.' !in ext
    ensures Extension(base + "." + ext) == Lower(ext)
    decreases |ext|
  {
    if ext == [] {
      assert (base + "." + ext)[|base + "." + ext| - 1] == '.';
    } else {
      var name := base + "." + ext;
      assert name[..|name| - 1] == base + "." + ext[..|ext| - 1];
      assert ext[|ext| - 1] in ext;
      ExtensionAfterLastDot(base, ext[..|ext| - 1]);
      assert AfterLastDot(name) == AfterLastDot(base + "." + ext[..|ext| - 1]) + [ext[|ext| - 1]];
      assert ext == ext[..|ext| - 1] + [ext[|ext| - 1]];
    }
  }

  /** The icon ignores the case of the extension: `logo.PNG` is an image like `logo.png`. */
  lemma {:induction false} ExtensionCaseIgnored(base: string, ext: string)
    requires '.' !in ext
    ensures '.' !in Lower(ext)
    ensures IsImageName(base + "." + ext) <==> IsImageName(base + "." + Lower(ext))
  {
    LowerAddsNoDot(ext);
    ExtensionAfterLastDot(base, ext);
    ExtensionAfterLastDot(base, Lower(ext));
    LowerIsIdempotent(ext);
  }

  /** The key of a file in the `deleting` marker. */
  function DeleteKey(folder: string, filename: string): (k: string)
    ensures |k| == |folder| + 1 + |filename|
    ensures k[..|folder|] == folder && k[|folder|] == '/' && k[|folder| + 1..] == filename
  {
    folder + "/" + filename
  }

  class FileManagerPage {
    var files: seq<StoredFile>
    var loading: bool
    var searchQuery: string
    var deleting: Option<string>

    constructor ()
      ensures files == [] && loading && searchQuery == "" && deleting.None?
    {
      files := [];
      loading := true;
      searchQuery := "";
      deleting := None;
    }

    /** `filteredFiles`: the files that match the search, in listed order. */
    function Shown(): (r: seq<StoredFile>)
      reads this
      ensures forall f :: f in r <==> f in files && Matches(f, searchQuery)
    {
      Filter(files, searchQuery)
    }

    /** The total shown on the page: over all files, so never less than the filtered files' total. */
    function Total(): (t: nat)
      reads this
      ensures t == TotalSize(files)
      ensures TotalSize(Shown()) <= t
    {
      FilteredSizeAtMostTotal(files, searchQuery);
      TotalSize(files)
    }

    /**
      What the page shows for a session: nothing unless the user is an
      admin, so never to a redirected or signed-out user; then "Loading
      files..." while a listing runs, "No files found" for an empty search
      result, and otherwise one row per matching file.
     */
    function Screen(s: Session): (v: View)
      reads this
      ensures v != Nothing <==> Gate(s) == LoadFiles
      ensures Gate(s) == Redirect ==> v == Nothing
      ensures v == LoadingFiles <==> IsAdmin(s) && loading
      ensures v == NoFilesFound <==> IsAdmin(s) && !loading && Shown() == []
      ensures v.Rows? ==> v.rows == Shown() && v.rows != []
    {
      if !IsAdmin(s) then Nothing
      else if loading then LoadingFiles
      else if Shown() == [] then NoFilesFound
      else Rows(Shown())
    }

    /** A file's delete button is disabled while that file is being deleted. */
    predicate DeleteDisabled(f: StoredFile)
      reads this
      ensures DeleteDisabled(f) ==> && deleting.Some?
                                    && |deleting.value| == |f.folder| + 1 + |f.filename|
                                    && deleting.value[|f.folder| + 1..] == f.filename
    {
      deleting == Some(DeleteKey(f.folder, f.filename))
    }

    method Search(query: string)
      modifies this`searchQuery
      ensures searchQuery == query
    {
      searchQuery := query;
    }

    /** `fetchFiles` up to the request: it asks for the fixed folder. */
    method BeginFetch() returns (folder: string)
      modifies this`loading
      ensures loading && folder == SelectedFolder
    {
      loading := true;
      folder := SelectedFolder;
    }

    /** `fetchFiles` after the request: a successful listing replaces the files; others keep them. */
    method FinishFetch(outcome: ListOutcome)
      modifies this`files, this`loading
      ensures !loading
      ensures files == (if outcome.Listed? then outcome.files else old(files))
    {
      if outcome.Listed? {
        files := outcome.files;
      }
      loading := false;
    }

    /**
      `deleteFile` up to the request: declining the confirmation does
      nothing; otherwise the file is marked as being deleted.
     */
    method BeginDelete(folder: string, filename: string, confirmed: bool) returns (sent: bool)
      modifies this`deleting
      ensures sent == confirmed
      ensures confirmed ==> deleting == Some(DeleteKey(folder, filename))
      ensures confirmed ==> forall f: StoredFile :: f.folder == folder && f.filename == filename ==> DeleteDisabled(f)
      ensures !confirmed ==> deleting == old(deleting)
    {
      if !confirmed {
        return false;
      }
      deleting := Some(DeleteKey(folder, filename));
      sent := true;
    }

    /**
      `deleteFile` after the request: the marker is cleared; a successful
      delete starts a new listing, which sets `loading`.
     */
    method FinishDelete(succeeded: bool) returns (refetch: bool)
      modifies this`deleting, this`loading
      ensures deleting.None? && refetch == succeeded
      ensures forall f: StoredFile :: !DeleteDisabled(f)
      ensures loading == (succeeded || old(loading))
    {
      if succeeded {
        var folder := BeginFetch();
      }
      deleting := None;
      refetch := succeeded;
    }
  }
}
