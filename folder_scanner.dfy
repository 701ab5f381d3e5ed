/** `_scan_for_images` of folder_scanner.py: a recursive walk of the gallery directory that keeps
    the files whose names end with an allowed extension and files them, folder by folder, into a
    two-level map `folder key -> file name -> record`.

    The directory is an input tree. What the operating system would answer is carried in the
    tree: a directory whose listing fails has no listing, a file whose modification time cannot
    be read has no stamp, and each file carries the outcome of extracting its image metadata. */
module FolderScanner {
  import opened Wrappers
  import opened Text
  import opened Values

  /** The modification time of a file and its `%Y-%m-%d %H:%M:%S` rendering. */
  datatype Stamp = Stamp(timestamp: real, date: string)

  /** One name in a directory listing. `Special` is whatever is neither a directory nor a file. */
  datatype Entry =
    | Dir(name: string, readable: bool, entries: seq<Entry>)
    | File(name: string, stamp: Option<Stamp>, extracted: Option<Value>)
    | Special(name: string)

  datatype FileType = Image | Media | Audio | UnknownType

  function FileTypeName(t: FileType): string {
    match t
    case Image => "image"
    case Media => "media"
    case Audio => "audio"
    case UnknownType => "unknown"
  }

  /** The `{"name", "url", "timestamp", "date", "metadata", "type"}` record of one file. */
  datatype FileRecord = FileRecord(name: string, url: string, timestamp: real, date: string,
                                   metadata: Value, fileType: FileType)

  type Folder = map<string, FileRecord>
  type Folders = map<string, Folder>

  const DefaultExtensions: seq<string> :=
    [".png", ".jpg", ".jpeg", ".webp", ".mp4", ".gif", ".webm", ".mov", ".wav", ".mp3", ".m4a", ".flac"]

  const ImageExtensions: seq<string> := [".png", ".jpg", ".jpeg", ".webp"]
  const MediaExtensions: seq<string> := [".mp4", ".gif", ".webm", ".mov"]
  const AudioExtensions: seq<string> := [".wav", ".mp3", ".m4a", ".flac"]

  // ---------------------------------------------------------------- extensions

  /** One allowed extension, lower-cased and given a leading dot when it has none. */
  function NormaliseExtension(ext: string): (r: string)
    ensures StartsWith(r, ".") && Lower(r) == r
  {
    LowerIdempotent(ext);
    if StartsWith(ext, ".") then
      assert Lower(ext)[0] == '.';
      Lower(ext)
    else
      assert Lower("." + Lower(ext)) == "." + Lower(ext);
      "." + Lower(ext)
  }

  /** The allowed extensions, defaulting to `DefaultExtensions`, each normalised. */
  function NormaliseExtensions(exts: Option<seq<string>>): (r: seq<string>)
    ensures |r| == |exts.GetOr(DefaultExtensions)|
    ensures forall i :: 0 <= i < |r| ==> r[i] == NormaliseExtension(exts.GetOr(DefaultExtensions)[i])
  {
    var source := exts.GetOr(DefaultExtensions);
    seq(|source|, i requires 0 <= i < |source| => NormaliseExtension(source[i]))
  }

  /** Normalising twice is normalising once. */
  lemma NormaliseExtensionsIdempotent(exts: Option<seq<string>>)
    ensures NormaliseExtensions(Some(NormaliseExtensions(exts))) == NormaliseExtensions(exts)
  {
    var r := NormaliseExtensions(exts);
    var rr := NormaliseExtensions(Some(r));
    forall i | 0 <= i < |r| ensures rr[i] == r[i] {
      assert StartsWith(r[i], ".") && Lower(r[i]) == r[i];
    }
  }

  /** `name.lower().endswith(exts)`. */
  predicate Matches(name: string, exts: seq<string>) {
    exists i :: 0 <= i < |exts| && EndsWith(Lower(name), exts[i])
  }

  /** Matching is blind to ASCII case. */
  lemma MatchesIgnoresCase(name: string, exts: seq<string>)
    ensures Matches(Upper(name), exts) <==> Matches(name, exts)
    ensures Matches(Lower(name), exts) <==> Matches(name, exts)
  {
    LowerIdempotent(name);
    assert Lower(Upper(name)) == Lower(name);
  }

  /** The index of the last `.` in `s`. */
  function LastDot(s: string): (r: Option<nat>)
    ensures r.Some? ==> r.value < |s| && s[r.value] == '.'
    ensures r.Some? ==> forall j :: r.value < j < |s| ==> s[j] != '.'
    ensures r.None? ==> forall j :: 0 <= j < |s| ==> s[j] != '.'
  {
    if |s| == 0 then None
    else if s[|s| - 1] == '.' then Some(|s| - 1)
    else LastDot(s[..|s| - 1])
  }

  /** `os.path.splitext(name)[1]` for a single path component: from the last dot on, unless
      only dots precede it (so ".png" has no extension). */
  function SplitExt(name: string): (r: string)
    ensures r == "" || (r[0] == '.' && EndsWith(name, r))
    // the extension starts at the last dot and holds no other dot
    ensures r != "" ==> LastDot(name).Some? && LastDot(name).value == |name| - |r|
    ensures forall i :: 0 < i < |r| ==> r[i] != '.'
    // there is one exactly when some dot follows a character that is not a dot
    ensures r != "" <==> exists j, k :: 0 <= j < k < |name| && name[j] != '.' && name[k] == '.'
  {
    match LastDot(name)
    case None => ""
    case Some(k) =>
      if exists j :: 0 <= j < k && name[j] != '.' then name[k..] else ""
  }

  /** The type a file's extension gives it. */
  function TypeOf(ext: string): (t: FileType)
    ensures t == Image <==> ext in ImageExtensions
    ensures t == Media <==> ext in MediaExtensions
    ensures t == Audio <==> ext in AudioExtensions
  {
    if ext in ImageExtensions then Image
    else if ext in MediaExtensions then Media
    else if ext in AudioExtensions then Audio
    else UnknownType
  }

  // ---------------------------------------------------------------- paths and URLs

  /** `os.path.join(a, b)` for a relative component `b`. */
  function PathJoin(a: string, b: string): string {
    if a == "" then b else if EndsWith(a, "/") then a + b else a + "/" + b
  }

  /** The URL under which the gallery serves a file, with backslashes turned into slashes. */
  function Url(rel: string, name: string): (r: string)
    ensures StartsWith(r, "/static_gallery/")
    ensures forall i :: 0 <= i < |r| ==> r[i] != '\\'
    // a path without backslashes is served as is: the prefix, the folder and a slash, the name
    ensures (forall i :: 0 <= i < |rel| ==> rel[i] != '\\') && (forall i :: 0 <= i < |name| ==> name[i] != '\\')
            ==> r == (if |rel| > 0 then "/static_gallery/" + rel + "/" + name else "/static_gallery/" + name)
  {
    ReplaceChar(if |rel| > 0 then "/static_gallery/" + rel + "/" + name else "/static_gallery/" + name, '\\', '/')
  }

  /** The key a folder is filed under: the base path for the root, else the base path joined
      with the folder's relative path. */
  function FolderKey(basePath: string, rel: string): string {
    if rel != "" then PathJoin(basePath, rel) else basePath
  }

  // ---------------------------------------------------------------- the scan as a function

  datatype Settings = Settings(basePath: string, includeSubfolders: bool, extensions: seq<string>)

  /** The record kept for a file in the folder at `rel`, or None when the file is skipped:
      no allowed extension, or no modification time. Only images carry their extracted metadata,
      and a failed extraction gives `{}`. */
  function RecordOf(s: Settings, rel: string, e: Entry): (r: Option<FileRecord>)
    requires e.File?
    ensures r.Some? <==> Matches(e.name, s.extensions) && e.stamp.Some?
    ensures r.Some? ==> r.value.name == e.name && r.value.url == Url(rel, e.name)
                        && r.value.fileType == TypeOf(SplitExt(Lower(e.name)))
                        && (r.value.fileType != Image ==> r.value.metadata == EmptyObj)
                        && (r.value.fileType == Image ==> r.value.metadata == e.extracted.GetOr(EmptyObj))
  {
    if !Matches(e.name, s.extensions) || e.stamp.None? then None
    else
      var fileType := TypeOf(SplitExt(Lower(e.name)));
      var metadata := if fileType == Image then e.extracted.GetOr(EmptyObj) else EmptyObj;
      Some(FileRecord(e.name, Url(rel, e.name), e.stamp.value.timestamp, e.stamp.value.date, metadata, fileType))
  }

  /** The files of a listing, in listing order. */
  function FilesOf(entries: seq<Entry>): (r: seq<Entry>)
    ensures forall k :: 0 <= k < |r| ==> r[k].File?
    ensures forall e :: e in r <==> e in entries && e.File?
    ensures |r| <= |entries|
  {
    if |entries| == 0 then []
    else FilesOf(entries[..|entries| - 1]) + (if entries[|entries| - 1].File? then [entries[|entries| - 1]] else [])
  }

  /** Filtering a listing commutes with splitting it: the files keep their listing order. */
  lemma {:induction false} FilesOfAppend(a: seq<Entry>, b: seq<Entry>)
    ensures FilesOf(a + b) == FilesOf(a) + FilesOf(b)
    decreases |b|
  {
    if |b| == 0 {
      assert a + b == a;
    } else {
      assert (a + b)[..|a + b| - 1] == a + b[..|b| - 1];
      FilesOfAppend(a, b[..|b| - 1]);
    }
  }

  /** The files of a listing up to entry i+1 are those up to entry i, then entry i if it is one. */
  lemma FilesOfAt(entries: seq<Entry>, i: nat)
    requires i < |entries|
    ensures FilesOf(entries[..i + 1]) == FilesOf(entries[..i]) + (if entries[i].File? then [entries[i]] else [])
  {
    assert entries[..i + 1][..i] == entries[..i];
  }

  /** A single entry contributes itself when it is a file and nothing otherwise. */
  lemma FilesOfOne(e: Entry)
    ensures FilesOf([e]) == if e.File? then [e] else []
  {
    assert [e][..0] == [];
  }

  /** `folder_content` after the second loop has processed `files`. */
  function FolderContent(s: Settings, rel: string, files: seq<Entry>): Folder
    requires forall k :: 0 <= k < |files| ==> files[k].File?
  {
    if |files| == 0 then map[]
    else
      var content := FolderContent(s, rel, files[..|files| - 1]);
      var f := files[|files| - 1];
      match RecordOf(s, rel, f)
      case None => content
      case Some(record) => content[f.name := record]
  }

  /** The content after file j+1 is the content after file j, with file j's record if it has one. */
  lemma FolderContentAt(s: Settings, rel: string, files: seq<Entry>, j: nat)
    requires forall k :: 0 <= k < |files| ==> files[k].File?
    requires j < |files|
    ensures FolderContent(s, rel, files[..j + 1]) ==
            match RecordOf(s, rel, files[j])
            case None => FolderContent(s, rel, files[..j])
            case Some(record) => FolderContent(s, rel, files[..j])[files[j].name := record]
  {
    assert files[..j + 1][..j] == files[..j];
  }

  /** `folders_data` after `scan_directory(d, rel)`: subfolders first, as the first loop meets
      them, then this folder's own content when it is not empty. */
  function ScanDir(s: Settings, rel: string, d: Entry, folders: Folders): Folders
    decreases d, 1
  {
    if !d.Dir? || !d.readable then folders
    else
      var afterSubfolders := ScanEntries(s, rel, d.entries, folders);
      var content := FolderContent(s, rel, FilesOf(d.entries));
      if |content| > 0 then afterSubfolders[FolderKey(s.basePath, rel) := content] else afterSubfolders
  }

  /** Whether the first loop descends into an entry. */
  predicate Descends(s: Settings, e: Entry) {
    e.Dir? && s.includeSubfolders && !StartsWith(e.name, ".")
  }

  /** `folders_data` after the first loop has met `entries` of the folder at `rel`. */
  function ScanEntries(s: Settings, rel: string, entries: seq<Entry>, folders: Folders): Folders
    decreases entries, 0
  {
    if |entries| == 0 then folders
    else
      var before := ScanEntries(s, rel, entries[..|entries| - 1], folders);
      var e := entries[|entries| - 1];
      if Descends(s, e) then ScanDir(s, PathJoin(rel, e.name), e, before) else before
  }

  // ---------------------------------------------------------------- the scan as code

  /** The state `scan_directory` shares with its recursive calls: the settings and the
      `folders_data` dict. */
  class FolderScan {
    const settings: Settings
    var folders: Folders

    constructor (settings: Settings)
      ensures this.settings == settings && folders == map[]
    {
      this.settings := settings;
      folders := map[];
    }

    /** `scan_directory(dir_path, relative_path)`. */
    method ScanDirectory(d: Entry, rel: string)
      modifies this
      decreases d
      ensures folders == ScanDir(settings, rel, d, old(folders))
    {
      if !d.Dir? || !d.readable {
        return;
      }
      var entries := d.entries;
      var fileEntries: seq<Entry> := [];
      var i := 0;
      while i < |entries|
        invariant 0 <= i <= |entries|
        invariant folders == ScanEntries(settings, rel, entries[..i], old(folders))
        invariant fileEntries == FilesOf(entries[..i])
      {
        FilesOfAt(entries, i);
        assert entries[..i + 1][..i] == entries[..i];
        var e := entries[i];
        if e.Dir? {
          if settings.includeSubfolders && !StartsWith(e.name, ".") {
            ScanDirectory(e, PathJoin(rel, e.name));
          }
        } else if e.File? {
          fileEntries := fileEntries + [e];
        }
        i := i + 1;
      }
      assert entries[..i] == entries;
      var content := CollectContent(rel, fileEntries);
      if |content| > 0 {
        folders := folders[FolderKey(settings.basePath, rel) := content];
      }
    }

    /** The second loop of `scan_directory`: `folder_content` built from the files met. */
    method CollectContent(rel: string, files: seq<Entry>) returns (content: Folder)
      requires forall k :: 0 <= k < |files| ==> files[k].File?
      ensures content == FolderContent(settings, rel, files)
    {
      content := map[];
      var j := 0;
      while j < |files|
        invariant 0 <= j <= |files|
        invariant content == FolderContent(settings, rel, files[..j])
      {
        FolderContentAt(settings, rel, files, j);
        var record := RecordOf(settings, rel, files[j]);
        if record.Some? {
          content := content[files[j].name := record.value];
        }
        j := j + 1;
      }
      assert files[..j] == files;
    }
  }

  /** `_scan_for_images(full_base_path, base_path, include_subfolders, allowed_extensions)`, with
      `root` standing for the directory at `full_base_path`. The second result is always false. */
  method ScanForImages(root: Entry, basePath: string, includeSubfolders: bool, allowedExtensions: Option<seq<string>>)
    returns (folders: Folders, changed: bool)
    ensures folders == ScanDir(Settings(basePath, includeSubfolders, NormaliseExtensions(allowedExtensions)), "", root, map[])
    ensures !changed
  {
    var scan := new FolderScan(Settings(basePath, includeSubfolders, NormaliseExtensions(allowedExtensions)));
    scan.ScanDirectory(root, "");
    folders := scan.folders;
    changed := false;
  }

  // ---------------------------------------------------------------- properties

  /** A record as the scanner files it under `name`. */
  predicate RecordOk(s: Settings, name: string, r: FileRecord) {
    r.name == name && Matches(name, s.extensions)
    && (forall i :: 0 <= i < |r.url| ==> r.url[i] != '\\')
    && r.fileType == TypeOf(SplitExt(Lower(name)))
    && (r.fileType != Image ==> r.metadata == EmptyObj)
  }

  /** Every folder filed is non-empty and every record in it is well formed. */
  predicate WellFormed(s: Settings, folders: Folders) {
    forall key :: key in folders ==>
      |folders[key]| > 0 && forall name :: name in folders[key] ==> RecordOk(s, name, folders[key][name])
  }

  lemma {:induction false} FolderContentOk(s: Settings, rel: string, files: seq<Entry>)
    requires forall k :: 0 <= k < |files| ==> files[k].File?
    ensures forall name :: name in FolderContent(s, rel, files) ==> RecordOk(s, name, FolderContent(s, rel, files)[name])
  {
    if |files| > 0 {
      FolderContentOk(s, rel, files[..|files| - 1]);
    }
  }

  /** The file `f` is kept under `name`. */
  predicate Kept(s: Settings, f: Entry, name: string) {
    f.File? && f.name == name && Matches(name, s.extensions) && f.stamp.Some?
  }

  /** A file name is filed exactly when some file of that name has an allowed extension and a
      modification time. */
  lemma {:induction false} FolderContentHas(s: Settings, rel: string, files: seq<Entry>, name: string)
    requires forall k :: 0 <= k < |files| ==> files[k].File?
    ensures name in FolderContent(s, rel, files) <==> exists k :: 0 <= k < |files| && Kept(s, files[k], name)
  {
    if |files| > 0 {
      var prefix := files[..|files| - 1];
      var f := files[|files| - 1];
      FolderContentHas(s, rel, prefix, name);
      FolderContentStep(s, rel, files, name);
      KeptSnoc(s, files, prefix, name);
    }
  }

  lemma KeptSnoc(s: Settings, files: seq<Entry>, prefix: seq<Entry>, name: string)
    requires |files| > 0 && prefix == files[..|files| - 1]
    ensures (exists k :: 0 <= k < |files| && Kept(s, files[k], name)) <==>
            (exists k :: 0 <= k < |prefix| && Kept(s, prefix[k], name)) || Kept(s, files[|files| - 1], name)
  {
    if exists k :: 0 <= k < |prefix| && Kept(s, prefix[k], name) {
      var k :| 0 <= k < |prefix| && Kept(s, prefix[k], name);
      assert files[k] == prefix[k];
    }
    if exists k :: 0 <= k < |files| && Kept(s, files[k], name) {
      var k :| 0 <= k < |files| && Kept(s, files[k], name);
      if k < |prefix| {
        assert prefix[k] == files[k];
      }
    }
  }

  lemma FolderContentStep(s: Settings, rel: string, files: seq<Entry>, name: string)
    requires |files| > 0 && forall k :: 0 <= k < |files| ==> files[k].File?
    ensures name in FolderContent(s, rel, files) <==>
            name in FolderContent(s, rel, files[..|files| - 1]) || Kept(s, files[|files| - 1], name)
  {
    var f := files[|files| - 1];
    var r := RecordOf(s, rel, f);
    assert r.Some? <==> Matches(f.name, s.extensions) && f.stamp.Some?;
  }

  /** Filing a non-empty folder of well-formed records keeps the map well formed. */
  lemma FileFolder(s: Settings, folders: Folders, key: string, content: Folder)
    requires WellFormed(s, folders) && |content| > 0
    requires forall name :: name in content ==> RecordOk(s, name, content[name])
    ensures WellFormed(s, folders[key := content])
  {
    var result := folders[key := content];
    forall k | k in result
      ensures |result[k]| > 0 && forall name :: name in result[k] ==> RecordOk(s, name, result[k][name])
    {
      if k != key {
        assert result[k] == folders[k];
      }
    }
  }

  /** The scan keeps the folders map well formed. */
  lemma {:induction false} ScanDirWellFormed(s: Settings, rel: string, d: Entry, folders: Folders)
    requires WellFormed(s, folders)
    ensures WellFormed(s, ScanDir(s, rel, d, folders))
    decreases d, 1
  {
    if d.Dir? && d.readable {
      var after := ScanEntries(s, rel, d.entries, folders);
      var content := FolderContent(s, rel, FilesOf(d.entries));
      ScanEntriesWellFormed(s, rel, d.entries, folders);
      if |content| > 0 {
        FolderContentOk(s, rel, FilesOf(d.entries));
        FileFolder(s, after, FolderKey(s.basePath, rel), content);
      }
    }
  }

  lemma {:induction false} ScanEntriesWellFormed(s: Settings, rel: string, entries: seq<Entry>, folders: Folders)
    requires WellFormed(s, folders)
    ensures WellFormed(s, ScanEntries(s, rel, entries, folders))
    decreases entries, 0
  {
    if |entries| > 0 {
      var e := entries[|entries| - 1];
      ScanEntriesWellFormed(s, rel, entries[..|entries| - 1], folders);
      if Descends(s, e) {
        ScanDirWellFormed(s, PathJoin(rel, e.name), e, ScanEntries(s, rel, entries[..|entries| - 1], folders));
      }
    }
  }

  /** What `_scan_for_images` returns is well formed. */
  lemma ScanResultWellFormed(root: Entry, basePath: string, includeSubfolders: bool, allowedExtensions: Option<seq<string>>)
    ensures var s := Settings(basePath, includeSubfolders, NormaliseExtensions(allowedExtensions));
            WellFormed(s, ScanDir(s, "", root, map[]))
  {
    var s := Settings(basePath, includeSubfolders, NormaliseExtensions(allowedExtensions));
    ScanDirWellFormed(s, "", root, map[]);
  }

  /** The root folder is filed under the base path, with its own files, whatever the subfolders
      filed before it. */
  lemma RootFolder(s: Settings, root: Entry, folders: Folders)
    requires root.Dir? && root.readable
    requires |FolderContent(s, "", FilesOf(root.entries))| > 0
    ensures ScanDir(s, "", root, folders)[s.basePath] == FolderContent(s, "", FilesOf(root.entries))
  {
  }

  /** Scanning a folder only adds keys: whatever was filed before stays filed. */
  lemma {:induction false} ScanDirKeepsKeys(s: Settings, rel: string, d: Entry, folders: Folders)
    ensures folders.Keys <= ScanDir(s, rel, d, folders).Keys
    decreases d, 1
  {
    if d.Dir? && d.readable {
      ScanEntriesKeepsKeys(s, rel, d.entries, folders);
    }
  }

  /** The first loop only adds keys too. */
  lemma {:induction false} ScanEntriesKeepsKeys(s: Settings, rel: string, entries: seq<Entry>, folders: Folders)
    ensures folders.Keys <= ScanEntries(s, rel, entries, folders).Keys
    decreases entries, 0
  {
    if |entries| > 0 {
      var e := entries[|entries| - 1];
      ScanEntriesKeepsKeys(s, rel, entries[..|entries| - 1], folders);
      if Descends(s, e) {
        ScanDirKeepsKeys(s, PathJoin(rel, e.name), e, ScanEntries(s, rel, entries[..|entries| - 1], folders));
      }
    }
  }

  /** A subfolder the first loop descends into, readable and holding at least one record, is
      filed under its own key, whatever the entries around it. */
  lemma {:induction false} SubfolderFiled(s: Settings, rel: string, entries: seq<Entry>, folders: Folders, k: nat)
    requires k < |entries| && Descends(s, entries[k]) && entries[k].readable
    requires |FolderContent(s, PathJoin(rel, entries[k].name), FilesOf(entries[k].entries))| > 0
    ensures FolderKey(s.basePath, PathJoin(rel, entries[k].name)) in ScanEntries(s, rel, entries, folders)
    decreases |entries|
  {
    var n := |entries| - 1;
    var before := ScanEntries(s, rel, entries[..n], folders);
    if k == n {
      assert entries[n] == entries[k];
    } else {
      assert entries[..n][k] == entries[k];
      SubfolderFiled(s, rel, entries[..n], folders, k);
      if Descends(s, entries[n]) {
        ScanDirKeepsKeys(s, PathJoin(rel, entries[n].name), entries[n], before);
      }
    }
  }

  /** The same from the folder's side: scanning a readable folder files every subfolder it
      descends into that holds a record, so the recursion reaches every level. */
  lemma SubfolderOfDirFiled(s: Settings, rel: string, d: Entry, folders: Folders, k: nat)
    requires d.Dir? && d.readable && k < |d.entries|
    requires Descends(s, d.entries[k]) && d.entries[k].readable
    requires |FolderContent(s, PathJoin(rel, d.entries[k].name), FilesOf(d.entries[k].entries))| > 0
    ensures FolderKey(s.basePath, PathJoin(rel, d.entries[k].name)) in ScanDir(s, rel, d, folders)
  {
    SubfolderFiled(s, rel, d.entries, folders, k);
  }

  /** Without `include_subfolders` the first loop never recurses. */
  lemma {:induction false} NoSubfoldersNoRecursion(s: Settings, rel: string, entries: seq<Entry>, folders: Folders)
    requires !s.includeSubfolders
    ensures ScanEntries(s, rel, entries, folders) == folders
  {
    if |entries| > 0 {
      NoSubfoldersNoRecursion(s, rel, entries[..|entries| - 1], folders);
    }
  }

  /** Without `include_subfolders` only the root can be filed. */
  lemma RootOnlyWithoutSubfolders(s: Settings, root: Entry)
    requires !s.includeSubfolders
    ensures ScanDir(s, "", root, map[]).Keys <= {s.basePath}
  {
    if root.Dir? && root.readable {
      NoSubfoldersNoRecursion(s, "", root.entries, map[]);
    }
  }

  /** A hidden directory is never entered: whatever it holds, the scan files the same folders. */
  lemma {:induction false} HiddenDirectoryIgnored(s: Settings, rel: string, entries: seq<Entry>, folders: Folders,
                                                  k: nat, readable: bool, hidden: seq<Entry>)
    requires k < |entries| && entries[k].Dir? && StartsWith(entries[k].name, ".")
    ensures ScanEntries(s, rel, entries[k := Dir(entries[k].name, readable, hidden)], folders)
            == ScanEntries(s, rel, entries, folders)
  {
    var d := Dir(entries[k].name, readable, hidden);
    var other := entries[k := d];
    var n := |entries| - 1;
    if k < n {
      assert other[..n] == entries[..n][k := d];
      HiddenDirectoryIgnored(s, rel, entries[..n], folders, k, readable, hidden);
      assert other[n] == entries[n];
    } else {
      assert other[..n] == entries[..n];
      assert !Descends(s, other[n]) && !Descends(s, entries[n]);
    }
  }

  /** Nor are the files of the folder holding it changed by what it holds. */
  lemma {:induction false} HiddenDirectoryKeepsFiles(entries: seq<Entry>, k: nat, name: string, readable: bool,
                                                     hidden: seq<Entry>)
    requires k < |entries| && entries[k].Dir?
    ensures FilesOf(entries[k := Dir(name, readable, hidden)]) == FilesOf(entries)
  {
    var d := Dir(name, readable, hidden);
    var other := entries[k := d];
    var n := |entries| - 1;
    if k < n {
      assert other[..n] == entries[..n][k := d];
      HiddenDirectoryKeepsFiles(entries[..n], k, name, readable, hidden);
      assert other[n] == entries[n];
    } else {
      assert other[..n] == entries[..n];
    }
  }

  /** A dotfile such as ".png" passes the extension filter yet has no extension, so it is typed
      "unknown". */
  lemma DotfileTypedUnknown()
    ensures Matches(".png", DefaultExtensions) && SplitExt(".png") == "" && TypeOf(SplitExt(".png")) == UnknownType
  {
    var n := ".png";
    assert Lower(n) == n;
    assert EndsWith(Lower(n), DefaultExtensions[0]);
    assert n[0] == '.' && n[1] != '.' && n[2] != '.' && n[3] != '.';
    assert LastDot(n) == Some(0);
  }

  /** Typing reads the lower-cased name: "clip.GIF" is media. */
  lemma GifIsMedia()
    ensures TypeOf(SplitExt(Lower("clip.GIF"))) == Media
  {
    var n := Lower("clip.GIF");
    assert n == "clip.gif";
    assert n[4] == '.' && n[5] != '.' && n[6] != '.' && n[7] != '.';
    assert LastDot(n) == Some(4);
    assert n[0] != '.';
    assert n[4..] == ".gif";
  }
}
