/** The file-operation helpers of code/modules/utils/src/fileOps.ts:
    `lastSegment`, `findMatchingK`, `childDirs`, the metering wrapper
    `meteredFileOps`, the caching wrapper `cachedLoad` / `cachedFileOps`,
    the property tests `isMeteredFileOps` / `isCachedFileOps` / `nonCached`,
    and `copyFile` / `copyFiles`.

    The underlying FileOps is a FileStore: an abstract store mapping a file
    name or URL to its contents, a set of created directories, and an
    uninterpreted digest function.
 */
module FileOps {
  import opened Wrappers
  import opened Utils

  // ------------------------------------------------------------- lastSegment

  /** `s.lastIndexOf(c)`: -1 when c does not occur. */
  function LastIndexOf(s: string, c: char): (i: int)
    ensures -1 <= i < |s|
    ensures i >= 0 ==> s[i] == c && forall j :: i < j < |s| ==> s[j] != c
    ensures i == -1 ==> forall j :: 0 <= j < |s| ==> s[j] != c
  {
    if |s| == 0 then -1
    else if s[|s| - 1] == c then |s| - 1
    else LastIndexOf(s[..|s| - 1], c)
  }

  /** `lastSegment(s)`: the suffix of s after its last '/', or s itself. */
  function LastSegment(s: string): (r: string)
    ensures '/' !in r
    ensures |r| <= |s| && r == s[|s| - |r|..]
    ensures '/' !in s ==> r == s
    ensures '/' in s ==> |r| < |s| && s[|s| - |r| - 1] == '/'
  {
    var index := LastIndexOf(s, '/');
    if index == -1 then s else s[index + 1..]
  }

  // ----------------------------------------------------------- findMatchingK

  datatype StringAndExist = StringAndExist(str: string, doesExist: bool)

  function PairWithFilter<E>(filter: string -> Result<bool, E>, s: string): Result<StringAndExist, E>
  {
    match filter(s)
    case Success(b) => Success(StringAndExist(s, b))
    case Failure(e) => Failure(e)
  }

  /** `findMatchingK(list, filter)`: every filter promise is awaited together
      (Promise.all), then the pairs whose flag is true are kept. */
  function FindMatchingK<E>(list: seq<string>, filter: string -> Result<bool, E>): Result<seq<string>, E>
  {
    var ps :- MapK(list, s => PairWithFilter(filter, s));
    Success(Map((se: StringAndExist) => se.str, Filter(ps, (se: StringAndExist) => se.doesExist)))
  }

  lemma {:induction false} KeepFlagged(list: seq<string>, ps: seq<StringAndExist>, keep: string -> bool)
    requires |ps| == |list|
    requires forall i :: 0 <= i < |list| ==> ps[i] == StringAndExist(list[i], keep(list[i]))
    ensures Map((se: StringAndExist) => se.str, Filter(ps, (se: StringAndExist) => se.doesExist)) == Filter(list, keep)
  {
    if |list| > 0 {
      KeepFlagged(list[1..], ps[1..], keep);
    }
  }

  /** findMatchingK resolves exactly when every filter call resolves, and then
      returns exactly the elements of list whose filter result is true, in
      their original order. */
  lemma FindMatchingKIsFilter<E>(list: seq<string>, filter: string -> Result<bool, E>)
    ensures FindMatchingK(list, filter).Success? <==> forall i :: 0 <= i < |list| ==> filter(list[i]).Success?
    ensures FindMatchingK(list, filter).Success? ==>
      FindMatchingK(list, filter).value == Filter(list, s => filter(s).Success? && filter(s).value)
  {
    var pair := s => PairWithFilter(filter, s);
    MapKSuccess(list, pair);
    if MapK(list, pair).Success? {
      KeepFlagged(list, MapK(list, pair).value, s => filter(s).Success? && filter(s).value);
    }
  }

  // --------------------------------------------------------------- childDirs

  /** An abstract directory tree: `listFiles` of a directory lists the names
      of its entries, and `isDirectory` holds of the Directory entries. */
  datatype Entry = File(name: string) | Directory(name: string, entries: seq<Entry>)

  /** `addPrefix(s1)(s2)`. */
  function AddPrefix(s1: string, s2: string): string
  {
    if s1 == "" then s2 else s1 + "/" + s2
  }

  /** The entries listed under `node` (a file lists nothing). */
  function ListEntries(node: Entry): seq<Entry>
  {
    if node.Directory? then node.entries else []
  }

  /** The entries `children` keeps: not stopped by name, and directories. */
  function DirsUnder(node: Entry, stopDirFilter: string -> bool): (ds: seq<Entry>)
    ensures forall e :: e in ds ==> e in ListEntries(node)
  {
    var p := (e: Entry) => e.Directory? && !stopDirFilter(e.name);
    FilterMemberAll(ListEntries(node), p);
    Filter(ListEntries(node), p)
  }

  /** A listed entry is kept exactly when it is a directory whose bare name
      is not stopped. */
  lemma DirsUnderKeeps(node: Entry, stopDirFilter: string -> bool)
    ensures forall e :: e in DirsUnder(node, stopDirFilter) <==>
      e in ListEntries(node) && e.Directory? && !stopDirFilter(e.name)
  {
    FilterMemberAll(ListEntries(node), (e: Entry) => e.Directory? && !stopDirFilter(e.name));
  }

  lemma FilterMemberAll<T>(ts: seq<T>, p: T -> bool)
    ensures forall x :: x in Filter(ts, p) <==> x in ts && p(x)
  {
    forall x ensures x in Filter(ts, p) <==> x in ts && p(x) {
      FilterMember(ts, p, x);
    }
  }

  /** The paths of the direct child directories of `node`, found at `parent`. */
  function DirectChildren(node: Entry, parent: string, stopDirFilter: string -> bool): seq<string>
  {
    Map((e: Entry) => AddPrefix(parent, e.name), DirsUnder(node, stopDirFilter))
  }

  /** What `children` pushes for the child directories from the k-th on:
      each one's own `children`, in order. */
  function Descendants(node: Entry, parent: string, stopDirFilter: string -> bool, k: nat): seq<string>
    requires k <= |DirsUnder(node, stopDirFilter)|
    decreases node, |DirsUnder(node, stopDirFilter)| - k
  {
    var ds := DirsUnder(node, stopDirFilter);
    if k == |ds| then []
    else
      assert ds[k] in ListEntries(node);
      ChildDirsOf(ds[k], AddPrefix(parent, ds[k].name), stopDirFilter) + Descendants(node, parent, stopDirFilter, k + 1)
  }

  /** What `children(parent)` returns for the directory `node` found at path
      `parent`: its direct child directories, then the child directories of
      each of them in turn. */
  function ChildDirsOf(node: Entry, parent: string, stopDirFilter: string -> bool): seq<string>
    decreases node, |DirsUnder(node, stopDirFilter)| + 1
  {
    DirectChildren(node, parent, stopDirFilter) + Descendants(node, parent, stopDirFilter, 0)
  }

  /** `childDirs(fileOps, stopDirFilter)(root)`, on the tree `node` found at
      path `parent`: lists the direct children, then pushes each child's
      descendants onto `result` in order. */
  method Children(node: Entry, parent: string, stopDirFilter: string -> bool) returns (result: seq<string>)
    ensures result == ChildDirsOf(node, parent, stopDirFilter)
    decreases node
  {
    var ds := DirsUnder(node, stopDirFilter);
    result := DirectChildren(node, parent, stopDirFilter);
    var k := 0;
    while k < |ds|
      invariant 0 <= k <= |ds|
      invariant result + Descendants(node, parent, stopDirFilter, k) == ChildDirsOf(node, parent, stopDirFilter)
    {
      assert ds[k] in ListEntries(node);
      var c := Children(ds[k], AddPrefix(parent, ds[k].name), stopDirFilter);
      DescendantsStep(node, parent, stopDirFilter, k);
      AppendAssoc(result, c, Descendants(node, parent, stopDirFilter, k + 1));
      result := result + c;
      k := k + 1;
    }
  }

  /** One step of `Descendants`: the k-th child's own result, then the rest. */
  lemma DescendantsStep(node: Entry, parent: string, stopDirFilter: string -> bool, k: nat)
    requires k < |DirsUnder(node, stopDirFilter)|
    ensures var d := DirsUnder(node, stopDirFilter)[k];
      Descendants(node, parent, stopDirFilter, k) ==
        ChildDirsOf(d, AddPrefix(parent, d.name), stopDirFilter) + Descendants(node, parent, stopDirFilter, k + 1)
  {
  }

  lemma AppendAssoc<T>(a: seq<T>, b: seq<T>, c: seq<T>)
    ensures (a + b) + c == a + (b + c)
  {
  }

  /** `names` is a non-empty path of non-stopped directories that starts at a
      child of `node`. */
  ghost predicate Reaches(node: Entry, names: seq<string>, stopDirFilter: string -> bool)
    decreases node
  {
    node.Directory? && |names| > 0 &&
    exists e :: e in node.entries && e.Directory? && !stopDirFilter(e.name) && e.name == names[0] &&
      (|names| == 1 || Reaches(e, names[1..], stopDirFilter))
  }

  /** The path of `names` below `parent`, built with `addPrefix`. */
  function PathOf(parent: string, names: seq<string>): string
    decreases |names|
  {
    if |names| == 0 then parent else PathOf(AddPrefix(parent, names[0]), names[1..])
  }

  /** Every path childDirs returns is that of a non-stopped descendant directory. */
  lemma {:induction false} ChildDirsSound(node: Entry, parent: string, stopDirFilter: string -> bool, p: string)
    requires p in ChildDirsOf(node, parent, stopDirFilter)
    ensures exists names :: Reaches(node, names, stopDirFilter) && p == PathOf(parent, names)
    decreases node, |DirsUnder(node, stopDirFilter)| + 1
  {
    var ds := DirsUnder(node, stopDirFilter);
    DirsUnderKeeps(node, stopDirFilter);
    if p in DirectChildren(node, parent, stopDirFilter) {
      var i :| 0 <= i < |ds| && p == DirectChildren(node, parent, stopDirFilter)[i];
      assert ds[i] in ds;
      var names := [ds[i].name];
      assert Reaches(node, names, stopDirFilter);
      assert PathOf(parent, names) == PathOf(AddPrefix(parent, ds[i].name), []);
    } else {
      DescendantsSound(node, parent, stopDirFilter, 0, p);
    }
  }

  /** Every path pushed as a descendant lies at least two levels below `node`. */
  lemma {:induction false} DescendantsSound(node: Entry, parent: string, stopDirFilter: string -> bool, k: nat, p: string)
    requires k <= |DirsUnder(node, stopDirFilter)|
    requires p in Descendants(node, parent, stopDirFilter, k)
    ensures exists names :: |names| >= 2 && Reaches(node, names, stopDirFilter) && p == PathOf(parent, names)
    decreases node, |DirsUnder(node, stopDirFilter)| - k
  {
    var ds := DirsUnder(node, stopDirFilter);
    DirsUnderKeeps(node, stopDirFilter);
    assert ds[k] in ds && ds[k] in ListEntries(node);
    var q := AddPrefix(parent, ds[k].name);
    if p in ChildDirsOf(ds[k], q, stopDirFilter) {
      ChildDirsSound(ds[k], q, stopDirFilter, p);
      var rest :| Reaches(ds[k], rest, stopDirFilter) && p == PathOf(q, rest);
      var names := [ds[k].name] + rest;
      assert names[1..] == rest;
      assert Reaches(node, names, stopDirFilter);
      assert PathOf(parent, names) == PathOf(q, rest);
    } else {
      DescendantsSound(node, parent, stopDirFilter, k + 1, p);
    }
  }

  lemma {:induction false} DescendantsContain(node: Entry, parent: string, stopDirFilter: string -> bool, k: nat, i: nat, p: string)
    requires k <= i < |DirsUnder(node, stopDirFilter)|
    requires p in ChildDirsOf(DirsUnder(node, stopDirFilter)[i], AddPrefix(parent, DirsUnder(node, stopDirFilter)[i].name), stopDirFilter)
    ensures p in Descendants(node, parent, stopDirFilter, k)
    decreases i - k
  {
    var d := DirsUnder(node, stopDirFilter)[k];
    var here := ChildDirsOf(d, AddPrefix(parent, d.name), stopDirFilter);
    var rest := Descendants(node, parent, stopDirFilter, k + 1);
    DescendantsStep(node, parent, stopDirFilter, k);
    if k < i {
      DescendantsContain(node, parent, stopDirFilter, k + 1, i, p);
      assert p in rest;
    } else {
      assert p in here;
    }
    assert p in here + rest;
  }

  /** Every non-stopped descendant directory is among the paths childDirs returns. */
  lemma {:induction false} ChildDirsComplete(node: Entry, parent: string, stopDirFilter: string -> bool, names: seq<string>)
    requires Reaches(node, names, stopDirFilter)
    ensures PathOf(parent, names) in ChildDirsOf(node, parent, stopDirFilter)
    decreases node
  {
    var ds := DirsUnder(node, stopDirFilter);
    DirsUnderKeeps(node, stopDirFilter);
    var e :| e in node.entries && e.Directory? && !stopDirFilter(e.name) && e.name == names[0] &&
      (|names| == 1 || Reaches(e, names[1..], stopDirFilter));
    assert e in ListEntries(node);
    var i :| 0 <= i < |ds| && ds[i] == e;
    var q := AddPrefix(parent, e.name);
    if |names| == 1 {
      assert PathOf(parent, names) == PathOf(q, names[1..]) == q;
      assert q == DirectChildren(node, parent, stopDirFilter)[i];
    } else {
      ChildDirsComplete(e, q, stopDirFilter, names[1..]);
      DescendantsContain(node, parent, stopDirFilter, 0, i, PathOf(parent, names));
    }
  }

  /** childDirs returns exactly the paths of the non-stopped descendant
      directories (a stopped directory is not descended into). */
  lemma ChildDirsAreDescendants(node: Entry, parent: string, stopDirFilter: string -> bool, p: string)
    ensures p in ChildDirsOf(node, parent, stopDirFilter) <==>
      exists names :: Reaches(node, names, stopDirFilter) && p == PathOf(parent, names)
  {
    if p in ChildDirsOf(node, parent, stopDirFilter) {
      ChildDirsSound(node, parent, stopDirFilter, p);
    }
    if exists names :: Reaches(node, names, stopDirFilter) && p == PathOf(parent, names) {
      var names :| Reaches(node, names, stopDirFilter) && p == PathOf(parent, names);
      ChildDirsComplete(node, parent, stopDirFilter, names);
    }
  }

  /** A path built below a non-empty parent starts with that parent
      (followed by '/' when at least one name is added). */
  lemma {:induction false} PathOfExtends(parent: string, names: seq<string>)
    requires parent != ""
    ensures |parent| <= |PathOf(parent, names)| && PathOf(parent, names)[..|parent|] == parent
    ensures |names| > 0 ==> |parent| < |PathOf(parent, names)| && PathOf(parent, names)[|parent|] == '/'
    decreases |names|
  {
    if |names| > 0 {
      var q := parent + "/" + names[0];
      PathOfExtends(q, names[1..]);
      assert q[..|parent|] == parent;
      assert PathOf(q, names[1..])[..|parent|] == PathOf(q, names[1..])[..|q|][..|parent|];
    }
  }

  /** Below a non-empty parent every result of childDirs is prefixed with
      `parent + '/'`; below '' the names are taken bare. */
  lemma ChildDirsArePrefixed(node: Entry, parent: string, stopDirFilter: string -> bool, p: string)
    requires parent != ""
    requires p in ChildDirsOf(node, parent, stopDirFilter)
    ensures |parent| < |p| && p[..|parent| + 1] == parent + "/"
  {
    ChildDirsSound(node, parent, stopDirFilter, p);
    var names :| Reaches(node, names, stopDirFilter) && p == PathOf(parent, names);
    PathOfExtends(parent, names);
  }

  /** The direct child directories of `node` come first, in listing order;
      every later element lies at least two levels down. */
  lemma DirectChildrenFirst(node: Entry, parent: string, stopDirFilter: string -> bool)
    ensures var ds := DirsUnder(node, stopDirFilter);
            var r := ChildDirsOf(node, parent, stopDirFilter);
            |ds| <= |r| &&
            (forall k :: 0 <= k < |ds| ==> r[k] == AddPrefix(parent, ds[k].name)) &&
            (forall k :: |ds| <= k < |r| ==>
               exists names :: |names| >= 2 && Reaches(node, names, stopDirFilter) && r[k] == PathOf(parent, names))
  {
    var ds := DirsUnder(node, stopDirFilter);
    var r := ChildDirsOf(node, parent, stopDirFilter);
    var direct := DirectChildren(node, parent, stopDirFilter);
    var rest := Descendants(node, parent, stopDirFilter, 0);
    assert r == direct + rest && |direct| == |ds|;
    forall k | 0 <= k < |ds| ensures r[k] == AddPrefix(parent, ds[k].name) {
      assert r[k] == direct[k];
    }
    forall k | |ds| <= k < |r|
      ensures exists names :: |names| >= 2 && Reaches(node, names, stopDirFilter) && r[k] == PathOf(parent, names)
    {
      assert r[k] == rest[k - |ds|];
      DescendantsSound(node, parent, stopDirFilter, 0, r[k]);
    }
  }

  // ------------------------------------------------------ the underlying store

  /** What loading `name` from `files` gives: its contents, or a rejection. */
  function LoadFrom(files: map<string, string>, name: string): Result<string, string>
  {
    if name in files then Success(files[name]) else Failure("cannot load " + name)
  }

  /** The rejection of a save the store refuses. */
  function SaveError(name: string): string
  {
    "cannot save " + name
  }

  /** The rejection of a directory the store cannot create. */
  function CreateDirError(dir: string): string
  {
    "cannot create " + dir
  }

  /** What saving `text` as `name` gives: the store with the file written, or,
      when the store refuses the name (its directory is missing, say), a
      rejection and the store as it was. */
  function SaveTo(files: map<string, string>, canSave: string -> bool, name: string, text: string)
    : (map<string, string>, Result<(), string>)
  {
    if canSave(name) then (files[name := text], Success(())) else (files, Failure(SaveError(name)))
  }

  /** What creating the directory `dir` gives: the directory added, or a
      rejection and the directories as they were. */
  function CreateIn(dirs: set<string>, canCreateDir: string -> bool, dir: string): (set<string>, Result<(), string>)
  {
    if canCreateDir(dir) then (dirs + {dir}, Success(())) else (dirs, Failure(CreateDirError(dir)))
  }

  /** A save that resolves is what a later load of that name returns; a save
      that rejects changes nothing that a load can see. */
  lemma LoadAfterSave(files: map<string, string>, canSave: string -> bool, name: string, text: string, other: string)
    ensures var (files', r) := SaveTo(files, canSave, name, text);
      (r.Success? <==> canSave(name)) &&
      (r.Success? ==> LoadFrom(files', name) == Success(text)) &&
      (other != name || r.Failure? ==> LoadFrom(files', other) == LoadFrom(files, other))
  {
  }

  /** The FileOps being wrapped: an abstract store. Which names it can save
      and which directories it can create are fixed properties of the store. */
  class FileStore {
    var files: map<string, string>
    var dirs: set<string>
    const digestOf: string -> string
    const listing: string -> seq<string>
    const canSave: string -> bool
    const canCreateDir: string -> bool

    constructor (files: map<string, string>, dirs: set<string>, digestOf: string -> string, listing: string -> seq<string>,
                 canSave: string -> bool, canCreateDir: string -> bool)
      ensures this.files == files && this.dirs == dirs && this.digestOf == digestOf && this.listing == listing
      ensures this.canSave == canSave && this.canCreateDir == canCreateDir
    {
      this.files := files;
      this.dirs := dirs;
      this.digestOf := digestOf;
      this.listing := listing;
      this.canSave := canSave;
      this.canCreateDir := canCreateDir;
    }

    method LoadFileOrUrl(fileOrUrl: string) returns (r: Result<string, string>)
      ensures r == LoadFrom(files, fileOrUrl)
    {
      r := LoadFrom(files, fileOrUrl);
    }

    method SaveFile(filename: string, text: string) returns (r: Result<(), string>)
      modifies this
      ensures (files, r) == SaveTo(old(files), canSave, filename, text) && dirs == old(dirs)
    {
      if canSave(filename) {
        files := files[filename := text];
        r := Success(());
      } else {
        r := Failure(SaveError(filename));
      }
    }

    method CreateDir(dir: string) returns (r: Result<(), string>)
      modifies this
      ensures (dirs, r) == CreateIn(old(dirs), canCreateDir, dir) && files == old(files)
    {
      if canCreateDir(dir) {
        dirs := dirs + {dir};
        r := Success(());
      } else {
        r := Failure(CreateDirError(dir));
      }
    }

    method ListFiles(root: string) returns (r: seq<string>)
      ensures r == listing(root)
    {
      r := listing(root);
    }
  }

  // ------------------------------------------------------------ meteredFileOps

  /** The counters and `last*` values that `meteredFileOps` closes over;
      None is `undefined`. */
  datatype MeterStats = MeterStats(
    digestCount: nat, lastDigested: Option<string>,
    loadFileOrUrlCount: nat, lastLoadedFile: Option<string>,
    createDirCount: nat, lastCreatedDir: Option<string>,
    saveFileCount: nat, lastSavedFileName: Option<string>, lastSavedFile: Option<string>,
    listFilesCount: nat, savedFiles: seq<(string, string)>)

  const InitialStats := MeterStats(0, None, 0, None, 0, None, 0, None, None, 0, [])

  /** What the counters promise together: one `savedFiles` entry per save,
      the `last*` values are those of the latest call, and each `last*` is
      undefined exactly until its operation is first called. */
  ghost predicate StatsConsistent(s: MeterStats)
  {
    |s.savedFiles| == s.saveFileCount &&
    (s.saveFileCount == 0 <==> s.lastSavedFileName.None?) &&
    (s.saveFileCount == 0 <==> s.lastSavedFile.None?) &&
    (s.saveFileCount > 0 ==>
      s.lastSavedFileName == Some(s.savedFiles[|s.savedFiles| - 1].0) &&
      s.lastSavedFile == Some(s.savedFiles[|s.savedFiles| - 1].1)) &&
    (s.createDirCount == 0 <==> s.lastCreatedDir.None?) &&
    (s.digestCount == 0 <==> s.lastDigested.None?) &&
    (s.loadFileOrUrlCount == 0 <==> s.lastLoadedFile.None?)
  }

  /** The object `meteredFileOps(fileOps)` returns for an ops that is not yet metered. */
  class MeteredFileOps {
    const fileOps: FileStore
    var digestCount: nat
    var lastDigested: Option<string>
    var loadFileOrUrlCount: nat
    var lastLoadedFile: Option<string>
    var createDirCount: nat
    var lastCreatedDir: Option<string>
    var saveFileCount: nat
    var lastSavedFileName: Option<string>
    var lastSavedFile: Option<string>
    var listFilesCount: nat
    var savedFiles: seq<(string, string)>

    ghost predicate Valid()
      reads this
    {
      StatsConsistent(Stats())
    }

    function Stats(): MeterStats
      reads this
    {
      MeterStats(digestCount, lastDigested, loadFileOrUrlCount, lastLoadedFile,
                 createDirCount, lastCreatedDir, saveFileCount, lastSavedFileName, lastSavedFile,
                 listFilesCount, savedFiles)
    }

    constructor (fileOps: FileStore)
      ensures this.fileOps == fileOps && Stats() == InitialStats && Valid()
    {
      this.fileOps := fileOps;
      digestCount, lastDigested := 0, None;
      loadFileOrUrlCount, lastLoadedFile := 0, None;
      createDirCount, lastCreatedDir := 0, None;
      saveFileCount, lastSavedFileName, lastSavedFile := 0, None, None;
      listFilesCount, savedFiles := 0, [];
    }

    method CreateDir(dir: string) returns (r: Result<(), string>)
      requires Valid()
      modifies this, fileOps
      ensures Valid()
      ensures Stats() == old(Stats()).(createDirCount := old(createDirCount) + 1, lastCreatedDir := Some(dir))
      ensures (fileOps.dirs, r) == CreateIn(old(fileOps.dirs), fileOps.canCreateDir, dir)
      ensures fileOps.files == old(fileOps.files)
    {
      createDirCount := createDirCount + 1;
      lastCreatedDir := Some(dir);
      r := fileOps.CreateDir(dir);
    }

    method LoadFileOrUrl(fileOrUrl: string) returns (r: Result<string, string>)
      requires Valid()
      modifies this
      ensures Valid()
      ensures Stats() == old(Stats()).(loadFileOrUrlCount := old(loadFileOrUrlCount) + 1, lastLoadedFile := Some(fileOrUrl))
      ensures r == LoadFrom(fileOps.files, fileOrUrl)
    {
      loadFileOrUrlCount := loadFileOrUrlCount + 1;
      lastLoadedFile := Some(fileOrUrl);
      r := fileOps.LoadFileOrUrl(fileOrUrl);
    }

    method Digest(s: string) returns (d: string)
      requires Valid()
      modifies this
      ensures Valid()
      ensures Stats() == old(Stats()).(digestCount := old(digestCount) + 1, lastDigested := Some(s))
      ensures d == fileOps.digestOf(s)
    {
      digestCount := digestCount + 1;
      lastDigested := Some(s);
      d := fileOps.digestOf(s);
    }

    method ListFiles(root: string) returns (r: seq<string>)
      requires Valid()
      modifies this
      ensures Valid()
      ensures Stats() == old(Stats()).(listFilesCount := old(listFilesCount) + 1)
      ensures r == fileOps.listing(root)
    {
      listFilesCount := listFilesCount + 1;
      r := fileOps.ListFiles(root);
    }

    method SaveFile(filename: string, text: string) returns (r: Result<(), string>)
      requires Valid()
      modifies this, fileOps
      ensures Valid()
      ensures Stats() == old(Stats()).(saveFileCount := old(saveFileCount) + 1,
                                       lastSavedFile := Some(text), lastSavedFileName := Some(filename),
                                       savedFiles := old(savedFiles) + [(filename, text)])
      ensures (fileOps.files, r) == SaveTo(old(fileOps.files), fileOps.canSave, filename, text)
      ensures fileOps.dirs == old(fileOps.dirs)
    {
      saveFileCount := saveFileCount + 1;
      lastSavedFile := Some(text);
      lastSavedFileName := Some(filename);
      savedFiles := savedFiles + [(filename, text)];
      r := fileOps.SaveFile(filename, text);
    }
  }

  // --------------------------------------------------------------- cachedLoad

  /** The `PrivateCacheFileOps` closure pair over `cacheHits` / `cacheMisses`. */
  class CacheCounters {
    var cacheHits: nat
    var cacheMisses: nat

    constructor ()
      ensures cacheHits == 0 && cacheMisses == 0
    {
      cacheHits, cacheMisses := 0, 0;
    }

    method CacheHit()
      modifies this
      ensures cacheHits == old(cacheHits) + 1 && cacheMisses == old(cacheMisses)
    {
      cacheHits := cacheHits + 1;
    }

    method CacheMiss()
      modifies this
      ensures cacheMisses == old(cacheMisses) + 1 && cacheHits == old(cacheHits)
    {
      cacheMisses := cacheMisses + 1;
    }
  }

  /** `s.includes(sub)`. */
  predicate Includes(s: string, sub: string)
    decreases |s|
  {
    |sub| <= |s| && (s[..|sub|] == sub || (|s| > 0 && Includes(s[1..], sub)))
  }

  /** The state `cachedLoad` reads and changes: the store (with its fixed
      rules for which writes succeed) and the two counters. */
  datatype CacheWorld = CacheWorld(files: map<string, string>, dirs: set<string>,
                                   canSave: string -> bool, canCreateDir: string -> bool,
                                   hits: nat, misses: nat)

  /** The key under which the cache stores a URL. */
  function CacheKey(cache: string, digestOf: string -> string, url: string): string
  {
    cache + "/" + digestOf(url)
  }

  /** One call of `cachedLoad(fileOps, cache, ops)(fileOrUrl)`, on values. */
  function CachedLoadStep(w: CacheWorld, cache: Option<string>, digestOf: string -> string, fileOrUrl: string): (CacheWorld, Result<string, string>)
  {
    if cache.None? || !Includes(fileOrUrl, "://") then (w, LoadFrom(w.files, fileOrUrl))
    else
      var cached := CacheKey(cache.value, digestOf, fileOrUrl);
      if cached in w.files then (w.(hits := w.hits + 1), Success(w.files[cached]))
      else
        var (dirs, made) := CreateIn(w.dirs, w.canCreateDir, cache.value);
        var missed := w.(misses := w.misses + 1, dirs := dirs);
        if made.Failure? then (missed, Failure(made.error))
        else match LoadFrom(w.files, fileOrUrl)
          case Failure(e) => (missed, Failure(e))
          case Success(result) =>
            var (files, saved) := SaveTo(w.files, w.canSave, cached, result);
            (missed.(files := files), if saved.Failure? then Failure(saved.error) else Success(result))
  }

  /** `cachedLoad`: for a URL, try the cache file first; on a miss, create the
      cache directory, load the URL and save it under the cache key. */
  method CachedLoad(fileOps: FileStore, cache: Option<string>, ops: CacheCounters, fileOrUrl: string)
    returns (r: Result<string, string>)
    modifies fileOps, ops
    ensures (CacheWorld(fileOps.files, fileOps.dirs, fileOps.canSave, fileOps.canCreateDir, ops.cacheHits, ops.cacheMisses), r) ==
      CachedLoadStep(CacheWorld(old(fileOps.files), old(fileOps.dirs), fileOps.canSave, fileOps.canCreateDir,
                                old(ops.cacheHits), old(ops.cacheMisses)),
                     cache, fileOps.digestOf, fileOrUrl)
  {
    if cache.None? {
      r := fileOps.LoadFileOrUrl(fileOrUrl);
      return;
    }
    if !Includes(fileOrUrl, "://") {
      r := fileOps.LoadFileOrUrl(fileOrUrl);
      return;
    }
    var digest := fileOps.digestOf(fileOrUrl);
    var cached := cache.value + "/" + digest;
    var fromCache := fileOps.LoadFileOrUrl(cached);
    if fromCache.Success? {
      ops.CacheHit();
      r := fromCache;
    } else {
      ops.CacheMiss();
      var made := fileOps.CreateDir(cache.value);
      if made.Failure? {
        r := Failure(made.error);
        return;
      }
      var result := fileOps.LoadFileOrUrl(fileOrUrl);
      if result.Failure? {
        r := result;
        return;
      }
      var saved := fileOps.SaveFile(cached, result.value);
      if saved.Failure? {
        r := Failure(saved.error);
        return;
      }
      r := result;
    }
  }

  /** Without a cache, or for a name that is not a URL, cachedLoad is the
      underlying load and touches neither the store nor the counters. */
  lemma CachedLoadDelegates(w: CacheWorld, cache: Option<string>, digestOf: string -> string, fileOrUrl: string)
    requires cache.None? || !Includes(fileOrUrl, "://")
    ensures CachedLoadStep(w, cache, digestOf, fileOrUrl) == (w, LoadFrom(w.files, fileOrUrl))
  {
  }

  /** For a URL whose cache file exists: one hit, that content, nothing else changes. */
  lemma CachedLoadHit(w: CacheWorld, cache: string, digestOf: string -> string, url: string)
    requires Includes(url, "://") && CacheKey(cache, digestOf, url) in w.files
    ensures CachedLoadStep(w, Some(cache), digestOf, url) ==
      (w.(hits := w.hits + 1), Success(w.files[CacheKey(cache, digestOf, url)]))
  {
  }

  /** For a URL whose cache file is missing: one miss; the cache directory is
      created, the URL loaded and its content saved under the cache key, each
      step only when the one before resolved. The load resolves exactly when
      all three do, with the URL's content, which is then in the cache;
      otherwise the first rejection is returned and nothing is saved. */
  lemma CachedLoadMiss(w: CacheWorld, cache: string, digestOf: string -> string, url: string)
    requires Includes(url, "://") && CacheKey(cache, digestOf, url) !in w.files
    ensures var (w', r) := CachedLoadStep(w, Some(cache), digestOf, url);
      var key := CacheKey(cache, digestOf, url);
      w'.hits == w.hits && w'.misses == w.misses + 1 &&
      w'.canSave == w.canSave && w'.canCreateDir == w.canCreateDir &&
      w'.dirs == (if w.canCreateDir(cache) then w.dirs + {cache} else w.dirs) &&
      (r.Success? <==> w.canCreateDir(cache) && url in w.files && w.canSave(key)) &&
      (r.Success? ==> r.value == w.files[url] && w'.files == w.files[key := r.value]) &&
      (r.Failure? ==> w'.files == w.files) &&
      (!w.canCreateDir(cache) ==> r == Failure(CreateDirError(cache))) &&
      (w.canCreateDir(cache) && url !in w.files ==> r == LoadFrom(w.files, url)) &&
      (w.canCreateDir(cache) && url in w.files && !w.canSave(key) ==> r == Failure(SaveError(key)))
  {
  }

  /** Loading the same URL twice through the cache: the second load is a hit
      and returns what the first returned. */
  lemma SecondLoadIsHit(w: CacheWorld, cache: string, digestOf: string -> string, url: string)
    requires Includes(url, "://")
    requires CachedLoadStep(w, Some(cache), digestOf, url).1.Success?
    ensures var (w1, r1) := CachedLoadStep(w, Some(cache), digestOf, url);
            var (w2, r2) := CachedLoadStep(w1, Some(cache), digestOf, url);
            r2 == r1 && w2 == w1.(hits := w1.hits + 1)
  {
  }

  /** A URL load through the cache counts exactly one hit or one miss. */
  lemma CachedLoadCountsOnce(w: CacheWorld, cache: string, digestOf: string -> string, url: string)
    requires Includes(url, "://")
    ensures var w' := CachedLoadStep(w, Some(cache), digestOf, url).0;
            w'.hits + w'.misses == w.hits + w.misses + 1 && w'.hits >= w.hits && w'.misses >= w.misses
  {
  }

  /** The object `cachedFileOps(fileOps, cache)` returns for a defined cache and
      an ops that is not yet cached: `loadFileOrUrl` replaced by `cachedLoad`. */
  class CachedFileOps {
    const original: FileStore
    const cache: string
    const ops: CacheCounters

    constructor (fileOps: FileStore, cache: string)
      ensures original == fileOps && this.cache == cache && fresh(ops)
      ensures ops.cacheHits == 0 && ops.cacheMisses == 0
    {
      original := fileOps;
      this.cache := cache;
      ops := new CacheCounters();
    }

    function CacheHits(): nat
      reads ops
    {
      ops.cacheHits
    }

    function CacheMisses(): nat
      reads ops
    {
      ops.cacheMisses
    }

    method LoadFileOrUrl(fileOrUrl: string) returns (r: Result<string, string>)
      modifies original, ops
      ensures (CacheWorld(original.files, original.dirs, original.canSave, original.canCreateDir, CacheHits(), CacheMisses()), r) ==
        CachedLoadStep(CacheWorld(old(original.files), old(original.dirs), original.canSave, original.canCreateDir,
                                  old(CacheHits()), old(CacheMisses())),
                       Some(cache), original.digestOf, fileOrUrl)
    {
      r := CachedLoad(original, Some(cache), ops, fileOrUrl);
    }
  }

  // ------------------------------ isMeteredFileOps, isCachedFileOps, nonCached

  /** How a FileOps object was built. Both wrappers copy every property of the
      object they wrap (`...fileOps`), so a cached ops over a metered one still
      has `digestCount`, and a metered ops over a cached one still has
      `cached: true` and `original`. */
  datatype OpsShape = Plain | MeteredOver(inner: OpsShape) | CachedOver(original: OpsShape, cache: string)

  /** `isMeteredFileOps`: `digestCount !== undefined`. */
  predicate IsMeteredFileOps(f: OpsShape)
  {
    match f
    case Plain => false
    case MeteredOver(_) => true
    case CachedOver(o, _) => IsMeteredFileOps(o)
  }

  /** `isCachedFileOps`: `cached === true`. */
  predicate IsCachedFileOps(f: OpsShape)
  {
    match f
    case Plain => false
    case MeteredOver(i) => IsCachedFileOps(i)
    case CachedOver(_, _) => true
  }

  /** The `original` property of a cached ops. */
  function OriginalOf(f: OpsShape): OpsShape
    requires IsCachedFileOps(f)
  {
    match f
    case MeteredOver(i) => OriginalOf(i)
    case CachedOver(o, _) => o
  }

  /** `nonCached(f)`. */
  function NonCached(f: OpsShape): OpsShape
  {
    if IsCachedFileOps(f) then OriginalOf(f) else f
  }

  /** `meteredFileOps(f)`. */
  function Metered(f: OpsShape): OpsShape
  {
    if IsMeteredFileOps(f) then f else MeteredOver(f)
  }

  /** `cachedFileOps(f, cache)`. */
  function Cached(f: OpsShape, cache: Option<string>): OpsShape
  {
    if cache.None? || IsCachedFileOps(f) then f else CachedOver(f, cache.value)
  }

  /** Metering an already-metered ops returns it unchanged; metering is idempotent. */
  lemma MeteringIsIdempotent(f: OpsShape)
    ensures IsMeteredFileOps(f) ==> Metered(f) == f
    ensures IsMeteredFileOps(Metered(f)) && Metered(Metered(f)) == Metered(f)
  {
  }

  /** Caching with an undefined cache, or caching an already-cached ops,
      returns the argument unchanged; caching is idempotent. */
  lemma CachingIsIdempotent(f: OpsShape, cache: Option<string>)
    ensures cache.None? || IsCachedFileOps(f) ==> Cached(f, cache) == f
    ensures Cached(Cached(f, cache), cache) == Cached(f, cache)
    ensures cache.Some? ==> IsCachedFileOps(Cached(f, cache))
  {
  }

  /** nonCached undoes cachedFileOps on an ops that was not cached. */
  lemma NonCachedUndoesCaching(f: OpsShape, cache: string)
    requires !IsCachedFileOps(f)
    ensures NonCached(Cached(f, Some(cache))) == f
    ensures NonCached(f) == f
  {
  }

  /** Because of the property copying, each wrapper keeps the other's marker:
      caching a metered ops leaves it metered (so metering it again is a
      no-op), and nonCached of a metered-over-cached ops drops the meter too. */
  lemma WrappersKeepEachOthersMarkers(f: OpsShape, cache: string)
    ensures IsMeteredFileOps(Cached(f, Some(cache))) == IsMeteredFileOps(f)
    ensures IsCachedFileOps(Metered(f)) == IsCachedFileOps(f)
    ensures !IsCachedFileOps(f) && !IsMeteredFileOps(f) ==>
      NonCached(Metered(Cached(f, Some(cache)))) == f
  {
    if !IsCachedFileOps(f) && !IsMeteredFileOps(f) {
      var c := CachedOver(f, cache);
      assert Cached(f, Some(cache)) == c;
      assert !IsMeteredFileOps(c);
      assert Metered(c) == MeteredOver(c);
      assert IsCachedFileOps(MeteredOver(c));
      assert OriginalOf(MeteredOver(c)) == OriginalOf(c) == f;
    }
  }

  // -------------------------------------------------------- copyFile, copyFiles

  /** `copyFile(fileOps, rootUrl, target)(offset)`, on values: load
      `rootUrl/offset`, then save it as `target/offset`; either step can reject. */
  function CopyStep(files: map<string, string>, canSave: string -> bool, rootUrl: string, target: string, offset: string)
    : (map<string, string>, Result<(), string>)
  {
    match LoadFrom(files, rootUrl + "/" + offset)
    case Failure(e) => (files, Failure(e))
    case Success(file) => SaveTo(files, canSave, target + "/" + offset, file)
  }

  method CopyFile(fileOps: FileStore, rootUrl: string, target: string, offset: string) returns (r: Result<(), string>)
    modifies fileOps
    ensures (fileOps.files, r) == CopyStep(old(fileOps.files), fileOps.canSave, rootUrl, target, offset)
    ensures fileOps.dirs == old(fileOps.dirs)
  {
    var file := fileOps.LoadFileOrUrl(rootUrl + "/" + offset);
    if file.Failure? {
      return Failure(file.error);
    }
    r := fileOps.SaveFile(target + "/" + offset, file.value);
  }

  /** One copy resolves exactly when the source exists and the target can be
      saved; it then writes the source's content to the target, and otherwise
      it changes nothing and rejects with the load's or the save's error. */
  lemma CopyStepSemantics(files: map<string, string>, canSave: string -> bool, rootUrl: string, target: string, offset: string)
    ensures var (files', r) := CopyStep(files, canSave, rootUrl, target, offset);
      var src, dst := rootUrl + "/" + offset, target + "/" + offset;
      (r.Success? <==> src in files && canSave(dst)) &&
      (r.Success? ==> files' == files[dst := files[src]]) &&
      (r.Failure? ==> files' == files) &&
      (src !in files ==> r == Failure(LoadFrom(files, src).error)) &&
      (src in files && !canSave(dst) ==> r == Failure(SaveError(dst)))
  {
  }

  /** The error `copyFiles` throws for a failing file. */
  function CopyError(context: string, f: string, e: string): string
  {
    "Error " + context + "\nFile " + f + "\n" + e
  }

  /** `copyFiles(context, fileOps, rootUrl, target)(fs)`, on values: every file
      is copied, and the outcome is the wrapped error of the first failing file. */
  function CopyAll(files: map<string, string>, canSave: string -> bool, context: string, rootUrl: string, target: string,
                   fs: seq<string>)
    : (map<string, string>, Outcome<string>)
    decreases |fs|
  {
    if |fs| == 0 then (files, Pass)
    else
      var (files1, o) := CopyAll(files, canSave, context, rootUrl, target, fs[..|fs| - 1]);
      var f := fs[|fs| - 1];
      var (files2, r) := CopyStep(files1, canSave, rootUrl, target, f);
      (files2, if o.Fail? then o else if r.Failure? then Fail(CopyError(context, f, r.error)) else Pass)
  }

  method CopyFiles(context: string, fileOps: FileStore, rootUrl: string, target: string, fs: seq<string>)
    returns (outcome: Outcome<string>)
    modifies fileOps
    ensures (fileOps.files, outcome) == CopyAll(old(fileOps.files), fileOps.canSave, context, rootUrl, target, fs)
    ensures fileOps.dirs == old(fileOps.dirs)
  {
    outcome := Pass;
    var i := 0;
    while i < |fs|
      invariant 0 <= i <= |fs|
      invariant (fileOps.files, outcome) == CopyAll(old(fileOps.files), fileOps.canSave, context, rootUrl, target, fs[..i])
      invariant fileOps.dirs == old(fileOps.dirs)
    {
      assert fs[..i + 1][..i] == fs[..i];
      var r := CopyFile(fileOps, rootUrl, target, fs[i]);
      if outcome.Pass? && r.Failure? {
        outcome := Fail(CopyError(context, fs[i], r.error));
      }
      i := i + 1;
    }
    assert fs[..i] == fs;
  }

  /** When every source exists, every target can be saved and no target is
      also a source, copyFiles succeeds, every target holds its source's
      contents, and every other entry of the store is unchanged. */
  lemma {:induction false} CopyFilesCopiesEveryFile(files: map<string, string>, canSave: string -> bool, context: string,
                                                    rootUrl: string, target: string, fs: seq<string>)
    requires forall f :: f in fs ==> rootUrl + "/" + f in files
    requires forall f :: f in fs ==> canSave(target + "/" + f)
    requires forall f, g :: f in fs && g in fs ==> target + "/" + f != rootUrl + "/" + g
    ensures var (files', o) := CopyAll(files, canSave, context, rootUrl, target, fs);
      o == Pass &&
      (forall f :: f in fs ==> target + "/" + f in files' && files'[target + "/" + f] == files[rootUrl + "/" + f]) &&
      (forall k :: k in files && (forall f :: f in fs ==> k != target + "/" + f) ==> k in files' && files'[k] == files[k]) &&
      (forall f :: f in fs ==> rootUrl + "/" + f in files' && files'[rootUrl + "/" + f] == files[rootUrl + "/" + f])
    decreases |fs|
  {
    if |fs| > 0 {
      var init := fs[..|fs| - 1];
      var last := fs[|fs| - 1];
      assert forall f :: f in init ==> f in fs;
      assert last in fs;
      CopyFilesCopiesEveryFile(files, canSave, context, rootUrl, target, init);
      var (files1, o) := CopyAll(files, canSave, context, rootUrl, target, init);
      var src := rootUrl + "/" + last;
      var dst := target + "/" + last;
      assert src in files1 && files1[src] == files[src];
      var files2 := files1[dst := files1[src]];
      assert CopyStep(files1, canSave, rootUrl, target, last) == (files2, Success(()));
      assert CopyAll(files, canSave, context, rootUrl, target, fs) == (files2, Pass);
      assert fs == init + [last];
      forall f | f in fs ensures f in init || f == last {
      }
      forall f | f in fs
        ensures target + "/" + f in files2 && files2[target + "/" + f] == files[rootUrl + "/" + f]
      {
        if target + "/" + f == dst {
          assert f == (target + "/" + f)[|target| + 1..] == dst[|target| + 1..] == last;
        } else {
          assert f in init;
        }
      }
      forall k | k in files && (forall f :: f in fs ==> k != target + "/" + f)
        ensures k in files2 && files2[k] == files[k]
      {
        assert k != dst;
      }
      forall f | f in fs
        ensures rootUrl + "/" + f in files2 && files2[rootUrl + "/" + f] == files[rootUrl + "/" + f]
      {
        assert rootUrl + "/" + f != dst;
      }
    }
  }

  /** The result of copying fs[k], on the store the copies before it left. */
  function CopyResultAt(files: map<string, string>, canSave: string -> bool, context: string, rootUrl: string,
                        target: string, fs: seq<string>, k: nat): Result<(), string>
    requires k < |fs|
  {
    CopyStep(CopyAll(files, canSave, context, rootUrl, target, fs[..k]).0, canSave, rootUrl, target, fs[k]).1
  }

  /** copyFiles resolves exactly when no copy fails; otherwise it rejects with
      the wrapped error of the first file whose copy fails. */
  lemma {:induction false} CopyFilesOutcome(files: map<string, string>, canSave: string -> bool, context: string,
                                            rootUrl: string, target: string, fs: seq<string>)
    ensures CopyAll(files, canSave, context, rootUrl, target, fs).1 == Pass <==>
      forall k :: 0 <= k < |fs| ==> CopyResultAt(files, canSave, context, rootUrl, target, fs, k).Success?
    ensures CopyAll(files, canSave, context, rootUrl, target, fs).1.Fail? ==>
      exists k :: 0 <= k < |fs| && CopyResultAt(files, canSave, context, rootUrl, target, fs, k).Failure? &&
        (forall j :: 0 <= j < k ==> CopyResultAt(files, canSave, context, rootUrl, target, fs, j).Success?) &&
        CopyAll(files, canSave, context, rootUrl, target, fs).1 ==
          Fail(CopyError(context, fs[k], CopyResultAt(files, canSave, context, rootUrl, target, fs, k).error))
    decreases |fs|
  {
    if |fs| > 0 {
      var n := |fs| - 1;
      var init := fs[..n];
      CopyFilesOutcome(files, canSave, context, rootUrl, target, init);
      forall k | 0 <= k < n
        ensures CopyResultAt(files, canSave, context, rootUrl, target, fs, k) ==
          CopyResultAt(files, canSave, context, rootUrl, target, init, k)
      {
        assert fs[..k] == init[..k];
      }
      var o := CopyAll(files, canSave, context, rootUrl, target, init).1;
      var last := CopyResultAt(files, canSave, context, rootUrl, target, fs, n);
      assert fs[..n] == init;
      assert CopyAll(files, canSave, context, rootUrl, target, fs).1 ==
        (if o.Fail? then o else if last.Failure? then Fail(CopyError(context, fs[n], last.error)) else Pass);
      if o.Fail? {
        var k :| 0 <= k < n && CopyResultAt(files, canSave, context, rootUrl, target, init, k).Failure? &&
          (forall j :: 0 <= j < k ==> CopyResultAt(files, canSave, context, rootUrl, target, init, j).Success?) &&
          o == Fail(CopyError(context, init[k], CopyResultAt(files, canSave, context, rootUrl, target, init, k).error));
        assert init[k] == fs[k];
      }
    }
  }

  /** The copies after a prefix run exactly as they would from the store the
      prefix left, whatever the prefix's outcome: a failing file does not stop
      the files after it from being copied. */
  lemma {:induction false} CopyAllAppend(files: map<string, string>, canSave: string -> bool, context: string,
                                         rootUrl: string, target: string, fs: seq<string>, gs: seq<string>)
    ensures var (files1, o1) := CopyAll(files, canSave, context, rootUrl, target, fs);
      var (files2, o2) := CopyAll(files1, canSave, context, rootUrl, target, gs);
      CopyAll(files, canSave, context, rootUrl, target, fs + gs) == (files2, if o1.Fail? then o1 else o2)
    decreases |gs|
  {
    if |gs| == 0 {
      assert fs + gs == fs;
    } else {
      var m := |gs| - 1;
      CopyAllAppend(files, canSave, context, rootUrl, target, fs, gs[..m]);
      assert (fs + gs)[..|fs + gs| - 1] == fs + gs[..m];
      assert (fs + gs)[|fs + gs| - 1] == gs[m];
    }
  }
}
