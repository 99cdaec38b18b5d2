/** The simulated file system of game/filesystem.go: a flat table from
    absolute paths to directories and a current path. Nothing ever changes a
    FileSystem after it is built, so it is a value; ListFiles keeps the
    source's loops and is a method. */
module Fs {
  import Text
  import Paths
  import opened Wrappers

  /** A directory: its file table (name to content), the names of its
      subdirectories, and a permission string that is only displayed. */
  datatype Directory = Directory(name: string, files: map<string, string>, subdirs: seq<string>, permissions: string)

  datatype FileSystem = FileSystem(directories: map<string, Directory>, currentPath: string)

  const RootDirectory := Directory("/", map[], [], "rwx")

  /** NewFileSystem: a nil table becomes a single empty root directory; the
      current path always starts at the root. */
  function NewFileSystem(dirs: Option<map<string, Directory>>): (fs: FileSystem)
    ensures Paths.AbsClean(fs.currentPath)
    ensures dirs.Some? ==> fs.directories == dirs.value
    ensures dirs.None? ==> fs.directories.Keys == {"/"} && fs.directories["/"].files == map[]
                           && fs.directories["/"].subdirs == [] && fs.directories["/"].permissions == "rwx"
  {
    assert Paths.Elements("/") == [] by { assert "/"[1..] == ""; }
    FileSystem(if dirs.Some? then dirs.value else map["/" := RootDirectory], "/")
  }

  /** resolvePath: "" is the current path, a path from the root is cleaned,
      any other path is joined onto the current path and cleaned. It never
      fails, so the model returns the path alone. */
  function ResolvePath(fs: FileSystem, path: string): (full: string)
    ensures path == [] ==> full == fs.currentPath
    ensures Paths.Rooted(path) ==> full == Paths.Clean(path)
    ensures Paths.AbsClean(fs.currentPath) ==> Paths.AbsClean(full)
  {
    if path == [] then fs.currentPath
    else if path[0] == '/' then
      Paths.CleanRootedIsAbsClean(path);
      Paths.Clean(path)
    else
      Paths.JoinPathRooted(fs.currentPath, path);
      Paths.CleanIdempotent(fs.currentPath + "/" + path);
      Paths.Clean(Paths.JoinPath(fs.currentPath, path))
  }

  /** Resolving an already resolved path returns it unchanged. */
  lemma ResolveIdempotent(fs: FileSystem, path: string)
    requires Paths.AbsClean(fs.currentPath)
    ensures ResolvePath(fs, ResolvePath(fs, path)) == ResolvePath(fs, path)
  {
  }

  /** The directory that ReadFile looks in and the file name it looks up. */
  function ReadTarget(fs: FileSystem, filename: string): (string, string) {
    var (dir, file) := Paths.Split(filename);
    (ResolvePath(fs, if dir == [] then fs.currentPath else dir), file)
  }

  /** ReadFile: split at the last '/', look up the directory (the current
      one when there is no directory part), then the file in it. */
  function ReadFile(fs: FileSystem, filename: string): (r: Result<string>)
    ensures var (d, f) := ReadTarget(fs, filename);
      && (r.Ok? <==> d in fs.directories && f in fs.directories[d].files)
      && (r.Ok? ==> r.value == fs.directories[d].files[f])
      && (d !in fs.directories ==> r == Err("directory not found: " + d))
      && (d in fs.directories && f !in fs.directories[d].files ==> r == Err("file not found: " + f))
  {
    var (dir, file) := Paths.Split(filename);
    var fullPath := ResolvePath(fs, if dir == [] then fs.currentPath else dir);
    if fullPath !in fs.directories then Err("directory not found: " + fullPath)
    else if file !in fs.directories[fullPath].files then Err("file not found: " + file)
    else Ok(fs.directories[fullPath].files[file])
  }

  /** A bare file name is looked up in the current directory only. */
  lemma ReadBareName(fs: FileSystem, f: string)
    requires Paths.AbsClean(fs.currentPath)
    requires Paths.NoSlash(f)
    ensures ReadFile(fs, f).Ok? <==> fs.currentPath in fs.directories && f in fs.directories[fs.currentPath].files
  {
    assert Paths.Split(f).0 == [];
  }

  lemma PartsOfDirName(d: string)
    requires Paths.IsName(d)
    ensures Paths.Parts("/" + d + "/") == [d]
  {
    var s := "/" + d + "/";
    assert s[0] == '/' && s[1..] == d + "/";
    assert Paths.Parts(s) == Paths.Parts(d + "/");
    assert (d + "/")[0] == d[0] && d[0] in d;
    Paths.SegmentOfJoin(d, "/");
    assert (d + "/")[|d|..] == "/";
    assert Paths.Parts(d + "/") == [d] + Paths.Parts("/");
    assert "/"[1..] == "";
    assert Paths.Parts("/") == [];
  }

  lemma SplitInSubdirectory(d: string, f: string)
    requires Paths.IsName(d)
    requires Paths.NoSlash(f)
    ensures Paths.Split("/" + d + "/" + f) == ("/" + d + "/", f)
  {
    var p := "/" + d + "/" + f;
    var k := Paths.LastSlash(p);
    assert p[|d| + 1] == '/';
    forall j | |d| + 1 < j < |p| ensures p[j] != '/' {
      assert p[j] == f[j - |d| - 2];
    }
    assert k == |d| + 1;
    assert p[..k + 1] == "/" + d + "/";
    assert p[k + 1..] == f;
  }

  lemma CleanDirName(d: string)
    requires Paths.IsName(d) && d != ".."
    ensures Paths.Clean("/" + d + "/") == "/" + d
  {
    PartsOfDirName(d);
    assert [d][1..] == [];
    assert Paths.DropDots([d]) == [d] + Paths.DropDots([]);
    assert Paths.Elements("/" + d + "/") == [d];
    assert Paths.Reduce([d], true) == [d] by {
      assert [d][..0] == [];
    }
  }

  /** "/<d>/<f>" reads file f of directory "/<d>". */
  lemma ReadInSubdirectory(fs: FileSystem, d: string, f: string)
    requires Paths.IsName(d) && d != ".."
    requires Paths.NoSlash(f)
    ensures ReadFile(fs, "/" + d + "/" + f) ==
      if "/" + d !in fs.directories then Err("directory not found: /" + d)
      else if f !in fs.directories["/" + d].files then Err("file not found: " + f)
      else Ok(fs.directories["/" + d].files[f])
  {
    SplitInSubdirectory(d, f);
    CleanDirName(d);
    assert ResolvePath(fs, "/" + d + "/") == "/" + d;
  }

  // ----- ListFiles -----

  function HeaderLines(full: string): seq<string> {
    ["Directory listing of " + full + ":", ""]
  }

  function SubdirLine(d: Directory): string {
    "d" + d.permissions + "  " + d.name + "/"
  }

  /** One line per listed subdirectory whose joined path is in the table,
      showing that directory's own permissions and name. */
  function SubdirLines(fs: FileSystem, full: string, names: seq<string>): seq<string> {
    if names == [] then []
    else
      var path := Paths.JoinPath(full, names[|names| - 1]);
      SubdirLines(fs, full, names[..|names| - 1])
        + (if path in fs.directories then [SubdirLine(fs.directories[path])] else [])
  }

  function FileLine(file: string): string {
    "-rw-  " + file
  }

  function FileLines(order: seq<string>): (lines: seq<string>)
    ensures |lines| == |order|
    ensures forall i :: 0 <= i < |order| ==> lines[i] == FileLine(order[i])
  {
    if order == [] then [] else FileLines(order[..|order| - 1]) + [FileLine(order[|order| - 1])]
  }

  const EmptyMarker := "<empty directory>"

  /** The lines of a listing of directory `full`, with its files visited in
      `order`. */
  function ListingLines(fs: FileSystem, full: string, order: seq<string>): seq<string>
    requires full in fs.directories
  {
    var dir := fs.directories[full];
    HeaderLines(full) + SubdirLines(fs, full, dir.subdirs) + FileLines(order)
      + (if |dir.subdirs| == 0 && |dir.files| == 0 then [EmptyMarker] else [])
  }

  function ListingText(fs: FileSystem, path: string, order: seq<string>): string {
    var full := ResolvePath(fs, path);
    if full !in fs.directories then "Error: Directory not found: " + full
    else Text.Join(ListingLines(fs, full, order), "\n")
  }

  /** `out` is what ListFiles(path) may print: the files of the directory
      appear in one of the orders Go's map iteration may take. */
  ghost predicate IsListing(fs: FileSystem, path: string, out: string) {
    var full := ResolvePath(fs, path);
    if full !in fs.directories then out == "Error: Directory not found: " + full
    else exists order :: Text.Enumerates(order, fs.directories[full].files.Keys) && out == ListingText(fs, path, order)
  }

  lemma FileLinesSnoc(order: seq<string>, f: string)
    ensures FileLines(order + [f]) == FileLines(order) + [FileLine(f)]
  {
    assert (order + [f])[..|order|] == order;
  }

  lemma SubdirLinesSnoc(fs: FileSystem, full: string, names: seq<string>, i: nat)
    requires i < |names|
    ensures SubdirLines(fs, full, names[..i + 1]) == SubdirLines(fs, full, names[..i])
      + (if Paths.JoinPath(full, names[i]) in fs.directories
         then [SubdirLine(fs.directories[Paths.JoinPath(full, names[i])])] else [])
  {
    assert names[..i + 1][..i] == names[..i];
  }

  /** The first loop of ListFiles: a line for each listed subdirectory
      found in the table. */
  method ListSubdirs(fs: FileSystem, full: string, subdirs: seq<string>) returns (lines: seq<string>)
    ensures lines == SubdirLines(fs, full, subdirs)
  {
    lines := [];
    for i := 0 to |subdirs|
      invariant lines == SubdirLines(fs, full, subdirs[..i])
    {
      var subdirPath := Paths.JoinPath(full, subdirs[i]);
      SubdirLinesSnoc(fs, full, subdirs, i);
      if subdirPath in fs.directories {
        var subdir := fs.directories[subdirPath];
        lines := lines + [SubdirLine(subdir)];
      }
    }
    assert subdirs[..|subdirs|] == subdirs;
  }

  /** The second loop of ListFiles: a line per file, in the order the map
      iteration takes. */
  method ListFileNames(files: map<string, string>) returns (lines: seq<string>, ghost order: seq<string>)
    ensures Text.Enumerates(order, files.Keys) && lines == FileLines(order)
  {
    lines := [];
    order := [];
    var remaining := files.Keys;
    while remaining != {}
      invariant remaining <= files.Keys
      invariant forall f :: f in order <==> f in files.Keys - remaining
      invariant forall i, j :: 0 <= i < j < |order| ==> order[i] != order[j]
      invariant lines == FileLines(order)
      decreases |remaining|
    {
      var filename :| filename in remaining;
      assert filename !in order;
      FileLinesSnoc(order, filename);
      lines := lines + [FileLine(filename)];
      order := order + [filename];
      remaining := remaining - {filename};
    }
  }

  method ListFiles(fs: FileSystem, path: string) returns (out: string)
    ensures IsListing(fs, path, out)
  {
    var fullPath := ResolvePath(fs, path);
    if fullPath !in fs.directories {
      return "Error: Directory not found: " + fullPath;
    }
    var dir := fs.directories[fullPath];
    var subdirLines := ListSubdirs(fs, fullPath, dir.subdirs);
    var fileLines, order := ListFileNames(dir.files);
    var result := HeaderLines(fullPath) + subdirLines + fileLines;
    if |dir.subdirs| == 0 && |dir.files| == 0 {
      result := result + [EmptyMarker];
    }
    out := Text.Join(result, "\n");
    assert result == ListingLines(fs, fullPath, order);
    ListingWitness(fs, path, order, out);
  }


  lemma ListingWitness(fs: FileSystem, path: string, order: seq<string>, out: string)
    requires ResolvePath(fs, path) in fs.directories
    requires Text.Enumerates(order, fs.directories[ResolvePath(fs, path)].files.Keys)
    requires out == Text.Join(ListingLines(fs, ResolvePath(fs, path), order), "\n")
    ensures IsListing(fs, path, out)
  {
    assert out == ListingText(fs, path, order);
  }

  /** A line of a subdirectory that is listed. */
  predicate ListedSubdir(fs: FileSystem, full: string, n: string, line: string) {
    Paths.JoinPath(full, n) in fs.directories && line == SubdirLine(fs.directories[Paths.JoinPath(full, n)])
  }

  lemma {:induction false} SubdirLinesSound(fs: FileSystem, full: string, names: seq<string>, line: string)
    requires line in SubdirLines(fs, full, names)
    ensures exists n :: n in names && ListedSubdir(fs, full, n, line)
  {
    var init := names[..|names| - 1];
    var last := names[|names| - 1];
    assert last in names;
    if line in SubdirLines(fs, full, init) {
      SubdirLinesSound(fs, full, init, line);
      var n :| n in init && ListedSubdir(fs, full, n, line);
      var k :| 0 <= k < |init| && init[k] == n;
      assert names[k] == n;
    } else {
      assert ListedSubdir(fs, full, last, line);
    }
  }

  lemma {:induction false} SubdirLinesComplete(fs: FileSystem, full: string, names: seq<string>, n: string, line: string)
    requires n in names && ListedSubdir(fs, full, n, line)
    ensures line in SubdirLines(fs, full, names)
  {
    var init := names[..|names| - 1];
    var last := names[|names| - 1];
    if n != last {
      var k :| 0 <= k < |names| && names[k] == n;
      assert init[k] == n;
      SubdirLinesComplete(fs, full, init, n, line);
    }
  }

  /** The subdirectory lines are exactly those of the listed subdirectories
      found in the table. */
  lemma SubdirLinesExact(fs: FileSystem, full: string, names: seq<string>, line: string)
    ensures line in SubdirLines(fs, full, names) <==>
      exists n :: n in names && Paths.JoinPath(full, n) in fs.directories
               && line == SubdirLine(fs.directories[Paths.JoinPath(full, n)])
  {
    if line in SubdirLines(fs, full, names) {
      SubdirLinesSound(fs, full, names, line);
    }
    if exists n :: n in names && ListedSubdir(fs, full, n, line) {
      var n :| n in names && ListedSubdir(fs, full, n, line);
      SubdirLinesComplete(fs, full, names, n, line);
    }
  }


  lemma {:induction false} SubdirLinesStartWithD(fs: FileSystem, full: string, names: seq<string>, line: string)
    requires line in SubdirLines(fs, full, names)
    ensures line != [] && line[0] == 'd'
  {
    var init := names[..|names| - 1];
    if line in SubdirLines(fs, full, init) {
      SubdirLinesStartWithD(fs, full, init, line);
    }
  }

  lemma FileLineInFileLines(order: seq<string>, f: string)
    ensures FileLine(f) in FileLines(order) <==> f in order
  {
    if FileLine(f) in FileLines(order) {
      var k :| 0 <= k < |order| && FileLines(order)[k] == FileLine(f);
      assert order[k] == FileLine(order[k])[6..] == FileLine(f)[6..] == f;
    }
    if f in order {
      var k :| 0 <= k < |order| && order[k] == f;
      assert FileLines(order)[k] == FileLine(f);
    }
  }

  lemma FileLinesStartWithDash(order: seq<string>, line: string)
    requires line in FileLines(order)
    ensures line != [] && line[0] == '-'
  {
    var k :| 0 <= k < |order| && FileLines(order)[k] == line;
  }

  /** A listing lists every file of the directory, and no other file. */
  lemma ListingFiles(fs: FileSystem, full: string, order: seq<string>, f: string)
    requires full in fs.directories
    requires Text.Enumerates(order, fs.directories[full].files.Keys)
    ensures FileLine(f) in ListingLines(fs, full, order) <==> f in fs.directories[full].files
  {
    var dir := fs.directories[full];
    var sub := SubdirLines(fs, full, dir.subdirs);
    var tail := if |dir.subdirs| == 0 && |dir.files| == 0 then [EmptyMarker] else [];
    assert ListingLines(fs, full, order) == HeaderLines(full) + sub + FileLines(order) + tail;
    FileLineInFileLines(order, f);
    assert FileLine(f)[0] == '-';
    if FileLine(f) in sub {
      SubdirLinesStartWithD(fs, full, dir.subdirs, FileLine(f));
    }
    assert FileLine(f) !in HeaderLines(full) by {
      assert HeaderLines(full)[0][0] == 'D';
    }
  }

  /** A listing carries the empty marker exactly when the directory has no
      subdirectory names and no files. */
  lemma ListingEmptyMarker(fs: FileSystem, full: string, order: seq<string>)
    requires full in fs.directories
    ensures EmptyMarker in ListingLines(fs, full, order) <==>
              fs.directories[full].subdirs == [] && fs.directories[full].files == map[]
  {
    var dir := fs.directories[full];
    var sub := SubdirLines(fs, full, dir.subdirs);
    var tail := if |dir.subdirs| == 0 && |dir.files| == 0 then [EmptyMarker] else [];
    assert ListingLines(fs, full, order) == HeaderLines(full) + sub + FileLines(order) + tail;
    assert EmptyMarker[0] == '<';
    if EmptyMarker in sub {
      SubdirLinesStartWithD(fs, full, dir.subdirs, EmptyMarker);
    }
    if EmptyMarker in FileLines(order) {
      FileLinesStartWithDash(order, EmptyMarker);
    }
    assert EmptyMarker !in HeaderLines(full) by {
      assert HeaderLines(full)[0][0] == 'D';
    }
    if dir.files == map[] {
      assert |dir.files| == 0;
    }
  }
}
