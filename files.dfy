/** The file manager (data/FileManager.kt): path resolution against the external-storage
    root, the permission string, the two ways of listing a directory (the java.io.File API and
    the parsed output of `ls -l` under root), the depth-bounded tree, and the content
    operations with their error rules.

    The device is an oracle, `Fs`: what the File API reports for each resolved path, what the
    root shell prints, and which writes fail. Date formatting is not modelled: an entry's
    modification time is given already formatted, and so is the current time that the root
    listing stamps on every entry. */
module Files {
  import opened Wrappers
  import opened Models
  import Text

  /** The size a directory reports in the standard listing. */
  const DirSize: int := 4096

  const NotReadable: string := "File not found or unreadable"
  const FileExists: string := "File already exists"
  const DirectoryExists: string := "Directory already exists"
  const MkdirFailed: string := "Failed to create directory"

  /** What `java.io.File` reports about one entry of a directory. */
  datatype Node = Node(
    name: string,
    isDir: bool,
    length: int,
    modTime: string,
    canRead: bool,
    canWrite: bool,
    canExecute: bool)

  /** The device as the file manager sees it, keyed by resolved path. */
  datatype Fs = Fs(
    /** `isRootAvailable`. */
    root: bool,
    /** `Environment.getExternalStorageDirectory().absolutePath`. */
    storage: string,
    /** Paths for which `File.exists()` holds. */
    existing: set<string>,
    /** Readable regular files and the text `readText()` returns. */
    texts: map<string, string>,
    /** Paths that `su -c cat` prints with exit status 0, and what it prints. */
    catTexts: map<string, string>,
    /** Readable directories and the entries `listFiles()` returns. */
    listings: map<string, seq<Node>>,
    /** Paths that `su -c ls -l` runs on, and the lines it prints. */
    lsOutput: map<string, seq<string>>,
    /** Paths on which the File API itself throws (a security manager refusing access), with
        the exception's message. */
    throwing: map<string, Option<string>>,
    /** Paths that `canRead()` but whose `readText()` throws (a directory, an I/O error), with
        the exception's message. */
    readErrors: map<string, Option<string>>,
    /** Paths whose `writeText` throws, with the exception's message. */
    writeErrors: map<string, Option<string>>,
    /** Paths whose `createNewFile` throws, with the exception's message. */
    createErrors: map<string, Option<string>>,
    /** Paths for which `mkdirs()` returns false. */
    mkdirsFails: set<string>,
    /** The current time as the root listing formats it. */
    now: string)

  // ---- paths ----

  /** `resolvePath`: with root every path is used as given ("" meaning "/"); without root
      every path is placed under the external-storage directory. */
  function ResolvePath(path: string, root: bool, storage: string): (r: string)
    ensures root ==> r != [] && (path != [] ==> r == path)
    ensures root && path == [] ==> r == "/"
    ensures !root ==> Text.StartsWith(r, storage)
    ensures !root && Text.StartsWith(path, storage) ==> r == path
    ensures !root && !Text.StartsWith(path, storage) ==>
              r[|storage|..] == (if path == "/" || path == [] then [] else if path[0] == '/' then path else "/" + path)
  {
    if root then (if path == [] then "/" else path)
    else if Text.StartsWith(path, storage) then path
    else if path == "/" || path == [] then storage
    else if Text.StartsWith(path, "/") then storage + path
    else storage + "/" + path
  }

  /** Resolving a resolved path changes nothing. */
  lemma ResolveIdempotent(path: string, root: bool, storage: string)
    ensures var r := ResolvePath(path, root, storage); ResolvePath(r, root, storage) == r
  {
  }

  /** Without root, a path outside the storage directory keeps its text at the end of the
      result, joined to the storage directory by exactly one "/" when it had none. */
  lemma ResolveUnderStorage(path: string, storage: string)
    requires !Text.StartsWith(path, storage) && path != "/" && path != []
    ensures Text.StartsWith(path, "/") ==> ResolvePath(path, false, storage) == storage + path
    ensures !Text.StartsWith(path, "/") ==> ResolvePath(path, false, storage) == storage + "/" + path
    ensures Text.EndsWith(ResolvePath(path, false, storage), path)
  {
    var r := ResolvePath(path, false, storage);
    if Text.StartsWith(path, "/") {
      assert r[|r| - |path|..] == path;
    } else {
      assert r == (storage + "/") + path;
      assert r[|r| - |path|..] == path;
    }
  }

  /** Without root, "/" and "" both name the storage directory itself. */
  lemma ResolveTop(storage: string)
    requires |storage| > 1
    ensures ResolvePath("/", false, storage) == storage
    ensures ResolvePath([], false, storage) == storage
  {
  }

  /** The path of a child entry: one "/" between parent and name, never two. */
  function ChildPath(path: string, name: string): (r: string)
    ensures Text.StartsWith(r, path)
    ensures Text.EndsWith(r, "/" + name)
    ensures |r| == |path| + |name| + (if Text.EndsWith(path, "/") then 0 else 1)
  {
    if Text.EndsWith(path, "/") then
      assert path + name == path[..|path| - 1] + ("/" + name);
      path + name
    else
      assert path + "/" + name == path + ("/" + name);
      path + "/" + name
  }

  // ---- one entry ----

  /** `getPermissions`: type, then the owner's three flags, then a fixed "r-xr-x". */
  function Permissions(isDir: bool, canRead: bool, canWrite: bool, canExecute: bool): (r: string)
    ensures |r| == 10 && r[4..] == "r-xr-x"
    ensures (r[0] == 'd' <==> isDir) && (r[0] == 'd' || r[0] == '-')
    ensures (r[1] == 'r' <==> canRead) && (r[1] == 'r' || r[1] == '-')
    ensures (r[2] == 'w' <==> canWrite) && (r[2] == 'w' || r[2] == '-')
    ensures (r[3] == 'x' <==> canExecute) && (r[3] == 'x' || r[3] == '-')
  {
    [if isDir then 'd' else '-']
    + [if canRead then 'r' else '-']
    + [if canWrite then 'w' else '-']
    + [if canExecute then 'x' else '-']
    + "r-x" + "r-x"
  }

  /** The standard listing's entry: directories report 4096 bytes; no children. */
  function ToItem(n: Node): (r: FileItem)
    ensures r.name == n.name && r.isDir == n.isDir && r.modTime == n.modTime && r.children.None?
    ensures r.size == if n.isDir then DirSize else n.length
    ensures r.mode == Permissions(n.isDir, n.canRead, n.canWrite, n.canExecute)
  {
    FileItem(n.name, if n.isDir then DirSize else n.length, n.isDir, n.modTime,
             Permissions(n.isDir, n.canRead, n.canWrite, n.canExecute))
  }

  function Items(nodes: seq<Node>): (r: seq<FileItem>)
    ensures |r| == |nodes| && forall k :: 0 <= k < |r| ==> r[k] == ToItem(nodes[k])
  {
    seq(|nodes|, k requires 0 <= k < |nodes| => ToItem(nodes[k]))
  }

  /** The permission string the standard listing shows says "directory" exactly when the
      entry is one, in the same way the `ls -l` parser reads it. */
  lemma PermissionsReadBack(n: Node)
    ensures Text.StartsWith(ToItem(n).mode, "d") <==> n.isDir
  {
  }

  // ---- listing order ----

  /** `compareBy({ !it.isDir }, { it.name.lowercase() })`: `a` may come before `b`. */
  predicate Before(a: FileItem, b: FileItem) {
    (a.isDir && !b.isDir) || (a.isDir == b.isDir && Text.StrLe(Text.Lower(a.name), Text.Lower(b.name)))
  }

  lemma BeforeTotal(a: FileItem, b: FileItem)
    ensures Before(a, b) || Before(b, a)
  {
    Text.StrLeTotal(Text.Lower(a.name), Text.Lower(b.name));
  }

  lemma BeforeTrans(a: FileItem, b: FileItem, c: FileItem)
    requires Before(a, b) && Before(b, c)
    ensures Before(a, c)
  {
    if a.isDir == b.isDir && b.isDir == c.isDir {
      Text.StrLeTrans(Text.Lower(a.name), Text.Lower(b.name), Text.Lower(c.name));
    }
  }

  predicate Sorted(s: seq<FileItem>) {
    forall i, j :: 0 <= i < j < |s| ==> Before(s[i], s[j])
  }

  /** `x` placed before the first element it may precede: after every element that must
      come first, and before those equal to it. */
  function Insert(x: FileItem, s: seq<FileItem>): (r: seq<FileItem>)
    ensures multiset(r) == multiset(s) + multiset{x}
    decreases |s|
  {
    if s == [] || Before(x, s[0]) then [x] + s
    else
      assert s == [s[0]] + s[1..];
      [s[0]] + Insert(x, s[1..])
  }

  /** `sortedWith` under `Before`, inserting each entry into the sorted rest; an entry goes
      before later ones equal to it, so the sort is stable. */
  function SortListing(s: seq<FileItem>): (r: seq<FileItem>)
    ensures multiset(r) == multiset(s)
    decreases |s|
  {
    if s == [] then []
    else
      assert s == [s[0]] + s[1..];
      Insert(s[0], SortListing(s[1..]))
  }

  lemma {:induction false} InsertSorted(x: FileItem, s: seq<FileItem>)
    requires Sorted(s)
    ensures Sorted(Insert(x, s))
    decreases |s|
  {
    if s == [] {
    } else if Before(x, s[0]) {
      PrependSorted(x, s);
    } else {
      BeforeTotal(x, s[0]);
      InsertSorted(x, s[1..]);
      var rest := Insert(x, s[1..]);
      InsertBounded(s[0], x, s[1..]);
      PrependSorted(s[0], rest);
    }
  }

  /** An element that may precede the head of a sorted sequence may precede all of it. */
  lemma PrependSorted(x: FileItem, s: seq<FileItem>)
    requires Sorted(s) && (s == [] || Before(x, s[0]))
    ensures Sorted([x] + s)
  {
    var r := [x] + s;
    forall i, j | 0 <= i < j < |r|
      ensures Before(r[i], r[j])
    {
      if i == 0 && j > 1 {
        BeforeTrans(x, s[0], s[j - 1]);
      } else if i > 0 {
        assert r[i] == s[i - 1] && r[j] == s[j - 1];
      }
    }
  }

  /** The head of a sorted `[h] + s` may precede everything `x` inserted into `s` holds,
      when it may precede `x`. */
  lemma InsertBounded(h: FileItem, x: FileItem, s: seq<FileItem>)
    requires Sorted([h] + s) && Before(h, x)
    ensures var rest := Insert(x, s); rest != [] && Before(h, rest[0])
  {
    var rest := Insert(x, s);
    assert rest[0] in multiset(rest);
    if rest[0] != x {
      assert rest[0] in s;
      var k :| 0 <= k < |s| && s[k] == rest[0];
      assert ([h] + s)[0] == h && ([h] + s)[k + 1] == rest[0];
    }
  }

  /** Listings put every directory before every file, order each group by lower-cased
      name, and keep exactly the entries they were given. */
  lemma {:induction false} ListingOrder(s: seq<FileItem>)
    ensures var r := SortListing(s);
            && multiset(r) == multiset(s)
            && Sorted(r)
            && (forall i, j :: 0 <= i < j < |r| && r[j].isDir ==> r[i].isDir)
            && (forall i, j :: 0 <= i < j < |r| && r[i].isDir == r[j].isDir ==>
                  Text.StrLe(Text.Lower(r[i].name), Text.Lower(r[j].name)))
    decreases |s|
  {
    if s != [] {
      ListingOrder(s[1..]);
      InsertSorted(s[0], SortListing(s[1..]));
    }
  }

  // ---- the root listing: parsing `ls -l` ----

  /** Field `i` looks like a date and field `i + 1` like a time. */
  predicate IsDateAt(parts: seq<string>, i: nat)
    requires i + 1 < |parts|
  {
    '-' in parts[i] && |parts[i]| >= 5 && ':' in parts[i + 1]
  }

  /** The first index from `i` on at which a date column starts. */
  function DateIndexFrom(parts: seq<string>, i: nat): (r: Option<nat>)
    ensures r.Some? ==> i <= r.value && r.value + 1 < |parts| && IsDateAt(parts, r.value)
    ensures r.Some? ==> forall j :: i <= j < r.value ==> !IsDateAt(parts, j)
    ensures r.None? ==> forall j :: i <= j && j + 1 < |parts| ==> !IsDateAt(parts, j)
    decreases |parts| - i
  {
    if i + 1 >= |parts| then None
    else if IsDateAt(parts, i) then Some(i)
    else DateIndexFrom(parts, i + 1)
  }

  /** The date column of an `ls -l` line split into fields: searched from field 3 up to the
      second-to-last field. */
  function DateIndex(parts: seq<string>): Option<nat> {
    DateIndexFrom(parts, 3)
  }

  /** The inner search loop of `listFilesRoot`: -1 when no field qualifies. */
  method FindDateIndex(parts: seq<string>) returns (dateIndex: int)
    ensures DateIndex(parts).None? ==> dateIndex == -1
    ensures DateIndex(parts).Some? ==> dateIndex == DateIndex(parts).value
  {
    dateIndex := -1;
    var i := 3;
    while i < |parts| - 1
      invariant 3 <= i && dateIndex == -1
      invariant forall j :: 3 <= j < i && j + 1 < |parts| ==> !IsDateAt(parts, j)
    {
      if '-' in parts[i] && |parts[i]| >= 5 && ':' in parts[i + 1] {
        assert IsDateAt(parts, i);
        dateIndex := i;
        break;
      }
      i := i + 1;
    }
  }

  /** One line of `ls -l`: the "total" line, lines of fewer than six fields and lines
      without a date column give no entry. Otherwise the entry's size is the field before
      the date (0 when not a number), its name the fields after the time joined by " ", its
      mode the first field, and it is a directory exactly when that field starts with 'd'. */
  function ParseLsLine(line: string, now: string): (r: Option<FileItem>)
    ensures r.Some? <==> !Text.StartsWith(line, "total") && |Text.SplitWs(line)| >= 6
                         && DateIndex(Text.SplitWs(line)).Some?
    ensures r.Some? ==> r.value.mode == Text.SplitWs(line)[0] && r.value.modTime == now
    ensures r.Some? ==> var parts := Text.SplitWs(line);
                        var i := DateIndex(parts).value;
                        3 <= i && i + 2 <= |parts|
                        && r.value.name == Text.Join(parts[i + 2..], " ")
                        && r.value.size == Text.ParseLong(parts[i - 1]).GetOr(0)
    ensures r.Some? ==> (r.value.isDir <==> Text.StartsWith(r.value.mode, "d")) && r.value.children.None?
  {
    if Text.StartsWith(line, "total") then None
    else
      var parts := Text.SplitWs(line);
      if |parts| < 6 then None
      else match DateIndex(parts)
        case None => None
        case Some(i) =>
          Some(FileItem(Text.Join(parts[i + 2..], " "), Text.ParseLong(parts[i - 1]).GetOr(0),
                        Text.StartsWith(parts[0], "d"), now, parts[0]))
  }

  /** The entries parsed from `lines`, in order. */
  function LsItems(lines: seq<string>, now: string): seq<FileItem>
    decreases |lines|
  {
    if lines == [] then []
    else LsItems(lines[..|lines| - 1], now) + ParseLsLine(lines[|lines| - 1], now).ToSeq()
  }

  /** Parsed entries of two runs of lines are those of the concatenated run, in order. */
  lemma {:induction false} LsItemsAppend(a: seq<string>, b: seq<string>, now: string)
    ensures LsItems(a + b, now) == LsItems(a, now) + LsItems(b, now)
    decreases |b|
  {
    if b == [] {
      assert a + b == a;
    } else {
      var b' := b[..|b| - 1];
      assert (a + b)[..|a + b| - 1] == a + b';
      LsItemsAppend(a, b', now);
    }
  }

  /** A line `ls -l` prints for an entry: mode, link count, owner, group, size, date, time and
      the words of the name, separated by single spaces. */
  function LsLine(mode: string, links: string, owner: string, group: string, size: nat,
                  date: string, time: string, words: seq<string>): string
  {
    Text.Join([mode, links, owner, group, Text.Decimal(size), date, time] + words, " ")
  }

  predicate Field(s: string) {
    s != [] && Text.NoRegexSpace(s)
  }

  /** Parsing the line `ls -l` prints for an entry gives back its name, size, mode and kind,
      whatever the owner and group fields hold. */
  lemma LsLineRoundTrip(mode: string, links: string, owner: string, group: string, size: nat,
                        date: string, time: string, words: seq<string>, now: string)
    requires Field(mode) && Field(links) && Field(owner) && Field(group) && Field(date) && Field(time)
    requires forall k :: 0 <= k < |words| ==> Field(words[k])
    requires mode[0] != 't'
    requires '-' in date && |date| >= 5 && ':' in time
    requires size <= Text.LongMax
    ensures ParseLsLine(LsLine(mode, links, owner, group, size, date, time, words), now)
         == Some(FileItem(Text.Join(words, " "), size, mode[0] == 'd', now, mode))
  {
    var parts := [mode, links, owner, group, Text.Decimal(size), date, time] + words;
    var line := LsLine(mode, links, owner, group, size, date, time, words);
    LsLineFields(mode, links, owner, group, size, date, time, words);
    LsLineDate(mode, links, owner, group, size, date, time, words);
    assert parts[7..] == words;
    ParseEntry(line, parts, size, now);
  }

  /** The line `ls -l` prints splits back into its fields. */
  lemma LsLineFields(mode: string, links: string, owner: string, group: string, size: nat,
                     date: string, time: string, words: seq<string>)
    requires Field(mode) && Field(links) && Field(owner) && Field(group) && Field(date) && Field(time)
    requires forall k :: 0 <= k < |words| ==> Field(words[k])
    ensures var parts := [mode, links, owner, group, Text.Decimal(size), date, time] + words;
            var line := LsLine(mode, links, owner, group, size, date, time, words);
            Text.SplitWs(line) == parts && line != [] && line[0] == mode[0]
  {
    var sz := Text.Decimal(size);
    DecimalField(size);
    FieldsSplit(mode, links, owner, group, sz, date, time, words);
  }

  /** The date column of those fields is the sixth. */
  lemma LsLineDate(mode: string, links: string, owner: string, group: string, size: nat,
                   date: string, time: string, words: seq<string>)
    requires '-' in date && |date| >= 5 && ':' in time
    ensures DateIndex([mode, links, owner, group, Text.Decimal(size), date, time] + words) == Some(5)
  {
    var parts := [mode, links, owner, group, Text.Decimal(size), date, time] + words;
    DecimalField(size);
    DateAtFive(parts);
  }

  /** `ParseLsLine` on a line split into fields whose date column is the sixth field. */
  lemma ParseEntry(line: string, parts: seq<string>, size: nat, now: string)
    requires Text.SplitWs(line) == parts && |parts| >= 7 && parts[0] != []
    requires line != [] && line[0] == parts[0][0] && line[0] != 't'
    requires parts[4] == Text.Decimal(size) && size <= Text.LongMax
    requires DateIndex(parts) == Some(5)
    ensures ParseLsLine(line, now)
         == Some(FileItem(Text.Join(parts[7..], " "), size, parts[0][0] == 'd', now, parts[0]))
  {
    NotTotal(line);
    ParseSplit(line, parts, 5, now);
    Text.ParseDecimal(size, Text.LongMin, Text.LongMax);
    assert Text.StartsWith(parts[0], "d") == (parts[0][0] == 'd') by {
      assert parts[0][..1] == [parts[0][0]];
    }
  }

  /** The date column of a line whose fifth field holds no '-' or ':' and whose sixth and
      seventh look like a date and a time. */
  lemma DateAtFive(parts: seq<string>)
    requires |parts| >= 7 && ':' !in parts[4] && '-' !in parts[4]
    requires '-' in parts[5] && |parts[5]| >= 5 && ':' in parts[6]
    ensures DateIndex(parts) == Some(5)
  {
    assert !IsDateAt(parts, 3) && !IsDateAt(parts, 4) && IsDateAt(parts, 5);
  }

  /** A line whose first character is not 't' is not the "total" line. */
  lemma NotTotal(line: string)
    requires line != [] && line[0] != 't'
    ensures !Text.StartsWith(line, "total")
  {
    if |line| >= 5 {
      assert line[..5][0] == line[0];
    }
  }

  /** A size printed in decimal is one field holding neither ':' nor '-'. */
  lemma DecimalField(size: nat)
    ensures var sz := Text.Decimal(size); Field(sz) && ':' !in sz && '-' !in sz
  {
    var sz := Text.Decimal(size);
    forall k | 0 <= k < |sz|
      ensures !Text.IsRegexSpace(sz[k]) && sz[k] != ':' && sz[k] != '-'
    {
      assert Text.IsDigit(sz[k]);
    }
  }

  /** Fields joined by single spaces split back into the same fields. */
  lemma FieldsSplit(mode: string, links: string, owner: string, group: string, sz: string,
                    date: string, time: string, words: seq<string>)
    requires Field(mode) && Field(links) && Field(owner) && Field(group) && Field(sz) && Field(date) && Field(time)
    requires forall k :: 0 <= k < |words| ==> Field(words[k])
    ensures var parts := [mode, links, owner, group, sz, date, time] + words;
            var line := Text.Join(parts, " ");
            Text.SplitWs(line) == parts && line != [] && line[0] == mode[0]
  {
    var parts := [mode, links, owner, group, sz, date, time] + words;
    forall k | 0 <= k < |parts|
      ensures parts[k] != [] && Text.NoRegexSpace(parts[k])
    {
      if k >= 7 {
        assert parts[k] == words[k - 7];
      }
    }
    Text.SplitJoin(parts);
    Text.JoinStartsWith(parts, " ");
  }

  /** `ParseLsLine` on a line whose fields and date column are known. */
  lemma ParseSplit(line: string, parts: seq<string>, i: nat, now: string)
    requires !Text.StartsWith(line, "total") && Text.SplitWs(line) == parts
    requires |parts| >= 6 && DateIndex(parts) == Some(i)
    ensures ParseLsLine(line, now)
         == Some(FileItem(Text.Join(parts[i + 2..], " "), Text.ParseLong(parts[i - 1]).GetOr(0),
                          Text.StartsWith(parts[0], "d"), now, parts[0]))
  {
  }

  /** `listFilesRoot` over the lines `ls -l` printed: each line parsed in order, then
      sorted for display. */
  method ListFilesRoot(lines: seq<string>, now: string) returns (items: seq<FileItem>)
    ensures items == SortListing(LsItems(lines, now))
  {
    var found: seq<FileItem> := [];
    for k := 0 to |lines|
      invariant found == LsItems(lines[..k], now)
    {
      var line := lines[k];
      assert lines[..k + 1][..k] == lines[..k];
      if Text.StartsWith(line, "total") {
        continue;
      }
      var parts := Text.SplitWs(line);
      if |parts| < 6 {
        continue;
      }
      var perms := parts[0];
      var isDir := Text.StartsWith(perms, "d");
      var dateIndex := FindDateIndex(parts);
      if dateIndex != -1 {
        var size := Text.ParseLong(parts[dateIndex - 1]).GetOr(0);
        var name := Text.Join(parts[dateIndex + 2..], " ");
        found := found + [FileItem(name, size, isDir, now, perms)];
      }
    }
    assert lines[..|lines|] == lines;
    items := SortListing(found);
  }

  // ---- listing a directory ----

  /** `listFiles`: the File API when it can read the directory, else `ls -l` under root,
      else nothing; an error when the File API throws. */
  function Listing(fs: Fs, path: string): Result<seq<FileItem>> {
    var p := ResolvePath(path, fs.root, fs.storage);
    if p in fs.throwing then Err(fs.throwing[p])
    else if p in fs.listings then Ok(SortListing(Items(fs.listings[p])))
    else if fs.root then Ok(RootListing(fs, p))
    else Ok([])
  }

  /** `listFilesRoot` on a resolved path; a failing `su` lists nothing. */
  function RootListing(fs: Fs, p: string): seq<FileItem> {
    if p in fs.lsOutput then SortListing(LsItems(fs.lsOutput[p], fs.now)) else []
  }

  method ListFiles(fs: Fs, path: string) returns (items: Result<seq<FileItem>>)
    ensures items == Listing(fs, path)
  {
    var p := ResolvePath(path, fs.root, fs.storage);
    if p in fs.throwing {
      return Err(fs.throwing[p]);
    }
    if p in fs.listings {
      return Ok(SortListing(Items(fs.listings[p])));
    }
    if fs.root {
      if p in fs.lsOutput {
        var listed := ListFilesRoot(fs.lsOutput[p], fs.now);
        return Ok(listed);
      }
      return Ok([]);
    }
    return Ok([]);
  }

  /** A listing is in display order, has no children, and holds exactly the directory's
      entries; in the standard path every directory reports 4096 bytes. */
  lemma ListingShape(fs: Fs, path: string)
    ensures var p := ResolvePath(path, fs.root, fs.storage);
            Listing(fs, path).Ok? ==>
              var r := Listing(fs, path).value;
              && Sorted(r)
              && (forall k :: 0 <= k < |r| ==> r[k].children.None?)
              && (p in fs.listings ==> multiset(r) == multiset(Items(fs.listings[p]))
                                       && forall k :: 0 <= k < |r| && r[k].isDir ==> r[k].size == DirSize)
    ensures Listing(fs, path).Err? <==> ResolvePath(path, fs.root, fs.storage) in fs.throwing
  {
    var p := ResolvePath(path, fs.root, fs.storage);
    if p !in fs.throwing {
      var src := if p in fs.listings then Items(fs.listings[p]) else if fs.root && p in fs.lsOutput then LsItems(fs.lsOutput[p], fs.now) else [];
      ListingOrder(src);
      LsItemsFlat(if fs.root && p in fs.lsOutput then fs.lsOutput[p] else [], fs.now);
      var r := Listing(fs, path).value;
      assert r == SortListing(src);
      forall k | 0 <= k < |r|
        ensures r[k].children.None?
        ensures p in fs.listings && r[k].isDir ==> r[k].size == DirSize
      {
        assert r[k] in multiset(src);
      }
    }
  }

  /** Parsed entries carry no children. */
  lemma {:induction false} LsItemsFlat(lines: seq<string>, now: string)
    ensures forall k :: 0 <= k < |LsItems(lines, now)| ==> LsItems(lines, now)[k].children.None?
    decreases |lines|
  {
    if lines != [] {
      LsItemsFlat(lines[..|lines| - 1], now);
    }
  }

  // ---- file contents ----

  /** `getFileContent`: the File API's text when the file can be read, else what `su -c cat`
      prints when it exits with 0, else "File not found or unreadable". */
  function GetFileContent(fs: Fs, path: string): (r: Result<string>)
    ensures var p := ResolvePath(path, fs.root, fs.storage);
            r.Ok? <==> p !in fs.readErrors && (p in fs.texts || (fs.root && p in fs.catTexts))
    ensures var p := ResolvePath(path, fs.root, fs.storage);
            r.Err? && p !in fs.readErrors ==> r.message == Some(NotReadable)
  {
    var p := ResolvePath(path, fs.root, fs.storage);
    if p in fs.readErrors then Err(fs.readErrors[p])
    else if p in fs.texts then Ok(fs.texts[p])
    else if fs.root && p in fs.catTexts then Ok(fs.catTexts[p])
    else Err(Some(NotReadable))
  }

  /** The device once `writeText(content)` on the resolved path `p` has succeeded: the file
      exists and reads back as `content`. */
  function Written(fs: Fs, p: string, content: string): Fs {
    fs.(existing := fs.existing + {p}, texts := fs.texts[p := content], readErrors := fs.readErrors - {p})
  }

  /** `saveFileContent`: overwrite (or create) the file with `content`. */
  function SaveFileContent(fs: Fs, path: string, content: string): (r: Result<Fs>)
    ensures var p := ResolvePath(path, fs.root, fs.storage);
            r.Err? <==> p in fs.writeErrors
    ensures var p := ResolvePath(path, fs.root, fs.storage);
            r.Ok? ==> r.value.existing == fs.existing + {p} && r.value.texts == fs.texts[p := content]
  {
    var p := ResolvePath(path, fs.root, fs.storage);
    if p in fs.writeErrors then Err(fs.writeErrors[p]) else Ok(Written(fs, p, content))
  }

  /** `createFile`: "File already exists" on an existing path; otherwise a new empty file,
      unless `createNewFile` throws. */
  function CreateFile(fs: Fs, path: string): (r: Result<Fs>)
    ensures var p := ResolvePath(path, fs.root, fs.storage);
            p in fs.existing ==> r == Err(Some(FileExists))
    ensures var p := ResolvePath(path, fs.root, fs.storage);
            r.Ok? <==> p !in fs.existing && p !in fs.createErrors
    ensures var p := ResolvePath(path, fs.root, fs.storage);
            r.Ok? ==> p in r.value.existing && r.value.texts == fs.texts[p := ""]
  {
    var p := ResolvePath(path, fs.root, fs.storage);
    if p in fs.existing then Err(Some(FileExists))
    else if p in fs.createErrors then Err(fs.createErrors[p])
    else Ok(Written(fs, p, ""))
  }

  /** `mkdir`: "Directory already exists" on an existing path, "Failed to create directory"
      when `mkdirs()` reports failure; otherwise a new, empty, readable directory. */
  function Mkdir(fs: Fs, path: string): (r: Result<Fs>)
    ensures var p := ResolvePath(path, fs.root, fs.storage);
            p in fs.existing ==> r == Err(Some(DirectoryExists))
    ensures var p := ResolvePath(path, fs.root, fs.storage);
            p !in fs.existing && p in fs.mkdirsFails ==> r == Err(Some(MkdirFailed))
    ensures var p := ResolvePath(path, fs.root, fs.storage);
            r.Ok? <==> p !in fs.existing && p !in fs.mkdirsFails
  {
    var p := ResolvePath(path, fs.root, fs.storage);
    if p in fs.existing then Err(Some(DirectoryExists))
    else if p in fs.mkdirsFails then Err(Some(MkdirFailed))
    else Ok(fs.(existing := fs.existing + {p}, listings := fs.listings[p := []]))
  }

  /** A file saved successfully reads back as what was saved. */
  lemma SaveThenGet(fs: Fs, path: string, content: string)
    requires SaveFileContent(fs, path, content).Ok?
    ensures GetFileContent(SaveFileContent(fs, path, content).value, path) == Ok(content)
  {
  }

  /** A created file reads back empty, and creating it a second time fails with
      "File already exists". */
  lemma CreateThenCreateAgain(fs: Fs, path: string)
    requires CreateFile(fs, path).Ok?
    ensures GetFileContent(CreateFile(fs, path).value, path) == Ok("")
    ensures CreateFile(CreateFile(fs, path).value, path) == Err(Some("File already exists"))
  {
  }

  /** A new directory lists as empty, unless the File API throws on it, and a second `mkdir`
      fails with "Directory already exists". */
  lemma MkdirThenList(fs: Fs, path: string)
    requires Mkdir(fs, path).Ok?
    ensures var fs' := Mkdir(fs, path).value;
            ResolvePath(path, fs.root, fs.storage) !in fs.throwing ==> Listing(fs', path) == Ok([])
    ensures Mkdir(Mkdir(fs, path).value, path) == Err(Some("Directory already exists"))
  {
  }

  // ---- the tree ----

  /** `getDirectoryTree`: the listing of `path`; below depth 2 as it is, otherwise with every
      directory given the tree of its child path one level shallower. The first listing on
      the way that throws makes the whole call throw. */
  function DirectoryTree(fs: Fs, path: string, depth: int): Result<seq<FileItem>>
    decreases if depth < 1 then 0 else depth, 1, 0
  {
    match Listing(fs, path)
    case Err(m) => Err(m)
    case Ok(items) => if depth <= 1 then Ok(items) else Expand(fs, path, items, depth)
  }

  /** `items.map { ... }` of `getDirectoryTree`. */
  function Expand(fs: Fs, path: string, items: seq<FileItem>, depth: int): Result<seq<FileItem>>
    requires depth > 1
    decreases depth, 0, |items|
  {
    if items == [] then Ok([])
    else
      var head := Subtree(fs, path, items[0], depth);
      var tail := Expand(fs, path, items[1..], depth);
      if head.Err? then Err(head.message)
      else if tail.Err? then Err(tail.message)
      else Ok([head.value] + tail.value)
  }

  /** One element of the map: a directory gets its children, a file stays as it is. */
  function Subtree(fs: Fs, path: string, item: FileItem, depth: int): Result<FileItem>
    requires depth > 1
    decreases depth, 0, 0
  {
    if !item.isDir then Ok(item)
    else
      match DirectoryTree(fs, ChildPath(path, item.name), depth - 1)
      case Err(m) => Err(m)
      case Ok(sub) => Ok(item.(children := Some(sub)))
  }

  /** No entry of `items` is nested more than `d` levels deep: an entry with children
      needs `d` above 1 and children nested at most `d - 1` deep. */
  predicate WithinDepth(items: seq<FileItem>, d: int)
    decreases if d < 0 then 0 else d
  {
    forall k :: 0 <= k < |items| ==>
      items[k].children.Some? ==> d > 1 && WithinDepth(items[k].children.value, d - 1)
  }

  /** The tree's top level is the listing, entry for entry; only directories get children,
      and only when the depth is above 1. */
  lemma {:induction false} ExpandShape(fs: Fs, path: string, items: seq<FileItem>, depth: int)
    requires depth > 1
    ensures Expand(fs, path, items, depth).Ok? ==>
              var r := Expand(fs, path, items, depth).value;
              && |r| == |items|
              && (forall k :: 0 <= k < |r| ==> r[k].(children := items[k].children) == items[k])
              && (forall k :: 0 <= k < |r| ==> (r[k].children != items[k].children ==> items[k].isDir))
              && (forall k :: 0 <= k < |r| && items[k].isDir ==> r[k].children.Some?)
    decreases |items|
  {
    if items != [] {
      ExpandShape(fs, path, items[1..], depth);
    }
  }

  /** `getDirectoryTree` with depth 1 or less is the listing; a deeper tree keeps the
      listing's entries and order and fills in exactly the directories. */
  lemma TreeShape(fs: Fs, path: string, depth: int)
    ensures depth <= 1 ==> DirectoryTree(fs, path, depth) == Listing(fs, path)
    ensures Listing(fs, path).Err? ==> DirectoryTree(fs, path, depth) == Err(Listing(fs, path).message)
    ensures depth > 1 && DirectoryTree(fs, path, depth).Ok? ==>
              var items := Listing(fs, path).value;
              var r := DirectoryTree(fs, path, depth).value;
              && |r| == |items|
              && (forall k :: 0 <= k < |r| ==> r[k].(children := None) == items[k])
              && (forall k :: 0 <= k < |r| ==> (r[k].children.Some? <==> items[k].isDir))
  {
    if depth > 1 && Listing(fs, path).Ok? {
      var items := Listing(fs, path).value;
      ListingShape(fs, path);
      ExpandShape(fs, path, items, depth);
    }
  }

  /** A tree requested with depth `d` is never nested deeper than `d` levels (one level
      for `d` of 1 or less). */
  lemma {:induction false} TreeHeight(fs: Fs, path: string, depth: int)
    ensures DirectoryTree(fs, path, depth).Ok? ==>
              WithinDepth(DirectoryTree(fs, path, depth).value, if depth < 1 then 1 else depth)
    decreases if depth < 1 then 0 else depth, 1, 0
  {
    if Listing(fs, path).Ok? {
      ListingShape(fs, path);
      if depth > 1 {
        ExpandHeight(fs, path, Listing(fs, path).value, depth);
      }
    }
  }

  lemma {:induction false} ExpandHeight(fs: Fs, path: string, items: seq<FileItem>, depth: int)
    requires depth > 1
    requires forall k :: 0 <= k < |items| ==> items[k].children.None?
    ensures Expand(fs, path, items, depth).Ok? ==> WithinDepth(Expand(fs, path, items, depth).value, depth)
    decreases depth, 0, |items|
  {
    if items != [] && Expand(fs, path, items, depth).Ok? {
      ExpandHeight(fs, path, items[1..], depth);
      var item := items[0];
      if item.isDir {
        TreeHeight(fs, ChildPath(path, item.name), depth - 1);
      }
      var r := Expand(fs, path, items, depth).value;
      var rest := Expand(fs, path, items[1..], depth).value;
      assert r == [r[0]] + rest;
      forall k | 0 <= k < |r| && r[k].children.Some?
        ensures depth > 1 && WithinDepth(r[k].children.value, depth - 1)
      {
        if k > 0 {
          assert r[k] == rest[k - 1];
        }
      }
    }
  }
}
