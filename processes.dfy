/** The process manager (data/ProcessManager.kt): the two parsers for a line of `ps` output,
    the status-letter mapping, the loops that read `ps` output after its header line, and
    `killProcess`.

    Running `ps` and `kill` is an oracle, `Host`: the lines each `ps` invocation prints (or
    `None` when starting it throws) and the exit status of each `kill`. */
module Processes {
  import opened Wrappers
  import opened Models
  import Text

  /** The status every row of the fallback listing reports. */
  const Running: string := "Running"

  /** `mapStatus`: the state letters of `ps`, in either case, as words; anything else as given.
      The long s 'ſ' upper-cases to 'S' and so reads as sleeping. */
  function MapStatus(s: string): (r: string)
    ensures |s| == 1 && (s[0] == 'R' || s[0] == 'r') ==> r == "Running"
    ensures |s| == 1 && (s[0] == 'S' || s[0] == 's' || s[0] == '\U{17F}') ==> r == "Sleeping"
    ensures |s| == 1 && (s[0] == 'D' || s[0] == 'd') ==> r == "Disk Sleep"
    ensures |s| == 1 && (s[0] == 'Z' || s[0] == 'z') ==> r == "Zombie"
    ensures |s| == 1 && (s[0] == 'T' || s[0] == 't') ==> r == "Stopped"
    ensures r != s ==> |s| == 1 && s[0] in "RrSs\U{17F}DdZzTt"
  {
    var u := Text.Upper(s);
    if u == "R" then "Running"
    else if u == "S" then "Sleeping"
    else if u == "D" then "Disk Sleep"
    else if u == "Z" then "Zombie"
    else if u == "T" then "Stopped"
    else s
  }

  /** The fields of a `ps` line: trimmed, then split on runs of whitespace. */
  function Fields(line: string): seq<string> {
    Text.SplitWs(Text.Trim(line))
  }

  /** `parsePsLine`, for `ps -A -o USER,PID,PPID,VSZ,RSS,S,NAME`: at least seven fields and an
      integer pid, else nothing. A ppid or RSS that is not a number counts as 0; memory is
      RSS KiB in bytes, computed in 64-bit arithmetic; the name is every field from the
      seventh on, joined by " ", and is also the command line. */
  function ParsePsLine(line: string): (r: Option<ProcessItem>)
    ensures var parts := Fields(line);
            r.Some? <==> |parts| >= 7 && Text.ParseInt(parts[1]).Some?
    ensures var parts := Fields(line);
            r.Some? ==> && r.value.pid == Text.ParseInt(parts[1]).value
                        && r.value.ppid == Text.ParseInt(parts[2]).GetOr(0)
                        && r.value.username == parts[0]
                        && r.value.name == Text.Join(parts[6..], " ")
                        && r.value.cmdline == r.value.name
                        && r.value.status == MapStatus(parts[5])
                        && r.value.memory == Text.WrapLong(Text.ParseLong(parts[4]).GetOr(0) * 1024)
  {
    var parts := Fields(line);
    if |parts| < 7 then None
    else match Text.ParseInt(parts[1])
      case None => None
      case Some(pid) =>
        var name := Text.Join(parts[6..], " ");
        var rss := Text.ParseLong(parts[4]).GetOr(0);
        Some(ProcessItem(pid, Text.ParseInt(parts[2]).GetOr(0), name, parts[0], Text.WrapLong(rss * 1024),
                         MapStatus(parts[5]), name))
  }

  /** `parsePsLineGeneric`, for plain `ps -A`: at least eight fields and an integer pid, else
      nothing. The name is the last field; RSS is read from the fifth field only when there
      are nine or more; the status is always "Running". */
  function ParsePsLineGeneric(line: string): (r: Option<ProcessItem>)
    ensures var parts := Fields(line);
            r.Some? <==> |parts| >= 8 && Text.ParseInt(parts[1]).Some?
    ensures var parts := Fields(line);
            r.Some? ==> && r.value.pid == Text.ParseInt(parts[1]).value
                        && r.value.ppid == Text.ParseInt(parts[2]).GetOr(0)
                        && r.value.username == parts[0]
                        && r.value.name == parts[|parts| - 1]
                        && r.value.cmdline == r.value.name
                        && r.value.status == Running
                        && (|parts| < 9 ==> r.value.memory == 0)
                        && (|parts| >= 9 ==> r.value.memory == Text.WrapLong(Text.ParseLong(parts[4]).GetOr(0) * 1024))
  {
    var parts := Fields(line);
    if |parts| < 8 then None
    else match Text.ParseInt(parts[1])
      case None => None
      case Some(pid) =>
        var name := parts[|parts| - 1];
        var rss := if |parts| >= 9 then Text.ParseLong(parts[4]).GetOr(0) else 0;
        Some(ProcessItem(pid, Text.ParseInt(parts[2]).GetOr(0), name, parts[0], Text.WrapLong(rss * 1024),
                         Running, name))
  }

  /** A field of `ps` output. */
  predicate Field(s: string) {
    s != [] && Text.NoRegexSpace(s)
  }

  /** A row as `ps -A -o USER,PID,PPID,VSZ,RSS,S,NAME` prints it, fields separated by single
      spaces. */
  function PsRow(user: string, pid: int, ppid: int, vsz: string, rss: int, state: string,
                 words: seq<string>): string
  {
    Text.Join([user, Text.Decimal(pid), Text.Decimal(ppid), vsz, Text.Decimal(rss), state] + words, " ")
  }

  /** Parsing a printed row gives back the process: its ids, owner, state, name, and its RSS
      in bytes, exact whenever that fits in 64 bits. */
  lemma PsRowRoundTrip(user: string, pid: int, ppid: int, vsz: string, rss: int, state: string,
                       words: seq<string>)
    requires Field(user) && Field(vsz) && Field(state) && |words| >= 1
    requires forall k :: 0 <= k < |words| ==> Field(words[k])
    requires !Text.IsTrimSpace(user[0])
    requires var last := words[|words| - 1]; last != [] && !Text.IsTrimSpace(last[|last| - 1])
    requires Text.IntMin <= pid <= Text.IntMax && Text.IntMin <= ppid <= Text.IntMax
    requires 0 <= rss && rss * 1024 <= Text.LongMax
    ensures ParsePsLine(PsRow(user, pid, ppid, vsz, rss, state, words))
         == Some(ProcessItem(pid, ppid, Text.Join(words, " "), user, rss * 1024, MapStatus(state),
                             Text.Join(words, " ")))
  {
    var head := [user, Text.Decimal(pid), Text.Decimal(ppid), vsz, Text.Decimal(rss), state];
    var parts := head + words;
    assert parts[..6] == head && parts[6..] == words;
    assert parts[0] == user && parts[5] == state;
    assert parts[1] == Text.Decimal(pid) && parts[2] == Text.Decimal(ppid) && parts[4] == Text.Decimal(rss);
    var line := PsRow(user, pid, ppid, vsz, rss, state, words);
    DecimalField(pid);
    DecimalField(ppid);
    DecimalField(rss);
    assert forall k :: 0 <= k < |parts| ==> Field(parts[k]) by {
      forall k | 0 <= k < |parts|
        ensures Field(parts[k])
      {
        if k >= 6 {
          assert parts[k] == words[k - 6];
        }
      }
    }
    assert parts[|parts| - 1] == words[|words| - 1];
    RowSplits(parts, line);
    ParseRow(line, parts, pid, ppid, rss);
  }

  /** A number printed in decimal is one field. */
  lemma DecimalField(n: int)
    ensures Field(Text.Decimal(n))
  {
    var s := Text.Decimal(n);
    forall k | 0 <= k < |s|
      ensures !Text.IsRegexSpace(s[k])
    {
      if n < 0 && k > 0 {
        assert s[k] == Text.Digits(-n)[k - 1];
        assert Text.IsDigit(Text.Digits(-n)[k - 1]);
      } else if n >= 0 {
        assert Text.IsDigit(s[k]);
      }
    }
  }

  /** Fields joined by single spaces, with nothing to trim at either end, split back. */
  lemma RowSplits(parts: seq<string>, line: string)
    requires |parts| >= 1 && forall k :: 0 <= k < |parts| ==> Field(parts[k])
    requires line == Text.Join(parts, " ")
    requires parts[0] != [] && !Text.IsTrimSpace(parts[0][0])
    requires var last := parts[|parts| - 1]; last != [] && !Text.IsTrimSpace(last[|last| - 1])
    ensures Fields(line) == parts
  {
    Text.JoinStartsWith(parts, " ");
    Text.TrimUnchanged(line);
    Text.SplitJoin(parts);
  }

  /** `ParsePsLine` on a line whose fields are known. */
  lemma ParseRow(line: string, parts: seq<string>, pid: int, ppid: int, rss: int)
    requires Fields(line) == parts && |parts| >= 7
    requires parts[1] == Text.Decimal(pid) && parts[2] == Text.Decimal(ppid) && parts[4] == Text.Decimal(rss)
    requires Text.IntMin <= pid <= Text.IntMax && Text.IntMin <= ppid <= Text.IntMax
    requires 0 <= rss && rss * 1024 <= Text.LongMax
    ensures ParsePsLine(line)
         == Some(ProcessItem(pid, ppid, Text.Join(parts[6..], " "), parts[0], rss * 1024, MapStatus(parts[5]),
                             Text.Join(parts[6..], " ")))
  {
    Text.ParseDecimal(pid, Text.IntMin, Text.IntMax);
    Text.ParseDecimal(ppid, Text.IntMin, Text.IntMax);
    Text.ParseDecimal(rss, Text.LongMin, Text.LongMax);
  }

  // ---- reading `ps` output ----

  /** The parser a listing uses: `parsePsLineGeneric` for the fallback, else `parsePsLine`. */
  function ParseRowWith(generic: bool, line: string): Option<ProcessItem> {
    if generic then ParsePsLineGeneric(line) else ParsePsLine(line)
  }

  /** The processes parsed from `lines`, in order, unparseable lines skipped. */
  function ParsedRows(lines: seq<string>, generic: bool): seq<ProcessItem>
    decreases |lines|
  {
    if lines == [] then []
    else ParsedRows(lines[..|lines| - 1], generic) + ParseRowWith(generic, lines[|lines| - 1]).ToSeq()
  }

  /** What a listing returns for the whole output of `ps`: the first line is a header. */
  function Listed(lines: seq<string>, generic: bool): seq<ProcessItem> {
    if lines == [] then [] else ParsedRows(lines[1..], generic)
  }

  /** Rows of two runs of lines come out in the order of the lines. */
  lemma {:induction false} ParsedRowsAppend(a: seq<string>, b: seq<string>, generic: bool)
    ensures ParsedRows(a + b, generic) == ParsedRows(a, generic) + ParsedRows(b, generic)
    decreases |b|
  {
    if b == [] {
      assert a + b == a;
    } else {
      var b' := b[..|b| - 1];
      assert (a + b)[..|a + b| - 1] == a + b';
      ParsedRowsAppend(a, b', generic);
    }
  }

  /** Every listed process is what its parser made of some line after the header; no more
      processes than lines are listed. */
  lemma {:induction false} ParsedRowsFrom(lines: seq<string>, generic: bool)
    ensures |ParsedRows(lines, generic)| <= |lines|
    ensures forall p :: p in ParsedRows(lines, generic) ==>
              exists k :: 0 <= k < |lines| && ParseRowWith(generic, lines[k]) == Some(p)
    decreases |lines|
  {
    if lines != [] {
      var init := lines[..|lines| - 1];
      ParsedRowsFrom(init, generic);
      forall p | p in ParsedRows(lines, generic)
        ensures exists k :: 0 <= k < |lines| && ParseRowWith(generic, lines[k]) == Some(p)
      {
        if p in ParsedRows(init, generic) {
          var k :| 0 <= k < |init| && ParseRowWith(generic, init[k]) == Some(p);
          assert lines[k] == init[k];
        } else {
          assert ParseRowWith(generic, lines[|lines| - 1]) == Some(p);
        }
      }
    }
  }

  /** The header line is never parsed: whatever it says, the listing is the same. */
  lemma HeaderIgnored(header: string, other: string, rows: seq<string>, generic: bool)
    ensures Listed([header] + rows, generic) == Listed([other] + rows, generic)
  {
    assert ([header] + rows)[1..] == rows == ([other] + rows)[1..];
  }

  /** One more line after the header adds that line's process, if it parses. */
  lemma ParsedRowsNext(lines: seq<string>, k: nat, generic: bool)
    requires 1 <= k < |lines|
    ensures ParsedRows(lines[1..k + 1], generic)
            == ParsedRows(lines[1..k], generic) + ParseRowWith(generic, lines[k]).ToSeq()
  {
    var done := lines[1..k + 1];
    assert done[..|done| - 1] == lines[1..k] && done[|done| - 1] == lines[k];
  }

  /** The read loop of either listing: skip the header, then parse each line into the list. */
  method ReadRows(lines: seq<string>, generic: bool) returns (processes: seq<ProcessItem>)
    ensures processes == Listed(lines, generic)
  {
    processes := [];
    if lines == [] {
      return;
    }
    for k := 1 to |lines|
      invariant processes == ParsedRows(lines[1..k], generic)
    {
      ParsedRowsNext(lines, k, generic);
      var row := ParseRowWith(generic, lines[k]);
      if row.Some? {
        processes := processes + [row.value];
      }
    }
    assert lines[1..|lines|] == lines[1..];
  }

  // ---- the device ----

  datatype Host = Host(
    /** What `su -c "ps -A -o ..."` prints; `None` when starting it throws. */
    psRoot: Option<seq<string>>,
    /** What `ps -A` prints; `None` when starting it throws. */
    psAll: Option<seq<string>>,
    /** Exit status of `su -c "kill -9 <pid>"`, per pid; absent when starting it throws. */
    suKill: map<int, int>,
    /** Pids for which `android.os.Process.killProcess` throws. */
    killThrows: set<int>,
    /** Exit status of the plain `kill -9 <pid>`, per pid; absent when starting it throws. */
    shellKill: map<int, int>)

  /** `listProcesses`: the root listing when root is available and its `ps` starts, else
      the fallback listing, which is empty when its `ps` does not start either. */
  function ProcessList(root: bool, host: Host): seq<ProcessItem> {
    if root && host.psRoot.Some? then Listed(host.psRoot.value, false)
    else if host.psAll.Some? then Listed(host.psAll.value, true)
    else []
  }

  method ListProcesses(root: bool, host: Host) returns (processes: seq<ProcessItem>)
    ensures processes == ProcessList(root, host)
  {
    if root && host.psRoot.Some? {
      processes := ReadRows(host.psRoot.value, false);
      return;
    }
    processes := [];
    if host.psAll.Some? {
      processes := ReadRows(host.psAll.value, true);
    }
  }

  /** A listing never fails: each path answers with rows parsed from its own `ps` output,
      and the fallback rows all say "Running". */
  lemma ProcessListRows(root: bool, host: Host)
    ensures var r := ProcessList(root, host);
            && (root && host.psRoot.Some? ==>
                  forall p :: p in r ==>
                    exists k :: 1 <= k < |host.psRoot.value| && ParsePsLine(host.psRoot.value[k]) == Some(p))
            && (!(root && host.psRoot.Some?) ==> forall p :: p in r ==> p.status == Running)
  {
    var r := ProcessList(root, host);
    if root && host.psRoot.Some? {
      var lines := host.psRoot.value;
      if lines != [] {
        ParsedRowsFrom(lines[1..], false);
        forall p | p in r
          ensures exists k :: 1 <= k < |lines| && ParsePsLine(lines[k]) == Some(p)
        {
          var j :| 0 <= j < |lines[1..]| && ParseRowWith(false, lines[1..][j]) == Some(p);
          assert lines[j + 1] == lines[1..][j];
        }
      }
    } else if host.psAll.Some? && host.psAll.value != [] {
      var lines := host.psAll.value;
      ParsedRowsFrom(lines[1..], true);
    }
  }

  /** `killProcess`: with root, `su -c kill -9` decides when it starts; otherwise (or when
      it does not start) `Process.killProcess`, which counts as success unless it throws, in
      which case a plain `kill -9` decides. */
  function KillProcess(root: bool, host: Host, pid: int): (r: bool)
    ensures root && pid in host.suKill ==> (r <==> host.suKill[pid] == 0)
    ensures !(root && pid in host.suKill) && pid !in host.killThrows ==> r
    ensures !(root && pid in host.suKill) && pid in host.killThrows ==>
              (r <==> pid in host.shellKill && host.shellKill[pid] == 0)
  {
    if root && pid in host.suKill then host.suKill[pid] == 0
    else if pid !in host.killThrows then true
    else pid in host.shellKill && host.shellKill[pid] == 0
  }
}
