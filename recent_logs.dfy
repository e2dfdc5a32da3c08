/** Executor A5 (tasksA.py): write the first line of each of the most
    recently modified `.log` files of a directory, newest first. */
module RecentLogs {
  import opened Wrappers
  import opened JsonValues
  import PyStr
  import StableSort

  /** A directory entry with its modification time and its content. */
  datatype LogFile = LogFile(name: string, mtime: int, content: string)

  /** `log_dir.glob("*.log")`: the entries named `*.log`, in directory
      order. */
  function Globbed(entries: seq<LogFile>): (r: seq<LogFile>)
    ensures |r| <= |entries|
  {
    if entries == [] then []
    else (if IsLog(entries[0]) then [entries[0]] else []) + Globbed(entries[1..])
  }

  /** The entry matches `*.log`. */
  predicate IsLog(f: LogFile) {
    PyStr.EndsWith(f.name, ".log")
  }

  /** The globbed entries are exactly the entries named `*.log`. */
  lemma {:induction false} GlobbedMembers(entries: seq<LogFile>)
    ensures forall f :: f in Globbed(entries) <==> f in entries && PyStr.EndsWith(f.name, ".log")
  {
    if entries != [] {
      GlobbedMembers(entries[1..]);
      assert entries == [entries[0]] + entries[1..];
    }
  }

  /** Globbing picks the entries named `*.log` as a filter does. */
  lemma {:induction false} GlobbedFilters(entries: seq<LogFile>)
    ensures Globbed(entries) == StableSort.WithKey(entries, IsLog, true)
  {
    if entries != [] {
      GlobbedFilters(entries[1..]);
    }
  }

  /** Globbing keeps directory order: it works part by part over a
      concatenation. */
  lemma GlobbedAppend(a: seq<LogFile>, b: seq<LogFile>)
    ensures Globbed(a + b) == Globbed(a) + Globbed(b)
  {
    GlobbedFilters(a + b);
    GlobbedFilters(a);
    GlobbedFilters(b);
    StableSort.WithKeyAppend(a, b, IsLog, true);
  }

  /** A single entry is kept exactly when it is named `*.log`. */
  lemma GlobbedOne(f: LogFile)
    ensures Globbed([f]) == if PyStr.EndsWith(f.name, ".log") then [f] else []
  {
    assert [f][1..] == [];
  }

  function Mtime(f: LogFile): int {
    f.mtime
  }

  /** The comparison `reverse=True` sorts by: a later time comes first.
      Python reverses the list around a stable sort, so entries with equal
      times keep their order; that is a stable sort under this comparison. */
  predicate Later(a: int, b: int) {
    a > b
  }

  /** `s[:n]`, where a negative `n` counts from the end. */
  function SliceTo<T>(s: seq<T>, n: int): (r: seq<T>)
    ensures n >= 0 ==> |r| == if n < |s| then n else |s|
    ensures n < 0 ==> |r| == if |s| + n > 0 then |s| + n else 0
    ensures r == s[..|r|]
  {
    if n >= 0 then (if n < |s| then s[..n] else s)
    else (if |s| + n > 0 then s[..|s| + n] else [])
  }

  /** `sorted(log_dir.glob("*.log"), key=os.path.getmtime, reverse=True)` */
  function NewestFirst(entries: seq<LogFile>): seq<LogFile> {
    StableSort.Sort(Globbed(entries), Mtime, Later)
  }

  /** The `log_files` A5 reads, `num_files` of them at most. */
  function RecentLogs(entries: seq<LogFile>, numFiles: int): seq<LogFile> {
    SliceTo(NewestFirst(entries), numFiles)
  }

  /** `f_in.readline().strip()` for one log file. */
  function FirstLine(f: LogFile): string {
    PyStr.Strip(PyStr.ReadLine(f.content))
  }

  /** What the loop writes for `logs`: each first line followed by "\n". */
  function Render(logs: seq<LogFile>): string {
    if logs == [] then ""
    else Render(logs[..|logs| - 1]) + FirstLine(logs[|logs| - 1]) + "\n"
  }

  /** `str(e)` of the `TypeError` a slice bound that is not an integer or
      `None` raises. */
  const SliceTypeError: string := "slice indices must be integers or None or have an __index__ method"

  /** `sorted(...)[:num_files]` for the `num_files` that arrives, which is
      whatever JSON value the arguments held: `null` takes every log file,
      a boolean acts as 1 or 0, and any other value but an integer raises. */
  function Chosen(entries: seq<LogFile>, numFiles: Json): Result<seq<LogFile>, string> {
    match numFiles
    case JNull => Success(NewestFirst(entries))
    case JBool(b) => Success(RecentLogs(entries, if b then 1 else 0))
    case JInt(i) => Success(RecentLogs(entries, i))
    case _ => Failure(SliceTypeError)
  }

  /** A5 as a whole: the text it leaves in the output file, or the error
      raised by the slice, before the output file is opened. */
  method A5(entries: seq<LogFile>, numFiles: Json) returns (written: Result<string, string>)
    ensures Chosen(entries, numFiles).Failure? ==> written == Failure(Chosen(entries, numFiles).error)
    ensures Chosen(entries, numFiles).Success? ==> written == Success(Render(Chosen(entries, numFiles).value))
  {
    var chosen := Chosen(entries, numFiles);
    if chosen.Failure? {
      return Failure(chosen.error);
    }
    var logFiles := chosen.value;
    var out := "";
    for k := 0 to |logFiles|
      invariant out == Render(logFiles[..k])
    {
      assert logFiles[..k + 1][..k] == logFiles[..k];
      out := out + FirstLine(logFiles[k]) + "\n";
    }
    assert logFiles[..|logFiles|] == logFiles;
    written := Success(out);
  }

  /** A `num_files` of `null` reads every log file, newest first. */
  lemma NullNumFilesReadsEveryLog(entries: seq<LogFile>)
    ensures Chosen(entries, JNull).Success?
    ensures multiset(Chosen(entries, JNull).value) == multiset(Globbed(entries))
    ensures StableSort.SortedBy(Chosen(entries, JNull).value, Mtime, Later)
  {
    StableSort.SortSorted(Globbed(entries), Mtime, Later);
  }

  /** `true` and `false` read as many files as 1 and 0 do. */
  lemma BooleanNumFilesIsInteger(entries: seq<LogFile>, b: bool)
    ensures Chosen(entries, JBool(b)) == Chosen(entries, JInt(if b then 1 else 0))
    ensures |Chosen(entries, JBool(b)).value| <= 1
  {
  }

  /** A string, list or object as `num_files` makes A5 raise the slice's
      `TypeError`, whatever the directory holds. */
  lemma NonIntegerNumFilesRaises(entries: seq<LogFile>, numFiles: Json)
    ensures Chosen(entries, numFiles).Failure? <==> !(numFiles.JNull? || numFiles.JBool? || numFiles.JInt?)
    ensures Chosen(entries, numFiles).Failure? ==> Chosen(entries, numFiles).error == SliceTypeError
  {
  }

  /** For `num_files` of 0 or more, A5 reads min(num_files, number of log
      files) files. */
  lemma RecentCount(entries: seq<LogFile>, numFiles: int)
    requires numFiles >= 0
    ensures |RecentLogs(entries, numFiles)| == if numFiles < |Globbed(entries)| then numFiles else |Globbed(entries)|
  {
  }

  /** The files read are `.log` entries of the directory, newest first. */
  lemma RecentAreNewestFirst(entries: seq<LogFile>, numFiles: int)
    ensures forall f | f in RecentLogs(entries, numFiles) :: f in entries && PyStr.EndsWith(f.name, ".log")
    ensures forall i, j | 0 <= i < j < |RecentLogs(entries, numFiles)| ::
      RecentLogs(entries, numFiles)[i].mtime >= RecentLogs(entries, numFiles)[j].mtime
  {
    var s := NewestFirst(entries);
    var r := RecentLogs(entries, numFiles);
    StableSort.SortSorted(Globbed(entries), Mtime, Later);
    GlobbedMembers(entries);
    forall f | f in r ensures f in entries && PyStr.EndsWith(f.name, ".log") {
      assert f in multiset(s);
    }
  }

  /** In a newest-first list, everything before position `m` is at least as
      recent as everything from `m` on. */
  lemma PrefixIsNewer(s: seq<LogFile>, m: int)
    requires StableSort.SortedBy(s, Mtime, Later)
    requires 0 <= m <= |s|
    ensures forall f, g | f in s[..m] && g in multiset(s[m..]) :: f.mtime >= g.mtime
  {
    forall f, g | f in s[..m] && g in multiset(s[m..]) ensures f.mtime >= g.mtime {
      var i :| 0 <= i < m && s[..m][i] == f;
      var j :| 0 <= j < |s| - m && s[m..][j] == g;
      assert !Later(Mtime(s[m + j]), Mtime(s[i]));
    }
  }

  lemma NewestFirstSplits(entries: seq<LogFile>, m: int)
    requires 0 <= m <= |NewestFirst(entries)|
    ensures var s := NewestFirst(entries);
      forall f, g | f in s[..m] && g in multiset(s[m..]) :: f.mtime >= g.mtime
  {
    StableSort.SortSorted(Globbed(entries), Mtime, Later);
    PrefixIsNewer(NewestFirst(entries), m);
  }

  /** No log file left out is newer than one that is read. */
  lemma LeftOutAreNotNewer(entries: seq<LogFile>, numFiles: int)
    ensures forall f, g | f in RecentLogs(entries, numFiles) && g in multiset(Globbed(entries)) - multiset(RecentLogs(entries, numFiles)) ::
      f.mtime >= g.mtime
  {
    var s := NewestFirst(entries);
    var r := RecentLogs(entries, numFiles);
    var m := |r|;
    NewestFirstSplits(entries, m);
    assert r == s[..m];
    assert s == r + s[m..];
    assert multiset(Globbed(entries)) - multiset(r) == multiset(s[m..]);
    forall f, g | f in r && g in multiset(Globbed(entries)) - multiset(r) ensures f.mtime >= g.mtime {
      assert f in s[..m] && g in multiset(s[m..]);
    }
  }

  /** Log files with the same modification time are read in directory
      order. */
  lemma EqualTimesKeepDirectoryOrder(entries: seq<LogFile>, t: int)
    ensures StableSort.WithKey(NewestFirst(entries), Mtime, t) == StableSort.WithKey(Globbed(entries), Mtime, t)
  {
    StableSort.SortStable(Globbed(entries), Mtime, Later, t);
  }

  /** The first lines, one per file. */
  function Lines(logs: seq<LogFile>): (r: seq<string>)
    ensures |r| == |logs|
    ensures forall k | 0 <= k < |logs| :: r[k] == FirstLine(logs[k])
  {
    seq(|logs|, k requires 0 <= k < |logs| => FirstLine(logs[k]))
  }

  lemma {:induction false} RenderIsJoin(logs: seq<LogFile>)
    requires logs != []
    ensures Render(logs) == PyStr.Join(Lines(logs), '\n') + "\n"
  {
    var init := logs[..|logs| - 1];
    if init != [] {
      RenderIsJoin(init);
      PyStr.JoinLast(Lines(logs), '\n');
      assert Lines(logs)[..|logs| - 1] == Lines(init);
    }
  }

  /** Read back with `split("\n")`, the output holds the first line of each
      file read, in order, then the empty text after the final newline. */
  lemma OutputLines(logs: seq<LogFile>)
    ensures PyStr.Split(Render(logs), '\n') == Lines(logs) + [""]
  {
    var pieces := Lines(logs) + [""];
    forall k | 0 <= k < |pieces| ensures '\n' !in pieces[k] {
      if k < |logs| {
        PyStr.StrippedLineHasNoNewline(logs[k].content);
      }
    }
    if logs == [] {
      assert PyStr.Join(pieces, '\n') == "" == Render(logs);
    } else {
      RenderIsJoin(logs);
      PyStr.JoinLast(pieces, '\n');
      assert pieces[..|pieces| - 1] == Lines(logs);
      assert PyStr.Join(pieces, '\n') == Render(logs);
    }
    PyStr.SplitJoin(pieces, '\n');
  }
}
