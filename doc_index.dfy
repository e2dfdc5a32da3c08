/** Executor A6 (tasksA.py): walk a documentation directory and map the
    relative path of each Markdown file to the title of its first `# `
    heading. */
module DocIndex {
  import opened Wrappers
  import PyStr

  /** A file as the walk lists it, with its content. */
  datatype File = File(name: string, content: string)

  /** One `(root, _, files)` triple of `os.walk(doc_dir_path)`; `dir` is
      `root` relative to `doc_dir_path`, as path components. */
  datatype WalkEntry = WalkEntry(dir: seq<string>, files: seq<File>)

  /** `(Path(root) / file).relative_to(doc_dir_path).as_posix()` */
  function RelPath(dir: seq<string>, name: string): string {
    PyStr.Join(dir + [name], '/')
  }

  /** `line.startswith("# ")` */
  predicate IsHeading(line: string) {
    PyStr.StartsWith(line, "# ")
  }

  /** `line[2:].strip()` */
  function Title(line: string): string
    requires IsHeading(line)
  {
    PyStr.Strip(line[2..])
  }

  /** The title of the first heading line, if any. */
  function FirstHeading(lines: seq<string>): Option<string> {
    if lines == [] then None
    else if IsHeading(lines[0]) then Some(Title(lines[0]))
    else FirstHeading(lines[1..])
  }

  /** There is a title exactly when some line is a heading, and it is the
      title of the first one. */
  lemma {:induction false} FirstHeadingIsFirst(lines: seq<string>)
    ensures FirstHeading(lines).None? <==> forall k | 0 <= k < |lines| :: !IsHeading(lines[k])
    ensures FirstHeading(lines).Some? ==> exists k | 0 <= k < |lines| ::
      IsHeading(lines[k]) && (forall m | 0 <= m < k :: !IsHeading(lines[m])) && FirstHeading(lines).value == Title(lines[k])
  {
    if lines != [] && !IsHeading(lines[0]) {
      var rest := lines[1..];
      FirstHeadingIsFirst(rest);
      if FirstHeading(rest).Some? {
        var k :| 0 <= k < |rest| && IsHeading(rest[k])
          && (forall m | 0 <= m < k :: !IsHeading(rest[m])) && FirstHeading(rest).value == Title(rest[k]);
        assert IsHeading(lines[k + 1]) && forall m | 0 <= m < k + 1 :: !IsHeading(lines[m]);
      } else {
        forall k | 0 <= k < |lines| ensures !IsHeading(lines[k]) {
          if k > 0 {
            assert lines[k] == rest[k - 1];
          }
        }
      }
    }
  }

  /** A heading at `k` with none before it is the first heading. */
  lemma {:induction false} FirstHeadingAt(lines: seq<string>, k: int)
    requires 0 <= k < |lines| && IsHeading(lines[k])
    requires forall m | 0 <= m < k :: !IsHeading(lines[m])
    ensures FirstHeading(lines) == Some(Title(lines[k]))
  {
    if k > 0 {
      FirstHeadingAt(lines[1..], k - 1);
    }
  }

  /** A second-level heading `## ` never counts as a title line. */
  lemma SecondLevelNeverQualifies(line: string)
    requires PyStr.StartsWith(line, "## ")
    ensures !IsHeading(line)
  {
    assert line[1] == '#';
  }

  /** The entry a file contributes: its title when it is a `.md` file with a
      heading line. */
  function EntryOf(f: File): Option<string> {
    if PyStr.EndsWith(f.name, ".md") then FirstHeading(PyStr.ReadLines(f.content)) else None
  }

  function AddFile(index: map<string, string>, dir: seq<string>, f: File): map<string, string> {
    match EntryOf(f)
    case None => index
    case Some(title) => index[RelPath(dir, f.name) := title]
  }

  /** The index after visiting `files` in order. */
  function AddFiles(index: map<string, string>, dir: seq<string>, files: seq<File>): map<string, string> {
    if files == [] then index
    else AddFile(AddFiles(index, dir, files[..|files| - 1]), dir, files[|files| - 1])
  }

  /** `index_data` after the whole walk. */
  function IndexOf(walk: seq<WalkEntry>): map<string, string> {
    if walk == [] then map[]
    else
      var last := walk[|walk| - 1];
      AddFiles(IndexOf(walk[..|walk| - 1]), last.dir, last.files)
  }

  /** A6 as a whole: the index it dumps to the output file. */
  method A6(walk: seq<WalkEntry>) returns (index: map<string, string>)
    ensures index == IndexOf(walk)
  {
    index := map[];
    for d := 0 to |walk|
      invariant index == IndexOf(walk[..d])
    {
      var entry := walk[d];
      ghost var before := IndexOf(walk[..d]);
      for f := 0 to |entry.files|
        invariant index == AddFiles(before, entry.dir, entry.files[..f])
      {
        var file := entry.files[f];
        ghost var current := index;
        if PyStr.EndsWith(file.name, ".md") {
          var lines := PyStr.ReadLines(file.content);
          for k := 0 to |lines|
            invariant index == current
            invariant forall m | 0 <= m < k :: !IsHeading(lines[m])
          {
            if PyStr.StartsWith(lines[k], "# ") {
              var title := PyStr.Strip(lines[k][2..]);
              index := index[RelPath(entry.dir, file.name) := title];
              FirstHeadingAt(lines, k);
              break;
            }
          }
          FirstHeadingIsFirst(lines);
        }
        assert index == AddFile(current, entry.dir, file);
        assert entry.files[..f + 1][..f] == entry.files[..f];
      }
      assert entry.files[..|entry.files|] == entry.files;
      assert walk[..d + 1][..d] == walk[..d];
    }
    assert walk[..|walk|] == walk;
  }

  /** File `i` of directory `d` in the walk is a `.md` file with a heading,
      found at path `k` with title `t`. */
  predicate Contributes(walk: seq<WalkEntry>, d: int, i: int, k: string, t: string) {
    && 0 <= d < |walk| && 0 <= i < |walk[d].files|
    && RelPath(walk[d].dir, walk[d].files[i].name) == k
    && EntryOf(walk[d].files[i]) == Some(t)
  }

  /** A key is present after visiting `files` exactly when it was present
      before or some visited file supplies a title under it. */
  lemma {:induction false} AddFilesKeys(index: map<string, string>, dir: seq<string>, files: seq<File>, k: string)
    ensures k in AddFiles(index, dir, files) <==>
      k in index || exists i | 0 <= i < |files| :: RelPath(dir, files[i].name) == k && EntryOf(files[i]).Some?
  {
    if files != [] {
      var init, f := files[..|files| - 1], files[|files| - 1];
      var before := AddFiles(index, dir, init);
      assert AddFiles(index, dir, files) == AddFile(before, dir, f);
      AddFilesKeys(index, dir, init, k);
      assert forall i | 0 <= i < |init| :: init[i] == files[i];
      if RelPath(dir, f.name) == k && EntryOf(f).Some? {
        assert k in AddFiles(index, dir, files);
      } else {
        assert k in AddFiles(index, dir, files) <==> k in before;
      }
    }
  }

  /** Every present key either kept its value from before or holds the
      title of some visited file at that path. */
  lemma {:induction false} AddFilesValues(index: map<string, string>, dir: seq<string>, files: seq<File>, k: string)
    requires k in AddFiles(index, dir, files)
    ensures (k in index && AddFiles(index, dir, files)[k] == index[k]) ||
      exists i | 0 <= i < |files| :: RelPath(dir, files[i].name) == k && EntryOf(files[i]) == Some(AddFiles(index, dir, files)[k])
  {
    if files != [] {
      var init, f := files[..|files| - 1], files[|files| - 1];
      var before := AddFiles(index, dir, init);
      var after := AddFiles(index, dir, files);
      assert after == AddFile(before, dir, f);
      if RelPath(dir, f.name) == k && EntryOf(f).Some? {
        assert EntryOf(files[|files| - 1]) == Some(after[k]);
      } else {
        assert k in before && after[k] == before[k];
        AddFilesValues(index, dir, init, k);
        assert forall i | 0 <= i < |init| :: init[i] == files[i];
      }
    }
  }

  /** The index keys are exactly the relative paths of the `.md` files that
      have a line starting with `# `, and each value is the title of such a
      file at that path. */
  lemma {:induction false} IndexEntries(walk: seq<WalkEntry>, k: string)
    ensures k in IndexOf(walk) <==> exists d, i, t :: Contributes(walk, d, i, k, t)
    ensures k in IndexOf(walk) ==> exists d, i :: Contributes(walk, d, i, k, IndexOf(walk)[k])
  {
    if walk != [] {
      var init := walk[..|walk| - 1];
      var last := walk[|walk| - 1];
      var d := |walk| - 1;
      IndexEntries(init, k);
      AddFilesKeys(IndexOf(init), last.dir, last.files, k);
      if k in IndexOf(walk) {
        AddFilesValues(IndexOf(init), last.dir, last.files, k);
      }
      forall d', i, t | Contributes(init, d', i, k, t) ensures Contributes(walk, d', i, k, t) {
        assert init[d'] == walk[d'];
      }
      forall d', i, t | Contributes(walk, d', i, k, t) && d' < d ensures Contributes(init, d', i, k, t) {
        assert init[d'] == walk[d'];
      }
      if k in IndexOf(walk) {
        if i :| 0 <= i < |last.files| && RelPath(last.dir, last.files[i].name) == k && EntryOf(last.files[i]) == Some(IndexOf(walk)[k]) {
          assert Contributes(walk, d, i, k, IndexOf(walk)[k]);
        }
        if i :| 0 <= i < |last.files| && RelPath(last.dir, last.files[i].name) == k && EntryOf(last.files[i]).Some? {
          assert Contributes(walk, d, i, k, EntryOf(last.files[i]).value);
        }
      }
    }
  }

  /** When no two files share a relative path, each `.md` file with a
      heading is indexed under its path with its own first title. */
  lemma IndexedTitle(walk: seq<WalkEntry>, d: int, i: int)
    requires 0 <= d < |walk| && 0 <= i < |walk[d].files|
    requires EntryOf(walk[d].files[i]).Some?
    requires forall d1, i1, d2, i2 |
      0 <= d1 < |walk| && 0 <= i1 < |walk[d1].files| && 0 <= d2 < |walk| && 0 <= i2 < |walk[d2].files| &&
      RelPath(walk[d1].dir, walk[d1].files[i1].name) == RelPath(walk[d2].dir, walk[d2].files[i2].name) ::
      d1 == d2 && i1 == i2
    ensures var k := RelPath(walk[d].dir, walk[d].files[i].name);
      k in IndexOf(walk) && IndexOf(walk)[k] == EntryOf(walk[d].files[i]).value
  {
    var k := RelPath(walk[d].dir, walk[d].files[i].name);
    IndexEntries(walk, k);
    assert Contributes(walk, d, i, k, EntryOf(walk[d].files[i]).value);
  }
}
