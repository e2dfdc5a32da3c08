# Task dispatch and tasksA executors, modelled in Dafny

The service takes a free-text task. It asks a hosted language model which
operation of a fixed catalogue of sixteen (`A1`–`A10`, `B12`, `B3`, `B5`,
`B6`, `B7`, `B9`) the request asks for, and runs that operation with the arguments
the model supplies. This project models two parts of it:

- **app.py**, which is pure:
  - the constant catalogue `function_definitions_llm` (`catalogue.dfy`);
  - the `run_task` endpoint (`dispatch.dfy`). That is an if/elif chain from
    the operation name to an executor, and a single `except` that turns any
    exception into HTTP 400.
- **tasksA.py**, the executors that transform data:
  - A3, count the dates on a weekday (`date_count.dfy`);
  - A4, sort contacts (`contact_sort.dfy`);
  - A5, first lines of the newest logs (`recent_logs.dfy`);
  - A6, Markdown title index (`doc_index.dfy`);
  - A7, e-mail sender (`email_sender.dfy`);
  - A9, the most similar pair of comments (`similar_comments.dfy`);
  - A10, the gold ticket total (`gold_sales.dfy`).

  A3, A4 and A10 are expressions, so they are modelled as functions. A5, A6,
  A7 and A9 loop and update variables, so they are methods with loop
  invariants. Each method is proved against a specification function, or
  against a predicate for A9.

Shared pieces:
- `pystr.dfy` holds the Python `str` operations the executors use: `strip`,
  `startswith`, `endswith`, `split`, `join`, `replace`, `readline`,
  `readlines`, `str(int)`/`int(str)` and `<` on strings.
- `stable_sort.dfy` holds Python's stable `sorted`. With `reverse=True` it is
  the same stable sort under the reversed comparison.
- `json.dfy` holds the JSON values `json.loads` produces, and Python's `==`
  between one of them and an `int`.
- `pattern.dfy` holds the part of Python's `re.search` that the catalogue's
  path patterns use: literals, `\` escapes of punctuation, `.`, `.*` and
  grouping parentheses.
- `wrappers.dfy` holds `Option` and `Result`. A `Failure` carries `str(e)` of
  the Python exception.

The outside world becomes parameters:
- `get_completions`, `json.loads` and the executor calls of `run_task` are the
  function parameters `classify`, `decode` and `execute`.
- `dateutil.parser.parse(...).weekday()` is `weekdayOf`.
- The embedding cosine distance is an integer-valued `distance(i, j)`.
- `repr` of floats and bytes is a parameter.
- Directory contents are values: a list of `(name, mtime, content)` for A5,
  and the `os.walk` triples for A6.

What the code does not do:
- `run_task` validates nothing against the catalogue: no required-key check,
  no pattern check, no defaults.
- A name outside the catalogue runs nothing and still answers with the
  success message; there is no "unknown operation" error.
- Every failure, including one inside an executor, is a 400 with `str(e)`.
- No executor in tasksA.py checks its paths against a sandbox root.
- The declared defaults are never held against their own patterns, and most
  would fail them. Every default has its declared type and meets its
  minimum. But of the twelve string defaults of A5–A10, only `/data/logs` and
  `/data/docs` are found by their patterns. The ten default file paths
  (`/data/logs-recent.txt`, `/data/docs/index.json` and so on) are not found
  by `./(.\.ext)`. That pattern needs a one-character path segment before
  `.ext`, and none of them has one (`default_patterns.dfy`).

## Model

| member | source | states |
|---|---|---|
| Catalogue.DefinitionsNamesDistinct | app.py:33-349 | the catalogue has exactly sixteen operations and their names are pairwise distinct |
| Catalogue.CatalogueNames | app.py:33-349 | the catalogue's names, in order, are A1…A10, B12, B3, B5, B6, B7, B9 |
| Catalogue.OperationNamesDistinct | app.py:33-349 | the sixteen operation names are pairwise distinct |
| Catalogue.A1RequiresUndeclared | app.py:34-46 | A1 declares only `email` but requires `filename` and `targetfile` as well, so its required list is not covered by its properties |
| Catalogue.RequiredDeclaredA | app.py:47-217 | each of A2–A10 declares every parameter it requires |
| Catalogue.RequiredDeclaredB | app.py:218-347 | each B operation declares every parameter it requires |
| Catalogue.OnlyA1RequiresUndeclared | app.py:33-349 | a catalogue entry requires an undeclared parameter if and only if it is A1 |
| Catalogue.NumFilesDefaultConforms | app.py:106-110 | A5's `num_files` is an integer of minimum 1 whose default 10 satisfies its own schema |
| Catalogue.ResizeIsOptionalPair | app.py:314-325 | B7's `resize` is not required; an array of any length but 2 violates its schema, and a pair of integers conforms exactly when both are at least 1 |
| Catalogue.PositivePairSchema | app.py:314-323 | an array schema with minItems = maxItems = 2 and integer items of minimum 1 admits exactly the pairs of positive integers |
| Catalogue.NoDefaultsOutsideA5ToA10 | app.py:33-349 | A1–A4 and the six B operations declare no default at all |
| PathPatterns.FileMatchNeedsSlashDot | app.py:103 | a match of `./(.\.ext)` puts a slash one place after its start and a dot two places after that slash |
| PathPatterns.FileSearchMisses | app.py:103 | a text with no slash followed two places later by a dot is never found by `./(.\.ext)`, whatever the extension |
| PathPatterns.LongSegmentsHaveNoSlashDot | app.py:104 | a `/`-separated path whose segments all have at least two characters, the second not a dot, has no slash with a dot two places after it |
| PathPatterns.LongSegmentPathMisses | app.py:103-104 | such a path is never found by `./(.\.ext)` |
| DefaultPatterns.DefaultsA5 | app.py:90-114 | A5's defaults have their declared types and meet the minimum; `/data/logs` is found by `.*/logs`; `/data/logs-recent.txt` is not found by `./(.\.txt)` |
| DefaultPatterns.DefaultsA6 | app.py:115-134 | A6's defaults have their declared types; `/data/docs` is found by `.*/docs`; `/data/docs/index.json` is not found by `./(.\.json)` |
| DefaultPatterns.DefaultsA7 | app.py:135-154 | A7's defaults have their declared types; neither default is found by `./(.\.txt)` |
| DefaultPatterns.DefaultsA8 | app.py:155-174 | A8's defaults have their declared types; neither is found by its pattern, `./(.\.txt)` or `./(.\.png)` |
| DefaultPatterns.DefaultsA9 | app.py:175-194 | A9's defaults have their declared types; neither default is found by `./(.\.txt)` |
| DefaultPatterns.DefaultsA10 | app.py:195-217 | A10's defaults have their declared types; neither is found by its pattern, `./(.\.db)` or `./(.\.txt)`; `query` has no default |
| Dispatch.DescriptorOf | app.py:33-349 | the descriptor of an executor is an entry of the catalogue and carries that executor's name |
| Dispatch.Route | app.py:383-414 | a branch is chosen only for the name it tests |
| Dispatch.FirstBranch | app.py:383-414 | the first branch of a chain whose name equals the task code, found when some branch tests for it and only then |
| Dispatch.RouteIsFirstMatchingBranch | app.py:383-414 | for every name, the if/elif chain picks the first of the sixteen branches, in order, that tests for that name, and none when no branch does |
| Dispatch.RouteReachesEveryHandler | app.py:383-414 | every executor is reached by its own name, and no two executors share a name |
| Dispatch.RouteCoversNames | app.py:383-414 | a name selects a branch if and only if it is one of the sixteen operation names |
| Dispatch.RouteCoversCatalogue | app.py:383-414 | a name selects a branch if and only if it is a name in the catalogue |
| Dispatch.BranchNames | app.py:383-414 | the branches compare against the operation names, in catalogue order |
| Dispatch.BranchesFollowCatalogue | app.py:383-414 | there is one branch per catalogue entry, tried in catalogue order |
| Dispatch.RunTask | app.py:376-418 | at most one executor is invoked, only after classification succeeds, and only the routed one with the decoded arguments; a success carries `Task '<task>' executed successfully` and every error has status 400 |
| Dispatch.UnknownNameSucceeds | app.py:383-416 | a name outside the catalogue invokes nothing and the reply is the success message, whatever the arguments text holds |
| Dispatch.ArgumentsReachExecutorUnchecked | app.py:383-416 | a catalogue name invokes exactly its executor with the decoded arguments unchanged; the reply is a success exactly when the executor returns |
| Dispatch.FailuresBecome400 | app.py:377-418 | a failure of classification, of `json.loads` or of the executor becomes `Error(400, str(e))`; only the last of these follows an invocation |
| Dispatch.SuccessIffNoStageFails | app.py:377-418 | the reply is the success message if and only if no stage that runs raises |
| Dispatch.ParametersMatchCatalogueA1ToA5 | tasksA.py:21-83 | the keyword parameters of A1–A5 are the properties their descriptors declare, in order |
| Dispatch.ParametersMatchCatalogueA6ToA10 | tasksA.py:94-196 | the keyword parameters of A6–A10 are the properties their descriptors declare, in order |
| Dispatch.ParametersMatchCatalogue | tasksA.py:21-196 | every tasksA executor accepts exactly the properties its descriptor declares |
| Dispatch.A1RequiredArgumentsCannotBind | app.py:44 | arguments that supply A1's required `filename` cannot bind to `A1(email=...)`, and A1's descriptor does require `filename` |
| Dispatch.A1RequiredArgumentsGive400 | app.py:383-418 | when A1 is chosen with arguments holding its required `filename`, and a call whose arguments do not bind raises, A1 is invoked once and the reply is an error with status 400 |
| Dispatch.SchemaViolationReachesExecutor | app.py:391-392 | a `num_files` below the declared minimum of 1 violates A5's schema, yet it binds and A5 is invoked with it |
| DateCount.CountWeekday | tasksA.py:62 | the count exists exactly when every line parses, and it is at most the number of lines |
| DateCount.CountIsNumberOfMatches | tasksA.py:62 | the count is the number of lines whose stripped text parses to a weekday that compares equal to the `weekday` argument |
| DateCount.A3 | tasksA.py:53-70 | a missing file writes nothing; otherwise the written text is `str` of the number of matching lines, which reads back as that number, and it is written only when every line parses |
| DateCount.NonNumericWeekdayWritesZero | app.py:67 | a weekday given as a day name, as the descriptor's pattern suggests, or as any other JSON value but a number or a boolean, makes A3 write "0" |
| DateCount.BooleanWeekdayIsInteger | tasksA.py:62 | a boolean weekday counts as the integer 1 or 0, since Python compares `True == 1` |
| DateCount.WrittenIffAllParse | tasksA.py:58-70 | for an existing file the count is written if and only if every stripped line parses |
| DateCount.CountAtMostLines | tasksA.py:62-65 | the written count never exceeds the number of lines |
| ContactSort.KeyError | tasksA.py:77 | there is no `KeyError` if and only if every contact has both names; otherwise it names the first missing key of the first contact without one |
| ContactSort.KeyLtIsStrictTotalOrder | tasksA.py:77 | tuple comparison of `(last_name, first_name)` is a strict total order |
| ContactSort.A4 | tasksA.py:73-80 | the sort succeeds if and only if every contact has both names; the result is a permutation of the input ordered by `(last_name, first_name)`; on failure the error is the first `KeyError` |
| ContactSort.A4IsStable | tasksA.py:77 | contacts with equal names keep their input order |
| ContactSort.A4OrdersByLastThenFirst | tasksA.py:77 | in the result, an earlier contact's last name is not above a later one's, and with equal last names the same holds for the first names |
| RecentLogs.GlobbedMembers | tasksA.py:86 | the globbed entries are exactly the entries named `*.log` |
| RecentLogs.GlobbedFilters | tasksA.py:86 | globbing is the filter that keeps the entries named `*.log` |
| RecentLogs.GlobbedAppend | tasksA.py:86 | globbing keeps directory order: globbing a concatenation globs each part |
| RecentLogs.GlobbedOne | tasksA.py:86 | a single entry is kept exactly when its name ends in `.log` |
| RecentLogs.SliceTo | tasksA.py:86 | `[:num_files]` is a prefix of length min(n, len) for n ≥ 0, and drops the last -n entries for negative n |
| RecentLogs.A5 | tasksA.py:83-91 | when the slice bound is accepted, the output is each chosen log's stripped first line followed by a newline, in the chosen order; otherwise A5 fails with the slice's `TypeError` |
| RecentLogs.NullNumFilesReadsEveryLog | tasksA.py:86 | a `num_files` of `null` reads every `.log` file, newest first |
| RecentLogs.BooleanNumFilesIsInteger | tasksA.py:86 | `true` and `false` as `num_files` read as many files as 1 and 0 |
| RecentLogs.NonIntegerNumFilesRaises | tasksA.py:86 | the slice raises `TypeError` exactly when `num_files` is not `null`, a boolean or an integer |
| RecentLogs.RecentCount | tasksA.py:86 | for `num_files` ≥ 0, min(`num_files`, number of `.log` files) files are read |
| RecentLogs.RecentAreNewestFirst | tasksA.py:86 | the files read are `.log` entries of the directory, in non-increasing modification time |
| RecentLogs.LeftOutAreNotNewer | tasksA.py:86 | no `.log` file left out is newer than any file read |
| RecentLogs.EqualTimesKeepDirectoryOrder | tasksA.py:86 | files with equal modification times keep their directory order |
| RecentLogs.PrefixIsNewer | tasksA.py:86 | in a newest-first list, everything before a cut is at least as recent as everything after it |
| RecentLogs.NewestFirstSplits | tasksA.py:86 | the sorted `.log` list splits anywhere into a newer part and an older part |
| RecentLogs.RenderIsJoin | tasksA.py:89-91 | the output is the first lines joined by newlines, with one final newline |
| RecentLogs.OutputLines | tasksA.py:89-91 | split on newlines, the output is the first lines in order followed by one empty piece |
| DocIndex.FirstHeadingIsFirst | tasksA.py:102-107 | the title is the stripped remainder of the first line that starts with `# `, and there is none if and only if no line does |
| DocIndex.FirstHeadingAt | tasksA.py:102-107 | a `# ` line with no `# ` line before it gives the title |
| DocIndex.SecondLevelNeverQualifies | tasksA.py:103 | a line starting with `##` is never taken as a title |
| DocIndex.A6 | tasksA.py:94-110 | the dictionary the loops build is the index of the walk |
| DocIndex.AddFilesKeys | tasksA.py:98-106 | after a directory's files, a path is a key if and only if it was before or one of its `.md` files with a heading has that path |
| DocIndex.AddFilesValues | tasksA.py:98-106 | each key keeps its earlier value or holds the title of a file at that path |
| DocIndex.IndexEntries | tasksA.py:94-106 | the keys are exactly the relative paths of `.md` files that have a `# ` line, and each value is such a file's title |
| DocIndex.IndexedTitle | tasksA.py:94-106 | when relative paths are unique, every `.md` file with a heading is indexed under its path with its own first title |
| EmailSender.FirstFromLineWins | tasksA.py:118-121 | the sender comes from the first line starting with `From`; later lines are ignored |
| EmailSender.NoFromLineGivesUnknown | tasksA.py:117-121 | with no line starting with `From` the sender is `unknown@example.com` |
| EmailSender.SenderIsCleanLastToken | tasksA.py:120 | the sender is the last space-separated token of the stripped line with every `<` and `>` removed and every other character kept in order and multiplicity, and it holds no space, `<` or `>` |
| EmailSender.RemovingBothIsUnbracket | tasksA.py:120 | the two `replace` calls together remove the angle brackets in one pass, keeping every other character in order |
| EmailSender.BracketsRemoved | tasksA.py:120 | after both `replace` calls on a token without spaces, every other character occurs as often as before and no space or bracket is left |
| EmailSender.A7 | tasksA.py:113-124 | the loop with `break` writes the sender of the first `From` line, or the sentinel |
| SimilarComments.MostSimilar | tasksA.py:178-187 | there is a pair exactly when there are two comments or more; the pair has i < j, has minimal distance over all pairs, and comes first in row-major order among the minimal ones |
| SimilarComments.FirstMinimalIsUnique | tasksA.py:181-187 | the first minimal pair is unique, so the choice is determined by the distances |
| SimilarComments.A9 | tasksA.py:172-189 | with fewer than two comments the output file is left empty, as it is opened for writing before `None + "\n"` raises its `TypeError`; otherwise it holds the two comments of the first closest pair, each followed by a newline |
| SimilarComments.CommentHasNoNewline | tasksA.py:174 | a stripped comment holds no newline |
| SimilarComments.WrittenPairReadsBack | tasksA.py:189 | the text written for a pair, split on newlines, gives back the two comments and one empty piece |
| GoldSales.A10 | tasksA.py:192-206 | no row fails with the `TypeError` of subscripting `None` and an empty row with `IndexError`; otherwise the written text is `str` of the first column or 0 |
| GoldSales.FalsyWritesZero | tasksA.py:201-204 | the output is `"0"` if and only if the total is NULL or falsy, or is the text `"0"` |
| GoldSales.IntegerTotalRoundTrips | tasksA.py:201-204 | an integer total is written in decimal and reads back as itself |
| PyStr.StripIsTrim | tasksA.py:62 | `strip()` removes a whitespace prefix and suffix and leaves no whitespace at either end |
| PyStr.StrippedLineHasNoNewline | tasksA.py:91 | `readline().strip()` holds no newline |
| PyStr.SplitJoin | tasksA.py:120 | `split` undoes `join` when no piece holds the separator |
| PyStr.LastPieceIsTail | tasksA.py:120 | `split(" ")[-1]` is what follows the last space, or the whole text without one |
| PyStr.RemoveCharCounts | tasksA.py:120 | `replace(c, "")` removes every `c` and keeps every other character as often as it occurs; a text without `c` is unchanged |
| PyStr.RemoveCharAppend | tasksA.py:120 | `replace(c, "")` keeps the order of what is left: on a concatenation it works on each part |
| PyStr.RemoveCharOne | tasksA.py:120 | a single character is dropped by `replace(c, "")` exactly when it is `c` |
| PyStr.ReadLines | tasksA.py:115 | `readlines()` splits the text into non-empty lines that concatenate back to it, each but the last ending in a newline |
| PyStr.ReadLinesAreLines | tasksA.py:174 | every line from `readlines()` is a line `readline()` would return |
| PyStr.DecimalRoundTrip | tasksA.py:65 | `int(str(n)) == n` |
| PyStr.DecimalZero | tasksA.py:204 | `str(n)` is `"0"` exactly for 0 |
| PyStr.StrLtIsLexicographic | tasksA.py:77 | `<` on strings is lexicographic, with a proper prefix first |
| PyStr.StrLtTransitive | tasksA.py:77 | `<` on strings is transitive |
| PyStr.StrLtTotal | tasksA.py:77 | two different strings are ordered one way or the other |
| StableSort.Sort | tasksA.py:77 | `sorted` returns a permutation of its input |
| StableSort.SortSorted | tasksA.py:77 | the result of `sorted` is ordered by key |
| StableSort.SortStable | tasksA.py:77 | elements with equal keys keep their input order |

## Left out

- HTTP wiring is not modelled: FastAPI, CORS, uvicorn and the `print` calls (app.py:1-31, 371, 379, 432-434).
- The `/read` endpoint is not modelled (app.py:421-429). It is raw file I/O that answers 404 for a missing file and 500 for other failures.
- `get_completions` is not modelled beyond its result (app.py:351-372). The HTTP request, token, timeout and JSON envelope are left out; `classify` stands for it.
- A1 and A2 are reduced to their keyword parameters, because they only start `uv` and `npx prettier` subprocesses.
- A8 and `get_embedding` are reduced to their keyword parameters, because they are calls to remote APIs.
- The B executors live in tasksB.py, which is not part of this model. They appear only as routing targets, behind the `execute` parameter.
- test.py is not modelled; it only writes a sample file.
- Binding `X(**args)` and its `TypeError`s are folded into `execute`. `Binds` states when binding succeeds for the executors of tasksA.py.
- `json.loads` is the `decode` parameter, and JSON numbers with a fraction are not modelled.
- Catalogue regular-expression patterns are never checked by the code. The model evaluates only the patterns that have a default beside them, and only the `re` features listed above. Character classes such as `\w` and `\d`, quantifiers other than `.*`, alternatives, anchors, and A10's `query` pattern are not compiled (`Compile` gives `None`).
- JSON Schema semantics beyond type, `minimum`, `minItems`, `maxItems` and item schemas are not modelled.
- Paths that arrive as `str` while the executors call `Path` methods on them are not modelled: paths are abstract.
- File opening, encodings, newline translation, `json.dump` formatting and pathlib `glob` details are not modelled.
- DateCount.A3: `dateutil` parsing is the parameter `weekdayOf`, and A3's `print` calls are left out. A JSON number with a fraction as `weekday` is not modelled (`2.0 == 2` would count Wednesdays).
- SimilarComments.A9: a failure to open the output file itself is not modelled.
- ContactSort.A4: contact fields are assumed to be strings. Comparing fields of other JSON types, or a non-list JSON file, is not modelled.
- RecentLogs.A5: modification times are integers, and files vanishing between `glob` and `getmtime` are not modelled. A JSON number with a fraction as `num_files` is not modelled (it raises the same `TypeError` as a string).
- DocIndex.A6: `os.walk` order is taken as given, and `relative_to` is modelled as joining the directory parts and the file name with `/`.
- SimilarComments.MostSimilar: distances are integers. With floats, a NaN or infinite distance never beats `float("inf")`, so with two or more comments the pair could still stay `(None, None)`; this model cannot produce that case.
- GoldSales.A10: the SQL query is not executed, and `fetchone()`'s row is a parameter. An integer overflow raised by SQLite is left out.
