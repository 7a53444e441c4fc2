# pegit core, modelled in Dafny

This project models three parts of pegit, a small version-control tool written in C:

- **Line diff engine** (`include/delta.h`). This is a longest-common-subsequence (LCS) diff over two tokenised files, each a sequence of lines.
  - `delta_table_init` allocates a `(row + 1) x (col + 1)` grid of arrows, plus the score rows `prev` and `sol`.
  - `delta_basic_comparison_m` fills the grid and returns the LCS score.
  - `basic_delta_result_init` creates an empty result for a `delta_input`.
  - `delta_backtrace_table` walks the arrows back from the last cell into that result. It counts insertions, deletions and common lines, and collects the common lines and the changed lines.
- **Content store** (`include/cache.h`). A `cache_object` joins two parts:
  - an append-only byte log (`struct cache`);
  - an index (`struct cache_index`), a tail-appended singly-linked list of `{start, len, file_path, sha1}` records.

  The operations `init`, `add`, `add_file`, `addindex` and `write` update the store in place.
- **Directory visitor** (`src/visitor.c`). This is a cursor over one directory listing. It keeps the current path in a string buffer:
  - it opens a directory and appends it to the path;
  - it skips `.` and `..`;
  - it pushes `/name` temporarily to stat an entry;
  - it descends into a child folder and climbs back to the parent.

The diff engine is specified by pure functions:

- `Lcs` gives the score of each cell.
- `ArrowAt` gives the arrow each cell receives.
- `Backtrace` gives what walking the arrows collects.

The table and the result are classes whose methods are proved against those functions. The lemmas then prove what the functions mean:

- the common lines are a common subsequence of both files, and no common subsequence is longer;
- every line of each file is either common or changed.

The store is a class over node objects, with a ghost sequence of nodes and a ghost value `Contents` of the list. A second ghost sequence records the blobs in the order they were indexed. The predicate `Tiles` states that the index describes the log exactly.

The visitor is a class whose fields are the path, the remaining listing, the `visited_all` flag, the current entry and its type. Opening a directory is modelled as being handed the listing that `readdir` would return. `stat` and `mkdir` are oracles on paths: `NextEntry` asks `stat` about the path it has just pushed, so the answer depends on where the visitor currently is.

`delta.h` and `cache.h` show only declarations. What the header comments and struct layouts fix is modelled as declared. The rest are this model's own choices:

- `prev` and `sol` are the previous and current score rows.
- Ties between the two neighbours go to the left (insertion) neighbour.
- The first row of the grid points left and the first column points up.
- `addindex` records the current end of the log as the entry's start. A caller therefore stores a blob with `addindex` followed by `add`.

`visitor_visit_parent` is evidently meant to strip the last path component. The code does not quite do this (see Findings), and the model follows the code.

## Model

| member | source | states |
|---|---|---|
| Delta.Lcs | include/delta.h:81-86 | the LCS score of prefixes `a[..i]`, `b[..j]`: never more than either prefix length |
| Delta.ArrowAt | include/delta.h:9-10 | the arrow a filled cell holds is never `DELTA_DOWN`; a diagonal only on equal lines; up/left only where a row/column remains |
| Delta.BacktraceScore | include/delta.h:33-41 | the backtrace's `common` equals the number of common lines and the LCS score of the start cell |
| Delta.BacktraceBalance | include/delta.h:33-40 | `deletions + common` is the first file's length, `insertions + common` the second's, and each change is one diff line |
| Delta.BacktraceCommonInFirst | include/delta.h:38-39 | the common lines occur in order in the first file |
| Delta.BacktraceCommonInSecond | include/delta.h:38-39 | the common lines occur in order in the second file |
| Delta.SubseqExtend | include/delta.h:38-39 | a subsequence of a prefix stays one when the prefix grows |
| Delta.SubseqAppend | include/delta.h:38-39 | a subsequence extended by the next element of the sequence is a subsequence of the longer prefix |
| Delta.SubseqDropLast | include/delta.h:38-39 | a non-empty subsequence of `s[..k]` without its last element is a subsequence of `s[..k - 1]` |
| Delta.SubseqSkipLast | include/delta.h:38-39 | a subsequence of `s[..k]` whose last element differs from `s[k - 1]` is a subsequence of `s[..k - 1]` |
| Delta.LcsUpperBound | include/delta.h:81-86 | every common subsequence of two prefixes is at most their LCS score long |
| Delta.LcsIsLongest | include/delta.h:81-86 | the backtrace's common lines are a common subsequence of both files of length `Lcs`, and no common subsequence is longer |
| Delta.IdentityDiff | include/delta.h:66-72 | diffing a file against itself: all lines common, no insertion, deletion or diff line |
| Delta.DisjointLcs | include/delta.h:81-86 | two files with no line in common score zero |
| Delta.DisjointDiff | include/delta.h:66-72 | two disjoint files: no common line, every line of the first deleted and of the second inserted |
| Delta.ScenarioOneLineChanged | include/delta.h:66-72 | `a,b,c` against `a,x,c`: `b` deleted, `x` inserted, `a` and `c` common, in that order |
| Delta.DeltaTable.constructor | include/delta.h:43-48 | a table of the requested `row` and `col`, `(row + 1) x (col + 1)` arrows, score rows of `col + 1` zeros |
| Delta.Backtrace | include/delta.h:66-72 | the specification of the backtrace: the walk from cell `(i, j)` along `ArrowAt`, collected in file order; its properties are stated by `BacktraceScore`, `BacktraceBalance` and `BacktraceCommonInFirst`/`Second` |
| Delta.DeltaTable.Walk | include/delta.h:66-72 | the walk along the arrows actually stored in the table, as `delta_backtrace_table` follows them; `WalkFilled` proves it equal to `Backtrace` on a filled table |
| Delta.DeltaTable.WalkFilled | include/delta.h:66-72 | a filled table can be walked, and walking its stored arrows gives the specified backtrace |
| Delta.DeltaTable.FillRow | include/delta.h:81-86 | one row: from the previous row's scores, computes row `i`'s LCS scores and arrows and leaves other rows alone |
| Delta.DeltaTable.Compare | include/delta.h:81-86 | returns the LCS score of the two files and leaves every cell but `(0, 0)` holding the arrow the comparison chooses |
| Delta.BasicDeltaResult.constructor | include/delta.h:74-79 | the result records the given input, with zero counts and empty line lists |
| Delta.BasicDeltaResult.Record | include/delta.h:33-41 | one backtrace step: its counts are added and its lines put ahead of those already held |
| Delta.BasicDeltaResult.BacktraceTable | include/delta.h:66-72 | the result becomes what walking the table's arrows collects, ahead of what it held; the input is kept |
| Delta.BasicDiff | include/delta.h:66-86 | init, comparison and backtrace together: `common` equals the score the comparison returned and the number of common lines, those lines are a longest common subsequence, and every line of both files is accounted for |
| Cache.ConcatPrefix | include/cache.h:27-32 | the blobs before blob `m` form a prefix of the log |
| Cache.TilesAppend | include/cache.h:44-45 | an entry recorded at the end of the log, followed by its bytes, keeps the log and the index in lock-step |
| Cache.TilesRead | include/cache.h:10-16 | in a store in lock-step every entry's byte range lies in the log and holds exactly its blob |
| Cache.IndexNode.constructor | include/cache.h:10-16 | a caller-prepared node carrying its file path and no successor |
| Cache.Cache.constructor | include/cache.h:27-32 | an empty, unflushed log with no entries |
| Cache.CacheIndex.constructor | include/cache.h:18-25 | an empty, unflushed index whose `entries` and `last` are null |
| Cache.CacheIndex.Link | include/cache.h:18-25 | the filled node is linked after `last` and becomes `last`; earlier entries unchanged, `num` is the list length |
| Cache.CacheObject.constructor | include/cache.h:43 | zero entries, an empty buffer, both `flushed` flags false, the log and index in lock-step |
| Cache.CacheObject.Add | include/cache.h:41 | only appends the buffer's bytes to the log; counts, files and flags unchanged |
| Cache.CacheObject.AddFile | include/cache.h:40 | a regular file's bytes are appended as by `add`; anything else leaves the store as it was |
| Cache.CacheObject.AddIndex | include/cache.h:44-45 | appends an entry at the current end of the log with the buffer's length and digest, and counts it in both index and log |
| Cache.CacheObject.Write | include/cache.h:42 | the log file receives the log and the index file the list walked from its head; both flags set; a flushed store writes nothing |
| Cache.StoreBlob | include/cache.h:41-45 | `addindex` then `add` keeps a store in lock-step, with one more entry for the new blob |
| Cache.HelloWorld | include/cache.h:41-45 | storing `hello` and `world!` and writing yields the eleven bytes and the records `{0, 5}` and `{5, 6}` |
| Visitor.IsDotEntry | src/visitor.c:36-37 | the entries skipped are exactly the names made of one or two dots |
| Visitor.TypeOf | src/visitor.c:49-54 | folder exactly for a directory, file exactly for a regular file, unknown for anything else |
| Visitor.FirstVisible | src/visitor.c:35-38 | the position of the first entry that is neither `.` nor `..`, all before it being dot entries |
| Visitor.LastSlash | src/visitor.c:98 | the position of the last `/` in the path, or -1 when there is none |
| Visitor.ParentAsWritten | src/visitor.c:98-99 | the parent as the code computes it: a prefix of the path, shorter whenever the path is non-empty |
| Visitor.ParentPath | src/visitor.c:86-101 | the intended parent: the prefix before the last `/`, or empty when there is none |
| Visitor.LastSlashOfChild | src/visitor.c:81-82 | in `p + "/" + name` with a slash-free name, the last `/` is the one just added |
| Visitor.ParentAsWrittenOfChild | src/visitor.c:98-99 | `ParentAsWritten(p + "/" + name)`, the scan's result, is `p` without its last character; `VisitParent` reaches it when `name` does not end in `.` (otherwise `/..` is appended) |
| Visitor.ParentAsWrittenExample | src/visitor.c:98-99 | `"ab/cd"` climbs to `"a"` as written, to `"ab"` as intended |
| Visitor.ParentOfChild | src/visitor.c:86-101 | the intended parent of `p + "/" + name` is `p` |
| Visitor.Visitor.constructor | src/visitor.c:3-9 | empty path, no directory, nothing visited, no current entry |
| Visitor.Visitor.Visit | src/visitor.c:17-28 | on success the path is appended to, the type is folder and no entry is current; on failure -1, path and entry unchanged |
| Visitor.Visitor.NextEntry | src/visitor.c:30-67 | returns 1 unchanged once all is visited; otherwise yields the first entry that is not `.`/`..`, with the type `stat` gives for the current path + `/` + its name, or -1 when that `stat` fails; sets `visited_all` at the end; the path is always restored |
| Visitor.Visitor.VisitChildDirectory | src/visitor.c:69-84 | -1 and the path unchanged unless the current entry is a folder; then the path becomes `old + "/" + name` |
| Visitor.Visitor.VisitParent | src/visitor.c:86-101 | an empty path or one ending in `.` gets `/..`; otherwise the path is cut as the backwards scan leaves it |
| Visitor.Visitor.MakeFolder | src/visitor.c:103-116 | 0 exactly when mkdir succeeds on `path + "/" + name`, otherwise -1 |

## Left out

- Delta.DeltaTable.constructor: allocation failure is not modelled. The `int` status of `delta_table_init` is therefore always success.
- Delta.BasicDeltaResult.BacktraceTable: the `int` return of `delta_backtrace_table` is not modelled. The method requires a table whose arrows stay inside the grid and include no `DELTA_DOWN`. What the C code does on any other table cannot be seen.
- `DELTA_DOWN` and `DELTA_FLAG` have no documented meaning, so the comparison never produces `DELTA_DOWN`.
- The bodies of `delta.h` are not shown, and its comments say nothing of the fill order, the tie-break or the boundary arrows. These are the model's own choices, as listed above.
- `delta_input_init` and the tokenisation of files into lines are not part of this model; each file is a `seq<string>`.
- The `FILE*` reads and writes are not modelled: the files a store is written to are the sequences last written to them.
- The release functions `delta_table_free`, `delta_input_free` and `visitor_close` are left out. Memory is not modelled.
- `delta_stat`, `delta_summary`, `strbuf_delta_minimal`, `strbuf_delta_enhanced`, `print_lines`, `print_insertion_lines` and `delta_main` are left out. They render text or drive the command line, and their bodies are not shown.
- `cache_object_add_compressed_file` is left out: deflate compression comes from a foreign library.
- The SHA-1 computation is left out. `addindex` receives the digest as a fixed-length parameter of `HASH_SIZE` = 20 elements.
- The author and timestamp metadata of the index are left out.
- Cache.CacheObject.AddIndex: requires a node that is not already linked. Relinking a node would make the list cyclic, which the source cannot mean.
- Cache.CacheObject.AddFile: the file is given as its contents or as "not a regular file". Reading errors are not modelled.
- `opendir`, `readdir`, `stat` and `mkdir` are left out. A directory is the listing of entries that `readdir` would return. `stat` and `mkdir` are function parameters on paths, fixed for the duration of one call.
- `stderr` messages are left out.
- Visitor.Visitor.VisitChildDirectory: `die` on a missing current entry is a precondition.
- Visitor.Visitor.VisitParent: `die` on a missing directory stream is a precondition.
- Visitor.Visitor.NextEntry: requires an open directory unless everything has been visited, because `readdir` on a null stream is undefined.
- `visitor_init` does not set `entry_type`. The model gives it an arbitrary kind, and no contract depends on it.
- The temporary `absolute_path` buffer of `visitor_make_folder`, which is leaked, is not modelled.

## Findings

| source | as written | input that shows it | evidently intended | confidence | as-written member | corrected member |
|---|---|---|---|---|---|---|
| src/visitor.c:98-99 | the backwards scan post-decrements the length also when it stops at `/`, so the path is cut one character before the last `/` | path `"ab/cd"` becomes `"a"` | strip the last component: `"ab"` | not executed | Visitor.ParentAsWrittenOfChild | Visitor.ParentOfChild |

`Visitor.Visitor.VisitParent` keeps the behaviour as written, proved equal to `ParentAsWritten`. `ParentPath` is the corrected definition, and `ParentOfChild` proves that climbing from a child directory with it returns to the directory the walk came from.
