# SiliconCompiler core pieces, modelled in Dafny

This project models six parts of SiliconCompiler, a Python compiler driver for hardware designs:

- **Testcase generation** (`siliconcompiler/issue.py`).
  - Which parameters are hashed and which are marked for copying.
  - The `determine_copy` policy: libraries, PDKs, history, packages, the testcase's own tool and task, and excluded `option` keys.
  - How the commits ahead of the version tag are counted.
  - The archive name and the top directory inside the archive.
  - The order in which the live schema, the current directory and the relative-path setting are changed and put back.
- **Deferring a node to a job scheduler** (`siliconcompiler/scheduler.py`, `_deferstep`).
  - The upstream error bits copied into the schema.
  - The `sbatch` command line, the launcher paths and the launcher script.
  - The job id taken from `sbatch`'s output.
  - The `scontrol` poll loop and its return code.
  - The active and error tables updated at the end.
- **KLayout operations** (`siliconcompiler/tools/klayout/klayout_operations.py`).
  - Each operation string `name:args` is split and validated against the manifest, then dispatched. The model logs each dispatched edit.
  - The recursive cell swap `__do_cell_swap` / `swap_cells` is modelled on a layout class. The class holds each cell's instance list, the cell names and the top cell.
- **Verilator setup** (`siliconcompiler/tools/verilator/verilator.py`).
  - `setup`: fixed settings, defaults that do not clobber, and the option list.
  - `runtime_options`: the command line.
  - `parse_version`.
- **Morty setup** (`siliconcompiler/tools/morty/morty_setup.py`).
  - The fixed settings.
  - The option list built from the design's library directories, library files, include directories, defines and Verilog sources.
- **VPR place** (`siliconcompiler/tools/vpr/place.py`).
  - `setup`: the thread default and the outputs.
  - `runtime_options`: the graphics command string.
  - `pre_process`: the placement constraints gathered per component.

The chip's key-path store is a map from keys to values. A key is a key-path plus the step and index it is bound to. `chip.set`, `chip.set(..., clobber=False)` and `chip.add` are modelled by `Store.Assign`, `Store.AssignDefault` and `Store.Append`. The `Store.Chip` class changes that map in place.

Where the code works step by step, the model does too.
- Tool setup functions are methods on a `Chip` class, each proved equal to a specification function.
- The copy loop is a method on `Issue.IssueChip`.
- The cell swap is a method on `CellSwap.Layout`.
- The loops become `while` loops with invariants.

The pure parts are functions, with lemmas that state what they mean. Examples are the `determine_copy` policy, the archive names and the classification of a poll response.

File-system work, subprocesses, the clock, git and the schema's own lookups are not modelled as actions. They appear as inputs instead:
- the key-paths in `allkeys` order;
- the `scontrol` responses;
- `schema_path`;
- `find_files` results;
- the CPU count;
- the commits walked back from the head;
- the stage at which a file-system step fails.

Python's `str.split(sep)`, `sep.join`, `str.split()` and `in` on strings are written out in module `Text`.

## Model

| member | source | states |
|---|---|---|
| Store.Assign | siliconcompiler/tools/verilator/verilator.py:49 | `set` with clobbering: the key holds the new value and every other key keeps its value |
| Store.AssignDefault | siliconcompiler/tools/verilator/verilator.py:51 | `set(..., clobber=False)`: a key that already has a value keeps it; otherwise the value is stored |
| Store.Append | siliconcompiler/tools/morty/morty_setup.py:20 | `add`: the key's list becomes the old list followed by the new items, and every other key is unchanged |
| Store.Chip.Set | siliconcompiler/tools/verilator/verilator.py:49 | the chip's store after `set` is `Assign` of the store before it |
| Store.Chip.SetDefault | siliconcompiler/tools/verilator/verilator.py:51 | the chip's store after a non-clobbering `set` is `AssignDefault` of the store before it |
| Store.Chip.Add | siliconcompiler/tools/morty/morty_setup.py:20 | the chip's store after `add` is `Append` of the store before it |
| Text.Split | siliconcompiler/tools/klayout/klayout_operations.py:159 | like Python's `str.split(sep)`, splitting always yields at least one piece |
| Text.JoinSplit | siliconcompiler/tools/klayout/klayout_operations.py:159-161 | joining the pieces of a split with the same separator gives back the original string |
| Text.SplitPiecesLackSeparator | siliconcompiler/tools/klayout/klayout_operations.py:162 | no piece of a split contains the separator |
| Text.SplitConcat | siliconcompiler/scheduler.py:75 | splitting `a + sep + b` gives the pieces of `a` followed by the pieces of `b` |
| Text.WordsAreWords | siliconcompiler/tools/verilator/verilator.py:131 | every word that whitespace splitting returns is non-empty and contains no whitespace |
| IssuePolicy.HistoryAndPackageNeverCopied | siliconcompiler/issue.py:76-81 | history and package key-paths are never copied, whether or not they are required |
| IssuePolicy.OptionRule | siliconcompiler/issue.py:92-104 | an `option` key-path is copied exactly when it is required and is not `builddir`, `cache`, `cfg` or `credentials` |
| IssuePolicy.ToolRule | siliconcompiler/issue.py:82-91 | a `tool` key-path is copied exactly when it belongs to the testcase's own tool and task and its fifth name is not `output`, `input` or `report`; the require list makes no difference |
| IssuePolicy.PdkRule | siliconcompiler/issue.py:70-75 | a PDK key-path is copied exactly when its PDK is in the non-empty specific list, or the PDK switch is on; the require list is ignored |
| IssuePolicy.RequiredPdkFileNotForced | siliconcompiler/issue.py:70-75 | with PDKs switched off, a PDK file is not copied even when the node's task requires it |
| IssuePolicy.LibraryRule | siliconcompiler/issue.py:62-69 | a library key-path is decided by the rest of the key-path when its library is selected, and is never copied otherwise |
| IssuePolicy.DefaultRule | siliconcompiler/issue.py:59-60 | any other key-path is copied exactly when it is required |
| IssuePolicy.RequireOnlyWidens | siliconcompiler/issue.py:59-106 | being required never turns a copy into a non-copy, and never changes whether the policy raises IndexError |
| IssuePolicy.CopiedLibraryIsSelected | siliconcompiler/issue.py:62-69 | a copied library key-path names a library that was selected |
| Issue.HashTargetsSnoc | siliconcompiler/issue.py:30-46 | visiting one more key-path adds it to the hashed key-paths exactly when it is eligible and `_getvals` yields a value for it |
| Issue.HashTargetsExactly | siliconcompiler/issue.py:30-46 | a key-path is hashed iff it is listed, eligible (not history, not `option builddir`/`cache`, with a file or dir type) and has at least one value set, since `hash_files` runs once per entry of `_getvals` |
| Issue.MarkHashedEffect | siliconcompiler/issue.py:30-46 | after hashing, a parameter carries hash values iff it did before or it was handed to `hash_files` (eligible and with a value set); key set, types, value presence and copy flags are unchanged |
| Issue.UnsetNotHashed | siliconcompiler/issue.py:42-46 | a parameter with no value set, even of file type, is not hashed and keeps its fields unchanged, since the `_getvals` loop runs zero times for it |
| Issue.MarkHashedSnoc | siliconcompiler/issue.py:30-46 | visiting one more key-path marks exactly that parameter as hashed when it is eligible and has a value set, and changes nothing else |
| Issue.IssueChip.HashFiles | siliconcompiler/issue.py:30-46 | the hashing loop returns, in `allkeys` order, the eligible key-paths that have a value set, and leaves the schema with exactly those parameters marked as hashed |
| Issue.ShouldHash | siliconcompiler/issue.py:32-41 | the per-key hashing checks decide exactly the hash eligibility predicate |
| Issue.ShouldCopy | siliconcompiler/issue.py:109-114 | a key-path's `copy` field is set exactly when it has no `default` and its type mentions file or dir |
| Issue.CopyFlagsEffect | siliconcompiler/issue.py:108-119 | the copy loop finishes iff no eligible key-path makes the policy raise; it then sets each eligible key's `copy` field to the policy's decision and leaves every other parameter, and every type, unchanged |
| Issue.IssueChip.SetCopyFlags | siliconcompiler/issue.py:108-119 | the loop over the chip's schema gives the `CopyFlags` result and leaves the current directory and relative path alone |
| Issue.FileTimeShape | siliconcompiler/issue.py:225 | the time stamp `%Y%m%d-%H%M%S` is 15 characters: digits with a `-` at position 8, and no `.` or `/` |
| Issue.ArchiveName | siliconcompiler/issue.py:222-226 | a given non-empty archive name is kept; otherwise the name is `sc_issue_<design>_<job>_<step><index>_<time>.tar.gz` |
| Issue.ArchiveBaseDirPlain | siliconcompiler/issue.py:250 | the archive's top directory contains neither `.` nor `/` |
| Issue.BaseDirUpToFirstDot | siliconcompiler/issue.py:250 | the top directory of a name is its basename up to the first `.` |
| Issue.DefaultArchiveBaseDir | siliconcompiler/issue.py:250 | for a default name built from dot-free, slash-free parts, the top directory is the whole stem without `.tar.gz` |
| Issue.DottedDesignShortensBaseDir | siliconcompiler/issue.py:250 | a design name containing a dot cuts the default top directory down to `sc_issue_` plus the design's text before that dot |
| Issue.AheadCountMeaning | siliconcompiler/issue.py:188-194 | the count is at most the number of parents: the position of the tag's commit, counting from 1, when it is among them, and all parents otherwise |
| Issue.CountAhead | siliconcompiler/issue.py:188-199 | the counting loop gives `AheadCount` when the tag has a commit, 0 when there are no parents, and a recorded failure otherwise |
| Issue.CopyOutcomeByTypes | siliconcompiler/issue.py:108-119 | whether the copy loop finishes depends only on the visited parameters' types, so hashing beforehand does not change it |
| Issue.GenerationSucceeds | siliconcompiler/issue.py:24-272 | generation succeeds iff the copy loop finishes and no file-system step (the `orig_manifest.json` write included) fails. On success: schema and directory restored, relative path cleared, archive name as above, hashed key-paths exactly the eligible ones when hashing is on, commit count as above |
| Issue.GenerationFails | siliconcompiler/issue.py:24-272 | a failing `orig_manifest.json` write leaves `continue` set and the hash values written, with `copyall` and every copy flag untouched; any other failure leaves the schema prepared: continue set, copyall cleared, copy flags written, and every parameter hashed before or handed to `hash_files` still carries hash values; after a replay-writing failure the chip is also left in the staging directory with its relative path set; parameter values are not part of this state (see "## Left out") |
| Issue.GenerateTestcase | siliconcompiler/issue.py:24-272 | the method's final chip state and its result are those `Generation` gives for the chip state before it |
| Issue.PrepareHashes | siliconcompiler/issue.py:28-46 | before the manifest is written: `continue` is set and, when asked, exactly the eligible parameters with a value set are marked as hashed and returned in order; `copyall`, the copy flags, directory and relative path are untouched |
| Issue.PrepareCopies | siliconcompiler/issue.py:56-119 | after the manifest is written: `copyall` is cleared and the copy flags become those of the copy loop, which reports whether it finished |
| Issue.FinishTestcase | siliconcompiler/issue.py:56-272 | the rest of generation after the manifest write gives exactly the chip state and result `AfterManifest` describes |
| Issue.StageFiles | siliconcompiler/issue.py:121-175 | staging leaves the schema alone; it ends with the directory put back and the relative path cleared, except that a failing stage leaves both where it stopped |
| Issue.Seal | siliconcompiler/issue.py:177-264 | a final failure is reported; otherwise the bundle holds the archive name, the hashed key-paths and the commit count |
| Scheduler.SubmitCommandMeaning | siliconcompiler/scheduler.py:26-38 | the `sbatch` command asks for an exclusive node, the constraint (`SHARED` by default), account, partition and directory, and job name `<hash>_<step><index>`, then runs the script |
| Scheduler.LauncherPaths | siliconcompiler/scheduler.py:45-61 | the manifest ends in `.json` and the script in `.sh`, and the two paths are the same up to that extension, so the launcher sits beside the manifest it runs; the script ends by clearing the job scheduler |
| Scheduler.QuoteReadsBack | siliconcompiler/scheduler.py:56-59 | every string `shlex.quote` produces is read by the shell as one word equal to the original, so the launcher passes the manifest path, directory, step and index intact |
| Scheduler.EscapedReadsBack | siliconcompiler/scheduler.py:56-59 | inside single quotes, the text with each `'` escaped as `'"'"'`, then the closing quote, reads back as the text |
| Scheduler.SafeReadsBack | siliconcompiler/scheduler.py:56-59 | a word of characters `shlex.quote` leaves unquoted reads as itself |
| Scheduler.JobId | siliconcompiler/scheduler.py:75 | the job id contains no space |
| Scheduler.JobIdAfterLastSpace | siliconcompiler/scheduler.py:75 | the job id is the text after the last space of `sbatch`'s output |
| Scheduler.JobIdWithoutSpace | siliconcompiler/scheduler.py:75 | output without a space is the job id as a whole |
| Scheduler.PollsBeforeStop | siliconcompiler/scheduler.py:77-95 | the watchdog is pinged at most once per response |
| Scheduler.ClassifyPrecedence | siliconcompiler/scheduler.py:83-94 | polling goes on iff the response mentions RUNNING or PENDING; return code 1 iff it names no state and does not report an unknown job; no other outcomes |
| Scheduler.FirstStopDecides | siliconcompiler/scheduler.py:77-95 | the first response that is not RUNNING or PENDING decides the return code, and the watchdog is pinged once for each response before it |
| Scheduler.LaterResponsesIgnored | siliconcompiler/scheduler.py:77-95 | responses after the deciding one do not change the outcome |
| Scheduler.StillPolling | siliconcompiler/scheduler.py:77-85 | while every response is RUNNING or PENDING the loop has not ended, and the watchdog has been pinged for each |
| Scheduler.PollExamples | siliconcompiler/scheduler.py:77-95 | pending then running then completed gives 0; an unknown job id gives 0; a failed job gives 1; a response naming RUNNING and COMPLETED keeps polling |
| Scheduler.PendingAndRunningPoll | siliconcompiler/scheduler.py:83-85 | `JobState=PENDING` and `JobState=RUNNING` keep polling |
| Scheduler.UnknownJobStops | siliconcompiler/scheduler.py:88-90 | an unknown job id ends polling with return code 0 |
| Scheduler.FailedJobFails | siliconcompiler/scheduler.py:91-94 | `JobState=FAILED` ends polling with return code 1 |
| Scheduler.MixedKeepsPolling | siliconcompiler/scheduler.py:83-87 | RUNNING takes precedence over COMPLETED in the same response |
| Scheduler.CompletedStops | siliconcompiler/scheduler.py:86-87 | `JobState=COMPLETED` ends polling with return code 0 |
| Scheduler.PollJob | siliconcompiler/scheduler.py:76-95 | the poll loop returns the outcome the responses determine (none if they run out first), and pings the watchdog, when there is one, once per response before that |
| Scheduler.PollAsWritten | siliconcompiler/scheduler.py:78 | as written the loop always fails |
| Scheduler.PollAsWrittenNeverReadsStatus | siliconcompiler/scheduler.py:78 | a completed job fails with NameError in the code as written, but is given return code 0 by the loop as intended |
| Scheduler.ErrorBitsEffect | siliconcompiler/scheduler.py:17-19 | copying the error bits succeeds iff every input node has one; each input's flowstatus error then holds that node's bit, and other keys are unchanged |
| Scheduler.DeferStep | siliconcompiler/scheduler.py:7-101 | with the corrected poll loop (see "## Findings"): the error bits are written first; deferral succeeds iff every error bit exists, the status holds a Slurm account and partition (KeyError otherwise, for any scheduler type) and the scheduler is Slurm or LSF; the command is the `sbatch` (or `lsrun`) command followed by the script; the launcher files, job id and return code are as above; an ended job's error entry becomes its return code and its active entry 0, and otherwise the tables are unchanged |
| CellSwap.Redirect | siliconcompiler/tools/klayout/klayout_operations.py:21-24 | every instance of the old cell now points at the new cell, and the other instances are unchanged |
| CellSwap.RedirectMovesCount | siliconcompiler/tools/klayout/klayout_operations.py:21-24 | after redirecting, no instance of the old cell is left, and the new cell gains exactly the old cell's instances |
| CellSwap.DeleteCell | siliconcompiler/tools/klayout/klayout_operations.py:44 | deleting a cell removes it, and each other cell keeps its instances with those of the deleted cell removed |
| CellSwap.RemoveAll | siliconcompiler/tools/klayout/klayout_operations.py:44 | removing a cell's instances leaves none of it, and every other cell is placed exactly as often as before |
| CellSwap.RemoveAllAppend | siliconcompiler/tools/klayout/klayout_operations.py:44 | removal distributes over concatenation, so the kept instances stay in their order |
| CellSwap.DeleteName | siliconcompiler/tools/klayout/klayout_operations.py:44 | deleting a cell drops exactly the names of that cell |
| CellSwap.DeleteKeepsPlaces | siliconcompiler/tools/klayout/klayout_operations.py:44 | after a deletion, every instance still places a cell of the layout |
| CellSwap.WalkedCompose | siliconcompiler/tools/klayout/klayout_operations.py:15-27 | walking cells `a` and then distinct cells `b` is the same as walking `a + b` |
| CellSwap.ReplacedAppend | siliconcompiler/tools/klayout/klayout_operations.py:20-26 | the replacements counted over `a + b` are those over `a` plus those over `b` |
| CellSwap.UnvisitedShrinks | siliconcompiler/tools/klayout/klayout_operations.py:16-19 | visiting a new parent strictly shrinks the set of unvisited cells, which is why the recursion ends |
| CellSwap.ProgressStart | siliconcompiler/tools/klayout/klayout_operations.py:16-20 | marking the parent as checked starts the walk over its instances |
| CellSwap.ProgressRedirect | siliconcompiler/tools/klayout/klayout_operations.py:22-24 | redirecting an instance of the old cell advances the walk and counts one replacement |
| CellSwap.ProgressDescend | siliconcompiler/tools/klayout/klayout_operations.py:25-26 | descending into any other instance advances the walk, adding the cells that call visited and their replacements |
| CellSwap.ProgressDone | siliconcompiler/tools/klayout/klayout_operations.py:15-27 | at the end of a parent's instances, the layout is the start walked over the newly visited cells, and the count is their replacements |
| CellSwap.ReachedDescend | siliconcompiler/tools/klayout/klayout_operations.py:25-26 | after a descent, every cell visited so far was reached through an instance, not of the old cell, of a cell visited before it |
| CellSwap.ReachedWithin | siliconcompiler/tools/klayout/klayout_operations.py:15-27 | every cell reached from a cell of a run closed under placement lies in that run |
| CellSwap.WalkDetermined | siliconcompiler/tools/klayout/klayout_operations.py:15-27 | two walks from the same cell that are distinct, reached only through instances not of the old cell, and closed under such instances visit the same cells and give the same layout and the same count |
| CellSwap.Layout.DoCellSwap | siliconcompiler/tools/klayout/klayout_operations.py:15-27 | `__do_cell_swap`: an already checked parent gives 0 and changes nothing. Otherwise checked grows by distinct existing cells, starting with the parent, each later one reached through an instance not of the old cell of a cell visited before it, and together including every cell they place through such instances. The layout becomes those cells walked and the count their replacements |
| CellSwap.Layout.SwapInstance | siliconcompiler/tools/klayout/klayout_operations.py:21-26 | one pass of the instance loop keeps the walk's progress invariant |
| CellSwap.Layout.SwapCells | siliconcompiler/tools/klayout/klayout_operations.py:30-46 | an unknown old or new name changes nothing; otherwise the walk starts at the top cell and visits exactly the cells reachable through instances not of the old cell (by `WalkDetermined`, this fixes the result). Their instances of the old cell now point at the new cell, the count is the number redirected, and the old cell and its names are deleted |
| KlayoutOperations.SplitOpRejoins | siliconcompiler/tools/klayout/klayout_operations.py:159-161 | the operation name has no `:`; name, `:` and arguments rebuild the string, and with no `:` the arguments are empty |
| KlayoutOperations.SplitOpOfJoined | siliconcompiler/tools/klayout/klayout_operations.py:159-161 | a colon-free name joined to arguments by `:` splits back into that name and those arguments |
| KlayoutOperations.ParseShowInt | siliconcompiler/tools/klayout/klayout_operations.py:180-182 | `int()` reads back any integer's decimal text |
| KlayoutOperations.ParseInts | siliconcompiler/tools/klayout/klayout_operations.py:180-182 | the list converts iff every value is an integer, and then each entry is that value's integer |
| KlayoutOperations.FileOps | siliconcompiler/tools/klayout/klayout_operations.py:172-176 | one add or merge per file, in order |
| KlayoutOperations.ParseOperations | siliconcompiler/tools/klayout/klayout_operations.py:154-218 | the loop performs exactly the edits `Interpret` gives and stops with its exception |
| KlayoutOperations.InterpretAppend | siliconcompiler/tools/klayout/klayout_operations.py:158-218 | running `a + b` runs `a`; if `a` raised it stops there, and otherwise it goes on to run `b` |
| KlayoutOperations.UnknownOperationRejected | siliconcompiler/tools/klayout/klayout_operations.py:217-218 | an unknown operation edits nothing and raises `ValueError: Unknown step` |
| KlayoutOperations.OutlineNeedsTwoLayers | siliconcompiler/tools/klayout/klayout_operations.py:179-187 | `outline` succeeds iff the node's values are exactly two integers, and then outlines that layer and datatype |
| KlayoutOperations.ConvertPropertyShape | siliconcompiler/tools/klayout/klayout_operations.py:188-203 | `convert_property` needs 3 or 5 values: the source layer, the property (an id when numeric), and the destination layer (the source when there are only 3) |
| KlayoutOperations.FirstValueOperations | siliconcompiler/tools/klayout/klayout_operations.py:204-213 | `rename` and `add_top` use the key-path's first value and raise IndexError iff it has none |
| KlayoutOperations.SwapAndRotate | siliconcompiler/tools/klayout/klayout_operations.py:177-210 | `swap` performs the swaps of the key-path's pairs; `rotate` rotates |
| KlayoutOperations.MergeReadsInputs | siliconcompiler/tools/klayout/klayout_operations.py:170-176 | `merge`/`add` with one plain argument reads `inputs/<arg>` |
| KlayoutOperations.MergeKeyNeedsFileType | siliconcompiler/tools/klayout/klayout_operations.py:164-176 | `merge`/`add` naming a key-path raises ValueError unless its type mentions a file, and otherwise reads the node's files in order |
| KlayoutOperations.WriteTarget | siliconcompiler/tools/klayout/klayout_operations.py:214-216 | `write` writes `output/<args>` |
| KlayoutOperations.SwapOpsMeaning | siliconcompiler/tools/klayout/klayout_operations.py:207-210 | each `old=new` entry swaps those cells in order; the swaps raise iff some entry is not exactly one pair |
| Verilator.SetDefaults | siliconcompiler/tools/verilator/verilator.py:49-62 | the chip's store becomes `Defaults` of the store before it |
| Verilator.DefaultValues | siliconcompiler/tools/verilator/verilator.py:49-62 | version, thread count and the warning and error regexes keep a value already set; otherwise they get `>=4.028`, the CPU count, `^\%Warning` and `^\%Error` |
| Verilator.DefaultsFrame | siliconcompiler/tools/verilator/verilator.py:49-62 | the defaults touch no key beyond the setup keys |
| Verilator.DefaultsDoNotClobber | siliconcompiler/tools/verilator/verilator.py:51-62 | after the whole setup, the non-clobbering settings still keep a value already set |
| Verilator.OptionCallsList | siliconcompiler/tools/verilator/verilator.py:65-80 | the option list is rebuilt as `-sv`, the top module, the relax flags when relaxed, then one `-Wno-` per suppressed warning; `--trace` is added only if it goes to this same list |
| Verilator.OptionCallsFrame | siliconcompiler/tools/verilator/verilator.py:65-80 | the option calls touch only the option list and the key the trace flag goes to |
| Verilator.OptionCallsReadOnly | siliconcompiler/tools/verilator/verilator.py:69-80 | the option calls depend only on the relax flag, the suppressed warnings and the trace flag |
| Verilator.SetupOptionList | siliconcompiler/tools/verilator/verilator.py:65-80 | after the corrected setup, the option list is exactly `SetupOptions`, whatever it held before |
| Verilator.OptionsBeginWithTop | siliconcompiler/tools/verilator/verilator.py:65-66 | the option list starts with `-sv` and `--top-module <design>` |
| Verilator.WarningsFollowRelax | siliconcompiler/tools/verilator/verilator.py:69-75 | in relaxed mode the two relax flags come third and fourth, and the k-th suppressed warning comes at position 4 + k |
| Verilator.SetupTouchesOnlyItsKeys | siliconcompiler/tools/verilator/verilator.py:37-80 | setup leaves every key other than those it writes unchanged |
| Verilator.AddSuppressed | siliconcompiler/tools/verilator/verilator.py:74-75 | the suppression loop appends `-Wno-<w>` for each warning, in order |
| Verilator.SetOptions | siliconcompiler/tools/verilator/verilator.py:64-80 | with the corrected trace key-path (see "## Findings"), the option calls change the store as `OptionCalls` says |
| Verilator.Setup | siliconcompiler/tools/verilator/verilator.py:37-80 | the chip's store becomes `SetupConfig` (the corrected setup) of the store before it |
| Verilator.TraceUnderDoubledKey | siliconcompiler/tools/verilator/verilator.py:78-80 | as written, tracing appends `--trace` under the key-path with `task, <task>` twice |
| Verilator.TraceAsWrittenIsLost | siliconcompiler/tools/verilator/verilator.py:78-80 | as written, tracing never puts `--trace` in the option list of the node's task; the corrected setup does |
| Verilator.ParamArgs | siliconcompiler/tools/verilator/verilator.py:101-103 | one `-G<name>=<value>` per parameter, in order |
| Verilator.AppendParams | siliconcompiler/tools/verilator/verilator.py:101-103 | the parameter loop appends exactly `ParamArgs` |
| Verilator.AppendPrefixed | siliconcompiler/tools/verilator/verilator.py:96-117 | each prefixing loop appends the prefixed values in order |
| Verilator.AppendSources | siliconcompiler/tools/verilator/verilator.py:107-119 | the source loops append exactly `SourceArgs` |
| Verilator.ConfigFilesThenParams | siliconcompiler/tools/verilator/verilator.py:96-119 | the command line is the config files, then the `-G` parameters, then the pickled input or the source arguments |
| Verilator.PickledInputAlone | siliconcompiler/tools/verilator/verilator.py:105-106 | with a pickled input, `inputs/<design>.v` is the only and last source argument |
| Verilator.SourceGroupsInOrder | siliconcompiler/tools/verilator/verilator.py:107-119 | the source arguments are `-y`, `-v`, `-I`, `-f` and `-D` groups and then the Verilog files, each group in order |
| Verilator.RuntimeOptions | siliconcompiler/tools/verilator/verilator.py:87-121 | `runtime_options` returns exactly `RuntimeArgs` |
| Verilator.ParseVersion | siliconcompiler/tools/verilator/verilator.py:129-131 | a version is found iff the output has at least two words |
| Verilator.ParseVersionOfBanner | siliconcompiler/tools/verilator/verilator.py:129-131 | for `<name> <version> ...` the version is the second word |
| Verilator.ParseVersionOfOneWord | siliconcompiler/tools/verilator/verilator.py:129-131 | output of a single word has no version (IndexError) |
| Morty.VerilogSources | siliconcompiler/tools/morty/morty_setup.py:41-45 | only `.v`, `.vh`, `.sv` and `.svh` files are kept, and nothing is added |
| Morty.VerilogSourcesMembers | siliconcompiler/tools/morty/morty_setup.py:41-45 | a file is kept iff it is a source with a Verilog extension |
| Morty.VerilogSourcesAppend | siliconcompiler/tools/morty/morty_setup.py:41-45 | filtering keeps the order of the sources |
| Morty.VerilogSourcesExtremes | siliconcompiler/tools/morty/morty_setup.py:41-45 | an all-Verilog list is kept whole, and a list with no Verilog file gives nothing |
| Morty.Resolved | siliconcompiler/tools/morty/morty_setup.py:33-45 | each value is replaced by its schema path, in order |
| Morty.OptionsLeadAndCount | siliconcompiler/tools/morty/morty_setup.py:27-45 | the options start with `-o morty.v`, `--manifest manifest.json` and `-I ../../../`, then one option per listed value and per Verilog source |
| Morty.OptionGroupsInOrder | siliconcompiler/tools/morty/morty_setup.py:33-45 | the options carry `--library-dir`, `--library-file`, `-I` and `-D` groups of resolved values, then the resolved Verilog sources, each in order |
| Morty.FixedSettingsAdded | siliconcompiler/tools/morty/morty_setup.py:19-24 | threads `4`, format `cmdline`, copy `false`, exe and vendor `morty` are each appended |
| Morty.FixedSettingsFrame | siliconcompiler/tools/morty/morty_setup.py:19-24 | the fixed settings touch no other key |
| Morty.SetupAddsOptions | siliconcompiler/tools/morty/morty_setup.py:13-45 | setup appends exactly `MortyOptions` to the step's option list |
| Morty.SetupLeavesOthers | siliconcompiler/tools/morty/morty_setup.py:13-45 | setup leaves every key outside its own settings unchanged |
| Morty.AddFixedSettings | siliconcompiler/tools/morty/morty_setup.py:19-24 | the five `add` calls give `FixedSettings` |
| Morty.AddLeading | siliconcompiler/tools/morty/morty_setup.py:26-31 | the three leading options are appended |
| Morty.AddResolved | siliconcompiler/tools/morty/morty_setup.py:33-40 | one group loop appends the prefixed schema paths of its values |
| Morty.AddGroup | siliconcompiler/tools/morty/morty_setup.py:33-40 | one group of the list read before setup is appended after the options so far |
| Morty.ResolvedSourcesStep | siliconcompiler/tools/morty/morty_setup.py:41-45 | one more source adds its schema path iff it has a Verilog extension |
| Morty.AddSources | siliconcompiler/tools/morty/morty_setup.py:41-45 | the source loop appends the schema paths of the Verilog sources, in order |
| Morty.AddOptions | siliconcompiler/tools/morty/morty_setup.py:26-45 | the option calls append `MortyOptions` of the store before them |
| Morty.SetupTool | siliconcompiler/tools/morty/morty_setup.py:13-45 | `setup_tool` turns the store into `SetupConfig` of the store before it |
| VprPlace.PlaceOutputs | siliconcompiler/tools/vpr/place.py:21-26 | the outputs are `<design>.net` and `<design>.place`; threads keep a value already set, else get the CPU count; nothing else changes |
| VprPlace.Setup | siliconcompiler/tools/vpr/place.py:9-26 | `setup` turns the store into `PlaceConfig` of the store before it |
| VprPlace.GraphicsStringIsJoin | siliconcompiler/tools/vpr/place.py:40-42 | the graphics string is empty, or a space followed by the commands joined by spaces |
| VprPlace.GraphicsStringLength | siliconcompiler/tools/vpr/place.py:40-42 | its length is the commands' total length plus one space per command |
| VprPlace.BuildGraphicsString | siliconcompiler/tools/vpr/place.py:40-42 | the concatenation loop builds exactly `GraphicsString` |
| VprPlace.PlaceOptionsShape | siliconcompiler/tools/vpr/place.py:44-48 | the options are the common ones followed by `--save_graphics on`, `--graphics_commands` and the quoted graphics string |
| VprPlace.RuntimeOptions | siliconcompiler/tools/vpr/place.py:29-48 | `runtime_options` returns exactly `PlaceOptions` |
| VprPlace.PlacementMap | siliconcompiler/tools/vpr/place.py:63-70 | every constrained component maps to its placement, and no other key appears |
| VprPlace.PreProcess | siliconcompiler/tools/vpr/place.py:56-76 | always returns 0; placements are gathered iff the pin constraint is not valid, and are then exactly `PlacementMap` |

## Left out

- The LSF branch of `_deferstep` is reduced to its command, `lsrun` followed by the script. An unknown scheduler type reaches `schedule_cmd.append` with the name unbound; the model reports that as a failure.
- The layout geometry is left out because it is done by the KLayout library: reading and writing streams, bounding boxes, rotation, outline boxes and property texts. Each edit is logged instead.
- `delete_cell` is modelled as removing the cell, its names and every instance of it. Cells that only the deleted cell used are kept, since KLayout's exact pruning is library behaviour.
- Subprocess output, process waiting, file writes, `mkdir`, `chmod`, `shutil.copytree`, `tarfile` and `tempfile` are left out. Their results are inputs to the model:
  - In testcase generation, each failing file-system step is a stage of `failAt` in `Issue.Generation`: the `orig_manifest.json` write, copying inputs, writing the replay files, or sealing the archive.
  - In `Scheduler.DeferStep`, `mkdir`, the manifest and launcher writes and the `sbatch` call are taken to succeed; `sbatch`'s output is an input.
- The watchdog event is modelled as a ping count, and `time.sleep` is left out.
- Scheduler.DeferStep: is built on the corrected poll loop. As written, the NameError at line 78 of `scheduler.py` ends it after submission, before the `error` and `active` tables are updated; only `Scheduler.PollAsWritten` states that outcome.
- `Scheduler.PollJob`: the real loop polls until a deciding response arrives. The model's loop is bounded by the given responses and reports "still polling" when they run out.
- The contents of `issue.json`, `README.txt` and `run.sh` are left out (environment, Python and machine information, and templates), as is the git author, date and message.
- The git repository lookup is an input: the commits walked back from the head and the tag's commit. When the repository is invalid, the git data is left out altogether.
- `pre_process` rerun, `_makecmd`, `_write_task_manifest` and `_collect` inside testcase generation are not modelled. Whether the steps around them fail is an input. The rerun `pre_process` may also set parameters; those writes are covered by the next line.
- Parameter values are not modelled. A parameter is its type, whether it has a value set, its `copy` flag and whether it carries hash values. So the `arg, step` and `arg, index` writes before the replay files are written and the archive is sealed (issue.py lines 149-150 and 167-168) are left out. So is whatever the rerun `pre_process` sets. A failed generation keeps all of these, since the saved schema is not put back.
- Issue.GenerationFails: its schema equality covers the parameters' types, value presence, copy flags and hash marks and the `continue` and `copyall` options only, not parameter values.
- Issue.MarkHashed: `hash_files` writes hash values per step and index that `_getvals` yields; the model records one flag per key-path, set when there is at least one such entry.
- The `help` field that Verilator's `setup` writes is left out. It is documentation text only.
- `vpr.setup_tool`, `vpr.runtime_options` and `vpr.get_common_graphics` are not part of this model. Their results, the base options and the graphics commands, are inputs.
- The VPR XML constraint writer is not part of this model. `VprPlace.PreProcess` returns the placement map it would be given.
- Morty's and VPR's `post_process` are left out. They are file copies and manifest reading.
- `find_files`, `schema_path`, `os.cpu_count` and `os.path.isfile` are inputs to the model.
- The schema's own key-path validation is not modelled. `set` and `add` on any key-path store the value, so the doubled key-path in Verilator's trace branch is written as any other key.
- The schema's defaults are simplified:
  - A list that was never set reads as empty.
  - A flag that was never set reads as false.
  - A key-path with no declared type reads as the empty type.
- `KlayoutOperations.ParseInt`: Python's `int()` also accepts surrounding whitespace, underscores and non-ASCII digits; the model accepts only an optional sign and ASCII digits. `IsNumeric` likewise covers ASCII digits only.
- `Issue.IssueChip.HashFiles`, `Issue.PrepareHashes` and `Issue.GenerateTestcase` require the listed key-paths to be in the schema and non-empty. `allkeys` yields only such key-paths, and `chip.get` on a missing key-path is not modelled.
- `Issue.CopyFlags` and `Issue.Generation` require the listed key-paths to be in the schema, for the same reason.
- The model follows the code where it differs from its documentation and the intuitive reading:
  - A PDK file that the node's task requires is not forced into the testcase (`IssuePolicy.RequiredPdkFileNotForced`).
  - The saved schema is put back only when generation runs to the end (`Issue.GenerationFails`).
  - The job id is the text after the last single space, not after the last whitespace (`Scheduler.JobId`).

## Findings

| source | as written | input that shows it | evidently intended | confidence | as-written member | corrected member |
|---|---|---|---|---|---|---|
| siliconcompiler/scheduler.py:78 | the poll loop calls `time.sleep(3.0)`, but the file never imports `time`, so the first iteration raises NameError before any status query | a Slurm job whose `scontrol` response is `JobState=COMPLETED` | wait three seconds, then poll; a completed job ends with return code 0 | high, not executed | Scheduler.PollAsWrittenNeverReadsStatus | Scheduler.PollJob, Scheduler.DeferStep |
| siliconcompiler/tools/verilator/verilator.py:79 | the trace branch adds `--trace` under `tool, verilator, task, <task>, task, <task>, option`, with `task, <task>` doubled | `option, trace` set to true for the node | append `--trace` to the option list of the node's task `tool, verilator, task, <task>, option` | high, not executed | Verilator.TraceAsWrittenIsLost | Verilator.SetupOptionList |
