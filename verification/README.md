# Verified models of First-Agent's stateful core

This Dafny project models the parts of the First-Agent harness whose correctness rests on state,
ordering or exact text, and proves what they are for. I/O is kept abstract: a step of the outside is
a parameter that succeeds, fails or leaves something behind, and the theorems quantify over all of it.

| files | what they are about | main results |
|---|---|---|
| `Blackboard.dfy`, `CheckThenWrite.dfy`, `Reordering.dfy` | the append-only log with read sets, write sets, writers and parents | the conflict check reports exactly what it must; for every history of guarded writes, replaying in any order that keeps writers and parents gives the same files; exactly which two rows commute; when check and write may be separate calls |
| `ArtifactIndex.dfy`, `ArtifactRepeat.dfy` | versioned rows per knowledge file | under every interleaving of passes, histories are trees with one root per logical id; a repeat over unchanged files writes nothing |
| `Bootstrap.dfy`, `BootstrapEngine.dfy`, `BootstrapReady.dfy`, `BootstrapEscape.dfy`, `BootstrapRuns.dfy`, `BootstrapTogether.dfy` | the workspace readiness transaction | in every interleaving with crashes and outside changes a marker is written only at the end of a complete repair in one lock hold; READY means healthy, among any other processes too; the fast path agrees with the full repair; exactly when a repair succeeds and exactly when SystemExit gets through |
| `Encoding.dfy`, `Fingerprints.dfy`, `RulePacks.dfy` | digest preimages | injectivity of the framed, terminated and joined encodings, and of the fingerprint as a whole; exactly which rule packs their digest tells apart |
| `Chunker.dfy` | the Markdown chunker | bodies reassemble the file byte for byte; breadcrumbs are the enclosing headings; anchors are distinct |
| `Walk.dfy`, `Kernel.dfy`, `KernelOrder.dfy`, `KernelRuns.dfy` | the authoring kernel | the stack walk finds every reachable file once, whatever the listing order; exactly when there is a report; a report is complete, sorted, fails closed; exactly when it does not depend on the order of the rules |
| `Exports.dfy`, `ExportsWorst.dfy`, `ExportsRight.dfy`, `ExportsExact.dfy` | reading `__all__` off a module | extraction agrees with every run of the module, where unknown code may do anything to the objects and variables that it can reach, if and only if a condition holds that is computed from the text |
| `Routing.dfy` | the egress route table | when the table is built, that order and repetition do not matter, and that requests reach their own route |
| `Reconcile.dfy` | mutation results | parsing round trips; counts add up; the verdict is clean exactly when the score is 1 or undefined |
| `DraftStore.dfy` | the pull-request draft | a text is read exactly when this session wrote it last and the file still reads as it |
| `ConfigLines.dfy`, `ConfigRoundTrip.dfy` | the two line parsers | warned lines do nothing; nested and flat forms mean the same; written settings read back |
| `Basics.dfy`, `Sorting.dfy` | sequences, code-point order, stable sorting | shared vocabulary |

State that the program changes step by step (the log, the indexer, the workspace, the hasher, the
breadcrumb stack, the draft store, and every loop) is modelled by classes and methods. Each of these
is proved against a function, and the theorems are about that function, so they hold of the method.

## Assumptions

- **Check and write.** The conflict check and the write are separate calls, and `self.lock` covers only
  the JSONL mirror (`src/fa/blackboard/blackboard.py:248-254`). The theorems about logs take "check, then
  write" as one step (`Board.GuardedWrite`); `WriteKeepsIff` and `UndisturbedIsCoordinated` say when the two calls
  amount to that, and `RaceIsUncoordinated` shows that they need not.
- **Rows.** The id is a primary key and a repeated id is refused (`src/fa/inner_loop/session_db.py:700-716`);
  queries return rows by ascending timestamp (`src/fa/inner_loop/session_db.py:749`), write order on ties.
  Timestamps are integers; only their order matters. `QueryIsWriteOrder` says when this is write order.
- **Hooks.** `install_hooks` makes every seat current or raises, leaving any seats behind.
- **Headings.** The parser delivers headings with strictly increasing lines that exist in the file.
- **Hashes and text.** SHA-256, UTF-8, `str.lower`, `urlparse`, `int()`, white space and slugs are parameters.
  Injectivity is assumed only where a lemma says so: of SHA-256 in `FingerprintTellsApart` (with
  UTF-8), `ReadIff`, `ReadCurrentText` and `FreshDraftReadsBackIff`. Nothing is assumed of the truncated hash in logical ids
  except in `RepeatWritesNothing`, which asks that the scanned files have different logical ids.
- **Rules.** A rule is deterministic: it returns a sequence of diagnostics, raises, exits the interpreter, or
  returns something that raises once its elements are asked for.
- **Modules.** In the model of a running module, code of which only the names are known gets at variables and
  objects of the module by way of these names, of what they refer to, and of what the functions among that mention;
  not by `globals()`, a debugger, or another module that imports this one. What is imported knows nothing of
  the module. A definition with decorators or defaults, and an annotation that is evaluated, is a statement of
  unknown code.
- **Draft files** are written with POSIX newlines.

## Where the code and its documentation differ, the code is followed

- The docstring at `src/fa/blackboard/artifact_index.py:135` says that first rows carry no `logical_id`; the
  code sets it on every row (lines 249-257).
- An empty assumption text that is found first counts as "nothing found" in
  `src/fa/blackboard/blackboard.py:376-378`: `BlankAssumptionHides`; `AssumptionReportedIff` gives the exact condition.
- Rows of different kinds are never compared, so the guarantee for whole logs has a condition:
  `KindsAreNotComparedAcross`, `WholeLogReorders`.
- SystemExit from the hook installer is not caught by `ensure`, and the installer exits when the hooks directory does
  not exist (`src/fa/hygiene/hooks/install.py:103-104`): `EscapesIff` says exactly when it gets through,
  `ExitGetsThrough` is a checkout on which it does although nothing fails.
- A private marker that is not UTF-8, is JSON but no object, or makes the JSON loader raise something other than
  JSONDecodeError (an integer with too many digits, nesting that is too deep), or a private sentinel that is not
  UTF-8, ends in `unexpected_internal_error` although every command would work: `RepairSucceedsIff`. The marker is gone by the
  next call (`BadMarkerHeals`); the sentinel stays, and so does the error (`BadSentinelStays`).
- A replaced file whose mode cannot be set afterwards has been replaced all the same (`Late`).
- Results from before the lock is held (invalid workspace, lock timeout, state paths) do not touch the marker.
- `_extract_all` says nothing about unpackings, second names of the list, containers that hold it, helper functions
  that change it, or other statements: `ExtractionIsRightIff` gives the exact condition; `AliasFoolsIff`,
  `UnpackingFools`, `ContainerFools` and `HelperFools` are instances.
- The comment at `src/fa/authoring_rules/__init__.py:49-52` says that rule order does not leak into the report. Two
  rules that report one place under one key but with different columns make it leak (`RuleOrderCanLeak`);
  `OrderIsInvisibleIff` gives the exact condition.
- The docstring at `src/fa/authoring_tcb.py:625-627` promises a report in every case. There is none if the kernel's own
  sources or a directory cannot be read, the manifest raises something other than ManifestError, a file cannot be
  read or has a name without UTF-8 form, the parser raises something other than SyntaxError, or a dispatched rule
  exits, raises only while its result is iterated, or raises with a text that cannot be encoded; and otherwise there
  is one: `RunAll`, with `UnreadableFileEscapes` and `LateRuleEscapes` as instances. So `FA-AUTHORING-V0-IO` only follows a
  race between two reads (`IoMeansRace`).
- The docstrings at `src/fa/blackboard/artifact_index.py:163-167` and `209-211` say "Never raises". A query that the
  database refuses, and a file name without UTF-8 form, go through: `EnsureArtifactsIndexed` and `IndexOneFile` say exactly when.
- The docstring at `src/fa/authoring_tcb.py:275-276` says that the rule-pack digest changes with any byte of any module. It
  feeds raw source bytes between NULs: `RawSourcesCollide`, and `ToldApartIff` for the exact condition.
- The comment in `_conflict_message` says that equal names, URLs and key variables cannot conflict; providers
  can still differ: `BlameCanMislead`, and `BlameIsTrueIff` for the exact condition.
- A draft with a carriage return cannot be read back, and a file that is not UTF-8 makes the read raise:
  `FreshDraftReadsBackIff`, `RaisesIff`.

## Model

| member | source | states |
|---|---|---|
| `Blackboards.AssumptionReportedIff` | src/fa/blackboard/blackboard.py:154-168 | an assumption is reported exactly when some assumption of the new row is broken by the old one, except when the first hit is the empty text; what is reported is one of the row's assumptions and really broken |
| `Blackboards.BlankAssumptionHides` | src/fa/blackboard/blackboard.py:154-168 | two rows where an empty broken assumption hides another broken one from the check |
| `Blackboards.CompareIff` | src/fa/blackboard/blackboard.py:357-388 | the pair is a conflict if and only if ids differ, the writer is not provably the same, the old row is not the named parent, and they overlap or an assumption is broken; the overlap is exactly the paths both touch and one writes |
| `Blackboards.ReasonsExplain` | src/fa/blackboard/blackboard.py:171-181 | every stated reason is true of the two rows and every overlapping path is named by one |
| `Blackboards.VerdictIsSymmetric` | src/fa/blackboard/blackboard.py:95-116 | without assumptions and parent links the verdict is symmetric in the two rows, and what is reported does not depend on the recorded versions of either, `base_commit` included |
| `Blackboards.QueryIsWriteOrder` | src/fa/inner_loop/session_db.py:724-862 | while the clock does not run backwards a query returns the rows of a kind in write order |
| `Blackboards.DetectIsExact` | src/fa/blackboard/blackboard.py:348-389 | the conflicts are, in log order, exactly those of the earlier rows that must be reported |
| `Blackboards.PassesIff` | src/fa/blackboard/blackboard.py:348-389 | no conflict is returned if and only if no earlier row must be reported |
| `Blackboards.LandKeepsInvariants` | src/fa/blackboard/blackboard.py:345-389 | one guarded write keeps ids unique, keeps unordered rows of a kind apart, and only appends |
| `Blackboards.EveryLogIsCoordinated` | src/fa/blackboard/blackboard.py:345-389 | in every log built by guarded writes any two rows of one kind are ordered by writer or parent, or neither touches what the other writes |
| `Blackboards.SessionDb.InsertRow` | src/fa/inner_loop/session_db.py:639-722 | a repeated id is refused and nothing is replaced; otherwise the row is appended |
| `Blackboards.Board.Write` | src/fa/blackboard/blackboard.py:223-241 | the row is appended under the board's own writer id, or refused as a duplicate |
| `Blackboards.Board.DetectConflict` | src/fa/blackboard/blackboard.py:348-389 | the loop computes the specified conflicts; it returns none exactly when no row of the log must be reported |
| `Blackboards.Board.GuardedWrite` | src/fa/blackboard/blackboard.py:345-389 | check and write as one step: the row lands exactly when it passes and its id is free |
| `CheckThenWrite.WriteKeepsIff` | src/fa/blackboard/blackboard.py:223-254 | when a row that passed its check is written later, a coordinated log stays coordinated if and only if nothing written in between clashes with it |
| `CheckThenWrite.UndisturbedIsCoordinated` | src/fa/blackboard/blackboard.py:223-254 | every interleaving of checks and writes in which no other writer's row of the kind falls between a check and its write leaves a coordinated log |
| `CheckThenWrite.RaceIsUncoordinated` | src/fa/blackboard/blackboard.py:248-254 | two checks before two writes leave two unordered rows that write one file |
| `Reordering.CommuteIff` | src/fa/blackboard/blackboard.py:142-151 | two rows with different ids have the same effect in either order, for every effect within the declared sets and every state, if and only if they share no written path and neither one that writes reads what the other writes |
| `Reordering.OrderDoesNotMatter` | src/fa/blackboard/blackboard.py:345-389 | for every history of guarded writes and every effect that respects the declared sets, replaying a kind's rows in any order that keeps each writer's order and the parent links leaves the same files |
| `Reordering.WholeLogReorders` | src/fa/blackboard/blackboard.py:345-389 | the same for the whole log, all kinds together, as long as unordered rows of different kinds are independent |
| `Reordering.KindsAreNotComparedAcross` | src/fa/blackboard/blackboard.py:351 | two rows of different kinds can both land, write one file, and end differently in the two orders, so the condition of `WholeLogReorders` is needed |
| `ArtifactIndex.Indexer.IndexOneFile` | src/fa/blackboard/artifact_index.py:198-284 | one file's handling gives rows, memory and counters as specified, error by error; an exception goes through exactly when a readable file of an artifact type has a name without UTF-8 form, and then nothing is written |
| `ArtifactIndex.ScanRows` | src/fa/blackboard/artifact_index.py:143-150 | the inner loop keeps the newest row per logical id, the later one on equal timestamps |
| `ArtifactIndex.LatestByLogicalId` | src/fa/blackboard/artifact_index.py:132-151 | the scan over all wanted types gives the specified memory |
| `ArtifactIndex.EnsureArtifactsIndexed` | src/fa/blackboard/artifact_index.py:158-195 | a pass ends in the specified rows and statistics; scanned = added + updated + skipped + errors; no root or no artifact type means nothing is written; an exception goes through exactly when a query is refused or a file raises, and the rows of the files before that one stay |
| `ArtifactIndex.IndexOneCountsOnce` | src/fa/blackboard/artifact_index.py:212-284 | every way through one file's handling raises `scanned` and exactly one outcome by one |
| `ArtifactIndex.EveryFileHasOneOutcome` | src/fa/blackboard/artifact_index.py:185-195 | over a whole pass every scanned file has exactly one outcome |
| `ArtifactIndex.IndexOneShape` | src/fa/blackboard/artifact_index.py:236-276 | handling a file leaves rows and memory alone, or appends one row with a fresh id, the hash read, its type and time, that continues the file's history, and remembers it |
| `ArtifactIndex.EveryRunIsSound` | src/fa/blackboard/artifact_index.py:132-284 | under every interleaving of passes, query by query and file by file, and of foreign rows, ids stay unique and every artifact row is a first revision or names an earlier row of the same logical id |
| `ArtifactIndex.Origin` | src/fa/blackboard/artifact_index.py:258-269 | following parents always ends at the parentless row of the same logical id |
| `ArtifactIndex.HistoriesAreTrees` | src/fa/blackboard/artifact_index.py:132-284 | in every run all revisions of a logical id have the same origin, and there is at most one parentless row |
| `ArtifactRepeat.LatestOfAppend` | src/fa/blackboard/artifact_index.py:143-150 | a row that is not older than the rest becomes the latest of its logical id and changes no other |
| `ArtifactRepeat.RepeatWritesNothing` | src/fa/blackboard/artifact_index.py:158-195 | a second pass over unchanged files adds and updates nothing, whatever its own clock, suffixes and database do |
| `Encoding.NumeralRoundTrip` | src/fa/workspace_bootstrap.py:361-367 | decimal and octal texts determine the number |
| `Encoding.FramedInjective` | src/fa/workspace_bootstrap.py:351-356 | equal fingerprint input means equal (label, payload) lists, for all byte strings shorter than 2^64 |
| `Encoding.Hasher.FingerprintInput` | src/fa/workspace_bootstrap.py:351-356 | one field is fed as length, label, length, payload; it fails exactly when a length does not fit eight bytes |
| `Encoding.FramedInput` | src/fa/workspace_bootstrap.py:359-372 | feeding all fields gives the framed input, exactly when all lengths fit |
| `Encoding.TerminatedInjective` | src/fa/authoring_tcb.py:407-414 | equal snapshot input means equal lists of NUL-free paths and hash texts |
| `Encoding.SnapshotInput` | src/fa/authoring_tcb.py:407-414 | the loop feeds the terminated encoding of the files in order |
| `RulePacks.ToldApartIff` | src/fa/authoring_tcb.py:272-285 | for every choice of admissible paths and their order, a pack is the only one with its preimage if and only if it is empty, or a single file whose source does not hide a further admissible file between NULs |
| `RulePacks.AnyPathsToldApartIff` | src/fa/authoring_tcb.py:272-285 | for all NUL-free paths: a pack is the only one with its preimage if and only if it is empty, or a single file with at most one NUL in its source |
| `RulePacks.CleanPacksToldApart` | src/fa/authoring_tcb.py:272-285 | packs without NULs in their sources are told apart from each other |
| `RulePacks.RawSourcesCollide` | src/fa/authoring_tcb.py:279-284 | two different packs of `.py` files with one preimage |
| `Encoding.JoinedInjective` | src/fa/authoring_tcb.py:288-305 | NUL-joined rule keys determine the list of keys |
| `Fingerprints.FieldsInjective` | src/fa/workspace_bootstrap.py:359-371 | the field list determines every input file, hook mode and tool version |
| `Fingerprints.FingerprintTellsApart` | src/fa/workspace_bootstrap.py:359-372 | workspaces with one fingerprint have the same inputs, hook modes and tool versions |
| `Fingerprints.ComputeFingerprint` | src/fa/workspace_bootstrap.py:359-372 | the computed value is that fingerprint, and there is one exactly when all lengths fit |
| `Bootstrap.GoDescends` | src/fa/workspace_bootstrap.py:559-673 | every step of a lock holder lowers a rank, so every call ends |
| `BootstrapEngine.Workspace.InspectState` | src/fa/workspace_bootstrap.py:559-577 | looking at tools, fingerprint, ownership and fast path agrees with the transition system |
| `BootstrapEngine.Workspace.InstallHooks` | src/fa/workspace_bootstrap.py:528-538 | seats are as the installer left them; it goes on exactly when it succeeded and all are current; agrees with the transition system |
| `BootstrapEngine.Workspace.ManageHooks` | src/fa/workspace_bootstrap.py:509-538 | ownership check and installation, before and after the sync, agree with the transition system |
| `BootstrapEngine.Workspace.RepairState` | src/fa/workspace_bootstrap.py:579-603 | marker removal, hooks, sync, warm-up and hooks again agree with the transition system |
| `BootstrapEngine.Workspace.SyncAndWarm` | src/fa/workspace_bootstrap.py:587-602 | sync and warm-up with their failures and time-outs agree with the transition system |
| `BootstrapEngine.Workspace.ValidateState` | src/fa/workspace_bootstrap.py:604-631 | READY only with a synced environment, current hooks, and sentinel and marker written for the fingerprint of the environment as it now is; agrees with the transition system |
| `BootstrapEngine.Workspace.WriteSentinelAndMarker` | src/fa/workspace_bootstrap.py:615-631 | sentinel before marker, late failures leave what was replaced, nothing else changes; READY only when both match; agrees with the transition system |
| `BootstrapEngine.Workspace.RecordLocked` | src/fa/workspace_bootstrap.py:653-673 | a degraded result leaves a marker exactly when there was one and every attempt to remove it failed; agrees with the transition system |
| `BootstrapEngine.Workspace.EnsureWorkspaceReady` | src/fa/workspace_bootstrap.py:730-766 | READY only for a healthy workspace under its own fingerprint; a degraded result from under the lock leaves no marker while removals work, one from before leaves the marker alone; without a result the installer exited, of itself or for want of a hooks directory, and the marker is gone; all this is the transition system's undisturbed run |
| `BootstrapEngine.Workspace.CheckWorkspaceReady` | src/fa/workspace_bootstrap.py:691-727 | changes nothing; READY only for a healthy workspace, and, when no command fails, if and only if the workspace is valid and healthy and its state paths are in order |
| `BootstrapReady.NewMarkerMatches` | src/fa/workspace_bootstrap.py:384-399 | the marker that a repair writes is one that the matcher accepts |
| `BootstrapReady.ReadyMeansHealthy` | src/fa/workspace_bootstrap.py:559-631 | READY, from `ensure` or `check`, only for a workspace with current hooks, synced environment, matching marker and sentinel, under its own fingerprint |
| `BootstrapReady.FastReadyIff` | src/fa/workspace_bootstrap.py:438-462 | the fast path says yes exactly for a healthy workspace |
| `BootstrapReady.HealthyIsFast` | src/fa/workspace_bootstrap.py:559-577 | a healthy workspace takes the fast path and is left untouched |
| `BootstrapReady.CheckIsReadyIff` | src/fa/workspace_bootstrap.py:676-727 | `check` is ready exactly for a valid, healthy workspace whose state paths are in order |
| `BootstrapReady.RepairThenFastPath` | src/fa/workspace_bootstrap.py:559-631 | after any READY result, if nothing changes, the next `ensure` and the next `check` both return `ready_fast_path` with the same fingerprint, and nothing is touched |
| `BootstrapReady.RepairSucceedsIff` | src/fa/workspace_bootstrap.py:384-399 | when every command works, a managed workspace becomes ready if and only if its hooks directory exists and, unless there is no project python yet, the private sentinel is UTF-8 and the private marker is UTF-8 that loads as an object or fails as JSON; otherwise the call ends in `unexpected_internal_error`, or without a result when only the directory is missing, with the marker removed and nothing else changed but the state paths |
| `BootstrapReady.BadMarkerHeals` | src/fa/workspace_bootstrap.py:653-673 | after such an internal error the next call makes the workspace ready if and only if the sentinel can be decoded and the hooks directory exists |
| `BootstrapReady.BadSentinelStays` | src/fa/workspace_bootstrap.py:447-456 | with an undecodable sentinel every one of any number of calls ends in `unexpected_internal_error` and leaves the sentinel |
| `BootstrapReady.RecordLeavesMarkerIff` | src/fa/workspace_bootstrap.py:653-673 | a degraded result leaves a marker exactly when there was one and every attempt to remove it failed; a READY one changes nothing |
| `BootstrapEscape.OnlyTheInstallerEscapes` | src/fa/workspace_bootstrap.py:528-538 | from every point of a call: without a typed result it was ended by SystemExit from an installer, of itself or for want of a hooks directory, and the marker is gone by then |
| `BootstrapEscape.EscapesIff` | src/fa/workspace_bootstrap.py:559-603 | a call ends without a typed result if and only if it takes the lock, sees its tools, reads its inputs, owns the hooks, is told No by the fast path, removes the marker, and the first installer exits or finds no hooks directory, or it and sync and warm-up succeed, the hooks are still owned and the second installer exits |
| `BootstrapEscape.ExitGetsThrough` | src/fa/hygiene/hooks/install.py:101-112 | on a checkout with its four hooks and no hooks directory SystemExit gets through, for every script in which nothing fails |
| `BootstrapEscape.DegradedLeavesNoMarker` | src/fa/workspace_bootstrap.py:653-673 | a result that is not READY leaves no marker as long as removals work; one from before the lock changes nothing but the state paths |
| `BootstrapRuns.GoIsOrderly` | src/fa/workspace_bootstrap.py:559-673 | a step goes on with the acts in their order or gives up; only the last act writes a marker |
| `BootstrapRuns.ApplyKeepsInv` | src/fa/workspace_bootstrap.py:215-236 | every step, crash, start and outside change keeps: one lock holder, whose acts since acquiring stand at the end of the trace |
| `BootstrapRuns.MarkersAreEarned` | src/fa/workspace_bootstrap.py:559-631 | in every interleaving a marker for f is written only right after, in one lock hold, removal, hooks, sync, warm-up, hooks, locked check for f, hook currency and sentinel for f |
| `BootstrapRuns.MarkerOnDiskIsEarned` | src/fa/workspace_bootstrap.py:559-673 | starting without a marker, and while nobody else writes markers, a marker on disk is one that a complete repair wrote last; during a repair there is none, so a crash in the middle leaves none |
| `BootstrapTogether.ReadyAmongOthers` | src/fa/workspace_bootstrap.py:730-766 | in every interleaving of processes with crashes anywhere, and outside changes while nobody holds the lock, a process that finishes READY leaves a workspace that is healthy under its own fingerprint |
| `Chunker.LineByteOffsets` | src/fa/chunker/markdown.py:120-130 | offset k is the number of bytes before line k, up to the end of the file |
| `Chunker.OffsetSlices` | src/fa/chunker/markdown.py:254-260 | slicing the source at two offsets gives exactly the lines in between |
| `Chunker.BreadcrumbStack.Observe` | src/fa/chunker/markdown.py:319-322 | afterwards the stack is exactly the headings observed so far that every later one is deeper than, with increasing levels |
| `Chunker.BreadcrumbStack.AncestorsFor` | src/fa/chunker/markdown.py:324-325 | the loop returns the texts of the headings that enclose the given one, whether it was the last observed or comes next |
| `Chunker.StackIsEnclosing` | src/fa/chunker/markdown.py:307-325 | after any headings the stack holds exactly those that every later heading is deeper than, and its levels strictly increase |
| `Chunker.ShallowerIsAncestors` | src/fa/chunker/markdown.py:324-325 | the breadcrumb of a heading is exactly the earlier headings j such that every heading after j, up to its own, has a greater level |
| `Chunker.TakenAreFew` | src/fa/chunker/markdown.py:283-304 | consecutive taken suffixes are at most as many as the anchors seen, so the search ends |
| `Chunker.DisambiguateAnchor` | src/fa/chunker/markdown.py:283-304 | a free base is kept; otherwise the least free suffix from 2 up, at most the number of seen anchors plus one |
| `Chunker.RangesMeetIff` | src/fa/chunker/markdown.py:254-260 | line ranges meet without gap or overlap if and only if split points lie below the chunk before and within the file |
| `Chunker.TilingReassembles` | src/fa/chunker/markdown.py:254-278 | bodies concatenate to the source and byte ranges are contiguous from 0 to the end |
| `Chunker.CutAll` | src/fa/chunker/markdown.py:244-280 | one chunk per split point with its lines, bytes, breadcrumb and anchor |
| `Chunker.SplitByHeadings` | src/fa/chunker/markdown.py:227-280 | the chunks are those of the headings no deeper than the split depth |
| `Chunker.SplitTiles` | src/fa/chunker/markdown.py:244-278 | the chunks of a heading split tile the file |
| `Chunker.AnchorsAreDistinct` | src/fa/chunker/markdown.py:261-262 | anchors within one file are pairwise distinct |
| `Chunker.ChunkText` | src/fa/chunker/markdown.py:67-117 | bodies reassemble the file and anchors differ, in both branches; headings inside the frontmatter do not split |
| `Walk.VisitEntries` | src/fa/authoring_tcb.py:393-404 | one directory's files and directories are accounted for, and the remaining work shrinks |
| `Walk.WalkFiles` | src/fa/authoring_tcb.py:393-404 | the stack walk ends and yields what the recursive walk yields |
| `Walk.WalkIsExact` | src/fa/authoring_tcb.py:393-404 | a path is yielded once if it names a file reachable through unskipped real directories, and never otherwise |
| `Walk.EnumeratePaths` | src/fa/authoring_tcb.py:380-390 | the result is the sorted list of these paths |
| `Walk.ListingOrderIsInvisible` | src/fa/authoring_tcb.py:380-404 | the enumeration does not depend on the order in which directories are listed |
| `KernelRuns.HashFiles` | src/fa/authoring_tcb.py:407-414 | the snapshot is of all paths and digests in order; it raises exactly when some name does not encode or some file cannot be read |
| `KernelRuns.FindBlindSpots` | src/fa/authoring_tcb.py:325-374 | one blocking diagnostic per Python file outside the corpora that cannot be read again or has a syntax error, in order; it raises exactly when the parser raises something else |
| `KernelRuns.CollectResults` | src/fa/authoring_tcb.py:592-603 | results of all rules in order, one crash diagnostic in place of a crash; no result at all exactly when some rule exits, raises while its result is iterated, or raises with a text that does not encode |
| `KernelRuns.DispatchRules` | src/fa/authoring_tcb.py:592-611 | these results followed by one advisory per undated advisory, or none under the same condition |
| `KernelRuns.RunAll` | src/fa/authoring_tcb.py:614-663 | there is no report if and only if the kernel's own files, the manifest or a directory raise, a file cannot be hashed under its name, the parser raises something other than SyntaxError, or files are there and a rule slips past the handler; otherwise it is the specified one; without files no rule runs |
| `Kernel.AdvicesAnswer` | src/fa/authoring_tcb.py:567-589 | there is one synthetic advisory per undated one, at its place, dated and with its own code |
| `KernelRuns.ReportIsComplete` | src/fa/authoring_tcb.py:592-663 | if there is a report, it is a key-sorted permutation of everything found, and of the right length |
| `Kernel.ReportReadsInOrder` | src/fa/authoring_tcb.py:155-167 | blocks before advisories before notes, then by code, path and line |
| `Kernel.ExitCodeIff` | src/fa/authoring_tcb.py:241-244 | the exit code is 1 exactly when something found blocks |
| `KernelRuns.CrashFailsClosed` | src/fa/authoring_tcb.py:554-564 | if there is a report, a crashing rule is named in it and fails the run |
| `KernelRuns.BlindSpotFailsClosed` | src/fa/authoring_tcb.py:325-374 | if there is a report, every Python file that could not be looked into is named in it and fails the run |
| `KernelRuns.IoMeansRace` | src/fa/authoring_tcb.py:336-345 | every file of a reported run was readable when the snapshot was taken |
| `KernelRuns.UnreadableFileEscapes` | src/fa/authoring_tcb.py:407-414 | one file that cannot be read leaves no report |
| `KernelRuns.LateRuleEscapes` | src/fa/authoring_tcb.py:592-603 | one rule that raises late leaves no report, also beside a crash |
| `Kernel.RuleOrder` | src/fa/authoring_rules/__init__.py:49-57 | permuting the rules keeps signature, exit code, key sequence and contents, and the whole report when no two different findings share a key |
| `Kernel.ReportsAgreeIff` | src/fa/authoring_tcb.py:155-167 | two reports are equal exactly when, key by key, the same was found in the same order |
| `KernelOrder.OrderIsInvisibleIff` | src/fa/authoring_rules/__init__.py:49-57 | every order of the rules gives the same report if and only if nothing is dispatched or, under every key, the results of any two rules commute as sequences, and so does the advice on them |
| `KernelRuns.RunOrderIff` | src/fa/authoring_tcb.py:614-663 | whether there is a report never depends on the order of the rules; what it is does not if and only if there is none, nothing is dispatched, or the rules commute in that way |
| `Kernel.RuleOrderCanLeak` | src/fa/authoring_tcb.py:155-167 | two rules whose order shows in the report |
| `Kernel.SignatureIff` | src/fa/authoring_tcb.py:288-305 | equal signature preimages if and only if the same classes ran, each as often |
| `Exports.LiteralStringNames` | src/fa/authoring_rules/exports.py:38-53 | the set of names of a literal of strings, or "not literal" |
| `Exports.ExtractAll` | src/fa/authoring_rules/exports.py:59-115 | the loop computes the specified state over all statements |
| `ExportsWorst.WorstEnds` | src/fa/authoring_rules/exports.py:66-113 | the run in which all that unknown code can reach gets connected is a run of the module |
| `ExportsRight.StepIsMatched` | src/fa/authoring_rules/exports.py:66-113 | whatever a statement does in a run, the worst run gets past it too, and still leads everywhere the run leads, with the same lists and tuples of strings where it has any |
| `ExportsExact.StepHolds` | src/fa/authoring_rules/exports.py:66-113 | one statement: where nothing unknown got at `__all__`, it holds the extracted names and what was added through other names of its list, nothing else |
| `ExportsExact.RunsIff` | src/fa/authoring_rules/exports.py:59-115 | the module can be run to its end if and only if the worst run gets there |
| `ExportsExact.ExtractionIsRightIff` | src/fa/authoring_rules/exports.py:59-115 | the extracted names are what `__all__` holds at the end of every run, whatever unknown code does to what it can reach, if and only if the text is disciplined: since the last replacement no such code can reach `__all__` or its list through names, containers or functions, and what is added through other names of the list is extracted too |
| `ExportsExact.AliasFoolsIff` | src/fa/authoring_rules/exports.py:66-113 | `b = __all__ = ["a"]; b += [name]` holds both names in every run, so extraction is right exactly when they are equal |
| `ExportsExact.UnpackingFools` | src/fa/authoring_rules/exports.py:69-77 | an unpacking that assigns to `__all__` is not seen, and some run ends with something else |
| `ExportsExact.ContainerFools` | src/fa/authoring_rules/exports.py:66-113 | `c = [__all__]` is fine, an augmented assignment to an element of `c` is not |
| `ExportsExact.HelperFools` | src/fa/authoring_rules/exports.py:66-113 | a function that mentions `__all__` is fine wherever it is defined, a later statement that uses it is not |
| `Routing.RouteNameIsJoinedWords` | src/fa/egress_proxy/routing.py:52-69 | a name is the words of provider and slug joined by single dashes; there is none exactly when there are no words |
| `Routing.NamesAreUrlSafe` | src/fa/egress_proxy/routing.py:59-69 | names consist of lower-case letters, digits and single inner dashes |
| `Routing.BuildRouteTable` | src/fa/egress_proxy/routing.py:133-164 | the loop builds the specified table or refuses with the first problem |
| `Routing.BuiltRepresents` | src/fa/egress_proxy/routing.py:133-164 | a built table maps each entry's name to its route and nothing else |
| `Routing.BuiltIff` | src/fa/egress_proxy/routing.py:133-164 | built if and only if every entry has a name and an accepted upstream and entries of one name give equal routes |
| `Routing.OrderAndRepetition` | src/fa/egress_proxy/routing.py:133-164 | success and table depend only on the set of entries |
| `Routing.NamingIsSlashFree` | src/fa/egress_proxy/routing.py:59-69 | no route name contains a slash |
| `Routing.RequestsReachTheirRoute` | src/fa/egress_proxy/server.py:126-153 | the path that the agent side writes, with any suffix, resolves to that entry's provider, key variable and URL without trailing slashes, and to that suffix; what is forwarded is that URL, a slash, and the suffix without its leading slashes |
| `Routing.BlameIsTrueIff` | src/fa/egress_proxy/routing.py:104-130 | for every refusal because of a conflict there is the pair of entries that caused it, and what the message says of them is true if and only if they differ in upstream or key variable; it misleads exactly when only the providers differ |
| `Routing.BlameCanMislead` | src/fa/egress_proxy/routing.py:104-130 | a conflict whose message blames key variables that are equal |
| `Reconcile.ParseResults` | scripts/run_slice_mutmut.py:543-557 | the loop parses the specified listing or fails |
| `Reconcile.ListingIsFaithful` | scripts/run_slice_mutmut.py:543-557 | one record per nonblank line, in order, under distinct names |
| `Reconcile.LineRoundTrip` | scripts/run_slice_mutmut.py:548-553 | a written line reads back, also when the name contains the separator |
| `Reconcile.ListingRoundTrip` | scripts/run_slice_mutmut.py:543-557 | every list of records with distinct names, written down, parses to itself |
| `Reconcile.Classify` | scripts/run_slice_mutmut.py:576-610 | succeeds if and only if total is positive, total = killed + records, and every exported count equals the number of records of that status; the counts are returned |
| `Reconcile.CountsAddUp` | scripts/run_slice_mutmut.py:576-610 | the counts of all statuses add up to the number of records |
| `Reconcile.ReconciledVerdict` | scripts/run_slice_mutmut.py:679-694 | clean if and only if killed = total − type-invalid, that is if the score is 1 or undefined; the score lies in 0..1 |
| `DraftStore.PrDraftStore.ClearDraft` | src/fa/inner_loop/pr_draft.py:57-66 | trust is withdrawn in any case; the file goes if asked and possible |
| `DraftStore.PrDraftStore.WriteText` | src/fa/inner_loop/pr_draft.py:68-118 | a failed write changes neither file nor trust; a successful one makes its text the last written one |
| `DraftStore.PrDraftStore.ReadCurrentText` | src/fa/inner_loop/pr_draft.py:75-91 | a text comes back if and only if this session wrote it last and the file still reads as it; the read raises if and only if something was written and the file does not decode |
| `DraftStore.ReadIff` | src/fa/inner_loop/pr_draft.py:57-91 | in every history with outside changes and failed writes a text is read if and only if it is the latest written since the last clear and the file still reads as it |
| `DraftStore.FreshDraftReadsBackIff` | src/fa/inner_loop/pr_draft.py:68-91 | right after a write the text reads back exactly when it has no carriage return |
| `DraftStore.RaisesIff` | src/fa/inner_loop/pr_draft.py:75-91 | in every history the read raises if and only if a text was written since the last clear and the file by now does not decode |
| `DraftStore.UndecodableRaises` | src/fa/inner_loop/pr_draft.py:75-91 | a history in which it does |
| `ConfigLines.CutAtFirstComment` | src/fa/_yaml_subset.py:25-69 | a value is cut exactly at the first '#' after a blank or tab (section 6.6 of YAML 1.2) |
| `ConfigLines.LoadCapabilities` | src/fa/config.py:110-195 | the loop loads the specified capabilities with the specified number of warnings, or raises |
| `ConfigLines.CapsWithoutWarnings` | src/fa/config.py:133-195 | deleting the warned lines changes nothing that is loaded and leaves no warning |
| `ConfigLines.LoadFeatureFlags` | src/fa/feature_flags.py:203-291 | the loop loads the specified flags with the specified number of warnings |
| `ConfigLines.FlagsWithoutWarnings` | src/fa/feature_flags.py:208-291 | the same for flags, from every parser state |
| `ConfigLines.ShallowerIsPrefix` | src/fa/feature_flags.py:161-167 | the active prefixes are exactly the initial part of the stack above the line's indent |
| `ConfigLines.StackStaysIndented` | src/fa/feature_flags.py:208-291 | after any lines the indents on the prefix stack strictly increase |
| `ConfigLines.WarnedLinesDoNothing` | src/fa/_yaml_line_parser.py:29-78 | for every text that loads, deleting all lines that earned a warning leaves what is loaded unchanged, in both parsers |
| `ConfigLines.FlatteningKeepsMeaning` | src/fa/feature_flags.py:161-176 | nested lines and their flat dotted form load the same flags, whatever the schema |
| `ConfigRoundTrip.FlagsRoundTrip` | src/fa/feature_flags.py:203-291 | flags written down with their values read back with these values and no warning, the last one of a name winning |
| `ConfigRoundTrip.CapabilitiesRoundTrip` | src/fa/config.py:110-195 | the same for capabilities |

## Left out

- Blackboard: the JSONL mirror and its degraded read path, `read`, filtering by payload key, the wording of conflict reasons.
- Artifact index: which files the directory scan yields, titles, sizes and times in the payload, log messages.
- Workspace bootstrap: subprocess, git, fsync and file-lock mechanics (each is a step that succeeds, fails or times out), log text, elapsed times, statuses and exit codes derived from reasons.
- Chunker: frontmatter and CommonMark parsing, slugs, parent titles and metadata of chunks.
- Authoring kernel: manifest parsing, the messages of diagnostics other than the synthetic advisory, rendering, rules other than the `__all__` extractor.
- Exports: `_public_symbols` and the rule around the extractor, which would add only easy members.
- ExportsExact.ExtractionIsRightIff: of code other than displays, plain names, definitions and augmented assignments only the names are looked at, so it counts as able to do anything with what they lead to; ways to a module's variables around its names are outside the model.
- Reordering.WholeLogReorders: goes one way only, because a later row may overwrite what two earlier ones leave differently.
- Routing: header injection, HTTP serving, authentication and time-outs; the proxy's own host in the rewritten URL.
- Mutation runs: staging, tool calls, diffs, the input digest (its NUL-separated raw bytes are not injective), the JSON checks on the exported statistics.
- Draft store: temporary files and fsync of the atomic write; Windows newline translation on writing.
- Configuration: the list of flags that exist (the theorems hold for every list), aliases and defaults of the flag snapshot, the wording of warnings, reading from a path.
- Bootstrap.GoDescends: bounds the steps of one call, not the time spent waiting for the lock.
- ArtifactRepeat.RepeatWritesNothing: takes one indexer, a clock that does not run backwards and writes that are not lost, because otherwise a repeat has to write.
- DraftStore.ReadIff: the file's characters are compared as read in text mode, with every line ending turned into a newline.
