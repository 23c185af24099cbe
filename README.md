# snap-memory-downloader: clip grouping and merging

snap-memory-downloader fetches a user's Snapchat memories into one folder
per year. Snapchat cuts a long video into clips of at most ten seconds.
The second half of the tool puts those clips back together:

* `findVideoMemoriesToMerge` walks every year folder's listing. It groups the
  clips that follow each other within ten seconds into runs, and returns
  every run of two or more clips as `[folder, stamp1, ..., stampK]`.
* `mergeVideoClips` cuts that list into batches of
  `MAX_PARALLELL_PROCESSING_AMOUNT` (4). For each batch in turn it has ffmpeg
  merge every group into `<stamp1> UTC clip.mp4`.
* On success the original `<stamp> UTC.mp4` files are removed. On an error
  the merged path is removed and the originals are kept.

The model has five modules.

* `Utils` (`utils.dfy`):
  * the batch width;
  * `DateFromVideoName`, the 19-character timestamp prefix of a file name;
  * `ChunkArray`, with `Flatten` as its specification;
  * the `Disk` class. Its set of paths is what the merge stage changes, and
    its `RemoveFile` never fails.
* `ClipGrouping` (`clip_grouping.dfy`):
  * The grouping loop as imperative code. `GroupFolder` is the inner loop
    over one listing; `FindVideoMemoriesToMerge` is the outer loop over the
    folders.
  * The specification both loops are proved against. `Step` is one
    iteration of the inner loop over positions in the listing. Its cases
    are: skip a file after the cutoff, extend the open run, or close the
    open run (folding in the last listed file) and start a new one. `Scan`
    runs `Step` over the first `i` files.
  * `Render` turns the emitted runs into the strings the source pushes.
  * `Visible`, `Reversed` and `Concat` describe the outer loop.
* `GroupingProperties` (`grouping_properties.dfy`): what holds of the runs
  `Scan` emits, proved through a loop invariant (`ScanOk`). An emitted run
  contains no late file, and every member passes the continuation test,
  except the folded last file. Apart from skipped files, no file lies
  between two members. The runs of a folder keep listing order and are
  pairwise disjoint.
* `GroupingOutput` (`grouping_output.dfy`):
  * the same facts at the level of returned strings;
  * the order in which folders contribute their groups;
  * two worked listings.
* `MergeOrchestration` (`merge_orchestration.dfy`):
  * `GenerateSingleVideo` and `MergeVideoClips` as imperative code over a
    `Disk`, proved against `MergeEffect` and `ApplyGroups`;
  * lemmas about what one merge does to the files;
  * the proof that a failed merge disturbs no other group's files, and that
    the groups of a listing whose timestamps are distinct never share a path;
  * a listing where a video and an image share a timestamp, whose two groups
    share an input.

Inputs that the source reads from the outside world are parameters here:

* the folder listings (readdir) give a `seq<Folder>`;
* ffprobe's "duration at most ten seconds" gives `File.short`;
* the date library gives `Calendar`: `parse` maps a date string to epoch
  seconds or to an invalid date, and `now` stands in for `dayjs(undefined)`;
* ffmpeg's success or failure gives an `Ffmpeg` oracle.

The last listed file is folded into the open run whatever its gap:

* For short clips at 0, 5, 9 and 40 seconds, the last one listed last, the
  group has four members (`GroupingOutput.FoldingExample`).
* Two long clips a minute apart are still emitted as one group
  (`GroupingOutput.GroupWithoutContinuation`).

## Model

| member | source | states |
|---|---|---|
| `Utils.DateFromVideoName` | src/utils.ts:72-74 | the result is the prefix of the name of length min(19, length), so a short name comes back whole |
| `Utils.DateFromVideoNameIdempotent` | src/utils.ts:72-74 | taking the timestamp of a timestamp changes nothing |
| `Utils.DateFromVideoNameOfStamped` | src/utils.ts:72-74 | a 19-character timestamp followed by any suffix gives back exactly that timestamp |
| `Utils.ChunkArray` | src/utils.ts:76-85 | concatenating the chunks gives back the input; every chunk is non-empty with at most k elements; all chunks but the last have exactly k; the empty input gives no chunks; the number of chunks is the ceiling of length / k; a non-empty input needs k > 0 for the loop to end |
| `Utils.FlattenPrefix` | src/utils.ts:76-85 | the chunks before position c flatten to a prefix of the whole input, so batches are processed in input order |
| `Utils.FlattenAppend` | src/utils.ts:80-81 | pushing one more chunk extends the flattening by exactly that chunk |
| `Utils.Disk.RemoveFile` | src/utils.ts:43-49 | removing never fails: the path is gone afterwards, an absent path leaves the files unchanged, and no other path changes |
| `Utils.Disk.WriteFile` | src/services.ts:249 | ffmpeg's output path is present afterwards and nothing else changes |
| `ClipGrouping.GroupFolder` | src/services.ts:129-157 | the inner loop pushes exactly the rendered runs `Scan` emits for the listing, as `[folder, ...clips]` |
| `ClipGrouping.FindVideoMemoriesToMerge` | src/services.ts:111-161 | the result is the groups of the visible folders, taken in reverse listing order, skipping folders after the cutoff |
| `ClipGrouping.ScanSkip` | src/services.ts:140-141 | a file after the cutoff date leaves the open run and the emitted runs unchanged |
| `ClipGrouping.ScanExtend` | src/services.ts:143-144 | a file that passes the gap-and-duration test and is not the last listed file is appended to the open run |
| `ClipGrouping.ScanClose` | src/services.ts:145-156 | any other file folds itself in when it is the last listed one, the run is emitted when it has two or more members, and a new run starts with the file |
| `ClipGrouping.StampsAt` | src/services.ts:144-146 | the clips array holds, in order, the timestamp of each file of the run |
| `ClipGrouping.RenderAt` | src/services.ts:150 | each pushed group is the folder name followed by the timestamps of one emitted run |
| `ClipGrouping.VisibleMembers` | src/services.ts:116-118 | a folder survives the filter exactly when it is listed and its name does not start with a dot |
| `ClipGrouping.Reversed` | src/services.ts:120 | same length, and element k is element length-1-k of the input |
| `ClipGrouping.ConcatNext` | src/services.ts:120-158 | processing one more folder appends exactly that folder's groups |
| `GroupingProperties.ScanInvariant` | src/services.ts:132-157 | after any number of files the open run and every emitted run are runs of the listing, every emitted run has at least two members, and only skipped files follow the open run |
| `GroupingProperties.StepKeepsInvariant` | src/services.ts:132-157 | one iteration of the inner loop keeps that invariant |
| `GroupingProperties.SkipKeepsInvariant` | src/services.ts:140-141 | a skipped file keeps the invariant |
| `GroupingProperties.ExtendedRunOk` | src/services.ts:136-146 | appending a file that continues the run, or the last listed file, to the open run gives a run again |
| `GroupingProperties.ExtendRestOk` | src/services.ts:143-144 | extending the open run keeps the invariant |
| `GroupingProperties.CloseKeepsInvariant` | src/services.ts:145-156 | closing the open run and restarting it with the current file keeps the invariant |
| `GroupingProperties.FolderRunsAreRuns` | src/services.ts:143-156 | every emitted run has at least two members, all in the listing, in increasing order, none after the cutoff, each continuing its predecessor or being the last listed file, with only skipped files in between |
| `GroupingProperties.AppendOrdered` | src/services.ts:150 | emitting a run whose positions all follow the earlier runs keeps the runs ordered |
| `GroupingProperties.CloseOrdered` | src/services.ts:145-156 | closing the open run keeps the emitted runs ordered and, before the last file, leaves every emitted position below the new open run |
| `GroupingProperties.ScanOrdered` | src/services.ts:143-156 | the emitted runs are ordered, and before the end (or after a skipped last file) every emitted position is below every position of the open run |
| `GroupingProperties.FolderRunsOrderedAndDisjoint` | src/services.ts:143-156 | within a folder every position of an earlier group is below every position of a later one, so the groups share no file |
| `GroupingProperties.EmittedMembersContinue` | src/services.ts:136-146 | every member after the first is at most ten seconds after its predecessor (there is no lower bound: an earlier timestamp also continues) and at most ten seconds long, except possibly the final member when it is the folder's last listed file |
| `GroupingProperties.LateFilesNeverGrouped` | src/services.ts:140-141 | a file whose timestamp is after 2021-09-01 is in no emitted run |
| `GroupingProperties.SmallFolderEmitsNothing` | src/services.ts:148-151 | a listing of zero or one files emits no group |
| `GroupingProperties.LastFileFolded` | src/services.ts:135-150 | when the last listed file is not skipped it joins the open run before the emit check, whatever its gap and duration |
| `GroupingProperties.OpenRunDroppedAfterSkippedLast` | src/services.ts:132-158 | when the last listed file is skipped, no file of the run still open at the end is in any emitted group |
| `GroupingOutput.VisibleAppend` | src/services.ts:116-118 | filtering a listing with one more folder adds that folder at the end exactly when its name does not start with a dot |
| `GroupingOutput.ReversedAppend` | src/services.ts:120 | reversing a listing with one more folder puts that folder first |
| `GroupingOutput.ConcatPrepend` | src/services.ts:120-158 | the folder processed first contributes its groups first |
| `GroupingOutput.AllGroupsAppend` | src/services.ts:116-123 | the folder listed last contributes its groups first, and one whose name starts with a dot contributes none; the output is the per-folder outputs in reverse listing order |
| `GroupingOutput.LateFolderContributesNothing` | src/services.ts:121-123 | a folder dated after 2021-09-01 adds no group |
| `GroupingOutput.ConcatMember` | src/services.ts:120-158 | every returned group comes from one of the processed folders |
| `GroupingOutput.FolderGroupShape` | src/services.ts:148-151 | every group of a folder is `[folder, t1, ..., tk]` with k at least 2, from a folder not after the cutoff, each ti the timestamp of one of its files and not after 2021-09-01 |
| `GroupingOutput.AllGroupsFromVisibleFolders` | src/services.ts:116-120 | every returned group is the output of a listed folder whose name does not start with a dot |
| `GroupingOutput.AllGroupsWellFormed` | src/services.ts:148-151 | every returned group has a folder name and at least two timestamps, none after 2021-09-01 |
| `GroupingOutput.FoldingRuns` | src/services.ts:135-150 | in that listing the fourth clip does not continue the third, yet the single emitted run holds all four positions |
| `GroupingOutput.FoldingExample` | src/services.ts:135-150 | short clips at 0, 5, 9 and 40 seconds, the last listed last, give the single group of all four, although the fourth does not continue the third |
| `GroupingOutput.GroupWithoutContinuation` | src/services.ts:135-150 | two long clips a minute apart, no file continuing another, still give one group |
| `MergeOrchestration.InputPathsAt` | src/services.ts:205-207 | ffmpeg receives one input per clip, in clip order, `<clip> UTC.mp4` in the year folder, and together these are exactly the original files |
| `MergeOrchestration.MergedNameIsNotOriginal` | src/services.ts:206-209 | no merged file name equals a downloaded file name, so a merge never removes its own output |
| `MergeOrchestration.OriginalNameRoundTrip` | src/services.ts:240 | for a 19-character timestamp, the timestamp of `<stamp> UTC.mp4` is the stamp, and rebuilding the name gives back the file name |
| `MergeOrchestration.MergeEffectMeaning` | src/services.ts:205-249 | on success the merged file is present and no original is left; on failure the merged path is absent and every original is as before; no path outside the merge's footprint changes |
| `MergeOrchestration.OriginalPathsAppend` | src/services.ts:236-243 | removing one more original extends the removed set by exactly that path |
| `MergeOrchestration.GenerateSingleVideo` | src/services.ts:201-251 | the outcome is ffmpeg's answer for the clips' input paths and the merged path, and the new files are the merge effect of that outcome on the old ones |
| `MergeOrchestration.ApplyGroupsAppend` | src/services.ts:177-192 | merging one more group applies exactly that group's effect after the earlier ones |
| `MergeOrchestration.ApplyGroupsFrame` | src/services.ts:177-192 | a path no group may touch is present after all merges exactly when it was before |
| `MergeOrchestration.SettledKept` | src/services.ts:177-192 | a group's settled files stay settled when later merges leave its footprint alone |
| `MergeOrchestration.ApplyGroupsConcat` | src/services.ts:177-192 | merging one list of groups and then another is merging their concatenation |
| `MergeOrchestration.EveryGroupSettled` | src/services.ts:177-192 | when no two groups touch the same path, every group ends as its own outcome says (merged: output present, originals gone; failed: output absent, originals as before), so a failing merge does not stop or disturb the rest |
| `MergeOrchestration.NamesInjective` | src/services.ts:205-209 | different clips give different input file names and different merged file names |
| `MergeOrchestration.StampsDistinctNames` | src/services.ts:135 | a listing whose files have distinct timestamps has its last name only at the end |
| `MergeOrchestration.ClipFootprintsDisjoint` | src/services.ts:205-243 | two merges in one folder whose clips share no timestamp touch no common path: no input, output or removed file of one is a path of the other |
| `MergeOrchestration.RunFootprintsDisjoint` | src/services.ts:143-156 | in a listing with distinct timestamps, two runs whose positions are all ordered one before the other give merges with disjoint footprints |
| `MergeOrchestration.RenderedFootprintsDisjoint` | src/services.ts:150 | the same for the pushed groups `[folder, ...clips]` of two such runs |
| `MergeOrchestration.FolderFootprintsDisjoint` | src/services.ts:129-157 | the groups one folder emits have pairwise disjoint footprints when its timestamps are distinct |
| `MergeOrchestration.FootprintFolder` | src/services.ts:205-243 | every path a group's merge touches lies in that group's folder |
| `MergeOrchestration.DisjointConcat` | src/services.ts:120-158 | two lists of groups with disjoint footprints, and no footprint shared across them, concatenate to a list with disjoint footprints |
| `MergeOrchestration.AllGroupsFootprintsDisjoint` | src/services.ts:116-158 | when folder names are distinct and every folder's timestamps are distinct, no two returned groups touch a common path |
| `MergeOrchestration.AllMergesSettled` | src/services.ts:177-192 | under those listing conditions, after all merges every returned group ends as its own outcome says |
| `MergeOrchestration.SameSecondScan` | src/services.ts:132-157 | a short clip at 0 s, a short clip at 5 s, an image at 5 s and a short clip at 8 s listed last emit the runs of files 0-1 and 2-3 |
| `MergeOrchestration.SharedStampOverlap` | src/services.ts:205-243 | in that listing the two returned groups both take `<5 s stamp> UTC.mp4` as an input, so their footprints are not disjoint |
| `MergeOrchestration.MergeBatch` | src/services.ts:178-191 | one batch leaves the files its groups' merge effects give, in batch order, a failing merge caught |
| `MergeOrchestration.MergeBatches` | src/services.ts:177-192 | the batches one after another leave the files the merge effects of the flattened batches give |
| `MergeOrchestration.MergeVideoClips` | src/services.ts:167-193 | the files after all batches are those left by applying every group's merge effect in the order the grouper returned them, failures included, batch after batch of at most four; when folder names are distinct and each folder's timestamps are distinct, every returned group ends as its own outcome says |

## Left out

- src/index.ts is not part of this model. It is plumbing: reading the JSON export, setting up the spinner, sequencing the stages.
- The download stage (`downloadMemories`, `downloadMemoryToDisk`) is HTTP and stream I/O.
- `getVideoDuration` runs ffprobe and parses floats. Only its comparison with ten seconds is kept, as `File.short`. A missing duration is NaN, which gives `false`.
- The ffmpeg merge itself (inputs, `fps(30)`, `-update 1`, `mergeToFile`) is an oracle, `Ffmpeg`. It maps the input and output paths to an outcome, so the same request always gets the same answer. A failure may leave a partial output, which the error handler removes.
- `updateFileMetadata` changes only file times, not which files exist, and it swallows its errors. `makeFolderIfNotExists` belongs to the download stage. Neither is modelled.
- The date library is modelled through `Calendar`:
  - `parse` stands for dayjs parsing, with None for an invalid date;
  - `IsAfter` and `WithinGap` are false as soon as a date is invalid, as dayjs's comparisons with NaN are;
  - `diff(undefined)` compares against `now`.
- Console logging, and the spinner's text and colour, are not modelled.
- `Promise.all` runs the merges of a batch concurrently. The model runs them one after another, in batch order. When footprints are disjoint, `EveryGroupSettled` shows that each group's result does not depend on that order. Interleavings within a batch are not modelled.
- MergeOrchestration.MergeVideoClips: its settled-groups promise needs distinct folder names and distinct 19-character prefixes within each folder (`ListingDistinct`). readdir guarantees distinct names only. Two files that share a prefix, such as a video and an image saved in the same second, can make two groups share an input, and then one merge may remove the other's input. `SharedStampOverlap` gives such a listing.
- Utils.DateFromVideoName: counts Unicode scalar values, where JavaScript's `substring` counts UTF-16 code units. The two agree only on names within the Basic Multilingual Plane.
- `getVideoDuration` can throw: a file whose ffprobe output has streams but no video stream makes `[0]["duration"]` read from undefined. That rejects the whole search. The model has every file produce a duration test result.
- `readdir` failures are not modelled. For example, a plain file at the top of the memories folder makes the listing of its "folder" reject the whole search.
- Utils.Disk.RemoveFile: models a failing unlink only by a missing path. A present file that cannot be unlinked (permissions) is not modelled; its removal is assumed to succeed.
- MergeOrchestration.MergeVideoClips: the group's year and clips come from `[year, ...paths]`. An empty entry would make `path.join` reject on an undefined folder, and the rejection is caught, so the model skips it. `AllGroupsWellFormed` shows the grouper never returns such an entry.
- GroupingProperties.FolderRunsOrderedAndDisjoint and the other ordering lemmas assume that the last listed name occurs only once (`LastNameUnique`). readdir lists each name once, and `isLastFile` compares names.
- ClipGrouping.FindVideoMemoriesToMerge: the inner loop over one folder's listing is the separate method `GroupFolder`. Its body is the source's inner loop unchanged.
