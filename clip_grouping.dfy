/**
 The clip grouper of src/services.ts (findVideoMemoriesToMerge): in every
 year folder, cut the listing into runs of short clips that follow each
 other within ten seconds, and report every run of two or more clips as
 `[folder, stamp1, ..., stampK]`.

 The specification follows the source loop file by file over INDICES into
 the listing (`Scan`); the strings the source pushes are read off those
 indices (`Render`). The lemmas at the end state what the emitted groups
 are.
 */
module ClipGrouping {
  import opened Wrappers
  import opened Utils

  /**
   One entry of a year folder's listing: its name and whether ffprobe
   reports a duration of at most ten seconds (a missing duration parses to
   NaN, and `NaN <= 10` is false).
   */
  datatype File = File(name: string, short: bool)

  /** A folder of the memories folder with the listing readdir gives for it. */
  datatype Folder = Folder(name: string, files: seq<File>)

  /**
   The date library as the grouper uses it: `parse` reads a date string as
   epoch seconds (None for an invalid date), and `now` is the instant that
   `dayjs(undefined)` stands for.
   */
  datatype Calendar = Calendar(parse: string -> Option<int>, now: int)

  /** Clips recorded after this date are assumed not to have been split. */
  const MergeByDefaultDate: string := "2021-09-01"

  /** Largest gap, in seconds, between two clips of one recording. */
  const MaxGapSeconds: int := 10

  /** dayjs's isAfter: false as soon as either date is invalid. */
  predicate IsAfter(t: Option<int>, u: Option<int>)
  {
    t.Some? && u.Some? && t.value > u.value
  }

  /** `dayjs(t).diff(prev, "seconds") <= 10`: false as soon as either date is invalid. */
  predicate WithinGap(t: Option<int>, prev: Option<int>)
  {
    t.Some? && prev.Some? && t.value - prev.value <= MaxGapSeconds
  }

  /** `folder.charAt(0) !== "."` fails exactly for these names. */
  predicate Hidden(name: string)
  {
    |name| > 0 && name[0] == '.'
  }

  /** The timestamp the source keeps for a file (`curr`). */
  function Stamp(f: File): string
  {
    DateFromVideoName(f.name)
  }

  /**
   The timestamp of listing entry `k`. Every index the scan produces is in
   range (`GroupingProperties.ScanInvariant`); the fallback only keeps this function total.
   */
  function StampAt(files: seq<File>, k: nat): string
  {
    if k < |files| then Stamp(files[k]) else ""
  }

  /** A file recorded after the cutoff date: skipped. */
  predicate Late(cal: Calendar, f: File)
  {
    IsAfter(cal.parse(Stamp(f)), cal.parse(MergeByDefaultDate))
  }

  /** A folder dated after the cutoff date: skipped entirely. */
  predicate FolderLate(cal: Calendar, folder: Folder)
  {
    IsAfter(cal.parse(folder.name), cal.parse(MergeByDefaultDate))
  }

  /** `files.at(-1) === file`: the name is that of the last listed file. */
  predicate IsLastFile(files: seq<File>, j: nat)
    requires j < |files|
  {
    files[j].name == files[|files| - 1].name
  }

  /** The continuation test of listing entry `b` against the entry `a` that closes the run. */
  predicate Continues(cal: Calendar, files: seq<File>, a: nat, b: nat)
  {
    WithinGap(cal.parse(StampAt(files, b)), cal.parse(StampAt(files, a))) && b < |files| && files[b].short
  }

  ghost predicate InRange(run: seq<nat>, n: nat)
  {
    forall k :: 0 <= k < |run| ==> run[k] < n
  }

  /** The state of the source loop: the open run `clips` and the runs pushed so far. */
  datatype ScanState = ScanState(run: seq<nat>, runs: seq<seq<nat>>)

  /**
   `isWithinTenSecOfPrev` for file `j` and the open run: the gap to the
   run's last clip (to the current instant when the run is empty) is at
   most ten seconds and the file is short.
   */
  predicate ExtendsRun(cal: Calendar, files: seq<File>, run: seq<nat>, j: nat)
    requires j < |files|
  {
    var prev := if |run| == 0 then Some(cal.now) else cal.parse(StampAt(files, run[|run| - 1]));
    WithinGap(cal.parse(Stamp(files[j])), prev) && files[j].short
  }

  /** One iteration of the inner loop of findVideoMemoriesToMerge, on file `j`. */
  function Step(cal: Calendar, files: seq<File>, j: nat, s: ScanState): ScanState
    requires j < |files|
  {
    if Late(cal, files[j]) then s
    else if ExtendsRun(cal, files, s.run, j) && !IsLastFile(files, j) then ScanState(s.run + [j], s.runs)
    else
      var closed := if IsLastFile(files, j) then s.run + [j] else s.run;
      ScanState([j], if |closed| >= 2 then s.runs + [closed] else s.runs)
  }

  /** The loop state after the first `i` files of the listing. */
  function Scan(cal: Calendar, files: seq<File>, i: nat): ScanState
    requires i <= |files|
  {
    if i == 0 then ScanState([], [])
    else Step(cal, files, i - 1, Scan(cal, files, i - 1))
  }

  /** A file after the cutoff date leaves the loop state as it was. */
  lemma ScanSkip(cal: Calendar, files: seq<File>, j: nat)
    requires j < |files| && Late(cal, files[j])
    ensures Scan(cal, files, j + 1) == Scan(cal, files, j)
  {
  }

  /** A file that passes the continuation test, and is not the last, extends the open run. */
  lemma ScanExtend(cal: Calendar, files: seq<File>, j: nat)
    requires j < |files| && !Late(cal, files[j])
    requires ExtendsRun(cal, files, Scan(cal, files, j).run, j) && !IsLastFile(files, j)
    ensures Scan(cal, files, j + 1) == ScanState(Scan(cal, files, j).run + [j], Scan(cal, files, j).runs)
  {
  }

  /** Any other file closes the open run (after folding itself in when it is the last) and starts a new one. */
  lemma ScanClose(cal: Calendar, files: seq<File>, j: nat, closed: seq<nat>)
    requires j < |files| && !Late(cal, files[j])
    requires !(ExtendsRun(cal, files, Scan(cal, files, j).run, j) && !IsLastFile(files, j))
    requires closed == if IsLastFile(files, j) then Scan(cal, files, j).run + [j] else Scan(cal, files, j).run
    ensures Scan(cal, files, j + 1) ==
      ScanState([j], if |closed| >= 2 then Scan(cal, files, j).runs + [closed] else Scan(cal, files, j).runs)
  {
  }

  /** The runs one folder's listing emits. */
  function FolderRuns(cal: Calendar, files: seq<File>): seq<seq<nat>>
  {
    Scan(cal, files, |files|).runs
  }

  /** The timestamps of a run, in run order: the `clips` array of the source. */
  function Stamps(files: seq<File>, run: seq<nat>): seq<string>
  {
    if |run| == 0 then [] else Stamps(files, run[..|run| - 1]) + [StampAt(files, run[|run| - 1])]
  }

  lemma {:induction false} StampsAt(files: seq<File>, run: seq<nat>)
    ensures |Stamps(files, run)| == |run|
    ensures forall k :: 0 <= k < |run| ==> Stamps(files, run)[k] == StampAt(files, run[k])
  {
    if |run| > 0 {
      StampsAt(files, run[..|run| - 1]);
    }
  }

  /** The clips array of a two-file run. */
  lemma StampsPair(files: seq<File>, a: nat, b: nat)
    ensures Stamps(files, [a, b]) == [StampAt(files, a), StampAt(files, b)]
  {
    StampsAt(files, [a, b]);
  }

  /** The clips array is as long as the run, and its last entry is the stamp of the run's last file. */
  lemma StampsLast(files: seq<File>, run: seq<nat>)
    ensures |Stamps(files, run)| == |run|
    ensures |run| > 0 ==> Stamps(files, run)[|run| - 1] == StampAt(files, run[|run| - 1])
  {
    StampsAt(files, run);
  }

  lemma StampsAppend(files: seq<File>, run: seq<nat>, j: nat)
    ensures Stamps(files, run + [j]) == Stamps(files, run) + [StampAt(files, j)]
  {
    assert (run + [j])[..|run|] == run;
  }

  lemma StampsSingle(files: seq<File>, j: nat)
    ensures Stamps(files, [j]) == [StampAt(files, j)]
  {
    assert [j][..0] == [];
  }

  /** The groups `[folder, ...clips]` pushed for some runs of a folder. */
  function Render(folderName: string, files: seq<File>, runs: seq<seq<nat>>): seq<seq<string>>
  {
    if |runs| == 0 then []
    else Render(folderName, files, runs[..|runs| - 1]) + [[folderName] + Stamps(files, runs[|runs| - 1])]
  }

  lemma {:induction false} RenderAt(folderName: string, files: seq<File>, runs: seq<seq<nat>>)
    ensures |Render(folderName, files, runs)| == |runs|
    ensures forall k :: 0 <= k < |runs| ==> Render(folderName, files, runs)[k] == [folderName] + Stamps(files, runs[k])
  {
    if |runs| > 0 {
      RenderAt(folderName, files, runs[..|runs| - 1]);
    }
  }

  lemma RenderAppend(folderName: string, files: seq<File>, runs: seq<seq<nat>>, r: seq<nat>)
    ensures Render(folderName, files, runs + [r]) == Render(folderName, files, runs) + [[folderName] + Stamps(files, r)]
  {
    assert (runs + [r])[..|runs|] == runs;
  }

  /** The groups one folder contributes. */
  function FolderOutput(cal: Calendar, folder: Folder): seq<seq<string>>
  {
    if FolderLate(cal, folder) then []
    else Render(folder.name, folder.files, FolderRuns(cal, folder.files))
  }

  /** The folders that survive the `.filter` on the first character. */
  function Visible(folders: seq<Folder>): seq<Folder>
  {
    if |folders| == 0 then []
    else (if Hidden(folders[0].name) then [] else [folders[0]]) + Visible(folders[1..])
  }

  /** A folder survives the filter exactly when it is listed and its name does not start with a dot. */
  lemma {:induction false} VisibleMembers(folders: seq<Folder>)
    ensures forall f :: f in Visible(folders) <==> f in folders && !Hidden(f.name)
  {
    if |folders| > 0 {
      VisibleMembers(folders[1..]);
      assert forall f :: f in folders <==> f == folders[0] || f in folders[1..];
    }
  }

  function Reversed<T>(s: seq<T>): (r: seq<T>)
    ensures |r| == |s|
    ensures forall k :: 0 <= k < |s| ==> r[k] == s[|s| - 1 - k]
  {
    if |s| == 0 then [] else [s[|s| - 1]] + Reversed(s[..|s| - 1])
  }

  /** The groups of some folders processed in the given order. */
  function Concat(cal: Calendar, order: seq<Folder>): seq<seq<string>>
  {
    if |order| == 0 then []
    else Concat(cal, order[..|order| - 1]) + FolderOutput(cal, order[|order| - 1])
  }

  lemma ConcatNext(cal: Calendar, order: seq<Folder>, k: nat)
    requires k < |order|
    ensures Concat(cal, order[..k + 1]) == Concat(cal, order[..k]) + FolderOutput(cal, order[k])
  {
    assert order[..k + 1][..k] == order[..k];
  }

  /** What findVideoMemoriesToMerge returns for the memories folder's listing. */
  function AllGroups(cal: Calendar, folders: seq<Folder>): seq<seq<string>>
  {
    Concat(cal, Reversed(Visible(folders)))
  }

  /**
   The body of the outer loop of findVideoMemoriesToMerge for one folder
   that is not skipped: the inner loop over its listing.
   */
  method GroupFolder(cal: Calendar, folder: Folder) returns (groups: seq<seq<string>>)
    ensures groups == Render(folder.name, folder.files, FolderRuns(cal, folder.files))
  {
    groups := [];
    var files := folder.files;
    var clips: seq<string> := [];
    ghost var run: seq<nat> := [];
    ghost var runs: seq<seq<nat>> := [];
    for j := 0 to |files|
      invariant ScanState(run, runs) == Scan(cal, files, j)
      invariant clips == Stamps(files, run)
      invariant groups == Render(folder.name, files, runs)
    {
      StampsLast(files, run);
      var curr := DateFromVideoName(files[j].name);
      var isLastFile := files[|files| - 1].name == files[j].name;
      var prev := if |clips| == 0 then Some(cal.now) else cal.parse(clips[|clips| - 1]);
      var isWithinTenSecOfPrev := WithinGap(cal.parse(curr), prev) && files[j].short;

      var isAfterSeptember2021 := IsAfter(cal.parse(curr), cal.parse(MergeByDefaultDate));
      if isAfterSeptember2021 {
        ScanSkip(cal, files, j);
        continue;
      }

      StampsAppend(files, run, j);
      assert isLastFile == IsLastFile(files, j);
      assert isWithinTenSecOfPrev == ExtendsRun(cal, files, run, j);
      if isWithinTenSecOfPrev && !isLastFile {
        ScanExtend(cal, files, j);
        clips := clips + [curr];
        run := run + [j];
      } else {
        if isLastFile {
          clips := clips + [curr];
        }
        ghost var closed := if isLastFile then run + [j] else run;
        ScanClose(cal, files, j, closed);
        assert clips == Stamps(files, closed);
        if |clips| != 1 && |clips| != 0 {
          RenderAppend(folder.name, files, runs, closed);
          groups := groups + [[folder.name] + clips];
        }
        StampsSingle(files, j);
        clips := [curr];
        run, runs := [j], if |closed| >= 2 then runs + [closed] else runs;
      }
    }
  }

  /**
   findVideoMemoriesToMerge, with readdir's listings, ffprobe's durations
   and the date library given as inputs.
   */
  method FindVideoMemoriesToMerge(cal: Calendar, folders: seq<Folder>) returns (videosToMerge: seq<seq<string>>)
    ensures videosToMerge == AllGroups(cal, folders)
  {
    videosToMerge := [];
    var order := Reversed(Visible(folders));
    for k := 0 to |order|
      invariant videosToMerge == Concat(cal, order[..k])
    {
      var folder := order[k];
      ConcatNext(cal, order, k);
      if FolderLate(cal, folder) {
        continue;
      }
      var groups := GroupFolder(cal, folder);
      videosToMerge := videosToMerge + groups;
    }
    assert order[..|order|] == order;
  }
}
