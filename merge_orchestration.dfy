/**
 The merge stage of src/services.ts: generateSingleVideo's effect on the
 files of one year folder, and mergeVideoClips, which runs it for every
 group the grouper found, four groups per batch. ffmpeg is an oracle that
 answers, for the input and output paths of one merge, whether the merge
 succeeded.
 */
module MergeOrchestration {
  import opened Wrappers
  import opened Utils
  import opened ClipGrouping
  import opened GroupingProperties
  import opened GroupingOutput

  /**
   What ffmpeg reports for one merge: success, or an error, after which
   the output file may (`partial`) or may not have been started.
   */
  datatype Outcome = Merged | Failed(partial: bool)

  /** The merge oracle: ffmpeg's answer for the given inputs and output path. */
  type Ffmpeg = (seq<Path>, Path) -> Outcome

  /** The name of the downloaded file a timestamp stands for. */
  function OriginalName(clip: string): string
  {
    clip + " UTC.mp4"
  }

  /** The name of the merged file for a run starting at `clip`. */
  function MergedName(clip: string): string
  {
    clip + " UTC clip.mp4"
  }

  /** `clips[0]` as a template literal prints it: "undefined" for an empty list. */
  function FirstClip(clips: seq<string>): string
  {
    if |clips| == 0 then "undefined" else clips[0]
  }

  function MergedPath(folder: string, clips: seq<string>): Path
  {
    Path(folder, MergedName(FirstClip(clips)))
  }

  /** The input paths handed to ffmpeg, in clip order. */
  function InputPaths(folder: string, clips: seq<string>): seq<Path>
  {
    if |clips| == 0 then []
    else InputPaths(folder, clips[..|clips| - 1]) + [Path(folder, OriginalName(clips[|clips| - 1]))]
  }

  /** The original files of a run. */
  function OriginalPaths(folder: string, clips: seq<string>): set<Path>
  {
    set c | c in clips :: Path(folder, OriginalName(c))
  }

  /** Every path a merge may touch. */
  function Footprint(folder: string, clips: seq<string>): set<Path>
  {
    {MergedPath(folder, clips)} + OriginalPaths(folder, clips)
  }

  /** One input path per clip, in clip order, and together exactly the original files. */
  lemma {:induction false} InputPathsAt(folder: string, clips: seq<string>)
    ensures |InputPaths(folder, clips)| == |clips|
    ensures forall k :: 0 <= k < |clips| ==> InputPaths(folder, clips)[k] == Path(folder, OriginalName(clips[k]))
    ensures forall p :: p in InputPaths(folder, clips) <==> p in OriginalPaths(folder, clips)
  {
    if |clips| > 0 {
      var init := clips[..|clips| - 1];
      InputPathsAt(folder, init);
      assert clips == init + [clips[|clips| - 1]];
      forall p | p in OriginalPaths(folder, clips)
        ensures p in InputPaths(folder, clips)
      {
        var c :| c in clips && p == Path(folder, OriginalName(c));
        if c in init {
          assert p in OriginalPaths(folder, init);
        }
      }
    }
  }

  /** A merged file name never collides with a downloaded file name. */
  lemma MergedNameIsNotOriginal(a: string, b: string)
    ensures MergedName(a) != OriginalName(b)
  {
    if |MergedName(a)| == |OriginalName(b)| {
      assert MergedName(a)[|a| + 5] == 'c';
      assert OriginalName(b)[|b|] == ' ';
    }
  }

  /** A file name built from a 19-character timestamp gives that timestamp back. */
  lemma OriginalNameRoundTrip(stamp: string)
    requires |stamp| == TimestampLength
    ensures DateFromVideoName(OriginalName(stamp)) == stamp
    ensures OriginalName(DateFromVideoName(OriginalName(stamp))) == OriginalName(stamp)
  {
    DateFromVideoNameOfStamped(stamp, " UTC.mp4");
  }

  /**
   The files after one merge. On success the merged file is written and
   every original removed; on an error the merged path is removed, which
   changes nothing when ffmpeg never created it.
   */
  function MergeEffect(fs: set<Path>, folder: string, clips: seq<string>, outcome: Outcome): set<Path>
  {
    match outcome
    case Merged => (fs + {MergedPath(folder, clips)}) - OriginalPaths(folder, clips)
    case Failed(partial) =>
      (if partial then fs + {MergedPath(folder, clips)} else fs) - {MergedPath(folder, clips)}
  }

  /**
   On success the merged file is present and no original is left; on
   failure the merged path is absent and every original is as before;
   either way no path outside the merge's footprint changes.
   */
  lemma MergeEffectMeaning(fs: set<Path>, folder: string, clips: seq<string>, outcome: Outcome)
    ensures var r := MergeEffect(fs, folder, clips, outcome);
      && (outcome.Merged? ==>
           MergedPath(folder, clips) in r && forall c :: c in clips ==> Path(folder, OriginalName(c)) !in r)
      && (outcome.Failed? ==>
           MergedPath(folder, clips) !in r && forall p :: p in OriginalPaths(folder, clips) ==> (p in r <==> p in fs))
      && forall p :: p !in Footprint(folder, clips) ==> (p in r <==> p in fs)
  {
    MergedNameIsNotOriginal(FirstClip(clips), FirstClip(clips));
    forall c | c in clips
      ensures MergedPath(folder, clips) != Path(folder, OriginalName(c))
    {
      MergedNameIsNotOriginal(FirstClip(clips), c);
    }
  }

  lemma OriginalPathsAppend(folder: string, clips: seq<string>, i: nat)
    requires i < |clips|
    ensures OriginalPaths(folder, clips[..i + 1]) == OriginalPaths(folder, clips[..i]) + {Path(folder, OriginalName(clips[i]))}
  {
    assert clips[..i + 1] == clips[..i] + [clips[i]];
  }

  /**
   generateSingleVideo: hand every original to ffmpeg, then, on success,
   remove the originals one by one, or, on an error, remove the merged
   path. `outcome` is what the returned promise settles to.
   */
  method GenerateSingleVideo(disk: Disk, clips: seq<string>, folder: string, ffmpeg: Ffmpeg)
    returns (outcome: Outcome)
    modifies disk
    ensures outcome == ffmpeg(InputPaths(folder, clips), MergedPath(folder, clips))
    ensures disk.files == MergeEffect(old(disk.files), folder, clips, outcome)
  {
    var inputs: seq<Path> := [];
    for i := 0 to |clips|
      invariant inputs == InputPaths(folder, clips[..i])
    {
      assert clips[..i + 1][..i] == clips[..i];
      inputs := inputs + [Path(folder, OriginalName(clips[i]))];
    }
    assert clips[..|clips|] == clips;

    var mergedFileName := MergedName(FirstClip(clips));
    var mergedFilePath := Path(folder, mergedFileName);

    outcome := ffmpeg(inputs, mergedFilePath);
    match outcome {
      case Failed(partial) =>
        if partial {
          disk.WriteFile(mergedFilePath);
        }
        disk.RemoveFile(mergedFilePath);
      case Merged =>
        disk.WriteFile(mergedFilePath);
        ghost var written := disk.files;
        for i := 0 to |clips|
          invariant disk.files == written - OriginalPaths(folder, clips[..i])
        {
          OriginalPathsAppend(folder, clips, i);
          disk.RemoveFile(Path(folder, OriginalName(clips[i])));
        }
    }
  }

  /** The effect of one `[year, ...paths]` entry; an empty entry has none. */
  function GroupEffect(fs: set<Path>, group: seq<string>, ffmpeg: Ffmpeg): set<Path>
  {
    if |group| == 0 then fs
    else
      var folder := group[0];
      var clips := group[1..];
      MergeEffect(fs, folder, clips, ffmpeg(InputPaths(folder, clips), MergedPath(folder, clips)))
  }

  function GroupFootprint(group: seq<string>): set<Path>
  {
    if |group| == 0 then {} else Footprint(group[0], group[1..])
  }

  /** The files after merging the groups in order, whatever each merge's outcome. */
  function ApplyGroups(fs: set<Path>, groups: seq<seq<string>>, ffmpeg: Ffmpeg): set<Path>
  {
    if |groups| == 0 then fs
    else GroupEffect(ApplyGroups(fs, groups[..|groups| - 1], ffmpeg), groups[|groups| - 1], ffmpeg)
  }

  lemma ApplyGroupsAppend(fs: set<Path>, groups: seq<seq<string>>, g: seq<string>, ffmpeg: Ffmpeg)
    ensures ApplyGroups(fs, groups + [g], ffmpeg) == GroupEffect(ApplyGroups(fs, groups, ffmpeg), g, ffmpeg)
  {
    assert (groups + [g])[..|groups|] == groups;
  }

  /** Running the merges of `front` and then those of `back` is running the merges of `front + back`. */
  lemma {:induction false} ApplyGroupsConcat(fs: set<Path>, front: seq<seq<string>>, back: seq<seq<string>>, ffmpeg: Ffmpeg)
    ensures ApplyGroups(fs, front + back, ffmpeg) == ApplyGroups(ApplyGroups(fs, front, ffmpeg), back, ffmpeg)
  {
    if |back| == 0 {
      assert front + back == front;
    } else {
      var init := back[..|back| - 1];
      var g := back[|back| - 1];
      assert back == init + [g];
      assert front + back == (front + init) + [g];
      ApplyGroupsConcat(fs, front, init, ffmpeg);
      ApplyGroupsAppend(fs, front + init, g, ffmpeg);
      ApplyGroupsAppend(ApplyGroups(fs, front, ffmpeg), init, g, ffmpeg);
    }
  }

  /** A path no group may touch is present after the merges exactly when it was before. */
  lemma {:induction false} ApplyGroupsFrame(fs: set<Path>, groups: seq<seq<string>>, ffmpeg: Ffmpeg, p: Path)
    requires forall i :: 0 <= i < |groups| ==> p !in GroupFootprint(groups[i])
    ensures p in ApplyGroups(fs, groups, ffmpeg) <==> p in fs
  {
    if |groups| > 0 {
      var init := groups[..|groups| - 1];
      var g := groups[|groups| - 1];
      ApplyGroupsFrame(fs, init, ffmpeg, p);
      if |g| > 0 {
        MergeEffectMeaning(ApplyGroups(fs, init, ffmpeg), g[0], g[1..],
          ffmpeg(InputPaths(g[0], g[1..]), MergedPath(g[0], g[1..])));
      }
    }
  }

  /** No two groups may touch the same path. */
  ghost predicate FootprintsDisjoint(groups: seq<seq<string>>)
  {
    forall i, j :: 0 <= i < j < |groups| ==> GroupFootprint(groups[i]) !! GroupFootprint(groups[j])
  }

  /** What a group's own merge leaves behind, judged against the files before all merges. */
  ghost predicate GroupSettled(fs: set<Path>, r: set<Path>, group: seq<string>, ffmpeg: Ffmpeg)
  {
    |group| > 0 ==>
      var folder := group[0];
      var clips := group[1..];
      match ffmpeg(InputPaths(folder, clips), MergedPath(folder, clips))
      case Merged =>
        MergedPath(folder, clips) in r && forall c :: c in clips ==> Path(folder, OriginalName(c)) !in r
      case Failed(_) =>
        MergedPath(folder, clips) !in r && forall p :: p in OriginalPaths(folder, clips) ==> (p in r <==> p in fs)
  }

  /** Every group of `groups` has settled in `r`. */
  ghost predicate AllSettled(fs: set<Path>, r: set<Path>, groups: seq<seq<string>>, ffmpeg: Ffmpeg)
  {
    forall g :: g in groups ==> GroupSettled(fs, r, g, ffmpeg)
  }

  lemma SettledKept(fs: set<Path>, r: set<Path>, r': set<Path>, group: seq<string>, ffmpeg: Ffmpeg)
    requires GroupSettled(fs, r, group, ffmpeg)
    requires forall p :: p in GroupFootprint(group) ==> (p in r' <==> p in r)
    ensures GroupSettled(fs, r', group, ffmpeg)
  {
    if |group| > 0 {
      var folder := group[0];
      var clips := group[1..];
      forall c | c in clips
        ensures Path(folder, OriginalName(c)) in GroupFootprint(group)
      {
        assert Path(folder, OriginalName(c)) in OriginalPaths(folder, clips);
      }
    }
  }

  /**
   A merge that fails does not stop or disturb the others: when no two
   groups touch the same path, every group ends up exactly as its own
   outcome says, whatever the other groups' outcomes were.
   */
  lemma {:induction false} EveryGroupSettled(fs: set<Path>, groups: seq<seq<string>>, ffmpeg: Ffmpeg)
    requires FootprintsDisjoint(groups)
    ensures forall i :: 0 <= i < |groups| ==> GroupSettled(fs, ApplyGroups(fs, groups, ffmpeg), groups[i], ffmpeg)
  {
    if |groups| > 0 {
      var n := |groups| - 1;
      var init := groups[..n];
      var g := groups[n];
      var before := ApplyGroups(fs, init, ffmpeg);
      var after := ApplyGroups(fs, groups, ffmpeg);
      assert FootprintsDisjoint(init);
      EveryGroupSettled(fs, init, ffmpeg);
      if |g| > 0 {
        MergeEffectMeaning(before, g[0], g[1..], ffmpeg(InputPaths(g[0], g[1..]), MergedPath(g[0], g[1..])));
      }
      forall i | 0 <= i < n
        ensures GroupSettled(fs, after, groups[i], ffmpeg)
      {
        assert GroupFootprint(groups[i]) !! GroupFootprint(g);
        assert GroupSettled(fs, before, init[i], ffmpeg);
        SettledKept(fs, before, after, groups[i], ffmpeg);
      }
      forall p | p in GroupFootprint(g)
        ensures p in before <==> p in fs
      {
        forall i | 0 <= i < |init|
          ensures p !in GroupFootprint(init[i])
        {
          assert GroupFootprint(groups[i]) !! GroupFootprint(g);
        }
        ApplyGroupsFrame(fs, init, ffmpeg, p);
      }
      assert GroupSettled(fs, after, groups[n], ffmpeg);
    }
  }

  /** Distinct timestamps are distinct file names, and so are the merged names they give. */
  lemma NamesInjective(a: string, b: string)
    ensures OriginalName(a) == OriginalName(b) ==> a == b
    ensures MergedName(a) == MergedName(b) ==> a == b
  {
    if OriginalName(a) == OriginalName(b) {
      assert a == OriginalName(a)[..|a|];
      assert b == OriginalName(b)[..|b|];
    }
    if MergedName(a) == MergedName(b) {
      assert a == MergedName(a)[..|a|];
      assert b == MergedName(b)[..|b|];
    }
  }

  /** No two files of a listing share their 19-character timestamp. */
  ghost predicate StampsDistinct(files: seq<File>)
  {
    forall a, b :: 0 <= a < b < |files| ==> Stamp(files[a]) != Stamp(files[b])
  }

  /**
   The memories folder as readdir lists it, with no two folders of one
   name and no two files of one folder sharing a timestamp.
   */
  ghost predicate ListingDistinct(folders: seq<Folder>)
  {
    && (forall i, j :: 0 <= i < j < |folders| ==> folders[i].name != folders[j].name)
    && (forall i :: 0 <= i < |folders| ==> StampsDistinct(folders[i].files))
  }

  lemma StampsDistinctNames(files: seq<File>)
    requires StampsDistinct(files)
    ensures LastNameUnique(files)
  {
    forall k | 0 <= k < |files| - 1
      ensures files[k].name != files[|files| - 1].name
    {
      assert Stamp(files[k]) != Stamp(files[|files| - 1]);
    }
  }

  /** Two merges of one folder whose clip lists share no timestamp touch no common path. */
  lemma ClipFootprintsDisjoint(folder: string, s: seq<string>, s': seq<string>)
    requires |s| > 0 && |s'| > 0
    requires forall a, b :: 0 <= a < |s| && 0 <= b < |s'| ==> s[a] != s'[b]
    ensures Footprint(folder, s) !! Footprint(folder, s')
  {
    forall x, y | x in Footprint(folder, s) && y in Footprint(folder, s')
      ensures x != y
    {
      if x == MergedPath(folder, s) {
        if y == MergedPath(folder, s') {
          NamesInjective(s[0], s'[0]);
        } else {
          var c' :| c' in s' && y == Path(folder, OriginalName(c'));
          MergedNameIsNotOriginal(s[0], c');
        }
      } else {
        var c :| c in s && x == Path(folder, OriginalName(c));
        if y == MergedPath(folder, s') {
          MergedNameIsNotOriginal(s'[0], c);
        } else {
          var c' :| c' in s' && y == Path(folder, OriginalName(c'));
          NamesInjective(c, c');
        }
      }
    }
  }

  /** Two runs of one folder, every position of the first below every position of the second, touch no common path. */
  lemma RunFootprintsDisjoint(files: seq<File>, folder: string, r: seq<nat>, r': seq<nat>)
    requires StampsDistinct(files) && |r| > 0 && |r'| > 0
    requires InRange(r, |files|) && InRange(r', |files|)
    requires forall a, b :: 0 <= a < |r| && 0 <= b < |r'| ==> r[a] < r'[b]
    ensures Footprint(folder, Stamps(files, r)) !! Footprint(folder, Stamps(files, r'))
  {
    StampsAt(files, r);
    StampsAt(files, r');
    var s := Stamps(files, r);
    var s' := Stamps(files, r');
    forall a, b | 0 <= a < |s| && 0 <= b < |s'|
      ensures s[a] != s'[b]
    {
      assert r[a] < r'[b] < |files|;
      assert s[a] == Stamp(files[r[a]]) && s'[b] == Stamp(files[r'[b]]);
    }
    ClipFootprintsDisjoint(folder, s, s');
  }

  /** Within one folder whose timestamps are distinct, no two groups touch the same path. */
  lemma FolderFootprintsDisjoint(cal: Calendar, folder: Folder)
    requires StampsDistinct(folder.files)
    ensures FootprintsDisjoint(FolderOutput(cal, folder))
  {
    if !FolderLate(cal, folder) {
      var files := folder.files;
      var runs := FolderRuns(cal, files);
      var out := FolderOutput(cal, folder);
      StampsDistinctNames(files);
      FolderRunsOrderedAndDisjoint(cal, files);
      FolderRunsAreRuns(cal, files);
      RenderAt(folder.name, files, runs);
      forall p, q | 0 <= p < q < |out|
        ensures GroupFootprint(out[p]) !! GroupFootprint(out[q])
      {
        assert runs[p] in runs && runs[q] in runs;
        RenderedFootprintsDisjoint(files, folder.name, runs[p], runs[q]);
      }
    }
  }

  lemma RenderedFootprintsDisjoint(files: seq<File>, folder: string, r: seq<nat>, r': seq<nat>)
    requires StampsDistinct(files) && |r| > 0 && |r'| > 0
    requires InRange(r, |files|) && InRange(r', |files|)
    requires forall a, b :: 0 <= a < |r| && 0 <= b < |r'| ==> r[a] < r'[b]
    ensures GroupFootprint([folder] + Stamps(files, r)) !! GroupFootprint([folder] + Stamps(files, r'))
  {
    assert ([folder] + Stamps(files, r))[1..] == Stamps(files, r);
    assert ([folder] + Stamps(files, r'))[1..] == Stamps(files, r');
    RunFootprintsDisjoint(files, folder, r, r');
  }

  /** Every path a group may touch lies in the group's own folder. */
  lemma FootprintFolder(group: seq<string>)
    ensures forall x :: x in GroupFootprint(group) ==> x.folder == group[0]
  {
  }

  lemma DisjointConcat(front: seq<seq<string>>, back: seq<seq<string>>)
    requires FootprintsDisjoint(front) && FootprintsDisjoint(back)
    requires forall i, j :: 0 <= i < |front| && 0 <= j < |back| ==> GroupFootprint(front[i]) !! GroupFootprint(back[j])
    ensures FootprintsDisjoint(front + back)
  {
    var all := front + back;
    forall i, j | 0 <= i < j < |all|
      ensures GroupFootprint(all[i]) !! GroupFootprint(all[j])
    {
      if j < |front| {
        assert all[i] == front[i] && all[j] == front[j];
      } else if i < |front| {
        assert all[i] == front[i] && all[j] == back[j - |front|];
      } else {
        assert all[i] == back[i - |front|] && all[j] == back[j - |front|];
      }
    }
  }

  /**
   With distinct folder names and distinct timestamps within each folder,
   no two groups findVideoMemoriesToMerge returns touch the same path.
   */
  lemma {:induction false} AllGroupsFootprintsDisjoint(cal: Calendar, folders: seq<Folder>)
    requires ListingDistinct(folders)
    ensures FootprintsDisjoint(AllGroups(cal, folders))
  {
    if |folders| > 0 {
      var init := folders[..|folders| - 1];
      var last := folders[|folders| - 1];
      assert folders == init + [last];
      assert forall i :: 0 <= i < |init| ==> init[i] == folders[i];
      AllGroupsFootprintsDisjoint(cal, init);
      AllGroupsAppend(cal, init, last);
      var front := if Hidden(last.name) then [] else FolderOutput(cal, last);
      var back := AllGroups(cal, init);
      FolderFootprintsDisjoint(cal, last);
      forall i, j | 0 <= i < |front| && 0 <= j < |back|
        ensures GroupFootprint(front[i]) !! GroupFootprint(back[j])
      {
        FolderGroupShape(cal, last, front[i]);
        AllGroupsFromVisibleFolders(cal, init, back[j]);
        var f :| f in init && !Hidden(f.name) && back[j] in FolderOutput(cal, f);
        FolderGroupShape(cal, f, back[j]);
        var k :| 0 <= k < |init| && init[k] == f;
        assert folders[k].name != folders[|folders| - 1].name;
        FootprintFolder(front[i]);
        FootprintFolder(back[j]);
      }
      DisjointConcat(front, back);
    }
  }

  /**
   For a listing with distinct folder names and distinct timestamps within
   each folder, every group the merge stage handles ends as its own
   ffmpeg outcome says, whatever happened to the other groups.
   */
  lemma AllMergesSettled(cal: Calendar, folders: seq<Folder>, fs: set<Path>, r: set<Path>, ffmpeg: Ffmpeg)
    requires r == ApplyGroups(fs, AllGroups(cal, folders), ffmpeg)
    ensures ListingDistinct(folders) ==> AllSettled(fs, r, AllGroups(cal, folders), ffmpeg)
  {
    if ListingDistinct(folders) {
      AllGroupsFootprintsDisjoint(cal, folders);
      EveryGroupSettled(fs, AllGroups(cal, folders), ffmpeg);
    }
  }

  /**
   A video and an image saved in the same second share a timestamp. The
   listing below holds a short clip at 0 s, a short clip at 5 s, an image
   at 5 s (no duration) and a short clip at 8 s, listed last.
   */
  const StampA: string := "2020-01-01 00:00:00"
  const StampB: string := "2020-01-01 00:00:05"
  const StampC: string := "2020-01-01 00:00:08"

  const SameSecondCalendar: Calendar :=
    Calendar(s => if s == StampA then Some(0) else if s == StampB then Some(5) else if s == StampC then Some(8)
                  else if s == MergeByDefaultDate then Some(1000) else None, 2000)

  const SameSecondFiles: seq<File> :=
    [File(StampA + " UTC.mp4", true), File(StampB + " UTC.mp4", true),
     File(StampB + " UTC.png", false), File(StampC + " UTC.mp4", true)]

  /** The files of that listing carry the three timestamps, and their names are distinct. */
  lemma SameSecondStamps()
    ensures Stamp(SameSecondFiles[0]) == StampA && Stamp(SameSecondFiles[1]) == StampB
    ensures Stamp(SameSecondFiles[2]) == StampB && Stamp(SameSecondFiles[3]) == StampC
    ensures LastNameUnique(SameSecondFiles)
  {
    var files := SameSecondFiles;
    DateFromVideoNameOfStamped(StampA, " UTC.mp4");
    DateFromVideoNameOfStamped(StampB, " UTC.mp4");
    DateFromVideoNameOfStamped(StampB, " UTC.png");
    DateFromVideoNameOfStamped(StampC, " UTC.mp4");
    assert files[0].name[18] == '0' && files[1].name[18] == '5' && files[2].name[18] == '5' && files[3].name[18] == '8';
    assert files[2].name[24] == 'p' && files[3].name[24] == 'm';
  }

  /** The calendar of that listing reads the three timestamps as 0, 5 and 8 seconds. */
  lemma SameSecondParse()
    ensures SameSecondCalendar.parse(StampA) == Some(0)
    ensures SameSecondCalendar.parse(StampB) == Some(5)
    ensures SameSecondCalendar.parse(StampC) == Some(8)
    ensures SameSecondCalendar.parse(MergeByDefaultDate) == Some(1000)
  {
    assert StampB[18] != StampA[18] && StampC[18] != StampA[18] && StampC[18] != StampB[18];
    assert |MergeByDefaultDate| != |StampA|;
  }

  /** No file of that listing is after the cutoff, files 0 and 1 pass the continuation test, and only file 3 is the last. */
  lemma SameSecondFacts()
    ensures forall k :: 0 <= k < 4 ==> !Late(SameSecondCalendar, SameSecondFiles[k])
    ensures ExtendsRun(SameSecondCalendar, SameSecondFiles, [], 0)
    ensures ExtendsRun(SameSecondCalendar, SameSecondFiles, [0], 1)
    ensures !SameSecondFiles[2].short
    ensures !IsLastFile(SameSecondFiles, 0) && !IsLastFile(SameSecondFiles, 1)
    ensures !IsLastFile(SameSecondFiles, 2) && IsLastFile(SameSecondFiles, 3)
  {
    SameSecondStamps();
    SameSecondParse();
  }

  /** Files 0 and 1 extend the open run. */
  lemma SameSecondOpenRun()
    ensures Scan(SameSecondCalendar, SameSecondFiles, 2) == ScanState([0, 1], [])
  {
    SameSecondFacts();
    ScanExtend(SameSecondCalendar, SameSecondFiles, 0);
    ScanExtend(SameSecondCalendar, SameSecondFiles, 1);
  }

  /** The image, which has no duration, closes the open run and opens the next. */
  lemma SameSecondImageCloses()
    ensures Scan(SameSecondCalendar, SameSecondFiles, 3) == ScanState([2], [[0, 1]])
  {
    SameSecondFacts();
    SameSecondOpenRun();
    ScanClose(SameSecondCalendar, SameSecondFiles, 2, [0, 1]);
  }

  /** The last file closes the run the image opened. */
  lemma SameSecondScan()
    ensures FolderRuns(SameSecondCalendar, SameSecondFiles) == [[0, 1], [2, 3]]
  {
    SameSecondFacts();
    SameSecondImageCloses();
    ScanClose(SameSecondCalendar, SameSecondFiles, 3, [2, 3]);
  }

  /** The listing emits the runs of files 0-1 and 2-3. */
  lemma SameSecondRuns()
    ensures FolderRuns(SameSecondCalendar, SameSecondFiles) == [[0, 1], [2, 3]]
    ensures Stamps(SameSecondFiles, [0, 1]) == [StampA, StampB]
    ensures Stamps(SameSecondFiles, [2, 3]) == [StampB, StampC]
  {
    SameSecondScan();
    SameSecondStamps();
    StampsPair(SameSecondFiles, 0, 1);
    StampsPair(SameSecondFiles, 2, 3);
  }

  /**
   In that listing the 5 s clip ends one group and starts the next, so
   both merges take `<5 s stamp> UTC.mp4` as an input and the first to
   succeed removes it: with shared timestamps the groups' footprints
   overlap and `EveryGroupSettled` does not apply.
   */
  lemma SharedStampOverlap()
    ensures LastNameUnique(SameSecondFiles)
    ensures AllGroups(SameSecondCalendar, [Folder("2020", SameSecondFiles)]) ==
      [["2020", StampA, StampB], ["2020", StampB, StampC]]
    ensures Path("2020", OriginalName(StampB)) in
      GroupFootprint(["2020", StampA, StampB]) * GroupFootprint(["2020", StampB, StampC])
    ensures !FootprintsDisjoint(AllGroups(SameSecondCalendar, [Folder("2020", SameSecondFiles)]))
  {
    var cal := SameSecondCalendar;
    var folder := Folder("2020", SameSecondFiles);
    SameSecondStamps();
    SameSecondRuns();
    assert cal.parse("2020") == None;
    assert !FolderLate(cal, folder);
    RenderAt("2020", SameSecondFiles, [[0, 1], [2, 3]]);
    var out := Render("2020", SameSecondFiles, [[0, 1], [2, 3]]);
    assert out[0] == ["2020"] + [StampA, StampB] == ["2020", StampA, StampB];
    assert out[1] == ["2020"] + [StampB, StampC] == ["2020", StampB, StampC];
    assert FolderOutput(cal, folder) == [["2020", StampA, StampB], ["2020", StampB, StampC]];
    assert Visible([folder]) == [folder];
    assert Reversed([folder]) == [folder];
    assert Concat(cal, [folder]) == Concat(cal, []) + FolderOutput(cal, folder);
    assert ["2020", StampA, StampB][1..] == [StampA, StampB];
    assert ["2020", StampB, StampC][1..] == [StampB, StampC];
    assert Path("2020", OriginalName(StampB)) in OriginalPaths("2020", [StampA, StampB]);
    assert Path("2020", OriginalName(StampB)) in OriginalPaths("2020", [StampB, StampC]);
  }

  /**
   One batch of mergeVideoClips, `await Promise.all(chunk.map(...))`: the
   merges of the batch take effect in batch order, a failing one caught.
   */
  method MergeBatch(disk: Disk, chunk: seq<seq<string>>, ffmpeg: Ffmpeg)
    modifies disk
    ensures disk.files == ApplyGroups(old(disk.files), chunk, ffmpeg)
  {
    ghost var fs := disk.files;
    for k := 0 to |chunk|
      invariant disk.files == ApplyGroups(fs, chunk[..k], ffmpeg)
    {
      var group := chunk[k];
      assert chunk[..k + 1] == chunk[..k] + [group];
      ApplyGroupsAppend(fs, chunk[..k], group, ffmpeg);
      if |group| > 0 {
        var year := group[0];
        var paths := group[1..];
        var outcome := GenerateSingleVideo(disk, paths, year, ffmpeg);
      }
    }
    assert chunk[..|chunk|] == chunk;
  }

  /** The batches of mergeVideoClips, one after the other: the merges take effect in listing order. */
  method MergeBatches(disk: Disk, chunks: seq<seq<seq<string>>>, ffmpeg: Ffmpeg)
    modifies disk
    ensures disk.files == ApplyGroups(old(disk.files), Flatten(chunks), ffmpeg)
  {
    ghost var fs := disk.files;
    for c := 0 to |chunks|
      invariant disk.files == ApplyGroups(fs, Flatten(chunks[..c]), ffmpeg)
    {
      var chunk := chunks[c];
      ghost var done := Flatten(chunks[..c]);
      MergeBatch(disk, chunk, ffmpeg);
      ApplyGroupsConcat(fs, done, chunk, ffmpeg);
      assert chunks[..c + 1] == chunks[..c] + [chunk];
      FlattenAppend(chunks[..c], chunk);
    }
    assert chunks[..|chunks|] == chunks;
  }

  /**
   mergeVideoClips: find the groups, cut them into batches of
   MAX_PARALLELL_PROCESSING_AMOUNT, and merge batch after batch; a merge
   that fails is caught and the remaining merges go on.
   */
  method MergeVideoClips(cal: Calendar, folders: seq<Folder>, disk: Disk, ffmpeg: Ffmpeg)
    modifies disk
    ensures disk.files == ApplyGroups(old(disk.files), AllGroups(cal, folders), ffmpeg)
    ensures ListingDistinct(folders) ==> AllSettled(old(disk.files), disk.files, AllGroups(cal, folders), ffmpeg)
  {
    var clipsToMerge := FindVideoMemoriesToMerge(cal, folders);
    var chunkedClipsToMerge := ChunkArray(clipsToMerge, MaxParallelProcessingAmount);
    MergeBatches(disk, chunkedClipsToMerge, ffmpeg);
    AllMergesSettled(cal, folders, old(disk.files), disk.files, ffmpeg);
  }
}
