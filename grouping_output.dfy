/**
 What findVideoMemoriesToMerge returns, read at the level of strings: the
 order in which folders contribute, the shape of every group, and two
 worked listings.
 */
module GroupingOutput {
  import opened Wrappers
  import opened ClipGrouping
  import opened GroupingProperties

  lemma {:induction false} VisibleAppend(folders: seq<Folder>, f: Folder)
    ensures Visible(folders + [f]) == Visible(folders) + (if Hidden(f.name) then [] else [f])
  {
    if |folders| == 0 {
      assert [f][1..] == [];
    } else {
      var head := if Hidden(folders[0].name) then [] else [folders[0]];
      var tail := if Hidden(f.name) then [] else [f];
      assert (folders + [f])[0] == folders[0];
      assert (folders + [f])[1..] == folders[1..] + [f];
      VisibleAppend(folders[1..], f);
      calc {
        Visible(folders + [f]);
        head + Visible(folders[1..] + [f]);
        head + (Visible(folders[1..]) + tail);
        (head + Visible(folders[1..])) + tail;
      }
    }
  }

  lemma ReversedAppend<T>(s: seq<T>, x: T)
    ensures Reversed(s + [x]) == [x] + Reversed(s)
  {
    assert (s + [x])[..|s|] == s;
  }

  lemma {:induction false} ConcatPrepend(cal: Calendar, f: Folder, order: seq<Folder>)
    ensures Concat(cal, [f] + order) == FolderOutput(cal, f) + Concat(cal, order)
  {
    if |order| == 0 {
      assert ([f] + order)[..0] == [];
    } else {
      var init := order[..|order| - 1];
      assert ([f] + order)[..|order|] == [f] + init;
      ConcatPrepend(cal, f, init);
    }
  }

  /**
   Folders are processed in reverse listing order: a folder listed after
   all others contributes its groups first, and a hidden folder
   contributes none.
   */
  lemma AllGroupsAppend(cal: Calendar, folders: seq<Folder>, f: Folder)
    ensures AllGroups(cal, folders + [f]) ==
      (if Hidden(f.name) then [] else FolderOutput(cal, f)) + AllGroups(cal, folders)
  {
    VisibleAppend(folders, f);
    if Hidden(f.name) {
      assert Visible(folders) + [] == Visible(folders);
    } else {
      ReversedAppend(Visible(folders), f);
      ConcatPrepend(cal, f, Reversed(Visible(folders)));
    }
  }

  /** A folder dated after the cutoff date contributes no group. */
  lemma LateFolderContributesNothing(cal: Calendar, folders: seq<Folder>, f: Folder)
    requires FolderLate(cal, f)
    ensures AllGroups(cal, folders + [f]) == AllGroups(cal, folders)
  {
    AllGroupsAppend(cal, folders, f);
  }

  lemma {:induction false} ConcatMember(cal: Calendar, order: seq<Folder>, g: seq<string>)
    requires g in Concat(cal, order)
    ensures exists k :: 0 <= k < |order| && g in FolderOutput(cal, order[k])
  {
    var init := order[..|order| - 1];
    if g !in FolderOutput(cal, order[|order| - 1]) {
      ConcatMember(cal, init, g);
      var k :| 0 <= k < |init| && g in FolderOutput(cal, init[k]);
      assert order[k] == init[k];
    }
  }

  /**
   Every group of a folder is `[folder, t1, ..., tk]` with k at least 2,
   from a folder not dated after the cutoff: each ti is the timestamp of
   a file of that folder and is not after the cutoff date.
   */
  lemma FolderGroupShape(cal: Calendar, folder: Folder, g: seq<string>)
    requires g in FolderOutput(cal, folder)
    ensures |g| >= 3 && g[0] == folder.name && !FolderLate(cal, folder)
    ensures forall t :: 1 <= t < |g| ==>
      (exists m :: 0 <= m < |folder.files| && g[t] == Stamp(folder.files[m])) &&
      !IsAfter(cal.parse(g[t]), cal.parse(MergeByDefaultDate))
  {
    var files := folder.files;
    var runs := FolderRuns(cal, files);
    RenderAt(folder.name, files, runs);
    var p :| 0 <= p < |runs| && g == Render(folder.name, files, runs)[p];
    var r := runs[p];
    FolderRunsAreRuns(cal, files);
    assert r in runs;
    StampsAt(files, r);
    forall t | 1 <= t < |g|
      ensures exists m :: 0 <= m < |files| && g[t] == Stamp(files[m])
      ensures !IsAfter(cal.parse(g[t]), cal.parse(MergeByDefaultDate))
    {
      var m := r[t - 1];
      assert g[t] == Stamps(files, r)[t - 1] == Stamp(files[m]);
      assert !Late(cal, files[m]);
    }
  }

  /**
   Every group findVideoMemoriesToMerge returns comes from one listed
   folder whose name does not start with a dot.
   */
  lemma AllGroupsFromVisibleFolders(cal: Calendar, folders: seq<Folder>, g: seq<string>)
    requires g in AllGroups(cal, folders)
    ensures exists f :: f in folders && !Hidden(f.name) && g in FolderOutput(cal, f)
  {
    var order := Reversed(Visible(folders));
    ConcatMember(cal, order, g);
    var k :| 0 <= k < |order| && g in FolderOutput(cal, order[k]);
    VisibleMembers(folders);
    assert order[k] in Visible(folders);
  }

  /**
   Every entry findVideoMemoriesToMerge returns holds a folder name
   followed by at least two timestamps, none after the cutoff date.
   */
  lemma AllGroupsWellFormed(cal: Calendar, folders: seq<Folder>)
    ensures forall g :: g in AllGroups(cal, folders) ==>
      && |g| >= 3
      && forall t :: 1 <= t < |g| ==> !IsAfter(cal.parse(g[t]), cal.parse(MergeByDefaultDate))
  {
    forall g | g in AllGroups(cal, folders)
      ensures |g| >= 3
      ensures forall t :: 1 <= t < |g| ==> !IsAfter(cal.parse(g[t]), cal.parse(MergeByDefaultDate))
    {
      AllGroupsFromVisibleFolders(cal, folders, g);
      var f :| f in folders && !Hidden(f.name) && g in FolderOutput(cal, f);
      FolderGroupShape(cal, f, g);
    }
  }

  /**
   Clips recorded at 0, 5, 9 and 40 seconds, all short, in folder "2020";
   the cutoff date reads as 1000 s and the current time as 2000 s.
   */
  const FoldingCalendar: Calendar :=
    Calendar(s => if s == "a" then Some(0) else if s == "b" then Some(5)
                  else if s == "c" then Some(9) else if s == "d" then Some(40)
                  else if s == MergeByDefaultDate then Some(1000) else None, 2000)

  const FoldingFiles: seq<File> := [File("a", true), File("b", true), File("c", true), File("d", true)]

  /** The calendar reads the four names as 0, 5, 9 and 40 seconds, and the names are their own timestamps. */
  lemma FoldingParse()
    ensures FoldingCalendar.parse("a") == Some(0) && FoldingCalendar.parse("b") == Some(5)
    ensures FoldingCalendar.parse("c") == Some(9) && FoldingCalendar.parse("d") == Some(40)
    ensures FoldingCalendar.parse(MergeByDefaultDate) == Some(1000)
    ensures Stamp(FoldingFiles[0]) == "a" && Stamp(FoldingFiles[1]) == "b"
    ensures Stamp(FoldingFiles[2]) == "c" && Stamp(FoldingFiles[3]) == "d"
  {
    assert |MergeByDefaultDate| != 1;
  }

  /** No file is after the cutoff, the first three pass the continuation test, and only the fourth is the last. */
  lemma FoldingFacts()
    ensures forall k :: 0 <= k < 4 ==> !Late(FoldingCalendar, FoldingFiles[k])
    ensures ExtendsRun(FoldingCalendar, FoldingFiles, [], 0)
    ensures ExtendsRun(FoldingCalendar, FoldingFiles, [0], 1)
    ensures ExtendsRun(FoldingCalendar, FoldingFiles, [0, 1], 2)
    ensures !IsLastFile(FoldingFiles, 0) && !IsLastFile(FoldingFiles, 1)
    ensures !IsLastFile(FoldingFiles, 2) && IsLastFile(FoldingFiles, 3)
    ensures !Continues(FoldingCalendar, FoldingFiles, 2, 3)
  {
    FoldingParse();
  }

  /** The first three files extend the open run. */
  lemma FoldingOpenRun()
    ensures Scan(FoldingCalendar, FoldingFiles, 3) == ScanState([0, 1, 2], [])
  {
    FoldingFacts();
    ScanExtend(FoldingCalendar, FoldingFiles, 0);
    ScanExtend(FoldingCalendar, FoldingFiles, 1);
    ScanExtend(FoldingCalendar, FoldingFiles, 2);
  }

  /** The last file is folded into the open run although it does not continue it. */
  lemma FoldingRuns()
    ensures !Continues(FoldingCalendar, FoldingFiles, 2, 3)
    ensures FolderRuns(FoldingCalendar, FoldingFiles) == [[0, 1, 2, 3]]
  {
    FoldingFacts();
    FoldingOpenRun();
    ScanClose(FoldingCalendar, FoldingFiles, 3, [0, 1, 2, 3]);
  }

  /** The group's clips are the four names. */
  lemma FoldingStamps()
    ensures Stamps(FoldingFiles, [0, 1, 2, 3]) == ["a", "b", "c", "d"]
  {
    FoldingParse();
    StampsAt(FoldingFiles, [0, 1, 2, 3]);
  }

  /**
   In that listing the first three clips follow each other within ten
   seconds and the fourth, the last listed, is folded in although it is 31
   seconds after the third, so one group of four is emitted.
   */
  lemma FoldingExample()
    ensures !Continues(FoldingCalendar, FoldingFiles, 2, 3)
    ensures AllGroups(FoldingCalendar, [Folder("2020", FoldingFiles)]) == [["2020", "a", "b", "c", "d"]]
  {
    var cal := FoldingCalendar;
    var files := FoldingFiles;
    FoldingRuns();
    FoldingStamps();
    var folder := Folder("2020", files);
    assert cal.parse("2020") == None;
    assert !FolderLate(cal, folder);
    RenderAppend("2020", files, [], [0, 1, 2, 3]);
    assert [] + [[0, 1, 2, 3]] == [[0, 1, 2, 3]];
    assert Render("2020", files, [[0, 1, 2, 3]]) == [["2020"] + Stamps(files, [0, 1, 2, 3])];
    assert ["2020"] + ["a", "b", "c", "d"] == ["2020", "a", "b", "c", "d"];
    assert FolderOutput(cal, folder) == [["2020", "a", "b", "c", "d"]];
    assert Visible([folder]) == [folder];
    assert Reversed([folder]) == [folder];
    assert Concat(cal, [folder]) == Concat(cal, []) + FolderOutput(cal, folder);
  }

  /**
   Two long clips a minute apart, neither continuing the other: the last
   listed file is still folded into the run the first one opened, so a
   group is emitted although no file passes the continuation test.
   */
  lemma GroupWithoutContinuation()
    ensures var cal := Calendar(s => if s == "a" then Some(0) else if s == "b" then Some(60)
                                     else if s == MergeByDefaultDate then Some(1000) else None, 2000);
      var files := [File("a", false), File("b", false)];
      (forall a, b :: 0 <= a < b < |files| ==> !Continues(cal, files, a, b)) &&
      FolderRuns(cal, files) == [[0, 1]]
  {
    var cal := Calendar(s => if s == "a" then Some(0) else if s == "b" then Some(60)
                             else if s == MergeByDefaultDate then Some(1000) else None, 2000);
    var files := [File("a", false), File("b", false)];
    assert Scan(cal, files, 1) == ScanState([0], []);
    ScanClose(cal, files, 1, [0, 1]);
    assert Scan(cal, files, 2) == ScanState([1], [[0, 1]]);
  }
}
