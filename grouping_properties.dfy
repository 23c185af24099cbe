/**
 What the clip grouper promises about the groups it emits: each is a run of
 at least two clips of one folder, no clip after the cutoff date is in one,
 consecutive members pass the continuation test (the folded last file
 excepted), runs are separated only by skipped files, and the runs of a
 folder are disjoint and in listing order.
 */
module GroupingProperties {
  import opened ClipGrouping

  ghost predicate Increasing(r: seq<nat>)
  {
    forall a, b :: 0 <= a < b < |r| ==> r[a] < r[b]
  }

  /** Every file strictly between positions `a` and `b` is after the cutoff date. */
  ghost predicate SkippedBetween(cal: Calendar, files: seq<File>, a: int, b: nat)
    requires b <= |files|
  {
    forall m :: 0 <= m < b && a < m ==> Late(cal, files[m])
  }

  /**
   A run of the listing: increasing positions of files that are not after
   the cutoff, each member after the first passes the continuation test
   against its predecessor or carries the name of the last listed file,
   and only skipped files lie between two members.
   */
  ghost predicate RunOk(cal: Calendar, files: seq<File>, r: seq<nat>)
  {
    && InRange(r, |files|)
    && Increasing(r)
    && (forall k :: 0 <= k < |r| ==> !Late(cal, files[r[k]]))
    && (forall k :: 0 < k < |r| ==> Continues(cal, files, r[k - 1], r[k]) || IsLastFile(files, r[k]))
    && (forall k :: 0 < k < |r| ==> SkippedBetween(cal, files, r[k - 1], r[k]))
  }

  /** The invariant of the source loop after the first `i` files. */
  ghost predicate ScanOk(cal: Calendar, files: seq<File>, i: nat, s: ScanState)
    requires i <= |files|
  {
    && InRange(s.run, i)
    && RunOk(cal, files, s.run)
    && SkippedBetween(cal, files, if |s.run| == 0 then -1 else s.run[|s.run| - 1], i)
    && (forall r :: r in s.runs ==> |r| >= 2 && InRange(r, i) && RunOk(cal, files, r))
  }

  lemma {:induction false} ScanInvariant(cal: Calendar, files: seq<File>, i: nat)
    requires i <= |files|
    ensures ScanOk(cal, files, i, Scan(cal, files, i))
  {
    if i > 0 {
      ScanInvariant(cal, files, i - 1);
      StepKeepsInvariant(cal, files, i - 1, Scan(cal, files, i - 1));
    }
  }

  /** One iteration of the source loop keeps the invariant. */
  lemma StepKeepsInvariant(cal: Calendar, files: seq<File>, j: nat, s: ScanState)
    requires j < |files| && ScanOk(cal, files, j, s)
    ensures ScanOk(cal, files, j + 1, Step(cal, files, j, s))
  {
    if Late(cal, files[j]) {
      SkipKeepsInvariant(cal, files, j, s);
    } else if ExtendsRun(cal, files, s.run, j) && !IsLastFile(files, j) {
      ExtendedRunOk(cal, files, j, s);
      ExtendRestOk(cal, files, j, s);
    } else {
      var closed := if IsLastFile(files, j) then s.run + [j] else s.run;
      if IsLastFile(files, j) {
        ExtendedRunOk(cal, files, j, s);
      }
      CloseKeepsInvariant(cal, files, j, s, closed);
    }
  }

  lemma SkipKeepsInvariant(cal: Calendar, files: seq<File>, j: nat, s: ScanState)
    requires j < |files| && ScanOk(cal, files, j, s) && Late(cal, files[j])
    ensures ScanOk(cal, files, j + 1, s)
  {
  }

  /** Appending a position above every member keeps a run increasing and in range. */
  lemma ExtendedIncreasing(run: seq<nat>, j: nat)
    requires Increasing(run) && InRange(run, j)
    ensures InRange(run + [j], j + 1) && Increasing(run + [j])
  {
    var r := run + [j];
    forall a, b | 0 <= a < b < |r|
      ensures r[a] < r[b]
    {
      assert r[a] == run[a];
      if b < |run| {
        assert r[b] == run[b];
      }
    }
  }

  /** The open run with file `j` appended is still a run. */
  lemma ExtendedRunOk(cal: Calendar, files: seq<File>, j: nat, s: ScanState)
    requires j < |files| && ScanOk(cal, files, j, s) && !Late(cal, files[j])
    requires ExtendsRun(cal, files, s.run, j) || IsLastFile(files, j)
    ensures InRange(s.run + [j], j + 1) && RunOk(cal, files, s.run + [j])
  {
    var run := s.run;
    var r := run + [j];
    ExtendedIncreasing(run, j);
    forall k | 0 <= k < |r|
      ensures !Late(cal, files[r[k]])
    {
      if k < |run| {
        assert r[k] == run[k];
      }
    }
    forall k | 0 < k < |r|
      ensures Continues(cal, files, r[k - 1], r[k]) || IsLastFile(files, r[k])
      ensures SkippedBetween(cal, files, r[k - 1], r[k])
    {
      if k < |run| {
        assert r[k - 1] == run[k - 1] && r[k] == run[k];
      } else {
        assert r[k - 1] == run[|run| - 1] && r[k] == j;
        assert StampAt(files, j) == Stamp(files[j]);
      }
    }
  }

  lemma ExtendRestOk(cal: Calendar, files: seq<File>, j: nat, s: ScanState)
    requires j < |files| && ScanOk(cal, files, j, s)
    requires InRange(s.run + [j], j + 1) && RunOk(cal, files, s.run + [j])
    ensures ScanOk(cal, files, j + 1, ScanState(s.run + [j], s.runs))
  {
  }

  lemma CloseKeepsInvariant(cal: Calendar, files: seq<File>, j: nat, s: ScanState, closed: seq<nat>)
    requires j < |files| && ScanOk(cal, files, j, s) && !Late(cal, files[j])
    requires InRange(closed, j + 1) && RunOk(cal, files, closed)
    ensures ScanOk(cal, files, j + 1, ScanState([j], if |closed| >= 2 then s.runs + [closed] else s.runs))
  {
    assert RunOk(cal, files, [j]);
  }

  /** Every emitted run has at least two members, and every emitted and open run is a run. */
  lemma FolderRunsAreRuns(cal: Calendar, files: seq<File>)
    ensures forall r :: r in FolderRuns(cal, files) ==> |r| >= 2 && RunOk(cal, files, r)
  {
    ScanInvariant(cal, files, |files|);
  }

  /** readdir lists every name once, so the last name occurs only at the end. */
  ghost predicate LastNameUnique(files: seq<File>)
  {
    forall k :: 0 <= k < |files| - 1 ==> files[k].name != files[|files| - 1].name
  }

  /** Every position of an earlier run is below every position of a later run. */
  ghost predicate RunsOrdered(runs: seq<seq<nat>>)
  {
    forall p, q, a, b :: 0 <= p < q < |runs| && 0 <= a < |runs[p]| && 0 <= b < |runs[q]| ==> runs[p][a] < runs[q][b]
  }

  /** Every position of the emitted runs is below every position of the open run. */
  ghost predicate Below(runs: seq<seq<nat>>, run: seq<nat>)
  {
    forall p, a, b :: 0 <= p < |runs| && 0 <= a < |runs[p]| && 0 <= b < |run| ==> runs[p][a] < run[b]
  }

  lemma AppendOrdered(runs: seq<seq<nat>>, r: seq<nat>)
    requires RunsOrdered(runs) && Below(runs, r)
    ensures RunsOrdered(runs + [r])
  {
  }

  /** Appending a position above every emitted run keeps the open run above them. */
  lemma BelowAppend(runs: seq<seq<nat>>, run: seq<nat>, j: nat)
    requires Below(runs, run) && forall r :: r in runs ==> InRange(r, j)
    ensures Below(runs, run + [j])
  {
    forall p, a, b | 0 <= p < |runs| && 0 <= a < |runs[p]| && 0 <= b < |run + [j]|
      ensures runs[p][a] < (run + [j])[b]
    {
      if b < |run| {
        assert (run + [j])[b] == run[b];
      } else {
        assert runs[p] in runs;
      }
    }
  }

  /** After a run is closed at position `j`, every emitted run lies below the new open run `[j]`. */
  lemma CloseBelow(runs: seq<seq<nat>>, closed: seq<nat>, j: nat)
    requires InRange(closed, j) && forall r :: r in runs ==> InRange(r, j)
    ensures Below(if |closed| >= 2 then runs + [closed] else runs, [j])
  {
    var next := if |closed| >= 2 then runs + [closed] else runs;
    forall p, a | 0 <= p < |next| && 0 <= a < |next[p]|
      ensures next[p][a] < j
    {
      if p < |runs| {
        assert next[p] == runs[p] && runs[p] in runs;
      }
    }
  }

  /** The closing step of the scan keeps the runs ordered and, before the end, below the new open run. */
  lemma CloseOrdered(cal: Calendar, files: seq<File>, j: nat, s: ScanState, closed: seq<nat>)
    requires j < |files| && ScanOk(cal, files, j, s)
    requires RunsOrdered(s.runs) && Below(s.runs, s.run)
    requires closed == if IsLastFile(files, j) then s.run + [j] else s.run
    requires j + 1 < |files| ==> !IsLastFile(files, j)
    ensures RunsOrdered(if |closed| >= 2 then s.runs + [closed] else s.runs)
    ensures j + 1 < |files| ==> Below(if |closed| >= 2 then s.runs + [closed] else s.runs, [j])
  {
    if IsLastFile(files, j) {
      BelowAppend(s.runs, s.run, j);
    }
    if |closed| >= 2 {
      AppendOrdered(s.runs, closed);
    }
    if j + 1 < |files| {
      CloseBelow(s.runs, closed, j);
    }
  }

  lemma {:induction false} ScanOrdered(cal: Calendar, files: seq<File>, i: nat)
    requires i <= |files| && LastNameUnique(files)
    ensures RunsOrdered(Scan(cal, files, i).runs)
    ensures i < |files| || (0 < i && Late(cal, files[i - 1])) ==> Below(Scan(cal, files, i).runs, Scan(cal, files, i).run)
  {
    if i > 0 {
      var j := i - 1;
      ScanOrdered(cal, files, j);
      ScanInvariant(cal, files, j);
      var s := Scan(cal, files, j);
      if Late(cal, files[j]) {
        ScanSkip(cal, files, j);
      } else if ExtendsRun(cal, files, s.run, j) && !IsLastFile(files, j) {
        ScanExtend(cal, files, j);
        BelowAppend(s.runs, s.run, j);
      } else {
        var closed := if IsLastFile(files, j) then s.run + [j] else s.run;
        ScanClose(cal, files, j, closed);
        CloseOrdered(cal, files, j, s, closed);
      }
    }
  }

  /**
   Within a folder the emitted runs keep listing order and share no file:
   every position of an earlier group is below every position of a later one.
   */
  lemma FolderRunsOrderedAndDisjoint(cal: Calendar, files: seq<File>)
    requires LastNameUnique(files)
    ensures RunsOrdered(FolderRuns(cal, files))
    ensures forall p, q :: 0 <= p < q < |FolderRuns(cal, files)| ==>
      forall m :: m in FolderRuns(cal, files)[p] ==> m !in FolderRuns(cal, files)[q]
  {
    ScanOrdered(cal, files, |files|);
    var runs := FolderRuns(cal, files);
    forall p, q, m | 0 <= p < q < |runs| && m in runs[p]
      ensures m !in runs[q]
    {
      var a :| 0 <= a < |runs[p]| && runs[p][a] == m;
      assert forall b :: 0 <= b < |runs[q]| ==> runs[p][a] < runs[q][b];
    }
  }

  /**
   Each member of an emitted run after the first passes the continuation
   test against its predecessor (gap of at most ten seconds, duration of at
   most ten seconds), except possibly the final member when it is the
   folder's last listed file.
   */
  lemma EmittedMembersContinue(cal: Calendar, files: seq<File>)
    requires LastNameUnique(files)
    ensures forall r, k :: r in FolderRuns(cal, files) && 0 < k < |r| ==>
      Continues(cal, files, r[k - 1], r[k]) || (k == |r| - 1 && r[k] == |files| - 1)
  {
    FolderRunsAreRuns(cal, files);
    forall r, k | r in FolderRuns(cal, files) && 0 < k < |r| - 1
      ensures Continues(cal, files, r[k - 1], r[k])
    {
      assert r[k] < r[|r| - 1] < |files|;
      assert !IsLastFile(files, r[k]);
    }
  }

  /** No file after the cutoff date is in any emitted run. */
  lemma LateFilesNeverGrouped(cal: Calendar, files: seq<File>, m: nat)
    requires m < |files| && Late(cal, files[m])
    ensures forall r :: r in FolderRuns(cal, files) ==> m !in r
  {
    FolderRunsAreRuns(cal, files);
  }

  /** A listing of zero or one files emits nothing. */
  lemma SmallFolderEmitsNothing(cal: Calendar, files: seq<File>)
    requires |files| <= 1
    ensures FolderRuns(cal, files) == []
  {
    if |files| == 1 {
      assert Scan(cal, files, 0) == ScanState([], []);
    }
  }

  /**
   When the last listed file is not skipped it is folded into the open run
   before the emit check, whatever the continuation test says: the run is
   emitted with it if the open run was not empty.
   */
  lemma LastFileFolded(cal: Calendar, files: seq<File>)
    requires |files| > 0 && !Late(cal, files[|files| - 1])
    ensures var s := Scan(cal, files, |files| - 1);
      FolderRuns(cal, files) == s.runs + (if |s.run| >= 1 then [s.run + [|files| - 1]] else [])
  {
    var j := |files| - 1;
    var s := Scan(cal, files, j);
    ScanClose(cal, files, j, s.run + [j]);
  }

  /**
   When the last listed file is skipped, the run still open at the end of
   the loop is never emitted: none of its files is in an emitted run.
   */
  lemma OpenRunDroppedAfterSkippedLast(cal: Calendar, files: seq<File>)
    requires |files| > 0 && Late(cal, files[|files| - 1]) && LastNameUnique(files)
    ensures forall m :: m in Scan(cal, files, |files|).run ==>
      forall r :: r in FolderRuns(cal, files) ==> m !in r
  {
    ScanOrdered(cal, files, |files|);
    var s := Scan(cal, files, |files|);
    forall m, r | m in s.run && r in s.runs
      ensures m !in r
    {
      var b :| 0 <= b < |s.run| && s.run[b] == m;
      var p :| 0 <= p < |s.runs| && s.runs[p] == r;
      assert forall a :: 0 <= a < |r| ==> s.runs[p][a] < s.run[b];
    }
  }
}
