/** The deployment pipeline simulator of
    src/components/ui/deployment-pipeline.tsx. A run owns an array of stage
    objects that its loop updates in place; the component state holds the
    active run (a shallow snapshot that shares that array) and the history.
    The random stage durations and success draws, the clock and a click on
    Cancel during a stage are inputs. */
module DeploymentPipeline {
  import opened Wrappers
  import opened Text

  datatype StageStatus = Pending | Running | Succeeded | Failed | Skipped

  datatype RunStatus = RunPending | RunRunning | RunSucceeded | RunFailed | Cancelled

  /** An entry of `defaultStages`: an immutable value, so copying it for a
      new run can never change it. */
  datatype StageTemplate = StageTemplate(id: string, name: string)

  const DefaultStages: seq<StageTemplate> := [
    StageTemplate("build", "Build"), StageTemplate("test", "Test"),
    StageTemplate("security", "Security Scan"), StageTemplate("deploy", "Deploy")]

  const MinStageDuration: int := 10000
  const MaxStageDuration: int := 40000

  datatype Stage = Stage(id: string, name: string, status: StageStatus,
                         startTime: Option<int>, endTime: Option<int>, duration: Option<int>)
  {
    predicate Untouched() {
      status == Pending && startTime.None? && endTime.None? && duration.None?
    }

    /** The stage ran from `start` for `d` ms with the given outcome. */
    predicate Finished(start: int, d: int, ok: bool) {
      && status == (if ok then Succeeded else Failed)
      && startTime == Some(start) && endTime == Some(start + d) && duration == Some(d)
    }

    /** A stage after a failure: skipped, never started. */
    predicate SkippedUnstarted() {
      status == Skipped && startTime.None? && endTime.None? && duration.None?
    }
  }

  /** The stages as a new run copies them from the templates. */
  predicate FreshCopy(items: seq<Stage>) {
    && |items| == |DefaultStages|
    && forall m :: 0 <= m < |items| ==>
         items[m].id == DefaultStages[m].id && items[m].name == DefaultStages[m].name
  }

  /** Total duration of the first `i` stages. */
  function Elapsed(durations: seq<int>, i: nat): int
    requires i <= |durations|
  {
    if i == 0 then 0 else Elapsed(durations, i - 1) + durations[i - 1]
  }

  /** When stage `i` starts (or, for `i` the stage count, when the run ends). */
  function StageStart(start: int, durations: seq<int>, i: nat): int
    requires i <= |durations|
  {
    start + Elapsed(durations, i)
  }

  /** The stages of a run in which the first `k` stages succeeded and, when
      `k` is not the stage count, stage `k` failed and the rest were skipped. */
  ghost predicate Outcome(items: seq<Stage>, start: int, durations: seq<int>, k: nat)
    requires k <= |items| == |durations|
  {
    && (forall m :: 0 <= m < k ==> items[m].Finished(StageStart(start, durations, m), durations[m], true))
    && (k < |items| ==> items[k].Finished(StageStart(start, durations, k), durations[k], false))
    && (forall m :: k < m < |items| ==> items[m].SkippedUnstarted())
  }

  /** The stages while the loop is about to start stage `i`, no failure so far. */
  ghost predicate InProgress(items: seq<Stage>, start: int, durations: seq<int>, i: nat)
    requires i <= |items| == |durations|
  {
    && (forall m :: 0 <= m < i ==> items[m].Finished(StageStart(start, durations, m), durations[m], true))
    && (forall m :: i <= m < |items| ==> items[m].Untouched())
  }

  /** Stage `i` set running from `now`. */
  function Begun(items: seq<Stage>, i: nat, now: int): (r: seq<Stage>)
    requires i < |items|
    ensures |r| == |items| && (FreshCopy(items) ==> FreshCopy(r))
  {
    items[i := items[i].(status := Running, startTime := Some(now))]
  }

  /** Stage `i` completed after `d` ms; after a failure every later stage
      is skipped, and everything else is as it was. */
  function Ended(items: seq<Stage>, i: nat, d: int, ok: bool): (r: seq<Stage>)
    requires i < |items| && items[i].startTime.Some?
    ensures |r| == |items| && (FreshCopy(items) ==> FreshCopy(r))
  {
    seq(|items|, m requires 0 <= m < |items| =>
      if m == i then items[i].(status := if ok then Succeeded else Failed,
                               endTime := Some(items[i].startTime.value + d), duration := Some(d))
      else if i < m && !ok then items[m].(status := Skipped)
      else items[m])
  }

  /** The stages array of a run. Its stage objects are updated in place and
      every shallow snapshot of the run shares it, so it is one object here
      whose contents are the stages' current values. */
  class StageList {
    var items: seq<Stage>

    /** `defaultStages.map(stage => ({ ...stage }))`. */
    constructor ()
      ensures FreshCopy(items) && forall m :: 0 <= m < |items| ==> items[m].Untouched()
    {
      var copies: seq<Stage> := [];
      for n := 0 to |DefaultStages|
        invariant |copies| == n
        invariant forall m :: 0 <= m < n ==>
                    copies[m] == Stage(DefaultStages[m].id, DefaultStages[m].name, Pending, None, None, None)
      {
        copies := copies + [Stage(DefaultStages[n].id, DefaultStages[n].name, Pending, None, None, None)];
      }
      items := copies;
    }

    /** Stage `i` becomes running with its start time. */
    method Begin(i: nat, now: int)
      requires i < |items|
      modifies this
      ensures items == Begun(old(items), i, now)
    {
      items := items[i := items[i].(status := Running, startTime := Some(now))];
    }

    /** Stage `i` completes after `d` ms; on a failure the skip loop marks
        every later stage skipped. */
    method End(i: nat, d: int, ok: bool)
      requires i < |items| && items[i].startTime.Some?
      modifies this
      ensures items == Ended(old(items), i, d, ok)
    {
      var stage := items[i];
      items := items[i := stage.(status := if ok then Succeeded else Failed,
                                 endTime := Some(stage.startTime.value + d), duration := Some(d))];
      if !ok {
        for j := i + 1 to |items|
          invariant |items| == |old(items)|
          invariant forall m :: 0 <= m < i ==> items[m] == old(items)[m]
          invariant items[i] == old(items)[i].(status := Failed,
                                              endTime := Some(old(items)[i].startTime.value + d), duration := Some(d))
          invariant forall m :: i < m < j ==> items[m] == old(items)[m].(status := Skipped)
          invariant forall m :: j <= m < |items| ==> items[m] == old(items)[m]
        {
          items := items[j := items[j].(status := Skipped)];
        }
      }
      assert forall m :: 0 <= m < |items| ==> items[m] == Ended(old(items), i, d, ok)[m];
    }
  }

  class Run {
    const id: string
    const name: string
    const branch: string
    const commit: string
    const triggeredBy: string
    const stages: StageList
    const startTime: int
    var status: RunStatus
    var endTime: Option<int>

    /** A new run as `startPipeline` builds it. */
    constructor (start: int, commit: string, stages: StageList)
      ensures this.id == "pipeline-" + IntToString(start)
      ensures this.name == "Production Deploy" && this.branch == "main"
      ensures this.commit == commit && this.triggeredBy == "current.user@example.com"
      ensures this.stages == stages && this.startTime == start
      ensures this.status == RunRunning && this.endTime.None?
    {
      this.id := "pipeline-" + IntToString(start);
      this.name := "Production Deploy";
      this.branch := "main";
      this.commit := commit;
      this.triggeredBy := "current.user@example.com";
      this.stages := stages;
      this.startTime := start;
      this.status := RunRunning;
      this.endTime := None;
    }

    /** The end of `startPipeline`: a run that did not fail succeeds, and
        it ends at `now`. */
    method Finish(now: int)
      modifies this
      ensures status == (if old(status) == RunFailed then RunFailed else RunSucceeded)
      ensures endTime == Some(now)
    {
      if status != RunFailed {
        status := RunSucceeded;
      }
      endTime := Some(now);
    }

    /** `{ ...run }`: a new object with the same fields, sharing the stages. */
    constructor Snapshot(r: Run)
      ensures id == r.id && name == r.name && branch == r.branch && commit == r.commit
      ensures triggeredBy == r.triggeredBy && stages == r.stages && startTime == r.startTime
      ensures status == r.status && endTime == r.endTime
    {
      id := r.id;
      name := r.name;
      branch := r.branch;
      commit := r.commit;
      triggeredBy := r.triggeredBy;
      stages := r.stages;
      startTime := r.startTime;
      status := r.status;
      endTime := r.endTime;
    }
  }

  /** The times of the Cancel clicks during the first `n` stages, in click
      order. `cancels[i]` is the click while stage `i` runs, if any: the
      button is shown again at each stage start, and a click hides it
      until the next one. */
  function CancelTimes(cancels: seq<Option<int>>, n: nat): (ts: seq<int>)
    requires n <= |cancels|
    ensures |ts| <= n
  {
    if n == 0 then []
    else CancelTimes(cancels, n - 1) + (if cancels[n - 1].Some? then [cancels[n - 1].value] else [])
  }

  /** One more stage adds its click, if any, at the end. */
  lemma CancelTimesStep(cancels: seq<Option<int>>, i: nat)
    requires i < |cancels|
    ensures CancelTimes(cancels, i + 1) == CancelTimes(cancels, i) + (if cancels[i].Some? then [cancels[i].value] else [])
  {
  }

  /** The collected times are exactly the clicks made during the first `n`
      stages. */
  lemma {:induction false} CancelTimesAreClicks(cancels: seq<Option<int>>, n: nat)
    requires n <= |cancels|
    ensures forall x :: x in CancelTimes(cancels, n) <==> exists i :: 0 <= i < n && cancels[i] == Some(x)
  {
    if n > 0 {
      CancelTimesAreClicks(cancels, n - 1);
    }
  }

  /** Each click falls within the run of its own stage. */
  ghost predicate ClicksDuringStages(start: int, durations: seq<int>, cancels: seq<Option<int>>) {
    && |cancels| == |durations|
    && forall i :: 0 <= i < |cancels| && cancels[i].Some? ==>
         StageStart(start, durations, i) <= cancels[i].value < StageStart(start, durations, i + 1)
  }

  /** When every click falls within its stage, the collected clicks are in
      the order they were made, within the stages that ran. */
  lemma {:induction false} CancelTimesInClickOrder(start: int, durations: seq<int>, cancels: seq<Option<int>>, n: nat)
    requires ValidDurations(durations) && ClicksDuringStages(start, durations, cancels) && n <= |cancels|
    ensures forall a, b :: 0 <= a < b < |CancelTimes(cancels, n)| ==> CancelTimes(cancels, n)[a] < CancelTimes(cancels, n)[b]
    ensures forall a :: 0 <= a < |CancelTimes(cancels, n)| ==> start <= CancelTimes(cancels, n)[a] < StageStart(start, durations, n)
  {
    if n > 0 {
      CancelTimesInClickOrder(start, durations, cancels, n - 1);
      var earlier, ts := CancelTimes(cancels, n - 1), CancelTimes(cancels, n);
      var lo, hi := StageStart(start, durations, n - 1), StageStart(start, durations, n);
      assert start <= lo < hi by {
        if n > 1 {
          StagesStartInOrder(durations, 0, n - 1);
        }
      }
      assert forall a :: 0 <= a < |earlier| ==> start <= earlier[a] < lo;
      if cancels[n - 1].Some? {
        var click := cancels[n - 1].value;
        assert ts == earlier + [click];
        assert lo <= click < hi;
        forall a | 0 <= a < |earlier|
          ensures ts[a] == earlier[a] < click
        {
        }
        assert ts[|earlier|] == click;
      } else {
        assert ts == earlier;
      }
    }
  }

  /** `snaps` are the cancelled snapshots of the clicks at `ts`, newest
      first, each sharing `stages`. */
  ghost predicate CancelledSnapshots(snaps: seq<Run>, ts: seq<int>, stages: StageList)
    reads snaps
  {
    && |snaps| == |ts|
    && forall j :: 0 <= j < |ts| ==>
         snaps[j].status == Cancelled && snaps[j].endTime == Some(ts[|ts| - 1 - j]) && snaps[j].stages == stages
  }

  /** The index of the first failing stage, or the stage count. */
  function FirstFailure(succeeds: seq<bool>): (k: nat)
    ensures k <= |succeeds|
    ensures forall i :: 0 <= i < k ==> succeeds[i]
    ensures k < |succeeds| ==> !succeeds[k]
  {
    if succeeds == [] || !succeeds[0] then 0 else 1 + FirstFailure(succeeds[1..])
  }

  /** The number of stages that start: up to and including the first failure. */
  function Started(succeeds: seq<bool>): (n: nat)
    ensures n <= |succeeds|
    ensures FirstFailure(succeeds) < |succeeds| ==> n == FirstFailure(succeeds) + 1
    ensures FirstFailure(succeeds) == |succeeds| ==> n == |succeeds|
  {
    var k := FirstFailure(succeeds);
    if k < |succeeds| then k + 1 else k
  }

  ghost predicate ValidDurations(durations: seq<int>) {
    forall i :: 0 <= i < |durations| ==> MinStageDuration <= durations[i] < MaxStageDuration
  }

  /** Stages run back to back: between the starts of stages `i` and `j`
      lie at least 10 s and under 40 s per stage. */
  lemma {:induction false} StagesStartInOrder(durations: seq<int>, i: nat, j: nat)
    requires ValidDurations(durations)
    requires i < j <= |durations|
    ensures Elapsed(durations, i) + MinStageDuration * (j - i) <= Elapsed(durations, j)
    ensures Elapsed(durations, j) < Elapsed(durations, i) + MaxStageDuration * (j - i)
  {
    if j > i + 1 {
      StagesStartInOrder(durations, i, j - 1);
    }
  }

  /** A stage that succeeds moves the loop on to the next stage. */
  lemma AdvanceOnSuccess(before: seq<Stage>, start: int, durations: seq<int>, i: nat)
    requires i < |before| == |durations|
    requires InProgress(before, start, durations, i)
    ensures InProgress(Ended(Begun(before, i, StageStart(start, durations, i)), i, durations[i], true), start, durations, i + 1)
  {
    var after := Ended(Begun(before, i, StageStart(start, durations, i)), i, durations[i], true);
    forall m | 0 <= m < i + 1
      ensures after[m].Finished(StageStart(start, durations, m), durations[m], true)
    {
      if m < i {
        assert after[m] == before[m];
      }
    }
    forall m | i + 1 <= m < |after|
      ensures after[m].Untouched()
    {
      assert after[m] == before[m];
    }
  }

  /** A stage that fails, with every later stage skipped, ends the run. */
  lemma StopOnFailure(before: seq<Stage>, start: int, durations: seq<int>, i: nat)
    requires i < |before| == |durations|
    requires InProgress(before, start, durations, i)
    ensures Outcome(Ended(Begun(before, i, StageStart(start, durations, i)), i, durations[i], false), start, durations, i)
  {
    var after := Ended(Begun(before, i, StageStart(start, durations, i)), i, durations[i], false);
    forall m | 0 <= m < i
      ensures after[m].Finished(StageStart(start, durations, m), durations[m], true)
    {
      assert after[m] == before[m];
    }
    forall m | i < m < |after|
      ensures after[m].SkippedUnstarted()
    {
      assert after[m] == before[m].(status := Skipped);
    }
  }

  /** Where the stage loop stands before pass `i`: `failed` after the pass
      that met the first failure, otherwise no failure yet. */
  ghost predicate Progress(items: seq<Stage>, start: int, durations: seq<int>, succeeds: seq<bool>, i: nat, failed: bool) {
    && |items| == |durations| == |succeeds| && i <= |items| && FreshCopy(items)
    && (failed ==> 0 < i && i - 1 == FirstFailure(succeeds) && Outcome(items, start, durations, i - 1))
    && (!failed ==> i <= FirstFailure(succeeds) && InProgress(items, start, durations, i))
  }

  /** One pass of the loop, started and completed as the outcome says,
      keeps the loop's account of the stages. */
  lemma ProgressStep(items: seq<Stage>, start: int, durations: seq<int>, succeeds: seq<bool>, i: nat)
    requires Progress(items, start, durations, succeeds, i, false) && i < |items|
    ensures Progress(Ended(Begun(items, i, StageStart(start, durations, i)), i, durations[i], succeeds[i]),
                     start, durations, succeeds, i + 1, !succeeds[i])
  {
    if succeeds[i] {
      AdvanceOnSuccess(items, start, durations, i);
    } else {
      StopOnFailure(items, start, durations, i);
    }
  }

  /** When the loop stops, exactly the stages up to the first failure
      started, and the stages show the final outcome. */
  lemma ProgressEnd(items: seq<Stage>, start: int, durations: seq<int>, succeeds: seq<bool>, i: nat, failed: bool)
    requires Progress(items, start, durations, succeeds, i, failed) && (failed || i == |items|)
    ensures FreshCopy(items) && Started(succeeds) == i
    ensures Outcome(items, start, durations, FirstFailure(succeeds))
  {
  }

  /** A cancel prepends its snapshot, the newest click first. */
  lemma PushSnapshot(h: seq<Run>, ts: seq<int>, stages: StageList, snap: Run, at: int)
    requires CancelledSnapshots(h, ts, stages)
    requires snap.status == Cancelled && snap.endTime == Some(at) && snap.stages == stages
    ensures CancelledSnapshots([snap] + h, ts + [at], stages)
  {
    var h', ts' := [snap] + h, ts + [at];
    forall j | 0 <= j < |ts'|
      ensures h'[j].status == Cancelled && h'[j].endTime == Some(ts'[|ts'| - 1 - j]) && h'[j].stages == stages
    {
      if j > 0 {
        assert h'[j] == h[j - 1] && ts'[|ts'| - 1 - j] == ts[|ts| - 1 - (j - 1)];
      }
    }
  }

  /** A run that is not cancelled is none of the cancelled snapshots. */
  lemma NotASnapshot(snaps: seq<Run>, ts: seq<int>, stages: StageList, run: Run)
    requires CancelledSnapshots(snaps, ts, stages) && run.status != Cancelled
    ensures forall j :: 0 <= j < |snaps| ==> snaps[j] != run
  {
  }

  class Deployments {
    var active: Run?
    var history: seq<Run>

    constructor ()
      ensures active == null && history == []
    {
      active := null;
      history := [];
    }

    /** `cancelPipeline`: marks the active snapshot cancelled, prepends it
        to the history and clears the active run. */
    method Cancel(now: int)
      modifies this, active
      ensures old(active) == null ==> active == null && history == old(history)
      ensures old(active) != null ==>
                && active == null && history == [old(active)] + old(history)
                && old(active).status == Cancelled && old(active).endTime == Some(now)
    {
      if active != null {
        active.status := Cancelled;
        active.endTime := Some(now);
        history := [active] + history;
        active := null;
      }
    }

    /** `startPipeline`: copies the default stages into a new run, steps
        through them and records the finished run; `durations` and
        `succeeds` are the random draws, `cancels[i]` a click on Cancel
        while stage `i` runs. */
    method StartPipeline(start: int, commit: string, durations: seq<int>, succeeds: seq<bool>,
                         cancels: seq<Option<int>>)
      returns (ghost snaps: seq<Run>)
      requires |durations| == |succeeds| == |cancels| == |DefaultStages|
      requires ValidDurations(durations) && ClicksDuringStages(start, durations, cancels)
      modifies this
      ensures |history| >= 1 && fresh(history[0]) && fresh(history[0].stages) && active == null
      ensures var run := history[0];
              && run.id == "pipeline-" + IntToString(start) && run.commit == commit && run.startTime == start
              && FreshCopy(run.stages.items)
              && Outcome(run.stages.items, start, durations, FirstFailure(succeeds))
              && run.status == (if FirstFailure(succeeds) < |DefaultStages| then RunFailed else RunSucceeded)
              && run.endTime == Some(StageStart(start, durations, Started(succeeds)))
      ensures history[1..] == snaps + old(history)
      ensures CancelledSnapshots(snaps, CancelTimes(cancels, Started(succeeds)), history[0].stages)
    {
      var stages := new StageList();
      var run := new Run(start, commit, stages);
      active := run;
      var now;
      now, snaps := RunStages(run, durations, succeeds, cancels);
      Record(run, now, snaps, CancelTimes(cancels, Started(succeeds)));
    }

    /** The end of `startPipeline`: the run is completed at `now`, heads
        the history and is no longer active; the cancelled snapshots keep
        their state. */
    method Record(run: Run, now: int, ghost snaps: seq<Run>, ghost ts: seq<int>)
      requires run.status != Cancelled && CancelledSnapshots(snaps, ts, run.stages)
      modifies this, run
      ensures run.status == (if old(run.status) == RunFailed then RunFailed else RunSucceeded)
      ensures run.endTime == Some(now)
      ensures |history| == |old(history)| + 1 && history[0] == run && history[1..] == old(history) && active == null
      ensures CancelledSnapshots(snaps, ts, run.stages)
    {
      NotASnapshot(snaps, ts, run.stages, run);
      run.Finish(now);
      history := [run] + history;
      active := null;
    }

    /** The stage loop of `startPipeline`: stages start in index order, the
        first failure skips the rest and fails the run, and each cancel
        records a snapshot without stopping the loop. Returns the clock
        when the loop ends, and the snapshots the cancels recorded. */
    method RunStages(run: Run, durations: seq<int>, succeeds: seq<bool>, cancels: seq<Option<int>>)
      returns (now: int, ghost snaps: seq<Run>)
      requires |durations| == |succeeds| == |cancels| == |DefaultStages|
      requires FreshCopy(run.stages.items) && InProgress(run.stages.items, run.startTime, durations, 0)
      requires run.status == RunRunning && run.endTime.None?
      modifies this, run, run.stages
      ensures now == StageStart(run.startTime, durations, Started(succeeds))
      ensures FreshCopy(run.stages.items)
      ensures Outcome(run.stages.items, run.startTime, durations, FirstFailure(succeeds))
      ensures run.status == (if FirstFailure(succeeds) < |DefaultStages| then RunFailed else RunRunning)
      ensures run.endTime.None?
      ensures history == snaps + old(history)
      ensures CancelledSnapshots(snaps, CancelTimes(cancels, Started(succeeds)), run.stages)
    {
      var start := run.startTime;
      now := start;
      var failed := false;
      var i := 0;
      ghost var ts: seq<int> := [];
      snaps := [];
      while i < |run.stages.items| && !failed
        invariant Progress(run.stages.items, start, durations, succeeds, i, failed)
        invariant now == StageStart(start, durations, i)
        invariant run.status == (if failed then RunFailed else RunRunning) && run.endTime.None?
        invariant ts == CancelTimes(cancels, i)
        invariant history == snaps + old(history)
        invariant CancelledSnapshots(snaps, ts, run.stages)
        decreases |run.stages.items| - i
      {
        snaps, ts := RunStage(run, durations, succeeds, i, cancels, old(history), snaps, ts);
        now := now + durations[i];
        failed := !succeeds[i];
        i := i + 1;
      }
      ProgressEnd(run.stages.items, start, durations, succeeds, i, failed);
    }

    /** The wait of one stage: a click on Cancel, if any, cancels the
        snapshot published at the stage start. */
    method CancelDuringStage(run: Run, cancelAt: Option<int>, ghost base: seq<Run>, ghost snaps: seq<Run>, ghost ts: seq<int>)
      returns (ghost snaps': seq<Run>, ghost ts': seq<int>)
      requires active != null && active != run && active.status == RunRunning && active.stages == run.stages
      requires history == snaps + base && CancelledSnapshots(snaps, ts, run.stages)
      modifies this, active
      ensures ts' == ts + (if cancelAt.Some? then [cancelAt.value] else [])
      ensures history == snaps' + base && CancelledSnapshots(snaps', ts', run.stages)
    {
      snaps', ts' := snaps, ts;
      if cancelAt.Some? {
        Cancel(cancelAt.value);
        PushSnapshot(snaps, ts, run.stages, history[0], cancelAt.value);
        snaps', ts' := [history[0]] + snaps, ts + [cancelAt.value];
      }
    }

    /** One pass of the stage loop: stage `i` starts (the active run becomes
        a fresh snapshot), a cancel may arrive during it, then it completes;
        a failure skips the later stages and fails the run, a success
        publishes another snapshot. */
    method RunStage(run: Run, durations: seq<int>, succeeds: seq<bool>, i: nat, cancels: seq<Option<int>>,
                    ghost base: seq<Run>, ghost snaps: seq<Run>, ghost ts: seq<int>)
      returns (ghost snaps': seq<Run>, ghost ts': seq<int>)
      requires Progress(run.stages.items, run.startTime, durations, succeeds, i, false)
      requires i < |durations| == |cancels| && ts == CancelTimes(cancels, i)
      requires run.status == RunRunning
      requires history == snaps + base && CancelledSnapshots(snaps, ts, run.stages)
      modifies this, run, run.stages
      ensures run.stages.items ==
                Ended(Begun(old(run.stages.items), i, StageStart(run.startTime, durations, i)), i, durations[i], succeeds[i])
      ensures Progress(run.stages.items, run.startTime, durations, succeeds, i + 1, !succeeds[i])
      ensures run.status == (if succeeds[i] then RunRunning else RunFailed) && run.endTime == old(run.endTime)
      ensures ts' == CancelTimes(cancels, i + 1)
      ensures history == snaps' + base && CancelledSnapshots(snaps', ts', run.stages)
    {
      var stages := run.stages;
      var start := StageStart(run.startTime, durations, i);
      stages.Begin(i, start);
      active := new Run.Snapshot(run);
      CancelTimesStep(cancels, i);
      snaps', ts' := CancelDuringStage(run, cancels[i], base, snaps, ts);
      CompleteStage(run, i, durations[i], succeeds[i], snaps', ts');
      ProgressStep(old(stages.items), run.startTime, durations, succeeds, i);
    }

    /** The end of stage `i`: a failure fails the run, a success publishes
        another snapshot; the cancelled snapshots stay as they are. */
    method CompleteStage(run: Run, i: nat, duration: int, ok: bool, ghost snaps: seq<Run>, ghost ts: seq<int>)
      requires i < |run.stages.items| && run.stages.items[i].startTime.Some? && run.status == RunRunning
      requires CancelledSnapshots(snaps, ts, run.stages)
      modifies this, run, run.stages
      ensures run.stages.items == Ended(old(run.stages.items), i, duration, ok)
      ensures run.status == (if ok then RunRunning else RunFailed) && run.endTime == old(run.endTime)
      ensures history == old(history) && CancelledSnapshots(snaps, ts, run.stages)
    {
      NotASnapshot(snaps, ts, run.stages, run);
      run.stages.End(i, duration, ok);
      if ok {
        active := new Run.Snapshot(run);
      } else {
        run.status := RunFailed;
      }
    }
  }

  /** `formatDuration`: whole seconds, as minutes and seconds from one minute on. */
  function FormatDuration(ms: int): (text: string)
    ensures |text| >= 2 && text[|text| - 1] == 's'
  {
    var seconds := ms / 1000;
    var minutes := seconds / 60;
    if minutes > 0 then IntToString(minutes) + "m " + IntToString(seconds % 60) + "s"
    else IntToString(seconds) + "s"
  }

  /** The length of the leading run of digits. */
  function DigitSpan(s: string): (k: nat)
    ensures k <= |s|
    ensures forall i :: 0 <= i < k ==> IsDigit(s[i])
    ensures k < |s| ==> !IsDigit(s[k])
  {
    if s == [] || !IsDigit(s[0]) then 0 else 1 + DigitSpan(s[1..])
  }

  predicate AllDigits(s: string) {
    forall i :: 0 <= i < |s| ==> IsDigit(s[i])
  }

  /** Reads a displayed duration back as a number of whole seconds. */
  function ParseDuration(text: string): Option<nat> {
    if |text| == 0 || text[|text| - 1] != 's' then None
    else ParseAmount(text[..|text| - 1])
  }

  /** The amount before the trailing "s": `<s>` or `<m>m <s>`. */
  function ParseAmount(body: string): Option<nat> {
    var k := DigitSpan(body);
    if k == |body| then
      if k == 0 then None else Some(ParseNat(body))
    else if 0 < k && k + 2 < |body| && body[k] == 'm' && body[k + 1] == ' ' && DigitSpan(body[k + 2..]) == |body| - (k + 2) then
      Some(60 * ParseNat(body[..k]) + ParseNat(body[k + 2..]))
    else None
  }

  lemma {:induction false} DigitSpanOfNumber(digits: string, rest: string)
    requires AllDigits(digits)
    requires rest == [] || !IsDigit(rest[0])
    ensures DigitSpan(digits + rest) == |digits|
  {
    if digits != [] {
      assert (digits + rest)[1..] == digits[1..] + rest;
      DigitSpanOfNumber(digits[1..], rest);
    } else {
      assert digits + rest == rest;
    }
  }

  /** Every non-negative duration is displayed so that its whole number of
      seconds can be read back. */
  lemma FormatDurationRoundTrip(ms: int)
    requires ms >= 0
    ensures ParseDuration(FormatDuration(ms)) == Some(ms / 1000)
  {
    var seconds := ms / 1000;
    var minutes := seconds / 60;
    if minutes > 0 {
      var sec := seconds % 60;
      assert FormatDuration(ms) == NatToString(minutes) + "m " + NatToString(sec) + "s";
      MinutesRoundTrip(minutes, sec);
      assert 60 * minutes + sec == seconds;
    } else {
      var s := NatToString(seconds);
      assert FormatDuration(ms) == s + "s";
      assert ParseDuration(s + "s") == Some(seconds) by {
        ParseSeconds(s);
        ParseNatToString(seconds);
      }
    }
  }

  /** `<minutes>m <sec>s` reads back as `60 * minutes + sec` seconds. */
  lemma MinutesRoundTrip(minutes: nat, sec: nat)
    requires minutes > 0
    ensures ParseDuration(NatToString(minutes) + "m " + NatToString(sec) + "s") == Some(60 * minutes + sec)
  {
    var m, s := NatToString(minutes), NatToString(sec);
    MinutesAmount(m, s);
    assert ParseAmount(m + "m " + s) == Some(60 * minutes + sec) by {
      ParseNatToString(minutes);
      ParseNatToString(sec);
    }
    TrailingSeconds(m + "m " + s);
  }

  /** An amount written `<m>m <s>` reads back as `60 * m + s` seconds. */
  lemma MinutesAmount(m: string, s: string)
    requires |m| > 0 && AllDigits(m) && |s| > 0 && AllDigits(s)
    ensures ParseAmount(m + "m " + s) == Some(60 * ParseNat(m) + ParseNat(s))
  {
    var body, k := m + "m " + s, |m|;
    MinutesLayout(m, s);
    ParseMinutesSeconds(body, k);
    assert ParseNat(body[..k]) == ParseNat(m) && ParseNat(body[k + 2..]) == ParseNat(s);
  }

  /** Where the parts of `<m>m <s>` sit. */
  lemma MinutesLayout(m: string, s: string)
    requires |m| > 0 && AllDigits(m) && |s| > 0 && AllDigits(s)
    ensures var body := m + "m " + s;
      && DigitSpan(body) == |m| && body[..|m|] == m && body[|m|] == 'm' && body[|m| + 1] == ' '
      && body[|m| + 2..] == s && DigitSpan(s) == |s|
  {
    var body := m + "m " + s;
    DigitSpanOfNumber(m, "m " + s);
    assert body == m + ("m " + s);
    DigitSpanOfNumber(s, "");
    assert s + "" == s;
  }

  /** The display is its amount followed by "s". */
  lemma TrailingSeconds(body: string)
    ensures ParseDuration(body + "s") == ParseAmount(body)
  {
    var text := body + "s";
    assert text[..|text| - 1] == body;
  }

  /** An amount `<m>m <s>` reads back as `60 * m + s` seconds. */
  lemma ParseMinutesSeconds(body: string, k: nat)
    requires 0 < k && k + 2 < |body| && DigitSpan(body) == k
    requires body[k] == 'm' && body[k + 1] == ' ' && DigitSpan(body[k + 2..]) == |body| - (k + 2)
    ensures ParseAmount(body) == Some(60 * ParseNat(body[..k]) + ParseNat(body[k + 2..]))
  {
  }

  /** A display `<s>s` reads back as `s` seconds. */
  lemma ParseSeconds(s: string)
    requires |s| > 0 && AllDigits(s)
    ensures ParseDuration(s + "s") == Some(ParseNat(s))
  {
    DigitSpanOfNumber(s, "");
    assert s + "" == s;
    TrailingSeconds(s);
  }

  /** Below one minute the display is the whole seconds followed by "s";
      from one minute on the seconds part stays below 60. */
  lemma FormatDurationShape(ms: int)
    requires ms >= 0
    ensures ms < 60000 ==> FormatDuration(ms) == NatToString(ms / 1000) + "s"
    ensures ms >= 60000 ==> FormatDuration(ms) == NatToString(ms / 60000) + "m " + NatToString(ms / 1000 % 60) + "s"
  {
  }
}
