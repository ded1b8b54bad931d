/** The progress panel of a job (frontend/src/components/video/ProcessingStatus.tsx):
    five named stages with progress thresholds, the stage the progress falls
    in, how each stage and connector is drawn, and the failure banner. */
module ProcessingStatus {
  import opened Wrappers

  datatype Stage = Stage(name: string, threshold: real)

  const Stages: seq<Stage> := [
    Stage("Transcribing video", 25.0),
    Stage("Analyzing engaging moments", 50.0),
    Stage("Generating content", 75.0),
    Stage("Creating thumbnails", 90.0),
    Stage("Finalizing", 100.0)
  ]

  /** `findIndex(stage => progress < stage.threshold)` over `stages[from..]`,
      counted from 0, or -1. */
  function FindBelow(stages: seq<Stage>, progress: real, from: nat): (r: int)
    requires from <= |stages|
    ensures r == -1 || from <= r < |stages|
    ensures r == -1 <==> forall k :: from <= k < |stages| ==> progress >= stages[k].threshold
    ensures r != -1 ==> progress < stages[r].threshold
    ensures r != -1 ==> forall k :: from <= k < r ==> progress >= stages[k].threshold
    decreases |stages| - from
  {
    if from == |stages| then -1
    else if progress < stages[from].threshold then from
    else FindBelow(stages, progress, from + 1)
  }

  /** The stage shown as current: the first whose threshold the progress has
      not reached, or the last stage when it has reached them all. */
  function CurrentStage(progress: real): (c: nat)
    ensures c < |Stages|
  {
    var i := FindBelow(Stages, progress, 0);
    if i == -1 then |Stages| - 1 else i
  }

  /** The current stage in terms of the thresholds: it is 4 exactly from 90%
      on, and below that it is the number of thresholds already reached. */
  lemma CurrentStageMeaning(progress: real)
    ensures CurrentStage(progress) == 4 <==> progress >= 90.0
    ensures progress < 25.0 ==> CurrentStage(progress) == 0
    ensures 25.0 <= progress < 50.0 ==> CurrentStage(progress) == 1
    ensures 50.0 <= progress < 75.0 ==> CurrentStage(progress) == 2
    ensures 75.0 <= progress < 90.0 ==> CurrentStage(progress) == 3
  {
    var i := FindBelow(Stages, progress, 0);
    assert Stages[0].threshold == 25.0 && Stages[1].threshold == 50.0 && Stages[2].threshold == 75.0;
    assert Stages[3].threshold == 90.0 && Stages[4].threshold == 100.0;
  }

  /** More progress never moves the panel back to an earlier stage. */
  lemma CurrentStageMonotone(p: real, q: real)
    requires p <= q
    ensures CurrentStage(p) <= CurrentStage(q)
  {
    CurrentStageMeaning(p);
    CurrentStageMeaning(q);
  }

  datatype Mark = Done | Current | Pending

  /** How a stage is drawn; its connector to the next stage (the last has none)
      is green or gray; its name is dark up to the current stage. */
  datatype StageView = StageView(name: string, mark: Mark, connector: Option<bool>, darkName: bool)

  datatype Panel = Panel(width: real, stages: seq<StageView>, failureBanner: bool)

  function ViewOf(i: nat, current: nat): StageView
    requires i < |Stages|
  {
    StageView(Stages[i].name,
              if i < current then Done else if i == current then Current else Pending,
              if i < |Stages| - 1 then Some(i < current) else None,
              i <= current)
  }

  function Render(status: string, progress: real): Panel {
    var current := CurrentStage(progress);
    Panel(progress, seq(|Stages|, i requires 0 <= i < |Stages| => ViewOf(i, current)), status == "FAILED")
  }

  /** The drawn panel: every stage in order, the ones before the current stage
      done with green connectors, exactly one current stage, the rest pending;
      the last stage has no connector and is never drawn done; the failure
      banner appears exactly for the FAILED status. */
  lemma RenderMeaning(status: string, progress: real)
    ensures var p := Render(status, progress);
      && |p.stages| == 5
      && (forall i :: 0 <= i < 5 ==> p.stages[i].name == Stages[i].name)
      && (forall i :: 0 <= i < 5 ==> (p.stages[i].mark == Done <==> i < CurrentStage(progress)))
      && (forall i :: 0 <= i < 5 ==> (p.stages[i].mark == Current <==> i == CurrentStage(progress)))
      && (forall i :: 0 <= i < 4 ==> p.stages[i].connector == Some(p.stages[i].mark == Done))
      && p.stages[4].connector == None && p.stages[4].mark != Done
      && (p.failureBanner <==> status == "FAILED")
      && (progress >= 90.0 ==> p.stages[4].mark == Current)
  {
    CurrentStageMeaning(progress);
  }
}
