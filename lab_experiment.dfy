/**
 * The virtual lab (`src/components/LabExperiment.tsx`): a start/pause/reset progress
 * machine driven by an interval tick, the result record written on completion, and
 * the two generated data series. `Math.sin(i * 0.5)` values, `Math.random()` draws
 * and `Date.now()` are parameters.
 */
module LabExperiment {
  import opened Common
  import opened Text

  datatype Experiment = Experiment(
    name: string,
    description: string,
    materials: Option<seq<string>>,
    procedure: Option<seq<string>>,
    duration: real)

  datatype DataPoint = DataPoint(time: nat, value: real, measurement: string)

  datatype ExperimentResult = ExperimentResult(
    experimentName: string,
    timeCompleted: int,
    observations: string,
    dataPoints: seq<DataPoint>,
    accuracy: real,
    insight: string)

  function InsightTexts(): seq<string>
  {
    [ "The relationship between variables follows an expected pattern",
      "Small variations indicate normal experimental uncertainty",
      "Results support the theoretical prediction",
      "The data shows clear evidence of the underlying principle" ]
  }

  /** What one interval tick does to the progress: move to a new value below 100, or finish. */
  datatype TickOutcome = Advance(newProgress: real) | Finish

  /**
   * `prev + 100 / (duration * 10)`, finishing once it reaches 100. A zero duration
   * divides by zero; the resulting `Infinity` finishes at once.
   */
  function TickStep(prev: real, duration: real): TickOutcome
  {
    if duration == 0.0 then Finish
    else
      var next := prev + 100.0 / (duration * 10.0);
      if next >= 100.0 then Finish else Advance(next)
  }

  /** With a positive duration each tick strictly raises the progress and never passes 100. */
  lemma TickStepBounded(prev: real, duration: real)
    requires duration > 0.0 && 0.0 <= prev <= 100.0
    ensures TickStep(prev, duration).Advance? ==>
      prev < TickStep(prev, duration).newProgress < 100.0
  {
    assert 100.0 / (duration * 10.0) > 0.0;
  }

  /**
   * Ticks needed from 0: progress advances by a fixed increment, so after `k` ticks that
   * all advanced it equals `k * 100 / (duration * 10)`.
   */
  function ProgressAfter(k: nat, duration: real): real
    requires duration > 0.0
  {
    k as real * (100.0 / (duration * 10.0))
  }

  lemma {:induction false} TicksAccumulate(k: nat, duration: real)
    requires duration > 0.0 && ProgressAfter(k + 1, duration) < 100.0
    ensures TickStep(ProgressAfter(k, duration), duration) == Advance(ProgressAfter(k + 1, duration))
  {
    var d := 100.0 / (duration * 10.0);
    assert ProgressAfter(k + 1, duration) == ProgressAfter(k, duration) + d;
  }

  /** `Math.random() * 30 + 70` for a draw in [0, 1). */
  function Accuracy(draw: real): (a: real)
    requires 0.0 <= draw < 1.0
    ensures 70.0 <= a < 100.0
  {
    draw * 30.0 + 70.0
  }

  /** `insights[Math.floor(Math.random() * insights.length)]`. */
  function InsightFor(draw: real): (s: string)
    requires 0.0 <= draw < 1.0
    ensures s in InsightTexts()
  {
    var k := (draw * 4.0).Floor;
    assert 0 <= k < 4;
    InsightTexts()[k]
  }

  /** Eleven readings at times 0..10, labelled `Measurement 1`..`Measurement 11`, valued from the draws. */
  predicate IsExperimentData(dataPoints: seq<DataPoint>, waves: seq<real>, noise: seq<real>)
    requires |waves| >= 11 && |noise| >= 11
  {
    |dataPoints| == 11 &&
    forall i :: 0 <= i < 11 ==>
      dataPoints[i].time == i &&
      dataPoints[i].measurement == "Measurement " + NatToString(i + 1) &&
      dataPoints[i].value == waves[i] * 50.0 + 50.0 + (noise[i] - 0.5) * 10.0
  }

  /**
   * `generateExperimentData`: eleven readings at times 0..10; `waves[i]` stands for
   * `Math.sin(i * 0.5)` and `noise[i]` for the i-th `Math.random()` draw.
   */
  method GenerateExperimentData(waves: seq<real>, noise: seq<real>) returns (dataPoints: seq<DataPoint>)
    requires |waves| >= 11 && |noise| >= 11
    ensures IsExperimentData(dataPoints, waves, noise)
    ensures (forall i :: 0 <= i < 11 ==> -1.0 <= waves[i] <= 1.0 && 0.0 <= noise[i] < 1.0) ==>
      forall i :: 0 <= i < 11 ==> -5.0 <= dataPoints[i].value < 105.0
  {
    dataPoints := [];
    for i := 0 to 11
      invariant |dataPoints| == i
      invariant forall j :: 0 <= j < i ==>
        dataPoints[j].time == j &&
        dataPoints[j].measurement == "Measurement " + NatToString(j + 1) &&
        dataPoints[j].value == waves[j] * 50.0 + 50.0 + (noise[j] - 0.5) * 10.0
    {
      dataPoints := dataPoints + [DataPoint(i, waves[i] * 50.0 + 50.0 + (noise[i] - 0.5) * 10.0,
                                            "Measurement " + NatToString(i + 1))];
    }
  }

  /** The number of polyline points for a progress value: `Math.floor(progress / 10) + 1`, none below 0. */
  function PointCount(progress: real): nat
  {
    var m := (progress / 10.0).Floor;
    if m < 0 then 0 else m + 1
  }

  /**
   * `generateDataPoints(progress)`: points `(i * 10, 100 - y)` for `i` in
   * `0..floor(progress / 10)`, with `y = 50 + sin(i * 0.5) * 30 + (random - 0.5) * 10`.
   */
  method GenerateDataPoints(progress: real, waves: seq<real>, noise: seq<real>) returns (points: seq<(real, real)>)
    requires PointCount(progress) <= |waves| && PointCount(progress) <= |noise|
    ensures |points| == PointCount(progress)
    ensures forall i :: 0 <= i < |points| ==>
      points[i].0 == i as real * 10.0 &&
      points[i].1 == 100.0 - (50.0 + waves[i] * 30.0 + (noise[i] - 0.5) * 10.0)
  {
    points := [];
    var maxPoints := (progress / 10.0).Floor;
    var i := 0;
    while i <= maxPoints
      invariant 0 <= i <= PointCount(progress)
      invariant maxPoints >= 0 ==> i <= maxPoints + 1
      invariant |points| == i
      invariant forall j :: 0 <= j < i ==>
        points[j].0 == j as real * 10.0 &&
        points[j].1 == 100.0 - (50.0 + waves[j] * 30.0 + (noise[j] - 0.5) * 10.0)
    {
      var x := (i as real / 10.0) * 100.0;
      var y := 50.0 + waves[i] * 30.0 + (noise[i] - 0.5) * 10.0;
      points := points + [(x, 100.0 - y)];
      i := i + 1;
    }
  }

  /** A progress of 0..100 plots 1..11 points, and 100 plots all 11. */
  lemma PointCountRange(progress: real)
    requires 0.0 <= progress <= 100.0
    ensures 1 <= PointCount(progress) <= 11
    ensures progress == 100.0 ==> PointCount(progress) == 11
  {
  }

  predicate NonNegativeDurations(experiments: seq<Experiment>)
  {
    forall i :: 0 <= i < |experiments| ==> experiments[i].duration >= 0.0
  }

  class Lab {
    const experiments: seq<Experiment>
    var currentExperiment: nat
    var isRunning: bool
    var progress: real
    var results: seq<ExperimentResult>
    var observations: string
    /** The `observations` value inside the running interval's closure (taken when it was created). */
    var observationsAtStart: string
    /** Every record handed to `onExperimentComplete`, in order. */
    var reported: seq<ExperimentResult>

    ghost predicate Valid()
      reads this
    {
      |experiments| > 0 && currentExperiment < |experiments| &&
      (NonNegativeDurations(experiments) ==> 0.0 <= progress <= 100.0)
    }

    function CurrentExperiment(): Experiment
      reads this
      requires Valid()
    {
      experiments[currentExperiment]
    }

    /** "Start" is clickable only while stopped and not finished. */
    function StartEnabled(): bool
      reads this
    {
      !isRunning && progress != 100.0
    }

    constructor (experiments: seq<Experiment>)
      requires |experiments| > 0
      ensures Valid() && this.experiments == experiments
      ensures currentExperiment == 0 && !isRunning && progress == 0.0
      ensures results == [] && observations == "" && reported == []
    {
      this.experiments := experiments;
      currentExperiment := 0;
      isRunning := false;
      progress := 0.0;
      results := [];
      observations := "";
      observationsAtStart := "";
      reported := [];
    }

    /** The Start button's handler; the button is disabled unless `StartEnabled()`. */
    method StartExperiment()
      requires Valid() && StartEnabled()
      modifies this`isRunning, this`progress, this`observationsAtStart
      ensures Valid() && isRunning && progress == 0.0
      ensures observationsAtStart == observations
    {
      observationsAtStart := observations;
      isRunning := true;
      progress := 0.0;
    }

    method PauseExperiment()
      requires Valid()
      modifies this`isRunning
      ensures Valid() && !isRunning
    {
      isRunning := false;
    }

    method ResetExperiment()
      requires Valid()
      modifies this`isRunning, this`progress, this`results, this`observations
      ensures Valid() && !isRunning && progress == 0.0 && results == [] && observations == ""
    {
      isRunning := false;
      progress := 0.0;
      results := [];
      observations := "";
    }

    /** An experiment tab: select it and reset everything. */
    method SelectExperiment(index: nat)
      requires Valid() && index < |experiments|
      modifies this`currentExperiment, this`isRunning, this`progress, this`results, this`observations
      ensures Valid() && currentExperiment == index
      ensures !isRunning && progress == 0.0 && results == [] && observations == ""
    {
      currentExperiment := index;
      ResetExperiment();
    }

    method SetObservations(text: string)
      modifies this`observations
      ensures observations == text
    {
      observations := text;
    }

    /** `completeExperiment`: appends one record and reports it. */
    method CompleteExperiment(now: int, accuracyDraw: real, insightDraw: real, waves: seq<real>, noise: seq<real>)
      returns (record: ExperimentResult)
      requires Valid() && 0.0 <= accuracyDraw < 1.0 && 0.0 <= insightDraw < 1.0
      requires |waves| >= 11 && |noise| >= 11
      modifies this`results, this`reported
      ensures results == old(results) + [record] && reported == old(reported) + [record]
      ensures record.experimentName == CurrentExperiment().name && record.timeCompleted == now
      ensures record.observations == observationsAtStart
      ensures IsExperimentData(record.dataPoints, waves, noise)
      ensures record.accuracy == Accuracy(accuracyDraw) && record.insight == InsightFor(insightDraw)
    {
      var data := GenerateExperimentData(waves, noise);
      record := ExperimentResult(CurrentExperiment().name, now, observationsAtStart, data,
                                 Accuracy(accuracyDraw), InsightFor(insightDraw));
      results := results + [record];
      reported := reported + [record];
    }

    /** One 100 ms interval tick; no interval exists while stopped. */
    method Tick(now: int, accuracyDraw: real, insightDraw: real, waves: seq<real>, noise: seq<real>)
      requires Valid() && 0.0 <= accuracyDraw < 1.0 && 0.0 <= insightDraw < 1.0
      requires |waves| >= 11 && |noise| >= 11
      modifies this`isRunning, this`progress, this`results, this`reported
      ensures Valid()
      ensures !old(isRunning) ==>
        (!isRunning && progress == old(progress) && results == old(results) && reported == old(reported))
      ensures old(isRunning) && TickStep(old(progress), CurrentExperiment().duration).Advance? ==>
        isRunning && progress == TickStep(old(progress), CurrentExperiment().duration).newProgress &&
        results == old(results) && reported == old(reported)
      ensures old(isRunning) && TickStep(old(progress), CurrentExperiment().duration).Finish? ==>
        !isRunning && progress == 100.0 && |results| == |old(results)| + 1 &&
        results[..|old(results)|] == old(results) && reported == old(reported) + [results[|results| - 1]]
      ensures old(isRunning) && TickStep(old(progress), CurrentExperiment().duration).Finish? ==>
        var record := results[|results| - 1];
        record.experimentName == CurrentExperiment().name && record.timeCompleted == now &&
        record.observations == observationsAtStart &&
        IsExperimentData(record.dataPoints, waves, noise) &&
        record.accuracy == Accuracy(accuracyDraw) && record.insight == InsightFor(insightDraw)
    {
      if isRunning {
        var d := CurrentExperiment().duration;
        match TickStep(progress, d)
        case Finish =>
          isRunning := false;
          var record := CompleteExperiment(now, accuracyDraw, insightDraw, waves, noise);
          progress := 100.0;
        case Advance(p) =>
          if NonNegativeDurations(experiments) {
            if d > 0.0 {
              TickStepBounded(progress, d);
            }
          }
          progress := p;
      }
    }
  }
}
