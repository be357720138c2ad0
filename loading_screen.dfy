/**
 * The start-up loading screen (`src/components/LoadingScreen.tsx`): every interval tick
 * raises the progress by a random 5..20 points, caps it at 100, and picks the status
 * line from the uncapped value. Each `Math.random()` draw is a parameter.
 */
module LoadingScreen {

  function Tasks(): seq<string>
  {
    ["Initializing...", "Loading AI models...", "Checking offline content...",
     "Preparing user interface...", "Almost ready..."]
  }

  predicate ValidDraw(r: real)
  {
    0.0 <= r < 1.0
  }

  /** `prev + Math.random() * 15 + 5`, before the cap. */
  function Raised(prev: real, r: real): real
  {
    prev + r * 15.0 + 5.0
  }

  /** `Math.min(Math.floor(newProgress / 20), tasks.length - 1)`. */
  function TaskIndex(newProgress: real): (k: int)
    requires newProgress >= 0.0
    ensures 0 <= k < |Tasks()|
    ensures newProgress >= 80.0 <==> k == |Tasks()| - 1
    ensures k < |Tasks()| - 1 ==> k as real * 20.0 <= newProgress < (k + 1) as real * 20.0
  {
    var f := (newProgress / 20.0).Floor;
    if f < |Tasks()| - 1 then f else |Tasks()| - 1
  }

  /** The stored progress after one tick: `Math.min(newProgress, 100)`. */
  function Step(prev: real, r: real): (p: real)
    requires 0.0 <= prev <= 100.0 && ValidDraw(r)
    ensures prev <= p <= 100.0
    ensures p == 100.0 || p >= prev + 5.0
  {
    var next := Raised(prev, r);
    if next < 100.0 then next else 100.0
  }

  /** The progress after a run of ticks with the given draws. */
  function ProgressAfter(p: real, draws: seq<real>): real
    requires 0.0 <= p <= 100.0 && forall i :: 0 <= i < |draws| ==> ValidDraw(draws[i])
    decreases |draws|
  {
    if draws == [] then p else ProgressAfter(Step(p, draws[0]), draws[1..])
  }

  /** Every tick adds at least 5 points until the cap: `k` ticks give at least `min(p + 5k, 100)`. */
  lemma {:induction false} ProgressAfterBounds(p: real, draws: seq<real>)
    requires 0.0 <= p <= 100.0 && forall i :: 0 <= i < |draws| ==> ValidDraw(draws[i])
    ensures p <= ProgressAfter(p, draws) <= 100.0
    ensures ProgressAfter(p, draws) == 100.0 || ProgressAfter(p, draws) >= p + 5.0 * |draws| as real
    decreases |draws|
  {
    if draws != [] {
      var q := Step(p, draws[0]);
      ProgressAfterBounds(q, draws[1..]);
    }
  }

  /** Twenty ticks from 0 always finish the bar. */
  lemma TwentyTicksFinish(draws: seq<real>)
    requires |draws| >= 20 && forall i :: 0 <= i < |draws| ==> ValidDraw(draws[i])
    ensures ProgressAfter(0.0, draws) == 100.0
  {
    ProgressAfterBounds(0.0, draws);
  }

  class Screen {
    var progress: real
    var currentTask: string

    predicate Valid()
      reads this
    {
      0.0 <= progress <= 100.0 && currentTask in Tasks()
    }

    constructor ()
      ensures Valid() && progress == 0.0 && currentTask == "Initializing..."
    {
      progress := 0.0;
      currentTask := "Initializing...";
    }

    /** One 300 ms interval tick with random draw `r`. */
    method Tick(r: real)
      requires Valid() && ValidDraw(r)
      modifies this
      ensures Valid()
      ensures progress == Step(old(progress), r) && old(progress) <= progress
      ensures currentTask == Tasks()[TaskIndex(Raised(old(progress), r))]
      ensures Raised(old(progress), r) >= 80.0 ==> currentTask == "Almost ready..."
    {
      var newProgress := progress + r * 15.0 + 5.0;
      var taskIndex := TaskIndex(newProgress);
      currentTask := Tasks()[taskIndex];
      progress := if newProgress < 100.0 then newProgress else 100.0;
    }
  }
}
