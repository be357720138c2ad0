/**
 * The lesson player (`src/components/LessonPlayer.tsx`): a step cursor over a lesson's
 * content. The effect that runs after every step change (and on mount) sets the local
 * `progress` to `(currentStep + 1) / len * 100` and pushes the same value into the store;
 * "Next" on the last step completes the lesson instead of moving.
 */
module LessonPlayer {
  import opened LessonStore

  /** `((currentStep + 1) / lesson.content.length) * 100`. */
  function StepPercent(step: nat, len: nat): real
    requires len > 0
  {
    (step + 1) as real / len as real * 100.0
  }

  /** Every in-range step gives a percentage in (0, 100]. */
  lemma StepPercentRange(step: nat, len: nat)
    requires step < len
    ensures 0.0 < StepPercent(step, len) <= 100.0
  {
    var q := (step + 1) as real / len as real;
    assert q <= 1.0 by {
      assert (step + 1) as real <= len as real;
    }
  }

  /** The percentage is 100 exactly on the last step, which is when the completion overlay shows. */
  lemma StepPercentIs100Iff(step: nat, len: nat)
    requires step < len
    ensures StepPercent(step, len) == 100.0 <==> step == len - 1
  {
    var q := (step + 1) as real / len as real;
    assert q * len as real == (step + 1) as real;
    if step == len - 1 {
      assert q == 1.0;
    } else {
      assert (step + 1) as real < len as real;
      assert q < 1.0;
    }
  }

  /** Moving one step forward strictly increases the percentage. */
  lemma StepPercentMonotone(step: nat, len: nat)
    requires step + 1 < len
    ensures StepPercent(step, len) < StepPercent(step + 1, len)
  {
    var n := len as real;
    assert (step + 1) as real / n < (step + 2) as real / n;
  }

  class Player {
    const lesson: Lesson
    const store: Store
    var currentStep: nat
    var progress: real

    /** The cursor is a valid step and `progress` is the percentage of that step. */
    ghost predicate Valid()
      reads this
    {
      |lesson.content| > 0 && currentStep < |lesson.content| &&
      progress == StepPercent(currentStep, |lesson.content|)
    }

    /** The store holds the same percentage for this lesson as the player shows. */
    ghost predicate InSync()
      reads this, store
    {
      lesson.id in store.progress && store.progress[lesson.id] == progress
    }

    function IsLastStep(): (b: bool)
      reads this
      requires Valid()
      ensures b <==> progress == 100.0
    {
      StepPercentIs100Iff(currentStep, |lesson.content|);
      currentStep == |lesson.content| - 1
    }

    /** Mount: step 0, then the progress effect runs once. */
    constructor (lesson: Lesson, store: Store)
      requires |lesson.content| > 0
      modifies store
      ensures this.lesson == lesson && this.store == store
      ensures currentStep == 0 && Valid() && InSync()
      ensures store.StateOf() == WithProgress(old(store.StateOf()), lesson.id, progress)
    {
      this.lesson := lesson;
      this.store := store;
      currentStep := 0;
      new;
      SyncProgress();
    }

    /** The `useEffect` body on `[currentStep, ...]`. */
    method SyncProgress()
      requires currentStep < |lesson.content|
      modifies this`progress, store
      ensures Valid() && InSync()
      ensures store.StateOf() == WithProgress(old(store.StateOf()), lesson.id, progress)
    {
      var p := StepPercent(currentStep, |lesson.content|);
      progress := p;
      store.UpdateProgress(lesson.id, p);
    }

    method HandleNext()
      requires Valid() && InSync()
      modifies this, store
      ensures Valid() && InSync()
      ensures old(currentStep) < |lesson.content| - 1 ==>
        currentStep == old(currentStep) + 1 &&
        store.StateOf() == WithProgress(old(store.StateOf()), lesson.id, progress)
      ensures old(currentStep) == |lesson.content| - 1 ==>
        currentStep == old(currentStep) && progress == old(progress) &&
        store.StateOf() == Complete(old(store.StateOf()), lesson.id)
    {
      if currentStep < |lesson.content| - 1 {
        currentStep := currentStep + 1;
        SyncProgress();
      } else {
        store.CompleteLesson(lesson.id);
        StepPercentIs100Iff(currentStep, |lesson.content|);
      }
    }

    method HandlePrevious()
      requires Valid() && InSync()
      modifies this, store
      ensures Valid() && InSync()
      ensures old(currentStep) > 0 ==>
        currentStep == old(currentStep) - 1 &&
        store.StateOf() == WithProgress(old(store.StateOf()), lesson.id, progress)
      ensures old(currentStep) == 0 ==>
        currentStep == 0 && progress == old(progress) && store.StateOf() == old(store.StateOf())
    {
      if currentStep > 0 {
        currentStep := currentStep - 1;
        SyncProgress();
      }
    }
  }

  /**
   * Stepping back after completing leaves the lesson marked completed while its stored
   * progress drops below 100: the two store fields can disagree.
   */
  lemma {:induction false} BackAfterCompleteKeepsCompleted(s: State, lesson: Lesson, i: nat)
    requires |lesson.content| >= 2 && i < |s.lessons| && s.lessons[i].id == lesson.id
    ensures var t := WithProgress(Complete(s, lesson.id), lesson.id,
                                   StepPercent(|lesson.content| - 2, |lesson.content|));
      t.lessons[i].completed && t.progress[lesson.id] < 100.0
  {
    StepPercentIs100Iff(|lesson.content| - 2, |lesson.content|);
    StepPercentRange(|lesson.content| - 2, |lesson.content|);
  }
}
