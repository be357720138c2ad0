/**
 * The progress dashboard (`src/components/ProgressDashboard.tsx`): statistics derived
 * from the store's lessons. The per-lesson bars read only each lesson's `completed`
 * flag; the store's `progress` map is not consulted.
 */
module ProgressDashboard {
  import opened LessonStore

  /** `lessons.filter(l => l.completed).length`. */
  function CompletedCount(lessons: seq<Lesson>): (n: nat)
    ensures n <= |lessons|
    ensures n == 0 <==> forall i :: 0 <= i < |lessons| ==> !lessons[i].completed
    ensures n == |lessons| <==> forall i :: 0 <= i < |lessons| ==> lessons[i].completed
    decreases |lessons|
  {
    if lessons == [] then 0
    else (if lessons[0].completed then 1 else 0) + CompletedCount(lessons[1..])
  }

  /** The positions of the completed lessons. */
  function CompletedIndices(lessons: seq<Lesson>): set<nat>
  {
    set i: nat | i < |lessons| && lessons[i].completed
  }

  lemma {:induction false} CompletedCountSnoc(lessons: seq<Lesson>, l: Lesson)
    ensures CompletedCount(lessons + [l]) == CompletedCount(lessons) + (if l.completed then 1 else 0)
    decreases |lessons|
  {
    if lessons == [] {
      assert (lessons + [l])[1..] == [];
    } else {
      assert (lessons + [l])[1..] == lessons[1..] + [l];
      CompletedCountSnoc(lessons[1..], l);
    }
  }

  /** The count is the number of positions holding a completed lesson. */
  lemma {:induction false} CompletedCountIsIndexCount(lessons: seq<Lesson>)
    ensures CompletedCount(lessons) == |CompletedIndices(lessons)|
    decreases |lessons|
  {
    if lessons != [] {
      var front := lessons[..|lessons| - 1];
      var last := lessons[|lessons| - 1];
      assert lessons == front + [last];
      CompletedCountSnoc(front, last);
      CompletedCountIsIndexCount(front);
      if last.completed {
        assert CompletedIndices(lessons) == CompletedIndices(front) + {|front|};
      } else {
        assert CompletedIndices(lessons) == CompletedIndices(front);
      }
    }
  }

  /** `totalLessons > 0 ? completed / total * 100 : 0`. */
  function CompletionRate(lessons: seq<Lesson>): (r: real)
    ensures 0.0 <= r <= 100.0
    ensures r == 0.0 <==> forall i :: 0 <= i < |lessons| ==> !lessons[i].completed
    ensures r == 100.0 <==> |lessons| > 0 && forall i :: 0 <= i < |lessons| ==> lessons[i].completed
    ensures |lessons| == 0 ==> r == 0.0
    ensures |lessons| > 0 ==> r == 100.0 * (|CompletedIndices(lessons)| as real) / (|lessons| as real)
  {
    if |lessons| > 0 then
      CompletedCountIsIndexCount(lessons);
      Percent(CompletedCount(lessons), |lessons|)
    else 0.0
  }

  /** `c / t * 100` for `c` of `t` items. */
  function Percent(c: nat, t: nat): (p: real)
    requires c <= t && t > 0
    ensures 0.0 <= p <= 100.0 && (p == 0.0 <==> c == 0) && (p == 100.0 <==> c == t)
    ensures p * (t as real) == 100.0 * (c as real)
    ensures p == 100.0 * (c as real) / (t as real)
  {
    var p := 100.0 * (c as real) / (t as real);
    PercentFacts(100.0 * (c as real), t as real, p);
    p
  }

  /** With `p == x / t` for a positive `t`: `p * t == x`, and `p` compares with `0` and `100` as `x` with `0` and `100 * t`. */
  lemma PercentFacts(x: real, t: real, p: real)
    requires t > 0.0 && p == x / t
    ensures p * t == x
    ensures p <= 100.0 <==> x <= 100.0 * t
    ensures p == 100.0 <==> x == 100.0 * t
    ensures p >= 0.0 <==> x >= 0.0
    ensures p == 0.0 <==> x == 0.0
  {
    assert p * t == x;
    assert x - 100.0 * t == (p - 100.0) * t;
    if p < 100.0 {
      assert (100.0 - p) * t > 0.0;
    } else if p > 100.0 {
      assert (p - 100.0) * t > 0.0;
    }
    if p < 0.0 {
      assert (0.0 - p) * t > 0.0;
    } else if p > 0.0 {
      assert p * t > 0.0;
    }
  }

  /** Fifteen minutes are credited per completed lesson. */
  function TotalTimeSpent(lessons: seq<Lesson>): (minutes: nat)
    ensures minutes <= 15 * |lessons|
    ensures minutes % 15 == 0
    ensures minutes == 15 * |CompletedIndices(lessons)|
  {
    CompletedCountIsIndexCount(lessons);
    CompletedCount(lessons) * 15
  }

  /** `lessons.slice(0, 5)`: the lessons the progress chart draws. */
  function ChartLessons(lessons: seq<Lesson>): (r: seq<Lesson>)
    ensures |r| <= 5 && |r| <= |lessons|
    ensures |lessons| >= 5 ==> |r| == 5
    ensures |lessons| < 5 ==> |r| == |lessons|
    ensures forall i :: 0 <= i < |r| ==> r[i] == lessons[i]
  {
    if |lessons| <= 5 then lessons else lessons[..5]
  }

  /** The label and width of a lesson's bar, in percent. */
  function BarPercent(l: Lesson): (p: nat)
    ensures p == 100 || p == 0
    ensures p == 100 <==> l.completed
  {
    if l.completed then 100 else 0
  }

  /**
   * Completing a lesson never lowers the completed count, and completing a present,
   * not yet completed lesson raises it.
   */
  lemma {:induction false} CompleteRaisesCount(lessons: seq<Lesson>, id: string)
    ensures CompletedCount(MarkCompleted(lessons, id)) >= CompletedCount(lessons)
    ensures (exists i :: 0 <= i < |lessons| && lessons[i].id == id && !lessons[i].completed) ==>
      CompletedCount(MarkCompleted(lessons, id)) > CompletedCount(lessons)
    decreases |lessons|
  {
    if lessons != [] {
      var m := MarkCompleted(lessons, id);
      assert m[1..] == MarkCompleted(lessons[1..], id);
      CompleteRaisesCount(lessons[1..], id);
      if exists i :: 0 <= i < |lessons| && lessons[i].id == id && !lessons[i].completed {
        var i :| 0 <= i < |lessons| && lessons[i].id == id && !lessons[i].completed;
        if i > 0 {
          assert lessons[1..][i - 1].id == id && !lessons[1..][i - 1].completed;
        }
      }
    }
  }
}
