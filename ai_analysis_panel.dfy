/**
 * The analysis side panel (`src/components/AIAnalysisPanel.tsx`): threshold rules that
 * pick up to three insights, the learning-pace bar, the first three objectives with
 * their active marks, and the last five history entries. The panel reads per-step
 * `duration`/`difficulty`, `learningObjectives` and an analysis history that the
 * store's `Lesson` type does not carry; here they are parameters.
 */
module AIAnalysisPanel {
  import opened Common

  datatype InsightType = Positive | Suggestion | Tip

  datatype Insight = ExcellentEngagement | EngagementBoost | PacingSuggestion | AdvancedContent
  {
    function Type(): InsightType
    {
      match this
      case ExcellentEngagement => Positive
      case EngagementBoost => Suggestion
      case PacingSuggestion => Suggestion
      case AdvancedContent => Tip
    }

    function Title(): string
    {
      match this
      case ExcellentEngagement => "Excellent Engagement"
      case EngagementBoost => "Engagement Boost"
      case PacingSuggestion => "Pacing Suggestion"
      case AdvancedContent => "Advanced Content"
    }

    /** The rule that adds the insight: engagement first, then pacing, then difficulty. */
    function Rule(): nat
    {
      match this
      case ExcellentEngagement => 0
      case EngagementBoost => 0
      case PacingSuggestion => 1
      case AdvancedContent => 2
    }
  }

  /** What the panel reads of one lesson step; a missing field is `undefined` in the source. */
  datatype StepInfo = StepInfo(duration: Option<real>, difficulty: Option<string>)

  /**
   * `timeSpent > lesson.content[currentStep]?.duration * 60 * 1.5`: a missing step or a
   * missing duration makes the right side `NaN`, and the comparison false.
   */
  predicate PacingDue(steps: seq<StepInfo>, currentStep: int, timeSpent: real)
  {
    0 <= currentStep < |steps| && steps[currentStep].duration.Some? &&
    timeSpent > steps[currentStep].duration.value * 60.0 * 1.5
  }

  predicate AdvancedDue(steps: seq<StepInfo>, currentStep: int)
  {
    0 <= currentStep < |steps| && steps[currentStep].difficulty == Some("advanced")
  }

  /** `generateAIInsights`: pushes onto a local list rule by rule. */
  method GenerateInsights(steps: seq<StepInfo>, currentStep: int, engagement: real, timeSpent: real)
    returns (insights: seq<Insight>)
    ensures |insights| <= 3
    ensures (|insights| > 0 && insights[0] == ExcellentEngagement) <==> engagement > 85.0
    ensures ExcellentEngagement in insights <==> engagement > 85.0
    ensures EngagementBoost in insights <==> engagement < 70.0
    ensures PacingSuggestion in insights <==> PacingDue(steps, currentStep, timeSpent)
    ensures AdvancedContent in insights <==> AdvancedDue(steps, currentStep)
    ensures forall i, j :: 0 <= i < j < |insights| ==> insights[i].Rule() < insights[j].Rule()
  {
    insights := [];
    if engagement > 85.0 {
      insights := insights + [ExcellentEngagement];
    } else if engagement < 70.0 {
      insights := insights + [EngagementBoost];
    }
    if PacingDue(steps, currentStep, timeSpent) {
      insights := insights + [PacingSuggestion];
    }
    if AdvancedDue(steps, currentStep) {
      insights := insights + [AdvancedContent];
    }
  }

  lemma QuotientAtLeastOne(n: real, d: real)
    requires d > 0.0
    ensures n / d >= 1.0 <==> n >= d
  {
    var q := n / d;
    assert q * d == n;
    assert (q - 1.0) * d == n - d;
    if q >= 1.0 {
      assert (q - 1.0) * d >= 0.0;
    } else {
      assert (1.0 - q) * d > 0.0;
    }
  }

  /** `Math.min(100, (currentStep + 1) / lesson.content.length * 100)`; an empty lesson divides by zero and reads 100. */
  function PaceWidth(currentStep: nat, len: nat): (w: real)
    ensures 0.0 < w <= 100.0
    ensures w == 100.0 <==> currentStep + 1 >= len
    ensures len > 0 && currentStep + 1 < len ==> w == (currentStep + 1) as real / len as real * 100.0
  {
    if len == 0 then 100.0
    else
      var q := (currentStep + 1) as real / len as real;
      QuotientAtLeastOne((currentStep + 1) as real, len as real);
      if q * 100.0 < 100.0 then q * 100.0 else 100.0
  }

  datatype ObjectiveMark = ObjectiveMark(text: string, active: bool)

  /** `learningObjectives.slice(0, 3)`, objective `i` marked active when `i <= currentStep`. */
  function ObjectiveMarks(objectives: seq<string>, currentStep: nat): (r: seq<ObjectiveMark>)
    ensures |r| == if |objectives| < 3 then |objectives| else 3
    ensures forall i :: 0 <= i < |r| ==> r[i].text == objectives[i] && (r[i].active <==> i <= currentStep)
  {
    var shown := if |objectives| < 3 then objectives else objectives[..3];
    seq(|shown|, i requires 0 <= i < |shown| => ObjectiveMark(shown[i], i <= currentStep))
  }

  /** `analysisData.slice(-5)`: the last five entries, or all of them when there are fewer. */
  function LastFive<T>(history: seq<T>): (r: seq<T>)
    ensures |r| == if |history| < 5 then |history| else 5
    ensures r == history[|history| - |r|..]
  {
    if |history| < 5 then history else history[|history| - 5..]
  }

  /** `aiAnalysisHistory[lesson.id] || []`. */
  function AnalysisData<T>(history: map<string, seq<T>>, lessonId: string): (r: seq<T>)
    ensures lessonId in history ==> r == history[lessonId]
    ensures lessonId !in history ==> r == []
  {
    if lessonId in history then history[lessonId] else []
  }

  /** The history block is rendered only with at least one entry, and then shows at most five. */
  function HistoryShown<T>(history: map<string, seq<T>>, lessonId: string): (r: Option<seq<T>>)
    ensures r.Some? <==> |AnalysisData(history, lessonId)| > 0
    ensures r.Some? ==> 1 <= |r.value| <= 5 && r.value == LastFive(AnalysisData(history, lessonId))
  {
    var data := AnalysisData(history, lessonId);
    if |data| > 0 then Some(LastFive(data)) else None
  }
}
