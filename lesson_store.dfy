/**
 * The shared lesson store (`src/store/lessonStore.ts`): a list of lessons, the lesson
 * being viewed and a lesson-id to percentage map, with three actions. Every action
 * replaces some fields with values computed from the old state; `State()` is the
 * store's value and each action is specified by a pure function on it.
 */
module LessonStore {
  import opened Common

  datatype ContentKind = Video | TextContent | Interactive | Quiz

  /** One step of a lesson; its `data` payload is presentation only. */
  datatype ContentItem = ContentItem(kind: ContentKind)

  datatype Lesson = Lesson(
    id: string,
    title: string,
    subject: string,
    level: int,
    duration: int,
    description: string,
    content: seq<ContentItem>,
    completed: bool)

  datatype State = State(lessons: seq<Lesson>, currentLesson: Option<Lesson>, progress: map<string, real>)

  function DefaultLessons(): seq<Lesson>
  {
    [ Lesson("math-fractions-1", "Introduction to Fractions", "Mathematics", 3, 15,
             "Learn the basics of fractions with visual examples",
             [ContentItem(TextContent), ContentItem(Interactive)], false),
      Lesson("science-plants-1", "How Plants Grow", "Science", 2, 20,
             "Discover how plants grow from seeds to full plants",
             [ContentItem(TextContent)], false),
      Lesson("english-reading-1", "Reading Comprehension", "English", 4, 12,
             "Improve your reading skills with fun stories",
             [ContentItem(TextContent)], false) ]
  }

  function InitialState(): State
  {
    State(DefaultLessons(), None, map[])
  }

  /** The store starts with three lessons, none completed, no progress and no current lesson. */
  lemma InitialStateFacts()
    ensures |InitialState().lessons| == 3
    ensures forall l :: l in InitialState().lessons ==> !l.completed && |l.content| >= 1
    ensures InitialState().progress == map[] && InitialState().currentLesson == None
  {
  }

  predicate HasLesson(lessons: seq<Lesson>, id: string)
  {
    exists i :: 0 <= i < |lessons| && lessons[i].id == id
  }

  /** `lessons.map(l => l.id === id ? {...l, completed: true} : l)`. */
  function MarkCompleted(lessons: seq<Lesson>, id: string): (r: seq<Lesson>)
    ensures |r| == |lessons|
    ensures forall i :: 0 <= i < |lessons| && lessons[i].id == id ==> r[i] == lessons[i].(completed := true)
    ensures forall i :: 0 <= i < |lessons| && lessons[i].id != id ==> r[i] == lessons[i]
    decreases |lessons|
  {
    if lessons == [] then []
    else
      var head := if lessons[0].id == id then lessons[0].(completed := true) else lessons[0];
      [head] + MarkCompleted(lessons[1..], id)
  }

  function SetCurrent(s: State, lesson: Lesson): State
  {
    s.(currentLesson := Some(lesson))
  }

  function Complete(s: State, id: string): State
  {
    s.(lessons := MarkCompleted(s.lessons, id), progress := s.progress[id := 100.0])
  }

  function WithProgress(s: State, id: string, p: real): State
  {
    s.(progress := s.progress[id := p])
  }

  /** `setCurrentLesson` changes `currentLesson` and nothing else. */
  lemma SetCurrentFrame(s: State, lesson: Lesson)
    ensures SetCurrent(s, lesson).currentLesson == Some(lesson)
    ensures SetCurrent(s, lesson).lessons == s.lessons && SetCurrent(s, lesson).progress == s.progress
  {
  }

  /**
   * `completeLesson(id)`: the lessons keep their number and order, the lesson(s) with
   * that id become completed, the others are untouched, `progress[id]` becomes 100,
   * every other progress entry and the current lesson are kept.
   */
  lemma CompleteEffect(s: State, id: string)
    ensures var t := Complete(s, id);
      && |t.lessons| == |s.lessons|
      && (forall i :: 0 <= i < |s.lessons| ==> t.lessons[i].id == s.lessons[i].id)
      && (forall i :: 0 <= i < |s.lessons| ==>
            t.lessons[i].completed == (s.lessons[i].completed || s.lessons[i].id == id))
      && (forall i :: 0 <= i < |s.lessons| && s.lessons[i].id != id ==> t.lessons[i] == s.lessons[i])
      && t.progress.Keys == s.progress.Keys + {id} && t.progress[id] == 100.0
      && (forall k :: k in s.progress && k != id ==> t.progress[k] == s.progress[k])
      && t.currentLesson == s.currentLesson
  {
  }

  /** Completing a lesson twice is the same as completing it once. */
  lemma {:induction false} CompleteIdempotent(s: State, id: string)
    ensures Complete(Complete(s, id), id) == Complete(s, id)
  {
    var once := MarkCompleted(s.lessons, id);
    var twice := MarkCompleted(once, id);
    assert twice == once by {
      forall i | 0 <= i < |once| ensures twice[i] == once[i] {
      }
    }
  }

  /** An unknown id leaves the lessons as they are but still records progress 100 for it. */
  lemma {:induction false} CompleteUnknownId(s: State, id: string)
    requires !HasLesson(s.lessons, id)
    ensures Complete(s, id).lessons == s.lessons
    ensures Complete(s, id).progress == s.progress[id := 100.0]
  {
    var r := MarkCompleted(s.lessons, id);
    forall i | 0 <= i < |r| ensures r[i] == s.lessons[i] {
      assert s.lessons[i].id != id;
    }
  }

  /** `updateProgress(id, p)` writes `progress[id] = p` and touches nothing else. */
  lemma UpdateProgressFrame(s: State, id: string, p: real)
    ensures var t := WithProgress(s, id, p);
      && t.lessons == s.lessons && t.currentLesson == s.currentLesson
      && t.progress.Keys == s.progress.Keys + {id} && t.progress[id] == p
      && (forall k :: k in s.progress && k != id ==> t.progress[k] == s.progress[k])
  {
  }

  /** The zustand store instance: three fields replaced by the actions. */
  class Store {
    var lessons: seq<Lesson>
    var currentLesson: Option<Lesson>
    var progress: map<string, real>

    function StateOf(): State
      reads this
    {
      State(lessons, currentLesson, progress)
    }

    constructor ()
      ensures StateOf() == InitialState()
    {
      lessons := DefaultLessons();
      currentLesson := None;
      progress := map[];
    }

    method SetCurrentLesson(lesson: Lesson)
      modifies this
      ensures StateOf() == SetCurrent(old(StateOf()), lesson)
    {
      currentLesson := Some(lesson);
    }

    method CompleteLesson(id: string)
      modifies this
      ensures StateOf() == Complete(old(StateOf()), id)
    {
      lessons := MarkCompleted(lessons, id);
      progress := progress[id := 100.0];
    }

    method UpdateProgress(id: string, p: real)
      modifies this
      ensures StateOf() == WithProgress(old(StateOf()), id, p)
    {
      progress := progress[id := p];
    }
  }
}
