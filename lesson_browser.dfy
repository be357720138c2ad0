/**
 * The lesson browser (`src/components/LessonBrowser.tsx`): the subject chips
 * (`'all'` and the distinct subjects in first-appearance order, as `new Set` keeps them),
 * the search/subject filter, and starting a lesson.
 */
module LessonBrowser {
  import opened Common
  import opened Text
  import opened LessonStore

  /** The position of the first occurrence of `x` in `xs`. */
  function FirstIndex<T(==)>(xs: seq<T>, x: T): (k: nat)
    requires x in xs
    ensures k < |xs| && xs[k] == x && forall j :: 0 <= j < k ==> xs[j] != x
    decreases |xs|
  {
    if xs[0] == x then 0 else 1 + FirstIndex(xs[1..], x)
  }

  /** `[...new Set(xs)]`: elements in the order they are first inserted, each kept once. */
  function Distinct<T(==)>(xs: seq<T>): (r: seq<T>)
    decreases |xs|
  {
    if xs == [] then []
    else
      var p := Distinct(xs[..|xs| - 1]);
      if xs[|xs| - 1] in p then p else p + [xs[|xs| - 1]]
  }

  /**
   * `Distinct` keeps exactly the elements of its input, each once, ordered by where each
   * first appears in the input.
   */
  lemma {:induction false} DistinctSpec<T>(xs: seq<T>)
    ensures forall x :: x in Distinct(xs) <==> x in xs
    ensures forall i, j :: 0 <= i < j < |Distinct(xs)| ==> Distinct(xs)[i] != Distinct(xs)[j]
    ensures forall i, j :: 0 <= i < j < |Distinct(xs)| ==>
      FirstIndex(xs, Distinct(xs)[i]) < FirstIndex(xs, Distinct(xs)[j])
    decreases |xs|
  {
    if xs != [] {
      var front := xs[..|xs| - 1];
      var y := xs[|xs| - 1];
      DistinctSpec(front);
      var p := Distinct(front);
      assert xs == front + [y];
      forall x | x in front ensures FirstIndex(xs, x) == FirstIndex(front, x) {
        FirstIndexPrefix(front, y, x);
      }
      if y !in front {
        assert FirstIndex(xs, y) == |xs| - 1;
      }
    }
  }

  lemma FirstIndexPrefix<T>(front: seq<T>, y: T, x: T)
    requires x in front
    ensures FirstIndex(front + [y], x) == FirstIndex(front, x)
  {
    var k := FirstIndex(front, x);
    var k' := FirstIndex(front + [y], x);
    assert (front + [y])[k] == x;
    assert k' <= k;
    assert front[k'] == (front + [y])[k'];
  }

  function SubjectsOf(lessons: seq<Lesson>): (r: seq<string>)
    ensures |r| == |lessons|
    ensures forall i :: 0 <= i < |lessons| ==> r[i] == lessons[i].subject
  {
    seq(|lessons|, i requires 0 <= i < |lessons| => lessons[i].subject)
  }

  /** `['all', ...new Set(lessons.map(l => l.subject))]`. */
  function Subjects(lessons: seq<Lesson>): seq<string>
  {
    ["all"] + Distinct(SubjectsOf(lessons))
  }

  /**
   * The chips are `'all'` followed by every lesson subject exactly once, in order of first
   * appearance among the lessons.
   */
  lemma SubjectsSpec(lessons: seq<Lesson>)
    ensures var r := Subjects(lessons);
      && |r| >= 1 && r[0] == "all"
      && (forall s :: s in r[1..] <==> exists l :: l in lessons && l.subject == s)
      && (forall i, j :: 1 <= i < j < |r| ==> r[i] != r[j])
      && (forall i, j :: 1 <= i < j < |r| ==>
            r[i] in SubjectsOf(lessons) && r[j] in SubjectsOf(lessons) &&
            FirstIndex(SubjectsOf(lessons), r[i]) < FirstIndex(SubjectsOf(lessons), r[j]))
  {
    var xs := SubjectsOf(lessons);
    DistinctSpec(xs);
    var r := Subjects(lessons);
    assert r[1..] == Distinct(xs);
    forall s ensures s in r[1..] <==> exists l :: l in lessons && l.subject == s {
      if s in xs {
        var i :| 0 <= i < |xs| && xs[i] == s;
        assert lessons[i] in lessons;
      }
    }
  }

  /** The filter's test for one lesson. */
  predicate Keeps(l: Lesson, searchTerm: string, selectedSubject: string)
  {
    var term := ToLower(searchTerm);
    (Contains(ToLower(l.title), term) || Contains(ToLower(l.description), term))
    && (selectedSubject == "all" || l.subject == selectedSubject)
  }

  /** `lessons.filter(...)`. */
  function Filter(lessons: seq<Lesson>, searchTerm: string, selectedSubject: string): (r: seq<Lesson>)
    ensures |r| <= |lessons|
    ensures forall l :: l in r <==> l in lessons && Keeps(l, searchTerm, selectedSubject)
    ensures forall l :: multiset(r)[l] == if Keeps(l, searchTerm, selectedSubject) then multiset(lessons)[l] else 0
    decreases |lessons|
  {
    if lessons == [] then []
    else
      var rest := Filter(lessons[1..], searchTerm, selectedSubject);
      assert lessons == [lessons[0]] + lessons[1..];
      if Keeps(lessons[0], searchTerm, selectedSubject) then [lessons[0]] + rest else rest
  }

  /** `a` is `b` with some elements dropped and the rest in their original order. */
  predicate IsSublist<T(==)>(a: seq<T>, b: seq<T>)
    decreases |b|
  {
    if a == [] then true
    else if b == [] then false
    else (a[0] == b[0] && IsSublist(a[1..], b[1..])) || IsSublist(a, b[1..])
  }

  lemma {:induction false} SublistOfTail<T>(a: seq<T>, b: seq<T>)
    requires b != [] && IsSublist(a, b[1..])
    ensures IsSublist(a, b)
  {
  }

  /** The filtered list is an order-preserving sublist of the lessons. */
  lemma {:induction false} FilterIsSublist(lessons: seq<Lesson>, searchTerm: string, selectedSubject: string)
    ensures IsSublist(Filter(lessons, searchTerm, selectedSubject), lessons)
    decreases |lessons|
  {
    if lessons != [] {
      FilterIsSublist(lessons[1..], searchTerm, selectedSubject);
      var rest := Filter(lessons[1..], searchTerm, selectedSubject);
      if Keeps(lessons[0], searchTerm, selectedSubject) {
        assert ([lessons[0]] + rest)[1..] == rest;
      } else if rest != [] {
        SublistOfTail(rest, lessons);
      }
    }
  }

  lemma {:induction false} EmptyTermMatches(s: string)
    ensures Contains(ToLower(s), "")
  {
    ContainsAt(ToLower(s), "", 0);
  }

  /** An empty search with `'all'` selected keeps every lesson, in order. */
  lemma {:induction false} EmptySearchKeepsAll(lessons: seq<Lesson>)
    ensures Filter(lessons, "", "all") == lessons
    decreases |lessons|
  {
    if lessons != [] {
      EmptyTermMatches(lessons[0].title);
      assert ToLower("") == "";
      EmptySearchKeepsAll(lessons[1..]);
      assert [lessons[0]] + lessons[1..] == lessons;
    }
  }

  /** "No lessons found" is shown iff the filter rejects every lesson. */
  function NoLessonsFound(lessons: seq<Lesson>, searchTerm: string, selectedSubject: string): (b: bool)
    ensures b <==> forall l :: l in lessons ==> !Keeps(l, searchTerm, selectedSubject)
  {
    var r := Filter(lessons, searchTerm, selectedSubject);
    assert r != [] ==> r[0] in r;
    |r| == 0
  }

  /** The component's local state, next to the shared store. */
  class Browser {
    const store: Store
    var searchTerm: string
    var selectedSubject: string
    var selectedLesson: Option<Lesson>

    constructor (store: Store)
      ensures this.store == store
      ensures searchTerm == "" && selectedSubject == "all" && selectedLesson == None
    {
      this.store := store;
      searchTerm := "";
      selectedSubject := "all";
      selectedLesson := None;
    }

    method SetSearchTerm(term: string)
      modifies this`searchTerm
      ensures searchTerm == term
    {
      searchTerm := term;
    }

    method SetSelectedSubject(subject: string)
      modifies this`selectedSubject
      ensures selectedSubject == subject
    {
      selectedSubject := subject;
    }

    /** `handleStartLesson`: the store's current lesson and the opened player get the same lesson. */
    method HandleStartLesson(lesson: Lesson)
      modifies store, this`selectedLesson
      ensures store.StateOf() == SetCurrent(old(store.StateOf()), lesson)
      ensures selectedLesson == Some(lesson) && store.currentLesson == selectedLesson
    {
      store.SetCurrentLesson(lesson);
      selectedLesson := Some(lesson);
    }
  }
}
