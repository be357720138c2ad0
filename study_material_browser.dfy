/**
 * The study-material browser (`src/components/StudyMaterialBrowser.tsx`): four
 * selection fields set and cleared by click handlers, over fixed board, class,
 * subject and chapter tables.
 */
module StudyMaterialBrowser {
  import opened Text

  function Boards(): seq<string>
  {
    ["CBSE", "ICSE", "State Board", "IB", "Cambridge"]
  }

  /** `Class 1` .. `Class 12`, built from the index. */
  function Classes(): (cs: seq<string>)
    ensures |cs| == 12
  {
    seq(12, i requires 0 <= i < 12 => "Class " + NatToString(i + 1))
  }

  function SubjectTable(): map<string, seq<string>>
  {
    map[
      "Class 1" := ["English", "Mathematics", "EVS", "Hindi"],
      "Class 2" := ["English", "Mathematics", "EVS", "Hindi"],
      "Class 3" := ["English", "Mathematics", "EVS", "Hindi", "Science"],
      "Class 4" := ["English", "Mathematics", "Science", "Social Science", "Hindi"],
      "Class 5" := ["English", "Mathematics", "Science", "Social Science", "Hindi"],
      "Class 6" := ["English", "Mathematics", "Science", "Social Science", "Hindi", "Sanskrit"],
      "Class 7" := ["English", "Mathematics", "Science", "Social Science", "Hindi", "Sanskrit"],
      "Class 8" := ["English", "Mathematics", "Science", "Social Science", "Hindi", "Sanskrit"],
      "Class 9" := ["English", "Mathematics", "Science", "Social Science", "Hindi", "Sanskrit", "Computer Science"],
      "Class 10" := ["English", "Mathematics", "Science", "Social Science", "Hindi", "Sanskrit", "Computer Science"],
      "Class 11" := ["English", "Physics", "Chemistry", "Mathematics", "Biology", "Computer Science",
                     "Accountancy", "Business Studies", "Economics"],
      "Class 12" := ["English", "Physics", "Chemistry", "Mathematics", "Biology", "Computer Science",
                     "Accountancy", "Business Studies", "Economics"]
    ]
  }

  function ChapterTable(): map<string, seq<string>>
  {
    map[
      "Mathematics" := ["Number Systems", "Algebra", "Coordinate Geometry", "Geometry", "Trigonometry",
                        "Mensuration", "Statistics", "Probability"],
      "Science" := ["Matter", "Periodic Classification", "Chemical Reactions", "Motion",
                    "Force and Laws of Motion", "Gravitation", "Work and Energy", "Living Organisms"],
      "Physics" := ["Physical World", "Units and Measurement", "Motion in Straight Line", "Motion in Plane",
                    "Laws of Motion", "Work, Energy and Power", "System of Particles"],
      "Chemistry" := ["Some Basic Concepts", "Structure of Atom", "Classification of Elements",
                      "Chemical Bonding", "States of Matter", "Thermodynamics", "Equilibrium"],
      "Biology" := ["The Living World", "Biological Classification", "Plant Kingdom", "Animal Kingdom",
                    "Morphology", "Anatomy", "Cell Structure"],
      "English" := ["Reading Comprehension", "Writing Skills", "Grammar", "Literature", "Poetry", "Prose", "Drama"]
    ]
  }

  /** The subject column: empty without a class (the empty string is falsy), else the table entry or empty. */
  function AvailableSubjects(selectedClass: string): (r: seq<string>)
    ensures selectedClass == "" ==> r == []
    ensures selectedClass != "" && selectedClass in SubjectTable() ==> r == SubjectTable()[selectedClass]
    ensures selectedClass !in SubjectTable() ==> r == []
  {
    if selectedClass == "" then []
    else if selectedClass in SubjectTable() then SubjectTable()[selectedClass]
    else []
  }

  /** The chapter column: empty without a subject, else the table entry or empty. */
  function AvailableChapters(selectedSubject: string): (r: seq<string>)
    ensures selectedSubject == "" ==> r == []
    ensures selectedSubject != "" && selectedSubject in ChapterTable() ==> r == ChapterTable()[selectedSubject]
    ensures selectedSubject !in ChapterTable() ==> r == []
  {
    if selectedSubject == "" then []
    else if selectedSubject in ChapterTable() then ChapterTable()[selectedSubject]
    else []
  }

  /** The class labels are exactly `Class 1` .. `Class 12`, and every one has a subject list. */
  lemma ClassesSpec()
    ensures Classes() == ["Class 1", "Class 2", "Class 3", "Class 4", "Class 5", "Class 6",
                          "Class 7", "Class 8", "Class 9", "Class 10", "Class 11", "Class 12"]
    ensures forall c :: c in Classes() ==> c in SubjectTable() && |AvailableSubjects(c)| >= 4
  {
    var cs := Classes();
    assert cs[0] == "Class 1" && cs[1] == "Class 2" && cs[2] == "Class 3";
    assert cs[3] == "Class 4" && cs[4] == "Class 5" && cs[5] == "Class 6";
    assert cs[6] == "Class 7" && cs[7] == "Class 8" && cs[8] == "Class 9";
    assert NatToString(10) == "10" && NatToString(11) == "11" && NatToString(12) == "12";
    assert cs[9] == "Class 10" && cs[10] == "Class 11" && cs[11] == "Class 12";
  }

  /** Subjects listed for some class but missing from the chapter table show no chapters. */
  lemma SubjectsWithoutChapters()
    ensures AvailableChapters("Hindi") == [] && AvailableChapters("EVS") == []
    ensures AvailableChapters("Social Science") == [] && AvailableChapters("Computer Science") == []
    ensures "Hindi" in AvailableSubjects("Class 1")
  {
  }

  /**
   * The four selections a browser can hold: each column is shown only once the one before
   * it has a choice, and a choice can only come from the buttons on screen; no handler ever
   * sets a chapter.
   */
  predicate Selection(board: string, cls: string, subject: string, chapter: string)
  {
    chapter == "" &&
    (board == "" || board in Boards()) &&
    (cls != "" ==> board != "" && cls in Classes()) &&
    (subject != "" ==> cls != "" && subject in AvailableSubjects(cls))
  }

  /**
   * The columns nest: a chosen subject comes with a chosen class and board, and is one of
   * that class's table subjects; a chosen class has a table entry of at least four subjects.
   */
  lemma {:induction false} SelectionsNest(board: string, cls: string, subject: string, chapter: string)
    requires Selection(board, cls, subject, chapter)
    ensures subject != "" ==> cls != "" && board != "" && board in Boards() && cls in SubjectTable() &&
                              subject in SubjectTable()[cls]
    ensures cls != "" ==> board in Boards() && cls in SubjectTable() && |SubjectTable()[cls]| >= 4
  {
    if cls != "" {
      ClassesSpec();
      assert cls in SubjectTable();
    }
  }

  class Browser {
    var selectedBoard: string
    var selectedClass: string
    var selectedSubject: string
    var selectedChapter: string

    predicate Valid()
      reads this
    {
      Selection(selectedBoard, selectedClass, selectedSubject, selectedChapter)
    }

    function ClassColumnShown(): bool
      reads this
    {
      selectedBoard != ""
    }

    function SubjectColumnShown(): bool
      reads this
    {
      selectedClass != ""
    }

    function ChapterColumnShown(): bool
      reads this
    {
      selectedSubject != ""
    }

    constructor ()
      ensures Valid()
      ensures selectedBoard == "" && selectedClass == "" && selectedSubject == "" && selectedChapter == ""
    {
      selectedBoard := "";
      selectedClass := "";
      selectedSubject := "";
      selectedChapter := "";
    }

    method ChooseBoard(board: string)
      requires Valid() && board in Boards()
      modifies this
      ensures Valid()
      ensures selectedBoard == board && selectedClass == "" && selectedSubject == "" && selectedChapter == ""
    {
      selectedBoard := board;
      selectedClass := "";
      selectedSubject := "";
      selectedChapter := "";
    }

    method ChooseClass(cls: string)
      requires Valid() && ClassColumnShown() && cls in Classes()
      modifies this
      ensures Valid()
      ensures selectedBoard == old(selectedBoard) && selectedClass == cls
      ensures selectedSubject == "" && selectedChapter == ""
    {
      selectedClass := cls;
      selectedSubject := "";
      selectedChapter := "";
    }

    method ChooseSubject(subject: string)
      requires Valid() && SubjectColumnShown() && subject in AvailableSubjects(selectedClass)
      modifies this
      ensures Valid()
      ensures selectedBoard == old(selectedBoard) && selectedClass == old(selectedClass)
      ensures selectedSubject == subject && selectedChapter == ""
    {
      selectedSubject := subject;
      selectedChapter := "";
    }
  }
}
