/** The academic calculators page: the CGPA calculator over a list of courses and
    the internal-marks calculator over a list of subjects.

    Both lists live in page state and are replaced by the handlers; the class
    `CalculatorPage` holds them in fields. Row ids are `length + 1` at the time
    of the addition, so after a removal two rows can share an id; the model keeps
    that behaviour and proves what it leads to. */
module Calculator {
  import opened Optional
  import opened Seqs

  datatype Grade = APlus | A | AMinus | BPlus | B | BMinus | CPlus | C | CMinus | D | F

  /** `Object.keys(gradePoints)`: the options of every grade select, best first. */
  const AllGrades: seq<Grade> := [APlus, A, AMinus, BPlus, B, BMinus, CPlus, C, CMinus, D, F]

  /** The `gradePoints` table. */
  function Points(g: Grade): nat
  {
    match g
    case APlus => 10
    case A => 9
    case AMinus => 8
    case BPlus => 7
    case B => 6
    case BMinus => 5
    case CPlus => 4
    case C => 3
    case CMinus => 2
    case D => 1
    case F => 0
  }

  function Label(g: Grade): string
  {
    match g
    case APlus => "A+"
    case A => "A"
    case AMinus => "A-"
    case BPlus => "B+"
    case B => "B"
    case BMinus => "B-"
    case CPlus => "C+"
    case C => "C"
    case CMinus => "C-"
    case D => "D"
    case F => "F"
  }

  /** The table read backwards: the grade worth `p` points. */
  function GradeWithPoints(p: nat): Grade
    requires p <= 10
  {
    AllGrades[10 - p]
  }

  /** The table lists eleven grades from 10 points down to 0, one point apart, so
      every grade is worth between 0 and 10 points and no two grades share a value. */
  lemma GradeTable(g: Grade)
    ensures |AllGrades| == 11
    ensures forall i :: 0 <= i < |AllGrades| ==> Points(AllGrades[i]) == 10 - i
    ensures 0 <= Points(g) <= 10 && GradeWithPoints(Points(g)) == g
  {
  }

  // ---------------------------------------------------------------- CGPA

  datatype Course = Course(id: int, name: string, credits: int, grade: Grade)

  /** The "new course" form; `credits` is whatever `parseInt(...) || 0` produced. */
  datatype CourseForm = CourseForm(name: string, credits: int, grade: Grade)

  const EmptyCourseForm := CourseForm("", 3, A)

  const InitialCourses: seq<Course> := [
    Course(1, "Course 1", 4, A),
    Course(2, "Course 2", 3, BPlus),
    Course(3, "Course 3", 3, AMinus),
    Course(4, "Course 4", 4, B)
  ]

  function CourseId(c: Course): int { c.id }

  /** Sum of the credits of `cs`, added up front to back. */
  function TotalCredits(cs: seq<Course>): int
  {
    if cs == [] then 0 else TotalCredits(cs[..|cs| - 1]) + cs[|cs| - 1].credits
  }

  /** Sum of credits times grade points, added up front to back. */
  function TotalGradePoints(cs: seq<Course>): int
  {
    if cs == [] then 0
    else TotalGradePoints(cs[..|cs| - 1]) + cs[|cs| - 1].credits * Points(cs[|cs| - 1].grade)
  }

  /** The `forEach` loop of `calculateCGPA`. */
  method CalculateTotals(courses: seq<Course>) returns (totalCredits: int, totalGradePoints: int)
    ensures totalCredits == TotalCredits(courses)
    ensures totalGradePoints == TotalGradePoints(courses)
  {
    totalCredits, totalGradePoints := 0, 0;
    var i := 0;
    while i < |courses|
      invariant 0 <= i <= |courses|
      invariant totalCredits == TotalCredits(courses[..i])
      invariant totalGradePoints == TotalGradePoints(courses[..i])
    {
      var course := courses[i];
      assert courses[..i + 1][..i] == courses[..i];
      totalCredits := totalCredits + course.credits;
      totalGradePoints := totalGradePoints + course.credits * Points(course.grade);
      i := i + 1;
    }
    assert courses[..i] == courses;
  }

  /** With no negative credits the weighted total lies between 0 and ten times the
      credit total: the quotient, when defined, is a CGPA between 0 and 10. */
  lemma {:induction false} GradePointsBounded(cs: seq<Course>)
    requires forall i :: 0 <= i < |cs| ==> cs[i].credits >= 0
    ensures 0 <= TotalCredits(cs)
    ensures 0 <= TotalGradePoints(cs) <= 10 * TotalCredits(cs)
  {
    if cs != [] {
      var c := cs[|cs| - 1];
      GradePointsBounded(cs[..|cs| - 1]);
      assert 0 <= c.credits * Points(c.grade) <= c.credits * 10;
    }
  }

  /** With at least one course and positive credits the credit total is positive. */
  lemma {:induction false} CreditsPositive(cs: seq<Course>)
    requires |cs| > 0 && forall i :: 0 <= i < |cs| ==> cs[i].credits > 0
    ensures TotalCredits(cs) > 0
  {
    if |cs| > 1 {
      CreditsPositive(cs[..|cs| - 1]);
    } else {
      assert cs[..0] == [];
    }
  }

  /** The value `parseFloat(x.toFixed(2))` gives for `x = totalGradePoints / totalCredits`,
      computed on the exact quotient. A zero credit total gives NaN (0 / 0) or an
      infinity. */
  datatype CgpaValue = Finite(hundredths: int) | NotANumber | PosInfinity | NegInfinity

  function Abs(x: int): nat { if x < 0 then -x else x }

  /** `toFixed(2)` of `num / den`: the magnitude rounded to the nearest hundredth,
      halves rounded up, then the sign put back. */
  function RoundHundredths(num: int, den: int): (r: int)
    requires den != 0
    ensures var a, b := Abs(num), Abs(den);
            2 * b * Abs(r) - b <= 200 * a < 2 * b * Abs(r) + b
    ensures r != 0 ==> ((r < 0) <==> ((num < 0) != (den < 0)))
  {
    var a, b := Abs(num), Abs(den);
    var m := (200 * a + b) / (2 * b);
    DivBounds(200 * a + b, 2 * b);
    if (num < 0) != (den < 0) then -m else m
  }

  lemma DivBounds(x: int, d: int)
    requires x >= 0 && d > 0
    ensures x / d >= 0 && d * (x / d) <= x < d * (x / d) + d
  {
  }

  function CgpaOf(totalGradePoints: int, totalCredits: int): CgpaValue
  {
    if totalCredits == 0 then
      if totalGradePoints == 0 then NotANumber
      else if totalGradePoints > 0 then PosInfinity
      else NegInfinity
    else
      Finite(RoundHundredths(totalGradePoints, totalCredits))
  }

  /** A non-empty list with positive credits has a CGPA between 0.00 and 10.00. */
  lemma CgpaInRange(cs: seq<Course>)
    requires |cs| > 0 && forall i :: 0 <= i < |cs| ==> cs[i].credits > 0
    ensures CgpaOf(TotalGradePoints(cs), TotalCredits(cs)).Finite?
    ensures 0 <= CgpaOf(TotalGradePoints(cs), TotalCredits(cs)).hundredths <= 1000
  {
    CreditsPositive(cs);
    GradePointsBounded(cs);
    var tgp, tc := TotalGradePoints(cs), TotalCredits(cs);
    var h := RoundHundredths(tgp, tc);
    assert 2 * tc * h - tc <= 200 * tgp;
    if h > 1000 {
      MulMono(1001, h, 2 * tc);
      assert false;
    }
  }

  lemma MulMono(x: int, y: int, c: int)
    requires x <= y && c >= 0
    ensures c * x <= c * y
  {
  }

  /** An empty course list divides zero by zero. */
  lemma EmptyCgpaIsNaN()
    ensures CgpaOf(TotalGradePoints([]), TotalCredits([])) == NotANumber
  {
  }

  datatype Band = Outstanding | Excellent | VeryGood | Good | Average | NeedsImprovement

  /** The result card's ternary chain, thresholds checked from the top down. */
  function BandOf(cgpa: CgpaValue): Band
  {
    match cgpa
    case Finite(h) =>
      if h >= 900 then Outstanding
      else if h >= 800 then Excellent
      else if h >= 700 then VeryGood
      else if h >= 600 then Good
      else if h >= 500 then Average
      else NeedsImprovement
    case PosInfinity => Outstanding
    case _ => NeedsImprovement
  }

  function Rank(b: Band): nat
  {
    match b
    case Outstanding => 5
    case Excellent => 4
    case VeryGood => 3
    case Good => 2
    case Average => 1
    case NeedsImprovement => 0
  }

  /** A CGPA of `h` hundredths reaches band `b`: at least `b`'s threshold. */
  predicate Reached(b: Band, h: int)
  {
    match b
    case Outstanding => h >= 900
    case Excellent => h >= 800
    case VeryGood => h >= 700
    case Good => h >= 600
    case Average => h >= 500
    case NeedsImprovement => true
  }

  /** The band shown is the highest band whose threshold the CGPA reaches. */
  lemma BandIsHighestReached(h: int, b: Band)
    ensures Reached(BandOf(Finite(h)), h)
    ensures Rank(b) > Rank(BandOf(Finite(h))) ==> !Reached(b, h)
  {
  }

  /** A higher CGPA never shows a lower band. */
  lemma BandMonotone(h1: int, h2: int)
    requires h1 <= h2
    ensures Rank(BandOf(Finite(h1))) <= Rank(BandOf(Finite(h2)))
  {
  }

  /** The "Highest Grade" reduce: keep the running grade unless a course's grade is
      worth strictly more. */
  function HighestFrom(cs: seq<Course>, best: Grade): Grade
  {
    if cs == [] then best
    else HighestFrom(cs[1..], if Points(cs[0].grade) > Points(best) then cs[0].grade else best)
  }

  /** `courses.reduce(..., courses[0].grade)`, or nothing for an empty list. */
  function HighestGrade(cs: seq<Course>): Option<Grade>
  {
    if |cs| > 0 then Some(HighestFrom(cs, cs[0].grade)) else None
  }

  /** What the summary shows: the grade's label, or "—" without courses. */
  function HighestGradeLabel(cs: seq<Course>): string
  {
    match HighestGrade(cs)
    case None => "—"
    case Some(g) => Label(g)
  }

  lemma {:induction false} HighestFromFacts(cs: seq<Course>, best: Grade)
    ensures var r := HighestFrom(cs, best);
            Points(best) <= Points(r) &&
            (forall j :: 0 <= j < |cs| ==> Points(cs[j].grade) <= Points(r)) &&
            (r == best ||
             exists k :: 0 <= k < |cs| && cs[k].grade == r && Points(best) < Points(r) &&
                         forall j :: 0 <= j < k ==> Points(cs[j].grade) < Points(r))
  {
    if cs != [] {
      var c := cs[0];
      var best' := if Points(c.grade) > Points(best) then c.grade else best;
      var r := HighestFrom(cs, best);
      HighestFromFacts(cs[1..], best');
      assert r == HighestFrom(cs[1..], best');
      if r != best {
        if r == best' {
          assert cs[0].grade == r && Points(best) < Points(r);
        } else {
          var k :| 0 <= k < |cs[1..]| && cs[1..][k].grade == r && Points(best') < Points(r) &&
                   forall j :: 0 <= j < k ==> Points(cs[1..][j].grade) < Points(r);
          assert cs[k + 1].grade == r;
          forall j | 0 <= j < k + 1
            ensures Points(cs[j].grade) < Points(r)
          {
            if j > 0 {
              assert cs[j] == cs[1..][j - 1];
            }
          }
        }
      }
    }
  }

  /** The highest grade of a non-empty list is the grade of one of its courses,
      worth at least as much as every other, and of the first course reaching
      that value; an empty list shows "—". */
  lemma HighestGradeIsFirstMaximum(cs: seq<Course>)
    ensures |cs| == 0 ==> HighestGrade(cs) == None && HighestGradeLabel(cs) == "—"
    ensures |cs| > 0 ==>
              (HighestGrade(cs).Some? &&
               var g := HighestGrade(cs).value;
               (forall j :: 0 <= j < |cs| ==> Points(cs[j].grade) <= Points(g)) &&
               exists k :: 0 <= k < |cs| && cs[k].grade == g &&
                           forall j :: 0 <= j < k ==> Points(cs[j].grade) < Points(g))
  {
    if |cs| > 0 {
      HighestFromFacts(cs, cs[0].grade);
      var g := HighestGrade(cs).value;
      if g == cs[0].grade {
        assert cs[0].grade == g;
      }
    }
  }

  // ---------------------------------------------------------------- internal marks

  datatype Subject = Subject(id: int, name: string, internal1: int, internal2: int, assignment: int, attendance: int)

  datatype SubjectForm = SubjectForm(name: string, internal1: int, internal2: int, assignment: int, attendance: int)

  const EmptySubjectForm := SubjectForm("", 0, 0, 0, 0)

  const InitialSubjects: seq<Subject> := [
    Subject(1, "Subject 1", 18, 19, 9, 5),
    Subject(2, "Subject 2", 16, 17, 8, 4)
  ]

  function SubjectId(s: Subject): int { s.id }

  /** The ranges the number inputs advertise: 0-20, 0-20, 0-10 and 0-5. */
  predicate WithinFieldRanges(s: Subject)
  {
    0 <= s.internal1 <= 20 && 0 <= s.internal2 <= 20 && 0 <= s.assignment <= 10 && 0 <= s.attendance <= 5
  }

  const MaxInternal := 55

  /** `calculateTotalInternal`; the result card shows it out of 55. */
  function TotalInternal(s: Subject): (t: int)
    ensures WithinFieldRanges(s) ==> 0 <= t <= MaxInternal
    ensures WithinFieldRanges(s) && t == MaxInternal ==>
            s.internal1 == 20 && s.internal2 == 20 && s.assignment == 10 && s.attendance == 5
  {
    s.internal1 + s.internal2 + s.assignment + s.attendance
  }

  // ---------------------------------------------------------------- list edits

  /** The test `row => row.id !== id`. */
  function IdOtherThan<T>(idOf: T -> int, id: int): T -> bool
  {
    (x: T) => idOf(x) != id
  }

  /** `rows.filter(row => row.id !== id)`. */
  function WithoutId<T(==,!new)>(rows: seq<T>, idOf: T -> int, id: int): (r: seq<T>)
    ensures forall i :: 0 <= i < |r| ==> r[i] in rows && idOf(r[i]) != id
    ensures forall i :: 0 <= i < |rows| && idOf(rows[i]) != id ==> rows[i] in r
    ensures forall x :: multiset(r)[x] == if idOf(x) != id then multiset(rows)[x] else 0
  {
    Filter(IdOtherThan(idOf, id), rows)
  }

  /** Removal keeps the surviving rows in their original order. */
  lemma WithoutIdKeepsOrder<T(!new)>(rows: seq<T>, idOf: T -> int, id: int)
    ensures IsSubsequence(WithoutId(rows, idOf, id), rows)
  {
    FilterIsSubsequence(IdOtherThan(idOf, id), rows);
  }

  /** A row edit: `updated[rows.findIndex(r => r.id === row.id)] = edited`, where
      `edited` is the rendered row with one field changed. */
  function ReplaceFirstWithId<T>(rows: seq<T>, idOf: T -> int, row: nat, edited: T): (r: seq<T>)
    requires row < |rows| && idOf(edited) == idOf(rows[row])
    ensures |r| == |rows|
    ensures exists k :: 0 <= k <= row && idOf(rows[k]) == idOf(edited) &&
                        (forall j :: 0 <= j < k ==> idOf(rows[j]) != idOf(edited)) &&
                        r == rows[k := edited]
  {
    var p := (x: T) => idOf(x) == idOf(rows[row]);
    assert p(rows[row]);
    var k := FindIndex(p, rows);
    rows[k := edited]
  }

  predicate DistinctIds<T>(rows: seq<T>, idOf: T -> int)
  {
    forall i, j :: 0 <= i < j < |rows| ==> idOf(rows[i]) != idOf(rows[j])
  }

  /** With distinct ids an edit changes exactly the row it was made on. */
  lemma EditHitsOwnRow<T>(rows: seq<T>, idOf: T -> int, row: nat, edited: T)
    requires row < |rows| && idOf(edited) == idOf(rows[row]) && DistinctIds(rows, idOf)
    ensures ReplaceFirstWithId(rows, idOf, row, edited) == rows[row := edited]
  {
  }

  /** `[...courses, { ...newCourse, id: courses.length + 1 }]`. */
  function AppendCourse(cs: seq<Course>, form: CourseForm): (r: seq<Course>)
    ensures |r| == |cs| + 1 && r[..|cs|] == cs
    ensures r[|cs|].id == |cs| + 1 && r[|cs|].name == form.name
    ensures r[|cs|].credits == form.credits && r[|cs|].grade == form.grade
  {
    cs + [Course(|cs| + 1, form.name, form.credits, form.grade)]
  }

  /** `[...subjects, { ...newSubject, id: subjects.length + 1 }]`. */
  function AppendSubject(ss: seq<Subject>, form: SubjectForm): (r: seq<Subject>)
    ensures |r| == |ss| + 1 && r[..|ss|] == ss
    ensures r[|ss|].id == |ss| + 1 && r[|ss|].name == form.name
    ensures r[|ss|].internal1 == form.internal1 && r[|ss|].internal2 == form.internal2
    ensures r[|ss|].assignment == form.assignment && r[|ss|].attendance == form.attendance
  {
    ss + [Subject(|ss| + 1, form.name, form.internal1, form.internal2, form.assignment, form.attendance)]
  }

  /** Removing course 1 of the initial four and adding one gives a second course
      with id 4; removing id 4 then deletes both, leaving two courses. */
  lemma CourseIdCollision(form: CourseForm)
    ensures var afterRemove := WithoutId(InitialCourses, CourseId, 1);
            var afterAdd := AppendCourse(afterRemove, form);
            |afterAdd| == 4 && afterAdd[2].id == 4 && afterAdd[3].id == 4 &&
            WithoutId(afterAdd, CourseId, 4) == afterAdd[..2]
  {
    RemoveFirstInitialCourse();
    RemoveCollidedCourses(AppendCourse(InitialCourses[1..], form));
  }

  lemma RemoveCollidedCourses(rows: seq<Course>)
    requires |rows| == 4 && rows[0].id == 2 && rows[1].id == 3 && rows[2].id == 4 && rows[3].id == 4
    ensures WithoutId(rows, CourseId, 4) == rows[..2]
  {
    var q := IdOtherThan(CourseId, 4);
    var front, back := rows[..2], rows[2..];
    assert rows == front + back;
    assert q(front[0]) && q(front[1]);
    assert !q(back[0]) && !q(back[1]);
    FilterKeepsAll(q, front);
    FilterEmpty(q, back);
    FilterConcat(q, front, back);
    assert Filter(q, front) == front && Filter(q, back) == [];
  }

  lemma RemoveFirstInitialCourse()
    ensures WithoutId(InitialCourses, CourseId, 1) == InitialCourses[1..]
  {
    RemoveLeadingId(InitialCourses, 1);
  }

  lemma RemoveLeadingId(rows: seq<Course>, id: int)
    requires |rows| > 0 && rows[0].id == id
    requires forall i :: 1 <= i < |rows| ==> rows[i].id != id
    ensures WithoutId(rows, CourseId, id) == rows[1..]
  {
    var p := IdOtherThan(CourseId, id);
    var head, tail := rows[..1], rows[1..];
    assert rows == head + tail;
    assert !p(head[0]);
    forall i | 0 <= i < |tail| ensures p(tail[i]) {
      assert tail[i] == rows[i + 1];
    }
    FilterEmpty(p, head);
    FilterKeepsAll(p, tail);
    FilterConcat(p, head, tail);
    assert Filter(p, head) == [] && Filter(p, tail) == tail;
  }

  /** After such a collision, editing the later of the two rows with id 4
      overwrites the earlier one and leaves the later row as it was. */
  lemma EditAfterCollision(form: CourseForm, name: string)
    ensures var rows := AppendCourse(InitialCourses[1..], form);
            var edited := rows[3].(name := name);
            ReplaceFirstWithId(rows, CourseId, 3, edited) == rows[2 := edited]
  {
    var rows := AppendCourse(InitialCourses[1..], form);
    var edited := rows[3].(name := name);
    var r := ReplaceFirstWithId(rows, CourseId, 3, edited);
    var k :| 0 <= k <= 3 && CourseId(rows[k]) == 4 &&
             (forall j :: 0 <= j < k ==> CourseId(rows[j]) != 4) && r == rows[k := edited];
    assert CourseId(rows[2]) == 4;
  }

  /** What the add handlers report in their toast. */
  datatype AddOutcome = NameMissing | Added

  /** The page state of both calculators. */
  class CalculatorPage {
    var courses: seq<Course>
    var newCourse: CourseForm
    var cgpa: Option<CgpaValue>
    var subjects: seq<Subject>
    var newSubject: SubjectForm

    constructor()
      ensures courses == InitialCourses && newCourse == EmptyCourseForm && cgpa == None
      ensures subjects == InitialSubjects && newSubject == EmptySubjectForm
    {
      courses := InitialCourses;
      newCourse := EmptyCourseForm;
      cgpa := None;
      subjects := InitialSubjects;
      newSubject := EmptySubjectForm;
    }

    /** The inputs of the "new course" row. */
    method SetNewCourse(form: CourseForm)
      modifies this
      ensures newCourse == form && courses == old(courses) && cgpa == old(cgpa)
      ensures subjects == old(subjects) && newSubject == old(newSubject)
    {
      newCourse := form;
    }

    method AddCourse() returns (outcome: AddOutcome)
      modifies this
      ensures old(newCourse.name) == "" ==> outcome == NameMissing && courses == old(courses) && newCourse == old(newCourse)
      ensures old(newCourse.name) != "" ==> outcome == Added && courses == AppendCourse(old(courses), old(newCourse)) && newCourse == EmptyCourseForm
      ensures cgpa == old(cgpa) && subjects == old(subjects) && newSubject == old(newSubject)
    {
      if newCourse.name == "" {
        return NameMissing;
      }
      courses := courses + [Course(|courses| + 1, newCourse.name, newCourse.credits, newCourse.grade)];
      newCourse := EmptyCourseForm;
      outcome := Added;
    }

    method RemoveCourse(id: int)
      modifies this
      ensures courses == WithoutId(old(courses), CourseId, id)
      ensures newCourse == old(newCourse) && cgpa == old(cgpa)
      ensures subjects == old(subjects) && newSubject == old(newSubject)
    {
      courses := WithoutId(courses, CourseId, id);
    }

    /** The name, credits and grade inputs of course row `row`: the rendered row
        with one field changed, written back at the first index with its id. */
    method EditCourse(row: nat, edited: Course)
      requires row < |courses| && edited.id == courses[row].id
      modifies this
      ensures courses == ReplaceFirstWithId(old(courses), CourseId, row, edited)
      ensures newCourse == old(newCourse) && cgpa == old(cgpa)
      ensures subjects == old(subjects) && newSubject == old(newSubject)
    {
      courses := ReplaceFirstWithId(courses, CourseId, row, edited);
    }

    method CalculateCgpa()
      modifies this
      ensures cgpa == Some(CgpaOf(TotalGradePoints(courses), TotalCredits(courses)))
      ensures courses == old(courses) && newCourse == old(newCourse)
      ensures subjects == old(subjects) && newSubject == old(newSubject)
    {
      var totalCredits, totalGradePoints := CalculateTotals(courses);
      cgpa := Some(CgpaOf(totalGradePoints, totalCredits));
    }

    /** The inputs of the "new subject" row. */
    method SetNewSubject(form: SubjectForm)
      modifies this
      ensures newSubject == form && subjects == old(subjects)
      ensures courses == old(courses) && newCourse == old(newCourse) && cgpa == old(cgpa)
    {
      newSubject := form;
    }

    method AddSubject() returns (outcome: AddOutcome)
      modifies this
      ensures old(newSubject.name) == "" ==> outcome == NameMissing && subjects == old(subjects) && newSubject == old(newSubject)
      ensures old(newSubject.name) != "" ==> outcome == Added && subjects == AppendSubject(old(subjects), old(newSubject)) && newSubject == EmptySubjectForm
      ensures courses == old(courses) && newCourse == old(newCourse) && cgpa == old(cgpa)
    {
      if newSubject.name == "" {
        return NameMissing;
      }
      var f := newSubject;
      subjects := subjects + [Subject(|subjects| + 1, f.name, f.internal1, f.internal2, f.assignment, f.attendance)];
      newSubject := EmptySubjectForm;
      outcome := Added;
    }

    method RemoveSubject(id: int)
      modifies this
      ensures subjects == WithoutId(old(subjects), SubjectId, id)
      ensures newSubject == old(newSubject)
      ensures courses == old(courses) && newCourse == old(newCourse) && cgpa == old(cgpa)
    {
      subjects := WithoutId(subjects, SubjectId, id);
    }

    /** The five inputs of subject row `row`. */
    method EditSubject(row: nat, edited: Subject)
      requires row < |subjects| && edited.id == subjects[row].id
      modifies this
      ensures subjects == ReplaceFirstWithId(old(subjects), SubjectId, row, edited)
      ensures newSubject == old(newSubject)
      ensures courses == old(courses) && newCourse == old(newCourse) && cgpa == old(cgpa)
    {
      subjects := ReplaceFirstWithId(subjects, SubjectId, row, edited);
    }
  }
}
