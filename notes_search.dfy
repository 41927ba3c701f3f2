/** The study-materials tree (semesters, their subjects, their materials) and the
    nested search the notes page and the notes API both run over it: keep the
    materials whose name contains the query case-insensitively, then drop the
    subjects left without materials and the semesters left without subjects. */
module NotesSearch {
  import opened Seqs
  import opened Text

  datatype Material = Material(id: string, name: string, fileType: string)

  datatype Subject = Subject(id: string, name: string, materials: seq<Material>)

  datatype Semester = Semester(id: string, name: string, subjects: seq<Subject>)

  const InitialSemesters: seq<Semester> := [
    Semester("sem1", "Semester 1", [
      Subject("sub1", "Introduction to Programming", [
        Material("mat1", "Lecture Notes - Basics of C", "pdf"),
        Material("mat2", "Programming Assignment 1", "pdf"),
        Material("mat3", "Tutorial - Variables and Data Types", "pdf")]),
      Subject("sub2", "Digital Electronics", [
        Material("mat4", "Boolean Algebra Notes", "pdf"),
        Material("mat5", "Logic Gates Diagrams", "pdf")])]),
    Semester("sem2", "Semester 2", [
      Subject("sub3", "Data Structures", [
        Material("mat6", "Arrays and Linked Lists", "pdf"),
        Material("mat7", "Trees and Graphs", "pdf"),
        Material("mat8", "Sorting Algorithms", "pdf")]),
      Subject("sub4", "Object-Oriented Programming", [
        Material("mat9", "Classes and Objects", "pdf"),
        Material("mat10", "Inheritance and Polymorphism", "pdf")])])
  ]

  /** `material.name.toLowerCase().includes(query.toLowerCase())`. */
  predicate MatchesQuery(m: Material, query: string)
  {
    Includes(Lower(m.name), Lower(query))
  }

  function MaterialTest(query: string): Material -> bool
  {
    (m: Material) => MatchesQuery(m, query)
  }

  function HasMaterials(sub: Subject): bool { |sub.materials| > 0 }

  function HasSubjects(sem: Semester): bool { |sem.subjects| > 0 }

  function FilterSubject(query: string): Subject -> Subject
  {
    (sub: Subject) => sub.(materials := Filter(MaterialTest(query), sub.materials))
  }

  function FilterSubjects(subjects: seq<Subject>, query: string): seq<Subject>
  {
    Filter(HasMaterials, Map(FilterSubject(query), subjects))
  }

  function FilterSemester(query: string): Semester -> Semester
  {
    (sem: Semester) => sem.(subjects := FilterSubjects(sem.subjects, query))
  }

  /** `filteredSemesters`: the map/filter chain over semesters and subjects. */
  function FilterSemesters(semesters: seq<Semester>, query: string): seq<Semester>
  {
    Filter(HasSubjects, Map(FilterSemester(query), semesters))
  }

  /** The result holds no semester without subjects and no subject without materials. */
  lemma SearchPrunesEmpty(semesters: seq<Semester>, query: string)
    ensures var r := FilterSemesters(semesters, query);
            (forall i :: 0 <= i < |r| ==> |r[i].subjects| > 0) &&
            (forall i, j :: 0 <= i < |r| && 0 <= j < |r[i].subjects| ==> |r[i].subjects[j].materials| > 0)
  {
    var mapped := Map(FilterSemester(query), semesters);
    var r := FilterSemesters(semesters, query);
    forall i, j | 0 <= i < |r| && 0 <= j < |r[i].subjects|
      ensures |r[i].subjects[j].materials| > 0
    {
      assert r[i] in mapped;
      var k :| 0 <= k < |mapped| && mapped[k] == r[i];
      var subs := Map(FilterSubject(query), semesters[k].subjects);
      assert r[i].subjects == Filter(HasMaterials, subs);
      assert HasMaterials(r[i].subjects[j]);
    }
  }

  /** A material together with where it is filed. */
  datatype Located = Located(semesterId: string, subjectId: string, material: Material)

  function LocateIn(semesterId: string, subjectId: string, ms: seq<Material>): seq<Located>
  {
    if ms == [] then [] else [Located(semesterId, subjectId, ms[0])] + LocateIn(semesterId, subjectId, ms[1..])
  }

  function SubjectsMaterials(semesterId: string, subjects: seq<Subject>): seq<Located>
  {
    if subjects == [] then []
    else LocateIn(semesterId, subjects[0].id, subjects[0].materials) + SubjectsMaterials(semesterId, subjects[1..])
  }

  /** Every material of the tree with its semester and subject, in display order. */
  function AllMaterials(semesters: seq<Semester>): seq<Located>
  {
    if semesters == [] then []
    else SubjectsMaterials(semesters[0].id, semesters[0].subjects) + AllMaterials(semesters[1..])
  }

  function LocatedTest(query: string): Located -> bool
  {
    (l: Located) => MatchesQuery(l.material, query)
  }

  lemma {:induction false} LocateInFilter(semId: string, subId: string, ms: seq<Material>, query: string)
    ensures LocateIn(semId, subId, Filter(MaterialTest(query), ms)) ==
            Filter(LocatedTest(query), LocateIn(semId, subId, ms))
  {
    if ms != [] {
      LocateInFilter(semId, subId, ms[1..], query);
      var p := MaterialTest(query);
      var head := if p(ms[0]) then [ms[0]] else [];
      assert Filter(p, ms) == head + Filter(p, ms[1..]);
      LocateInConcat(semId, subId, head, Filter(p, ms[1..]));
    }
  }

  lemma {:induction false} LocateInConcat(semId: string, subId: string, a: seq<Material>, b: seq<Material>)
    ensures LocateIn(semId, subId, a + b) == LocateIn(semId, subId, a) + LocateIn(semId, subId, b)
  {
    if a == [] {
      assert a + b == b;
    } else {
      assert (a + b)[0] == a[0];
      assert (a + b)[1..] == a[1..] + b;
      LocateInConcat(semId, subId, a[1..], b);
    }
  }

  lemma {:induction false} SubjectsMaterialsFilter(semId: string, subjects: seq<Subject>, query: string)
    ensures SubjectsMaterials(semId, FilterSubjects(subjects, query)) ==
            Filter(LocatedTest(query), SubjectsMaterials(semId, subjects))
  {
    var lt := LocatedTest(query);
    if subjects == [] {
    } else {
      var s0 := subjects[0];
      var f0 := FilterSubject(query)(s0);
      SubjectsMaterialsFilter(semId, subjects[1..], query);
      assert Map(FilterSubject(query), subjects) == [f0] + Map(FilterSubject(query), subjects[1..]);
      var rest := FilterSubjects(subjects[1..], query);
      LocateInFilter(semId, s0.id, s0.materials, query);
      FilterConcat(lt, LocateIn(semId, s0.id, s0.materials), SubjectsMaterials(semId, subjects[1..]));
      if HasMaterials(f0) {
        assert FilterSubjects(subjects, query) == [f0] + rest;
        assert ([f0] + rest)[1..] == rest;
      } else {
        assert FilterSubjects(subjects, query) == rest;
        assert LocateIn(semId, s0.id, f0.materials) == [];
      }
    }
  }

  /** Searching the tree and then listing its materials gives exactly the
      materials of the whole tree that match, in the same order and in the same
      semester and subject: nothing that matches is lost, nothing that does not
      match is kept. */
  lemma {:induction false} SearchSelectsMatchingMaterials(semesters: seq<Semester>, query: string)
    ensures AllMaterials(FilterSemesters(semesters, query)) ==
            Filter(LocatedTest(query), AllMaterials(semesters))
  {
    var lt := LocatedTest(query);
    if semesters != [] {
      var s0 := semesters[0];
      var f0 := FilterSemester(query)(s0);
      SearchSelectsMatchingMaterials(semesters[1..], query);
      assert Map(FilterSemester(query), semesters) == [f0] + Map(FilterSemester(query), semesters[1..]);
      var rest := FilterSemesters(semesters[1..], query);
      SubjectsMaterialsFilter(s0.id, s0.subjects, query);
      FilterConcat(lt, SubjectsMaterials(s0.id, s0.subjects), AllMaterials(semesters[1..]));
      if HasSubjects(f0) {
        assert FilterSemesters(semesters, query) == [f0] + rest;
        assert ([f0] + rest)[1..] == rest;
      } else {
        assert FilterSemesters(semesters, query) == rest;
      }
    }
  }

  /** Every material listed in the result matches the query. */
  lemma SearchResultsMatch(semesters: seq<Semester>, query: string, l: Located)
    requires l in AllMaterials(FilterSemesters(semesters, query))
    ensures MatchesQuery(l.material, query) && l in AllMaterials(semesters)
  {
    SearchSelectsMatchingMaterials(semesters, query);
  }

  /** Every matching material of the tree is listed in the result, where it was filed. */
  lemma SearchFindsEveryMatch(semesters: seq<Semester>, query: string, l: Located)
    requires l in AllMaterials(semesters) && MatchesQuery(l.material, query)
    ensures l in AllMaterials(FilterSemesters(semesters, query))
  {
    SearchSelectsMatchingMaterials(semesters, query);
    assert LocatedTest(query)(l);
    var i :| 0 <= i < |AllMaterials(semesters)| && AllMaterials(semesters)[i] == l;
  }

  /** The surviving semesters keep their relative order, and so do the subjects
      inside each. */
  lemma SearchKeepsOrder(semesters: seq<Semester>, subjects: seq<Subject>, query: string)
    ensures IsSubsequence(FilterSemesters(semesters, query), Map(FilterSemester(query), semesters))
    ensures IsSubsequence(FilterSubjects(subjects, query), Map(FilterSubject(query), subjects))
  {
    FilterIsSubsequence(HasSubjects, Map(FilterSemester(query), semesters));
    FilterIsSubsequence(HasMaterials, Map(FilterSubject(query), subjects));
  }

  /** An empty query matches every material, so the search drops nothing but empty
      subjects and semesters. */
  lemma EmptyQueryKeepsEveryMaterial(semesters: seq<Semester>)
    ensures AllMaterials(FilterSemesters(semesters, "")) == AllMaterials(semesters)
  {
    var all := AllMaterials(semesters);
    SearchSelectsMatchingMaterials(semesters, "");
    forall i | 0 <= i < |all| ensures LocatedTest("")(all[i]) {
      IncludesEmpty(Lower(all[i].material.name));
    }
    FilterKeepsAll(LocatedTest(""), all);
  }

  // ---------------------------------------------------------------- notes page

  /** A semester card's count: `subjects.reduce((acc, s) => acc + s.materials.length, 0)`. */
  function MaterialCount(subjects: seq<Subject>): nat
  {
    if subjects == [] then 0 else |subjects[0].materials| + MaterialCount(subjects[1..])
  }

  lemma {:induction false} LocateInLength(semId: string, subId: string, ms: seq<Material>)
    ensures |LocateIn(semId, subId, ms)| == |ms|
  {
    if ms != [] {
      LocateInLength(semId, subId, ms[1..]);
    }
  }

  lemma {:induction false} MaterialCountIsListed(semId: string, subjects: seq<Subject>)
    ensures MaterialCount(subjects) == |SubjectsMaterials(semId, subjects)|
  {
    if subjects != [] {
      LocateInLength(semId, subjects[0].id, subjects[0].materials);
      MaterialCountIsListed(semId, subjects[1..]);
    }
  }

  /** The count shown on a semester's card of the search result is the number of
      that semester's materials that match the query. */
  lemma SemesterCountIsMatches(sem: Semester, query: string)
    ensures MaterialCount(FilterSemester(query)(sem).subjects) ==
            |Filter(LocatedTest(query), SubjectsMaterials(sem.id, sem.subjects))|
  {
    MaterialCountIsListed(sem.id, FilterSubjects(sem.subjects, query));
    SubjectsMaterialsFilter(sem.id, sem.subjects, query);
  }

  /** Whether the page shows "No materials found": `searchQuery && filteredSemesters.length === 0`. */
  predicate NoMaterialsFound(query: string, filtered: seq<Semester>)
  {
    query != "" && |filtered| == 0
  }

  lemma {:induction false} NonEmptyResultListsSomething(r: seq<Semester>)
    requires |r| > 0 && |r[0].subjects| > 0 && |r[0].subjects[0].materials| > 0
    ensures |AllMaterials(r)| > 0
  {
    var s := r[0].subjects;
    assert |LocateIn(r[0].id, s[0].id, s[0].materials)| > 0;
  }

  /** "No materials found" appears exactly when the query is non-empty and no
      material of the tree matches it. */
  lemma NoMaterialsFoundIff(semesters: seq<Semester>, query: string)
    ensures NoMaterialsFound(query, FilterSemesters(semesters, query)) <==>
            query != "" && forall i :: 0 <= i < |AllMaterials(semesters)| ==>
                                       !MatchesQuery(AllMaterials(semesters)[i].material, query)
  {
    var r := FilterSemesters(semesters, query);
    var all := AllMaterials(semesters);
    SearchSelectsMatchingMaterials(semesters, query);
    FilterEmpty(LocatedTest(query), all);
    if |r| > 0 {
      SearchPrunesEmpty(semesters, query);
      NonEmptyResultListsSomething(r);
    }
  }
}
