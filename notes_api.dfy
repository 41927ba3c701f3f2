/** The notes route handler: GET answers a search, a subject's materials, a
    semester's subjects or the whole tree; POST with action "addMaterial" appends a
    material, with an id made from the clock, to one subject of the in-memory tree. */
module NotesApi {
  import opened Optional
  import opened Seqs
  import opened Text
  import opened Http
  import opened NotesSearch

  /** The `semester`, `subject` and `search` query parameters; None when absent. */
  datatype NotesQuery = NotesQuery(semester: Option<string>, subject: Option<string>, search: Option<string>)

  /** JavaScript truthiness of `searchParams.get(...)`: present and not empty. */
  predicate Truthy(o: Option<string>)
  {
    o.Some? && o.value != ""
  }

  /** The `data` field of a successful GET. */
  datatype NotesData =
    | SemesterList(semesters: seq<Semester>)
    | SubjectList(subjects: seq<Subject>)
    | MaterialList(materials: seq<Material>)

  function SemesterIdIs(id: string): Semester -> bool
  {
    (sem: Semester) => sem.id == id
  }

  function SubjectIdIs(id: string): Subject -> bool
  {
    (sub: Subject) => sub.id == id
  }

  /** `semesters.findIndex((sem) => sem.id === id)`; an absent id matches nothing. */
  function SemesterIndex(semesters: seq<Semester>, id: Option<string>): (i: int)
    ensures -1 <= i < |semesters|
    ensures i >= 0 ==> id == Some(semesters[i].id) && forall k :: 0 <= k < i ==> Some(semesters[k].id) != id
    ensures i == -1 <==> forall k :: 0 <= k < |semesters| ==> Some(semesters[k].id) != id
  {
    if id.None? then -1 else FindIndex(SemesterIdIs(id.value), semesters)
  }

  /** `subjects.findIndex((sub) => sub.id === id)`; an absent id matches nothing. */
  function SubjectIndex(subjects: seq<Subject>, id: Option<string>): (j: int)
    ensures -1 <= j < |subjects|
    ensures j >= 0 ==> id == Some(subjects[j].id) && forall k :: 0 <= k < j ==> Some(subjects[k].id) != id
    ensures j == -1 <==> forall k :: 0 <= k < |subjects| ==> Some(subjects[k].id) != id
  {
    if id.None? then -1 else FindIndex(SubjectIdIs(id.value), subjects)
  }

  /** GET: the first truthy case of search, semester and subject, semester, nothing. */
  function Get(semesters: seq<Semester>, q: NotesQuery): (r: Response<NotesData>)
    ensures r.success <==> r.status == 200
    ensures r.status == 200 || r.status == 404
    ensures r.status == 404 ==> !Truthy(q.search) && Truthy(q.semester)
    ensures !Truthy(q.search) && !Truthy(q.semester) ==> r == Ok(SemesterList(semesters))
  {
    if Truthy(q.search) then
      Ok(SemesterList(FilterSemesters(semesters, q.search.value)))
    else if Truthy(q.semester) && Truthy(q.subject) then
      var i := SemesterIndex(semesters, q.semester);
      if i == -1 then Fail(404, "Semester not found")
      else
        var j := SubjectIndex(semesters[i].subjects, q.subject);
        if j == -1 then Fail(404, "Subject not found")
        else Ok(MaterialList(semesters[i].subjects[j].materials))
    else if Truthy(q.semester) then
      var i := SemesterIndex(semesters, q.semester);
      if i == -1 then Fail(404, "Semester not found")
      else Ok(SubjectList(semesters[i].subjects))
    else
      Ok(SemesterList(semesters))
  }

  /** A truthy search wins over the other parameters and lists exactly the matching
      materials of the tree, pruned the same way as on the notes page. */
  lemma GetSearchListsMatches(semesters: seq<Semester>, q: NotesQuery)
    requires Truthy(q.search)
    ensures var r := Get(semesters, q);
            r.success && r.payload.Data? && r.payload.value.SemesterList? &&
            AllMaterials(r.payload.value.semesters) == Filter(LocatedTest(q.search.value), AllMaterials(semesters)) &&
            r == Get(semesters, NotesQuery(None, None, q.search))
  {
    SearchSelectsMatchingMaterials(semesters, q.search.value);
  }

  /** An empty `search` parameter is falsy: it behaves as if it were absent. */
  lemma EmptySearchIsIgnored(semesters: seq<Semester>, q: NotesQuery)
    requires q.search == Some("")
    ensures Get(semesters, q) == Get(semesters, q.(search := None))
  {
  }

  /** Asking for a subject of a semester fails with "Semester not found" exactly when
      no semester has that id, and otherwise answers from the first such semester:
      its first subject with the requested id, or "Subject not found". */
  lemma GetSubjectMaterials(semesters: seq<Semester>, q: NotesQuery)
    requires !Truthy(q.search) && Truthy(q.semester) && Truthy(q.subject)
    ensures var r := Get(semesters, q);
            (r == Fail(404, "Semester not found") <==> forall k :: 0 <= k < |semesters| ==> semesters[k].id != q.semester.value) &&
            (r.success ==> exists i, j :: 0 <= i < |semesters| && 0 <= j < |semesters[i].subjects| &&
                             semesters[i].id == q.semester.value && semesters[i].subjects[j].id == q.subject.value &&
                             (forall k :: 0 <= k < i ==> semesters[k].id != q.semester.value) &&
                             (forall k :: 0 <= k < j ==> semesters[i].subjects[k].id != q.subject.value) &&
                             r.payload == Data(MaterialList(semesters[i].subjects[j].materials)))
    ensures var r := Get(semesters, q);
            var i := SemesterIndex(semesters, q.semester);
            i >= 0 ==>
              var j := SubjectIndex(semesters[i].subjects, q.subject);
              r == if j == -1 then Fail(404, "Subject not found") else Ok(MaterialList(semesters[i].subjects[j].materials))
  {
    var i := SemesterIndex(semesters, q.semester);
    if i >= 0 {
      var j := SubjectIndex(semesters[i].subjects, q.subject);
      assert Get(semesters, q).payload != Message("Semester not found");
      if j >= 0 {
        assert semesters[i].subjects[j].id == q.subject.value;
      }
    }
  }

  /** Asking for a semester alone fails with "Semester not found" exactly when no
      semester has that id, and otherwise lists the subjects of the first one that does. */
  lemma GetSemesterSubjects(semesters: seq<Semester>, q: NotesQuery)
    requires !Truthy(q.search) && Truthy(q.semester) && !Truthy(q.subject)
    ensures var r := Get(semesters, q);
            (r == Fail(404, "Semester not found") <==> forall k :: 0 <= k < |semesters| ==> semesters[k].id != q.semester.value) &&
            (r.success ==> exists i :: 0 <= i < |semesters| && semesters[i].id == q.semester.value &&
                             (forall k :: 0 <= k < i ==> semesters[k].id != q.semester.value) &&
                             r.payload == Data(SubjectList(semesters[i].subjects)))
  {
    var i := SemesterIndex(semesters, q.semester);
    if i >= 0 {
      assert Get(semesters, q).payload != Message("Semester not found");
    }
  }

  // ------------------------------------------------------------------- POST

  /** The JSON body of a POST: `action`, `semesterId`, `subjectId` and the
      `materialData` name and type. */
  datatype AddMaterialRequest = AddMaterialRequest(
    action: string, semesterId: Option<string>, subjectId: Option<string>,
    name: string, fileType: string)

  /** `` `mat${Date.now()}` `` for the clock reading `now` in milliseconds. */
  function MaterialIdAt(now: nat): (id: string)
    ensures |id| > 3 && id[..3] == "mat" && AllDigits(id[3..]) && DigitsValue(id[3..]) == now
  {
    NatToStringRoundTrip(now);
    assert ("mat" + NatToString(now))[..3] == "mat";
    assert ("mat" + NatToString(now))[3..] == NatToString(now);
    "mat" + NatToString(now)
  }

  /** The tree with `m` pushed onto the materials of subject `j` of semester `i`. */
  function AppendMaterial(semesters: seq<Semester>, i: nat, j: nat, m: Material): (r: seq<Semester>)
    requires i < |semesters| && j < |semesters[i].subjects|
    ensures |r| == |semesters|
    ensures forall a :: 0 <= a < |r| ==>
              r[a].id == semesters[a].id && r[a].name == semesters[a].name &&
              |r[a].subjects| == |semesters[a].subjects|
    ensures forall a, b :: 0 <= a < |r| && 0 <= b < |r[a].subjects| ==>
              r[a].subjects[b].id == semesters[a].subjects[b].id &&
              r[a].subjects[b].name == semesters[a].subjects[b].name &&
              r[a].subjects[b].materials ==
                if a == i && b == j then semesters[a].subjects[b].materials + [m]
                else semesters[a].subjects[b].materials
  {
    var sub := semesters[i].subjects[j];
    var sem := semesters[i].(subjects := semesters[i].subjects[j := sub.(materials := sub.materials + [m])]);
    semesters[i := sem]
  }

  /** POST: the response and the tree afterwards. */
  function AddMaterial(semesters: seq<Semester>, req: AddMaterialRequest, now: nat): (res: (Response<Material>, seq<Semester>))
    ensures req.action != "addMaterial" ==> res == (Fail(400, "Invalid action"), semesters)
    ensures !res.0.success ==> res.1 == semesters && res.0.status in {400, 404}
    ensures req.action == "addMaterial" && SemesterIndex(semesters, req.semesterId) == -1 ==>
              res == (Fail(404, "Semester not found"), semesters)
    ensures var i := SemesterIndex(semesters, req.semesterId);
            req.action == "addMaterial" && i >= 0 && SubjectIndex(semesters[i].subjects, req.subjectId) == -1 ==>
              res == (Fail(404, "Subject not found"), semesters)
    ensures res.0.success ==>
              res.0 == Ok(Material(MaterialIdAt(now), req.name, req.fileType)) && req.action == "addMaterial" &&
              var i := SemesterIndex(semesters, req.semesterId);
              i >= 0 &&
              var j := SubjectIndex(semesters[i].subjects, req.subjectId);
              j >= 0 && res.1 == AppendMaterial(semesters, i, j, res.0.payload.value)
  {
    if req.action == "addMaterial" then
      var i := SemesterIndex(semesters, req.semesterId);
      if i == -1 then (Fail(404, "Semester not found"), semesters)
      else
        var j := SubjectIndex(semesters[i].subjects, req.subjectId);
        if j == -1 then (Fail(404, "Subject not found"), semesters)
        else
          var m := Material(MaterialIdAt(now), req.name, req.fileType);
          (Ok(m), AppendMaterial(semesters, i, j, m))
    else
      (Fail(400, "Invalid action"), semesters)
  }

  /** A material is added exactly when the action is "addMaterial", some semester has
      the requested id, and the first such semester has a subject with the requested id. */
  lemma AddMaterialSucceedsIff(semesters: seq<Semester>, req: AddMaterialRequest, now: nat)
    ensures AddMaterial(semesters, req, now).0.success <==>
            req.action == "addMaterial" &&
            exists i :: 0 <= i < |semesters| && Some(semesters[i].id) == req.semesterId &&
                        (forall k :: 0 <= k < i ==> Some(semesters[k].id) != req.semesterId) &&
                        exists j :: 0 <= j < |semesters[i].subjects| && Some(semesters[i].subjects[j].id) == req.subjectId
  {
    if req.action == "addMaterial" {
      var i := SemesterIndex(semesters, req.semesterId);
      if i >= 0 {
        var j := SubjectIndex(semesters[i].subjects, req.subjectId);
        if j >= 0 {
          assert Some(semesters[i].subjects[j].id) == req.subjectId;
        }
        forall i' | 0 <= i' < |semesters| && Some(semesters[i'].id) == req.semesterId &&
                    (forall k :: 0 <= k < i' ==> Some(semesters[k].id) != req.semesterId)
          ensures i' == i
        {
        }
      }
    }
  }

  /** After a successful POST, a GET for the same semester and subject lists the
      subject's old materials followed by the new one. */
  lemma PostThenGetListsNewMaterial(semesters: seq<Semester>, req: AddMaterialRequest, now: nat)
    requires Truthy(req.semesterId) && Truthy(req.subjectId)
    requires AddMaterial(semesters, req, now).0.success
    ensures var (r, after) := AddMaterial(semesters, req, now);
            var q := NotesQuery(req.semesterId, req.subjectId, None);
            Get(semesters, q).payload.Data? && Get(after, q).payload.Data? &&
            Get(after, q).payload.value.materials == Get(semesters, q).payload.value.materials + [r.payload.value]
  {
    var i := SemesterIndex(semesters, req.semesterId);
    var j := SubjectIndex(semesters[i].subjects, req.subjectId);
    var m := Material(MaterialIdAt(now), req.name, req.fileType);
    var after := AppendMaterial(semesters, i, j, m);
    assert SemesterIndex(after, req.semesterId) == i;
    assert SubjectIndex(after[i].subjects, req.subjectId) == j;
  }

  /** Two materials added within the same millisecond get the same id. */
  lemma SameMillisecondSameId(semesters: seq<Semester>, req1: AddMaterialRequest, req2: AddMaterialRequest, now: nat)
    requires AddMaterial(semesters, req1, now).0.success
    requires AddMaterial(AddMaterial(semesters, req1, now).1, req2, now).0.success
    ensures AddMaterial(semesters, req1, now).0.payload.value.id ==
            AddMaterial(AddMaterial(semesters, req1, now).1, req2, now).0.payload.value.id
  {
  }

  /** The module-level `semesters` array the handler mutates. */
  class NotesStore {
    var semesters: seq<Semester>

    constructor()
      ensures semesters == InitialSemesters
    {
      semesters := InitialSemesters;
    }

    /** POST: answers the request and pushes the new material in place. */
    method Post(req: AddMaterialRequest, now: nat) returns (r: Response<Material>)
      modifies this
      ensures (r, semesters) == AddMaterial(old(semesters), req, now)
    {
      var i := SemesterIndex(semesters, req.semesterId);
      if req.action != "addMaterial" {
        r := Fail(400, "Invalid action");
      } else if i == -1 {
        r := Fail(404, "Semester not found");
      } else {
        var j := SubjectIndex(semesters[i].subjects, req.subjectId);
        if j == -1 {
          r := Fail(404, "Subject not found");
        } else {
          var m := Material(MaterialIdAt(now), req.name, req.fileType);
          semesters := AppendMaterial(semesters, i, j, m);
          r := Ok(m);
        }
      }
    }
  }
}
