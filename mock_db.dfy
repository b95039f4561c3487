/** The in-memory mock database of the gateway (mock_db.go): the catalog
    tables, the user registry, the initial carts, and the catalog lookups
    served by the read-only endpoints. Every lookup is a pure function over
    constant tables. */
module MockDb {
  import opened Wrappers

  // ---------------------------------------------------------------
  // Value types (declared in main.go and mock_db.go)
  // ---------------------------------------------------------------

  datatype School = School(id: string, name: string)
  datatype Grade = Grade(id: string, name: string)
  datatype Class = Class(id: string, name: string)
  datatype Equipment = Equipment(id: string, name: string, quantity: int)

  /** A registry record; the password never leaves the gateway. */
  datatype User = User(userId: string, username: string, password: string)

  /** A saved equipment selection; `timestamp` is a Go int64 that the
      gateway only stores and returns, so it is kept unbounded here. */
  datatype CartEntry = CartEntry(
    id: string,
    timestamp: int,
    school: School,
    grade: Grade,
    schoolClass: Class,
    items: seq<Equipment>)

  // ---------------------------------------------------------------
  // Mock tables
  // ---------------------------------------------------------------

  const MockSchools: seq<School> := [
    School("1", "Ben Gurion"),
    School("2", "ORT"),
    School("3", "Brener"),
    School("4", "Herzel"),
    School("5", "Begin")
  ]

  const MockGrades: seq<Grade> := [
    Grade("9", "9th Grade"),
    Grade("10", "10th Grade"),
    Grade("11", "11th Grade"),
    Grade("12", "12th Grade")
  ]

  const MockClasses: seq<Class> := [
    Class("1", "Class 1"),
    Class("2", "Class 2"),
    Class("3", "Class 3"),
    Class("4", "Class 4"),
    Class("5", "Class 5"),
    Class("6", "Class 6"),
    Class("7", "Class 7"),
    Class("8", "Class 8")
  ]

  /** Key under which the fallback equipment list is stored. */
  const DefaultKey: string := "default"

  const List191: seq<Equipment> := [
    Equipment("101", "Notebook (Ruled)", 5),
    Equipment("102", "Pencil", 12),
    Equipment("103", "Math Textbook - Algebra I", 1)
  ]

  const List2125: seq<Equipment> := [
    Equipment("201", "Laptop (Required)", 1),
    Equipment("202", "Engineering Calculator", 1),
    Equipment("203", "Physics Textbook - Advanced", 1)
  ]

  const DefaultList: seq<Equipment> := [
    Equipment("901", "Binder (3-ring)", 2),
    Equipment("902", "Highlighters", 4)
  ]

  /** Equipment lists keyed by "schoolId-gradeId-classId". */
  const MockEquipmentLists: map<string, seq<Equipment>> := map[
    "1-9-1" := List191,
    "2-12-5" := List2125,
    DefaultKey := DefaultList
  ]

  const MockUsers: seq<User> := [
    User("1", "avner", "2004"),
    User("2", "admin", "1234"),
    User("3", "noam", "1919")
  ]

  /** The carts the process starts with. */
  const MockCarts: map<string, seq<CartEntry>> := map[
    "1" := [CartEntry("cart-1", 1700000000,
                      School("1", "Ben Gurion"), Grade("9", "9th Grade"), Class("1", "Class 1"),
                      [Equipment("101", "Notebook", 2),
                       Equipment("102", "Engineering Calculator", 1),
                       Equipment("103", "Physics Textbook - Advanced", 1)])],
    "2" := [CartEntry("cart-2", 1700000001,
                      School("2", "ORT"), Grade("12", "12th Grade"), Class("5", "Class 5"),
                      [Equipment("201", "Laptop (Required)", 1),
                       Equipment("202", "Engineering Calculator", 1),
                       Equipment("203", "Physics Textbook - Beginners", 1)])]
  ]

  // ---------------------------------------------------------------
  // Table properties
  // ---------------------------------------------------------------

  /** No two registry records share a user ID. */
  ghost predicate DistinctUserIds(users: seq<User>)
  {
    forall i, j :: 0 <= i < j < |users| ==> users[i].userId != users[j].userId
  }

  /** The registry resolves a user ID to at most one identity. */
  lemma MockUserIdsDistinct()
    ensures DistinctUserIds(MockUsers)
  {
  }

  // ---------------------------------------------------------------
  // Catalog lookups
  // ---------------------------------------------------------------

  /** `schoolId` is the ID of some school in `schools`. */
  ghost predicate HasSchool(schools: seq<School>, schoolId: string)
  {
    exists i :: 0 <= i < |schools| && schools[i].id == schoolId
  }

  /** The whole school table. */
  function GetSchools(): (r: seq<School>)
    ensures r == MockSchools
    ensures |r| == 5
  {
    MockSchools
  }

  /** Linear scan of `schools` with early return: the full grade list as
      soon as a school with this ID is met, nil (None) if none is. */
  function GradesIn(schools: seq<School>, schoolId: string): (r: Option<seq<Grade>>)
    ensures r.Some? <==> HasSchool(schools, schoolId)
    ensures r.Some? ==> r.value == MockGrades
  {
    if schools == [] then None
    else if schools[0].id == schoolId then Some(MockGrades)
    else
      var r := GradesIn(schools[1..], schoolId);
      assert r.Some? ==> HasSchool(schools, schoolId) by {
        if r.Some? {
          var i :| 0 <= i < |schools[1..]| && schools[1..][i].id == schoolId;
          assert schools[i + 1].id == schoolId;
        }
      }
      assert HasSchool(schools, schoolId) ==> r.Some? by {
        if HasSchool(schools, schoolId) {
          var i :| 0 <= i < |schools| && schools[i].id == schoolId;
          assert i != 0;
          assert schools[1..][i - 1].id == schoolId;
        }
      }
      r
  }

  /** Grades of a school: every grade for a known school, nil otherwise. */
  function GetGradesBySchoolID(schoolId: string): (r: Option<seq<Grade>>)
    ensures r.Some? <==> HasSchool(MockSchools, schoolId)
    ensures r.Some? ==> r.value == MockGrades && |r.value| == 4
  {
    GradesIn(MockSchools, schoolId)
  }

  /** Classes of a grade: nil exactly when the school is unknown; the
      grade ID is not consulted. */
  function GetClassesByGradeID(schoolId: string, gradeId: string): (r: Option<seq<Class>>)
    ensures r.Some? <==> HasSchool(MockSchools, schoolId)
    ensures r.None? <==> GetGradesBySchoolID(schoolId).None?
    ensures r.Some? ==> r.value == MockClasses && |r.value| == 8
  {
    if GetGradesBySchoolID(schoolId).None? then None else Some(MockClasses)
  }

  /** Classes do not depend on the grade asked for. */
  lemma ClassesIgnoreGrade(schoolId: string, g1: string, g2: string)
    ensures GetClassesByGradeID(schoolId, g1) == GetClassesByGradeID(schoolId, g2)
  {
  }

  /** The composite lookup key, as `fmt.Sprintf("%s-%s-%s", ...)` builds it. */
  function EquipmentKey(schoolId: string, gradeId: string, classId: string): (key: string)
    ensures |key| == |schoolId| + |gradeId| + |classId| + 2
    ensures key[|schoolId|] == '-' && key[|schoolId| + 1 + |gradeId|] == '-'
    ensures key[..|schoolId|] == schoolId
    ensures key[|schoolId| + 1..|schoolId| + 1 + |gradeId|] == gradeId
    ensures key[|schoolId| + |gradeId| + 2..] == classId
  {
    schoolId + "-" + gradeId + "-" + classId
  }

  /** A composite key always holds a dash, so no request can name the
      fallback entry directly. */
  lemma EquipmentKeyNeverDefault(schoolId: string, gradeId: string, classId: string)
    ensures EquipmentKey(schoolId, gradeId, classId) != DefaultKey
  {
    var key := EquipmentKey(schoolId, gradeId, classId);
    assert '-' in key by { assert key[|schoolId|] == '-'; }
    assert '-' !in DefaultKey;
  }

  /** The equipment list for a selection, falling back to the default list
      when the selection has no list of its own. */
  function GetEquipmentList(schoolId: string, gradeId: string, classId: string): (r: seq<Equipment>)
    ensures EquipmentKey(schoolId, gradeId, classId) in MockEquipmentLists ==>
              r == MockEquipmentLists[EquipmentKey(schoolId, gradeId, classId)]
    ensures EquipmentKey(schoolId, gradeId, classId) !in MockEquipmentLists ==> r == DefaultList
    ensures |r| > 0
  {
    var key := EquipmentKey(schoolId, gradeId, classId);
    if key in MockEquipmentLists then MockEquipmentLists[key]
    else MockEquipmentLists[DefaultKey]
  }

  /** The selection "1-9-1" has its own three-item list. */
  lemma EquipmentFor191()
    ensures GetEquipmentList("1", "9", "1") == List191
    ensures |GetEquipmentList("1", "9", "1")| == 3
  {
    assert EquipmentKey("1", "9", "1") == "1-9-1";
  }

  /** Known and unknown schools, as the lookups treat them. */
  lemma SchoolLookupExamples()
    ensures GetGradesBySchoolID("1") == Some(MockGrades)
    ensures GetGradesBySchoolID("999") == None
    ensures GetClassesByGradeID("1", "9") == Some(MockClasses)
    ensures GetClassesByGradeID("999", "9") == None
  {
    assert MockSchools[0].id == "1";
    assert HasSchool(MockSchools, "1");
    assert !HasSchool(MockSchools, "999") by {
      forall i | 0 <= i < |MockSchools| ensures MockSchools[i].id != "999" {
        assert |MockSchools[i].id| == 1;
      }
    }
  }
}
