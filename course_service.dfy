/**
 * The course service, apps/backend/src/services/CourseService.ts: course
 * creation with the course-code check, teacher assignment by replacing the
 * course–teacher links, class creation, a teacher's courses, and the
 * course status update. Course and class rows are JSON objects keyed by id;
 * the teacher table is the set of its ids.
 */
module CourseService {
  import opened Js
  import opened BaseService

  const Active := 1

  /** The `max_students` column's default. */
  const DefaultMaxStudents := 50

  /** The columns `createCourse` copies from the body as they are, before `status`. */
  function CourseColumns(id: int, name: Json, code: Json, semester: Json, year: Json, majors: Json): (ms: seq<(string, Json)>)
    ensures |ms| == 6 && ms[0] == ("id", Int(id))
    ensures Lookup(ms, "course_code") == Some(code)
    ensures Lookup(ms, "status").None?
  {
    var ms := [("id", Int(id)), ("course_name", name), ("course_code", code),
      ("semester", semester), ("academic_year", year), ("available_majors", majors)];
    assert Lookup(ms[1..], "course_code") == Lookup(ms[2..], "course_code") by { assert "course_name"[7] != "course_code"[7]; }
    assert Lookup(ms, "course_code") == Lookup(ms[1..], "course_code") by { assert "id"[0] != "course_code"[0]; }
    assert Lookup(ms[5..], "status").None? by { assert "available_majors"[0] != "status"[0]; }
    assert Lookup(ms[4..], "status").None? by { assert "academic_year"[0] != "status"[0]; }
    assert Lookup(ms[3..], "status").None? by { assert "semester"[1] != "status"[1]; }
    assert Lookup(ms[2..], "status").None? by { assert "course_code"[0] != "status"[0]; }
    assert Lookup(ms[1..], "status").None? by { assert "course_name"[0] != "status"[0]; }
    assert Lookup(ms, "status").None? by { assert "id"[0] != "status"[0]; }
    ms
  }

  /**
   * The row `createCourse` stores: the body's fields under their column names, with
   * the column default 1 for a `status` the body leaves undefined.
   */
  function CourseRow(id: int, input: Json): (row: Json)
    ensures row.JObj? && Field(row, "id") == Some(Int(id))
    ensures Field(row, "course_code") == Some(Column(input, "courseCode"))
    ensures Field(row, "status") == Some(if Field(input, "status").Some? then Field(input, "status").value else Int(Active))
  {
    var head := CourseColumns(id, Column(input, "courseName"), Column(input, "courseCode"), Column(input, "semester"),
      Column(input, "academicYear"), Column(input, "availableMajors"));
    var tail := [("status", ColumnOr(input, "status", Int(Active)))];
    LookupAppend(head, tail, "course_code");
    LookupAppend(head, tail, "status");
    assert (head + tail)[0] == ("id", Int(id));
    JObj(head + tail)
  }

  /** Some stored course already has this code. */
  predicate CodeTaken(courses: map<int, Json>, code: Json) {
    exists id :: id in courses && Field(courses[id], "course_code") == Some(code)
  }

  /** No two courses share a course code (the column is declared unique). */
  predicate CodesUnique(courses: map<int, Json>) {
    forall a, b :: a in courses && b in courses && a != b ==> Field(courses[a], "course_code") != Field(courses[b], "course_code")
  }

  /** A thrown non-Sequelize error: a `where` with an undefined value. */
  const UndefinedWhere := DbError("Error", [])

  /** `createCourse(courseData)`. */
  function CreateCourseReply(courses: map<int, Json>, nextId: int, input: Json): (r: Api)
    ensures Field(input, "courseCode").None? ==> r == HandleError(UndefinedWhere, "课程创建失败") && r.code == 500
    ensures Field(input, "courseCode").Some? && CodeTaken(courses, Column(input, "courseCode")) ==>
      r == Api(409, "课程代码已存在", None)
    ensures r.code == 201 <==> Field(input, "courseCode").Some? && !CodeTaken(courses, Column(input, "courseCode"))
    ensures r.code == 201 ==> r == Api(201, "课程创建成功", Some(CourseRow(nextId, input)))
  {
    if Field(input, "courseCode").None? then HandleError(UndefinedWhere, "课程创建失败")
    else if CodeTaken(courses, Column(input, "courseCode")) then Api(409, "课程代码已存在", None)
    else Api(201, "课程创建成功", Some(CourseRow(nextId, input)))
  }

  /** A course created after the check keeps course codes unique. */
  lemma CreateKeepsCodesUnique(courses: map<int, Json>, nextId: int, input: Json)
    requires CodesUnique(courses) && nextId !in courses
    requires CreateCourseReply(courses, nextId, input).code == 201
    ensures CodesUnique(courses[nextId := CourseRow(nextId, input)])
  {
    var row := CourseRow(nextId, input);
    assert forall a :: a in courses ==> Field(courses[a], "course_code") != Field(row, "course_code");
  }

  // ------------------------------------------------------------ assignTeachers

  /** The teachers `findAll({where: {id: {[Op.in]: teacherIds}}})` returns: each existing id once. */
  function Resolved(ids: seq<int>, teachers: set<int>): (found: set<int>)
    ensures forall t :: t in found <==> t in ids && t in teachers
  {
    if ids == [] then {} else (if ids[0] in teachers then {ids[0]} else {}) + Resolved(ids[1..], teachers)
  }

  predicate Distinct(ids: seq<int>) {
    forall i, j :: 0 <= i < j < |ids| ==> ids[i] != ids[j]
  }

  /** Resolving one more id adds one teacher exactly when it exists and was not already among the rest. */
  lemma ResolvedStep(ids: seq<int>, teachers: set<int>)
    requires ids != []
    ensures |Resolved(ids, teachers)| ==
      |Resolved(ids[1..], teachers)| + if ids[0] in teachers && ids[0] !in ids[1..] then 1 else 0
  {
    var head: set<int> := if ids[0] in teachers then {ids[0]} else {};
    assert Resolved(ids, teachers) == head + Resolved(ids[1..], teachers);
    if ids[0] in teachers && ids[0] !in ids[1..] {
      assert ids[0] !in Resolved(ids[1..], teachers);
    } else {
      assert Resolved(ids, teachers) == Resolved(ids[1..], teachers);
    }
  }

  /** A list is repetition-free when its tail is and its head does not recur. */
  lemma DistinctCons(ids: seq<int>)
    requires ids != []
    ensures Distinct(ids) <==> Distinct(ids[1..]) && ids[0] !in ids[1..]
  {
    var tail := ids[1..];
    if Distinct(ids) {
      forall i, j | 0 <= i < j < |tail| ensures tail[i] != tail[j] {
        assert tail[i] == ids[i + 1] && tail[j] == ids[j + 1];
      }
      forall i | 0 <= i < |tail| ensures tail[i] != ids[0] {
        assert tail[i] == ids[i + 1];
      }
    }
    if Distinct(tail) && ids[0] !in tail {
      forall i, j | 0 <= i < j < |ids| ensures ids[i] != ids[j] {
        assert ids[j] == tail[j - 1];
        if i > 0 {
          assert ids[i] == tail[i - 1];
        }
      }
    }
  }

  /** Every id of a non-empty list names a teacher when its head and tail do. */
  lemma AllInCons(ids: seq<int>, teachers: set<int>)
    requires ids != []
    ensures (forall i :: 0 <= i < |ids| ==> ids[i] in teachers) <==>
      ids[0] in teachers && forall i :: 0 <= i < |ids[1..]| ==> ids[1..][i] in teachers
  {
    if ids[0] in teachers && forall i :: 0 <= i < |ids[1..]| ==> ids[1..][i] in teachers {
      forall i | 0 <= i < |ids| ensures ids[i] in teachers {
        if i > 0 {
          assert ids[i] == ids[1..][i - 1];
        }
      }
    }
  }

  /** The count check passes exactly when every id names a teacher and no id repeats. */
  lemma {:induction false} ResolvedCount(ids: seq<int>, teachers: set<int>)
    ensures |Resolved(ids, teachers)| <= |ids|
    ensures |Resolved(ids, teachers)| == |ids| <==> Distinct(ids) && forall i :: 0 <= i < |ids| ==> ids[i] in teachers
  {
    if ids != [] {
      ResolvedCount(ids[1..], teachers);
      ResolvedStep(ids, teachers);
      DistinctCons(ids);
      AllInCons(ids, teachers);
    }
  }

  /** `assignTeachers(courseId, teacherIds)`'s answer. */
  function AssignReply(courses: map<int, Json>, teachers: set<int>, course: int, ids: seq<int>, fault: Fault): (r: Api)
    ensures fault.BeforeWrite? ==> r == HandleError(fault.e, "教师分配失败")
    ensures !fault.BeforeWrite? && course !in courses ==> r == Api(404, "课程不存在", None)
    ensures !fault.BeforeWrite? && course in courses && |Resolved(ids, teachers)| != |ids| ==> r == Api(404, "部分教师不存在", None)
    ensures r.code == 200 <==>
      !fault.BeforeWrite? && course in courses && |Resolved(ids, teachers)| == |ids| && !(fault.AtInsert? && |ids| > 0)
    ensures r.code == 200 ==> r == Api(200, "教师分配成功", Some(JBool(true)))
  {
    if fault.BeforeWrite? then HandleError(fault.e, "教师分配失败")
    else if course !in courses then Api(404, "课程不存在", None)
    else if |Resolved(ids, teachers)| != |ids| then Api(404, "部分教师不存在", None)
    else if fault.AtInsert? && |ids| > 0 then HandleError(fault.e, "教师分配失败")
    else Api(200, "教师分配成功", Some(JBool(true)))
  }

  /** The checks pass only when the delete and insert may start. */
  predicate AssignChecksPass(courses: map<int, Json>, teachers: set<int>, course: int, ids: seq<int>, fault: Fault) {
    !fault.BeforeWrite? && course in courses && |Resolved(ids, teachers)| == |ids|
  }

  /** The course–teacher links after `assignTeachers`. */
  function AssignedLinks(courses: map<int, Json>, teachers: set<int>, links: seq<Link>, course: int, ids: seq<int>,
                         fault: Fault): seq<Link> {
    if AssignChecksPass(courses, teachers, course, ids, fault) then Replaced(links, course, ids, fault) else links
  }

  /** A repeated teacher id fails the count check even when the teacher exists. */
  lemma DuplicateTeacherRefused(courses: map<int, Json>, teachers: set<int>, course: int, t: int)
    requires course in courses && t in teachers
    ensures AssignReply(courses, teachers, course, [t, t], NoFault) == Api(404, "部分教师不存在", None)
  {
    ResolvedCount([t, t], teachers);
    assert !Distinct([t, t]);
  }

  /** On success the course's teachers are exactly the ids given, and other courses' links are untouched. */
  lemma AssignReplacesTeachers(courses: map<int, Json>, teachers: set<int>, links: seq<Link>, course: int, ids: seq<int>,
                               fault: Fault)
    requires AssignReply(courses, teachers, course, ids, fault).code == 200
    ensures TargetsOf(AssignedLinks(courses, teachers, links, course, ids, fault), course) == ids
    ensures Distinct(ids) && forall i :: 0 <= i < |ids| ==> ids[i] in teachers
    ensures forall l: Link :: l.owner != course ==> (l in AssignedLinks(courses, teachers, links, course, ids, fault) <==> l in links)
  {
    ResolvedCount(ids, teachers);
    ReplacedTargets(links, course, ids);
    assert Replaced(links, course, ids, fault) == Replaced(links, course, ids, NoFault);
  }

  /** An insert failing after the delete leaves the course with no teachers and reports the failure. */
  lemma FailedInsertDropsTeachers(courses: map<int, Json>, teachers: set<int>, links: seq<Link>, course: int, ids: seq<int>,
                                  e: DbError)
    requires AssignChecksPass(courses, teachers, course, ids, AtInsert(e)) && |ids| > 0
    ensures TargetsOf(AssignedLinks(courses, teachers, links, course, ids, AtInsert(e)), course) == []
    ensures AssignReply(courses, teachers, course, ids, AtInsert(e)) == HandleError(e, "教师分配失败")
  {
    FailedInsertEmpties(links, course, ids, e);
  }

  // ------------------------------------------------------------ createClass

  /** The columns of a new class row that `createClass` copies from the body as they are, after its id. */
  function ClassColumns(id: int, name: Json, course: Json, teacher: Json, semester: Json, year: Json): (ms: seq<(string, Json)>)
    ensures |ms| > 0 && ms[0] == ("id", Int(id))
    ensures Lookup(ms, "max_students").None? && Lookup(ms, "status").None?
  {
    var ms := [("id", Int(id)), ("class_name", name), ("course_id", course),
      ("teacher_id", teacher), ("semester", semester), ("academic_year", year)];
    assert Lookup(ms[5..], "max_students").None? by { assert "academic_year"[0] != "max_students"[0]; }
    assert Lookup(ms[4..], "max_students").None? by { assert "semester"[0] != "max_students"[0]; }
    assert Lookup(ms[3..], "max_students").None? by { assert "teacher_id"[0] != "max_students"[0]; }
    assert Lookup(ms[2..], "max_students").None? by { assert "course_id"[0] != "max_students"[0]; }
    assert Lookup(ms[1..], "max_students").None? by { assert "class_name"[0] != "max_students"[0]; }
    assert Lookup(ms, "max_students").None? by { assert "id"[0] != "max_students"[0]; }
    assert Lookup(ms[5..], "status").None? by { assert "academic_year"[0] != "status"[0]; }
    assert Lookup(ms[4..], "status").None? by { assert "semester"[1] != "status"[1]; }
    assert Lookup(ms[3..], "status").None? by { assert "teacher_id"[0] != "status"[0]; }
    assert Lookup(ms[2..], "status").None? by { assert "course_id"[0] != "status"[0]; }
    assert Lookup(ms[1..], "status").None? by { assert "class_name"[0] != "status"[0]; }
    assert Lookup(ms, "status").None? by { assert "id"[0] != "status"[0]; }
    ms
  }

  /**
   * The row `createClass` stores, with the column defaults 50 for `max_students` and
   * 1 for `status` where the body leaves them undefined.
   */
  function ClassRow(id: int, input: Json): (row: Json)
    ensures row.JObj? && Field(row, "id") == Some(Int(id))
    ensures Field(row, "max_students") ==
      Some(if Field(input, "maxStudents").Some? then Field(input, "maxStudents").value else Int(DefaultMaxStudents))
    ensures Field(row, "status") == Some(if Field(input, "status").Some? then Field(input, "status").value else Int(Active))
  {
    var head := ClassColumns(id, Column(input, "className"), Column(input, "courseId"), Column(input, "teacherId"),
      Column(input, "semester"), Column(input, "academicYear"));
    var tail := [("max_students", ColumnOr(input, "maxStudents", Int(DefaultMaxStudents))), ("status", ColumnOr(input, "status", Int(Active)))];
    LookupAppend(head, tail, "max_students");
    LookupAppend(head, tail, "status");
    assert Lookup(tail, "status") == Lookup(tail[1..], "status") by { assert "max_students"[0] != "status"[0]; }
    assert (head + tail)[0] == ("id", Int(id));
    JObj(head + tail)
  }

  /** A `findByPk` on the body's property finds a row. */
  predicate Finds(keys: set<int>, v: Option<Json>) {
    KeyOf(v).Some? && KeyOf(v).value in keys
  }

  /** `createClass(classData)`: the course is checked before the teacher. */
  function CreateClassReply(courses: map<int, Json>, teachers: set<int>, nextId: int, input: Json): (r: Api)
    ensures PkOf(Field(input, "courseId")).Refused? ==> r == HandleError(PkOf(Field(input, "courseId")).e, "班级创建失败") && r.code == 500
    ensures !PkOf(Field(input, "courseId")).Refused? && !Finds(courses.Keys, Field(input, "courseId")) ==> r == Api(404, "课程不存在", None)
    ensures Finds(courses.Keys, Field(input, "courseId")) && PkOf(Field(input, "teacherId")).Refused? ==>
      r == HandleError(PkOf(Field(input, "teacherId")).e, "班级创建失败") && r.code == 500
    ensures Finds(courses.Keys, Field(input, "courseId")) && !PkOf(Field(input, "teacherId")).Refused? && !Finds(teachers, Field(input, "teacherId")) ==>
      r == Api(404, "教师不存在", None)
    ensures r.code == 201 <==> Finds(courses.Keys, Field(input, "courseId")) && Finds(teachers, Field(input, "teacherId"))
    ensures r.code == 201 ==> r == Api(201, "班级创建成功", Some(ClassRow(nextId, input)))
  {
    if PkOf(Field(input, "courseId")).Refused? then HandleError(PkOf(Field(input, "courseId")).e, "班级创建失败")
    else if !Finds(courses.Keys, Field(input, "courseId")) then Api(404, "课程不存在", None)
    else if PkOf(Field(input, "teacherId")).Refused? then HandleError(PkOf(Field(input, "teacherId")).e, "班级创建失败")
    else if !Finds(teachers, Field(input, "teacherId")) then Api(404, "教师不存在", None)
    else Api(201, "班级创建成功", Some(ClassRow(nextId, input)))
  }

  // ------------------------------------------------------------ getTeacherCourses

  /** The page of a teacher's active courses, given what the query over those course ids returns. */
  function TeacherCoursesReply(teachers: set<int>, links: seq<Link>, teacher: int, page: int, size: int,
                               db: (seq<int>, int, int) -> Query): (r: Api)
    ensures teacher !in teachers ==> r == Api(404, "教师不存在", None)
    ensures teacher in teachers && OwnersOf(links, teacher) == [] ==>
      r == Api(200, "获取教师课程成功", Some(JObj([("data", JArr([])), ("total", Int(0)), ("page", Int(page)),
        ("size", Int(size)), ("totalPages", Int(0))])))
    ensures teacher in teachers && OwnersOf(links, teacher) != [] ==>
      r == PageReply((limit, offset) => db(OwnersOf(links, teacher), limit, offset), page, size)
  {
    if teacher !in teachers then Api(404, "教师不存在", None)
    else
      var ids := OwnersOf(links, teacher);
      if ids == [] then
        Api(200, "获取教师课程成功", Some(JObj([("data", JArr([])), ("total", Int(0)), ("page", Int(page)),
          ("size", Int(size)), ("totalPages", Int(0))])))
      else PageReply((limit, offset) => db(ids, limit, offset), page, size)
  }

  /** A target no link mentions has no owners. */
  lemma {:induction false} NoOwners(links: seq<Link>, target: int)
    requires forall l :: l in links ==> l.target != target
    ensures OwnersOf(links, target) == []
  {
    if links != [] {
      assert links[0] in links;
      NoOwners(links[1..], target);
    }
  }

  /** The empty shortcut answers what a paginated query over no rows would: no data, total 0, 0 pages. */
  lemma NoLinksIsEmptyPage(teachers: set<int>, links: seq<Link>, teacher: int, page: int, size: int,
                           db: (seq<int>, int, int) -> Query)
    requires teacher in teachers && size > 0
    requires forall l :: l in links ==> l.target != teacher
    ensures TeacherCoursesReply(teachers, links, teacher, page, size, db).data == Some(PageData([], 0, page, size))
  {
    PagesCoverCount(0, size);
    assert Int(0) == JNum(CeilDiv(0, size));
    NoOwners(links, teacher);
    var expected := JObj([("data", JArr([])), ("total", Int(0)), ("page", Int(page)), ("size", Int(size)), ("totalPages", Int(0))]);
    assert TeacherCoursesReply(teachers, links, teacher, page, size, db).data == Some(expected);
    assert PageData([], 0, page, size) == expected;
  }

  // ------------------------------------------------------------ the service

  /** The service over its tables: courses, teachers, course–teacher links and classes. */
  class CourseStore {
    var courses: map<int, Json>
    var nextCourseId: int
    var teachers: set<int>
    var links: seq<Link>
    var classes: map<int, Json>
    var nextClassId: int

    /** Course codes are unique and ids are assigned upwards. */
    predicate Valid()
      reads this
    {
      CodesUnique(courses) && (forall id :: id in courses ==> id < nextCourseId) &&
      forall id :: id in classes ==> id < nextClassId
    }

    constructor (teachers: set<int>)
      ensures Valid() && courses == map[] && classes == map[] && links == [] && this.teachers == teachers
    {
      courses := map[];
      nextCourseId := 1;
      this.teachers := teachers;
      links := [];
      classes := map[];
      nextClassId := 1;
    }

    /** `createCourse(courseData)`. */
    method CreateCourse(input: Json, fault: Option<DbError>) returns (r: Api)
      requires Valid()
      modifies this
      ensures Valid() && teachers == old(teachers) && links == old(links) && classes == old(classes)
      ensures fault.Some? ==> r == HandleError(fault.value, "课程创建失败") && courses == old(courses)
      ensures fault.None? ==> r == CreateCourseReply(old(courses), old(nextCourseId), input)
      ensures fault.None? && r.code == 201 ==>
        courses == old(courses)[old(nextCourseId) := CourseRow(old(nextCourseId), input)]
      ensures r.code != 201 ==> courses == old(courses)
    {
      if fault.Some? {
        return HandleError(fault.value, "课程创建失败");
      }
      r := CreateCourseReply(courses, nextCourseId, input);
      if r.code == 201 {
        CreateKeepsCodesUnique(courses, nextCourseId, input);
        StoreCourse(CourseRow(nextCourseId, input));
      }
    }

    /** Stores a new course row under the next course id, given that its code is still unique. */
    method StoreCourse(row: Json)
      requires Valid() && CodesUnique(courses[nextCourseId := row])
      modifies this
      ensures Valid() && teachers == old(teachers) && links == old(links) && classes == old(classes)
      ensures courses == old(courses)[old(nextCourseId) := row]
    {
      courses := courses[nextCourseId := row];
      nextCourseId := nextCourseId + 1;
    }

    /** `assignTeachers(courseId, teacherIds)`: delete the course's links, then insert the new ones. */
    method AssignTeachers(course: int, ids: seq<int>, fault: Fault) returns (r: Api)
      requires Valid()
      modifies this
      ensures Valid()
      ensures courses == old(courses) && teachers == old(teachers) && classes == old(classes)
      ensures nextCourseId == old(nextCourseId) && nextClassId == old(nextClassId)
      ensures r == AssignReply(old(courses), old(teachers), course, ids, fault)
      ensures links == AssignedLinks(old(courses), old(teachers), old(links), course, ids, fault)
    {
      r := AssignReply(courses, teachers, course, ids, fault);
      if !AssignChecksPass(courses, teachers, course, ids, fault) {
        return;
      }
      links := Unlinked(links, course);
      if |ids| > 0 && !fault.AtInsert? {
        links := links + LinksFor(course, ids);
      }
    }

    /** Stores a new class row under the next class id. */
    method StoreClass(row: Json)
      requires Valid()
      modifies this
      ensures Valid() && courses == old(courses) && teachers == old(teachers) && links == old(links)
      ensures classes == old(classes)[old(nextClassId) := row]
    {
      classes := classes[nextClassId := row];
      nextClassId := nextClassId + 1;
    }

    /** `createClass(classData)`. */
    method CreateClass(input: Json, fault: Option<DbError>) returns (r: Api)
      requires Valid()
      modifies this
      ensures Valid() && courses == old(courses) && teachers == old(teachers) && links == old(links)
      ensures fault.Some? ==> r == HandleError(fault.value, "班级创建失败") && classes == old(classes)
      ensures fault.None? ==> r == CreateClassReply(old(courses), old(teachers), old(nextClassId), input)
      ensures fault.None? && r.code == 201 ==> classes == old(classes)[old(nextClassId) := ClassRow(old(nextClassId), input)]
      ensures r.code != 201 ==> classes == old(classes)
    {
      if fault.Some? {
        return HandleError(fault.value, "班级创建失败");
      }
      r := CreateClassReply(courses, teachers, nextClassId, input);
      if r.code == 201 {
        StoreClass(r.data.value);
      }
    }

    /** `getTeacherCourses(teacherId, params)`: reads the tables only. */
    method GetTeacherCourses(teacher: int, page: int, size: int, db: (seq<int>, int, int) -> Query, fault: Option<DbError>)
      returns (r: Api)
      ensures r == if fault.Some? then HandleError(fault.value, "获取教师课程失败")
        else TeacherCoursesReply(teachers, links, teacher, page, size, db)
    {
      if fault.Some? {
        return HandleError(fault.value, "获取教师课程失败");
      }
      r := TeacherCoursesReply(teachers, links, teacher, page, size, db);
    }

    /** `updateCourseStatus(courseId, status)`, reporting the update's own failures. */
    method UpdateCourseStatus(id: int, status: Json, fault: Option<DbError>) returns (r: Api)
      requires Valid()
      modifies this
      ensures Valid() && teachers == old(teachers) && links == old(links) && classes == old(classes)
      ensures r == StatusUpdate(old(courses), id, status, fault, "课程状态更新成功")
      ensures courses == UpdatedRows(old(courses), id, JObj([("status", status)]), fault)
    {
      r := StatusUpdate(courses, id, status, fault, "课程状态更新成功");
      var rows := UpdatedRows(courses, id, JObj([("status", status)]), fault);
      if fault.None? && id in courses {
        PatchedLookup(Members(courses[id]), [("status", status)], "course_code");
        assert Field(rows[id], "course_code") == Field(courses[id], "course_code");
      }
      courses := rows;
    }
  }
}
