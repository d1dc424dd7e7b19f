/**
 * The backend's course controller, apps/backend/src/controllers/CourseController.ts:
 * the checks on path parameters and bodies before the course service is
 * called, and the lists picked out of a course's details.
 *
 * As in the user controller, the service call is a parameter that returns
 * an envelope or throws. The handlers without a `try` let a throw reach the
 * error middleware (`Propagated`).
 */
module CourseController {
  import opened Js
  import Koa
  import opened BaseService
  import opened BaseController

  /** What a handler does: write a response, or let the exception through. */
  datatype Handling = Wrote(reply: Reply) | Propagated

  /** The fields `createCourse` requires. */
  const CourseFields: seq<string> := ["courseName", "courseCode", "semester", "academicYear", "availableMajors"]

  /** The fields `createClass` requires. */
  const ClassFields: seq<string> := ["className", "courseId", "teacherId", "semester", "academicYear", "maxStudents"]

  /** The fields `createTimeSlot` requires. */
  const TimeSlotFields: seq<string> := ["subCourseId", "weekday", "startTime", "endTime", "location"]

  /** The fields `createSubCourse` requires. */
  const SubCourseFields: seq<string> := ["courseId", "subCourseCode", "teacherId", "academicYear"]

  /** `createCourse`. */
  function CreateCourse(body: Option<Json>, service: Json -> Outcome): Reply {
    Validated(CourseFields, "创建课程失败", body, service)
  }

  /** `createClass`. */
  function CreateClass(body: Option<Json>, service: Json -> Outcome): Reply {
    Validated(ClassFields, "创建班级失败", body, service)
  }

  /** `createTimeSlot`. */
  function CreateTimeSlot(body: Option<Json>, service: Json -> Outcome): Reply {
    Validated(TimeSlotFields, "创建时间段失败", body, service)
  }

  /** `createSubCourse`. */
  function CreateSubCourse(body: Option<Json>, service: Json -> Outcome): Reply {
    Validated(SubCourseFields, "创建子课程失败", body, service)
  }

  /** A course without one of its five fields is refused with 400 before the service is called. */
  lemma CreateCourseNeedsFields(body: Json, field: string, service: Json -> Outcome)
    requires !body.JNull? && field in CourseFields && !TruthyOpt(Field(body, field))
    ensures CreateCourse(Some(body), service).status == 400
    ensures CreateCourse(Some(body), service) == MissingReply(Missing(CourseFields, body))
  {
    MissingRefused(CourseFields, body, field);
  }

  /** The 400 for a non-numeric course id. */
  function BadCourseId(): Reply {
    Respond(400, "课程ID必须是数字", None)
  }

  /** `getCourseDetail`. */
  function GetCourseDetail(id: Option<Json>, service: int -> Outcome): Reply {
    ById(id, "课程ID必须是数字", "获取课程详情失败", service)
  }

  // ------------------------------------------------------------ assignTeachers

  /** `assignTeachers`: a numeric id, then `teacherIds` an array of 1 to 10 entries. */
  function AssignTeachers(id: Option<Json>, body: Option<Json>, service: (int, seq<Json>) -> Outcome): (r: Reply)
    ensures ParseIntValue(id).None? ==> r == BadCourseId()
    ensures ParseIntValue(id).Some? && Nullish(body) ==> r == ServerError("分配教师失败", None)
    ensures ParseIntValue(id).Some? && !Nullish(body) ==>
      var ids := Field(body.value, "teacherIds");
      (!(ids.Some? && ids.value.JArr?) ==> r == Respond(400, "教师ID必须是数组", None)) &&
      (ids.Some? && ids.value.JArr? && ids.value.items == [] ==> r == Respond(400, "至少需要分配一个教师", None)) &&
      (ids.Some? && ids.value.JArr? && |ids.value.items| > 10 ==> r == Respond(400, "最多分配10个教师", None)) &&
      (ids.Some? && ids.value.JArr? && 1 <= |ids.value.items| <= 10 ==>
        r == Finish(service(ParseIntValue(id).value, ids.value.items), "分配教师失败"))
  {
    var n := ParseIntValue(id);
    if n.None? then BadCourseId()
    else if Nullish(body) then ServerError("分配教师失败", None)
    else
      var ids := Field(body.value, "teacherIds");
      if !(ids.Some? && ids.value.JArr?) then Respond(400, "教师ID必须是数组", None)
      else if |ids.value.items| == 0 then Respond(400, "至少需要分配一个教师", None)
      else if |ids.value.items| > 10 then Respond(400, "最多分配10个教师", None)
      else Finish(service(n.value, ids.value.items), "分配教师失败")
  }

  // ------------------------------------------------------------ getCourses

  /** `getCourses`: pagination (its 400 overwritten by the catch), then `semester` parsed only when truthy. */
  function GetCourses(query: map<string, Json>, service: (int, int, Option<Json>, Option<Json>) -> Outcome): (r: Reply)
    ensures Pagination(query).BadPaging? ==> r == ServerError("获取课程列表失败", None)
    ensures Pagination(query).Paged? ==>
      r == Finish(service(Pagination(query).page, Pagination(query).size, Koa.Prop(query, "major"),
        OptionalInt(Koa.Prop(query, "semester"))),
        "获取课程列表失败")
  {
    var p := Pagination(query);
    if p.BadPaging? then ServerError("获取课程列表失败", None)
    else
      Finish(service(p.page, p.size, Koa.Prop(query, "major"),
        OptionalInt(Koa.Prop(query, "semester"))),
        "获取课程列表失败")
  }

  // ------------------------------------------------------------ lists out of the course detail

  /** `(detail.data as any)?.[key] || []`. */
  function ListOr(data: Option<Json>, key: string): (l: Json)
    ensures TruthyOpt(OptField(data, key)) ==> l == OptField(data, key).value
    ensures !TruthyOpt(OptField(data, key)) ==> l == JArr([])
  {
    if TruthyOpt(OptField(data, key)) then OptField(data, key).value else JArr([])
  }

  /**
   * `getCourseTeachers` and `getCourseClasses` (`key` is `Teachers` or
   * `Classes`): a non-200 detail is handled as it is; no `try`, so a throw
   * propagates.
   */
  function DetailList(id: Option<Json>, detail: int -> Outcome, key: string, success: string): (h: Handling)
    ensures ParseIntValue(id).None? ==> h == Wrote(BadCourseId())
    ensures ParseIntValue(id).Some? ==>
      var d := detail(ParseIntValue(id).value);
      (d.Threw? ==> h == Propagated) &&
      (d.Returned? && d.api.code != 200 ==> h == Wrote(Handled(d.api))) &&
      (d.Returned? && d.api.code == 200 ==> h == Wrote(Respond(200, success, Some(ListOr(d.api.data, key)))))
  {
    var n := ParseIntValue(id);
    if n.None? then Wrote(BadCourseId())
    else
      var d := detail(n.value);
      if d.Threw? then Propagated
      else if d.api.code != 200 then Wrote(Handled(d.api))
      else Wrote(Respond(200, success, Some(ListOr(d.api.data, key))))
  }

  /** `getCourseTeachers`. */
  function GetCourseTeachers(id: Option<Json>, detail: int -> Outcome): Handling {
    DetailList(id, detail, "Teachers", "获取课程教师成功")
  }

  /** `getCourseClasses`. */
  function GetCourseClasses(id: Option<Json>, detail: int -> Outcome): Handling {
    DetailList(id, detail, "Classes", "获取课程班级成功")
  }

  /** A non-200 detail is forwarded with its own code and message; a course without teachers lists none. */
  lemma DetailForwarded(courseId: Option<Json>, api: Api)
    requires ParseIntValue(courseId).Some? && api.code == 404
    ensures GetCourseTeachers(courseId, _ => Returned(api)) == Wrote(NotFound(api.message))
    ensures GetCourseClasses(courseId, _ => Returned(Api(200, "ok", Some(JObj([])))))
      == Wrote(Respond(200, "获取课程班级成功", Some(JArr([]))))
  {
  }

  // ------------------------------------------------------------ classes

  /** `getClassDetail`: `classes` is the class table `findByPk` reads; `fails` is a throwing query. */
  function GetClassDetail(classId: Option<Json>, classes: map<int, Json>, fails: bool): (h: Handling)
    ensures ParseIntValue(classId).None? ==> h == Wrote(Respond(400, "班级ID必须是数字", None))
    ensures ParseIntValue(classId).Some? && fails ==> h == Propagated
    ensures ParseIntValue(classId).Some? && !fails ==>
      (ParseIntValue(classId).value !in classes ==> h == Wrote(Respond(404, "班级不存在", None))) &&
      (ParseIntValue(classId).value in classes ==>
        h == Wrote(Respond(200, "获取班级详情成功", Some(classes[ParseIntValue(classId).value]))))
  {
    var n := ParseIntValue(classId);
    if n.None? then Wrote(Respond(400, "班级ID必须是数字", None))
    else if fails then Propagated
    else if n.value !in classes then Wrote(Respond(404, "班级不存在", None))
    else Wrote(Respond(200, "获取班级详情成功", Some(classes[n.value])))
  }

  /**
   * `getClassStudents` as written: the include names `courseService.userModel`, which
   * the course service never sets, so the query throws for every numeric class id
   * before anything is read, and the error leaves the handler.
   */
  function GetClassStudentsAsWritten(classId: Option<Json>): (h: Handling)
    ensures ParseIntValue(classId).None? <==> h == Wrote(Respond(400, "班级ID必须是数字", None))
    ensures ParseIntValue(classId).Some? <==> h == Propagated
  {
    if ParseIntValue(classId).None? then Wrote(Respond(400, "班级ID必须是数字", None)) else Propagated
  }

  /** No class, however many users it has, is ever listed by the handler as written. */
  lemma ClassStudentsNeverListed(classId: Option<Json>, classes: map<int, Json>)
    requires ParseIntValue(classId).Some?
    ensures GetClassStudentsAsWritten(classId) == Propagated
    ensures GetClassStudents(classId, classes, false).Wrote?
    ensures GetClassStudents(classId, classes, false).reply.status == 200
  {
  }

  /**
   * `getClassStudents` as intended, with the user model wired in: the class's `Users`,
   * or [] when the class is missing.
   */
  function GetClassStudents(classId: Option<Json>, classes: map<int, Json>, fails: bool): (h: Handling)
    ensures ParseIntValue(classId).None? ==> h == Wrote(Respond(400, "班级ID必须是数字", None))
    ensures ParseIntValue(classId).Some? && fails ==> h == Propagated
    ensures ParseIntValue(classId).Some? && !fails ==>
      var row := if ParseIntValue(classId).value in classes then Some(classes[ParseIntValue(classId).value]) else None;
      h == Wrote(Respond(200, "获取班级学生成功", Some(ListOr(row, "Users"))))
  {
    var n := ParseIntValue(classId);
    if n.None? then Wrote(Respond(400, "班级ID必须是数字", None))
    else if fails then Propagated
    else Wrote(Respond(200, "获取班级学生成功", Some(ListOr(if n.value in classes then Some(classes[n.value]) else None, "Users"))))
  }

  // ------------------------------------------------------------ getCoursesBySemester

  /** `getCoursesBySemester`: both parameters numeric, the semester within 1..8. */
  function GetCoursesBySemester(year: Option<Json>, semester: Option<Json>, service: (int, int) -> Outcome): (r: Reply)
    ensures ParseIntValue(year).None? || ParseIntValue(semester).None? ==> r == Respond(400, "学年和学期必须是数字", None)
    ensures ParseIntValue(year).Some? && ParseIntValue(semester).Some? ==>
      var s := ParseIntValue(semester).value;
      (!(1 <= s <= 8) ==> r == Respond(400, "学期必须在1-8之间", None)) &&
      (1 <= s <= 8 ==> r == Finish(service(ParseIntValue(year).value, s), "获取学期课程失败"))
  {
    var y := ParseIntValue(year);
    var s := ParseIntValue(semester);
    if y.None? || s.None? then Respond(400, "学年和学期必须是数字", None)
    else if s.value < 1 || s.value > 8 then Respond(400, "学期必须在1-8之间", None)
    else Finish(service(y.value, s.value), "获取学期课程失败")
  }

  // ------------------------------------------------------------ getTeacherCourses

  /** `getTeacherCourses`: a numeric teacher id, then pagination (a bad page ending in 500). */
  function GetTeacherCourses(teacherId: Option<Json>, query: map<string, Json>, service: (int, int, int) -> Outcome): (r: Reply)
    ensures ParseIntValue(teacherId).None? ==> r == Respond(400, "教师ID必须是数字", None)
    ensures ParseIntValue(teacherId).Some? && Pagination(query).BadPaging? ==> r == ServerError("获取教师课程失败", None)
    ensures ParseIntValue(teacherId).Some? && Pagination(query).Paged? ==>
      r == Finish(service(ParseIntValue(teacherId).value, Pagination(query).page, Pagination(query).size), "获取教师课程失败")
  {
    var n := ParseIntValue(teacherId);
    if n.None? then Respond(400, "教师ID必须是数字", None)
    else
      var p := Pagination(query);
      if p.BadPaging? then ServerError("获取教师课程失败", None)
      else Finish(service(n.value, p.page, p.size), "获取教师课程失败")
  }

  // ------------------------------------------------------------ updateCourseStatus

  /** `updateCourseStatus`: a numeric id, then a status of exactly 0 or 1. */
  function UpdateCourseStatus(id: Option<Json>, body: Option<Json>, service: (int, Json) -> Outcome): (r: Reply)
    ensures ParseIntValue(id).None? ==> r == BadCourseId()
    ensures ParseIntValue(id).Some? && Nullish(body) ==> r == ServerError("更新课程状态失败", None)
    ensures ParseIntValue(id).Some? && !Nullish(body) ==>
      var status := Field(body.value, "status");
      (!StatusAllowed(status) ==> r == Respond(400, "状态必须是0(禁用)或1(启用)", None)) &&
      (StatusAllowed(status) ==> r == Finish(service(ParseIntValue(id).value, status.value), "更新课程状态失败"))
  {
    var n := ParseIntValue(id);
    if n.None? then BadCourseId()
    else if Nullish(body) then ServerError("更新课程状态失败", None)
    else
      var status := Field(body.value, "status");
      if !StatusAllowed(status) then Respond(400, "状态必须是0(禁用)或1(启用)", None)
      else Finish(service(n.value, status.value), "更新课程状态失败")
  }

}
