/**
 * The integrated backend's course controller,
 * apps/backend-integrated/src/modules/course/course.controller.ts: the
 * teacher list check, the optional semester filter, and the lists picked
 * out of a course's details. Path ids have already passed the id pipe.
 *
 * Service calls are parameters returning an envelope.
 */
module NestCourseController {
  import opened Js
  import Koa
  import opened BaseService
  import BaseController
  import CourseController
  import NestUserController

  /** `assignTeachers`: `teacherIds` must be a non-empty array of at most 10. */
  function AssignTeachers(id: int, body: Option<Json>, service: (int, seq<Json>) -> Api): (r: NestUserController.Result)
    ensures Nullish(body) ==> r == NestUserController.Raises
    ensures !Nullish(body) ==>
      var ids := Field(body.value, "teacherIds");
      (!(ids.Some? && ids.value.JArr? && ids.value.items != []) ==>
        r == NestUserController.Gave(Api(400, "教师ID必须是非空数组", None))) &&
      (ids.Some? && ids.value.JArr? && |ids.value.items| > 10 ==>
        r == NestUserController.Gave(Api(400, "最多分配10个教师", None))) &&
      (ids.Some? && ids.value.JArr? && 1 <= |ids.value.items| <= 10 ==>
        r == NestUserController.Gave(service(id, ids.value.items)))
  {
    if Nullish(body) then NestUserController.Raises
    else
      var ids := Field(body.value, "teacherIds");
      if !(ids.Some? && ids.value.JArr?) || |ids.value.items| == 0 then NestUserController.Gave(Api(400, "教师ID必须是非空数组", None))
      else if |ids.value.items| > 10 then NestUserController.Gave(Api(400, "最多分配10个教师", None))
      else NestUserController.Gave(service(id, ids.value.items))
  }

  /** `Array.isArray(teacherIds) && 1 <= teacherIds.length <= 10`. */
  predicate TeachersAccepted(body: Json) {
    var ids := Field(body, "teacherIds");
    ids.Some? && ids.value.JArr? && 1 <= |ids.value.items| <= 10
  }

  /**
   * Both backends hand the service the same teacher lists; they refuse the
   * others with 400, the Koa one naming the empty list separately.
   */
  lemma TeacherListsAgree(id: int, koaId: Option<Json>, body: Json, service: (int, seq<Json>) -> Api, call: (int, seq<Json>) -> BaseController.Outcome)
    requires ParseIntValue(koaId) == Some(id) && !body.JNull?
    ensures TeachersAccepted(body) ==>
      AssignTeachers(id, Some(body), service) == NestUserController.Gave(service(id, Field(body, "teacherIds").value.items)) &&
      CourseController.AssignTeachers(koaId, Some(body), call)
        == BaseController.Finish(call(id, Field(body, "teacherIds").value.items), "分配教师失败")
    ensures !TeachersAccepted(body) ==>
      AssignTeachers(id, Some(body), service).Gave? && AssignTeachers(id, Some(body), service).api.code == 400 &&
      CourseController.AssignTeachers(koaId, Some(body), call).status == 400
  {
  }

  /** `getCourses`: `semester` goes through `Number` (`toNumber`) whenever it is defined. */
  function GetCourses(page: int, size: int, query: map<string, Json>, toNumber: Json -> Num,
                      service: (int, int, Option<Json>, Option<Json>) -> Api): (a: Api)
    ensures Koa.Prop(query, "semester").None? ==> a == service(page, size, Koa.Prop(query, "major"), None)
    ensures Koa.Prop(query, "semester").Some? ==>
      a == service(page, size, Koa.Prop(query, "major"), Some(JNum(toNumber(Koa.Prop(query, "semester").value))))
  {
    var semester := Koa.Prop(query, "semester");
    service(page, size, Koa.Prop(query, "major"), if semester.Some? then Some(JNum(toNumber(semester.value))) else None)
  }

  /** `(detail.data as any)?.[key] ?? []`. */
  function ListOrEmpty(data: Option<Json>, key: string): (l: Json)
    ensures !Nullish(OptField(data, key)) ==> l == OptField(data, key).value
    ensures Nullish(OptField(data, key)) ==> l == JArr([])
  {
    Coalesce(OptField(data, key), JArr([]))
  }

  /** `getCourseTeachers` and `getCourseClasses`: a non-200 detail is returned as it is. */
  function DetailList(detail: Api, key: string, success: string): (a: Api)
    ensures detail.code != 200 ==> a == detail
    ensures detail.code == 200 ==> a == Api(200, success, Some(ListOrEmpty(detail.data, key)))
  {
    if detail.code != 200 then detail else Api(200, success, Some(ListOrEmpty(detail.data, key)))
  }

  /** `getCourseTeachers`. */
  function GetCourseTeachers(id: int, detail: int -> Api): Api {
    DetailList(detail(id), "Teachers", "获取课程教师成功")
  }

  /** `getCourseClasses`. */
  function GetCourseClasses(id: int, detail: int -> Api): Api {
    DetailList(detail(id), "Classes", "获取课程班级成功")
  }

  /**
   * `??` and `||` differ only on falsy values that are not null: for a list
   * that is an array, null or absent, both backends answer the same list.
   */
  lemma DetailListsAgree(data: Option<Json>, key: string)
    requires OptField(data, key).None? || OptField(data, key).value.JNull? || OptField(data, key).value.JArr?
    ensures ListOrEmpty(data, key) == CourseController.ListOr(data, key)
  {
  }

  /** An empty-string list is kept by `??` and replaced by `||`. */
  lemma EmptyStringListDiffers()
    ensures ListOrEmpty(Some(JObj([("Teachers", JStr(""))])), "Teachers") == JStr("")
    ensures CourseController.ListOr(Some(JObj([("Teachers", JStr(""))])), "Teachers") == JArr([])
  {
    assert OptField(Some(JObj([("Teachers", JStr(""))])), "Teachers") == Some(JStr(""));
  }

  /**
   * `getClassDetail`: `classes` is the class table `findByPk` reads; `fails`
   * says the lookup itself rejected, which leaves the handler by a throw.
   */
  function GetClassDetail(classId: int, classes: map<int, Json>, fails: bool): (r: NestUserController.Result)
    ensures fails <==> r == NestUserController.Raises
    ensures !fails && classId !in classes ==> r == NestUserController.Gave(Api(404, "班级不存在", None))
    ensures !fails && classId in classes ==> r == NestUserController.Gave(Api(200, "获取班级详情成功", Some(classes[classId])))
  {
    if fails then NestUserController.Raises
    else if classId !in classes then NestUserController.Gave(Api(404, "班级不存在", None))
    else NestUserController.Gave(Api(200, "获取班级详情成功", Some(classes[classId])))
  }
}
