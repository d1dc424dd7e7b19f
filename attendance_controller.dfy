/**
 * The backend's attendance controller,
 * apps/backend/src/controllers/AttendanceController.ts: the checks made on
 * path parameters, the query and the body before the attendance service is
 * called, and the update object handed to it.
 *
 * The service calls are parameters returning an envelope or throwing.
 */
module AttendanceController {
  import opened Js
  import Koa
  import opened BaseService
  import opened BaseController

  /** The fields `createAttendanceTask` requires. */
  const TaskFields: seq<string> := ["classId", "taskName", "taskType", "startTime", "endTime"]

  /** `createAttendanceTask`. */
  function CreateAttendanceTask(body: Option<Json>, service: Json -> Outcome): Reply {
    Validated(TaskFields, "创建考勤任务失败", body, service)
  }

  /** A task without an end time is refused with 400 before the service is called. */
  lemma TaskNeedsEndTime(body: Json, service: Json -> Outcome)
    requires !body.JNull? && !TruthyOpt(Field(body, "endTime"))
    ensures CreateAttendanceTask(Some(body), service) == MissingReply(Missing(TaskFields, body))
    ensures "endTime" in Missing(TaskFields, body)
  {
    MissingRefused(TaskFields, body, "endTime");
  }

  // ------------------------------------------------------------ checkIn

  /**
   * `checkIn`: the body is destructured (a missing body throws), the task id
   * must be truthy, then a signed-in user is required.
   */
  function CheckIn(body: Option<Json>, ctxUserId: Option<Json>, stateUserId: Option<Json>,
                   service: (Json, Json, Option<Json>, Option<Json>) -> Outcome): (r: Reply)
    ensures Nullish(body) ==> r == ServerError("打卡失败", None)
    ensures !Nullish(body) && !TruthyOpt(Field(body.value, "taskId")) ==> r == Respond(400, "考勤任务ID不能为空", None)
    ensures !Nullish(body) && TruthyOpt(Field(body.value, "taskId")) && !TruthyOpt(OrElse(ctxUserId, stateUserId)) ==>
      r == Unauthorized("未登录或登录已过期")
    ensures !Nullish(body) && TruthyOpt(Field(body.value, "taskId")) && TruthyOpt(OrElse(ctxUserId, stateUserId)) ==>
      r == Finish(service(Field(body.value, "taskId").value, OrElse(ctxUserId, stateUserId).value,
                          Field(body.value, "status"), Field(body.value, "remark")), "打卡失败")
  {
    if Nullish(body) then ServerError("打卡失败", None)
    else
      var taskId := Field(body.value, "taskId");
      if !TruthyOpt(taskId) then Respond(400, "考勤任务ID不能为空", None)
      else
        var userId := OrElse(ctxUserId, stateUserId);
        if !TruthyOpt(userId) then Unauthorized("未登录或登录已过期")
        else Finish(service(taskId.value, userId.value, Field(body.value, "status"), Field(body.value, "remark")), "打卡失败")
  }

  // ------------------------------------------------------------ lists and stats by id

  /** `getClassAttendanceTasks`. */
  function GetClassAttendanceTasks(classId: Option<Json>, query: map<string, Json>, service: (int, int, int) -> Outcome): Reply {
    PagedById(classId, "班级ID必须是数字", query, "获取班级考勤任务失败", service)
  }

  /** `getAttendanceRecords`. */
  function GetAttendanceRecords(taskId: Option<Json>, query: map<string, Json>, service: (int, int, int) -> Outcome): Reply {
    PagedById(taskId, "考勤任务ID必须是数字", query, "获取打卡记录失败", service)
  }

  /** `getClassAttendanceStats`. */
  function GetClassAttendanceStats(classId: Option<Json>, service: int -> Outcome): Reply {
    ById(classId, "班级ID必须是数字", "获取班级考勤统计失败", service)
  }

  // ------------------------------------------------------------ the optional class id

  /** `getStudentAttendanceStats` as written: a NaN class id is passed on. */
  function StudentStatsAsWritten(userId: Option<Json>, query: map<string, Json>, service: (int, Option<Json>) -> Outcome): (r: Reply)
    ensures ParseIntValue(userId).None? ==> r == Respond(400, "用户ID必须是数字", None)
    ensures ParseIntValue(userId).Some? ==>
      r == Finish(service(ParseIntValue(userId).value, OptionalInt(Koa.Prop(query, "classId"))), "获取学生考勤统计失败")
  {
    var n := ParseIntValue(userId);
    if n.None? then Respond(400, "用户ID必须是数字", None)
    else
      var classId := OptionalInt(Koa.Prop(query, "classId"));
      if BadClassIdAsWritten(classId) then Respond(400, "班级ID必须是数字", None)
      else Finish(service(n.value, classId), "获取学生考勤统计失败")
  }

  /**
   * A class id of 'abc' parses to NaN, which the as-written guard lets
   * through to the service and the intended guard refuses.
   */
  lemma LetterClassIdPasses()
    ensures OptionalInt(Some(JStr("abc"))) == Some(JNum(NaN))
    ensures !BadClassIdAsWritten(OptionalInt(Some(JStr("abc"))))
    ensures BadClassId(OptionalInt(Some(JStr("abc"))))
  {
    LettersAreNaN();
  }

  /** `getStudentAttendanceStats`, rejecting a class id that is not a number as its message intends. */
  function GetStudentAttendanceStats(userId: Option<Json>, query: map<string, Json>, service: (int, Option<Json>) -> Outcome): (r: Reply)
    ensures ParseIntValue(userId).None? ==> r == Respond(400, "用户ID必须是数字", None)
    ensures ParseIntValue(userId).Some? && BadClassId(OptionalInt(Koa.Prop(query, "classId"))) ==>
      r == Respond(400, "班级ID必须是数字", None)
    ensures ParseIntValue(userId).Some? && !BadClassId(OptionalInt(Koa.Prop(query, "classId"))) ==>
      r == Finish(service(ParseIntValue(userId).value, OptionalInt(Koa.Prop(query, "classId"))), "获取学生考勤统计失败")
  {
    var n := ParseIntValue(userId);
    if n.None? then Respond(400, "用户ID必须是数字", None)
    else
      var classId := OptionalInt(Koa.Prop(query, "classId"));
      if BadClassId(classId) then Respond(400, "班级ID必须是数字", None)
      else Finish(service(n.value, classId), "获取学生考勤统计失败")
  }

  /** `getActiveAttendanceTasks` (and its alias `getActiveTasks`), with the corrected class id guard. */
  function GetActiveAttendanceTasks(query: map<string, Json>, service: Option<Json> -> Outcome): (r: Reply)
    ensures BadClassId(OptionalInt(Koa.Prop(query, "classId"))) ==> r == Respond(400, "班级ID必须是数字", None)
    ensures !BadClassId(OptionalInt(Koa.Prop(query, "classId"))) ==>
      r == Finish(service(OptionalInt(Koa.Prop(query, "classId"))), "获取活跃考勤任务失败")
  {
    var classId := OptionalInt(Koa.Prop(query, "classId"));
    if BadClassId(classId) then Respond(400, "班级ID必须是数字", None)
    else Finish(service(classId), "获取活跃考勤任务失败")
  }

  // ------------------------------------------------------------ updateAttendanceRecord

  /** The update object: `status` when truthy, `remark` whenever it is defined (even null or ''). */
  function UpdateData(status: Option<Json>, remark: Option<Json>): (d: Json)
    ensures d.JObj? && |d.members| <= 2
    ensures Field(d, "status") == (if TruthyOpt(status) then status else None)
    ensures Field(d, "remark") == remark
    ensures forall k :: k != "status" && k != "remark" ==> Field(d, k).None?
  {
    var s := if TruthyOpt(status) then [("status", status.value)] else [];
    var m := if remark.Some? then [("remark", remark.value)] else [];
    LookupAppend(s, m, "status");
    LookupAppend(s, m, "remark");
    forall k | k != "status" && k != "remark" ensures Lookup(s + m, k).None? {
      LookupAppend(s, m, k);
    }
    JObj(s + m)
  }

  /** `updateData` built by conditional assignment to a fresh object. */
  method BuildUpdateData(status: Option<Json>, remark: Option<Json>) returns (d: Json)
    ensures d == UpdateData(status, remark)
  {
    var ms: seq<(string, Json)> := [];
    if TruthyOpt(status) {
      ms := Put(ms, "status", status.value);
      assert ms == [("status", status.value)];
    }
    if remark.Some? {
      if ms != [] {
        assert ms[0].0 != "remark" by { assert "remark"[0] != "status"[0]; }
        assert Assigned(ms[1..], "remark", remark.value) == [("remark", remark.value)];
      }
      ms := Put(ms, "remark", remark.value);
    }
    d := JObj(ms);
  }

  /** `updateAttendanceRecord`: a numeric id, then at least one of a truthy status or remark. */
  function UpdateAttendanceRecord(recordId: Option<Json>, body: Option<Json>, service: (int, Json) -> Outcome): (r: Reply)
    ensures ParseIntValue(recordId).None? ==> r == Respond(400, "记录ID必须是数字", None)
    ensures ParseIntValue(recordId).Some? && Nullish(body) ==> r == ServerError("更新考勤记录失败", None)
    ensures ParseIntValue(recordId).Some? && !Nullish(body) ==>
      var status := Field(body.value, "status");
      var remark := Field(body.value, "remark");
      (!TruthyOpt(status) && !TruthyOpt(remark) ==> r == Respond(400, "必须提供状态或备注", None)) &&
      (TruthyOpt(status) || TruthyOpt(remark) ==>
        r == Finish(service(ParseIntValue(recordId).value, UpdateData(status, remark)), "更新考勤记录失败"))
  {
    var n := ParseIntValue(recordId);
    if n.None? then Respond(400, "记录ID必须是数字", None)
    else if Nullish(body) then ServerError("更新考勤记录失败", None)
    else
      var status := Field(body.value, "status");
      var remark := Field(body.value, "remark");
      if !TruthyOpt(status) && !TruthyOpt(remark) then Respond(400, "必须提供状态或备注", None)
      else Finish(service(n.value, UpdateData(status, remark)), "更新考勤记录失败")
  }

  /** Whatever passes the check, the service gets a non-empty update. */
  lemma UpdateNeverEmpty(status: Option<Json>, remark: Option<Json>)
    requires TruthyOpt(status) || TruthyOpt(remark)
    ensures UpdateData(status, remark).members != []
  {
    if TruthyOpt(status) {
      assert Field(UpdateData(status, remark), "status").Some?;
    } else {
      assert Field(UpdateData(status, remark), "remark").Some?;
    }
  }

  /** Beside a truthy status, an empty remark is still written. */
  lemma EmptyRemarkCarried()
    ensures Field(UpdateData(Some(JStr("late")), Some(JStr(""))), "remark") == Some(JStr(""))
  {
  }

  // ------------------------------------------------------------ placeholders

  /** `getStudentAttendanceRecords`: always refused. */
  const StudentRecordsReply := Respond(400, "暂不支持该查询", None)

  /** `batchUpdateAttendanceRecords`: always refused. */
  const BatchUpdateReply := Respond(400, "暂不支持批量更新", None)

  /** `exportAttendanceData`: always refused. */
  const ExportReply := Respond(400, "暂不支持数据导出", None)

  /** The three placeholder endpoints refuse every request with 400 and no data. */
  lemma PlaceholdersRefuse()
    ensures StudentRecordsReply.status == 400 && Field(StudentRecordsReply.body, "code") == Some(Int(400))
    ensures BatchUpdateReply.status == 400 && Field(BatchUpdateReply.body, "code") == Some(Int(400))
    ensures ExportReply.status == 400 && Field(ExportReply.body, "code") == Some(Int(400))
    ensures Field(StudentRecordsReply.body, "data").None? && Field(BatchUpdateReply.body, "data").None? &&
            Field(ExportReply.body, "data").None?
  {
  }
}
