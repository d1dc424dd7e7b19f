/**
 * The backend's homework controller,
 * apps/backend/src/controllers/HomeworkController.ts: the checks made on
 * path parameters and bodies before the homework service is called, the
 * file information picked out of an upload, and the search of a submission
 * list for one student.
 *
 * The service calls are parameters returning an envelope or throwing.
 */
module HomeworkController {
  import opened Js
  import Koa
  import opened BaseService
  import opened BaseController
  import HomeworkService

  /** The fields `createHomework` requires. */
  const HomeworkFields: seq<string> := ["classId", "title", "content", "deadline"]

  /** The fields `submitHomework` requires. */
  const SubmissionFields: seq<string> := ["homeworkId", "userId"]

  /** The 400 for a non-numeric homework id. */
  const BadHomeworkId := "作业ID必须是数字"

  /** `createHomework`. */
  function CreateHomework(body: Option<Json>, service: Json -> Outcome): Reply {
    Validated(HomeworkFields, "发布作业失败", body, service)
  }

  /** A homework without a deadline is refused with 400 before the service is called. */
  lemma HomeworkNeedsDeadline(body: Json, service: Json -> Outcome)
    requires !body.JNull? && !TruthyOpt(Field(body, "deadline"))
    ensures CreateHomework(Some(body), service) == MissingReply(Missing(HomeworkFields, body))
    ensures "deadline" in Missing(HomeworkFields, body)
  {
    MissingRefused(HomeworkFields, body, "deadline");
  }

  // ------------------------------------------------------------ submitHomework

  /** The `fileInfo` object passed to the service; each member may be undefined. */
  datatype FileInfo = FileInfo(fileName: Option<Json>, filePath: Option<Json>, fileSize: Option<Json>, fileType: Option<Json>)

  /** `fileInfo` built from one uploaded file, preferring multer's names over formidable's. */
  function Info(file: Json): (i: FileInfo)
    ensures i.fileName == OrElse(Field(file, "originalname"), Field(file, "name"))
    ensures i.filePath == OrElse(Field(file, "path"), Field(file, "filepath"))
    ensures i.fileSize == Field(file, "size")
    ensures i.fileType == OrElse(Field(file, "mimetype"), Field(file, "type"))
  {
    FileInfo(OrElse(Field(file, "originalname"), Field(file, "name")),
             OrElse(Field(file, "path"), Field(file, "filepath")),
             Field(file, "size"),
             OrElse(Field(file, "mimetype"), Field(file, "type")))
  }

  /** What the upload yields: no file, the file's information, or a throw reading an absent first element. */
  datatype Picked = NoFile | Picked(info: FileInfo) | PickThrows

  /** `ctx.request.files?.file`, then its first element when it is an array. */
  function PickFile(files: Option<Json>): (p: Picked)
    ensures !TruthyOpt(OptField(files, "file")) ==> p == NoFile
    ensures TruthyOpt(OptField(files, "file")) && !OptField(files, "file").value.JArr? ==>
      p == Picked(Info(OptField(files, "file").value))
    ensures TruthyOpt(OptField(files, "file")) && OptField(files, "file").value.JArr? ==>
      var items := OptField(files, "file").value.items;
      (items == [] || items[0].JNull? ==> p == PickThrows) &&
      (items != [] && !items[0].JNull? ==> p == Picked(Info(items[0])))
  {
    var data := OptField(files, "file");
    if !TruthyOpt(data) then NoFile
    else if !data.value.JArr? then Picked(Info(data.value))
    else if data.value.items == [] || data.value.items[0].JNull? then PickThrows
    else Picked(Info(data.value.items[0]))
  }

  /** `submitHomework`: the two ids must be truthy, then the optional file goes to the service. */
  function SubmitHomework(body: Option<Json>, files: Option<Json>, service: (Json, Option<FileInfo>) -> Outcome): (r: Reply)
    ensures Nullish(body) ==> r == ServerError("提交作业失败", None)
    ensures !Nullish(body) && RequiredCheck(SubmissionFields, body.value).Some? ==> r.status == 400
    ensures !Nullish(body) && RequiredCheck(SubmissionFields, body.value).None? ==>
      (PickFile(files).PickThrows? ==> r == ServerError("提交作业失败", None)) &&
      (PickFile(files).NoFile? ==> r == Finish(service(body.value, None), "提交作业失败")) &&
      (PickFile(files).Picked? ==> r == Finish(service(body.value, Some(PickFile(files).info)), "提交作业失败"))
  {
    var check := RequiredIn(SubmissionFields, body, "提交作业失败");
    if check.Some? then check.value
    else
      match PickFile(files)
      case PickThrows => ServerError("提交作业失败", None)
      case NoFile => Finish(service(body.value, None), "提交作业失败")
      case Picked(info) => Finish(service(body.value, Some(info)), "提交作业失败")
  }

  /** An upload field holding an empty list makes the handler throw, and the student gets the 500. */
  lemma EmptyUploadListFails(body: Json, service: (Json, Option<FileInfo>) -> Outcome)
    requires !body.JNull? && TruthyOpt(Field(body, "homeworkId")) && TruthyOpt(Field(body, "userId"))
    ensures SubmitHomework(Some(body), Some(JObj([("file", JArr([]))])), service) == ServerError("提交作业失败", None)
  {
    NoneMissing(SubmissionFields, body);
    assert RequiredCheck(SubmissionFields, body).None?;
    var files := JObj([("file", JArr([]))]);
    assert OptField(Some(files), "file") == Some(JArr([]));
    assert PickFile(Some(files)) == PickThrows;
  }

  /** Of several uploaded files only the first is described to the service. */
  lemma FirstUploadTaken(f: Json, g: Json)
    requires !f.JNull?
    ensures PickFile(Some(JObj([("file", JArr([f, g]))]))) == Picked(Info(f))
  {
  }

  // ------------------------------------------------------------ lists by id

  /** `getClassHomeworks`. */
  function GetClassHomeworks(classId: Option<Json>, query: map<string, Json>, service: (int, int, int) -> Outcome): Reply {
    PagedById(classId, "班级ID必须是数字", query, "获取班级作业列表失败", service)
  }

  /** `getHomeworkSubmissions`. */
  function GetHomeworkSubmissions(homeworkId: Option<Json>, query: map<string, Json>, service: (int, int, int) -> Outcome): Reply {
    PagedById(homeworkId, BadHomeworkId, query, "获取作业提交情况失败", service)
  }

  /** `getHomeworkStats`. */
  function GetHomeworkStats(homeworkId: Option<Json>, service: int -> Outcome): Reply {
    ById(homeworkId, BadHomeworkId, "获取作业统计信息失败", service)
  }

  /** `deleteHomework`. */
  function DeleteHomework(homeworkId: Option<Json>, service: int -> Outcome): Reply {
    ById(homeworkId, BadHomeworkId, "删除作业失败", service)
  }

  /** `getHomeworkDetail`. */
  function GetHomeworkDetail(homeworkId: Option<Json>, service: int -> Outcome): Reply {
    ById(homeworkId, BadHomeworkId, "获取作业详情失败", service)
  }

  /** `updateHomework`: the body is handed on as it is, even when absent. */
  function UpdateHomework(homeworkId: Option<Json>, body: Option<Json>, service: (int, Option<Json>) -> Outcome): (r: Reply)
    ensures ParseIntValue(homeworkId).None? ==> r == Respond(400, BadHomeworkId, None)
    ensures ParseIntValue(homeworkId).Some? ==> r == Finish(service(ParseIntValue(homeworkId).value, body), "更新作业失败")
  {
    ById(homeworkId, BadHomeworkId, "更新作业失败", n => service(n, body))
  }

  /** `getStudentSubmissions`, rejecting a class id that is not a number as its message intends. */
  function GetStudentSubmissions(userId: Option<Json>, query: map<string, Json>, service: (int, Option<Json>) -> Outcome): (r: Reply)
    ensures ParseIntValue(userId).None? ==> r == Respond(400, "用户ID必须是数字", None)
    ensures ParseIntValue(userId).Some? && BadClassId(OptionalInt(Koa.Prop(query, "classId"))) ==>
      r == Respond(400, "班级ID必须是数字", None)
    ensures ParseIntValue(userId).Some? && !BadClassId(OptionalInt(Koa.Prop(query, "classId"))) ==>
      r == Finish(service(ParseIntValue(userId).value, OptionalInt(Koa.Prop(query, "classId"))), "获取学生作业提交情况失败")
  {
    var n := ParseIntValue(userId);
    if n.None? then Respond(400, "用户ID必须是数字", None)
    else
      var classId := OptionalInt(Koa.Prop(query, "classId"));
      if BadClassId(classId) then Respond(400, "班级ID必须是数字", None)
      else Finish(service(n.value, classId), "获取学生作业提交情况失败")
  }

  // ------------------------------------------------------------ gradeHomework

  /**
   * `gradeHomework`: a truthy submission id and a defined score, then the
   * score's range; `num` is the number the comparisons read from the score.
   */
  function GradeHomework(body: Option<Json>, num: Json -> Num, service: (Json, Json, Option<Json>) -> Outcome): (r: Reply)
    ensures Nullish(body) ==> r == ServerError("批改作业失败", None)
    ensures !Nullish(body) ==>
      var id := Field(body.value, "submissionId");
      var score := Field(body.value, "score");
      (!TruthyOpt(id) || score.None? ==> r == Respond(400, "提交ID和分数不能为空", None)) &&
      (TruthyOpt(id) && score.Some? && HomeworkService.OutOfRange(num(score.value)) ==>
        r == Respond(400, "分数必须在0-100之间", None)) &&
      (TruthyOpt(id) && score.Some? && !HomeworkService.OutOfRange(num(score.value)) ==>
        r == Finish(service(id.value, score.value, Field(body.value, "comment")), "批改作业失败"))
  {
    if Nullish(body) then ServerError("批改作业失败", None)
    else
      var id := Field(body.value, "submissionId");
      var score := Field(body.value, "score");
      if !TruthyOpt(id) || score.None? then Respond(400, "提交ID和分数不能为空", None)
      else if HomeworkService.OutOfRange(num(score.value)) then Respond(400, "分数必须在0-100之间", None)
      else Finish(service(id.value, score.value, Field(body.value, "comment")), "批改作业失败")
  }

  /** Only `undefined` counts as a missing score: a null score, which compares as 0, reaches the service. */
  lemma NullScoreReachesService(num: Json -> Num, service: (Json, Json, Option<Json>) -> Outcome)
    requires num(JNull) == Fin(0.0)
    ensures GradeHomework(Some(JObj([("submissionId", Int(7)), ("score", JNull)])), num, service)
      == Finish(service(Int(7), JNull, None), "批改作业失败")
  {
    var b := JObj([("submissionId", Int(7)), ("score", JNull)]);
    assert "score"[1] != "submissionId"[1] && "comment"[0] != "submissionId"[0] && "comment"[0] != "score"[0];
    assert Field(b, "submissionId") == Some(Int(7));
    assert Field(b, "score") == Some(JNull);
    assert Field(b, "comment") == None;
  }

  // ------------------------------------------------------------ updateHomeworkStatus

  /** `updateHomeworkStatus`: a numeric id, then a status of exactly 0 or 1. */
  function UpdateHomeworkStatus(homeworkId: Option<Json>, body: Option<Json>, service: (int, Json) -> Outcome): (r: Reply)
    ensures ParseIntValue(homeworkId).None? ==> r == Respond(400, BadHomeworkId, None)
    ensures ParseIntValue(homeworkId).Some? && Nullish(body) ==> r == ServerError("更新作业状态失败", None)
    ensures ParseIntValue(homeworkId).Some? && !Nullish(body) ==>
      var status := Field(body.value, "status");
      (!StatusAllowed(status) ==> r == Respond(400, "状态必须是0(禁用)或1(启用)", None)) &&
      (StatusAllowed(status) ==> r == Finish(service(ParseIntValue(homeworkId).value, status.value), "更新作业状态失败"))
  {
    var n := ParseIntValue(homeworkId);
    if n.None? then Respond(400, BadHomeworkId, None)
    else if Nullish(body) then ServerError("更新作业状态失败", None)
    else
      var status := Field(body.value, "status");
      if !StatusAllowed(status) then Respond(400, "状态必须是0(禁用)或1(启用)", None)
      else Finish(service(n.value, status.value), "更新作业状态失败")
  }

  // ------------------------------------------------------------ getStudentHomeworkDetail

  /** `s.user_id === userId`. */
  predicate OfUser(s: Json, userId: int) {
    Field(s, "user_id") == Some(Int(userId))
  }

  /** What `rows.find(s => s.user_id === userId)` does: the first match, none, or a throw on a null row. */
  datatype Search = Match(index: nat) | NoMatch | NullRow(index: nat)

  /** `rows.find(s => s.user_id === userId)`, scanning from `from`. */
  function Find(rows: seq<Json>, userId: int, from: nat): (f: Search)
    requires from <= |rows|
    decreases |rows| - from
    ensures f.Match? ==> from <= f.index < |rows| && OfUser(rows[f.index], userId)
    ensures f.NullRow? ==> from <= f.index < |rows| && rows[f.index].JNull?
    ensures f.Match? || f.NullRow? ==>
      forall j :: from <= j < f.index ==> !rows[j].JNull? && !OfUser(rows[j], userId)
    ensures f.NoMatch? <==> forall j :: from <= j < |rows| ==> !rows[j].JNull? && !OfUser(rows[j], userId)
  {
    if from == |rows| then NoMatch
    else if rows[from].JNull? then NullRow(from)
    else if OfUser(rows[from], userId) then Match(from)
    else Find(rows, userId, from + 1)
  }

  /** The failure message of `getStudentHomeworkDetail`. */
  const DetailFailure := "获取学生作业详情失败"

  /**
   * `getStudentHomeworkDetail`: the first 100 submissions of the homework
   * are searched for the student's; `list` is `getHomeworkSubmissions`.
   */
  function GetStudentHomeworkDetail(homeworkId: Option<Json>, userId: Option<Json>, list: (int, int, int) -> Outcome): (r: Reply)
    ensures ParseIntValue(homeworkId).None? || ParseIntValue(userId).None? ==>
      r == Respond(400, "作业ID和用户ID必须是数字", None)
    ensures ParseIntValue(homeworkId).Some? && ParseIntValue(userId).Some? ==>
      var l := list(ParseIntValue(homeworkId).value, 1, 100);
      (l.Threw? ==> r == ServerError(DetailFailure, None)) &&
      (l.Returned? && (l.api.code != 200 || !TruthyOpt(l.api.data)) ==> r == Handled(l.api))
    ensures (ParseIntValue(homeworkId).Some? && ParseIntValue(userId).Some? &&
             list(ParseIntValue(homeworkId).value, 1, 100).Returned? &&
             list(ParseIntValue(homeworkId).value, 1, 100).api.code == 200 &&
             TruthyOpt(list(ParseIntValue(homeworkId).value, 1, 100).api.data)) ==>
      var rows := Field(list(ParseIntValue(homeworkId).value, 1, 100).api.data.value, "data");
      (!(rows.Some? && rows.value.JArr?) ==> r == ServerError(DetailFailure, None)) &&
      (rows.Some? && rows.value.JArr? ==>
        var f := Find(rows.value.items, ParseIntValue(userId).value, 0);
        (f.NullRow? ==> r == ServerError(DetailFailure, None)) &&
        (f.NoMatch? ==> r == Respond(404, "未找到该学生的提交", None)) &&
        (f.Match? ==> r == Respond(200, "获取学生作业详情成功", Some(rows.value.items[f.index]))))
  {
    var h := ParseIntValue(homeworkId);
    var u := ParseIntValue(userId);
    if h.None? || u.None? then Respond(400, "作业ID和用户ID必须是数字", None)
    else
      var l := list(h.value, 1, 100);
      if l.Threw? then ServerError(DetailFailure, None)
      else if l.api.code != 200 || !TruthyOpt(l.api.data) then Handled(l.api)
      else
        var rows := Field(l.api.data.value, "data");
        if !(rows.Some? && rows.value.JArr?) then ServerError(DetailFailure, None)
        else
          match Find(rows.value.items, u.value, 0)
          case NullRow(_) => ServerError(DetailFailure, None)
          case NoMatch => Respond(404, "未找到该学生的提交", None)
          case Match(i) => Respond(200, "获取学生作业详情成功", Some(rows.value.items[i]))
  }
}
