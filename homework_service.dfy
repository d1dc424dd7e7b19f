/**
 * The backend's homework service, apps/backend/src/services/HomeworkService.ts:
 * publishing homework for a class, submissions with an optional file,
 * grading, the per-homework statistics and the listings.
 *
 * Homework and submissions are the typed rows the ORM stores; a response's
 * `data` is the row as JSON. The clock is the parameter `now`
 * (milliseconds), and a date the service reads with `new Date(x)` is a
 * `Time`, where an unparseable value is `InvalidDate`.
 */
module HomeworkService {
  import opened Js
  import opened BaseService

  /** `Status.Active`. */
  const Active := 1

  // ------------------------------------------------------------ createHomework

  /** `CreateHomeworkInput`: the class key the request names (None finds no class) and the homework's columns. */
  datatype HomeworkInput = HomeworkInput(classId: Option<int>, title: Json, content: Json, deadline: Time, status: Option<Json>)

  /** A stored homework. */
  datatype Homework = Homework(id: int, classId: int, title: Json, content: Json, deadline: Time, status: Json)

  /** The homework `create` stores for an input whose class was found: `status` defaults to 1. */
  function NewHomework(id: int, input: HomeworkInput): (h: Homework)
    requires input.classId.Some?
    ensures h.id == id && h.classId == input.classId.value && h.deadline == input.deadline
    ensures h.status == if input.status.Some? then input.status.value else Int(Active)
  {
    Homework(id, input.classId.value, input.title, input.content, input.deadline,
      if input.status.Some? then input.status.value else Int(Active))
  }

  /** The homework as the response's `data`. */
  function HomeworkJson(h: Homework): Json {
    JObj([("id", Int(h.id)), ("class_id", Int(h.classId)), ("title", h.title), ("content", h.content),
      ("deadline", TimeJson(h.deadline)), ("status", h.status)])
  }

  /** The class of `input` exists. */
  predicate ClassFound(classes: set<int>, input: HomeworkInput) {
    input.classId.Some? && input.classId.value in classes
  }

  /**
   * `createHomework(homeworkData)`: missing class, then a deadline not after
   * now; `fault` is where a query throws.
   */
  function CreateHomeworkReply(classes: set<int>, nextId: int, input: HomeworkInput, now: int, fault: Fault): (r: Api)
    ensures fault.BeforeWrite? ==> r == HandleError(fault.e, "作业发布失败")
    ensures fault.BeforeWrite? || ClassFound(classes, input) || r == Api(404, "班级不存在", None)
    ensures !fault.BeforeWrite? && ClassFound(classes, input) && NoLater(input.deadline, At(now)) ==>
      r == Api(400, "截止时间必须晚于当前时间", None)
    ensures r.code == 201 <==> fault.NoFault? && ClassFound(classes, input) && !NoLater(input.deadline, At(now))
    ensures r.code == 201 ==> r == Api(201, "作业发布成功", Some(HomeworkJson(NewHomework(nextId, input))))
  {
    if fault.BeforeWrite? then HandleError(fault.e, "作业发布失败")
    else if !ClassFound(classes, input) then Api(404, "班级不存在", None)
    else if NoLater(input.deadline, At(now)) then Api(400, "截止时间必须晚于当前时间", None)
    else if fault.AtInsert? then HandleError(fault.e, "作业发布失败")
    else Api(201, "作业发布成功", Some(HomeworkJson(NewHomework(nextId, input))))
  }

  /** Homework published with a valid deadline is due strictly after now. */
  lemma PublishedDeadlineIsLater(classes: set<int>, nextId: int, input: HomeworkInput, now: int, fault: Fault)
    requires input.deadline.At? && CreateHomeworkReply(classes, nextId, input, now, fault).code == 201
    ensures now < input.deadline.ms
  {
  }

  /** An unparseable deadline passes the deadline check: comparing with it is false. */
  lemma InvalidDeadlinePasses(classes: set<int>, nextId: int, input: HomeworkInput, now: int)
    requires ClassFound(classes, input) && input.deadline == InvalidDate
    ensures CreateHomeworkReply(classes, nextId, input, now, NoFault).code == 201
  {
  }

  // ------------------------------------------------------------ submitHomework

  /** `CreateHomeworkSubmissionInput`: the homework and user as posted, and the submission's columns. */
  datatype SubmissionInput = SubmissionInput(homeworkId: Json, userId: Json, filePath: Json, fileName: Json,
                                             content: Json, submitTime: Time)

  /** A stored submission. */
  datatype Submission = Submission(id: int, homework: Json, user: Json, filePath: Json, fileName: Json, content: Json,
                                   status: Json, score: Json, comment: Json, submitTime: Time)

  /** A stored file: the submission it belongs to and the upload's description. */
  datatype FileRecord = FileRecord(submission: int, file: Json)

  /** The submission `create({ ...submissionData, status: 'submitted' })` stores: not yet scored. */
  function NewSubmission(id: int, input: SubmissionInput): (s: Submission)
    ensures s.id == id && s.homework == input.homeworkId && s.user == input.userId
    ensures s.status == JStr("submitted") && s.submitTime == input.submitTime
  {
    Submission(id, input.homeworkId, input.userId, input.filePath, input.fileName, input.content,
      JStr("submitted"), JNull, JNull, input.submitTime)
  }

  /** The submission as the response's `data`. */
  function SubmissionJson(s: Submission): (j: Json)
    ensures Field(j, "id") == Some(Int(s.id))
  {
    JObj([("id", Int(s.id)), ("homework_id", s.homework), ("user_id", s.user), ("file_path", s.filePath),
      ("file_name", s.fileName), ("content", s.content), ("status", s.status), ("score", s.score),
      ("comment", s.comment), ("submit_time", TimeJson(s.submitTime))])
  }

  /** Several submissions as JSON, in order. */
  function SubmissionsJson(rows: seq<Submission>): (js: seq<Json>)
    ensures |js| == |rows| && forall i :: 0 <= i < |rows| ==> js[i] == SubmissionJson(rows[i])
  {
    if rows == [] then [] else [SubmissionJson(rows[0])] + SubmissionsJson(rows[1..])
  }

  /** The submission `findOne({ where: { homeworkId, userId } })` finds. */
  predicate Submitted(subs: map<int, Submission>, homework: Json, user: Json) {
    exists sid :: sid in subs && subs[sid].homework == homework && subs[sid].user == user
  }

  /** At most one submission per homework and user. */
  predicate OnePerPair(subs: map<int, Submission>) {
    forall a, b :: a in subs && b in subs && a != b ==> subs[a].homework != subs[b].homework || subs[a].user != subs[b].user
  }

  /** The key `findByPk(homeworkId)` looks up. */
  function HomeworkKey(input: SubmissionInput): Option<int> {
    KeyOf(Some(input.homeworkId))
  }

  /** The homework `findByPk(homeworkId)` finds. */
  predicate HomeworkFound(homeworks: map<int, Homework>, input: SubmissionInput) {
    HomeworkKey(input).Some? && HomeworkKey(input).value in homeworks
  }

  /** The homework is open: its status is 1 and now is not past its deadline. */
  predicate Open(h: Homework, now: int) {
    h.status == Int(Active) && !Earlier(h.deadline, At(now))
  }

  /** Every check `submitHomework` makes before it inserts, in the order it makes them. */
  predicate SubmitAllowed(homeworks: map<int, Homework>, members: set<(int, Json)>, subs: map<int, Submission>,
                          now: int, input: SubmissionInput)
  {
    HomeworkFound(homeworks, input) &&
    var h := homeworks[HomeworkKey(input).value];
    Open(h, now) && (h.classId, input.userId) in members && !Submitted(subs, input.homeworkId, input.userId)
  }

  /** Where `submitHomework`'s database calls can throw. */
  datatype SubmitFault = SubmitOk | LookupFails(e: DbError) | SubmissionFails(e: DbError) | FileFails(e: DbError)

  /** The submission row was written: every check passed and its insert did not throw. */
  predicate SubmissionWritten(homeworks: map<int, Homework>, members: set<(int, Json)>, subs: map<int, Submission>,
                              now: int, input: SubmissionInput, fault: SubmitFault)
  {
    !fault.LookupFails? && SubmitAllowed(homeworks, members, subs, now, input) && !fault.SubmissionFails?
  }

  /**
   * `submitHomework(submissionData, fileData)`: missing homework, closed,
   * past the deadline, not a member, already submitted, in that order. A
   * throwing file insert fails the reply after the submission was stored.
   */
  function SubmitReply(homeworks: map<int, Homework>, members: set<(int, Json)>, subs: map<int, Submission>, nextId: int,
                       now: int, input: SubmissionInput, file: Option<Json>, fault: SubmitFault): (r: Api)
    ensures fault.LookupFails? ==> r == HandleError(fault.e, "作业提交失败")
    ensures !fault.LookupFails? && PkOf(Some(input.homeworkId)).Refused? ==>
      r == HandleError(PkOf(Some(input.homeworkId)).e, "作业提交失败") && r.code == 500
    ensures !fault.LookupFails? && !PkOf(Some(input.homeworkId)).Refused? && !HomeworkFound(homeworks, input) ==>
      r == Api(404, "作业不存在", None)
    ensures !fault.LookupFails? && HomeworkFound(homeworks, input) ==>
      var h := homeworks[HomeworkKey(input).value];
      (h.status != Int(Active) ==> r == Api(400, "作业已关闭，无法提交", None)) &&
      (h.status == Int(Active) && Earlier(h.deadline, At(now)) ==> r == Api(400, "作业已过期，无法提交", None)) &&
      (Open(h, now) && (h.classId, input.userId) !in members ==> r == Api(403, "您不属于该班级，无法提交作业", None)) &&
      (Open(h, now) && (h.classId, input.userId) in members && Submitted(subs, input.homeworkId, input.userId) ==>
        r == Api(409, "您已提交过该作业，请勿重复提交", None))
    ensures r.code == 201 <==>
      SubmissionWritten(homeworks, members, subs, now, input, fault) && !(fault.FileFails? && TruthyOpt(file))
    ensures r.code == 201 ==> r == Api(201, "作业提交成功", Some(SubmissionJson(NewSubmission(nextId, input))))
  {
    if fault.LookupFails? then HandleError(fault.e, "作业提交失败")
    else if PkOf(Some(input.homeworkId)).Refused? then HandleError(PkOf(Some(input.homeworkId)).e, "作业提交失败")
    else if !HomeworkFound(homeworks, input) then Api(404, "作业不存在", None)
    else
      var h := homeworks[HomeworkKey(input).value];
      if h.status != Int(Active) then Api(400, "作业已关闭，无法提交", None)
      else if Earlier(h.deadline, At(now)) then Api(400, "作业已过期，无法提交", None)
      else if (h.classId, input.userId) !in members then Api(403, "您不属于该班级，无法提交作业", None)
      else if Submitted(subs, input.homeworkId, input.userId) then Api(409, "您已提交过该作业，请勿重复提交", None)
      else if fault.SubmissionFails? then HandleError(fault.e, "作业提交失败")
      else if fault.FileFails? && TruthyOpt(file) then HandleError(fault.e, "作业提交失败")
      else Api(201, "作业提交成功", Some(SubmissionJson(NewSubmission(nextId, input))))
  }

  /** A submission exactly at the deadline is accepted: only a deadline strictly before now closes it. */
  lemma DeadlineIsInclusive(h: Homework, now: int)
    requires h.status == Int(Active) && h.deadline == At(now)
    ensures Open(h, now)
  {
  }

  /** Adding the row of an unsubmitted pair keeps one submission per homework and user, and that pair is then submitted. */
  lemma SubmitKeepsOnePerPair(subs: map<int, Submission>, id: int, input: SubmissionInput)
    requires OnePerPair(subs) && !Submitted(subs, input.homeworkId, input.userId) && id !in subs
    ensures OnePerPair(subs[id := NewSubmission(id, input)])
    ensures Submitted(subs[id := NewSubmission(id, input)], input.homeworkId, input.userId)
  {
    var subs' := subs[id := NewSubmission(id, input)];
    forall a, b | a in subs' && b in subs' && a != b
      ensures subs'[a].homework != subs'[b].homework || subs'[a].user != subs'[b].user
    {
      if a == id {
        assert !(subs[b].homework == input.homeworkId && subs[b].user == input.userId);
      } else if b == id {
        assert !(subs[a].homework == input.homeworkId && subs[a].user == input.userId);
      }
    }
    assert subs'[id].homework == input.homeworkId && subs'[id].user == input.userId;
  }

  /** Once a submission is stored, the same user's next submission of that homework is refused with 409. */
  lemma ResubmissionRefused(homeworks: map<int, Homework>, members: set<(int, Json)>, subs: map<int, Submission>,
                            nextId: int, now: int, input: SubmissionInput, file: Option<Json>)
    requires SubmitAllowed(homeworks, members, subs, now, input) && OnePerPair(subs) && nextId !in subs
    ensures SubmitReply(homeworks, members, subs[nextId := NewSubmission(nextId, input)], nextId + 1, now, input, file, SubmitOk)
      == Api(409, "您已提交过该作业，请勿重复提交", None)
  {
    SubmitKeepsOnePerPair(subs, nextId, input);
  }

  // ------------------------------------------------------------ gradeHomework

  /** `score < 0 || score > 100` on the score's numeric value: NaN is in neither range. */
  predicate OutOfRange(n: Num) {
    n == NegInf || n == PosInf || (n.Fin? && (n.r < 0.0 || n.r > 100.0))
  }

  /** The submission after `update({ score, comment, status: 'graded' })`; an undefined comment is not written. */
  function Graded(s: Submission, score: Json, comment: Option<Json>): (g: Submission)
    ensures g.score == score && g.status == JStr("graded")
    ensures g.comment == if comment.Some? then comment.value else s.comment
    ensures g == s.(score := g.score, status := g.status, comment := g.comment)
  {
    s.(score := score, status := JStr("graded"), comment := if comment.Some? then comment.value else s.comment)
  }

  /**
   * The id `update(..., { where: { id: submissionId } })` matches: the where clause
   * treats a scalar key as `findByPk` does.
   */
  function SubmissionKey(submissionId: Json): Option<int> {
    KeyOf(Some(submissionId))
  }

  /** The update's where clause matches a stored submission. */
  predicate SubmissionFound(subs: map<int, Submission>, submissionId: Json) {
    SubmissionKey(submissionId).Some? && SubmissionKey(submissionId).value in subs
  }

  /** `gradeHomework(submissionId, score, comment)`; `num` is the number the comparisons read from `score`. */
  function GradeReply(subs: map<int, Submission>, submissionId: Json, score: Json, num: Json -> Num, comment: Option<Json>,
                      fault: Option<DbError>): (r: Api)
    ensures OutOfRange(num(score)) ==> r == Api(400, "分数必须在0-100之间", None)
    ensures !OutOfRange(num(score)) && fault.Some? ==> r == HandleError(fault.value, "作业批改失败")
    ensures !OutOfRange(num(score)) && fault.None? && PkOf(Some(submissionId)).Refused? ==>
      r == HandleError(PkOf(Some(submissionId)).e, "作业批改失败") && r.code == 500
    ensures !OutOfRange(num(score)) && fault.None? && !PkOf(Some(submissionId)).Refused? && !SubmissionFound(subs, submissionId) ==>
      r == Api(404, "作业提交不存在", None)
    ensures r.code == 200 <==>
      !OutOfRange(num(score)) && fault.None? && SubmissionKey(submissionId).Some? && SubmissionKey(submissionId).value in subs
    ensures r.code == 200 ==>
      r == Api(200, "作业批改成功", Some(SubmissionJson(Graded(subs[SubmissionKey(submissionId).value], score, comment))))
  {
    if OutOfRange(num(score)) then Api(400, "分数必须在0-100之间", None)
    else if fault.Some? then HandleError(fault.value, "作业批改失败")
    else if PkOf(Some(submissionId)).Refused? then HandleError(PkOf(Some(submissionId)).e, "作业批改失败")
    else if SubmissionKey(submissionId).None? || SubmissionKey(submissionId).value !in subs then Api(404, "作业提交不存在", None)
    else Api(200, "作业批改成功", Some(SubmissionJson(Graded(subs[SubmissionKey(submissionId).value], score, comment))))
  }

  /** The submissions after grading: the one graded row replaced when the reply is 200, else unchanged. */
  function GradedRows(subs: map<int, Submission>, submissionId: Json, score: Json, num: Json -> Num, comment: Option<Json>,
                      fault: Option<DbError>): map<int, Submission>
  {
    if GradeReply(subs, submissionId, score, num, comment, fault).code == 200 then
      var id := SubmissionKey(submissionId).value;
      subs[id := Graded(subs[id], score, comment)]
    else subs
  }

  /** Grading keeps one submission per homework and user: the graded row keeps its homework and user. */
  lemma GradeKeepsOnePerPair(subs: map<int, Submission>, id: int, score: Json, comment: Option<Json>)
    requires OnePerPair(subs) && id in subs
    ensures OnePerPair(subs[id := Graded(subs[id], score, comment)])
  {
    var g := Graded(subs[id], score, comment);
    assert g.homework == subs[id].homework && g.user == subs[id].user;
  }

  /** Grading the same submission twice with the same score and comment leaves it as the first grading did. */
  lemma RegradeIsIdempotent(s: Submission, score: Json, comment: Option<Json>)
    ensures Graded(Graded(s, score, comment), score, comment) == Graded(s, score, comment)
  {
  }

  /** A numeric value that is not a number passes the range check. */
  lemma NaNScorePasses(subs: map<int, Submission>, submissionId: Json, score: Json, num: Json -> Num, comment: Option<Json>)
    requires num(score) == NaN
    ensures GradeReply(subs, submissionId, score, num, comment, None).code != 400
  {
  }

  // ------------------------------------------------------------ listing submissions

  /** Which submissions a query selects. */
  datatype Filter = OfHomework(homework: int) | OfStudent(user: int, homeworks: Option<set<int>>)

  /** `where: { homework_id }`, or `where: { user_id, homework_id: { [Op.in]: ids } }`. */
  predicate Keeps(f: Filter, s: Submission) {
    match f
    case OfHomework(h) => s.homework == Int(h)
    case OfStudent(u, hs) => s.user == Int(u) && (hs.Some? ==> KeyOf(Some(s.homework)).Some? && KeyOf(Some(s.homework)).value in hs.value)
  }

  /**
   * The selected submissions with ids up to `top`, newest first: ids are
   * assigned in submission order, so this is `submit_time DESC`.
   */
  function Newest(subs: map<int, Submission>, top: int, f: Filter): (rows: seq<Submission>)
    decreases top
    ensures top <= 0 ==> rows == []
    ensures forall i :: 0 <= i < |rows| ==> Keeps(f, rows[i]) && rows[i] in subs.Values
    ensures forall id :: 1 <= id <= top && id in subs && Keeps(f, subs[id]) ==> subs[id] in rows
  {
    if top <= 0 then []
    else (if top in subs && Keeps(f, subs[top]) then [subs[top]] else []) + Newest(subs, top - 1, f)
  }

  /** The listing up to `top` depends only on the rows with ids 1 to `top`. */
  lemma {:induction false} NewestFrame(subs: map<int, Submission>, subs': map<int, Submission>, top: int, f: Filter)
    requires forall id :: 1 <= id <= top ==> (id in subs <==> id in subs') && (id in subs ==> subs[id] == subs'[id])
    decreases top
    ensures Newest(subs, top, f) == Newest(subs', top, f)
  {
    if top > 0 {
      NewestFrame(subs, subs', top - 1, f);
    }
  }

  /** A stored submission is listed first among its homework's, one more than before. */
  lemma SubmissionListedFirst(subs: map<int, Submission>, id: int, s: Submission, h: int)
    requires id >= 1 && (forall k :: k in subs ==> k < id) && s.homework == Int(h)
    ensures Newest(subs[id := s], id, OfHomework(h)) == [s] + Newest(subs, id - 1, OfHomework(h))
    ensures |Newest(subs[id := s], id, OfHomework(h))| == |Newest(subs, id - 1, OfHomework(h))| + 1
  {
    NewestFrame(subs[id := s], subs, id - 1, OfHomework(h));
  }

  /** No homework ids select no submissions. */
  lemma {:induction false} NoHomeworkSelectsNothing(subs: map<int, Submission>, top: int, user: int)
    decreases top
    ensures Newest(subs, top, OfStudent(user, Some({}))) == []
  {
    if top > 0 {
      NoHomeworkSelectsNothing(subs, top - 1, user);
      assert top in subs ==> !Keeps(OfStudent(user, Some({})), subs[top]);
      assert Newest(subs, top, OfStudent(user, Some({}))) == [] + Newest(subs, top - 1, OfStudent(user, Some({})));
    }
  }

  /** The ids of a class's homework. */
  function HomeworkIds(homeworks: map<int, Homework>, classId: int): (ids: set<int>)
    ensures forall id :: id in ids <==> id in homeworks && homeworks[id].classId == classId
  {
    set id | id in homeworks && homeworks[id].classId == classId
  }

  /** `getStudentSubmissions(userId, classId)`; `top` is the highest submission id assigned. */
  function StudentSubmissionsReply(homeworks: map<int, Homework>, subs: map<int, Submission>, top: int, userId: int,
                                   classId: Option<int>, fault: Option<DbError>): (r: Api)
    ensures fault.Some? ==> r == HandleError(fault.value, "获取学生作业提交失败")
    ensures fault.None? && ClassGiven(classId) && HomeworkIds(homeworks, classId.value) == {} ==>
      r == Api(200, "获取学生作业提交成功", Some(JArr([])))
    ensures fault.None? && !(ClassGiven(classId) && HomeworkIds(homeworks, classId.value) == {}) ==>
      r == Api(200, "获取学生作业提交成功", Some(JArr(SubmissionsJson(
        Newest(subs, top, OfStudent(userId, if ClassGiven(classId) then Some(HomeworkIds(homeworks, classId.value)) else None))))))
  {
    if fault.Some? then HandleError(fault.value, "获取学生作业提交失败")
    else if ClassGiven(classId) && HomeworkIds(homeworks, classId.value) == {} then
      Api(200, "获取学生作业提交成功", Some(JArr([])))
    else
      Api(200, "获取学生作业提交成功", Some(JArr(SubmissionsJson(
        Newest(subs, top, OfStudent(userId, if ClassGiven(classId) then Some(HomeworkIds(homeworks, classId.value)) else None))))))
  }

  /** The empty list a class without homework short-circuits to is what the general query would have listed. */
  lemma StudentShortcutAgrees(homeworks: map<int, Homework>, subs: map<int, Submission>, top: int, userId: int, classId: int)
    requires classId != 0 && HomeworkIds(homeworks, classId) == {}
    ensures StudentSubmissionsReply(homeworks, subs, top, userId, Some(classId), None).data ==
      Some(JArr(SubmissionsJson(Newest(subs, top, OfStudent(userId, Some(HomeworkIds(homeworks, classId)))))))
  {
    NoHomeworkSelectsNothing(subs, top, userId);
  }

  /** `getHomeworkSubmissions(homeworkId, { page, size })`. */
  function SubmissionsPageReply(homeworks: map<int, Homework>, subs: map<int, Submission>, top: int, homeworkId: int,
                                page: int, size: int, fault: Option<DbError>): (r: Api)
    ensures fault.Some? ==> r == HandleError(fault.value, "获取作业提交情况失败")
    ensures fault.None? ==> (r.code == 404 <==> homeworkId !in homeworks)
    ensures fault.None? && homeworkId in homeworks ==>
      var all := SubmissionsJson(Newest(subs, top, OfHomework(homeworkId)));
      r == Api(200, "获取作业提交情况成功", Some(PageData(Window(all, Offset(page, size), size), |all|, page, size)))
  {
    if fault.Some? then HandleError(fault.value, "获取作业提交情况失败")
    else if homeworkId !in homeworks then Api(404, "作业不存在", None)
    else
      var all := SubmissionsJson(Newest(subs, top, OfHomework(homeworkId)));
      Api(200, "获取作业提交情况成功", Some(PageData(Window(all, Offset(page, size), size), |all|, page, size)))
  }

  /** `getClassHomeworks(classId, params)`: 404 for a missing class, else the generic page query. */
  function ClassHomeworksReply(classes: set<int>, classId: int, db: (int, int) -> Query, page: int, size: int,
                               fault: Option<DbError>): (r: Api)
    ensures fault.Some? ==> r == HandleError(fault.value, "获取班级作业失败")
    ensures fault.None? && classId !in classes ==> r == Api(404, "班级不存在", None)
    ensures fault.None? && classId in classes ==> r == PageReply(db, page, size)
  {
    if fault.Some? then HandleError(fault.value, "获取班级作业失败")
    else if classId !in classes then Api(404, "班级不存在", None)
    else PageReply(db, page, size)
  }

  // ------------------------------------------------------------ getHomeworkStats

  /** `submissions.filter(s => s.status === 'graded').length`. */
  function CountGraded(rows: seq<Submission>): (n: nat)
    ensures n <= |rows|
  {
    if rows == [] then 0 else (if rows[0].status == JStr("graded") then 1 else 0) + CountGraded(rows[1..])
  }

  /** The submissions made after the deadline: `new Date(s.submit_time) > new Date(homework.deadline)`. */
  function CountOverdue(rows: seq<Submission>, deadline: Time): (n: nat)
    ensures n <= |rows|
  {
    if rows == [] then 0 else (if Earlier(deadline, rows[0].submitTime) then 1 else 0) + CountOverdue(rows[1..], deadline)
  }

  /** The members of a class: `classInfo?.Users?.length || 0`, 0 when the class is not found. */
  function ClassSize(classes: set<int>, members: set<(int, Json)>, classId: int): nat {
    if classId in classes then |set p | p in members && p.0 == classId| else 0
  }

  /** The statistics object; `rate` and `mean` give the floating-point submission rate and average score. */
  function HomeworkStats(students: nat, rows: seq<Submission>, deadline: Time,
                         rate: (nat, nat) -> Num, mean: (seq<Submission>, nat) -> Num): (j: Json)
    ensures j.JObj? && |j.members| == 7
    ensures j.members[0] == ("totalStudents", Int(students)) && j.members[1] == ("submittedCount", Int(|rows|))
    ensures j.members[2] == ("gradedCount", Int(CountGraded(rows)))
    ensures j.members[3] == ("overdueCount", Int(CountOverdue(rows, deadline)))
    ensures j.members[4] == ("notSubmittedCount", Int(students - |rows|))
    ensures students == 0 ==> j.members[5] == ("submissionRate", Int(0))
    ensures CountGraded(rows) == 0 ==> j.members[6] == ("averageScore", Int(0))
  {
    JObj([("totalStudents", Int(students)), ("submittedCount", Int(|rows|)), ("gradedCount", Int(CountGraded(rows))),
      ("overdueCount", Int(CountOverdue(rows, deadline))), ("notSubmittedCount", Int(students - |rows|)),
      ("submissionRate", if students > 0 then JNum(rate(|rows|, students)) else Int(0)),
      ("averageScore", if CountGraded(rows) > 0 then JNum(mean(rows, CountGraded(rows))) else Int(0))])
  }

  /** `getHomeworkStats(homeworkId)`. */
  function StatsReply(classes: set<int>, members: set<(int, Json)>, homeworks: map<int, Homework>, subs: map<int, Submission>,
                      top: int, homeworkId: int, rate: (nat, nat) -> Num, mean: (seq<Submission>, nat) -> Num,
                      fault: Option<DbError>): (r: Api)
    ensures fault.Some? ==> r == HandleError(fault.value, "获取作业统计失败")
    ensures fault.None? ==> (r.code == 404 <==> homeworkId !in homeworks)
    ensures fault.None? && homeworkId in homeworks ==>
      var h := homeworks[homeworkId];
      r == Api(200, "获取作业统计成功", Some(HomeworkStats(ClassSize(classes, members, h.classId),
        Newest(subs, top, OfHomework(homeworkId)), h.deadline, rate, mean)))
  {
    if fault.Some? then HandleError(fault.value, "获取作业统计失败")
    else if homeworkId !in homeworks then Api(404, "作业不存在", None)
    else
      var h := homeworks[homeworkId];
      Api(200, "获取作业统计成功", Some(HomeworkStats(ClassSize(classes, members, h.classId),
        Newest(subs, top, OfHomework(homeworkId)), h.deadline, rate, mean)))
  }

  /** `notSubmittedCount` is not clamped: one submission to a class without members makes it -1. */
  lemma NotSubmittedUnclamped(s: Submission, deadline: Time, rate: (nat, nat) -> Num, mean: (seq<Submission>, nat) -> Num)
    ensures HomeworkStats(0, [s], deadline, rate, mean).members[4] == ("notSubmittedCount", Int(-1))
  {
  }

  /** Counting over a concatenation adds the counts of the parts. */
  lemma {:induction false} CountGradedAppend(a: seq<Submission>, b: seq<Submission>)
    ensures CountGraded(a + b) == CountGraded(a) + CountGraded(b)
  {
    if a == [] {
      assert a + b == b;
    } else {
      assert (a + b)[0] == a[0];
      assert (a + b)[1..] == a[1..] + b;
      CountGradedAppend(a[1..], b);
    }
  }

  /** A new submission raises its homework's submitted count by one and leaves the graded count as it was. */
  lemma SubmissionCounted(subs: map<int, Submission>, id: int, input: SubmissionInput, h: int)
    requires id >= 1 && (forall k :: k in subs ==> k < id) && input.homeworkId == Int(h)
    ensures var before := Newest(subs, id - 1, OfHomework(h));
      var after := Newest(subs[id := NewSubmission(id, input)], id, OfHomework(h));
      |after| == |before| + 1 && CountGraded(after) == CountGraded(before)
  {
    var s := NewSubmission(id, input);
    SubmissionListedFirst(subs, id, s, h);
    CountGradedAppend([s], Newest(subs, id - 1, OfHomework(h)));
  }

  // ------------------------------------------------------------ updateHomeworkStatus

  /** The homework table as the rows `update(homeworkId, { status })` patches. */
  function HomeworkRows(homeworks: map<int, Homework>): (rows: map<int, Json>)
    ensures rows.Keys == homeworks.Keys
    ensures forall id :: id in homeworks ==> rows[id] == HomeworkJson(homeworks[id])
  {
    map id | id in homeworks :: HomeworkJson(homeworks[id])
  }

  /** Patching a homework row's `status` gives the row of the homework with that status. */
  lemma StatusPatch(h: Homework, status: Json)
    ensures JObj(Patched(Members(HomeworkJson(h)), Members(JObj([("status", status)])))) == HomeworkJson(h.(status := status))
  {
    var ms := Members(HomeworkJson(h));
    assert "id"[0] != "status"[0] && "class_id"[0] != "status"[0] && "title"[0] != "status"[0];
    assert "content"[0] != "status"[0] && "deadline"[0] != "status"[0];
    PutInPlace(ms, 5, "status", status);
  }

  /** The homework table after the status update: the one homework takes the status when the update ran. */
  function StatusUpdated(homeworks: map<int, Homework>, id: int, status: Json, fault: Option<DbError>): (hs: map<int, Homework>)
    ensures hs.Keys == homeworks.Keys
    ensures forall k :: k in homeworks ==> hs[k] == homeworks[k].(status := hs[k].status)
  {
    if fault.None? && id in homeworks then homeworks[id := homeworks[id].(status := status)] else homeworks
  }

  /** The typed update is the generic row update `BaseService.update` performs. */
  lemma StatusUpdatedRows(homeworks: map<int, Homework>, id: int, status: Json, fault: Option<DbError>)
    ensures HomeworkRows(StatusUpdated(homeworks, id, status, fault)) ==
      UpdatedRows(HomeworkRows(homeworks), id, JObj([("status", status)]), fault)
  {
    if fault.None? && id in homeworks {
      var rows := HomeworkRows(homeworks);
      var after := HomeworkRows(homeworks[id := homeworks[id].(status := status)]);
      var target := rows[id := JObj(Patched(Members(rows[id]), Members(JObj([("status", status)]))))];
      forall k | k in after
        ensures after[k] == target[k]
      {
        if k == id {
          StatusPatch(homeworks[id], status);
        }
      }
      assert after == target;
    }
  }

  // ------------------------------------------------------------ the store

  /** The tables the service reads and writes. */
  class HomeworkStore {
    var classes: set<int>
    /** (class, user) pairs of the class–student association. */
    var members: set<(int, Json)>
    var homeworks: map<int, Homework>
    var nextHomeworkId: int
    var subs: map<int, Submission>
    var nextSubmissionId: int
    var files: seq<FileRecord>

    /** Each row sits under its own id, ids are assigned below the next one, and each user submits once per homework. */
    predicate Valid()
      reads this
    {
      nextHomeworkId >= 1 && nextSubmissionId >= 1 &&
      (forall id :: id in homeworks ==> 0 < id < nextHomeworkId && homeworks[id].id == id) &&
      (forall id :: id in subs ==> 0 < id < nextSubmissionId && subs[id].id == id) &&
      OnePerPair(subs)
    }

    constructor (classes: set<int>, members: set<(int, Json)>)
      ensures Valid() && this.classes == classes && this.members == members
      ensures homeworks == map[] && subs == map[] && files == []
    {
      this.classes := classes;
      this.members := members;
      homeworks := map[];
      nextHomeworkId := 1;
      subs := map[];
      nextSubmissionId := 1;
      files := [];
    }

    /** `createHomework`: the homework is stored only when the reply is 201. */
    method CreateHomework(input: HomeworkInput, now: int, fault: Fault) returns (r: Api)
      requires Valid()
      modifies this
      ensures Valid()
      ensures r == CreateHomeworkReply(old(classes), old(nextHomeworkId), input, now, fault)
      ensures homeworks == if r.code == 201 then old(homeworks)[old(nextHomeworkId) := NewHomework(old(nextHomeworkId), input)]
        else old(homeworks)
      ensures nextHomeworkId == if r.code == 201 then old(nextHomeworkId) + 1 else old(nextHomeworkId)
      ensures classes == old(classes) && members == old(members) && subs == old(subs) && files == old(files)
      ensures nextSubmissionId == old(nextSubmissionId)
    {
      r := CreateHomeworkReply(classes, nextHomeworkId, input, now, fault);
      if r.code == 201 {
        homeworks := homeworks[nextHomeworkId := NewHomework(nextHomeworkId, input)];
        nextHomeworkId := nextHomeworkId + 1;
      }
    }

    /**
     * `submitHomework`: the submission is stored once every check passed and
     * its insert succeeded, even when the file insert after it throws; the
     * file row is stored only for a truthy `file`.
     */
    method SubmitHomework(now: int, input: SubmissionInput, file: Option<Json>, fault: SubmitFault) returns (r: Api)
      requires Valid()
      modifies this
      ensures Valid()
      ensures r == SubmitReply(old(homeworks), old(members), old(subs), old(nextSubmissionId), now, input, file, fault)
      ensures var written := SubmissionWritten(old(homeworks), old(members), old(subs), now, input, fault);
        subs == (if written then old(subs)[old(nextSubmissionId) := NewSubmission(old(nextSubmissionId), input)] else old(subs)) &&
        nextSubmissionId == (if written then old(nextSubmissionId) + 1 else old(nextSubmissionId)) &&
        files == if written && TruthyOpt(file) && !fault.FileFails? then old(files) + [FileRecord(old(nextSubmissionId), file.value)]
          else old(files)
      ensures classes == old(classes) && members == old(members) && homeworks == old(homeworks)
      ensures nextHomeworkId == old(nextHomeworkId)
    {
      r := SubmitReply(homeworks, members, subs, nextSubmissionId, now, input, file, fault);
      if SubmissionWritten(homeworks, members, subs, now, input, fault) {
        SubmitKeepsOnePerPair(subs, nextSubmissionId, input);
        var sid := nextSubmissionId;
        subs := subs[sid := NewSubmission(sid, input)];
        nextSubmissionId := sid + 1;
        if TruthyOpt(file) && !fault.FileFails? {
          files := files + [FileRecord(sid, file.value)];
        }
      }
    }

    /** `gradeHomework`: the submission is graded only when the reply is 200. */
    method GradeHomework(submissionId: Json, score: Json, num: Json -> Num, comment: Option<Json>, fault: Option<DbError>)
      returns (r: Api)
      requires Valid()
      modifies this
      ensures Valid()
      ensures r == GradeReply(old(subs), submissionId, score, num, comment, fault)
      ensures subs == GradedRows(old(subs), submissionId, score, num, comment, fault)
      ensures classes == old(classes) && members == old(members) && homeworks == old(homeworks) && files == old(files)
      ensures nextHomeworkId == old(nextHomeworkId) && nextSubmissionId == old(nextSubmissionId)
    {
      r := GradeReply(subs, submissionId, score, num, comment, fault);
      if r.code == 200 {
        var id := SubmissionKey(submissionId).value;
        GradeKeepsOnePerPair(subs, id, score, comment);
        ReplaceSubmission(id, Graded(subs[id], score, comment));
      }
    }

    /** Writes a submission row back under its own id, keeping one submission per homework and user. */
    method ReplaceSubmission(id: int, row: Submission)
      requires Valid() && id in subs && row.id == id && OnePerPair(subs[id := row])
      modifies this
      ensures Valid() && subs == old(subs)[id := row]
      ensures classes == old(classes) && members == old(members) && homeworks == old(homeworks) && files == old(files)
      ensures nextHomeworkId == old(nextHomeworkId) && nextSubmissionId == old(nextSubmissionId)
    {
      subs := subs[id := row];
    }

    /** `updateHomeworkStatus(homeworkId, status)`, with a failed update reported as the failure it is. */
    method UpdateHomeworkStatus(id: int, status: Json, fault: Option<DbError>) returns (r: Api)
      requires Valid()
      modifies this
      ensures Valid()
      ensures r == StatusUpdate(HomeworkRows(old(homeworks)), id, status, fault, "作业状态更新成功")
      ensures homeworks == StatusUpdated(old(homeworks), id, status, fault)
      ensures HomeworkRows(homeworks) == UpdatedRows(HomeworkRows(old(homeworks)), id, JObj([("status", status)]), fault)
      ensures classes == old(classes) && members == old(members) && subs == old(subs) && files == old(files)
      ensures nextHomeworkId == old(nextHomeworkId) && nextSubmissionId == old(nextSubmissionId)
    {
      r := StatusUpdate(HomeworkRows(homeworks), id, status, fault, "作业状态更新成功");
      StatusUpdatedRows(homeworks, id, status, fault);
      homeworks := StatusUpdated(homeworks, id, status, fault);
    }
  }
}
