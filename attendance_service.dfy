/**
 * The backend's attendance service, apps/backend/src/services/AttendanceService.ts:
 * attendance tasks of a class, check-in records of students, the per-student
 * and per-class status counters, and record updates.
 *
 * The clock is the parameter `now` (milliseconds); a date the service builds
 * with `new Date(x)` is a `Time`, where an unparseable value is `InvalidDate`
 * and compares false with everything, as a NaN date does in JavaScript.
 */
module AttendanceService {
  import opened Js
  import opened BaseService

  /** `Status.Active`. */
  const Active := 1

  // ------------------------------------------------------------ tasks

  /**
   * `CreateAttendanceTaskInput`: the class key the request names (None finds no
   * class) and the task's columns; `status` is None when the body leaves it undefined.
   */
  datatype TaskInput = TaskInput(classId: Option<int>, taskName: Json, taskType: Json, startTime: Time, endTime: Time, status: Option<Json>)

  /** A stored attendance task. */
  datatype Task = Task(id: int, classId: int, taskName: Json, taskType: Json, startTime: Time, endTime: Time, status: Json)

  /**
   * The task `create` stores for an input whose class was found: Sequelize
   * applies the column default 1 to an undefined `status`.
   */
  function NewTask(id: int, input: TaskInput): (t: Task)
    requires input.classId.Some?
    ensures t.id == id && t.classId == input.classId.value
    ensures t.startTime == input.startTime && t.endTime == input.endTime
    ensures t.status == if input.status.Some? then input.status.value else Int(Active)
  {
    Task(id, input.classId.value, input.taskName, input.taskType, input.startTime, input.endTime,
      if input.status.Some? then input.status.value else Int(Active))
  }

  /** The task as the response's `data`. */
  function TaskJson(t: Task): (j: Json)
    ensures Field(j, "id") == Some(Int(t.id))
  {
    JObj([("id", Int(t.id)), ("class_id", Int(t.classId)), ("task_name", t.taskName), ("task_type", t.taskType),
      ("start_time", TimeJson(t.startTime)), ("end_time", TimeJson(t.endTime)), ("status", t.status)])
  }

  /** The class of `input` exists. */
  predicate ClassFound(classes: set<int>, input: TaskInput) {
    input.classId.Some? && input.classId.value in classes
  }

  /**
   * `createAttendanceTask(taskData)`: missing class, start before now, end not
   * after start, in that order; `fault` is where a query throws.
   */
  function CreateTaskReply(classes: set<int>, nextId: int, input: TaskInput, now: int, fault: Fault): (r: Api)
    ensures fault.BeforeWrite? ==> r == HandleError(fault.e, "考勤任务创建失败")
    ensures fault.BeforeWrite? || ClassFound(classes, input) || r == Api(404, "班级不存在", None)
    ensures !fault.BeforeWrite? && ClassFound(classes, input) && Earlier(input.startTime, At(now)) ==>
      r == Api(400, "开始时间不能早于当前时间", None)
    ensures !fault.BeforeWrite? && ClassFound(classes, input) && !Earlier(input.startTime, At(now)) &&
            NoLater(input.endTime, input.startTime) ==>
      r == Api(400, "结束时间必须晚于开始时间", None)
    ensures r.code == 201 <==>
      fault.NoFault? && ClassFound(classes, input) &&
      !Earlier(input.startTime, At(now)) && !NoLater(input.endTime, input.startTime)
    ensures r.code == 201 ==> r == Api(201, "考勤任务创建成功", Some(TaskJson(NewTask(nextId, input))))
  {
    if fault.BeforeWrite? then HandleError(fault.e, "考勤任务创建失败")
    else if !ClassFound(classes, input) then Api(404, "班级不存在", None)
    else if Earlier(input.startTime, At(now)) then Api(400, "开始时间不能早于当前时间", None)
    else if NoLater(input.endTime, input.startTime) then Api(400, "结束时间必须晚于开始时间", None)
    else if fault.AtInsert? then HandleError(fault.e, "考勤任务创建失败")
    else Api(201, "考勤任务创建成功", Some(TaskJson(NewTask(nextId, input))))
  }

  /** A task created with two valid dates starts no earlier than now and ends after it starts. */
  lemma CreatedTimesAreOrdered(classes: set<int>, nextId: int, input: TaskInput, now: int, fault: Fault)
    requires input.startTime.At? && input.endTime.At?
    requires CreateTaskReply(classes, nextId, input, now, fault).code == 201
    ensures now <= input.startTime.ms < input.endTime.ms
  {
  }

  /**
   * A task created without a status is active: inside its window, a member who
   * has not checked in yet is admitted by check-in.
   */
  lemma StatuslessTaskAdmits(tasks: map<int, Task>, records: seq<Record>, members: set<(int, Json)>, id: int,
                             input: TaskInput, now: int, userId: Json)
    requires forall k :: k in tasks ==> tasks[k].id == k
    requires input.classId.Some? && input.status.None?
    requires InWindow(NewTask(id, input), now) && !CheckedIn(records, id, userId) && (input.classId.value, userId) in members
    ensures CheckInAllowed(tasks[id := NewTask(id, input)], records, members, now, Int(id), userId)
  {
    NumberKey(id);
  }

  /** An unparseable start or end date passes both date checks: comparisons with it are false. */
  lemma InvalidDatesPassChecks(classes: set<int>, nextId: int, input: TaskInput, now: int)
    requires ClassFound(classes, input) && input.startTime == InvalidDate
    ensures CreateTaskReply(classes, nextId, input, now, NoFault).code == 201
  {
  }

  // ------------------------------------------------------------ check-in

  /** A check-in record: the task, the user, the status and the remark. */
  datatype Record = Record(id: int, task: int, user: Json, status: Json, remark: Json)

  /** The record as the response's `data`. */
  function RecordJson(rec: Record): (j: Json)
    ensures Field(j, "id") == Some(Int(rec.id))
  {
    JObj([("id", Int(rec.id)), ("attendanceTaskId", Int(rec.task)), ("userId", rec.user),
      ("status", rec.status), ("remark", rec.remark)])
  }

  /** `findOne({ where: { attendanceTaskId, userId } })` finds a record. */
  predicate CheckedIn(records: seq<Record>, task: int, user: Json) {
    exists i :: 0 <= i < |records| && records[i].task == task && records[i].user == user
  }

  /** At most one record per task and user. */
  predicate OnePerPair(records: seq<Record>) {
    forall i, j :: 0 <= i < j < |records| ==> records[i].task != records[j].task || records[i].user != records[j].user
  }

  /** The record `create` stores: `status` defaults to 'normal' and the remark is `remark || ''`. */
  function NewRecord(id: int, task: int, user: Json, status: Option<Json>, remark: Option<Json>): (rec: Record)
    ensures rec.id == id && rec.task == task && rec.user == user
    ensures rec.status == if status.Some? then status.value else JStr("normal")
    ensures rec.remark == if TruthyOpt(remark) then remark.value else JStr("")
  {
    Record(id, task, user, if status.Some? then status.value else JStr("normal"),
      if TruthyOpt(remark) then remark.value else JStr(""))
  }

  /** The task a `findByPk(taskId)` finds. */
  predicate TaskFound(tasks: map<int, Task>, taskId: Json) {
    KeyOf(Some(taskId)).Some? && KeyOf(Some(taskId)).value in tasks
  }

  /** The check-in window test on a found task: neither before its start nor after its end. */
  predicate InWindow(t: Task, now: int) {
    !Earlier(At(now), t.startTime) && !Earlier(t.endTime, At(now))
  }

  /** Every check `checkIn` makes before it inserts the record. */
  predicate CheckInAllowed(tasks: map<int, Task>, records: seq<Record>, members: set<(int, Json)>,
                           now: int, taskId: Json, userId: Json)
  {
    TaskFound(tasks, taskId) &&
    var t := tasks[KeyOf(Some(taskId)).value];
    t.status == Int(Active) && InWindow(t, now) && !CheckedIn(records, t.id, userId) && (t.classId, userId) in members
  }

  /**
   * `checkIn(taskId, userId, status, remark)`: missing task, inactive task,
   * not yet started, already ended, already checked in, not a member of the
   * task's class, in that order; `members` holds (class, user) pairs.
   */
  function CheckInReply(tasks: map<int, Task>, records: seq<Record>, members: set<(int, Json)>, nextId: int, now: int,
                        taskId: Json, userId: Json, status: Option<Json>, remark: Option<Json>, fault: Fault): (r: Api)
    requires forall k :: k in tasks ==> tasks[k].id == k
    ensures fault.BeforeWrite? ==> r == HandleError(fault.e, "打卡失败")
    ensures !fault.BeforeWrite? && PkOf(Some(taskId)).Refused? ==> r == HandleError(PkOf(Some(taskId)).e, "打卡失败") && r.code == 500
    ensures !fault.BeforeWrite? && !PkOf(Some(taskId)).Refused? && !TaskFound(tasks, taskId) ==> r == Api(404, "考勤任务不存在", None)
    ensures !fault.BeforeWrite? && TaskFound(tasks, taskId) ==>
      var t := tasks[KeyOf(Some(taskId)).value];
      (t.status != Int(Active) ==> r == Api(400, "考勤任务未激活", None)) &&
      (t.status == Int(Active) && Earlier(At(now), t.startTime) ==> r == Api(400, "考勤尚未开始", None)) &&
      (t.status == Int(Active) && !Earlier(At(now), t.startTime) && Earlier(t.endTime, At(now)) ==>
        r == Api(400, "考勤已结束", None)) &&
      (t.status == Int(Active) && InWindow(t, now) && CheckedIn(records, t.id, userId) ==>
        r == Api(409, "您已打过卡，请勿重复打卡", None)) &&
      (t.status == Int(Active) && InWindow(t, now) && !CheckedIn(records, t.id, userId) && (t.classId, userId) !in members ==>
        r == Api(403, "您不属于该班级，无法打卡", None))
    ensures r.code == 201 <==> fault.NoFault? && CheckInAllowed(tasks, records, members, now, taskId, userId)
    ensures r.code == 201 ==>
      r == Api(201, "打卡成功", Some(RecordJson(NewRecord(nextId, KeyOf(Some(taskId)).value, userId, status, remark))))
  {
    if fault.BeforeWrite? then HandleError(fault.e, "打卡失败")
    else if PkOf(Some(taskId)).Refused? then HandleError(PkOf(Some(taskId)).e, "打卡失败")
    else if !TaskFound(tasks, taskId) then Api(404, "考勤任务不存在", None)
    else
      var t := tasks[KeyOf(Some(taskId)).value];
      if t.status != Int(Active) then Api(400, "考勤任务未激活", None)
      else if Earlier(At(now), t.startTime) then Api(400, "考勤尚未开始", None)
      else if Earlier(t.endTime, At(now)) then Api(400, "考勤已结束", None)
      else if CheckedIn(records, t.id, userId) then Api(409, "您已打过卡，请勿重复打卡", None)
      else if (t.classId, userId) !in members then Api(403, "您不属于该班级，无法打卡", None)
      else if fault.AtInsert? then HandleError(fault.e, "打卡失败")
      else Api(201, "打卡成功", Some(RecordJson(NewRecord(nextId, t.id, userId, status, remark))))
  }

  /** The window is inclusive: checking in exactly at the start or exactly at the end is accepted. */
  lemma WindowIsInclusive(t: Task, now: int)
    requires t.startTime.At? && t.endTime.At?
    ensures InWindow(t, now) <==> t.startTime.ms <= now <= t.endTime.ms
  {
  }

  /** Appending the record of an allowed check-in keeps one record per task and user. */
  lemma CheckInKeepsOnePerPair(records: seq<Record>, rec: Record)
    requires OnePerPair(records) && !CheckedIn(records, rec.task, rec.user)
    ensures OnePerPair(records + [rec])
    ensures CheckedIn(records + [rec], rec.task, rec.user)
  {
    var rs := records + [rec];
    assert rs[|records|] == rec;
    forall i, j | 0 <= i < j < |rs|
      ensures rs[i].task != rs[j].task || rs[i].user != rs[j].user
    {
      if j == |records| {
        assert rs[i] == records[i];
      } else {
        assert rs[i] == records[i] && rs[j] == records[j];
      }
    }
  }

  /** A second check-in of the same user on the same task is refused with 409 whatever else holds. */
  lemma SecondCheckInRefused(tasks: map<int, Task>, records: seq<Record>, members: set<(int, Json)>, nextId: int, now: int,
                             taskId: Json, userId: Json, status: Option<Json>, remark: Option<Json>, fault: Fault)
    requires forall k :: k in tasks ==> tasks[k].id == k
    requires CheckInReply(tasks, records, members, nextId, now, taskId, userId, status, remark, NoFault).code == 201
    ensures var rec := NewRecord(nextId, KeyOf(Some(taskId)).value, userId, status, remark);
      CheckInReply(tasks, records + [rec], members, nextId + 1, now, taskId, userId, status, remark, fault).code in {409, 500, 400}
  {
    var rec := NewRecord(nextId, KeyOf(Some(taskId)).value, userId, status, remark);
    assert (records + [rec])[|records|] == rec;
    assert CheckedIn(records + [rec], rec.task, rec.user);
  }

  // ------------------------------------------------------------ active tasks

  /** `getActiveAttendanceTasks`'s `where`: active, started, not ended, and of the class when one is given. */
  predicate ActiveAt(t: Task, now: int, classId: Option<int>) {
    t.status == Int(Active) && NoLater(t.startTime, At(now)) && NoLater(At(now), t.endTime) &&
    (classId.Some? && classId.value != 0 ==> t.classId == classId.value)
  }

  /** The ids of the tasks the query returns. */
  function ActiveTaskIds(tasks: map<int, Task>, now: int, classId: Option<int>): (ids: set<int>)
    ensures forall id :: id in ids <==> id in tasks && ActiveAt(tasks[id], now, classId)
  {
    set id | id in tasks && ActiveAt(tasks[id], now, classId)
  }

  /** For a task with valid dates, check-in's status and window tests accept exactly the tasks listed as active. */
  lemma CheckInWindowIsActive(t: Task, now: int)
    requires t.startTime.At? && t.endTime.At?
    ensures t.status == Int(Active) && InWindow(t, now) <==> ActiveAt(t, now, None)
  {
  }

  // ------------------------------------------------------------ records of a task

  /** The records of a task, oldest first. */
  function RecordsOf(records: seq<Record>, task: int): (rs: seq<Record>)
    ensures |rs| <= |records|
    ensures forall i :: 0 <= i < |rs| ==> rs[i].task == task && rs[i] in records
  {
    if records == [] then []
    else (if records[0].task == task then [records[0]] else []) + RecordsOf(records[1..], task)
  }

  /** The records newest first (`created_at DESC`), as response rows. */
  function NewestFirst(rs: seq<Record>): (rows: seq<Json>)
    ensures |rows| == |rs|
    ensures forall i :: 0 <= i < |rs| ==> rows[i] == RecordJson(rs[|rs| - 1 - i])
  {
    if rs == [] then [] else [RecordJson(rs[|rs| - 1])] + NewestFirst(rs[..|rs| - 1])
  }

  /** `getAttendanceRecords(taskId, { page, size })`. */
  function RecordsPageReply(tasks: map<int, Task>, records: seq<Record>, taskId: int, page: int, size: int,
                            fault: Option<DbError>): (r: Api)
    ensures fault.Some? ==> r == HandleError(fault.value, "获取打卡记录失败")
    ensures fault.None? ==> (r.code == 404 <==> taskId !in tasks)
    ensures fault.None? && taskId in tasks ==>
      var all := RecordsOf(records, taskId);
      r == Api(200, "获取打卡记录成功",
        Some(PageData(Window(NewestFirst(all), Offset(page, size), size), |all|, page, size)))
  {
    if fault.Some? then HandleError(fault.value, "获取打卡记录失败")
    else if taskId !in tasks then Api(404, "考勤任务不存在", None)
    else
      var all := RecordsOf(records, taskId);
      Api(200, "获取打卡记录成功", Some(PageData(Window(NewestFirst(all), Offset(page, size), size), |all|, page, size)))
  }

  /** The first page starts at the newest record. */
  lemma FirstPageIsNewest(records: seq<Record>, taskId: int, size: int)
    requires size > 0 && |RecordsOf(records, taskId)| > 0
    ensures var all := RecordsOf(records, taskId);
      Window(NewestFirst(all), Offset(1, size), size)[0] == RecordJson(all[|all| - 1])
  {
  }

  /** `getClassAttendanceTasks(classId, params)`: 404 for a missing class, else the generic page query. */
  function ClassTasksReply(classes: set<int>, classId: int, db: (int, int) -> Query, page: int, size: int,
                           fault: Option<DbError>): (r: Api)
    ensures fault.Some? ==> r == HandleError(fault.value, "获取班级考勤任务失败")
    ensures fault.None? && classId !in classes ==> r == Api(404, "班级不存在", None)
    ensures fault.None? && classId in classes ==> r == PageReply(db, page, size)
  {
    if fault.Some? then HandleError(fault.value, "获取班级考勤任务失败")
    else if classId !in classes then Api(404, "班级不存在", None)
    else PageReply(db, page, size)
  }

  // ------------------------------------------------------------ statistics

  /** `records.filter(r => r.status === s).length`. */
  function CountStatus(rs: seq<Record>, s: string): (n: nat)
    ensures n <= |rs|
  {
    if rs == [] then 0 else (if rs[0].status == JStr(s) then 1 else 0) + CountStatus(rs[1..], s)
  }

  /** Counting over two lists adds up. */
  lemma {:induction false} CountAppend(a: seq<Record>, b: seq<Record>, s: string)
    ensures CountStatus(a + b, s) == CountStatus(a, s) + CountStatus(b, s)
  {
    if a != [] {
      assert (a + b)[0] == a[0] && (a + b)[1..] == a[1..] + b;
      CountAppend(a[1..], b, s);
    } else {
      assert a + b == b;
    }
  }

  /** The four counters never add up to more than `totalCount`: a record has one status. */
  lemma {:induction false} CountersWithinTotal(rs: seq<Record>)
    ensures CountStatus(rs, "normal") + CountStatus(rs, "late") + CountStatus(rs, "absent") + CountStatus(rs, "leave") <= |rs|
  {
    if rs != [] {
      assert "normal"[0] != "absent"[0] && |"normal"| != |"late"| && |"normal"| != |"leave"|;
      assert |"late"| != |"absent"| && |"late"| != |"leave"| && |"absent"| != |"leave"|;
      CountersWithinTotal(rs[1..]);
    }
  }

  /** `rate`: the rounded percentage of normal records (a floating-point value given by `round`), or 0. */
  function Rate(normal: nat, total: nat, round: (nat, nat) -> Num): (j: Json)
    ensures total == 0 ==> j == Int(0)
  {
    if total > 0 then JNum(round(normal, total)) else Int(0)
  }

  /** The counters of a list of records, after the given leading entries. */
  function Stats(lead: seq<(string, Json)>, rs: seq<Record>, round: (nat, nat) -> Num): (j: Json)
    ensures j.JObj? && |j.members| == |lead| + 6
    ensures j.members[|lead|] == ("totalCount", Int(|rs|))
    ensures j.members[|lead| + 1] == ("normalCount", Int(CountStatus(rs, "normal")))
    ensures j.members[|lead| + 2] == ("lateCount", Int(CountStatus(rs, "late")))
    ensures j.members[|lead| + 3] == ("absentCount", Int(CountStatus(rs, "absent")))
    ensures j.members[|lead| + 4] == ("leaveCount", Int(CountStatus(rs, "leave")))
  {
    JObj(lead + [("totalCount", Int(|rs|)), ("normalCount", Int(CountStatus(rs, "normal"))),
      ("lateCount", Int(CountStatus(rs, "late"))), ("absentCount", Int(CountStatus(rs, "absent"))),
      ("leaveCount", Int(CountStatus(rs, "leave"))),
      ("rate", Rate(CountStatus(rs, "normal"), |rs|, round))])
  }

  /** The all-zero counters the service writes out literally when a class has no tasks. */
  function ZeroStats(lead: seq<(string, Json)>): Json {
    JObj(lead + [("totalCount", Int(0)), ("normalCount", Int(0)), ("lateCount", Int(0)), ("absentCount", Int(0)),
      ("leaveCount", Int(0)), ("rate", Int(0))])
  }

  /** The literal zeros are exactly the counters of no records. */
  lemma ZeroStatsAreEmptyStats(lead: seq<(string, Json)>, round: (nat, nat) -> Num)
    ensures ZeroStats(lead) == Stats(lead, [], round)
  {
  }

  /** The ids of a class's tasks. */
  function ClassTaskIds(tasks: map<int, Task>, classId: int): (ids: set<int>)
    ensures forall id :: id in ids <==> id in tasks && tasks[id].classId == classId
  {
    set id | id in tasks && tasks[id].classId == classId
  }

  /** The records of a user, restricted to the given tasks when there are any. */
  function Selected(records: seq<Record>, user: Option<Json>, taskIds: Option<set<int>>): (rs: seq<Record>)
    ensures |rs| <= |records|
    ensures forall i :: 0 <= i < |rs| ==> rs[i] in records
    ensures forall i :: 0 <= i < |rs| ==>
      (user.Some? ==> rs[i].user == user.value) && (taskIds.Some? ==> rs[i].task in taskIds.value)
  {
    if records == [] then []
    else
      var keep := (user.None? || records[0].user == user.value) && (taskIds.None? || records[0].task in taskIds.value);
      (if keep then [records[0]] else []) + Selected(records[1..], user, taskIds)
  }

  /** No task ids select no records. */
  lemma {:induction false} NoTasksSelectNothing(records: seq<Record>, user: Option<Json>)
    ensures Selected(records, user, Some({})) == []
  {
    if records != [] {
      NoTasksSelectNothing(records[1..], user);
    }
  }

  /**
   * `records[0]?.User?.real_name || ''`: the user's real name when a record
   * was found. `findAll` promises no order, so `rs[0]` is whichever record
   * the store returned first; the records passed here all belong to one
   * user, so which one comes first does not change the name.
   */
  function StudentName(rs: seq<Record>, names: map<Json, string>): (n: string)
    ensures rs == [] ==> n == ""
    ensures n != "" ==> rs != [] && rs[0].user in names && n == names[rs[0].user]
  {
    if |rs| > 0 && rs[0].user in names then names[rs[0].user] else ""
  }

  /** The selected records in any order give the user's own name, or "" when none was found. */
  lemma StudentNameOrderFree(records: seq<Record>, names: map<Json, string>, userId: int, taskIds: Option<set<int>>)
    ensures var rs := Selected(records, Some(Int(userId)), taskIds);
      StudentName(rs, names) == if rs != [] && Int(userId) in names then names[Int(userId)] else ""
  {
  }

  /** `getStudentAttendanceStats(userId, classId)`; `names` maps a user to the real name the join reads. */
  function StudentStatsReply(tasks: map<int, Task>, records: seq<Record>, names: map<Json, string>, userId: int,
                             classId: Option<int>, round: (nat, nat) -> Num, fault: Option<DbError>): (r: Api)
    ensures fault.Some? ==> r == HandleError(fault.value, "获取学生考勤统计失败")
    ensures fault.None? ==> r.code == 200 && r.message == "获取学生考勤统计成功"
    ensures fault.None? && ClassGiven(classId) && ClassTaskIds(tasks, classId.value) == {} ==>
      r.data == Some(ZeroStats([("studentId", Int(userId)), ("studentName", JStr(""))]))
    ensures fault.None? && !(ClassGiven(classId) && ClassTaskIds(tasks, classId.value) == {}) ==>
      var rs := Selected(records, Some(Int(userId)), if ClassGiven(classId) then Some(ClassTaskIds(tasks, classId.value)) else None);
      r.data == Some(Stats([("studentId", Int(userId)), ("studentName", JStr(StudentName(rs, names)))], rs, round))
  {
    if fault.Some? then HandleError(fault.value, "获取学生考勤统计失败")
    else if ClassGiven(classId) && ClassTaskIds(tasks, classId.value) == {} then
      Api(200, "获取学生考勤统计成功", Some(ZeroStats([("studentId", Int(userId)), ("studentName", JStr(""))])))
    else
      var rs := Selected(records, Some(Int(userId)), if ClassGiven(classId) then Some(ClassTaskIds(tasks, classId.value)) else None);
      Api(200, "获取学生考勤统计成功",
        Some(Stats([("studentId", Int(userId)), ("studentName", JStr(StudentName(rs, names)))], rs, round)))
  }

  /** The zeros a class without tasks short-circuits to are what the general query would have counted. */
  lemma StudentShortcutAgrees(tasks: map<int, Task>, records: seq<Record>, names: map<Json, string>, userId: int,
                              classId: int, round: (nat, nat) -> Num)
    requires classId != 0 && ClassTaskIds(tasks, classId) == {}
    ensures var rs := Selected(records, Some(Int(userId)), Some(ClassTaskIds(tasks, classId)));
      StudentStatsReply(tasks, records, names, userId, Some(classId), round, None).data ==
      Some(Stats([("studentId", Int(userId)), ("studentName", JStr(StudentName(rs, names)))], rs, round))
  {
    NoTasksSelectNothing(records, Some(Int(userId)));
    ZeroStatsAreEmptyStats([("studentId", Int(userId)), ("studentName", JStr(""))], round);
  }

  /** `getClassAttendanceStats(classId)`. */
  function ClassStatsReply(classes: set<int>, tasks: map<int, Task>, records: seq<Record>, classId: int,
                           round: (nat, nat) -> Num, fault: Option<DbError>): (r: Api)
    ensures fault.Some? ==> r == HandleError(fault.value, "获取班级考勤统计失败")
    ensures fault.None? ==> (r.code == 404 <==> classId !in classes)
    ensures fault.None? && classId in classes && ClassTaskIds(tasks, classId) == {} ==>
      r == Api(200, "获取班级考勤统计成功", Some(ZeroStats([])))
    ensures fault.None? && classId in classes && ClassTaskIds(tasks, classId) != {} ==>
      r == Api(200, "获取班级考勤统计成功", Some(Stats([], Selected(records, None, Some(ClassTaskIds(tasks, classId))), round)))
  {
    if fault.Some? then HandleError(fault.value, "获取班级考勤统计失败")
    else if classId !in classes then Api(404, "班级不存在", None)
    else if ClassTaskIds(tasks, classId) == {} then Api(200, "获取班级考勤统计成功", Some(ZeroStats([])))
    else Api(200, "获取班级考勤统计成功", Some(Stats([], Selected(records, None, Some(ClassTaskIds(tasks, classId))), round)))
  }

  /** A check-in on a task of the class adds one to the class's total and one to the counter of its status. */
  lemma {:induction false} CheckInCounted(records: seq<Record>, rec: Record, ids: set<int>, s: string)
    requires rec.task in ids
    ensures Selected(records + [rec], None, Some(ids)) == Selected(records, None, Some(ids)) + [rec]
    ensures CountStatus(Selected(records + [rec], None, Some(ids)), s) ==
      CountStatus(Selected(records, None, Some(ids)), s) + (if rec.status == JStr(s) then 1 else 0)
  {
    SelectedAppend(records, rec, None, ids);
    CountAppend(Selected(records, None, Some(ids)), [rec], s);
  }

  /** Selecting from a list with one more matching record selects that record last. */
  lemma {:induction false} SelectedAppend(records: seq<Record>, rec: Record, user: Option<Json>, ids: set<int>)
    requires (user.None? || rec.user == user.value) && rec.task in ids
    ensures Selected(records + [rec], user, Some(ids)) == Selected(records, user, Some(ids)) + [rec]
  {
    if records == [] {
      assert [] + [rec] == [rec];
    } else {
      assert (records + [rec])[1..] == records[1..] + [rec];
      SelectedAppend(records[1..], rec, user, ids);
    }
  }

  // ------------------------------------------------------------ updates

  /** The record with the given id. */
  function FindRecord(records: seq<Record>, id: int): (o: Option<Record>)
    ensures o.Some? ==> o.value in records && o.value.id == id
    ensures o.None? ==> forall i :: 0 <= i < |records| ==> records[i].id != id
  {
    if records == [] then None else if records[0].id == id then Some(records[0]) else FindRecord(records[1..], id)
  }

  /** `update(updateData)` on one record: `status` and `remark` are the columns the update message can set. */
  function Patch(rec: Record, data: Json): (rec': Record)
    ensures rec'.id == rec.id && rec'.task == rec.task && rec'.user == rec.user
    ensures Field(data, "status").Some? ==> rec'.status == Field(data, "status").value
    ensures Field(data, "status").None? ==> rec'.status == rec.status
    ensures Field(data, "remark").Some? ==> rec'.remark == Field(data, "remark").value
    ensures Field(data, "remark").None? ==> rec'.remark == rec.remark
  {
    rec.(status := if Field(data, "status").Some? then Field(data, "status").value else rec.status,
         remark := if Field(data, "remark").Some? then Field(data, "remark").value else rec.remark)
  }

  /** The records after `update(updateData, { where: { id } })`: the matching record patched, the rest as they were. */
  function UpdatedRecords(records: seq<Record>, id: int, data: Json): (rs: seq<Record>)
    ensures |rs| == |records|
    ensures forall i :: 0 <= i < |records| ==>
      rs[i] == if records[i].id == id then Patch(records[i], data) else records[i]
  {
    if records == [] then [] else [if records[0].id == id then Patch(records[0], data) else records[0]] + UpdatedRecords(records[1..], id, data)
  }

  /** An update keeps one record per task and user: it changes neither. */
  lemma UpdateKeepsOnePerPair(records: seq<Record>, id: int, data: Json)
    requires OnePerPair(records)
    ensures OnePerPair(UpdatedRecords(records, id, data))
  {
  }

  /** `updateAttendanceRecord(recordId, updateData)`: 404 when no row was affected, else the updated row. */
  function UpdateRecordReply(records: seq<Record>, id: int, data: Json, fault: Option<DbError>): (r: Api)
    ensures fault.Some? ==> r == HandleError(fault.value, "考勤记录更新失败")
    ensures fault.None? ==> (r.code == 404 <==> FindRecord(records, id).None?)
    ensures fault.None? && FindRecord(records, id).Some? ==>
      r == Api(200, "考勤记录更新成功", Some(RecordJson(Patch(FindRecord(records, id).value, data))))
  {
    if fault.Some? then HandleError(fault.value, "考勤记录更新失败")
    else if FindRecord(records, id).None? then Api(404, "考勤记录不存在", None)
    else Api(200, "考勤记录更新成功", Some(RecordJson(Patch(FindRecord(records, id).value, data))))
  }

  /** Reading an updated record back finds the patched record. */
  lemma {:induction false} UpdateThenFindRecord(records: seq<Record>, id: int, data: Json)
    ensures FindRecord(UpdatedRecords(records, id, data), id) ==
      if FindRecord(records, id).Some? then Some(Patch(FindRecord(records, id).value, data)) else None
  {
    if records != [] {
      assert UpdatedRecords(records, id, data)[1..] == UpdatedRecords(records[1..], id, data);
      UpdateThenFindRecord(records[1..], id, data);
    }
  }

  // ------------------------------------------------------------ the store

  /** The tables the service reads and writes. */
  class AttendanceStore {
    var classes: set<int>
    /** (class, user) pairs of the class–student association. */
    var members: set<(int, Json)>
    var tasks: map<int, Task>
    var nextTaskId: int
    var records: seq<Record>
    var nextRecordId: int

    /** Ids are assigned before the next one, task keys are their ids, and each user checks in once per task. */
    predicate Valid()
      reads this
    {
      nextTaskId >= 1 && nextRecordId >= 1 &&
      (forall k :: k in tasks ==> tasks[k].id == k && 0 < k < nextTaskId) &&
      (forall i :: 0 <= i < |records| ==> 0 < records[i].id < nextRecordId) &&
      OnePerPair(records)
    }

    constructor (classes: set<int>, members: set<(int, Json)>)
      ensures Valid() && this.classes == classes && this.members == members
      ensures tasks == map[] && records == [] && nextTaskId == 1 && nextRecordId == 1
    {
      this.classes := classes;
      this.members := members;
      tasks := map[];
      records := [];
      nextTaskId := 1;
      nextRecordId := 1;
    }

    /** `createAttendanceTask`: the task is stored only when the reply is 201. */
    method CreateAttendanceTask(input: TaskInput, now: int, fault: Fault) returns (r: Api)
      requires Valid()
      modifies this
      ensures Valid()
      ensures r == CreateTaskReply(old(classes), old(nextTaskId), input, now, fault)
      ensures r.code == 201 ==>
        tasks == old(tasks)[old(nextTaskId) := NewTask(old(nextTaskId), input)] && nextTaskId == old(nextTaskId) + 1
      ensures r.code != 201 ==> tasks == old(tasks) && nextTaskId == old(nextTaskId)
      ensures classes == old(classes) && members == old(members) && records == old(records) && nextRecordId == old(nextRecordId)
    {
      r := CreateTaskReply(classes, nextTaskId, input, now, fault);
      if r.code == 201 {
        tasks := tasks[nextTaskId := NewTask(nextTaskId, input)];
        nextTaskId := nextTaskId + 1;
      }
    }

    /** `checkIn`: the record is appended only when the reply is 201, keeping one record per task and user. */
    method CheckIn(now: int, taskId: Json, userId: Json, status: Option<Json>, remark: Option<Json>, fault: Fault)
      returns (r: Api)
      requires Valid()
      modifies this
      ensures Valid()
      ensures r == CheckInReply(old(tasks), old(records), old(members), old(nextRecordId), now, taskId, userId, status, remark, fault)
      ensures r.code == 201 ==>
        records == old(records) + [NewRecord(old(nextRecordId), KeyOf(Some(taskId)).value, userId, status, remark)] &&
        nextRecordId == old(nextRecordId) + 1
      ensures r.code != 201 ==> records == old(records) && nextRecordId == old(nextRecordId)
      ensures classes == old(classes) && members == old(members) && tasks == old(tasks) && nextTaskId == old(nextTaskId)
    {
      r := CheckInReply(tasks, records, members, nextRecordId, now, taskId, userId, status, remark, fault);
      if r.code == 201 {
        var rec := NewRecord(nextRecordId, KeyOf(Some(taskId)).value, userId, status, remark);
        CheckInKeepsOnePerPair(records, rec);
        records := records + [rec];
        nextRecordId := nextRecordId + 1;
      }
    }

    /** `updateAttendanceRecord`: the matching record is patched unless the statement fails. */
    method UpdateAttendanceRecord(id: int, data: Json, fault: Option<DbError>) returns (r: Api)
      requires Valid()
      modifies this
      ensures Valid()
      ensures r == UpdateRecordReply(old(records), id, data, fault)
      ensures records == if fault.Some? then old(records) else UpdatedRecords(old(records), id, data)
      ensures classes == old(classes) && members == old(members) && tasks == old(tasks)
      ensures nextTaskId == old(nextTaskId) && nextRecordId == old(nextRecordId)
    {
      r := UpdateRecordReply(records, id, data, fault);
      if fault.None? {
        UpdateKeepsOnePerPair(records, id, data);
        records := UpdatedRecords(records, id, data);
      }
    }
  }
}
