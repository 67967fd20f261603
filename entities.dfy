/**
 * The durable transfer record (`transfer_records`): its type and status vocabulary, the
 * export properties it carries, its creator/approver relations and the approval to-do text.
 */
module Entities {
  import opened Values

  const TypeImport: string := "import"
  const TypeExport: string := "export"

  const StatusPending: string := "pending"
  const StatusProcessing: string := "processing"
  const StatusDone: string := "done"

  /**
   * The class constants the record declares, looked up by name the way `TransferRecord::NAME`
   * resolves them; `None` is PHP's "undefined constant" error.
   */
  function Constant(name: string): Option<string>
  {
    if name == "TYPE_IMPORT" then Some(TypeImport)
    else if name == "TYPE_EXPORT" then Some(TypeExport)
    else if name == "STATUS_PENDING" then Some(StatusPending)
    else if name == "STATUS_PROCESSING" then Some(StatusProcessing)
    else if name == "STATUS_DONE" then Some(StatusDone)
    else None
  }

  /** The record's type is one of the two declared type constants. */
  predicate IsRecordType(t: string) {
    t == TypeImport || t == TypeExport
  }

  /** A status is one of the three declared status constants. */
  predicate IsDeclaredStatus(s: string) {
    s == StatusPending || s == StatusProcessing || s == StatusDone
  }

  /**
   * The vocabulary is unambiguous: the two types differ, the three statuses differ, and the
   * constants named `STATUS_*` are exactly pending, processing and done.
   */
  lemma {:induction false} Vocabulary(name: string)
    ensures TypeImport != TypeExport
    ensures StatusPending != StatusProcessing && StatusProcessing != StatusDone && StatusPending != StatusDone
    ensures (Constant(name).Some? && IsDeclaredStatus(Constant(name).value))
            <==> name in {"STATUS_PENDING", "STATUS_PROCESSING", "STATUS_DONE"}
    ensures Constant(name).Some? ==> IsRecordType(Constant(name).value) || IsDeclaredStatus(Constant(name).value)
  {
    assert TypeImport[0] != TypeExport[0];
    assert StatusPending[0] != StatusProcessing[1];
    assert StatusPending[0] != StatusDone[0] && StatusProcessing[0] != StatusDone[0];
    var c := Constant(name);
    if name == "TYPE_IMPORT" || name == "TYPE_EXPORT" {
      assert TypeImport[0] !in {'p', 'd'} && TypeExport[0] !in {'p', 'd'};
      assert StatusPending[0] == 'p' && StatusProcessing[0] == 'p' && StatusDone[0] == 'd';
    }
  }

  /** The fixed parts of the approval to-do message. */
  const WorkNumOpen: string := "（工号："
  const TaskIntro: string := "）导出任务："

  /** The approval module's status enum, as far as this core uses it. */
  datatype ApprovalStatus = Pending | Approved | Rejected

  /** The filter an export in `query` mode carries under `params.newbieQuery`. */
  type Filter = map<string, string>

  /**
   * `params` of an export task: a list of ids (`page` and `selection` modes) or a keyed array
   * that may carry `newbieQuery` (`query` mode).
   */
  datatype Params = IdList(ids: seq<Value>) | Keyed(newbieQuery: Input<Filter>)

  /** The JSON `properties` column of an export record. */
  datatype Properties = Properties(
    mode: Input<string>,
    requestFields: Input<seq<string>>,
    approvedFields: Input<seq<string>>,
    params: Input<Params>)

  /** Every column of a transfer record at one moment, for stating what an update leaves alone. */
  datatype Columns = Columns(
    taskId: string, taskName: Option<string>, creatorId: int, recordType: string,
    className: Option<string>, status: Option<string>, filePath: Option<string>,
    properties: Option<Properties>, error: Option<string>, totalCount: Option<int>,
    errorFilePath: Option<string>, startedAt: Option<Time>, endedAt: Option<Time>,
    duration: Option<string>, approverId: Option<int>, approvalStatus: Option<ApprovalStatus>,
    approvalComment: Option<string>, approvalAt: Option<Time>)

  /** The users table as the relations see it: each user is stored under its own id. */
  predicate KeyedById(users: map<int, User>) {
    forall k :: k in users ==> users[k].id == k
  }

  /** One row of `transfer_records`; the pipeline changes its fields in place and saves it. */
  class TransferRecord {
    var taskId: string
    var taskName: Option<string>
    var creatorId: int
    var recordType: string
    var className: Option<string>
    var status: Option<string>
    var filePath: Option<string>
    var properties: Option<Properties>
    var error: Option<string>
    var totalCount: Option<int>
    var errorFilePath: Option<string>
    var startedAt: Option<Time>
    var endedAt: Option<Time>
    var duration: Option<string>
    var approverId: Option<int>
    var approvalStatus: Option<ApprovalStatus>
    var approvalComment: Option<string>
    var approvalAt: Option<Time>

    /** `TransferRecord::create([...])` with the attributes the pipeline passes; the rest are null. */
    constructor (taskId: string, taskName: Option<string>, creatorId: int, recordType: string,
                 className: Option<string>, status: string, filePath: Option<string>,
                 properties: Option<Properties>)
      ensures this.taskId == taskId && this.taskName == taskName && this.creatorId == creatorId
      ensures this.recordType == recordType && this.className == className
      ensures this.status == Some(status) && this.filePath == filePath && this.properties == properties
      ensures error == None && totalCount == None && errorFilePath == None
      ensures startedAt == None && endedAt == None && duration == None
      ensures approverId == None && approvalStatus == None && approvalComment == None && approvalAt == None
    {
      this.taskId := taskId;
      this.taskName := taskName;
      this.creatorId := creatorId;
      this.recordType := recordType;
      this.className := className;
      this.status := Some(status);
      this.filePath := filePath;
      this.properties := properties;
      error, totalCount, errorFilePath := None, None, None;
      startedAt, endedAt, duration := None, None, None;
      approverId, approvalStatus, approvalComment, approvalAt := None, None, None, None;
    }

    /** All columns of the record. */
    function Snapshot(): Columns
      reads this
    {
      Columns(taskId, taskName, creatorId, recordType, className, status, filePath, properties,
              error, totalCount, errorFilePath, startedAt, endedAt, duration, approverId,
              approvalStatus, approvalComment, approvalAt)
    }

    /** The `creator` relation: the user whose id is `creator_id`, if there is one. */
    function Creator(users: map<int, User>): (u: Option<User>)
      reads this
      ensures u.Some? <==> creatorId in users
      ensures u.Some? ==> u.value == users[creatorId]
      ensures u.Some? && KeyedById(users) ==> u.value.id == creatorId
    {
      if creatorId in users then Some(users[creatorId]) else None
    }

    /** The `approver` relation: the user whose id is `approver_id`, if one is set and exists. */
    function Approver(users: map<int, User>): (u: Option<User>)
      reads this
      ensures u.Some? <==> approverId.Some? && approverId.value in users
      ensures u.Some? ==> u.value == users[approverId.value]
      ensures u.Some? && KeyedById(users) ==> approverId.value == u.value.id
    {
      if approverId.Some? && approverId.value in users then Some(users[approverId.value]) else None
    }

    /**
     * `getInitiator()`: the creator. `None` stands for the type error PHP raises when no
     * creator is linked (the declared return type is not nullable).
     */
    function Initiator(users: map<int, User>): (u: Option<User>)
      reads this
      ensures u.Some? <==> creatorId in users
      ensures u.Some? ==> u.value == users[creatorId]
      ensures u.Some? && KeyedById(users) ==> u.value.id == creatorId
    {
      Creator(users)
    }

    /**
     * `getApproveTodoMessage()`: "{creator.name}（工号：{creator.work_num}）导出任务：{task_name}".
     * A missing creator or task name renders as the empty string, as PHP does for a property
     * read on null.
     */
    function ApproveTodoMessage(users: map<int, User>): string
      reads this
    {
      var creator := Creator(users);
      var name := if creator.Some? then creator.value.name else "";
      var workNum := if creator.Some? then creator.value.workNum else "";
      name + WorkNumOpen + workNum + TaskIntro + taskName.GetOr("")
    }
  }

  /**
   * The to-do message names the creator first and the task last, with the work number
   * between the fixed markers, so an approver reads who asked for which export.
   */
  lemma ApproveTodoMessageShape(r: TransferRecord, users: map<int, User>)
    requires r.creatorId in users
    ensures var m := r.ApproveTodoMessage(users);
            var u := users[r.creatorId];
            var t := r.taskName.GetOr("");
            && |m| == |u.name| + |WorkNumOpen| + |u.workNum| + |TaskIntro| + |t|
            && m[..|u.name|] == u.name
            && m[|u.name|..|u.name| + |WorkNumOpen|] == WorkNumOpen
            && m[|u.name| + |WorkNumOpen|..|u.name| + |WorkNumOpen| + |u.workNum|] == u.workNum
            && m[|u.name| + |WorkNumOpen| + |u.workNum|..|m| - |t|] == TaskIntro
            && m[|m| - |t|..] == t
  {
  }
}
