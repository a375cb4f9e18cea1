/** The persisted records of the dashboard (the Mongoose schemas): users,
    Telegram entities, folders, broadcast tasks with their delivery receipts,
    and per-user settings. Timestamps are milliseconds since the epoch;
    `null` dates are `None`. A string field the code only tests for
    truthiness uses "" for "absent". */
module Schema {
  import opened Wrappers

  type UserId = string

  // ---------------------------------------------------------------- enums

  datatype Role = Admin | Moderator | Viewer

  function RoleName(r: Role): string {
    match r
    case Admin => "admin"
    case Moderator => "moderator"
    case Viewer => "viewer"
  }

  /** Mongoose's enum validation of `role`: exactly the three names. */
  function ParseRole(s: string): (r: Option<Role>)
    ensures forall role :: r == Some(role) <==> RoleName(role) == s
  {
    if s == "admin" then Some(Admin)
    else if s == "moderator" then Some(Moderator)
    else if s == "viewer" then Some(Viewer)
    else None
  }

  datatype ApprovalStatus = Pending | Approved | Denied

  function ApprovalName(a: ApprovalStatus): string {
    match a
    case Pending => "pending"
    case Approved => "approved"
    case Denied => "denied"
  }

  function ParseApproval(s: string): (r: Option<ApprovalStatus>)
    ensures forall a :: r == Some(a) <==> ApprovalName(a) == s
  {
    if s == "pending" then Some(Pending)
    else if s == "approved" then Some(Approved)
    else if s == "denied" then Some(Denied)
    else None
  }

  datatype EntityType = UserChat | GroupChat | ChannelChat

  function EntityTypeName(t: EntityType): string {
    match t
    case UserChat => "user"
    case GroupChat => "group"
    case ChannelChat => "channel"
  }

  function ParseEntityType(s: string): (r: Option<EntityType>)
    ensures forall t :: r == Some(t) <==> EntityTypeName(t) == s
  {
    if s == "user" then Some(UserChat)
    else if s == "group" then Some(GroupChat)
    else if s == "channel" then Some(ChannelChat)
    else None
  }

  datatype TaskType = MessageTask | PollTask | MultiMessageTask

  function TaskTypeName(t: TaskType): string {
    match t
    case MessageTask => "message"
    case PollTask => "poll"
    case MultiMessageTask => "multi_message"
  }

  function ParseTaskType(s: string): (r: Option<TaskType>)
    ensures forall t :: r == Some(t) <==> TaskTypeName(t) == s
  {
    if s == "message" then Some(MessageTask)
    else if s == "poll" then Some(PollTask)
    else if s == "multi_message" then Some(MultiMessageTask)
    else None
  }

  datatype TaskStatus =
    | StatusPending | Processing | Completed | Failed | Undone | PartiallyCompleted | Expired

  function StatusName(s: TaskStatus): string {
    match s
    case StatusPending => "pending"
    case Processing => "processing"
    case Completed => "completed"
    case Failed => "failed"
    case Undone => "undone"
    case PartiallyCompleted => "partially_completed"
    case Expired => "expired"
  }

  function ParseStatus(s: string): (r: Option<TaskStatus>)
    ensures forall st :: r == Some(st) <==> StatusName(st) == s
  {
    if s == "pending" then Some(StatusPending)
    else if s == "processing" then Some(Processing)
    else if s == "completed" then Some(Completed)
    else if s == "failed" then Some(Failed)
    else if s == "undone" then Some(Undone)
    else if s == "partially_completed" then Some(PartiallyCompleted)
    else if s == "expired" then Some(Expired)
    else None
  }

  // ---------------------------------------------------------------- users

  datatype TelegramConfig = TelegramConfig(apiId: string, apiHash: string, botToken: string)

  datatype User = User(
    id: UserId,
    username: string,
    passwordHash: string,
    role: Role,
    approvalStatus: ApprovalStatus,
    telegramConfig: TelegramConfig,
    createdAt: int)

  /** A user document as created with only the required fields given. */
  function NewUser(id: UserId, username: string, passwordHash: string, role: Role, now: int): (u: User)
    ensures u.approvalStatus == Pending
    ensures u.telegramConfig == TelegramConfig("", "", "")
    ensures u.id == id && u.username == username && u.passwordHash == passwordHash && u.role == role
    ensures u.createdAt == now
  {
    User(id, username, passwordHash, role, Pending, TelegramConfig("", "", ""), now)
  }

  // ----------------------------------------------------- entities, folders

  datatype Entity = Entity(
    ownerUserId: UserId,
    telegramId: string,
    name: string,
    username: Option<string>,
    entityType: EntityType,
    accessHash: Option<string>,
    syncedAt: int)

  /** The unique compound index `(ownerUserId, telegramId)`. */
  predicate EntitiesUnique(es: seq<Entity>) {
    forall i, j :: 0 <= i < j < |es| ==>
      (es[i].ownerUserId, es[i].telegramId) != (es[j].ownerUserId, es[j].telegramId)
  }

  /** A folder of entity ids; `id` is the document's `_id`. */
  datatype Folder = Folder(id: string, name: string, userId: UserId, description: string, entityIds: seq<string>)

  /** The unique compound index `(name, userId)`. */
  predicate FoldersUnique(fs: seq<Folder>) {
    forall i, j :: 0 <= i < j < |fs| ==> (fs[i].name, fs[i].userId) != (fs[j].name, fs[j].userId)
  }

  // -------------------------------------------------------------- settings

  /** A settings document; `id` is its `_id`. */
  datatype Setting = Setting(id: string, userId: UserId, key: string, value: string, updatedAt: int)

  /** The unique compound index `(userId, key)`. */
  predicate SettingsUnique(ss: seq<Setting>) {
    forall i, j :: 0 <= i < j < |ss| ==> (ss[i].userId, ss[i].key) != (ss[j].userId, ss[j].key)
  }

  // ----------------------------------------------------------------- tasks

  /** `content.scheduling`, a free-form object; only `mode` and
      `delayMinutes` are read. */
  datatype Scheduling = Scheduling(mode: string, delayMinutes: int)

  /** One entry of `content.messages` (the poll fields are read by the
      sender when present). */
  datatype MessageDoc = MessageDoc(
    id: string,
    msgType: string,
    text: string,
    mediaUrl: string,
    mediaUrls: seq<string>,
    pollQuestion: string,
    pollOptions: Option<seq<string>>,
    correctOption: Option<int>,
    pollExplanation: string)

  datatype Content = Content(
    text: string,
    mediaUrl: string,
    pollQuestion: string,
    pollOptions: Option<seq<string>>,
    correctOption: Option<int>,
    pollExplanation: string,
    messages: seq<MessageDoc>,
    isMulti: bool,
    scheduling: Option<Scheduling>)

  const EmptyContent := Content("", "", "", None, None, "", [], false, None)

  datatype Metrics = Metrics(views: int, forwards: int, replies: int, reactions: int, voters: int, updatedAt: int)

  /** A delivery receipt: one sent Telegram message. */
  datatype Receipt = Receipt(recipientId: string, messageId: int, metrics: Metrics)

  /** A receipt as stored from `{recipientId, messageId}`: every counter
      takes its default. */
  function NewReceipt(recipientId: string, messageId: int, now: int): (r: Receipt)
    ensures r.recipientId == recipientId && r.messageId == messageId
    ensures r.metrics.views == 0 && r.metrics.forwards == 0 && r.metrics.replies == 0
    ensures r.metrics.reactions == 0 && r.metrics.voters == 0 && r.metrics.updatedAt == now
  {
    Receipt(recipientId, messageId, Metrics(0, 0, 0, 0, 0, now))
  }

  datatype Results = Results(success: int, failed: int, errors: seq<string>)

  const NoResults := Results(0, 0, [])

  /** A task as the API serves it to the dashboard. */
  datatype TaskRecord = TaskRecord(
    taskId: string,
    createdBy: Option<UserId>,
    createdByUsername: string,
    name: string,
    taskType: TaskType,
    content: Content,
    targetIds: seq<string>,
    folders: seq<string>,
    recipientCount: int,
    scheduledAt: Option<int>,
    status: TaskStatus,
    results: Results,
    createdAt: int,
    completedAt: Option<int>,
    expiryHours: Option<int>,
    sentMessages: seq<Receipt>)

  /** A broadcast job document, updated in place by the routes. */
  class Task {
    const taskId: string
    var createdBy: Option<UserId>
    var createdByUsername: string
    var name: string
    var taskType: TaskType
    var content: Content
    var targetIds: seq<string>
    var folders: seq<string>
    var recipientCount: int
    var scheduledAt: Option<int>
    var status: TaskStatus
    var results: Results
    var createdAt: int
    var completedAt: Option<int>
    var expiryHours: Option<int>
    var sentMessages: seq<Receipt>

    /** A document built from the given fields: the status, results,
        receipts and completion time take their schema defaults, and
        `createdAt` is the current time. */
    constructor (taskId: string, createdBy: Option<UserId>, createdByUsername: string, name: string,
                 taskType: TaskType, content: Content, targetIds: seq<string>, folders: seq<string>,
                 recipientCount: int, scheduledAt: Option<int>, expiryHours: Option<int>, now: int)
      ensures this.taskId == taskId && this.createdBy == createdBy && this.createdByUsername == createdByUsername
      ensures this.name == name && this.taskType == taskType && this.content == content
      ensures this.targetIds == targetIds && this.folders == folders && this.recipientCount == recipientCount
      ensures this.scheduledAt == scheduledAt && this.expiryHours == expiryHours
      ensures status == StatusPending && results == NoResults && createdAt == now
      ensures completedAt == None && sentMessages == []
    {
      this.taskId := taskId;
      this.createdBy := createdBy;
      this.createdByUsername := createdByUsername;
      this.name := name;
      this.taskType := taskType;
      this.content := content;
      this.targetIds := targetIds;
      this.folders := folders;
      this.recipientCount := recipientCount;
      this.scheduledAt := scheduledAt;
      this.expiryHours := expiryHours;
      status := StatusPending;
      results := NoResults;
      createdAt := now;
      completedAt := None;
      sentMessages := [];
    }

    /** The document's JSON form. */
    function Record(): (r: TaskRecord)
      reads this
      ensures r.taskId == taskId && r.status == status && r.sentMessages == sentMessages
    {
      TaskRecord(taskId, createdBy, createdByUsername, name, taskType, content, targetIds,
        folders, recipientCount, scheduledAt, status, results, createdAt, completedAt,
        expiryHours, sentMessages)
    }
  }
}
