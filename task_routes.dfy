/** The task routes: scheduling a broadcast (form parsing, attaching
    uploaded files to messages, counting recipients, persisting the task as
    `pending`, and choosing between the durable queue and the in-process
    fallback), undoing a broadcast, retrying a failed one, refreshing its
    metrics and clearing the history.

    JSON parsing, the queue broker, the clock and the id generator are
    inputs. */
module TaskRoutes {
  import opened Wrappers
  import opened Text
  import opened Schema
  import TaskStore
  import TelegramService

  // ------------------------------------------------------------ id fields

  /** A JavaScript value an id field holds once parsed: an array (its
      elements kept as their `String()` text), a string, or a JSON scalar (a
      number, `true`, `false` or `null`) kept as its `String()` text and its
      truthiness. Only arrays and strings have a `length`. */
  datatype JsValue = JsArray(items: seq<string>) | JsString(s: string) | JsScalar(text: string, truthy: bool)

  /** A multipart id-list field: absent, already a list, or text together
      with what `JSON.parse` makes of it (`None` when it throws). */
  datatype IdsField = NoIds | IdList(ids: seq<string>) | IdText(text: string, json: Option<JsValue>)

  function TrimAll(parts: seq<string>): (r: seq<string>)
    ensures |r| == |parts|
    ensures forall k :: 0 <= k < |parts| ==> r[k] == Trim(parts[k])
  {
    if parts == [] then [] else [Trim(parts[0])] + TrimAll(parts[1..])
  }

  /** `folderIds`: whatever JSON parsing gives, else comma-separated (each
      part trimmed), else nothing when it looks like broken JSON, else the
      text as one id. */
  function FolderIds(f: IdsField): (ids: Option<JsValue>)
    ensures f.NoIds? <==> ids.None?
    ensures f.IdList? ==> ids == Some(JsArray(f.ids))
    ensures f.IdText? && f.json.Some? ==> ids == f.json
    ensures f.IdText? && f.json.None? && ',' in f.text ==>
      ids == Some(JsArray(TrimAll(Split(f.text, ',')))) && |ids.value.items| == |Split(f.text, ',')| >= 2
    ensures f.IdText? && f.json.None? && ',' !in f.text && !StartsWith(Trim(f.text), "[") ==> ids == Some(JsArray([f.text]))
    ensures f.IdText? && f.json.None? && ',' !in f.text && StartsWith(Trim(f.text), "[") ==> ids == Some(JsArray([]))
  {
    match f
    case NoIds => None
    case IdList(ids) => Some(JsArray(ids))
    case IdText(text, json) =>
      if json.Some? then json
      else if ',' in text then Some(JsArray(TrimAll(Split(text, ','))))
      else if StartsWith(Trim(text), "[") then Some(JsArray([]))
      else Some(JsArray([text]))
  }

  lemma SplitOnPresentSeparator(s: string, sep: char)
    requires sep in s
    ensures |Split(s, sep)| >= 2
  {
  }

  /** `targetIds`: whatever JSON parsing gives, else an empty array. */
  function TargetIds(f: IdsField): (ids: Option<JsValue>)
    ensures f.NoIds? <==> ids.None?
    ensures f.IdList? ==> ids == Some(JsArray(f.ids))
    ensures f.IdText? && f.json.Some? ==> ids == f.json
    ensures f.IdText? && f.json.None? ==> ids == Some(JsArray([]))
  {
    match f
    case NoIds => None
    case IdList(ids) => Some(JsArray(ids))
    case IdText(_, json) => if json.Some? then json else Some(JsArray([]))
  }

  /** `x && x.length > 0 ? x.length : 0`: an absent value or a scalar has
      no length, so it counts as empty; a string's length is in UTF-16
      code units. */
  function Length(v: Option<JsValue>): (n: nat)
    ensures n > 0 ==> v.Some? && !v.value.JsScalar?
    ensures v.Some? && v.value.JsArray? ==> n == |v.value.items|
    ensures v.Some? && v.value.JsString? ==> n == Utf16Length(v.value.s)
  {
    match v
    case None => 0
    case Some(JsArray(items)) => |items|
    case Some(JsString(s)) => Utf16Length(s)
    case Some(JsScalar(_, _)) => 0
  }

  /** `x || []` as mongoose stores it in an array path (and as `$in`
      receives it): a falsy value is the empty array, and any other value
      that is not an array is wrapped in one. */
  function Stored(v: Option<JsValue>): (ids: seq<string>)
    ensures v.Some? && v.value.JsArray? ==> ids == v.value.items
    ensures v.Some? && v.value.JsString? ==> ids == (if v.value.s == "" then [] else [v.value.s])
    ensures v.Some? && v.value.JsScalar? ==> ids == (if v.value.truthy then [v.value.text] else [])
    ensures v.None? ==> ids == []
  {
    match v
    case None => []
    case Some(JsArray(items)) => items
    case Some(JsString(s)) => if s == "" then [] else [s]
    case Some(JsScalar(text, truthy)) => if truthy then [text] else []
  }

  // --------------------------------------------------------------- uploads

  /** One uploaded file: its form field and its stored file name. */
  datatype Upload = Upload(fieldName: string, fileName: string)

  function UploadUrl(u: Upload): string {
    "/uploads/" + u.fileName
  }

  const MediaPrefix := "media_"

  /** The index of the first message with this id. */
  function FindMessage(msgs: seq<MessageDoc>, id: string): (r: Option<nat>)
    ensures r.Some? ==> r.value < |msgs| && msgs[r.value].id == id
    ensures r.Some? ==> forall k :: 0 <= k < r.value ==> msgs[k].id != id
    ensures r.None? ==> forall k :: 0 <= k < |msgs| ==> msgs[k].id != id
  {
    if msgs == [] then None
    else if msgs[0].id == id then Some(0)
    else match FindMessage(msgs[1..], id)
      case None => None
      case Some(k) => Some(k + 1)
  }

  /** One file: field `media` replaces the top-level `mediaUrl`; field
      `media_<id>` is appended to the first message with that id, and
      becomes its `mediaUrl` when it has none yet. */
  function ApplyUpload(c: Content, u: Upload): (r: Content)
    ensures |r.messages| == |c.messages|
  {
    if u.fieldName == "media" then c.(mediaUrl := UploadUrl(u))
    else if StartsWith(u.fieldName, MediaPrefix) then
      match FindMessage(c.messages, u.fieldName[|MediaPrefix|..])
      case None => c
      case Some(k) => c.(messages := c.messages[k := Appended(c.messages[k], UploadUrl(u))])
    else c
  }

  /** A message with one more uploaded file: appended to `mediaUrls`, and
      the `mediaUrl` when it has none yet. */
  function Appended(m: MessageDoc, url: string): MessageDoc {
    m.(mediaUrls := m.mediaUrls + [url], mediaUrl := if m.mediaUrl == "" then url else m.mediaUrl)
  }

  /** The files applied in upload order. */
  function ApplyUploads(c: Content, files: seq<Upload>): (r: Content)
    ensures |r.messages| == |c.messages|
  {
    if files == [] then c else ApplyUpload(ApplyUploads(c, files[..|files| - 1]), files[|files| - 1])
  }

  /** The URLs of the files sent in field `media_<id>`, in upload order. */
  function UrlsFor(files: seq<Upload>, id: string): (urls: seq<string>)
    ensures forall k :: 0 <= k < |urls| ==> urls[k] != ""
  {
    if files == [] then []
    else
      var last := files[|files| - 1];
      UrlsFor(files[..|files| - 1], id) + (if last.fieldName == MediaPrefix + id then [UploadUrl(last)] else [])
  }

  lemma FieldNameOfMessage(field: string, id: string)
    ensures (StartsWith(field, MediaPrefix) && field[|MediaPrefix|..] == id) <==> field == MediaPrefix + id
  {
    if field == MediaPrefix + id {
      assert field[..|MediaPrefix|] == MediaPrefix;
    }
    if StartsWith(field, MediaPrefix) && field[|MediaPrefix|..] == id {
      assert field == field[..|MediaPrefix|] + field[|MediaPrefix|..];
    }
  }

  /** `m` is `orig` after receiving the files `urls`: they follow its own
      media, its `mediaUrl` is kept if set and otherwise becomes the first
      of them, and its id, text and type are unchanged. */
  predicate ReceivedUploads(orig: MessageDoc, m: MessageDoc, urls: seq<string>) {
    && m.mediaUrls == orig.mediaUrls + urls
    && m.mediaUrl == (if orig.mediaUrl != "" || urls == [] then orig.mediaUrl else urls[0])
    && m.id == orig.id && m.text == orig.text && m.msgType == orig.msgType
  }

  /** The first message with a given id receives exactly the files of its
      field, in upload order. */
  lemma {:induction false} UploadsReachTheirMessage(c: Content, files: seq<Upload>, k: nat)
    requires k < |c.messages|
    requires FindMessage(c.messages, c.messages[k].id) == Some(k)
    ensures ReceivedUploads(c.messages[k], ApplyUploads(c, files).messages[k], UrlsFor(files, c.messages[k].id))
  {
    if files != [] {
      var init := files[..|files| - 1];
      var u := files[|files| - 1];
      var id := c.messages[k].id;
      UploadsReachTheirMessage(c, init, k);
      IdsKept(c, init);
      var before := ApplyUploads(c, init);
      UploadStep(before, u, k, id);
      ReceiveOne(c.messages[k], before.messages[k], UrlsFor(init, id), UploadUrl(u));
    }
  }

  /** One file changes message `k`, the first with id `id`, exactly when
      its field is `media_<id>`. */
  lemma UploadStep(before: Content, u: Upload, k: nat, id: string)
    requires k < |before.messages| && before.messages[k].id == id
    requires forall j :: 0 <= j < k ==> before.messages[j].id != id
    ensures ApplyUpload(before, u).messages[k]
         == if u.fieldName == MediaPrefix + id then Appended(before.messages[k], UploadUrl(u)) else before.messages[k]
  {
    FieldNameOfMessage(u.fieldName, id);
  }

  lemma ReceiveOne(orig: MessageDoc, m: MessageDoc, urls: seq<string>, url: string)
    requires ReceivedUploads(orig, m, urls)
    requires url != "" && (urls == [] || urls[0] != "")
    ensures ReceivedUploads(orig, Appended(m, url), urls + [url])
  {
  }

  /** Uploads never change the ids of the messages. */
  lemma {:induction false} IdsKept(c: Content, files: seq<Upload>)
    ensures forall k :: 0 <= k < |c.messages| ==> ApplyUploads(c, files).messages[k].id == c.messages[k].id
  {
    if files != [] {
      IdsKept(c, files[..|files| - 1]);
    }
  }

  /** A field the mapping acts on. */
  predicate IsMediaField(field: string) {
    field == "media" || StartsWith(field, MediaPrefix)
  }

  /** The `TypeError` the mapping throws on an undefined `content`: a
      `media` file assigns `content.mediaUrl`, a `media_<id>` file first
      reads `content.messages`. */
  function UndefinedContent(field: string): string {
    if field == "media" then "Cannot set properties of undefined (setting 'mediaUrl')"
    else "Cannot read properties of undefined (reading 'messages')"
  }

  /** The position of the first file sent in a media field, if any. */
  function FirstMediaField(files: seq<Upload>): (r: Option<nat>)
    ensures r.None? <==> forall k :: 0 <= k < |files| ==> !IsMediaField(files[k].fieldName)
    ensures r.Some? ==>
      r.value < |files| && IsMediaField(files[r.value].fieldName)
      && forall j :: 0 <= j < r.value ==> !IsMediaField(files[j].fieldName)
  {
    if files == [] then None
    else if IsMediaField(files[0].fieldName) then Some(0)
    else
      match FirstMediaField(files[1..])
      case None => None
      case Some(k) => Some(k + 1)
  }

  lemma FirstMediaAt(files: seq<Upload>, i: nat)
    requires i < |files| && IsMediaField(files[i].fieldName)
    requires forall j :: 0 <= j < i ==> !IsMediaField(files[j].fieldName)
    ensures FirstMediaField(files) == Some(i)
  {
  }

  /** The upload mapping does not throw: there is a `content` to attach
      to, or no file is sent in a media field. */
  predicate UploadsMap(content: Option<Content>, files: seq<Upload>) {
    content.Some? || forall k :: 0 <= k < |files| ==> !IsMediaField(files[k].fieldName)
  }

  /** The `forEach` over the uploaded files. Without a `content` field, the
      first `media` or `media_<id>` file makes it throw. */
  method MapUploads(content: Option<Content>, files: seq<Upload>) returns (r: Result<Option<Content>, string>)
    ensures content.Some? ==> r == Ok(Some(ApplyUploads(content.value, files)))
    ensures content.None? ==> (r.Err? <==> exists k :: 0 <= k < |files| && IsMediaField(files[k].fieldName))
    ensures r.Ok? <==> UploadsMap(content, files)
    ensures r.Err? ==> FirstMediaField(files).Some? && r.error == UndefinedContent(files[FirstMediaField(files).value].fieldName)
    ensures content.None? && r.Ok? ==> r.value == None
    ensures content.None? && r.Err? ==>
      exists k :: 0 <= k < |files| && IsMediaField(files[k].fieldName)
        && (forall j :: 0 <= j < k ==> !IsMediaField(files[j].fieldName))
        && r.error == UndefinedContent(files[k].fieldName)
  {
    if content.None? {
      var i := 0;
      while i < |files|
        invariant 0 <= i <= |files|
        invariant forall k :: 0 <= k < i ==> !IsMediaField(files[k].fieldName)
      {
        if IsMediaField(files[i].fieldName) {
          FirstMediaAt(files, i);
          return Err(UndefinedContent(files[i].fieldName));
        }
        i := i + 1;
      }
      return Ok(None);
    }
    var c := content.value;
    var i := 0;
    while i < |files|
      invariant 0 <= i <= |files|
      invariant c == ApplyUploads(content.value, files[..i])
    {
      assert files[..i + 1][..i] == files[..i];
      var u := files[i];
      if u.fieldName == "media" {
        c := c.(mediaUrl := UploadUrl(u));
      } else if StartsWith(u.fieldName, MediaPrefix) {
        var found := FindMessage(c.messages, u.fieldName[|MediaPrefix|..]);
        if found.Some? {
          var m := c.messages[found.value];
          var url := UploadUrl(u);
          m := m.(mediaUrls := m.mediaUrls + [url]);
          if m.mediaUrl == "" {
            m := m.(mediaUrl := url);
          }
          c := c.(messages := c.messages[found.value := m]);
        }
      }
      i := i + 1;
    }
    assert files[..i] == files;
    return Ok(Some(c));
  }

  // ------------------------------------------------------------ recipients

  /** The entities of the caller's folders among `folderIds`, each folder
      counted once however often it is listed. */
  function FolderRecipients(folders: seq<Folder>, folderIds: seq<string>, caller: UserId): nat {
    if folders == [] then 0
    else
      var f := folders[|folders| - 1];
      FolderRecipients(folders[..|folders| - 1], folderIds, caller)
        + (if f.id in folderIds && f.userId == caller then |f.entityIds| else 0)
  }

  /** Listing a folder twice, or in another order, does not change the
      count: only the set of listed ids matters. */
  lemma {:induction false} FolderRecipientsBySet(folders: seq<Folder>, a: seq<string>, b: seq<string>, caller: UserId)
    requires forall x :: x in a <==> x in b
    ensures FolderRecipients(folders, a, caller) == FolderRecipients(folders, b, caller)
  {
    if folders != [] {
      FolderRecipientsBySet(folders[..|folders| - 1], a, b, caller);
    }
  }

  /** Other users' folders never count. */
  lemma {:induction false} OnlyOwnFoldersCount(folders: seq<Folder>, folderIds: seq<string>, caller: UserId)
    requires forall k :: 0 <= k < |folders| ==> folders[k].userId != caller
    ensures FolderRecipients(folders, folderIds, caller) == 0
  {
    if folders != [] {
      OnlyOwnFoldersCount(folders[..|folders| - 1], folderIds, caller);
    }
  }

  /** The recipient count: the targets' `length` if positive, else the
      entities of the folders looked up, else no count at all ("No targets
      selected"). */
  function RecipientCount(targetIds: Option<JsValue>, folderIds: Option<JsValue>, folders: seq<Folder>, caller: UserId): (r: Option<nat>)
    ensures r.None? <==> Length(targetIds) == 0 && Length(folderIds) == 0
    ensures Length(targetIds) > 0 ==> r == Some(Length(targetIds))
    ensures Length(targetIds) == 0 && Length(folderIds) > 0 ==> r == Some(FolderRecipients(folders, Stored(folderIds), caller))
  {
    if Length(targetIds) > 0 then Some(Length(targetIds))
    else if Length(folderIds) > 0 then Some(FolderRecipients(folders, Stored(folderIds), caller))
    else None
  }

  /** A JSON scalar (`42`, `true`, `null`) has no `length`: sent alone, as
      folders or as targets, it selects nobody and the route answers
      "No targets selected". */
  lemma ScalarSelectsNobody(text: string, truthy: bool, other: IdsField, folders: seq<Folder>, caller: UserId)
    requires Length(TargetIds(other)) == 0 && Length(FolderIds(other)) == 0
    ensures RecipientCount(TargetIds(other), FolderIds(IdText(text, Some(JsScalar(text, truthy)))), folders, caller).None?
    ensures RecipientCount(TargetIds(IdText(text, Some(JsScalar(text, truthy)))), FolderIds(other), folders, caller).None?
  {
  }

  /** Targets that parse to a JSON string are counted by its length in
      UTF-16 units, which is its number of characters when none lies
      outside the Basic Multilingual Plane: `"abc"` gives three recipients. */
  lemma StringTargetsCountCharacters(text: string, s: string, folderIds: IdsField, folders: seq<Folder>, caller: UserId)
    requires s != ""
    ensures RecipientCount(TargetIds(IdText(text, Some(JsString(s)))), FolderIds(folderIds), folders, caller)
         == Some(Utf16Length(s))
    ensures (forall k :: 0 <= k < |s| ==> !IsAstral(s[k])) ==>
      RecipientCount(TargetIds(IdText(text, Some(JsString(s)))), FolderIds(folderIds), folders, caller) == Some(|s|)
  {
  }

  // ------------------------------------------------------------ submission

  /** How `broadcastQueue.add` ends against the 500 ms timeout: it
      resolves before the timeout fires, resolves only after it, or
      rejects. */
  datatype QueueAdd = AddedInTime | AddedLate | AddRejected

  /** The queue connection as the route finds it: its status, and how
      adding the job ends. */
  datatype Broker = Broker(status: string, add: QueueAdd)

  /** The statuses for which the route attempts the add at all. */
  predicate StatusUsable(status: string) {
    status == "ready" || status == "connect" || status == "connecting"
  }

  /** The in-process fallback: process at once, or after a timer. */
  datatype InProcess = ProcessNow | TimerAfter(delayMs: int)

  /** Where the new task goes: the delay of the queued job when an add is
      attempted and succeeds, and the in-process fallback when the route
      falls back. An add that succeeds only after the timeout sets both:
      the job is queued and also processed in-process. */
  datatype Submission = Submission(queued: Option<int>, fallback: Option<InProcess>)

  function Submit(scheduledAt: Option<int>, now: int, broker: Broker): (s: Submission)
    ensures s.queued.Some? <==> StatusUsable(broker.status) && !broker.add.AddRejected?
    ensures s.fallback.None? <==> StatusUsable(broker.status) && broker.add.AddedInTime?
    ensures s.queued.Some? || s.fallback.Some?
    ensures s.queued.Some? ==> s.queued.value >= 0
    ensures s.fallback.Some? && s.fallback.value.TimerAfter? ==> scheduledAt.Some? && scheduledAt.value > now
    ensures s.fallback == Some(ProcessNow) <==> s.fallback.Some? && (scheduledAt.None? || scheduledAt.value <= now)
  {
    var delay := if scheduledAt.Some? then scheduledAt.value - now else 0;
    var attempted := StatusUsable(broker.status);
    var queued := if attempted && !broker.add.AddRejected? then Some(if delay > 0 then delay else 0) else None;
    var fallback :=
      if attempted && broker.add.AddedInTime? then None
      else if scheduledAt.None? || scheduledAt.value <= now then Some(ProcessNow)
      else Some(TimerAfter(if scheduledAt.value - now > 0 then scheduledAt.value - now else 0));
    Submission(queued, fallback)
  }

  function FallbackDelay(p: InProcess): int {
    match p
    case ProcessNow => 0
    case TimerAfter(d) => d
  }

  /** How long from now processing is due when the task is scheduled at
      `scheduledAt`. */
  function DueIn(scheduledAt: Option<int>, now: int): int {
    if scheduledAt.Some? && scheduledAt.value > now then scheduledAt.value - now else 0
  }

  /** The fallback keeps the timing: whichever paths are taken, each is due
      `max(0, scheduledAt - now)` from now, or at once when unscheduled. */
  lemma FallbackKeepsTiming(scheduledAt: Option<int>, now: int, broker: Broker)
    ensures Submit(scheduledAt, now, broker).queued.Some? ==>
      Submit(scheduledAt, now, broker).queued.value == DueIn(scheduledAt, now)
    ensures Submit(scheduledAt, now, broker).fallback.Some? ==>
      FallbackDelay(Submit(scheduledAt, now, broker).fallback.value) == DueIn(scheduledAt, now)
  {
  }

  /** A late add runs the task twice: once from the queue and once
      in-process, both due at the same time. */
  lemma LateAddRunsTwice(scheduledAt: Option<int>, now: int, status: string)
    requires StatusUsable(status)
    ensures Submit(scheduledAt, now, Broker(status, AddedLate)).queued == Some(DueIn(scheduledAt, now))
    ensures Submit(scheduledAt, now, Broker(status, AddedLate)).fallback.Some?
    ensures FallbackDelay(Submit(scheduledAt, now, Broker(status, AddedLate)).fallback.value) == DueIn(scheduledAt, now)
  {
    FallbackKeepsTiming(scheduledAt, now, Broker(status, AddedLate));
  }

  // ------------------------------------------------------------ schedule

  datatype Caller = Caller(id: UserId, username: string)

  datatype ScheduleForm = ScheduleForm(
    name: string,
    taskType: string,
    content: Option<Content>,
    folderIds: IdsField,
    targetIds: IdsField,
    scheduledAt: Option<int>,
    expiryHours: Option<int>,
    files: seq<Upload>)

  datatype ScheduleResponse =
    | BadRequest(error: string)
    | ServerError(error: string)
    | Scheduled(taskId: string, submission: Submission)

  const DuplicateTaskId := "E11000 duplicate key error: taskId"

  /** The message of the validation error `task.save()` raises for a type
      outside the enum. */
  function InvalidTaskType(taskType: string): string {
    "Task validation failed: type: `" + taskType + "` is not a valid enum value for path `type`."
  }

  /** The task the schedule route persists: the form's fields, the mapped
      content (an empty object when none was sent), the recipient count,
      status `pending` and every other field at its default. */
  ghost predicate IsScheduledTask(t: Task, newId: string, caller: Caller, form: ScheduleForm, folders: seq<Folder>, now: int)
    reads t
  {
    && Some(t.taskType) == ParseTaskType(form.taskType)
    && Some(t.recipientCount) == RecipientCount(TargetIds(form.targetIds), FolderIds(form.folderIds), folders, caller.id)
    && HasFields(t, newId, caller, form.name, t.taskType,
                 if form.content.Some? then ApplyUploads(form.content.value, form.files) else EmptyContent,
                 Stored(TargetIds(form.targetIds)), Stored(FolderIds(form.folderIds)), t.recipientCount,
                 form.scheduledAt, form.expiryHours, now)
  }

  /** The fields `new Task({...})` is given, status `pending`, and every
      other field at its default. */
  ghost predicate HasFields(t: Task, newId: string, caller: Caller, name: string, taskType: TaskType,
                            content: Content, targetIds: seq<string>, folderIds: seq<string>, count: int,
                            scheduledAt: Option<int>, expiryHours: Option<int>, now: int)
    reads t
  {
    t.taskId == newId && t.status == StatusPending && t.createdBy == Some(caller.id)
    && t.createdByUsername == caller.username && t.name == name && t.taskType == taskType
    && t.targetIds == targetIds && t.folders == folderIds && t.recipientCount == count
    && t.content == content && t.scheduledAt == scheduledAt && t.expiryHours == expiryHours
    && t.results == NoResults && t.sentMessages == [] && t.completedAt == None && t.createdAt == now
  }

  /** `new Task({...})` with the route's fields. */
  method NewScheduledTask(newId: string, caller: Caller, name: string, taskType: TaskType, content: Content,
                          targetIds: seq<string>, folderIds: seq<string>, count: nat,
                          scheduledAt: Option<int>, expiryHours: Option<int>, now: int)
    returns (t: Task)
    ensures fresh(t)
    ensures HasFields(t, newId, caller, name, taskType, content, targetIds, folderIds, count, scheduledAt, expiryHours, now)
  {
    t := new Task(newId, Some(caller.id), caller.username, name, taskType, content, targetIds, folderIds,
                  count, scheduledAt, expiryHours, now);
  }

  /** The form passes every check of the schedule route: the uploads map,
      a name and a type are given, some recipient is selected, and the type
      is one of the enum's. */
  predicate PassesChecks(form: ScheduleForm, folders: seq<Folder>, caller: UserId) {
    && UploadsMap(form.content, form.files) && form.name != "" && form.taskType != ""
    && RecipientCount(TargetIds(form.targetIds), FolderIds(form.folderIds), folders, caller).Some?
    && ParseTaskType(form.taskType).Some?
  }

  /** `POST /tasks/schedule`: the checks in order (upload mapping, name,
      type, targets), then the task is saved as `pending` before the queue
      is tried, and the route answers 201 on either path. */
  method Schedule(store: TaskStore.Store, caller: Caller, form: ScheduleForm, folders: seq<Folder>,
                  newId: string, now: int, broker: Broker)
    returns (resp: ScheduleResponse)
    requires store.Valid()
    modifies store
    ensures store.Valid()
    ensures !resp.Scheduled? ==> store.tasks == old(store.tasks)
    ensures resp.Scheduled? ==>
      (newId !in old(store.tasks) && newId in store.tasks
       && store.tasks == old(store.tasks)[newId := store.tasks[newId]])
    ensures resp.Scheduled? ==>
      (resp.taskId == newId && resp.submission == Submit(form.scheduledAt, now, broker)
       && IsScheduledTask(store.tasks[newId], newId, caller, form, folders, now))
    ensures form.name == "" ==> !resp.Scheduled?
    ensures !UploadsMap(form.content, form.files) ==>
      FirstMediaField(form.files).Some?
      && resp == ServerError(UndefinedContent(form.files[FirstMediaField(form.files).value].fieldName))
    ensures UploadsMap(form.content, form.files) && form.name == "" ==> resp == BadRequest("Task name is required")
    ensures UploadsMap(form.content, form.files) && form.name != "" && form.taskType == "" ==>
      resp == BadRequest("Task type is required")
    ensures (UploadsMap(form.content, form.files) && form.name != "" && form.taskType != ""
             && Length(TargetIds(form.targetIds)) == 0 && Length(FolderIds(form.folderIds)) == 0)
      ==> resp == BadRequest("No targets selected")
    ensures (UploadsMap(form.content, form.files) && form.name != "" && form.taskType != ""
             && RecipientCount(TargetIds(form.targetIds), FolderIds(form.folderIds), folders, caller.id).Some?
             && ParseTaskType(form.taskType).None?)
      ==> resp == ServerError(InvalidTaskType(form.taskType))
    ensures PassesChecks(form, folders, caller.id) && newId in old(store.tasks) ==> resp == ServerError(DuplicateTaskId)
    /* A form passing every check is saved and scheduled. */
    ensures PassesChecks(form, folders, caller.id) && newId !in old(store.tasks) ==> resp.Scheduled?
  {
    var folderIds := FolderIds(form.folderIds);
    var targetIds := TargetIds(form.targetIds);
    var mapped := MapUploads(form.content, form.files);
    if mapped.Err? {
      return ServerError(mapped.error);
    }
    if form.name == "" {
      return BadRequest("Task name is required");
    }
    if form.taskType == "" {
      return BadRequest("Task type is required");
    }
    var count := RecipientCount(targetIds, folderIds, folders, caller.id);
    if count.None? {
      return BadRequest("No targets selected");
    }
    var taskType := ParseTaskType(form.taskType);
    if taskType.None? {
      return ServerError(InvalidTaskType(form.taskType));
    }
    assert PassesChecks(form, folders, caller.id);
    if newId in store.tasks {
      return ServerError(DuplicateTaskId);
    }
    var t := NewScheduledTask(newId, caller, form.name, taskType.value, mapped.value.GetOr(EmptyContent),
                              Stored(targetIds), Stored(folderIds), count.value, form.scheduledAt, form.expiryHours, now);
    store.Insert(t);
    resp := Scheduled(newId, Submit(form.scheduledAt, now, broker));
  }

  // ---------------------------------------------------------------- undo

  datatype UndoResponse =
    | UndoNotFound
    | NothingToUndo
    | UndoFailed(error: string)
    | UndoDone(results: TelegramService.DeleteReport)

  function EntriesOf(rs: seq<Receipt>): (es: seq<TelegramService.DeleteEntry>)
    ensures |es| == |rs|
    ensures forall k :: 0 <= k < |rs| ==> es[k] == TelegramService.DeleteEntry(rs[k].recipientId, Some(rs[k].messageId))
  {
    if rs == [] then [] else [TelegramService.DeleteEntry(rs[0].recipientId, Some(rs[0].messageId))] + EntriesOf(rs[1..])
  }

  /** The same receipts, in the same order: each names the same chat and
      message (only their metrics may differ). */
  predicate SameReceipts(a: seq<Receipt>, b: seq<Receipt>) {
    |a| == |b|
    && forall k :: 0 <= k < |a| ==> a[k].recipientId == b[k].recipientId && a[k].messageId == b[k].messageId
  }

  /** Refreshing metrics does not change which messages get deleted. */
  lemma SameReceiptsSameEntries(a: seq<Receipt>, b: seq<Receipt>)
    requires SameReceipts(a, b)
    ensures EntriesOf(a) == EntriesOf(b)
  {
    assert forall k :: 0 <= k < |a| ==> EntriesOf(a)[k] == EntriesOf(b)[k];
  }

  /** `POST /tasks/:taskId/undo`: refreshes the metrics (ignoring any
      failure), deletes every receipt's message, then marks the task undone
      whatever the per-message results, keeping its receipts. The status is
      not checked. Only the refreshed receipts, the status and the
      completion time are written. */
  method Undo(store: TaskStore.Store, taskId: string, tokens: TelegramService.TokenSources,
              metrics: Result<map<string, TelegramService.BatchMetrics>, string>,
              outcome: nat -> TelegramService.DeleteOutcome, now: int)
    returns (resp: UndoResponse)
    requires store.Valid()
    modifies if taskId in store.tasks then {store.tasks[taskId]} else {}
    ensures store.Valid()
    ensures taskId !in store.tasks ==> resp == UndoNotFound
    ensures taskId in store.tasks && old(store.tasks[taskId].sentMessages) == [] ==>
      resp == NothingToUndo && store.tasks[taskId].Record() == old(store.tasks[taskId].Record())
    ensures taskId in store.tasks && old(store.tasks[taskId].sentMessages) != [] ==>
      var t := store.tasks[taskId];
      var refreshed := old(t.Record()).(sentMessages :=
        TelegramService.MetricsAfter(old(t.sentMessages), old(t.createdBy), metrics, now));
      && (resp.UndoDone? || resp.UndoFailed?)
      && (resp.UndoFailed? <==> TelegramService.ResolveBotToken(old(t.createdBy), tokens) == [])
      && (resp.UndoFailed? ==> t.Record() == refreshed)
      && (resp.UndoDone? ==>
            t.Record() == refreshed.(status := Undone, completedAt := Some(now))
            && resp.results == TelegramService.DeleteUpTo(EntriesOf(old(t.sentMessages)), outcome, |old(t.sentMessages)|))
  {
    if taskId !in store.tasks {
      return UndoNotFound;
    }
    var t := store.tasks[taskId];
    if t.sentMessages == [] {
      return NothingToUndo;
    }
    var _ := TelegramService.UpdateMetrics(store, taskId, metrics, now);
    SameReceiptsSameEntries(t.sentMessages, old(t.sentMessages));
    resp := DeleteAndMark(t, tokens, outcome, now);
  }

  /** The second half of the undo route: every receipt's message is
      deleted with the creator's bot, then the task is marked undone; when
      no bot token resolves the deletion throws and nothing is written. */
  method DeleteAndMark(t: Task, tokens: TelegramService.TokenSources,
                       outcome: nat -> TelegramService.DeleteOutcome, now: int)
    returns (resp: UndoResponse)
    modifies t
    ensures resp.UndoDone? || resp.UndoFailed?
    ensures resp.UndoFailed? <==> TelegramService.ResolveBotToken(old(t.createdBy), tokens) == []
    ensures resp.UndoFailed? ==> t.Record() == old(t.Record())
    ensures resp.UndoDone? ==>
      t.Record() == old(t.Record()).(status := Undone, completedAt := Some(now))
      && resp.results == TelegramService.DeleteUpTo(EntriesOf(old(t.sentMessages)), outcome, |old(t.sentMessages)|)
  {
    var entries := EntriesOf(t.sentMessages);
    var deleted := TelegramService.DeleteMessages(TelegramService.DeleteFor(t.createdBy, entries), tokens, outcome);
    if deleted.Err? {
      return UndoFailed(deleted.error);
    }
    t.status := Undone;
    t.completedAt := Some(now);
    return UndoDone(deleted.value);
  }

  // --------------------------------------------------------------- retry

  datatype RetryResponse = RetryNotFound | NotRetryable | Retried(requeued: bool)

  /** `POST /tasks/:taskId/retry`: only a failed task is reset to pending
      with empty results and receipts and a new `createdAt`; every other
      field, `completedAt` included, is left as it was. It is re-queued
      without delay, or processed directly when the queue fails. */
  method Retry(store: TaskStore.Store, taskId: string, now: int, queueAccepts: bool)
    returns (resp: RetryResponse)
    requires store.Valid()
    modifies if taskId in store.tasks then {store.tasks[taskId]} else {}
    ensures store.Valid()
    ensures taskId !in store.tasks ==> resp == RetryNotFound
    ensures taskId in store.tasks ==>
      var t := store.tasks[taskId];
      (old(t.status) != Failed ==> resp == NotRetryable && t.Record() == old(t.Record())) &&
      (old(t.status) == Failed ==>
        resp == Retried(queueAccepts)
        && t.Record() == old(t.Record()).(status := StatusPending, results := NoResults, sentMessages := [], createdAt := now))
  {
    if taskId !in store.tasks {
      return RetryNotFound;
    }
    var t := store.tasks[taskId];
    if t.status != Failed {
      return NotRetryable;
    }
    t.status := StatusPending;
    t.results := NoResults;
    t.sentMessages := [];
    t.createdAt := now;
    return Retried(queueAccepts);
  }

  // --------------------------------------------------- metrics and history

  datatype MetricsResponse = MetricsOk(reply: TelegramService.MetricsReply) | MetricsError(error: string)

  /** `POST /tasks/:taskId/update-metrics`: the service's reply, or its
      error as a server error. */
  method RefreshMetrics(store: TaskStore.Store, taskId: string,
                        fetch: Result<map<string, TelegramService.BatchMetrics>, string>, now: int)
    returns (resp: MetricsResponse)
    requires store.Valid()
    modifies if taskId in store.tasks then {store.tasks[taskId]} else {}
    ensures store.Valid()
    ensures taskId !in store.tasks || old(store.tasks[taskId].sentMessages) == [] ==>
      resp == MetricsOk(TelegramService.TaskOrMessagesNotFound)
    ensures taskId in store.tasks ==>
      var t := store.tasks[taskId];
      t.Record() == old(t.Record()).(sentMessages := TelegramService.MetricsAfter(old(t.sentMessages), old(t.createdBy), fetch, now))
    ensures taskId in store.tasks && old(store.tasks[taskId].sentMessages) != [] ==>
      var t := store.tasks[taskId];
      (t.createdBy.None? ==> resp == MetricsError(TelegramService.MissingCreator)) &&
      (t.createdBy.Some? && fetch.Err? ==> resp == MetricsError(fetch.error)) &&
      (t.createdBy.Some? && fetch.Ok? ==>
        resp == MetricsOk(TelegramService.MetricsUpdated(TelegramService.CountKeyed(old(t.sentMessages), fetch.value))))
  {
    var r := TelegramService.UpdateMetrics(store, taskId, fetch, now);
    if r.Err? {
      return MetricsError(r.error);
    }
    return MetricsOk(r.value);
  }

  /** `DELETE /tasks/history`: every task is removed. */
  method ClearHistory(store: TaskStore.Store) returns (deletedCount: nat)
    modifies store
    ensures store.Valid() && store.tasks == map[]
    ensures deletedCount == |old(store.tasks)|
  {
    deletedCount := |store.tasks|;
    store.Clear();
  }
}
