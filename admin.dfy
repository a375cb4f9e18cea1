/** The admin routes: the approvals list, approving and denying accounts,
    role changes under the single-admin rule, and a user's summary. Every
    route sits behind `Auth.RequireAuth` and `Auth.RequireRole([Admin])`. */
module Admin {
  import opened Wrappers
  import opened Schema
  import Sorting
  import Accounts

  // ---------------------------------------------------------- approvals

  /** The sort key of `sort({ createdAt: -1 })`. */
  function NewestUserFirst(u: User): int {
    -u.createdAt
  }

  /** The `status` query values the approvals list accepts. */
  predicate ValidStatusQuery(status: string) {
    status == "pending" || status == "approved" || status == "denied" || status == "all"
  }

  /** The query `{ role: { $in: [moderator, viewer] }, approvalStatus }`:
      admins are never listed, and `all` drops the status condition. */
  predicate Listed(u: User, status: string) {
    u.role != Admin && (status == "all" || ApprovalName(u.approvalStatus) == status)
  }

  /** The matching documents, each as often as it is stored. */
  function FilterListed(users: seq<User>, status: string): (r: seq<User>)
    ensures forall u :: u in r <==> u in users && Listed(u, status)
    ensures forall u :: multiset(r)[u] == if Listed(u, status) then multiset(users)[u] else 0
  {
    if users == [] then []
    else
      assert users == [users[0]] + users[1..];
      (if Listed(users[0], status) then [users[0]] else []) + FilterListed(users[1..], status)
  }

  /** A user as `.select('username role approvalStatus createdAt
      lastActiveAt')` returns it: the id and those fields, never the
      password hash or the Telegram credentials. */
  datatype UserView = UserView(id: UserId, username: string, role: Role, approvalStatus: ApprovalStatus, createdAt: int)

  function ViewOf(u: User): UserView {
    UserView(u.id, u.username, u.role, u.approvalStatus, u.createdAt)
  }

  function NewestViewFirst(v: UserView): int {
    -v.createdAt
  }

  function Views(us: seq<User>): (r: seq<UserView>)
    ensures |r| == |us|
    ensures forall k :: 0 <= k < |us| ==> r[k] == ViewOf(us[k])
  {
    if us == [] then [] else [ViewOf(us[0])] + Views(us[1..])
  }

  /** `find(query).sort({ createdAt: -1 }).select(...)`: the projection of
      every matching user, newest first. */
  function NewestViews(us: seq<User>): (r: seq<UserView>)
    ensures |r| == |us|
    ensures forall u :: u in us ==> ViewOf(u) in r
    ensures forall v :: v in r ==> exists u :: u in us && v == ViewOf(u)
    ensures Sorting.SortedBy(r, NewestViewFirst)
  {
    var sorted := Sorting.SortBy(us, NewestUserFirst);
    Sorting.SortBySorted(us, NewestUserFirst);
    ViewsKeepOrder(us, sorted);
    Views(sorted)
  }

  lemma ViewsKeepOrder(us: seq<User>, sorted: seq<User>)
    requires multiset(sorted) == multiset(us) && Sorting.SortedBy(sorted, NewestUserFirst)
    ensures forall u :: u in us ==> ViewOf(u) in Views(sorted)
    ensures forall v :: v in Views(sorted) ==> exists u :: u in us && v == ViewOf(u)
    ensures Sorting.SortedBy(Views(sorted), NewestViewFirst)
  {
    ViewsPresent(us, sorted);
    ViewsDrawn(us, sorted);
    var r := Views(sorted);
    forall i, j | 0 <= i < j < |r| ensures NewestViewFirst(r[i]) <= NewestViewFirst(r[j]) {
      assert NewestUserFirst(sorted[i]) <= NewestUserFirst(sorted[j]);
    }
  }

  lemma ViewsPresent(us: seq<User>, sorted: seq<User>)
    requires multiset(sorted) == multiset(us)
    ensures forall u :: u in us ==> ViewOf(u) in Views(sorted)
  {
    var r := Views(sorted);
    forall u | u in us ensures ViewOf(u) in r {
      assert u in multiset(sorted);
      var k :| 0 <= k < |sorted| && sorted[k] == u;
      assert r[k] == ViewOf(u);
    }
  }

  lemma ViewsDrawn(us: seq<User>, sorted: seq<User>)
    requires multiset(sorted) == multiset(us)
    ensures forall v :: v in Views(sorted) ==> exists u :: u in us && v == ViewOf(u)
  {
    var r := Views(sorted);
    forall v | v in r ensures exists u :: u in us && v == ViewOf(u) {
      var k :| 0 <= k < |r| && r[k] == v;
      assert sorted[k] in multiset(us);
      assert sorted[k] in us && v == ViewOf(sorted[k]);
    }
  }


  /** `GET /approvals`: an absent or empty `status` means `pending`; the
      listed users' projections, newest first. */
  function Approvals(users: seq<User>, statusQuery: Option<string>): (r: Result<seq<UserView>, string>)
    ensures var status := if statusQuery.Some? && statusQuery.value != [] then statusQuery.value else "pending";
      && (r.Err? <==> !ValidStatusQuery(status))
      && (r.Err? ==> r.error == "Invalid status")
      && (r.Ok? ==> |r.value| == |FilterListed(users, status)|)
      && (r.Ok? ==> (forall u :: u in users && Listed(u, status) ==> ViewOf(u) in r.value)
                    && (forall v :: v in r.value ==> exists u :: u in users && Listed(u, status) && v == ViewOf(u))
                    && Sorting.SortedBy(r.value, NewestViewFirst))
  {
    var status := if statusQuery.Some? && statusQuery.value != [] then statusQuery.value else "pending";
    if !ValidStatusQuery(status) then Err("Invalid status")
    else Ok(NewestViews(FilterListed(users, status)))
  }

  /** `GET /users`: every user's projection, admins included, newest first. */
  function Directory(users: seq<User>): (r: seq<UserView>)
    ensures |r| == |users|
    ensures forall u :: u in users ==> ViewOf(u) in r
    ensures forall v :: v in r ==> exists u :: u in users && v == ViewOf(u)
    ensures Sorting.SortedBy(r, NewestViewFirst)
  {
    NewestViews(users)
  }

  // ---------------------------------------------------------- directory

  datatype AdminReply = UserNotFound | AdminBadRequest(error: string) | AdminOk(message: string)

  /** The position of the user with id `id`. */
  function PositionOf(users: seq<User>, id: UserId): (r: Option<nat>)
    ensures r.Some? ==> r.value < |users| && users[r.value].id == id
    ensures r.None? <==> forall k :: 0 <= k < |users| ==> users[k].id != id
  {
    if users == [] then None
    else if users[0].id == id then Some(0)
    else
      var rest := PositionOf(users[1..], id);
      if rest.Some? then Some(rest.value + 1) else None
  }

  /** The user collection the admin routes update in place. */
  class UserDirectory {
    var users: seq<User>

    ghost predicate Valid()
      reads this
    {
      Accounts.IdsUnique(users)
    }

    constructor (users: seq<User>)
      requires Accounts.IdsUnique(users)
      ensures Valid() && this.users == users
    {
      this.users := users;
    }

    /** `POST /users/:id/approve` (`approve`) and `/deny`: 404 for an
        unknown user, 400 for the admin, otherwise only that user's
        `approvalStatus` changes. */
    method Review(userId: UserId, approve: bool) returns (reply: AdminReply)
      requires Valid()
      modifies this
      ensures Valid()
      ensures PositionOf(old(users), userId).None? ==> reply == UserNotFound && users == old(users)
      ensures PositionOf(old(users), userId).Some? ==>
        var k := PositionOf(old(users), userId).value;
        if old(users)[k].role == Admin then
          reply == AdminBadRequest(if approve then "Cannot approve admin" else "Cannot deny admin")
          && users == old(users)
        else
          reply.AdminOk?
          && users == old(users)[k := old(users)[k].(approvalStatus := if approve then Approved else Denied)]
      ensures forall k :: 0 <= k < |users| ==> users[k].role == old(users)[k].role
    {
      var pos := PositionOf(users, userId);
      if pos.None? {
        return UserNotFound;
      }
      var k := pos.value;
      if users[k].role == Admin {
        return AdminBadRequest(if approve then "Cannot approve admin" else "Cannot deny admin");
      }
      users := users[k := users[k].(approvalStatus := if approve then Approved else Denied)];
      reply := AdminOk(if approve then "User approved" else "User denied");
    }

    /** `PATCH /users/:id/role`: rejects unknown roles, never takes the
        admin role away, refuses a second admin, and approves whoever
        becomes admin. */
    method ChangeRole(userId: UserId, role: string) returns (reply: AdminReply)
      requires Valid()
      modifies this
      ensures Valid()
      ensures ParseRole(role).None? ==> reply == AdminBadRequest("Invalid role") && users == old(users)
      ensures ParseRole(role).Some? && PositionOf(old(users), userId).None? ==> reply == UserNotFound
      ensures ParseRole(role).Some? && PositionOf(old(users), userId).Some? ==>
        var u := old(users)[PositionOf(old(users), userId).value];
        && (u.role == Admin && role != "admin" ==> reply == AdminBadRequest("Cannot change admin role"))
        && (role == "admin" && Accounts.FindAdmin(old(users)).Some? && Accounts.FindAdmin(old(users)).value.id != userId ==>
              reply == AdminBadRequest("Admin already exists"))
      ensures reply.AdminOk? <==>
        && ParseRole(role).Some?
        && PositionOf(old(users), userId).Some?
        && (old(users)[PositionOf(old(users), userId).value].role == Admin ==> role == "admin")
        && (role == "admin" && Accounts.FindAdmin(old(users)).Some? ==> Accounts.FindAdmin(old(users)).value.id == userId)
      ensures !reply.AdminOk? ==> users == old(users)
      ensures reply.AdminOk? ==>
        var k := PositionOf(old(users), userId).value;
        var r := ParseRole(role).value;
        users == old(users)[k := old(users)[k].(role := r,
                                                approvalStatus := if r == Admin then Approved else old(users)[k].approvalStatus)]
      ensures forall k :: 0 <= k < |old(users)| && old(users)[k].role == Admin ==> users[k].role == Admin
      ensures Accounts.AtMostOneAdmin(old(users)) ==> Accounts.AtMostOneAdmin(users)
    {
      var parsed := ParseRole(role);
      if parsed.None? {
        return AdminBadRequest("Invalid role");
      }
      var pos := PositionOf(users, userId);
      if pos.None? {
        return UserNotFound;
      }
      var k := pos.value;
      if users[k].role == Admin && parsed.value != Admin {
        return AdminBadRequest("Cannot change admin role");
      }
      if parsed.value == Admin {
        var existing := Accounts.FindAdmin(users);
        if existing.Some? && existing.value.id != userId {
          return AdminBadRequest("Admin already exists");
        }
        if existing.None? {
          assert forall j :: 0 <= j < |users| ==> users[j] in users && users[j].role != Admin;
        } else {
          OnlyAdminIsAt(users, k);
        }
      }
      var old_users := users;
      users := users[k := users[k].(role := parsed.value,
                                    approvalStatus := if parsed.value == Admin then Approved else users[k].approvalStatus)];
      assert forall j :: 0 <= j < |users| && j != k ==> users[j] == old_users[j];
      reply := AdminOk("Role updated");
    }
  }

  /** With unique ids, when the first admin is the user at `k` and admins
      are at most one, no other position holds an admin. */
  lemma OnlyAdminIsAt(users: seq<User>, k: nat)
    requires k < |users| && Accounts.IdsUnique(users)
    requires Accounts.FindAdmin(users).Some? && Accounts.FindAdmin(users).value.id == users[k].id
    ensures Accounts.AtMostOneAdmin(users) ==> forall j :: 0 <= j < |users| && j != k ==> users[j].role != Admin
  {
    var a := Accounts.FindAdmin(users).value;
    var i :| 0 <= i < |users| && users[i] == a;
    assert i == k;
  }

  // ------------------------------------------------------------ summary

  /** `Task.countDocuments({ createdBy })`. */
  function TasksCount(tasks: seq<TaskRecord>, userId: UserId): (n: nat)
    ensures n <= |tasks|
    ensures n == 0 <==> forall t :: t in tasks ==> t.createdBy != Some(userId)
    ensures n == |tasks| <==> forall t :: t in tasks ==> t.createdBy == Some(userId)
  {
    if tasks == [] then 0
    else
      var last := tasks[|tasks| - 1];
      assert forall t :: t in tasks <==> t in tasks[..|tasks| - 1] || t == last;
      TasksCount(tasks[..|tasks| - 1], userId) + (if last.createdBy == Some(userId) then 1 else 0)
  }

  predicate Sent(t: TaskRecord) {
    t.status == Completed || t.status == PartiallyCompleted
  }

  /** `tasksSentCount`: the user's tasks that completed, fully or partly. */
  function TasksSentCount(tasks: seq<TaskRecord>, userId: UserId): nat {
    if tasks == [] then 0
    else
      var t := tasks[|tasks| - 1];
      TasksSentCount(tasks[..|tasks| - 1], userId) + (if t.createdBy == Some(userId) && Sent(t) then 1 else 0)
  }

  /** Sent tasks are among the user's tasks. */
  lemma {:induction false} SentAmongTasks(tasks: seq<TaskRecord>, userId: UserId)
    ensures TasksSentCount(tasks, userId) <= TasksCount(tasks, userId)
    ensures (forall t :: t in tasks ==> !Sent(t)) ==> TasksSentCount(tasks, userId) == 0
  {
    if tasks != [] {
      SentAmongTasks(tasks[..|tasks| - 1], userId);
      assert forall t :: t in tasks[..|tasks| - 1] ==> t in tasks;
    }
  }

  /** `Folder.countDocuments({ userId })`. */
  function FoldersCount(folders: seq<Folder>, userId: UserId): (n: nat)
    ensures n <= |folders|
    ensures n == 0 <==> forall f :: f in folders ==> f.userId != userId
    ensures n == |folders| <==> forall f :: f in folders ==> f.userId == userId
  {
    if folders == [] then 0
    else
      var last := folders[|folders| - 1];
      assert forall f :: f in folders <==> f in folders[..|folders| - 1] || f == last;
      FoldersCount(folders[..|folders| - 1], userId) + (if last.userId == userId then 1 else 0)
  }

  /** `Task.find({ createdBy })`, in natural order. */
  function TasksOf(tasks: seq<TaskRecord>, userId: UserId): (r: seq<TaskRecord>)
    ensures forall t :: t in r <==> t in tasks && t.createdBy == Some(userId)
    ensures |r| == TasksCount(tasks, userId)
  {
    if tasks == [] then []
    else
      var last := tasks[|tasks| - 1];
      assert forall t :: t in tasks <==> t in tasks[..|tasks| - 1] || t == last;
      TasksOf(tasks[..|tasks| - 1], userId) + (if last.createdBy == Some(userId) then [last] else [])
  }

  function NewestTaskFirst(t: TaskRecord): int {
    -t.createdAt
  }

  /** `.sort({ createdAt: -1 }).limit(25)` over the user's tasks: the 25
      newest (all of them when fewer), newest first; no task left out is
      newer than one listed. */
  function NewestTasks(tasks: seq<TaskRecord>, userId: UserId): (r: seq<TaskRecord>)
    ensures |r| == if TasksCount(tasks, userId) < 25 then TasksCount(tasks, userId) else 25
    ensures Sorting.SortedBy(r, NewestTaskFirst)
    ensures forall t :: t in r ==> t in tasks && t.createdBy == Some(userId)
    ensures multiset(r) <= multiset(TasksOf(tasks, userId))
    ensures forall t, u :: t in r && u in multiset(TasksOf(tasks, userId)) - multiset(r) ==> u.createdAt <= t.createdAt
  {
    var own := TasksOf(tasks, userId);
    NewestOfOwn(own);
    Sorting.Take(Sorting.SortBy(own, NewestTaskFirst), 25)
  }

  lemma NewestOfOwn(own: seq<TaskRecord>)
    ensures var r := Sorting.Take(Sorting.SortBy(own, NewestTaskFirst), 25);
      && Sorting.SortedBy(r, NewestTaskFirst)
      && (forall t :: t in r ==> t in own)
      && multiset(r) <= multiset(own)
      && (forall t, u :: t in r && u in multiset(own) - multiset(r) ==> u.createdAt <= t.createdAt)
  {
    var r := Sorting.Take(Sorting.SortBy(own, NewestTaskFirst), 25);
    Sorting.TakeSorted(own, NewestTaskFirst, 25);
    forall t | t in r ensures t in own {
      var k :| 0 <= k < |r| && r[k] == t;
    }
    forall t, u | t in r && u in multiset(own) - multiset(r) ensures u.createdAt <= t.createdAt {
      assert NewestTaskFirst(t) <= NewestTaskFirst(u);
    }
  }

  /** A task as `.select('taskId name type status recipientCount
      scheduledAt createdAt completedAt createdByUsername')` returns it. */
  datatype TaskView = TaskView(taskId: string, name: string, taskType: TaskType, status: TaskStatus,
                               recipientCount: int, scheduledAt: Option<int>, createdAt: int,
                               completedAt: Option<int>, createdByUsername: string)

  function TaskViewOf(t: TaskRecord): TaskView {
    TaskView(t.taskId, t.name, t.taskType, t.status, t.recipientCount, t.scheduledAt, t.createdAt,
             t.completedAt, t.createdByUsername)
  }

  function TaskViews(ts: seq<TaskRecord>): (r: seq<TaskView>)
    ensures |r| == |ts|
    ensures forall k :: 0 <= k < |ts| ==> r[k] == TaskViewOf(ts[k])
  {
    if ts == [] then [] else [TaskViewOf(ts[0])] + TaskViews(ts[1..])
  }

  datatype Summary = Summary(user: UserView, foldersCount: nat, tasksCount: nat, tasksSentCount: nat,
                             recentTasks: seq<TaskView>)

  /** `GET /users/:id/summary`: 404 for an unknown user, otherwise the
      user's projection, the counts of their folders, tasks and sent
      tasks, and their 25 newest tasks' projections. */
  function UserSummary(users: seq<User>, tasks: seq<TaskRecord>, folders: seq<Folder>, userId: UserId): (r: Option<Summary>)
    ensures r.None? <==> PositionOf(users, userId).None?
    ensures r.Some? ==>
      && r.value.user == ViewOf(users[PositionOf(users, userId).value])
      && r.value.user.id == userId
      && r.value.foldersCount == FoldersCount(folders, userId)
      && r.value.tasksCount == TasksCount(tasks, userId)
      && r.value.tasksSentCount == TasksSentCount(tasks, userId)
      && r.value.tasksSentCount <= r.value.tasksCount
      && r.value.recentTasks == TaskViews(NewestTasks(tasks, userId))
  {
    var pos := PositionOf(users, userId);
    if pos.None? then None
    else
      SentAmongTasks(tasks, userId);
      Some(Summary(ViewOf(users[pos.value]), FoldersCount(folders, userId), TasksCount(tasks, userId),
                   TasksSentCount(tasks, userId), TaskViews(NewestTasks(tasks, userId))))
  }
}
