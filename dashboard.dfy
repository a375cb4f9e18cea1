/** The dashboard's figures over the task list: counts by status, the
    recipients reached, the scheduled card and the active-expiry card with
    its three soonest expiries. `now` is the browser clock, in milliseconds. */
module Dashboard {
  import opened Wrappers
  import opened Schema
  import Sorting

  /** `tasks.filter(p)`. */
  function Filter<T>(s: seq<T>, p: T -> bool): (r: seq<T>)
    ensures |r| <= |s|
  {
    if s == [] then [] else Filter(s[..|s| - 1], p) + (if p(s[|s| - 1]) then [s[|s| - 1]] else [])
  }

  /** `filter` keeps exactly the elements satisfying the predicate. */
  lemma {:induction false} FilterMembers<T>(s: seq<T>, p: T -> bool)
    ensures forall x :: x in Filter(s, p) <==> x in s && p(x)
  {
    if s != [] {
      FilterMembers(s[..|s| - 1], p);
      assert s == s[..|s| - 1] + [s[|s| - 1]];
    }
  }

  function CountStatus(tasks: seq<TaskRecord>, st: TaskStatus): nat {
    |Filter(tasks, (t: TaskRecord) => t.status == st)|
  }

  /** `completedTasks`, the pending figure and `expiredCount`. */
  function CompletedTasks(tasks: seq<TaskRecord>): nat { CountStatus(tasks, Completed) }
  function PendingTasks(tasks: seq<TaskRecord>): nat { CountStatus(tasks, StatusPending) }
  function ExpiredCount(tasks: seq<TaskRecord>): nat { CountStatus(tasks, Expired) }

  lemma {:induction false} CountStatusAppend(a: seq<TaskRecord>, t: TaskRecord, st: TaskStatus)
    ensures CountStatus(a + [t], st) == CountStatus(a, st) + (if t.status == st then 1 else 0)
  {
    assert (a + [t])[..|a|] == a;
  }

  /** A task is counted under one status at most, so the three cards never
      count more tasks than there are. */
  lemma {:induction false} StatusCountsBounded(tasks: seq<TaskRecord>)
    ensures CompletedTasks(tasks) + PendingTasks(tasks) + ExpiredCount(tasks) <= |tasks|
  {
    if tasks != [] {
      var init := tasks[..|tasks| - 1];
      StatusCountsBounded(init);
      assert tasks == init + [tasks[|tasks| - 1]];
      CountStatusAppend(init, tasks[|tasks| - 1], Completed);
      CountStatusAppend(init, tasks[|tasks| - 1], StatusPending);
      CountStatusAppend(init, tasks[|tasks| - 1], Expired);
    }
  }

  /** `tasks.reduce((sum, t) => sum + (t.recipientCount || 0), 0)`. */
  function TotalRecipients(tasks: seq<TaskRecord>): int {
    if tasks == [] then 0 else TotalRecipients(tasks[..|tasks| - 1]) + tasks[|tasks| - 1].recipientCount
  }

  /** The total adds up over any split of the list. */
  lemma {:induction false} TotalRecipientsAppend(a: seq<TaskRecord>, b: seq<TaskRecord>)
    ensures TotalRecipients(a + b) == TotalRecipients(a) + TotalRecipients(b)
  {
    if b != [] {
      var init := b[..|b| - 1];
      TotalRecipientsAppend(a, init);
      assert (a + b)[..|a + b| - 1] == a + init;
    } else {
      assert a + b == a;
    }
  }

  /** With no negative counts, every task's recipients are within the total. */
  lemma {:induction false} TotalRecipientsBound(tasks: seq<TaskRecord>, k: nat)
    requires forall i :: 0 <= i < |tasks| ==> tasks[i].recipientCount >= 0
    requires k < |tasks|
    ensures 0 <= tasks[k].recipientCount <= TotalRecipients(tasks)
  {
    var init := tasks[..|tasks| - 1];
    TotalRecipientsNonNegative(init);
    if k < |init| {
      TotalRecipientsBound(init, k);
    }
  }

  lemma {:induction false} TotalRecipientsNonNegative(tasks: seq<TaskRecord>)
    requires forall i :: 0 <= i < |tasks| ==> tasks[i].recipientCount >= 0
    ensures TotalRecipients(tasks) >= 0
  {
    if tasks != [] {
      TotalRecipientsNonNegative(tasks[..|tasks| - 1]);
    }
  }

  /** Pending with `scheduledAt` later than now; a `null` date reads as the
      epoch, which is never later. */
  predicate IsScheduledPending(t: TaskRecord, now: int) {
    t.status == StatusPending && t.scheduledAt.Some? && t.scheduledAt.value > now
  }

  /** Completed and carrying a `scheduledAt`. */
  predicate IsScheduledSent(t: TaskRecord) {
    t.status == Completed && t.scheduledAt.Some?
  }

  function ScheduledPending(tasks: seq<TaskRecord>, now: int): seq<TaskRecord> {
    Filter(tasks, (t: TaskRecord) => IsScheduledPending(t, now))
  }

  function ScheduledSent(tasks: seq<TaskRecord>): seq<TaskRecord> {
    Filter(tasks, IsScheduledSent)
  }

  /** The scheduled card counts the pending tasks still due and lists the
      first three of them; its "sent" figure counts completed scheduled
      tasks, so a task is never in both. */
  lemma ScheduledCard(tasks: seq<TaskRecord>, now: int)
    ensures forall t :: t in ScheduledPending(tasks, now) <==>
              t in tasks && t.status == StatusPending && t.scheduledAt.Some? && t.scheduledAt.value > now
    ensures forall t :: t in ScheduledSent(tasks) <==> t in tasks && t.status == Completed && t.scheduledAt.Some?
    ensures forall t :: !(t in ScheduledPending(tasks, now) && t in ScheduledSent(tasks))
    ensures |Sorting.Take(ScheduledPending(tasks, now), 3)| == if |ScheduledPending(tasks, now)| < 3 then |ScheduledPending(tasks, now)| else 3
    ensures forall k :: 0 <= k < |Sorting.Take(ScheduledPending(tasks, now), 3)| ==>
              Sorting.Take(ScheduledPending(tasks, now), 3)[k] == ScheduledPending(tasks, now)[k]
  {
    FilterMembers(tasks, (t: TaskRecord) => IsScheduledPending(t, now));
    FilterMembers(tasks, IsScheduledSent);
  }

  // ------------------------------------------------------------- expiry

  /** A task with its computed `expiresAt`. */
  datatype Expiring = Expiring(task: TaskRecord, expiresAt: int)

  /** `completedAt + expiryHours * 60 * 60 * 1000` for a completed task with
      a positive expiry and a completion time. */
  function ExpiresAt(t: TaskRecord): (r: Option<int>)
    ensures r.Some? <==> t.status == Completed && t.expiryHours.Some? && t.expiryHours.value > 0 && t.completedAt.Some?
    ensures r.Some? ==> r.value > t.completedAt.value
  {
    if t.status == Completed && t.expiryHours.Some? && t.expiryHours.value > 0 && t.completedAt.Some? then
      Some(t.completedAt.value + t.expiryHours.value * 3_600_000)
    else None
  }

  /** `activeExpiryTasks`: the map to `{...t, expiresAt}` or null, then the
      filter on `expiresAt > now`. */
  function ActiveExpiry(tasks: seq<TaskRecord>, now: int): seq<Expiring> {
    if tasks == [] then []
    else
      var t := tasks[|tasks| - 1];
      var at := ExpiresAt(t);
      ActiveExpiry(tasks[..|tasks| - 1], now) + (if at.Some? && at.value > now then [Expiring(t, at.value)] else [])
  }

  lemma {:induction false} ActiveExpiryMembers(tasks: seq<TaskRecord>, now: int)
    ensures forall e :: e in ActiveExpiry(tasks, now) <==>
              e.task in tasks && ExpiresAt(e.task) == Some(e.expiresAt) && e.expiresAt > now
  {
    if tasks != [] {
      ActiveExpiryMembers(tasks[..|tasks| - 1], now);
      assert tasks == tasks[..|tasks| - 1] + [tasks[|tasks| - 1]];
    }
  }

  function ExpiryKey(e: Expiring): int { e.expiresAt }

  /** `activeExpiryTasks.sort((a, b) => a.expiresAt - b.expiresAt).slice(0, 3)`. */
  function ExpiryCard(tasks: seq<TaskRecord>, now: int): seq<Expiring> {
    Sorting.Take(Sorting.SortBy(ActiveExpiry(tasks, now), ExpiryKey), 3)
  }

  /** The earliest elements after a stable sort: `rest` holds the others,
      none of which comes before any kept one. */
  predicate SoonestSplit(card: seq<Expiring>, rest: seq<Expiring>) {
    forall i, j :: 0 <= i < |card| && 0 <= j < |rest| ==> card[i].expiresAt <= rest[j].expiresAt
  }

  lemma {:induction false} TakeSoonest(active: seq<Expiring>)
    ensures var card := Sorting.Take(Sorting.SortBy(active, ExpiryKey), 3);
      Sorting.SortedBy(card, ExpiryKey)
      && var rest := Sorting.SortBy(active, ExpiryKey)[|card|..];
         multiset(card) + multiset(rest) == multiset(active) && SoonestSplit(card, rest)
  {
    var sorted := Sorting.SortBy(active, ExpiryKey);
    Sorting.SortBySorted(active, ExpiryKey);
    var card := Sorting.Take(sorted, 3);
    var rest := sorted[|card|..];
    assert sorted == card + rest;
    forall i, j | 0 <= i < |card| && 0 <= j < |rest| ensures card[i].expiresAt <= rest[j].expiresAt {
      assert card[i] == sorted[i] && rest[j] == sorted[|card| + j];
    }
  }

  /** The card shows the three soonest active expiries (fewer if there are
      fewer), soonest first: the active tasks it leaves out expire no
      earlier than any it shows. */
  lemma ExpiryCardSoonest(tasks: seq<TaskRecord>, now: int)
    ensures var active := ActiveExpiry(tasks, now);
            var card := ExpiryCard(tasks, now);
      |card| == (if |active| < 3 then |active| else 3)
      && Sorting.SortedBy(card, ExpiryKey)
      && exists rest: seq<Expiring> :: multiset(card) + multiset(rest) == multiset(active) && SoonestSplit(card, rest)
  {
    var active := ActiveExpiry(tasks, now);
    TakeSoonest(active);
    var rest := Sorting.SortBy(active, ExpiryKey)[|ExpiryCard(tasks, now)|..];
    assert multiset(ExpiryCard(tasks, now)) + multiset(rest) == multiset(active);
  }
}
