/** The Task collection: task documents keyed by their unique `taskId`,
    together with the collection's natural (insertion) order, which is the
    order a query returns documents that its sort leaves tied. */
module TaskStore {
  import opened Schema
  import Sorting

  class Store {
    var tasks: map<string, Task>
    var order: seq<string>

    /** Every document sits under its own `taskId` (so no two keys share a
        document), and `order` lists each key exactly once. */
    ghost predicate Valid()
      reads this, tasks.Values
    {
      (forall id :: id in tasks ==> tasks[id].taskId == id) &&
      (forall i, j :: 0 <= i < j < |order| ==> order[i] != order[j]) &&
      (forall id :: id in tasks <==> id in order)
    }

    constructor ()
      ensures Valid() && tasks == map[] && order == []
    {
      tasks := map[];
      order := [];
    }

    /** Saving a new document: `taskId` is unique, so the key must be new. */
    method Insert(t: Task)
      requires Valid() && t.taskId !in tasks
      modifies this
      ensures Valid()
      ensures tasks == old(tasks)[t.taskId := t] && order == old(order) + [t.taskId]
    {
      tasks := tasks[t.taskId := t];
      order := order + [t.taskId];
    }

    /** `Task.deleteMany({})` */
    method Clear()
      modifies this
      ensures Valid() && tasks == map[] && order == []
    {
      tasks := map[];
      order := [];
    }

    function RecordsOf(ids: seq<string>): (r: seq<TaskRecord>)
      requires forall i :: 0 <= i < |ids| ==> ids[i] in tasks
      reads this, tasks.Values
      ensures |r| == |ids|
      ensures forall i :: 0 <= i < |ids| ==> r[i] == tasks[ids[i]].Record()
    {
      if ids == [] then [] else [tasks[ids[0]].Record()] + RecordsOf(ids[1..])
    }

    /** All documents in natural order. */
    function All(): (r: seq<TaskRecord>)
      requires Valid()
      reads this, tasks.Values
      ensures |r| == |order| == |tasks|
      ensures forall i :: 0 <= i < |r| ==> r[i] == tasks[order[i]].Record()
    {
      DistinctCardinality(order);
      RecordsOf(order)
    }

    lemma DistinctCardinality(ids: seq<string>)
      requires Valid() && ids == order
      ensures |tasks.Keys| == |ids|
    {
      var keys := tasks.Keys;
      assert keys == set i | 0 <= i < |ids| :: ids[i];
      SeqSetCard(ids);
    }

    static lemma {:induction false} SeqSetCard(ids: seq<string>)
      requires forall i, j :: 0 <= i < j < |ids| ==> ids[i] != ids[j]
      ensures |set i | 0 <= i < |ids| :: ids[i]| == |ids|
    {
      if ids != [] {
        var rest := ids[1..];
        SeqSetCard(rest);
        var whole := set i | 0 <= i < |ids| :: ids[i];
        var tail := set i | 0 <= i < |rest| :: rest[i];
        assert whole == {ids[0]} + tail by {
          forall x | x in whole ensures x in {ids[0]} + tail {
            var i :| 0 <= i < |ids| && ids[i] == x;
            if i > 0 { assert rest[i - 1] == x; }
          }
        }
        assert ids[0] !in tail;
      }
    }

    /** `GET /tasks`: `Task.find().sort({ createdAt: -1 }).limit(100)`. */
    function Recent(): (r: seq<TaskRecord>)
      requires Valid()
      reads this, tasks.Values
      ensures |r| <= 100
      ensures |r| == if |tasks| < 100 then |tasks| else 100
    {
      Sorting.Take(Sorting.SortBy(All(), NewestFirst), 100)
    }
  }

  /** The sort key of `sort({ createdAt: -1 })`. */
  function NewestFirst(t: TaskRecord): int {
    -t.createdAt
  }

  /** The listing is newest first, holds only stored documents (each as
      often as it is stored), holds every one of them when at most 100
      exist, and otherwise leaves out only documents no newer than any it
      lists. */
  lemma RecentIsNewestFirst(s: Store)
    requires s.Valid()
    ensures Sorting.SortedBy(s.Recent(), NewestFirst)
    ensures forall k :: 0 <= k < |s.Recent()| ==> s.Recent()[k] in s.All()
    ensures multiset(s.Recent()) <= multiset(s.All())
    ensures |s.tasks| <= 100 ==> multiset(s.Recent()) == multiset(s.All())
    ensures forall t: TaskRecord, u: TaskRecord :: t in s.Recent() && u in multiset(s.All()) - multiset(s.Recent()) ==>
      u.createdAt <= t.createdAt
  {
    var all := s.All();
    var r := s.Recent();
    assert r == Sorting.Take(Sorting.SortBy(all, NewestFirst), 100);
    Sorting.TakeSorted(all, NewestFirst, 100);
    forall t: TaskRecord, u: TaskRecord | t in r && u in multiset(all) - multiset(r)
      ensures u.createdAt <= t.createdAt
    {
      assert NewestFirst(t) <= NewestFirst(u);
    }
  }
}
