/** The broadcast editor's message list: adding an empty message, editing
    one field of a message by id, and deleting by id while keeping at least
    one message. */
module MessageList {
  import opened Text
  import opened Messages
  import MediaList

  /** The two fields the message card edits. */
  datatype MessageEdit = SetContent(text: string) | SetMedia(values: seq<MediaValue>)

  function Applied(m: Message, e: MessageEdit): (r: Message)
    ensures r.id == m.id
    ensures e.SetContent? ==> r.content == e.text && r.media == m.media
    ensures e.SetMedia? ==> r.content == m.content && r.media == List(e.values)
  {
    match e
    case SetContent(t) => m.(content := t)
    case SetMedia(vs) => m.(media := List(vs))
  }

  /** `items.findIndex((i) => i.id === id)`: the first position, or -1. */
  function FindMessage(ms: seq<Message>, id: string): (r: int)
    ensures -1 <= r < |ms|
    ensures r >= 0 ==> ms[r].id == id && forall k :: 0 <= k < r ==> ms[k].id != id
    ensures r == -1 ==> forall k :: 0 <= k < |ms| ==> ms[k].id != id
  {
    if ms == [] then -1
    else if ms[0].id == id then 0
    else
      var r := FindMessage(ms[1..], id);
      if r == -1 then -1 else r + 1
  }

  /** `arrayMove(items, from, to)`: a negative target counts from the end of
      the list before the item is taken out. */
  function ArrayMove(ms: seq<Message>, from: nat, to: int): (r: seq<Message>)
    requires from < |ms|
    ensures 0 <= to < |ms| ==> r == MediaList.Moved(ms, from, to)
    ensures to == -1 ==> r == ms[..from] + ms[from + 1..] + [ms[from]]
  {
    var r := MediaList.Moved(ms, from, if to < 0 then |ms| + to else to);
    assert to == -1 ==> r == ms[..from] + ms[from + 1..] + [ms[from]] by {
      if to == -1 {
        var rest := ms[..from] + ms[from + 1..];
        assert MediaList.SpliceStart(|ms| - 1, |rest|) == |rest|;
        assert rest[|rest|..] == [];
      }
    }
    r
  }

  /** `handleDragEnd`: nothing when a message is dropped on itself,
      otherwise it moves to where the target was, the others keeping their
      relative order. */
  method DragEnd(ms: seq<Message>, activeId: string, overId: string) returns (r: seq<Message>)
    requires FindMessage(ms, activeId) >= 0
    ensures activeId == overId ==> r == ms
    ensures activeId != overId ==> r == ArrayMove(ms, FindMessage(ms, activeId), FindMessage(ms, overId))
    ensures multiset(r) == multiset(ms)
    ensures activeId != overId && FindMessage(ms, overId) >= 0 ==>
      r[FindMessage(ms, overId)] == ms[FindMessage(ms, activeId)]
      && MediaList.RemoveAt(r, FindMessage(ms, overId)) == MediaList.RemoveAt(ms, FindMessage(ms, activeId))
  {
    if activeId == overId {
      return ms;
    }
    var oldIndex := FindMessage(ms, activeId);
    var newIndex := FindMessage(ms, overId);
    r := ArrayMove(ms, oldIndex, newIndex);
    if newIndex >= 0 {
      MediaList.MoveProperties(ms, oldIndex, newIndex);
    } else {
      ToEndPermutes(ms, oldIndex);
    }
  }

  /** Taking an item out and putting it last keeps the same items. */
  lemma ToEndPermutes<T>(s: seq<T>, from: nat)
    requires from < |s|
    ensures multiset(s[..from] + s[from + 1..] + [s[from]]) == multiset(s)
  {
    assert s == s[..from] + [s[from]] + s[from + 1..];
  }

  /** `addMessage`: one empty message, keyed by the clock, at the end. */
  function AddMessage(ms: seq<Message>, now: nat): (r: seq<Message>)
    ensures |r| == |ms| + 1 && r[..|ms|] == ms
    ensures r[|ms|].content == [] && r[|ms|].media == NoMedia
  {
    ms + [Message(NatToString(now), "", NoMedia)]
  }

  /** `updateMessage(id, field, value)`: every message with that id gets
      the edit, the others are untouched, and the order stays. */
  function UpdateMessage(ms: seq<Message>, id: string, e: MessageEdit): (r: seq<Message>)
    ensures |r| == |ms|
    ensures forall k :: 0 <= k < |ms| ==> r[k] == (if ms[k].id == id then Applied(ms[k], e) else ms[k])
  {
    seq(|ms|, k requires 0 <= k < |ms| => if ms[k].id == id then Applied(ms[k], e) else ms[k])
  }

  /** `filter(m => m.id !== id)`. */
  function Without(ms: seq<Message>, id: string): (r: seq<Message>)
    ensures |r| <= |ms|
  {
    if ms == [] then []
    else (if ms[0].id != id then [ms[0]] else []) + Without(ms[1..], id)
  }

  /** The filter keeps exactly the messages with another id. */
  lemma {:induction false} WithoutMembers(ms: seq<Message>, id: string)
    ensures forall m :: m in Without(ms, id) <==> m in ms && m.id != id
  {
    if ms != [] {
      WithoutMembers(ms[1..], id);
      assert ms == [ms[0]] + ms[1..];
    }
  }

  /** `deleteMessage`: nothing when a single message is left. */
  function DeleteMessage(ms: seq<Message>, id: string): (r: seq<Message>)
    ensures |ms| == 1 ==> r == ms
    ensures |ms| != 1 ==> forall m :: m in r <==> m in ms && m.id != id
  {
    WithoutMembers(ms, id);
    if |ms| == 1 then ms else Without(ms, id)
  }

  predicate DistinctIds(ms: seq<Message>) {
    forall i, j :: 0 <= i < j < |ms| ==> ms[i].id != ms[j].id
  }

  /** With distinct ids, deleting the message at `k` removes exactly that
      one and keeps the others in order. */
  lemma {:induction false} WithoutOne(ms: seq<Message>, k: nat)
    requires DistinctIds(ms) && k < |ms|
    ensures Without(ms, ms[k].id) == ms[..k] + ms[k + 1..]
  {
    var id := ms[k].id;
    var front, rest := ms[..k], ms[k + 1..];
    var mid := [ms[k]] + rest;
    assert ms == front + mid;
    WithoutAppend(front, mid, id);
    assert Without(mid, id) == Without(rest, id) by {
      WithoutAppend([ms[k]], rest, id);
      assert [ms[k]][1..] == [];
    }
    assert Without(front, id) == front by {
      forall i | 0 <= i < |front| ensures front[i].id != id {
        assert front[i] == ms[i];
      }
      NoneWith(front, id);
    }
    assert Without(rest, id) == rest by {
      forall i | 0 <= i < |rest| ensures rest[i].id != id {
        assert rest[i] == ms[k + 1 + i];
      }
      NoneWith(rest, id);
    }
  }

  lemma {:induction false} NoneWith(ms: seq<Message>, id: string)
    requires forall i :: 0 <= i < |ms| ==> ms[i].id != id
    ensures Without(ms, id) == ms
  {
    if ms != [] {
      assert forall i :: 0 <= i < |ms| - 1 ==> ms[1..][i] == ms[i + 1];
      NoneWith(ms[1..], id);
    }
  }

  /** Deletion never empties a list of distinct messages: at most one goes,
      and only when more than one is there. */
  lemma DeleteKeepsOne(ms: seq<Message>, id: string)
    requires DistinctIds(ms) && ms != []
    ensures |DeleteMessage(ms, id)| >= |ms| - 1 >= 0 && DeleteMessage(ms, id) != []
  {
    if |ms| != 1 {
      if k :| 0 <= k < |ms| && ms[k].id == id {
        WithoutOne(ms, k);
      } else {
        NoneWith(ms, id);
      }
    }
  }

  lemma {:induction false} WithoutAppend(a: seq<Message>, b: seq<Message>, id: string)
    ensures Without(a + b, id) == Without(a, id) + Without(b, id)
  {
    if a != [] {
      assert (a + b)[1..] == a[1..] + b;
      WithoutAppend(a[1..], b, id);
    } else {
      assert a + b == b;
    }
  }

  /** Deleting the message just added gives back the list it was added to. */
  lemma AddThenDelete(ms: seq<Message>, now: nat)
    requires ms != [] && forall i :: 0 <= i < |ms| ==> ms[i].id != NatToString(now)
    ensures DeleteMessage(AddMessage(ms, now), NatToString(now)) == ms
  {
    var added := Message(NatToString(now), "", NoMedia);
    WithoutAppend(ms, [added], added.id);
    NoneWith(ms, added.id);
    assert Without([added], added.id) == [];
  }

  /** Editing by an id no message has changes nothing; editing twice with
      the same value is the same as editing once. */
  lemma UpdateProperties(ms: seq<Message>, id: string, e: MessageEdit)
    ensures (forall i :: 0 <= i < |ms| ==> ms[i].id != id) ==> UpdateMessage(ms, id, e) == ms
    ensures UpdateMessage(UpdateMessage(ms, id, e), id, e) == UpdateMessage(ms, id, e)
  {
  }
}
