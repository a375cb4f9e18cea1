/** The media grid of a message card: dragging one item onto another moves
    it there with two `splice` calls on a copy, and removing an item filters
    it out by id. */
module MediaList {
  import opened Wrappers
  import opened Messages

  /** `findIndex(f => f.id === id)`: the first position, or -1. */
  function FindIndex(files: seq<MediaValue>, id: string): (r: int)
    ensures -1 <= r < |files|
    ensures r >= 0 ==> IdOf(files[r]) == Some(id) && forall k :: 0 <= k < r ==> IdOf(files[k]) != Some(id)
    ensures r == -1 ==> forall k :: 0 <= k < |files| ==> IdOf(files[k]) != Some(id)
  {
    if files == [] then -1
    else if IdOf(files[0]) == Some(id) then 0
    else
      var r := FindIndex(files[1..], id);
      if r == -1 then -1 else r + 1
  }

  /** Where `splice(start, ...)` acts on an array of length `len`: a
      negative start counts from the end, and both ends are clamped. */
  function SpliceStart(start: int, len: nat): (p: nat)
    ensures p <= len
    ensures 0 <= start <= len ==> p == start
  {
    if start < 0 then (if len + start < 0 then 0 else len + start)
    else if start > len then len
    else start
  }

  /** The list after `splice(from, 1)` then `splice(to, 0, moved)`. */
  function Moved<T>(s: seq<T>, from: nat, to: int): (r: seq<T>)
    requires from < |s|
    ensures |r| == |s|
  {
    var rest := s[..from] + s[from + 1..];
    var p := SpliceStart(to, |rest|);
    rest[..p] + [s[from]] + rest[p..]
  }

  /** `handleDragEnd`: nothing when an item is dropped on itself, otherwise
      the dragged item is spliced out of a copy and back in where the
      target was. */
  method DragEnd(files: seq<MediaValue>, activeId: string, overId: string) returns (r: seq<MediaValue>)
    requires FindIndex(files, activeId) >= 0
    ensures activeId == overId ==> r == files
    ensures activeId != overId ==> r == Moved(files, FindIndex(files, activeId), FindIndex(files, overId))
  {
    if activeId == overId {
      return files;
    }
    var oldIndex := FindIndex(files, activeId);
    var newIndex := FindIndex(files, overId);
    var copy := files;
    var moved := copy[oldIndex];
    copy := copy[..oldIndex] + copy[oldIndex + 1..];
    var p := SpliceStart(newIndex, |copy|);
    copy := copy[..p] + [moved] + copy[p..];
    r := copy;
  }

  /** The list without position `k`. */
  function RemoveAt<T>(s: seq<T>, k: nat): seq<T>
    requires k < |s|
  {
    s[..k] + s[k + 1..]
  }

  /** A move is a permutation that puts the item at the target position
      and leaves every other item in its relative order. */
  lemma MoveProperties<T>(s: seq<T>, from: nat, to: nat)
    requires from < |s| && to < |s|
    ensures multiset(Moved(s, from, to)) == multiset(s)
    ensures Moved(s, from, to)[to] == s[from]
    ensures RemoveAt(Moved(s, from, to), to) == RemoveAt(s, from)
  {
    var rest := RemoveAt(s, from);
    var r := Moved(s, from, to);
    assert r == rest[..to] + [s[from]] + rest[to..];
    assert multiset(r) == multiset(s) by {
      assert s == s[..from] + [s[from]] + s[from + 1..];
      assert rest == rest[..to] + rest[to..];
      calc {
        multiset(r);
        multiset(rest[..to]) + multiset{s[from]} + multiset(rest[to..]);
        multiset(rest) + multiset{s[from]};
        multiset(s[..from]) + multiset(s[from + 1..]) + multiset{s[from]};
        multiset(s);
      }
    }
    assert r[..to] + r[to + 1..] == rest[..to] + rest[to..] by {
      assert r[..to] == rest[..to];
      assert r[to + 1..] == rest[to..];
    }
  }

  /** Moving the item back from where it landed restores the list. */
  lemma MoveBack<T>(s: seq<T>, from: nat, to: nat)
    requires from < |s| && to < |s|
    ensures Moved(Moved(s, from, to), to, from) == s
  {
    var r := Moved(s, from, to);
    MoveProperties(s, from, to);
    var rest := RemoveAt(s, from);
    assert RemoveAt(r, to) == rest;
    assert Moved(r, to, from) == rest[..from] + [s[from]] + rest[from..];
    assert rest[..from] == s[..from];
    assert rest[from..] == s[from + 1..];
  }

  /** `onRemove`: `filter(m => m.id !== id)`. */
  function Removed(files: seq<MediaValue>, id: string): (r: seq<MediaValue>)
    ensures |r| <= |files|
  {
    if files == [] then []
    else (if IdOf(files[0]) != Some(id) then [files[0]] else []) + Removed(files[1..], id)
  }

  /** Removal drops exactly the items with that id and keeps the others
      in order: it is the order-preserving selection of those items. */
  lemma {:induction false} RemovedMembers(files: seq<MediaValue>, id: string)
    ensures forall v :: v in Removed(files, id) <==> v in files && IdOf(v) != Some(id)
    ensures multiset(Removed(files, id)) <= multiset(files)
  {
    if files != [] {
      RemovedMembers(files[1..], id);
      assert files == [files[0]] + files[1..];
    }
  }
}
