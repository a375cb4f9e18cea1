/** The priority list of target channels (`orderedChannels`) that the
    broadcast and quiz pages keep in step with the current selection. Both
    pages run the same effect: entries whose id is no longer selected are
    dropped, the survivors keep their order, and every selected id that had
    no entry before gets a new entry at the end, in selection order. */
module ChannelOrder {
  import opened Wrappers
  import opened FrontEntities

  /** `{ id, name, type }`. */
  datatype Channel = Channel(id: string, name: string, kind: Option<string>)

  function Ids(cs: seq<Channel>): (r: seq<string>)
    ensures |r| == |cs| && forall k :: 0 <= k < |cs| ==> r[k] == cs[k].id
  {
    seq(|cs|, k requires 0 <= k < |cs| => cs[k].id)
  }

  /** The entry pushed for a newly selected id: the entity's own
      `_id || telegramId || id` and `name || username || 'Unknown Channel'`
      when the lookup table knows the id, a placeholder channel otherwise. */
  function EntryFor(id: string, known: map<string, EntityObj>): (r: Channel)
    ensures id !in known ==> r == Channel(id, "Unknown Channel", Some("channel"))
    ensures id in known ==> r.kind == known[id].kind && r.name != []
    ensures id in known && known[id].id != [] ==> r.id == known[id].id
  {
    if id in known then
      var e := known[id];
      Channel(OrElse(e.id, OrElse(e.telegramId, id)), OrElse(e.name, OrElse(e.username, "Unknown Channel")), e.kind)
    else Channel(id, "Unknown Channel", Some("channel"))
  }

  /** `prev.filter(c => selectedEntityIds.includes(c.id))`. */
  function Kept(prev: seq<Channel>, selected: seq<string>): (r: seq<Channel>)
    ensures |r| <= |prev|
  {
    if prev == [] then []
    else (if prev[0].id in selected then [prev[0]] else []) + Kept(prev[1..], selected)
  }

  /** The selected ids that had no entry in `prev`, in selection order. */
  function Missing(selected: seq<string>, currentIds: seq<string>): (r: seq<string>)
    ensures |r| <= |selected|
  {
    if selected == [] then []
    else (if selected[0] !in currentIds then [selected[0]] else []) + Missing(selected[1..], currentIds)
  }

  function Entries(ids: seq<string>, known: map<string, EntityObj>): (r: seq<Channel>)
    ensures |r| == |ids| && forall k :: 0 <= k < |ids| ==> r[k] == EntryFor(ids[k], known)
  {
    seq(|ids|, k requires 0 <= k < |ids| => EntryFor(ids[k], known))
  }

  /** An entry survives exactly when it was present and its id is still
      selected. */
  lemma {:induction false} KeptMembers(prev: seq<Channel>, selected: seq<string>)
    ensures forall c :: c in Kept(prev, selected) <==> c in prev && c.id in selected
  {
    if prev != [] {
      KeptMembers(prev[1..], selected);
    }
  }

  /** An id needs a new entry exactly when it is selected and had none. */
  lemma {:induction false} MissingMembers(selected: seq<string>, currentIds: seq<string>)
    ensures forall id :: id in Missing(selected, currentIds) <==> id in selected && id !in currentIds
  {
    if selected != [] {
      MissingMembers(selected[1..], currentIds);
    }
  }

  /** The list the effect produces: survivors first, then the new entries. */
  function Synced(prev: seq<Channel>, selected: seq<string>, known: map<string, EntityObj>): seq<Channel> {
    Kept(prev, selected) + Entries(Missing(selected, Ids(prev)), known)
  }

  /** The `setOrderedChannels(prev => ...)` updater: the filter, then the
      `forEach` that pushes one entry per selected id not seen before. */
  method Sync(prev: seq<Channel>, selected: seq<string>, known: map<string, EntityObj>)
    returns (next: seq<Channel>)
    ensures next == Synced(prev, selected, known)
  {
    var currentIds := Ids(prev);
    next := Kept(prev, selected);
    var i := 0;
    while i < |selected|
      invariant 0 <= i <= |selected|
      invariant next == Kept(prev, selected) + Entries(Missing(selected[..i], currentIds), known)
    {
      var id := selected[i];
      SyncStep(selected, i, currentIds, known);
      if id !in currentIds {
        next := next + [EntryFor(id, known)];
      }
      i := i + 1;
    }
    assert selected[..i] == selected;
  }

  /** One turn of the `forEach`: the next selected id adds its entry
      exactly when it was not among the current ids. */
  lemma SyncStep(selected: seq<string>, i: nat, currentIds: seq<string>, known: map<string, EntityObj>)
    requires i < |selected|
    ensures Entries(Missing(selected[..i + 1], currentIds), known)
         == Entries(Missing(selected[..i], currentIds), known)
            + (if selected[i] !in currentIds then [EntryFor(selected[i], known)] else [])
  {
    var id := selected[i];
    MissingSnoc(selected[..i], id, currentIds);
    assert selected[..i + 1] == selected[..i] + [id];
    if id !in currentIds {
      EntriesSnoc(Missing(selected[..i], currentIds), id, known);
    } else {
      assert Missing(selected[..i + 1], currentIds) == Missing(selected[..i], currentIds);
    }
  }

  lemma EntriesSnoc(ids: seq<string>, id: string, known: map<string, EntityObj>)
    ensures Entries(ids + [id], known) == Entries(ids, known) + [EntryFor(id, known)]
  {
    assert |Entries(ids + [id], known)| == |ids| + 1;
    forall k | 0 <= k < |ids| + 1
      ensures Entries(ids + [id], known)[k] == (Entries(ids, known) + [EntryFor(id, known)])[k]
    {
      if k < |ids| { assert (ids + [id])[k] == ids[k]; }
    }
  }

  lemma {:induction false} MissingSnoc(s: seq<string>, id: string, currentIds: seq<string>)
    ensures Missing(s + [id], currentIds)
         == Missing(s, currentIds) + (if id !in currentIds then [id] else [])
  {
    if s == [] {
      assert Missing([id], currentIds) == (if id !in currentIds then [id] else []) + Missing([], currentIds);
    } else {
      assert (s + [id])[1..] == s[1..] + [id];
      MissingSnoc(s[1..], id, currentIds);
    }
  }

  /** An entry for `id` keeps that id: the lookup table does not know the
      id, or knows it as an entity whose `_id` is the id itself. */
  predicate KeepsId(id: string, known: map<string, EntityObj>) {
    id !in known
    || (known[id].id != [] && known[id].id == id)
    || (known[id].id == [] && (known[id].telegramId == id || known[id].telegramId == []))
  }

  lemma KeepsIdEntry(id: string, known: map<string, EntityObj>)
    requires KeepsId(id, known)
    ensures EntryFor(id, known).id == id
  {
  }

  /** After a sync, every selected id has an entry, and every entry whose
      id was resolved faithfully belongs to a selected id. */
  lemma SyncCoversSelection(prev: seq<Channel>, selected: seq<string>, known: map<string, EntityObj>)
    requires forall id :: id in selected ==> KeepsId(id, known)
    ensures forall id :: id in selected ==> id in Ids(Synced(prev, selected, known))
    ensures forall c :: c in Synced(prev, selected, known) ==> c.id in selected
  {
    forall id | id in selected ensures id in Ids(Synced(prev, selected, known)) {
      SyncListsOne(prev, selected, known, id);
    }
    forall c | c in Synced(prev, selected, known) ensures c.id in selected {
      SyncOnlySelected(prev, selected, known, c);
    }
  }

  lemma SyncListsOne(prev: seq<Channel>, selected: seq<string>, known: map<string, EntityObj>, id: string)
    requires id in selected && KeepsId(id, known)
    ensures id in Ids(Synced(prev, selected, known))
  {
    var kept := Kept(prev, selected);
    var missing := Missing(selected, Ids(prev));
    var added := Entries(missing, known);
    var r := Synced(prev, selected, known);
    assert r == kept + added;
    if id in Ids(prev) {
      KeptMembers(prev, selected);
      var k :| 0 <= k < |prev| && Ids(prev)[k] == id;
      assert prev[k] in kept;
      var j :| 0 <= j < |kept| && kept[j] == prev[k];
      assert Ids(r)[j] == id;
    } else {
      MissingMembers(selected, Ids(prev));
      assert id in missing;
      var j :| 0 <= j < |missing| && missing[j] == id;
      KeepsIdEntry(id, known);
      assert r[|kept| + j] == added[j];
      assert Ids(r)[|kept| + j] == id;
    }
  }

  lemma SyncOnlySelected(prev: seq<Channel>, selected: seq<string>, known: map<string, EntityObj>, c: Channel)
    requires forall id :: id in selected ==> KeepsId(id, known)
    requires c in Synced(prev, selected, known)
    ensures c.id in selected
  {
    var kept := Kept(prev, selected);
    var missing := Missing(selected, Ids(prev));
    var added := Entries(missing, known);
    assert Synced(prev, selected, known) == kept + added;
    KeptMembers(prev, selected);
    MissingMembers(selected, Ids(prev));
    if c !in kept {
      var j :| 0 <= j < |added| && added[j] == c;
      KeepsIdEntry(missing[j], known);
    }
  }

  /** A second sync with the same selection changes nothing, when every
      selected id resolves to an entry with that same id. */
  lemma {:induction false} SyncIdempotent(prev: seq<Channel>, selected: seq<string>, known: map<string, EntityObj>)
    requires forall id :: id in selected ==> KeepsId(id, known)
    ensures Synced(Synced(prev, selected, known), selected, known) == Synced(prev, selected, known)
  {
    var r := Synced(prev, selected, known);
    SyncCoversSelection(prev, selected, known);
    KeptAll(r, selected);
    MissingNone(selected, Ids(r));
  }

  lemma {:induction false} KeptAll(cs: seq<Channel>, selected: seq<string>)
    requires forall c :: c in cs ==> c.id in selected
    ensures Kept(cs, selected) == cs
  {
    if cs != [] {
      KeptAll(cs[1..], selected);
    }
  }

  lemma {:induction false} MissingNone(selected: seq<string>, currentIds: seq<string>)
    requires forall id :: id in selected ==> id in currentIds
    ensures Missing(selected, currentIds) == []
  {
    if selected != [] {
      MissingNone(selected[1..], currentIds);
    }
  }

  /** Survivors keep their relative order: the kept entries are `prev` with
      some entries deleted (an order-preserving embedding). */
  lemma {:induction false} KeptIsSubsequence(prev: seq<Channel>, selected: seq<string>)
    ensures IsSubsequence(Kept(prev, selected), prev)
  {
    if prev != [] {
      KeptIsSubsequence(prev[1..], selected);
      var a := Kept(prev, selected);
      if prev[0].id in selected {
        assert a[0] == prev[0] && a[1..] == Kept(prev[1..], selected);
      } else {
        assert a == Kept(prev[1..], selected);
      }
    }
  }

  /** `a` is obtained from `b` by deleting elements. */
  predicate IsSubsequence<T(==)>(a: seq<T>, b: seq<T>)
    decreases |b|
  {
    a == [] || (b != [] && ((a[0] == b[0] && IsSubsequence(a[1..], b[1..])) || IsSubsequence(a, b[1..])))
  }

  /** With distinct selected ids, no id gets two entries: starting from a
      list with distinct ids, the synced list has distinct ids. */
  lemma {:induction false} SyncKeepsIdsDistinct(prev: seq<Channel>, selected: seq<string>, known: map<string, EntityObj>)
    requires forall id :: id in selected ==> KeepsId(id, known)
    requires DistinctIds(prev) && Distinct(selected)
    ensures DistinctIds(Synced(prev, selected, known))
  {
    var kept := Kept(prev, selected);
    var missing := Missing(selected, Ids(prev));
    var added := Entries(missing, known);
    var r := Synced(prev, selected, known);
    KeptDistinct(prev, selected);
    KeptMembers(prev, selected);
    MissingDistinct(selected, Ids(prev));
    MissingMembers(selected, Ids(prev));
    forall i, j | 0 <= i < j < |r| ensures r[i].id != r[j].id {
      if j < |kept| {
        assert r[i] == kept[i] && r[j] == kept[j];
      } else if i >= |kept| {
        assert r[i] == added[i - |kept|] && r[j] == added[j - |kept|];
        KeepsIdEntry(missing[i - |kept|], known);
        KeepsIdEntry(missing[j - |kept|], known);
      } else {
        assert r[i] == kept[i] && r[i] in prev;
        var k :| 0 <= k < |prev| && prev[k] == r[i];
        assert Ids(prev)[k] == r[i].id;
        assert r[j] == added[j - |kept|];
        assert missing[j - |kept|] in missing;
        KeepsIdEntry(missing[j - |kept|], known);
      }
    }
  }

  predicate Distinct<T(==)>(s: seq<T>) {
    forall i, j :: 0 <= i < j < |s| ==> s[i] != s[j]
  }

  /** No two entries share an id. */
  predicate DistinctIds(cs: seq<Channel>) {
    forall i, j :: 0 <= i < j < |cs| ==> cs[i].id != cs[j].id
  }

  lemma {:induction false} KeptDistinct(prev: seq<Channel>, selected: seq<string>)
    requires DistinctIds(prev)
    ensures DistinctIds(Kept(prev, selected))
  {
    if prev != [] {
      var tail := prev[1..];
      assert DistinctIds(tail) by {
        forall i, j | 0 <= i < j < |tail| ensures tail[i].id != tail[j].id {
          assert tail[i] == prev[i + 1] && tail[j] == prev[j + 1];
        }
      }
      KeptDistinct(tail, selected);
      var rest := Kept(tail, selected);
      if prev[0].id in selected {
        KeptMembers(tail, selected);
        var r := Kept(prev, selected);
        assert r == [prev[0]] + rest;
        forall j | 0 <= j < |rest| ensures rest[j].id != prev[0].id {
          assert rest[j] in tail;
          var k :| 0 <= k < |tail| && tail[k] == rest[j];
          assert tail[k] == prev[k + 1];
        }
        forall i, j | 0 <= i < j < |r| ensures r[i].id != r[j].id {
          assert r[j] == rest[j - 1];
          if i > 0 { assert r[i] == rest[i - 1]; }
        }
      }
    }
  }

  lemma {:induction false} MissingDistinct(selected: seq<string>, currentIds: seq<string>)
    requires Distinct(selected)
    ensures Distinct(Missing(selected, currentIds))
  {
    if selected != [] {
      var tail := selected[1..];
      assert Distinct(tail) by {
        forall i, j | 0 <= i < j < |tail| ensures tail[i] != tail[j] {
          assert tail[i] == selected[i + 1] && tail[j] == selected[j + 1];
        }
      }
      MissingDistinct(tail, currentIds);
      var rest := Missing(tail, currentIds);
      if selected[0] !in currentIds {
        MissingMembers(tail, currentIds);
        var r := Missing(selected, currentIds);
        assert r == [selected[0]] + rest;
        forall j | 0 <= j < |rest| ensures rest[j] != selected[0] {
          assert rest[j] in tail;
          var k :| 0 <= k < |tail| && tail[k] == rest[j];
          assert tail[k] == selected[k + 1];
        }
        forall i, j | 0 <= i < j < |r| ensures r[i] != r[j] {
          assert r[j] == rest[j - 1];
          if i > 0 { assert r[i] == rest[i - 1]; }
        }
      }
    }
  }
}
