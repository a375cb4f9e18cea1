/** The folder tree target picker: the search filter over folders and
    their entities, the folder, channel, select-all and clear-all handlers,
    and each folder's all-selected and indeterminate flags. A JavaScript
    `Set` is a sequence without repeats in insertion order, which is the
    order `Array.from` hands back. */
module FolderTree {
  import opened Wrappers
  import opened Text
  import opened FrontEntities

  // ------------------------------------------------------------ JS Set

  predicate Distinct(s: seq<string>) {
    forall i, j :: 0 <= i < j < |s| ==> s[i] != s[j]
  }

  /** `set.add(x)`: appended unless already there. */
  function SetAdd(st: seq<string>, x: string): seq<string> {
    if x in st then st else st + [x]
  }

  /** `set.delete(x)`. */
  function SetDelete(st: seq<string>, x: string): (r: seq<string>)
    ensures forall y :: y in r <==> y in st && y != x
    ensures Distinct(st) ==> Distinct(r)
  {
    if st == [] then []
    else
      var rest := SetDelete(st[1..], x);
      assert Distinct(st) ==> Distinct(st[1..]) && st[0] !in st[1..] by {
        if Distinct(st) {
          forall i, j | 0 <= i < j < |st| - 1 ensures st[1..][i] != st[1..][j] {
            assert st[1..][i] == st[i + 1] && st[1..][j] == st[j + 1];
          }
        }
      }
      if st[0] == x then rest else [st[0]] + rest
  }

  /** Adding each of `xs` in turn. */
  function AddAll(st: seq<string>, xs: seq<string>): seq<string> {
    if xs == [] then st else SetAdd(AddAll(st, xs[..|xs| - 1]), xs[|xs| - 1])
  }

  /** Deleting each of `xs` in turn. */
  function DeleteAll(st: seq<string>, xs: seq<string>): seq<string> {
    if xs == [] then st else SetDelete(DeleteAll(st, xs[..|xs| - 1]), xs[|xs| - 1])
  }

  /** `new Set(array)`. */
  function FromArray(arr: seq<string>): seq<string> {
    AddAll([], arr)
  }

  /** Adding keeps what was there, in its order, adds every new element,
      and never repeats one. */
  lemma {:induction false} AddAllContents(st: seq<string>, xs: seq<string>)
    ensures forall y :: y in AddAll(st, xs) <==> y in st || y in xs
    ensures |AddAll(st, xs)| >= |st| && AddAll(st, xs)[..|st|] == st
    ensures Distinct(st) ==> Distinct(AddAll(st, xs))
  {
    if xs != [] {
      var init := xs[..|xs| - 1];
      AddAllContents(st, init);
      assert xs == init + [xs[|xs| - 1]];
      var a := AddAll(st, init);
      assert a[..|st|] == st;
      if xs[|xs| - 1] !in a {
        assert (a + [xs[|xs| - 1]])[..|st|] == a[..|st|];
      }
    }
  }

  lemma {:induction false} DeleteAllContents(st: seq<string>, xs: seq<string>)
    ensures forall y :: y in DeleteAll(st, xs) <==> y in st && y !in xs
    ensures Distinct(st) ==> Distinct(DeleteAll(st, xs))
  {
    if xs != [] {
      DeleteAllContents(st, xs[..|xs| - 1]);
      assert xs == xs[..|xs| - 1] + [xs[|xs| - 1]];
    }
  }

  lemma {:induction false} AddAllAppend(st: seq<string>, a: seq<string>, b: seq<string>)
    ensures AddAll(AddAll(st, a), b) == AddAll(st, a + b)
  {
    if b != [] {
      AddAllAppend(st, a, b[..|b| - 1]);
      assert (a + b)[..|a + b| - 1] == a + b[..|b| - 1];
    } else {
      assert a + b == a;
    }
  }

  /** `new Set(selectedConfig)` holds the selection without repeats and
      in first-occurrence order. */
  lemma FromArrayContents(arr: seq<string>)
    ensures forall y :: y in FromArray(arr) <==> y in arr
    ensures Distinct(FromArray(arr))
  {
    AddAllContents([], arr);
  }

  // ------------------------------------------------------ check handlers

  /** `typeof ent === 'object' ? ent._id : ent` for every entry. */
  function RefIds(refs: seq<EntityRef>): (r: seq<string>)
    ensures |r| == |refs| && forall k :: 0 <= k < |refs| ==> r[k] == RefId(refs[k])
  {
    seq(|refs|, k requires 0 <= k < |refs| => RefId(refs[k]))
  }

  /** The selection after a folder's box is checked or unchecked. */
  function FolderChecked(selected: seq<string>, folder: FolderView, checked: bool): seq<string> {
    var ids := RefIds(EntityRefs(folder));
    if checked then AddAll(FromArray(selected), ids) else DeleteAll(FromArray(selected), ids)
  }

  /** `handleFolderCheck`: every id of the folder added to, or deleted
      from, a copy of the selection. */
  method FolderCheck(selected: seq<string>, folder: FolderView, checked: bool) returns (r: seq<string>)
    ensures r == FolderChecked(selected, folder, checked)
  {
    var refs := EntityRefs(folder);
    ghost var ids := RefIds(refs);
    ghost var base := FromArray(selected);
    var st := FromArray(selected);
    var i := 0;
    while i < |refs|
      invariant 0 <= i <= |refs|
      invariant st == (if checked then AddAll(base, ids[..i]) else DeleteAll(base, ids[..i]))
    {
      CheckStep(base, ids, i);
      var id := RefId(refs[i]);
      if checked {
        st := SetAdd(st, id);
      } else {
        st := SetDelete(st, id);
      }
      i := i + 1;
    }
    assert ids[..|refs|] == ids;
    r := st;
  }

  lemma CheckStep(base: seq<string>, ids: seq<string>, i: nat)
    requires i < |ids|
    ensures AddAll(base, ids[..i + 1]) == SetAdd(AddAll(base, ids[..i]), ids[i])
    ensures DeleteAll(base, ids[..i + 1]) == SetDelete(DeleteAll(base, ids[..i]), ids[i])
  {
    assert ids[..i + 1][..i] == ids[..i];
  }

  /** Checking a folder gives the selection with the folder's ids added,
      unchecking it the selection without them; neither repeats an id,
      and checking keeps the earlier selection first. */
  lemma FolderCheckContents(selected: seq<string>, folder: FolderView)
    ensures var ids := RefIds(EntityRefs(folder));
      var on := FolderChecked(selected, folder, true);
      var off := FolderChecked(selected, folder, false);
      (forall y :: y in on <==> y in selected || y in ids)
      && (forall y :: y in off <==> y in selected && y !in ids)
      && Distinct(on) && Distinct(off)
      && |on| >= |FromArray(selected)| && on[..|FromArray(selected)|] == FromArray(selected)
  {
    var ids := RefIds(EntityRefs(folder));
    FromArrayContents(selected);
    AddAllContents(FromArray(selected), ids);
    DeleteAllContents(FromArray(selected), ids);
  }

  /** `handleChannelCheck`. */
  function ChannelChecked(selected: seq<string>, id: string, checked: bool): seq<string> {
    if checked then SetAdd(FromArray(selected), id) else SetDelete(FromArray(selected), id)
  }

  /** Checking a channel adds exactly its id and unchecking removes
      exactly its id. */
  lemma ChannelCheckContents(selected: seq<string>, id: string)
    ensures forall y :: y in ChannelChecked(selected, id, true) <==> y in selected || y == id
    ensures forall y :: y in ChannelChecked(selected, id, false) <==> y in selected && y != id
    ensures Distinct(ChannelChecked(selected, id, true)) && Distinct(ChannelChecked(selected, id, false))
  {
    FromArrayContents(selected);
    AddAllContents(FromArray(selected), [id]);
    assert [id][..0] == [];
  }

  /** The ids the select-all loop collects from one folder: `if (id)`. */
  function PresentIds(refs: seq<EntityRef>): seq<string> {
    if refs == [] then []
    else PresentIds(refs[..|refs| - 1]) + (if RefId(refs[|refs| - 1]) != [] then [RefId(refs[|refs| - 1])] else [])
  }

  /** The present ids of every shown folder, folder by folder. */
  function VisibleIds(folders: seq<FolderView>): seq<string> {
    if folders == [] then []
    else VisibleIds(folders[..|folders| - 1]) + PresentIds(EntityRefs(folders[|folders| - 1]))
  }

  lemma {:induction false} PresentIdsMembers(refs: seq<EntityRef>)
    ensures forall y :: y in PresentIds(refs) <==> y != [] && exists k :: 0 <= k < |refs| && RefId(refs[k]) == y
  {
    if refs != [] {
      var init := refs[..|refs| - 1];
      PresentIdsMembers(init);
      forall y | y != [] && (exists k :: 0 <= k < |refs| && RefId(refs[k]) == y)
        ensures y in PresentIds(refs)
      {
        var k :| 0 <= k < |refs| && RefId(refs[k]) == y;
        if k < |refs| - 1 {
          assert RefId(init[k]) == y;
        }
      }
    }
  }

  /** The selection after Select All. */
  function SelectedAll(filtered: seq<FolderView>, selected: seq<string>): seq<string> {
    AddAll(FromArray(selected), FromArray(VisibleIds(filtered)))
  }

  /** The inner `forEach` of `handleSelectAll`: each present id of one
      folder added to the set being gathered. */
  method AddPresent(st: seq<string>, refs: seq<EntityRef>) returns (r: seq<string>)
    ensures r == AddAll(st, PresentIds(refs))
  {
    r := st;
    var j := 0;
    while j < |refs|
      invariant 0 <= j <= |refs|
      invariant r == AddAll(st, PresentIds(refs[..j]))
    {
      var id := RefId(refs[j]);
      PresentStep(st, refs, j);
      if id != [] {
        r := SetAdd(r, id);
      }
      j := j + 1;
    }
    assert refs[..|refs|] == refs;
  }

  /** One more ref adds its id when it has one. */
  lemma PresentStep(st: seq<string>, refs: seq<EntityRef>, j: nat)
    requires j < |refs|
    ensures AddAll(st, PresentIds(refs[..j + 1]))
         == if RefId(refs[j]) != [] then SetAdd(AddAll(st, PresentIds(refs[..j])), RefId(refs[j]))
            else AddAll(st, PresentIds(refs[..j]))
  {
    var id := RefId(refs[j]);
    var p := PresentIds(refs[..j]);
    assert refs[..j + 1][..j] == refs[..j];
    assert refs[..j + 1][j] == refs[j];
    assert PresentIds(refs[..j + 1]) == p + (if id != [] then [id] else []);
    if id != [] {
      assert (p + [id])[..|p|] == p;
    } else {
      assert p + [] == p;
    }
  }

  /** `forEach(id => set.add(id))`. */
  method AddEach(st: seq<string>, xs: seq<string>) returns (r: seq<string>)
    ensures r == AddAll(st, xs)
  {
    r := st;
    var k := 0;
    while k < |xs|
      invariant 0 <= k <= |xs|
      invariant r == AddAll(st, xs[..k])
    {
      assert xs[..k + 1][..k] == xs[..k];
      r := SetAdd(r, xs[k]);
      k := k + 1;
    }
    assert xs[..|xs|] == xs;
  }

  /** `handleSelectAll`: the present ids of the shown folders are gathered
      into a set, then added one by one to a copy of the selection. */
  method SelectAll(filtered: seq<FolderView>, selected: seq<string>) returns (r: seq<string>)
    ensures r == SelectedAll(filtered, selected)
  {
    var allIds: seq<string> := [];
    var i := 0;
    while i < |filtered|
      invariant 0 <= i <= |filtered|
      invariant allIds == FromArray(VisibleIds(filtered[..i]))
    {
      assert filtered[..i + 1][..i] == filtered[..i];
      AddAllAppend([], VisibleIds(filtered[..i]), PresentIds(EntityRefs(filtered[i])));
      allIds := AddPresent(allIds, EntityRefs(filtered[i]));
      i := i + 1;
    }
    assert filtered[..|filtered|] == filtered;
    r := AddEach(FromArray(selected), allIds);
  }

  /** Select All adds every non-empty id shown and removes nothing: the
      earlier selection stays first, in its order. */
  lemma SelectAllContents(filtered: seq<FolderView>, selected: seq<string>)
    ensures var r := SelectedAll(filtered, selected);
      (forall y :: y in r <==> y in selected || y in VisibleIds(filtered))
      && (forall y :: y in VisibleIds(filtered) ==> y != [])
      && Distinct(r)
      && |r| >= |FromArray(selected)| && r[..|FromArray(selected)|] == FromArray(selected)
  {
    FromArrayContents(selected);
    FromArrayContents(VisibleIds(filtered));
    AddAllContents(FromArray(selected), FromArray(VisibleIds(filtered)));
    VisibleNonEmpty(filtered);
  }

  lemma {:induction false} VisibleNonEmpty(folders: seq<FolderView>)
    ensures forall y :: y in VisibleIds(folders) ==> y != []
  {
    if folders != [] {
      VisibleNonEmpty(folders[..|folders| - 1]);
      PresentIdsMembers(EntityRefs(folders[|folders| - 1]));
    }
  }

  /** `handleClearAll`. */
  function ClearedAll(): (r: seq<string>)
    ensures |r| == 0
  {
    []
  }

  // ------------------------------------------------------------- flags

  /** `validEntities`: entries with a non-empty id. */
  function ValidRefs(refs: seq<EntityRef>): (r: seq<EntityRef>)
    ensures |r| <= |refs|
    ensures forall e :: e in r <==> e in refs && RefId(e) != []
  {
    if refs == [] then []
    else (if RefId(refs[0]) != [] then [refs[0]] else []) + ValidRefs(refs[1..])
  }

  /** `selectedCount`. */
  function SelectedCount(refs: seq<EntityRef>, selected: seq<string>): (n: nat)
    ensures n <= |refs|
    ensures n == |refs| <==> forall k :: 0 <= k < |refs| ==> RefId(refs[k]) in selected
    ensures n > 0 <==> exists k :: 0 <= k < |refs| && RefId(refs[k]) in selected
  {
    if refs == [] then 0
    else
      var rest := SelectedCount(refs[1..], selected);
      assert forall k :: 1 <= k < |refs| ==> refs[k] == refs[1..][k - 1];
      (if RefId(refs[0]) in selected then 1 else 0) + rest
  }

  predicate AllSelected(folder: FolderView, selected: seq<string>) {
    var valid := ValidRefs(EntityRefs(folder));
    |valid| > 0 && SelectedCount(valid, selected) == |valid|
  }

  predicate Indeterminate(folder: FolderView, selected: seq<string>) {
    var valid := ValidRefs(EntityRefs(folder));
    SelectedCount(valid, selected) > 0 && SelectedCount(valid, selected) < |valid|
  }

  /** A folder's box is fully checked exactly when it has a valid entity
      and all of them are selected, half checked exactly when some but not
      all are, and never both. */
  lemma FlagsMeaning(folder: FolderView, selected: seq<string>)
    ensures var valid := ValidRefs(EntityRefs(folder));
      (AllSelected(folder, selected) <==> |valid| > 0 && forall e :: e in valid ==> RefId(e) in selected)
      && (Indeterminate(folder, selected) <==>
            (exists e :: e in valid && RefId(e) in selected) && (exists e :: e in valid && RefId(e) !in selected))
      && !(AllSelected(folder, selected) && Indeterminate(folder, selected))
  {
    var valid := ValidRefs(EntityRefs(folder));
    var n := SelectedCount(valid, selected);
    if n < |valid| {
      var k :| 0 <= k < |valid| && RefId(valid[k]) !in selected;
      assert valid[k] in valid;
    }
    if n > 0 {
      var k :| 0 <= k < |valid| && RefId(valid[k]) in selected;
      assert valid[k] in valid;
    }
  }

  /** After Clear All no folder is checked or half checked. */
  lemma ClearedFlags(folder: FolderView)
    ensures !AllSelected(folder, ClearedAll()) && !Indeterminate(folder, ClearedAll())
  {
    FlagsMeaning(folder, ClearedAll());
  }

  // ------------------------------------------------------------ search

  /** The name an entry is searched by: the lookup table's entity first,
      then the entry's own object, else `Unknown Channel`. */
  function EntryName(ref: EntityRef, known: map<string, EntityObj>): string {
    var id := RefId(ref);
    if id in known then OrElse(known[id].name, known[id].username)
    else if ref.ObjRef? then OrElse(ref.obj.name, ref.obj.username)
    else "Unknown Channel"
  }

  predicate EntryMatches(ref: EntityRef, term: string, known: map<string, EntityObj>) {
    Contains(Lower(EntryName(ref, known)), Lower(term))
  }

  function MatchingRefs(refs: seq<EntityRef>, term: string, known: map<string, EntityObj>): (r: seq<EntityRef>)
    ensures |r| <= |refs|
    ensures forall e :: e in r <==> e in refs && EntryMatches(e, term, known)
  {
    if refs == [] then []
    else (if EntryMatches(refs[0], term, known) then [refs[0]] else []) + MatchingRefs(refs[1..], term, known)
  }

  /** One folder under a non-blank search: kept whole when its name
      matches, cut down to its matching entries when only they match, and
      dropped otherwise. */
  function FilterFolder(folder: FolderView, term: string, known: map<string, EntityObj>): (r: Option<FolderView>)
    ensures r.Some? <==> ContainsIgnoringCase(folder.name, term)
                         || exists e :: e in EntityRefs(folder) && EntryMatches(e, term, known)
    ensures r.Some? ==> r.value.id == folder.id && r.value.name == folder.name
    ensures r.Some? && ContainsIgnoringCase(folder.name, term) ==> r.value == folder
    ensures r.Some? && !ContainsIgnoringCase(folder.name, term) ==>
              r.value.entityIds == Some(MatchingRefs(EntityRefs(folder), term, known))
  {
    var matchesFolder := Contains(Lower(folder.name), Lower(term));
    var matching := MatchingRefs(EntityRefs(folder), term, known);
    if matchesFolder then Some(folder)
    else if |matching| > 0 then
      assert matching[0] in matching;
      Some(folder.(entityIds := Some(matching)))
    else
      assert forall e :: e in EntityRefs(folder) ==> !EntryMatches(e, term, known);
      None
  }

  function FilterAll(folders: seq<FolderView>, term: string, known: map<string, EntityObj>): (r: seq<FolderView>)
    ensures |r| <= |folders|
  {
    if folders == [] then []
    else
      var head := FilterFolder(folders[0], term, known);
      (if head.Some? then [head.value] else []) + FilterAll(folders[1..], term, known)
  }

  /** `filteredFolders`. */
  function FilteredFolders(folders: seq<FolderView>, term: string, known: map<string, EntityObj>): (r: seq<FolderView>)
    ensures IsBlank(term) ==> r == folders
  {
    if IsBlank(term) then folders else FilterAll(folders, term, known)
  }

  /** Under a search, the shown folders are exactly the folders whose
      filter result is kept, in their original order. */
  lemma {:induction false} FilterAllMembers(folders: seq<FolderView>, term: string, known: map<string, EntityObj>)
    ensures forall g :: g in FilterAll(folders, term, known) <==>
              exists k :: 0 <= k < |folders| && FilterFolder(folders[k], term, known) == Some(g)
  {
    if folders != [] {
      FilterAllMembers(folders[1..], term, known);
      forall g | (exists k :: 0 <= k < |folders| && FilterFolder(folders[k], term, known) == Some(g))
        ensures g in FilterAll(folders, term, known)
      {
        var k :| 0 <= k < |folders| && FilterFolder(folders[k], term, known) == Some(g);
        if k > 0 {
          assert folders[1..][k - 1] == folders[k];
        }
      }
      forall g | g in FilterAll(folders[1..], term, known)
        ensures exists k :: 0 <= k < |folders| && FilterFolder(folders[k], term, known) == Some(g)
      {
        var k :| 0 <= k < |folders[1..]| && FilterFolder(folders[1..][k], term, known) == Some(g);
        assert folders[k + 1] == folders[1..][k];
      }
    }
  }
}
