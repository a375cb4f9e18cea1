/** The channel and folder records the dashboard pages receive from the
    backend, and the id-to-entity lookup table the broadcast and quiz pages
    build from them. A string field that is missing is the empty string:
    both are falsy for the `||` fallbacks the pages use. */
module FrontEntities {
  import opened Wrappers

  /** An entity as fetched from `/entities` or embedded in a folder. */
  datatype EntityObj = EntityObj(
    id: string,           // `_id`
    telegramId: string,
    name: string,
    username: string,
    kind: Option<string>) // `type`, possibly undefined

  /** A folder's `entityIds` element: a bare id or a populated object. */
  datatype EntityRef = IdRef(id: string) | ObjRef(obj: EntityObj)

  /** A folder with its possibly absent `entityIds` list. */
  datatype FolderView = FolderView(id: string, name: string, entityIds: Option<seq<EntityRef>>)

  /** JavaScript's `a || b` on strings. */
  function OrElse(a: string, b: string): (r: string)
    ensures r == (if a != [] then a else b)
    ensures r != [] <==> a != [] || b != []
  {
    if a != [] then a else b
  }

  /** `typeof ent === 'object' ? ent._id : ent`. */
  function RefId(r: EntityRef): string {
    match r
    case IdRef(id) => id
    case ObjRef(o) => o.id
  }

  /** `folder.entityIds || []`. */
  function EntityRefs(f: FolderView): seq<EntityRef> {
    f.entityIds.GetOr([])
  }

  /** The key an entity fetched directly is stored under: `telegramId || _id`. */
  function EntityKey(e: EntityObj): string {
    OrElse(e.telegramId, e.id)
  }

  /** The keys the directly fetched entities occupy. */
  ghost function EntityKeys(es: seq<EntityObj>): set<string> {
    set i | 0 <= i < |es| :: EntityKey(es[i])
  }

  /** The first loop of `allEntitiesMap`: every fetched entity is set under
      its key, a later entity replacing an earlier one with the same key. */
  function WithEntities(m: map<string, EntityObj>, es: seq<EntityObj>): (r: map<string, EntityObj>)
    ensures r.Keys == m.Keys + EntityKeys(es)
    ensures forall k :: k in m && k !in EntityKeys(es) ==> r[k] == m[k]
    ensures forall i {:trigger es[i]} :: 0 <= i < |es| && EntityKey(es[i]) !in EntityKeys(es[i + 1..])
              ==> r[EntityKey(es[i])] == es[i]
    decreases |es|
  {
    if es == [] then m
    else
      var r := WithEntities(m[EntityKey(es[0]) := es[0]], es[1..]);
      assert EntityKeys(es) == {EntityKey(es[0])} + EntityKeys(es[1..]) by {
        forall k | k in EntityKeys(es) ensures k in {EntityKey(es[0])} + EntityKeys(es[1..]) {
          var i :| 0 <= i < |es| && EntityKey(es[i]) == k;
          if i > 0 { assert EntityKey(es[1..][i - 1]) == k; }
        }
      }
      forall i | 0 <= i < |es| && EntityKey(es[i]) !in EntityKeys(es[i + 1..])
        ensures r[EntityKey(es[i])] == es[i]
      {
        if i > 0 {
          assert es[1..][i - 1] == es[i] && es[1..][i..] == es[i + 1..];
        }
      }
      r
  }

  /** The ids of the populated folder entries, in folder order. */
  function EmbeddedObjects(folders: seq<FolderView>): seq<EntityObj> {
    if folders == [] then []
    else Objects(EntityRefs(folders[0])) + EmbeddedObjects(folders[1..])
  }

  function Objects(refs: seq<EntityRef>): (r: seq<EntityObj>)
    ensures forall o :: o in r <==> ObjRef(o) in refs
  {
    if refs == [] then []
    else (if refs[0].ObjRef? then [refs[0].obj] else []) + Objects(refs[1..])
  }

  ghost function ObjectIds(objs: seq<EntityObj>): set<string> {
    set i | 0 <= i < |objs| :: objs[i].id
  }

  /** The second loop of `allEntitiesMap`: an object embedded in a folder
      is added under its `_id` only when that key is still free; bare ids
      add nothing. */
  function WithEmbedded(m: map<string, EntityObj>, objs: seq<EntityObj>): (r: map<string, EntityObj>)
    ensures r.Keys == m.Keys + ObjectIds(objs)
    ensures forall k :: k in m ==> r[k] == m[k]
    ensures forall k :: k in r && k !in m ==> r[k].id == k && r[k] in objs
    decreases |objs|
  {
    if objs == [] then m
    else
      var o := objs[0];
      var m' := if o.id !in m then m[o.id := o] else m;
      var r := WithEmbedded(m', objs[1..]);
      ObjectIdsCons(objs);
      r
  }

  /** Where several embedded copies share a free key, the first one wins. */
  lemma {:induction false} EmbeddedFirstWins(m: map<string, EntityObj>, objs: seq<EntityObj>, i: nat)
    requires i < |objs| && objs[i].id !in m && FirstWithId(objs, i)
    ensures objs[i].id in WithEmbedded(m, objs)
    ensures WithEmbedded(m, objs)[objs[i].id] == objs[i]
    decreases i
  {
    var o := objs[0];
    var m' := if o.id !in m then m[o.id := o] else m;
    var tail := objs[1..];
    assert WithEmbedded(m, objs) == WithEmbedded(m', tail);
    if i == 0 {
      assert m'[o.id] == o;
    } else {
      var x := objs[i];
      assert tail[i - 1] == x;
      assert x.id !in m' by {
        assert objs[0].id != x.id;
      }
      FirstInTail(objs, i);
      EmbeddedFirstWins(m', tail, i - 1);
    }
  }

  lemma FirstInTail(objs: seq<EntityObj>, i: nat)
    requires 0 < i < |objs| && FirstWithId(objs, i)
    ensures FirstWithId(objs[1..], i - 1)
  {
    forall j | 0 <= j < i - 1 ensures objs[1..][j].id != objs[1..][i - 1].id {
      assert objs[1..][j] == objs[j + 1];
    }
  }


  /** No object before position `i` has the id of the one at `i`. */
  predicate FirstWithId(objs: seq<EntityObj>, i: nat)
    requires i < |objs|
  {
    forall j :: 0 <= j < i ==> objs[j].id != objs[i].id
  }

  lemma ObjectIdsCons(objs: seq<EntityObj>)
    requires objs != []
    ensures ObjectIds(objs) == {objs[0].id} + ObjectIds(objs[1..])
  {
    forall k | k in ObjectIds(objs) ensures k in {objs[0].id} + ObjectIds(objs[1..]) {
      var i :| 0 <= i < |objs| && objs[i].id == k;
      if i > 0 { assert objs[1..][i - 1].id == k; }
    }
  }

  /** `allEntitiesMap`: the fetched entities by `telegramId || _id`, then
      the populated folder entries by `_id` wherever the key is free. */
  function AllEntitiesMap(entities: seq<EntityObj>, folders: seq<FolderView>): (r: map<string, EntityObj>) {
    WithEmbedded(WithEntities(map[], entities), EmbeddedObjects(folders))
  }

  /** A fetched entity is always found under its key, and a folder's copy
      never replaces it: when no later fetched entity shares the key, it is
      the one stored. */
  lemma FetchedEntitiesWin(entities: seq<EntityObj>, folders: seq<FolderView>, i: nat)
    requires i < |entities|
    requires EntityKey(entities[i]) !in EntityKeys(entities[i + 1..])
    ensures EntityKey(entities[i]) in AllEntitiesMap(entities, folders)
    ensures AllEntitiesMap(entities, folders)[EntityKey(entities[i])] == entities[i]
  {
    var m := WithEntities(map[], entities);
    assert EntityKey(entities[i]) in EntityKeys(entities);
    assert m[EntityKey(entities[i])] == entities[i];
  }
}
