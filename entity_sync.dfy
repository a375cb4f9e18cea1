/** The entity routes: the caller's chats as stored, reconciled with the
    dialogs the user-session service reports. The collection is keyed by
    its unique index `(ownerUserId, telegramId)`; a save that fails is an
    outcome function of the dialog's position. */
module EntitySync {
  import opened Wrappers
  import opened Schema
  import PythonService

  type EntityKey = (UserId, string)

  function KeyOf(e: Entity): EntityKey {
    (e.ownerUserId, e.telegramId)
  }

  /** The entity a dialog row is saved as: the row's fields, the owner and
      the sync time. */
  function FromRow(owner: UserId, row: PythonService.DialogRow, now: int): (e: Entity)
    ensures KeyOf(e) == (owner, row.telegramId)
  {
    Entity(owner, row.telegramId, row.name, row.username, row.entityType, row.accessHash, now)
  }

  /** The store after upserting the first `n` rows; a failed save leaves
      the store as it was. */
  function UpsertUpTo(entities: map<EntityKey, Entity>, owner: UserId, rows: seq<PythonService.DialogRow>,
                      fails: nat -> Option<string>, now: int, n: nat): map<EntityKey, Entity>
    requires n <= |rows|
  {
    if n == 0 then entities
    else
      var before := UpsertUpTo(entities, owner, rows, fails, now, n - 1);
      if fails(n - 1).Some? then before
      else before[(owner, rows[n - 1].telegramId) := FromRow(owner, rows[n - 1], now)]
  }

  /** Upserts touch only the caller's documents, and a key is present
      afterwards exactly when it was before or some saved row has it. */
  lemma {:induction false} UpsertKeys(entities: map<EntityKey, Entity>, owner: UserId, rows: seq<PythonService.DialogRow>,
                                      fails: nat -> Option<string>, now: int, n: nat, k: EntityKey)
    requires n <= |rows|
    ensures k.0 != owner ==> (k in UpsertUpTo(entities, owner, rows, fails, now, n) <==> k in entities)
    ensures k.0 != owner && k in entities ==> UpsertUpTo(entities, owner, rows, fails, now, n)[k] == entities[k]
    ensures k in UpsertUpTo(entities, owner, rows, fails, now, n) <==>
      k in entities || (k.0 == owner && exists i :: 0 <= i < n && fails(i).None? && rows[i].telegramId == k.1)
  {
    if n > 0 {
      UpsertKeys(entities, owner, rows, fails, now, n - 1, k);
    }
  }

  /** The value under a key is the last saved row with that id. */
  lemma {:induction false} UpsertLastWins(entities: map<EntityKey, Entity>, owner: UserId, rows: seq<PythonService.DialogRow>,
                                          fails: nat -> Option<string>, now: int, n: nat, i: nat)
    requires i < n <= |rows| && fails(i).None?
    requires forall j :: i < j < n && fails(j).None? ==> rows[j].telegramId != rows[i].telegramId
    ensures (owner, rows[i].telegramId) in UpsertUpTo(entities, owner, rows, fails, now, n)
    ensures UpsertUpTo(entities, owner, rows, fails, now, n)[(owner, rows[i].telegramId)] == FromRow(owner, rows[i], now)
  {
    if i < n - 1 {
      UpsertLastWins(entities, owner, rows, fails, now, n - 1, i);
    }
  }

  predicate HasSetting(settings: seq<Setting>, owner: UserId, key: string) {
    exists s :: s in settings && s.userId == owner && s.key == key
  }

  datatype SyncReport = SyncReport(synced: nat, deleted: nat, errors: seq<string>)

  /** The 400 without credentials, the 500 when the `/dialogs` request
      fails, or the sync report. */
  datatype SyncResponse = MissingCredentials | SyncFailed(error: string) | Synced(report: SyncReport)

  /** The documents of `owner` whose id is not among `active`. */
  predicate Stale(k: EntityKey, owner: UserId, active: seq<string>) {
    k.0 == owner && k.1 !in active
  }

  function IdsOf(rows: seq<PythonService.DialogRow>): (ids: seq<string>)
    ensures |ids| == |rows| && forall i :: 0 <= i < |rows| ==> ids[i] == rows[i].telegramId
  {
    seq(|rows|, i requires 0 <= i < |rows| => rows[i].telegramId)
  }

  /** The positions among the first `n` whose save fails. */
  function FailedUpTo(fails: nat -> Option<string>, n: nat): set<nat> {
    set j | 0 <= j < n && fails(j).Some?
  }

  lemma FailedStep(fails: nat -> Option<string>, i: nat)
    ensures |FailedUpTo(fails, i + 1)| == |FailedUpTo(fails, i)| + (if fails(i).Some? then 1 else 0)
  {
    if fails(i).Some? {
      assert FailedUpTo(fails, i + 1) == FailedUpTo(fails, i) + {i};
    } else {
      assert FailedUpTo(fails, i + 1) == FailedUpTo(fails, i);
    }
  }

  /** The entity collection the routes update in place. */
  class EntityStore {
    var entities: map<EntityKey, Entity>

    ghost predicate Valid()
      reads this
    {
      forall k :: k in entities ==> KeyOf(entities[k]) == k
    }

    constructor ()
      ensures Valid() && entities == map[]
    {
      entities := map[];
    }

    /** `GET /`: the caller's entities, of the given type when one is
        asked for (a type that names no kind matches nothing). */
    function List(owner: UserId, entityType: string): (r: set<Entity>)
      reads this
      requires Valid()
      ensures forall e :: e in r <==>
        e in entities.Values && e.ownerUserId == owner && (entityType == [] || EntityTypeName(e.entityType) == entityType)
    {
      set e | e in entities.Values && e.ownerUserId == owner && (entityType == [] || EntityTypeName(e.entityType) == entityType)
    }

    /** `GET /:telegramId`: the caller's entity with that id, or 404; an
        entity found belongs to the caller and carries the asked id. */
    function Get(owner: UserId, telegramId: string): (r: Option<Entity>)
      reads this
      requires Valid()
      ensures r.Some? <==> exists e :: e in entities.Values && e.ownerUserId == owner && e.telegramId == telegramId
      ensures r.Some? ==> r.value.ownerUserId == owner && r.value.telegramId == telegramId && r.value in entities.Values
    {
      if (owner, telegramId) in entities then Some(entities[(owner, telegramId)]) else None
    }

    /** The upsert loop shared by both sync routes; `prefix` gives each
        error's prefix. */
    method UpsertAll(owner: UserId, rows: seq<PythonService.DialogRow>, fails: nat -> Option<string>, now: int,
                     prefix: PythonService.DialogRow -> string)
      returns (saved: nat, errors: seq<string>)
      requires Valid()
      modifies this
      ensures Valid()
      ensures entities == UpsertUpTo(old(entities), owner, rows, fails, now, |rows|)
      ensures saved + |errors| == |rows|
      ensures |errors| == |FailedUpTo(fails, |rows|)|
    {
      saved := 0;
      errors := [];
      var i := 0;
      while i < |rows|
        invariant 0 <= i <= |rows|
        invariant Valid()
        invariant entities == UpsertUpTo(old(entities), owner, rows, fails, now, i)
        invariant saved + |errors| == i
        invariant |errors| == |FailedUpTo(fails, i)|
      {
        var row := rows[i];
        var failure := fails(i);
        FailedStep(fails, i);
        if failure.Some? {
          errors := errors + [prefix(row) + ": " + failure.value];
        } else {
          entities := entities[(owner, row.telegramId) := FromRow(owner, row, now)];
          saved := saved + 1;
        }
        i := i + 1;
      }
    }

    /** `POST /sync-telegram`: 400 without both credentials; a failed
        `/dialogs` request answers 500 before anything is written; otherwise
        every dialog is upserted, then every caller entity whose id the
        service no longer reports is deleted. */
    method SyncTelegram(owner: UserId, settings: seq<Setting>, dialogs: Result<seq<PythonService.DialogRow>, string>,
                        fails: nat -> Option<string>, now: int)
      returns (resp: SyncResponse)
      requires Valid()
      modifies this
      ensures Valid()
      ensures !HasSetting(settings, owner, "api_id") || !HasSetting(settings, owner, "api_hash") ==>
        resp == MissingCredentials && entities == old(entities)
      ensures HasSetting(settings, owner, "api_id") && HasSetting(settings, owner, "api_hash") && dialogs.Err? ==>
        resp == SyncFailed(dialogs.error) && entities == old(entities)
      /* With both credentials and the dialogs fetched, the route syncs. */
      ensures HasSetting(settings, owner, "api_id") && HasSetting(settings, owner, "api_hash") && dialogs.Ok? ==>
        resp.Synced?
      ensures resp.Synced? ==>
        var rows := dialogs.value;
        var upserted := UpsertUpTo(old(entities), owner, rows, fails, now, |rows|);
        && dialogs.Ok?
        && (forall k :: k in entities <==> k in upserted && !Stale(k, owner, IdsOf(rows)))
        && (forall k :: k in entities ==> entities[k] == upserted[k])
        && resp.report.synced + |resp.report.errors| == |rows|
        && |resp.report.errors| == |FailedUpTo(fails, |rows|)|
        && resp.report.deleted == |upserted.Keys| - |entities.Keys|
    {
      if !HasSetting(settings, owner, "api_id") || !HasSetting(settings, owner, "api_hash") {
        return MissingCredentials;
      }
      if dialogs.Err? {
        return SyncFailed(dialogs.error);
      }
      var rows := dialogs.value;
      var active := IdsOf(rows);
      var synced, errors := UpsertAll(owner, rows, fails, now, (row: PythonService.DialogRow) => row.name);
      var before := entities;
      entities := map k | k in before && !Stale(k, owner, active) :: before[k];
      assert before.Keys == entities.Keys + (before.Keys - entities.Keys);
      var deleted := |before.Keys| - |entities.Keys|;
      resp := Synced(SyncReport(synced, deleted, errors));
    }

    /** `POST /sync`: 400 unless `entities` is an array; every successful
        upsert counts as created, nothing is pruned. */
    method Sync(owner: UserId, rows: Option<seq<PythonService.DialogRow>>, fails: nat -> Option<string>, now: int)
      returns (resp: Result<(nat, seq<string>), string>)
      requires Valid()
      modifies this
      ensures Valid()
      ensures rows.None? ==> resp == Err("Entities array is required") && entities == old(entities)
      ensures rows.Some? ==>
        && resp.Ok?
        && entities == UpsertUpTo(old(entities), owner, rows.value, fails, now, |rows.value|)
        && resp.value.0 + |resp.value.1| == |rows.value|
        && |resp.value.1| == |FailedUpTo(fails, |rows.value|)|
    {
      if rows.None? {
        return Err("Entities array is required");
      }
      var created, errors := UpsertAll(owner, rows.value, fails, now, (row: PythonService.DialogRow) => row.telegramId);
      resp := Ok((created, errors));
    }

    /** `DELETE /:telegramId`: 404 when the caller has no such entity. */
    method Delete(owner: UserId, telegramId: string) returns (r: Option<Entity>)
      requires Valid()
      modifies this
      ensures Valid()
      ensures (owner, telegramId) !in old(entities) ==> r.None? && entities == old(entities)
      ensures (owner, telegramId) in old(entities) ==>
        r == Some(old(entities)[(owner, telegramId)]) && entities == old(entities) - {(owner, telegramId)}
    {
      if (owner, telegramId) !in entities {
        return None;
      }
      r := Some(entities[(owner, telegramId)]);
      entities := entities - {(owner, telegramId)};
    }
  }

  /** After a Telegram sync the caller holds exactly the saved dialogs that
      are still reported and the ones it already had that are still
      reported; other owners are untouched. */
  lemma SyncOutcome(entities: map<EntityKey, Entity>, owner: UserId, dialogs: seq<PythonService.DialogRow>,
                    fails: nat -> Option<string>, now: int, k: EntityKey)
    ensures var upserted := UpsertUpTo(entities, owner, dialogs, fails, now, |dialogs|);
      var after := map k | k in upserted && !Stale(k, owner, IdsOf(dialogs)) :: upserted[k];
      && (k.0 != owner ==> (k in after <==> k in entities))
      && (k.0 == owner ==> (k in after <==> (k in entities || (exists i :: 0 <= i < |dialogs| && fails(i).None? && dialogs[i].telegramId == k.1))
                                            && k.1 in IdsOf(dialogs)))
  {
    UpsertKeys(entities, owner, dialogs, fails, now, |dialogs|, k);
  }
}
