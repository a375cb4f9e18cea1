/** The settings clean-up script: for every user, the settings are grouped
    by key and, where a key has several documents, only the most recently
    updated one is kept. Documents are identified by `id`; the script's
    effect is the set of ids it deletes. */
module FixSettings {
  import opened Schema
  import Sorting

  /** The sort key of `(a, b) => b.updatedAt - a.updatedAt`. */
  function Newest(s: Setting): int {
    -s.updatedAt
  }

  predicate IdsUnique(ss: seq<Setting>) {
    forall i, j :: 0 <= i < j < |ss| ==> ss[i].id != ss[j].id
  }

  /** `Settings.find({ userId })`, in natural order. */
  function OfUser(ss: seq<Setting>, u: UserId): (r: seq<Setting>)
    ensures forall s :: s in r <==> s in ss && s.userId == u
  {
    if ss == [] then []
    else OfUser(ss[..|ss| - 1], u) + (if ss[|ss| - 1].userId == u then [ss[|ss| - 1]] else [])
  }

  /** The documents with key `k`, in order. */
  function WithKeyName(ss: seq<Setting>, k: string): (r: seq<Setting>)
    ensures forall s :: s in r <==> s in ss && s.key == k
  {
    if ss == [] then []
    else WithKeyName(ss[..|ss| - 1], k) + (if ss[|ss| - 1].key == k then [ss[|ss| - 1]] else [])
  }

  /** All documents of user `u` under key `k`, in natural order. */
  function GroupOf(ss: seq<Setting>, u: UserId, k: string): (r: seq<Setting>)
    ensures forall s :: s in r <==> s in ss && s.userId == u && s.key == k
  {
    if ss == [] then []
    else
      var last := ss[|ss| - 1];
      GroupOf(ss[..|ss| - 1], u, k) + (if last.userId == u && last.key == k then [last] else [])
  }

  lemma {:induction false} GroupCompose(ss: seq<Setting>, u: UserId, k: string)
    ensures WithKeyName(OfUser(ss, u), k) == GroupOf(ss, u, k)
  {
    if ss != [] {
      var init := ss[..|ss| - 1];
      var last := ss[|ss| - 1];
      GroupCompose(init, u, k);
      var f := OfUser(init, u);
      if last.userId == u {
        assert OfUser(ss, u) == f + [last];
        assert (f + [last])[..|f + [last]| - 1] == f;
        assert WithKeyName(f + [last], k) == WithKeyName(f, k) + (if last.key == k then [last] else []);
      } else {
        assert OfUser(ss, u) == f + [] == f;
      }
    }
  }

  /** The document kept for a group: the first after sorting latest first. */
  function Keeper(group: seq<Setting>): Setting
    requires group != []
  {
    Sorting.SortBy(group, Newest)[0]
  }

  /** The ids deleted for a group: every other document, and none when
      the key has a single document. */
  function DoomedIds(group: seq<Setting>): set<string> {
    if |group| <= 1 then {}
    else
      var sorted := Sorting.SortBy(group, Newest);
      IdsOf(sorted[1..])
  }

  /** The ids of some documents. */
  function IdsOf(ts: seq<Setting>): (r: set<string>)
    ensures forall id :: id in r <==> exists t :: t in ts && t.id == id
  {
    set t | t in ts :: t.id
  }

  /** The kept document is the latest, and among documents updated at the
      same moment it is the first in natural order. */
  lemma KeeperIsLatest(group: seq<Setting>)
    requires group != []
    ensures Keeper(group) in group
    ensures forall t :: t in group ==> t.updatedAt <= Keeper(group).updatedAt
    ensures Sorting.WithKey(group, Newest, Newest(Keeper(group))) != []
      && Keeper(group) == Sorting.WithKey(group, Newest, Newest(Keeper(group)))[0]
  {
    var sorted := Sorting.SortBy(group, Newest);
    Sorting.SortBySorted(group, Newest);
    assert sorted[0] in multiset(group);
    forall t | t in group ensures t.updatedAt <= sorted[0].updatedAt {
      assert t in multiset(sorted);
      var j :| 0 <= j < |sorted| && sorted[j] == t;
    }
    var k := Newest(sorted[0]);
    Sorting.SortByStable(group, Newest, k);
    assert sorted == [sorted[0]] + sorted[1..];
    assert Sorting.WithKey(sorted, Newest, k)[0] == sorted[0];
  }

  /** Every deleted id belongs to a document of the group. */
  lemma DoomedFromGroup(group: seq<Setting>, id: string)
    requires id in DoomedIds(group)
    ensures exists t :: t in group && t.id == id
  {
    var sorted := Sorting.SortBy(group, Newest);
    var t :| t in sorted[1..] && t.id == id;
    assert t in multiset(sorted);
  }

  /** The keeper's id is not deleted when ids are unique. */
  lemma KeeperSurvives(group: seq<Setting>)
    requires group != [] && IdsUnique(group)
    ensures Keeper(group).id !in DoomedIds(group)
  {
    if |group| > 1 {
      var sorted := Sorting.SortBy(group, Newest);
      forall t | t in sorted[1..] ensures t.id != sorted[0].id {
        var j :| 1 <= j < |sorted| && sorted[j] == t;
        assert sorted[0] in multiset(sorted) && t in multiset(sorted);
        if t.id == sorted[0].id {
          SameIdSame(group, sorted[0], t);
          TwiceCounted(sorted, 0, j);
          OnceWhenIdsUnique(group, t);
        }
      }
    }
  }

  lemma SameIdSame(ss: seq<Setting>, x: Setting, y: Setting)
    requires IdsUnique(ss) && x in ss && y in ss && x.id == y.id
    ensures x == y
  {
    var a :| 0 <= a < |ss| && ss[a] == x;
    var b :| 0 <= b < |ss| && ss[b] == y;
  }

  lemma TwiceCounted(s: seq<Setting>, i: nat, j: nat)
    requires i < j < |s| && s[i] == s[j]
    ensures multiset(s)[s[i]] >= 2
  {
    assert s == s[..j] + [s[j]] + s[j + 1..];
    assert s[i] in s[..j];
  }

  lemma {:induction false} OnceWhenIdsUnique(ss: seq<Setting>, t: Setting)
    requires IdsUnique(ss)
    ensures multiset(ss)[t] <= 1
  {
    if ss != [] {
      var init := ss[..|ss| - 1];
      assert ss == init + [ss[|ss| - 1]];
      OnceWhenIdsUnique(init, t);
      if ss[|ss| - 1] == t {
        assert t !in init;
      }
    }
  }

  /** The ids the script deletes for the users in `users`. */
  function Doomed(ss: seq<Setting>, users: seq<UserId>): set<string> {
    set s | s in ss && s.userId in users && s.id in DoomedIds(GroupOf(ss, s.userId, s.key)) :: s.id
  }

  /** The keys of `ss` in order of first appearance. `Object.entries`
      lists integer-like keys first, in numeric order; that changes only the
      order in which groups are visited, never which documents are
      deleted (`Doomed` is a set). */
  function KeysUpTo(ss: seq<Setting>, n: nat): seq<string>
    requires n <= |ss|
  {
    if n == 0 then []
    else
      var before := KeysUpTo(ss, n - 1);
      if ss[n - 1].key in before then before else before + [ss[n - 1].key]
  }

  lemma {:induction false} KeysUpToMembers(ss: seq<Setting>, n: nat, k: string)
    requires n <= |ss|
    ensures k in KeysUpTo(ss, n) <==> exists i :: 0 <= i < n && ss[i].key == k
  {
    if n > 0 {
      KeysUpToMembers(ss, n - 1, k);
    }
  }

  /** The grouping object after the first `n` settings. */
  function GroupsUpTo(ss: seq<Setting>, n: nat): map<string, seq<Setting>>
    requires n <= |ss|
  {
    if n == 0 then map[]
    else
      var before := GroupsUpTo(ss, n - 1);
      var s := ss[n - 1];
      before[s.key := (if s.key in before then before[s.key] else []) + [s]]
  }

  /** The grouping object has an entry per key seen, holding that key's
      settings in order. */
  lemma {:induction false} GroupsUpToShape(ss: seq<Setting>, n: nat, k: string)
    requires n <= |ss|
    ensures k in GroupsUpTo(ss, n) <==> k in KeysUpTo(ss, n)
    ensures k in GroupsUpTo(ss, n) ==> GroupsUpTo(ss, n)[k] == WithKeyName(ss[..n], k)
    ensures k !in GroupsUpTo(ss, n) ==> WithKeyName(ss[..n], k) == []
  {
    if n > 0 {
      GroupsUpToShape(ss, n - 1, k);
      assert ss[..n][..n - 1] == ss[..n - 1];
    }
  }

  /** The grouping loop: `settingsByKey[key].push(setting)`. */
  method GroupByKey(ss: seq<Setting>) returns (order: seq<string>, byKey: map<string, seq<Setting>>)
    ensures order == KeysUpTo(ss, |ss|)
    ensures forall k :: k in byKey <==> k in order
    ensures forall k :: k in byKey ==> byKey[k] == WithKeyName(ss, k)
  {
    order := [];
    byKey := map[];
    var i := 0;
    while i < |ss|
      invariant 0 <= i <= |ss|
      invariant order == KeysUpTo(ss, i)
      invariant byKey == GroupsUpTo(ss, i)
    {
      var s := ss[i];
      GroupsUpToKeys(ss, i, s.key);
      if s.key !in byKey {
        order := order + [s.key];
        byKey := byKey[s.key := []];
      }
      byKey := byKey[s.key := byKey[s.key] + [s]];
      i := i + 1;
    }
    GroupsShape(ss);
  }

  lemma {:induction false} GroupsUpToKeys(ss: seq<Setting>, n: nat, k: string)
    requires n <= |ss|
    ensures k in GroupsUpTo(ss, n) <==> k in KeysUpTo(ss, n)
  {
    if n > 0 {
      GroupsUpToKeys(ss, n - 1, k);
    }
  }

  /** After the whole loop: an entry per key of the order, holding its
      settings. */
  lemma GroupsShape(ss: seq<Setting>)
    ensures forall k :: k in GroupsUpTo(ss, |ss|) <==> k in KeysUpTo(ss, |ss|)
    ensures forall k :: k in GroupsUpTo(ss, |ss|) ==> GroupsUpTo(ss, |ss|)[k] == WithKeyName(ss, k)
  {
    assert ss[..|ss|] == ss;
    forall k ensures k in GroupsUpTo(ss, |ss|) <==> k in KeysUpTo(ss, |ss|) {
      GroupsUpToShape(ss, |ss|, k);
    }
    forall k | k in GroupsUpTo(ss, |ss|) ensures GroupsUpTo(ss, |ss|)[k] == WithKeyName(ss, k) {
      GroupsUpToShape(ss, |ss|, k);
    }
  }

  /** One user's pass: group, then delete all but the latest of every key
      with duplicates. */
  method FixUser(ss: seq<Setting>, u: UserId) returns (deleted: set<string>)
    ensures deleted == set s | s in ss && s.userId == u && s.id in DoomedIds(GroupOf(ss, u, s.key)) :: s.id
  {
    var mine := OfUser(ss, u);
    var order, byKey := GroupByKey(mine);
    deleted := {};
    var j := 0;
    while j < |order|
      invariant 0 <= j <= |order|
      invariant deleted == DoomedFor(ss, u, order[..j])
    {
      var k := order[j];
      var group := byKey[k];
      GroupCompose(ss, u, k);
      assert group == GroupOf(ss, u, k);
      ghost var prev := deleted;
      if |group| > 1 {
        var sorted := Sorting.SortBy(group, Newest);
        deleted := deleted + IdsOf(sorted[1..]);
      }
      assert deleted == prev + DoomedIds(group);
      AddGroup(ss, u, order[..j], k);
      SliceSnoc(order, j);
      j := j + 1;
    }
    UserKeysListed(ss, u, order);
    assert order[..j] == order;
    AllKeys(ss, u, order);
  }

  lemma UserKeysListed(ss: seq<Setting>, u: UserId, order: seq<string>)
    requires order == KeysUpTo(OfUser(ss, u), |OfUser(ss, u)|)
    ensures forall s :: s in ss && s.userId == u ==> s.key in order
  {
    var mine := OfUser(ss, u);
    forall s | s in ss && s.userId == u ensures s.key in order {
      var i :| 0 <= i < |mine| && mine[i] == s;
      KeysUpToMembers(mine, |mine|, s.key);
    }
  }

  /** Once every key of `u` is listed, the ids deleted under the listed
      keys are those of the script's rule. */
  lemma AllKeys(ss: seq<Setting>, u: UserId, keys: seq<string>)
    requires forall s :: s in ss && s.userId == u ==> s.key in keys
    ensures DoomedFor(ss, u, keys) == set s | s in ss && s.userId == u && s.id in DoomedIds(GroupOf(ss, u, s.key)) :: s.id
  {
    forall id ensures id in DoomedFor(ss, u, keys) <==>
      exists s :: s in ss && s.userId == u && s.key in keys && s.id == id && s.id in DoomedIds(GroupOf(ss, u, s.key))
    {
      DoomedForMembers(ss, u, keys, id);
    }
  }

  /** The ids deleted for user `u` group by group, over the keys in
      `keys`. */
  function DoomedFor(ss: seq<Setting>, u: UserId, keys: seq<string>): set<string>
    decreases |keys|
  {
    if keys == [] then {}
    else DoomedFor(ss, u, keys[..|keys| - 1]) + DoomedIds(GroupOf(ss, u, keys[|keys| - 1]))
  }

  /** An id is deleted under `keys` exactly when it is the id of a document
      of `u`, under one of those keys, that its group deletes. */
  lemma {:induction false} DoomedForMembers(ss: seq<Setting>, u: UserId, keys: seq<string>, id: string)
    ensures id in DoomedFor(ss, u, keys) <==>
      exists s :: s in ss && s.userId == u && s.key in keys && s.id == id && s.id in DoomedIds(GroupOf(ss, u, s.key))
    decreases |keys|
  {
    if keys != [] {
      var init, k := keys[..|keys| - 1], keys[|keys| - 1];
      DoomedForMembers(ss, u, init, id);
      InInitOrLast(keys);
      if id in DoomedIds(GroupOf(ss, u, k)) {
        DoomedFromGroup(GroupOf(ss, u, k), id);
        var t :| t in GroupOf(ss, u, k) && t.id == id;
        assert t in ss && t.key in keys;
      }
      if exists s :: s in ss && s.userId == u && s.key in keys && s.id == id && s.id in DoomedIds(GroupOf(ss, u, s.key)) {
        var s :| s in ss && s.userId == u && s.key in keys && s.id == id && s.id in DoomedIds(GroupOf(ss, u, s.key));
        if s.key !in init {
          assert s.key == k;
        }
      }
    }
  }

  lemma SliceSnoc<T>(s: seq<T>, j: nat)
    requires j < |s|
    ensures s[..j + 1] == s[..j] + [s[j]]
  {
  }

  lemma InInitOrLast<T>(s: seq<T>)
    requires s != []
    ensures forall x :: x in s <==> x in s[..|s| - 1] || x == s[|s| - 1]
  {
    assert s == s[..|s| - 1] + [s[|s| - 1]];
  }

  /** Handling one more key adds exactly that key's deleted ids. */
  lemma AddGroup(ss: seq<Setting>, u: UserId, keys: seq<string>, k: string)
    ensures DoomedFor(ss, u, keys + [k]) == DoomedFor(ss, u, keys) + DoomedIds(GroupOf(ss, u, k))
  {
    assert (keys + [k])[..|keys|] == keys;
  }

  /** `fixSettings`: every user in turn. */
  method Fix(users: seq<UserId>, ss: seq<Setting>) returns (deleted: set<string>)
    ensures deleted == Doomed(ss, users)
  {
    deleted := {};
    var i := 0;
    while i < |users|
      invariant 0 <= i <= |users|
      invariant deleted == Doomed(ss, users[..i])
    {
      var more := FixUser(ss, users[i]);
      assert users[..i + 1] == users[..i] + [users[i]];
      deleted := deleted + more;
      i := i + 1;
    }
    assert users[..i] == users;
  }

  /** The collection after the deletions. */
  function Remaining(ss: seq<Setting>, deleted: set<string>): (r: seq<Setting>)
    ensures forall s :: s in r <==> s in ss && s.id !in deleted
  {
    if ss == [] then []
    else Remaining(ss[..|ss| - 1], deleted) + (if ss[|ss| - 1].id in deleted then [] else [ss[|ss| - 1]])
  }

  /** Afterwards every listed user has exactly one document per key they
      had (the latest), and other users' documents are untouched. */
  lemma FixOutcome(users: seq<UserId>, ss: seq<Setting>, s: Setting)
    requires IdsUnique(ss)
    requires s in ss
    ensures var after := Remaining(ss, Doomed(ss, users));
      && (s.userId !in users ==> (s in after <==> s.id !in Doomed(ss, users)))
      && (s.userId in users ==> Keeper(GroupOf(ss, s.userId, s.key)) in after)
      && (s.userId in users ==> forall t :: t in after && t.userId == s.userId && t.key == s.key ==>
            t == Keeper(GroupOf(ss, s.userId, s.key)))
  {
    var group := GroupOf(ss, s.userId, s.key);
    var after := Remaining(ss, Doomed(ss, users));
    if s.userId in users {
      KeeperIsLatest(group);
      GroupIdsUnique(ss, s.userId, s.key);
      KeeperSurvives(group);
      var keeper := Keeper(group);
      forall t | t in after && t.userId == s.userId && t.key == s.key ensures t == keeper {
        assert t in group;
        var sorted := Sorting.SortBy(group, Newest);
        assert t in multiset(sorted);
        var j :| 0 <= j < |sorted| && sorted[j] == t;
      }
    }
  }

  lemma GroupIdsUnique(ss: seq<Setting>, u: UserId, k: string)
    requires IdsUnique(ss)
    ensures IdsUnique(GroupOf(ss, u, k))
  {
    var g := GroupOf(ss, u, k);
    forall i, j | 0 <= i < j < |g| ensures g[i].id != g[j].id {
      var a, b := GroupOrdered(ss, u, k, i, j);
    }
  }

  /** Two positions of a group come from two positions of the input. */
  lemma {:induction false} GroupOrdered(ss: seq<Setting>, u: UserId, k: string, i: nat, j: nat) returns (a: nat, b: nat)
    requires i < j < |GroupOf(ss, u, k)|
    ensures a < b < |ss| && ss[a] == GroupOf(ss, u, k)[i] && ss[b] == GroupOf(ss, u, k)[j]
  {
    var init := ss[..|ss| - 1];
    var g := GroupOf(init, u, k);
    assert GroupOf(ss, u, k)[..|g|] == g;
    if j < |g| {
      a, b := GroupOrdered(init, u, k, i, j);
    } else {
      a := GroupIndex(init, u, k, i);
      b := |ss| - 1;
    }
  }

  /** Each position of a group comes from a position of the input. */
  lemma {:induction false} GroupIndex(ss: seq<Setting>, u: UserId, k: string, i: nat) returns (a: nat)
    requires i < |GroupOf(ss, u, k)|
    ensures a < |ss| && ss[a] == GroupOf(ss, u, k)[i]
  {
    var init := ss[..|ss| - 1];
    var g := GroupOf(init, u, k);
    assert GroupOf(ss, u, k)[..|g|] == g;
    if i < |g| {
      a := GroupIndex(init, u, k, i);
    } else {
      a := |ss| - 1;
    }
  }
}
