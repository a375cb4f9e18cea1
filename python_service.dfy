/** The user-session service: the caller header, which dialogs can be sent
    to, metric extraction for a batch of receipts, and grouped deletion.
    The session client (dialog listing, message fetch, deletion) is given
    as data or as an outcome function. */
module PythonService {
  import opened Wrappers
  import opened Text
  import opened Schema

  // ------------------------------------------------------------- caller

  datatype HttpError = HttpError(status: nat, detail: string)

  /** `get_user_id_from_request`: an absent or empty `x-user-id` header is
      answered 400. */
  function UserIdFromHeader(header: Option<string>): (r: Result<UserId, HttpError>)
    ensures r.Ok? <==> header.Some? && header.value != []
    ensures r.Ok? ==> r.value == header.value
    ensures r.Err? ==> r.error == HttpError(400, "x-user-id header required")
  {
    if header.None? || header.value == [] then Err(HttpError(400, "x-user-id header required"))
    else Ok(header.value)
  }

  // ------------------------------------------------------------ dialogs

  datatype AdminRights = AdminRights(postMessages: bool)

  /** What the session reports about one dialog and its entity. */
  datatype Dialog = Dialog(
    id: int, title: string, name: string,
    isChannel: bool, isGroup: bool,
    left: bool, kicked: bool,
    broadcast: bool, megagroup: bool, creator: bool,
    adminRights: Option<AdminRights>,
    username: Option<string>, accessHash: Option<int>)

  /** One row of the `/dialogs` answer. */
  datatype DialogRow = DialogRow(telegramId: string, name: string, username: Option<string>,
                                 entityType: EntityType, accessHash: Option<string>)

  /** A broadcast channel accepts posts from its creator or from an admin
      holding the post right. */
  predicate CanPostToChannel(d: Dialog) {
    d.creator || (d.adminRights.Some? && d.adminRights.value.postMessages)
  }

  /** The kind a dialog is listed under, or `None` when it is not listed:
      left or kicked dialogs, broadcast channels the account cannot post
      to, and channels that are neither broadcast nor megagroup. */
  function Sendable(d: Dialog): (r: Option<EntityType>)
    ensures d.left || d.kicked ==> r.None?
    ensures !d.left && !d.kicked && d.isChannel ==>
      (r.Some? <==> (d.broadcast && CanPostToChannel(d)) || (!d.broadcast && d.megagroup))
    ensures !d.left && !d.kicked && !d.isChannel ==> r.Some?
    ensures r == Some(ChannelChat) <==> !d.left && !d.kicked && d.isChannel && d.broadcast && CanPostToChannel(d)
    ensures r == Some(UserChat) <==> !d.left && !d.kicked && !d.isChannel && !d.isGroup
  {
    if d.left || d.kicked then None
    else if d.isChannel then
      if d.broadcast then (if CanPostToChannel(d) then Some(ChannelChat) else None)
      else if d.megagroup then Some(GroupChat)
      else None
    else if d.isGroup then Some(GroupChat)
    else Some(UserChat)
  }

  /** The row written for a sendable dialog. */
  function RowOf(d: Dialog, kind: EntityType): (row: DialogRow)
    ensures row.telegramId == IntToString(d.id) && row.entityType == kind
    ensures row.name != []
    ensures row.username == d.username
    ensures row.accessHash.Some? <==> d.accessHash.Some?
  {
    DialogRow(IntToString(d.id),
              if d.title != [] then d.title else if d.name != [] then d.name else "Unknown",
              d.username, kind,
              if d.accessHash.Some? then Some(IntToString(d.accessHash.value)) else None)
  }

  /** The rows for the first `n` dialogs. */
  function RowsUpTo(dialogs: seq<Dialog>, n: nat): seq<DialogRow>
    requires n <= |dialogs|
  {
    if n == 0 then []
    else
      var d := dialogs[n - 1];
      var kind := Sendable(d);
      RowsUpTo(dialogs, n - 1) + (if kind.Some? then [RowOf(d, kind.value)] else [])
  }

  /** Only sendable dialogs are listed, each at most once and in the
      session's order: every row is the row of some sendable dialog. */
  lemma {:induction false} RowsAreSendable(dialogs: seq<Dialog>, n: nat)
    requires n <= |dialogs|
    ensures |RowsUpTo(dialogs, n)| <= n
    ensures forall row :: row in RowsUpTo(dialogs, n) ==>
      exists i :: 0 <= i < n && Sendable(dialogs[i]).Some? && row == RowOf(dialogs[i], Sendable(dialogs[i]).value)
  {
    if n > 0 {
      RowsAreSendable(dialogs, n - 1);
      var d := dialogs[n - 1];
      forall row | row in RowsUpTo(dialogs, n)
        ensures exists i :: 0 <= i < n && Sendable(dialogs[i]).Some? && row == RowOf(dialogs[i], Sendable(dialogs[i]).value)
      {
        if row !in RowsUpTo(dialogs, n - 1) {
          assert Sendable(d).Some? && row == RowOf(d, Sendable(d).value);
        }
      }
    }
  }

  /** Every sendable dialog is listed. */
  lemma {:induction false} SendableAreListed(dialogs: seq<Dialog>, n: nat, i: nat)
    requires i < n <= |dialogs|
    requires Sendable(dialogs[i]).Some?
    ensures RowOf(dialogs[i], Sendable(dialogs[i]).value) in RowsUpTo(dialogs, n)
  {
    if i < n - 1 {
      SendableAreListed(dialogs, n - 1, i);
    }
  }

  /** `get_dialogs`: walks the dialogs and keeps the sendable ones. */
  method GetDialogs(dialogs: seq<Dialog>) returns (rows: seq<DialogRow>)
    ensures rows == RowsUpTo(dialogs, |dialogs|)
  {
    rows := [];
    var i := 0;
    while i < |dialogs|
      invariant 0 <= i <= |dialogs|
      invariant rows == RowsUpTo(dialogs, i)
    {
      var d := dialogs[i];
      var kind := Sendable(d);
      if kind.Some? {
        rows := rows + [RowOf(d, kind.value)];
      }
      i := i + 1;
    }
  }

  // ---------------------------------------------------------- analytics

  /** A receipt as sent by the backend; an empty id or message id 0 is
      "missing" (both are falsy). */
  datatype BatchItem = BatchItem(recipientId: string, messageId: int)

  datatype PollResults = PollResults(totalVoters: Option<int>)
  datatype Poll = Poll(results: Option<PollResults>)

  /** What the session returns for one message; absent attributes are
      `None`. */
  datatype TgMessage = TgMessage(
    views: Option<int>, forwards: Option<int>,
    replies: Option<Option<int>>,
    reactionCounts: Option<seq<int>>,
    poll: Option<Poll>, mediaPoll: Option<Poll>)

  datatype Fetched = Found(message: TgMessage) | NotFound | FetchFailed

  datatype MessageMetrics = MessageMetrics(views: int, forwards: int, replies: int, reactions: int, voters: int)

  /** Python's `x or 0` on an optional integer. */
  function OrZero(x: Option<int>): (r: int)
    ensures x.None? ==> r == 0
    ensures x.Some? ==> r == x.value
  {
    if x.None? then 0 else x.value
  }

  function Sum(xs: seq<int>): int {
    if xs == [] then 0 else Sum(xs[..|xs| - 1]) + xs[|xs| - 1]
  }

  /** The poll's voter count: the message's own poll when it has one (even
      without results), else the media poll when it has results. */
  function Voters(m: TgMessage): (v: int)
    ensures m.poll.Some? && m.poll.value.results.None? ==> v == 0
    ensures m.poll.None? && (m.mediaPoll.None? || m.mediaPoll.value.results.None?) ==> v == 0
  {
    if m.poll.Some? then
      (if m.poll.value.results.Some? then OrZero(m.poll.value.results.value.totalVoters) else 0)
    else if m.mediaPoll.Some? && m.mediaPoll.value.results.Some? then
      OrZero(m.mediaPoll.value.results.value.totalVoters)
    else 0
  }

  /** The five counters extracted from one message; absent counters are 0
      and `reactions` sums the per-reaction counts. */
  function Extract(m: TgMessage): (r: MessageMetrics)
    ensures r.views == OrZero(m.views) && r.forwards == OrZero(m.forwards)
    ensures m.replies.None? ==> r.replies == 0
    ensures m.reactionCounts.None? ==> r.reactions == 0
    ensures m.reactionCounts.Some? ==> r.reactions == Sum(m.reactionCounts.value)
    ensures r.voters == Voters(m)
  {
    MessageMetrics(
      OrZero(m.views), OrZero(m.forwards),
      if m.replies.Some? then OrZero(m.replies.value) else 0,
      if m.reactionCounts.Some? then Sum(m.reactionCounts.value) else 0,
      Voters(m))
  }

  /** An item contributes when both ids are present and the message is
      found; fetch failures and missing messages are skipped. */
  predicate Analyzed(item: BatchItem, fetch: (string, int) -> Fetched) {
    item.recipientId != [] && item.messageId != 0 && fetch(item.recipientId, item.messageId).Found?
  }

  /** The result keys are `str(msg_id)`, without the chat. */
  function KeyOf(item: BatchItem): string {
    IntToString(item.messageId)
  }

  /** The result map after the first `n` items. */
  function BatchUpTo(items: seq<BatchItem>, fetch: (string, int) -> Fetched, n: nat): map<string, MessageMetrics>
    requires n <= |items|
  {
    if n == 0 then map[]
    else
      var item := items[n - 1];
      var before := BatchUpTo(items, fetch, n - 1);
      if Analyzed(item, fetch) then before[KeyOf(item) := Extract(fetch(item.recipientId, item.messageId).message)]
      else before
  }

  /** A key is present exactly when some analysed item has it. */
  lemma {:induction false} BatchKeys(items: seq<BatchItem>, fetch: (string, int) -> Fetched, n: nat, k: string)
    requires n <= |items|
    ensures k in BatchUpTo(items, fetch, n) <==>
      exists i :: 0 <= i < n && Analyzed(items[i], fetch) && KeyOf(items[i]) == k
  {
    if n > 0 {
      BatchKeys(items, fetch, n - 1, k);
      if k in BatchUpTo(items, fetch, n) && k !in BatchUpTo(items, fetch, n - 1) {
        assert Analyzed(items[n - 1], fetch) && KeyOf(items[n - 1]) == k;
      }
    }
  }

  /** Items sharing a message id overwrite each other: the value under a
      key comes from the last analysed item with that key. */
  lemma {:induction false} BatchLastWins(items: seq<BatchItem>, fetch: (string, int) -> Fetched, n: nat, i: nat)
    requires i < n <= |items|
    requires Analyzed(items[i], fetch)
    requires forall j :: i < j < n && Analyzed(items[j], fetch) ==> KeyOf(items[j]) != KeyOf(items[i])
    ensures KeyOf(items[i]) in BatchUpTo(items, fetch, n)
    ensures BatchUpTo(items, fetch, n)[KeyOf(items[i])] == Extract(fetch(items[i].recipientId, items[i].messageId).message)
  {
    if i < n - 1 {
      BatchLastWins(items, fetch, n - 1, i);
    }
  }

  /** `get_analytics_batch`: walks the items and fills the result map. */
  method AnalyticsBatch(items: seq<BatchItem>, fetch: (string, int) -> Fetched) returns (results: map<string, MessageMetrics>)
    ensures results == BatchUpTo(items, fetch, |items|)
  {
    results := map[];
    var i := 0;
    while i < |items|
      invariant 0 <= i <= |items|
      invariant results == BatchUpTo(items, fetch, i)
    {
      var item := items[i];
      if item.recipientId != [] && item.messageId != 0 {
        var fetched := fetch(item.recipientId, item.messageId);
        if fetched.Found? {
          results := results[IntToString(item.messageId) := Extract(fetched.message)];
        }
      }
      i := i + 1;
    }
  }

  // ------------------------------------------------------------- delete

  /** Deletions for one peer, in input order. */
  datatype PeerGroup = PeerGroup(peer: string, messageIds: seq<int>)

  datatype PeerOutcome = PeerDeleted | PeerFailed(error: string)

  datatype DeleteResults = DeleteResults(success: nat, failed: nat, errors: seq<string>)

  predicate ValidItem(item: BatchItem) {
    item.recipientId != [] && item.messageId != 0
  }

  /** The message ids of the valid entries for `peer`, in input order. */
  function IdsFor(items: seq<BatchItem>, peer: string): seq<int> {
    if items == [] then []
    else
      var last := items[|items| - 1];
      IdsFor(items[..|items| - 1], peer) + (if ValidItem(last) && last.recipientId == peer then [last.messageId] else [])
  }

  /** The number of entries lacking an id. */
  function InvalidCount(items: seq<BatchItem>): (c: nat)
    ensures c <= |items|
  {
    if items == [] then 0
    else InvalidCount(items[..|items| - 1]) + (if ValidItem(items[|items| - 1]) then 0 else 1)
  }

  /** The peers with at least one valid entry, in order of first
      appearance (the order the grouping dict is iterated in). */
  function PeersUpTo(items: seq<BatchItem>, n: nat): seq<string>
    requires n <= |items|
  {
    if n == 0 then []
    else
      var before := PeersUpTo(items, n - 1);
      var item := items[n - 1];
      if ValidItem(item) && item.recipientId !in before then before + [item.recipientId] else before
  }

  lemma {:induction false} PeersDistinct(items: seq<BatchItem>, n: nat)
    requires n <= |items|
    ensures Distinct(PeersUpTo(items, n))
  {
    if n > 0 {
      PeersDistinct(items, n - 1);
      var before := PeersUpTo(items, n - 1);
      var item := items[n - 1];
      if ValidItem(item) && item.recipientId !in before {
        var peers := before + [item.recipientId];
        forall a, b | 0 <= a < b < |peers| ensures peers[a] != peers[b] {
          if b < |before| {
            assert peers[a] == before[a] && peers[b] == before[b];
          } else {
            assert peers[a] in before;
          }
        }
      }
    }
  }

  /** A peer is listed exactly when some valid entry names it. */
  lemma {:induction false} PeersUpToMembers(items: seq<BatchItem>, n: nat, p: string)
    requires n <= |items|
    ensures p in PeersUpTo(items, n) <==> exists i :: 0 <= i < n && ValidItem(items[i]) && items[i].recipientId == p
  {
    if n > 0 {
      PeersUpToMembers(items, n - 1, p);
    }
  }

  predicate Distinct(peers: seq<string>) {
    forall a, b :: 0 <= a < b < |peers| ==> peers[a] != peers[b]
  }

  /** Total number of ids grouped under `peers`. */
  function GroupedCount(items: seq<BatchItem>, peers: seq<string>): nat {
    if peers == [] then 0 else GroupedCount(items, peers[..|peers| - 1]) + |IdsFor(items, peers[|peers| - 1])|
  }

  lemma {:induction false} GroupedCountStep(items: seq<BatchItem>, item: BatchItem, peers: seq<string>)
    requires Distinct(peers)
    ensures GroupedCount(items + [item], peers)
      == GroupedCount(items, peers) + (if ValidItem(item) && item.recipientId in peers then 1 else 0)
  {
    var items' := items + [item];
    assert items'[..|items'| - 1] == items;
    if peers != [] {
      var init := peers[..|peers| - 1];
      GroupedCountStep(items, item, init);
      assert peers == init + [peers[|peers| - 1]];
      assert item.recipientId in peers <==> item.recipientId in init || item.recipientId == peers[|peers| - 1];
    }
  }

  /** Every valid entry is grouped under exactly one peer, so the groups
      hold all entries but the invalid ones. */
  lemma {:induction false} GroupedCountTotal(items: seq<BatchItem>, peers: seq<string>)
    requires Distinct(peers)
    requires forall item :: item in items && ValidItem(item) ==> item.recipientId in peers
    ensures GroupedCount(items, peers) + InvalidCount(items) == |items|
  {
    if items == [] {
      GroupedCountEmpty(peers);
    } else {
      var init := items[..|items| - 1];
      var last := items[|items| - 1];
      assert items == init + [last];
      GroupedCountTotal(init, peers);
      GroupedCountStep(init, last, peers);
    }
  }

  lemma {:induction false} GroupedCountEmpty(peers: seq<string>)
    ensures GroupedCount([], peers) == 0
  {
    if peers != [] {
      GroupedCountEmpty(peers[..|peers| - 1]);
    }
  }

  datatype DeleteResponse = NoMessages | DeleteDone(results: DeleteResults)

  /** The counters after deleting the groups of the first `n` peers: each
      group adds its size to `success`, or to `failed` with one error. */
  function DeleteGroupsUpTo(items: seq<BatchItem>, peers: seq<string>, outcome: string -> PeerOutcome, n: nat): DeleteResults
    requires n <= |peers|
  {
    if n == 0 then DeleteResults(0, InvalidCount(items), [])
    else
      var r := DeleteGroupsUpTo(items, peers, outcome, n - 1);
      var p := peers[n - 1];
      var size := |IdsFor(items, p)|;
      match outcome(p)
      case PeerDeleted => r.(success := r.success + size)
      case PeerFailed(e) => r.(failed := r.failed + size, errors := r.errors + [p + ": " + e])
  }

  lemma {:induction false} DeleteGroupsTotals(items: seq<BatchItem>, peers: seq<string>, outcome: string -> PeerOutcome, n: nat)
    requires n <= |peers|
    ensures var r := DeleteGroupsUpTo(items, peers, outcome, n);
      r.success + r.failed == GroupedCount(items, peers[..n]) + InvalidCount(items) && |r.errors| <= n
  {
    if n > 0 {
      DeleteGroupsTotals(items, peers, outcome, n - 1);
      assert peers[..n][..n - 1] == peers[..n - 1];
    }
  }

  /** Every entry is accounted for: `success + failed == len(messages)`. */
  lemma DeleteAccountsForAll(items: seq<BatchItem>, outcome: string -> PeerOutcome)
    ensures var peers := PeersUpTo(items, |items|);
      var r := DeleteGroupsUpTo(items, peers, outcome, |peers|);
      r.success + r.failed == |items| && |r.errors| <= |peers|
  {
    var peers := PeersUpTo(items, |items|);
    forall item | item in items && ValidItem(item) ensures item.recipientId in peers {
      var i :| 0 <= i < |items| && items[i] == item;
      PeersUpToMembers(items, |items|, item.recipientId);
    }
    PeersDistinct(items, |items|);
    GroupedCountTotal(items, peers);
    DeleteGroupsTotals(items, peers, outcome, |peers|);
    assert peers[..|peers|] == peers;
  }

  /** The first loop of `delete_messages`: counts the entries lacking an
      id and groups the others per peer. */
  method GroupByPeer(items: seq<BatchItem>) returns (failed: nat, order: seq<string>, byPeer: map<string, seq<int>>)
    ensures failed == InvalidCount(items)
    ensures order == PeersUpTo(items, |items|)
    ensures forall p :: p in byPeer <==> p in order
    ensures forall p :: p in byPeer ==> byPeer[p] == IdsFor(items, p)
  {
    failed := 0;
    order := [];
    byPeer := map[];
    var i := 0;
    while i < |items|
      invariant 0 <= i <= |items|
      invariant failed == InvalidCount(items[..i])
      invariant order == PeersUpTo(items, i)
      invariant byPeer == GroupsUpTo(items, i)
    {
      var item := items[i];
      assert items[..i + 1][..i] == items[..i];
      GroupsUpToKeys(items, i, item.recipientId);
      if !ValidItem(item) {
        failed := failed + 1;
      } else {
        if item.recipientId !in byPeer {
          order := order + [item.recipientId];
          byPeer := byPeer[item.recipientId := []];
        }
        byPeer := byPeer[item.recipientId := byPeer[item.recipientId] + [item.messageId]];
      }
      i := i + 1;
    }
    assert items[..i] == items;
    GroupsShape(items);
  }

  /** The grouping dict after the first `n` entries. */
  function GroupsUpTo(items: seq<BatchItem>, n: nat): map<string, seq<int>>
    requires n <= |items|
  {
    if n == 0 then map[]
    else
      var before := GroupsUpTo(items, n - 1);
      var item := items[n - 1];
      if !ValidItem(item) then before
      else before[item.recipientId := (if item.recipientId in before then before[item.recipientId] else []) + [item.messageId]]
  }

  lemma {:induction false} GroupsUpToKeys(items: seq<BatchItem>, n: nat, p: string)
    requires n <= |items|
    ensures p in GroupsUpTo(items, n) <==> p in PeersUpTo(items, n)
  {
    if n > 0 {
      GroupsUpToKeys(items, n - 1, p);
    }
  }

  /** After the whole loop: an entry per peer of the order, holding its
      ids. */
  lemma GroupsShape(items: seq<BatchItem>)
    ensures forall p :: p in GroupsUpTo(items, |items|) <==> p in PeersUpTo(items, |items|)
    ensures forall p :: p in GroupsUpTo(items, |items|) ==> GroupsUpTo(items, |items|)[p] == IdsFor(items, p)
  {
    assert items[..|items|] == items;
    forall p ensures p in GroupsUpTo(items, |items|) <==> p in PeersUpTo(items, |items|) {
      GroupsUpToShape(items, |items|, p);
    }
    forall p | p in GroupsUpTo(items, |items|) ensures GroupsUpTo(items, |items|)[p] == IdsFor(items, p) {
      GroupsUpToShape(items, |items|, p);
    }
  }

  /** The grouping dict has an entry per peer seen, holding that peer's
      ids in order. */
  lemma {:induction false} GroupsUpToShape(items: seq<BatchItem>, n: nat, p: string)
    requires n <= |items|
    ensures p in GroupsUpTo(items, n) <==> p in PeersUpTo(items, n)
    ensures p in GroupsUpTo(items, n) ==> GroupsUpTo(items, n)[p] == IdsFor(items[..n], p)
    ensures p !in GroupsUpTo(items, n) ==> IdsFor(items[..n], p) == []
  {
    if n > 0 {
      GroupsUpToShape(items, n - 1, p);
      assert items[..n][..n - 1] == items[..n - 1];
    }
  }

  /** `delete_messages`: 400 on an empty list; otherwise the entries are
      grouped per peer (one dict entry per peer, ids in input order) and
      each group is deleted with one call. */
  method DeleteMessages(items: seq<BatchItem>, outcome: string -> PeerOutcome) returns (resp: DeleteResponse)
    ensures items == [] <==> resp == NoMessages
    ensures resp.DeleteDone? ==>
      var peers := PeersUpTo(items, |items|);
      resp.results == DeleteGroupsUpTo(items, peers, outcome, |peers|)
    ensures resp.DeleteDone? ==> resp.results.success + resp.results.failed == |items|
  {
    if items == [] {
      return NoMessages;
    }
    var failed, order, byPeer := GroupByPeer(items);
    var results := DeleteGroups(items, order, byPeer, failed, outcome);
    DeleteAccountsForAll(items, outcome);
    return DeleteDone(results);
  }

  /** The second loop of `delete_messages`: one call per group, in the
      order the peers first appeared. */
  method DeleteGroups(items: seq<BatchItem>, order: seq<string>, byPeer: map<string, seq<int>>, failed: nat,
                      outcome: string -> PeerOutcome) returns (results: DeleteResults)
    requires failed == InvalidCount(items)
    requires forall p :: p in order ==> p in byPeer && byPeer[p] == IdsFor(items, p)
    ensures results == DeleteGroupsUpTo(items, order, outcome, |order|)
  {
    results := DeleteResults(0, failed, []);
    var j := 0;
    while j < |order|
      invariant 0 <= j <= |order|
      invariant results == DeleteGroupsUpTo(items, order, outcome, j)
    {
      var peer := order[j];
      var ids := byPeer[peer];
      var deleted := outcome(peer);
      if deleted.PeerDeleted? {
        results := results.(success := results.success + |ids|);
      } else {
        results := results.(failed := results.failed + |ids|, errors := results.errors + [peer + ": " + deleted.error]);
      }
      j := j + 1;
    }
  }

  /** A peer with no valid entry so far has no ids. */
  lemma {:induction false} IdsForAbsent(items: seq<BatchItem>, n: nat, peer: string)
    requires n <= |items|
    requires peer !in PeersUpTo(items, n)
    ensures IdsFor(items[..n], peer) == []
  {
    forall item | item in items[..n] && ValidItem(item) ensures item.recipientId != peer {
      var i :| 0 <= i < n && items[i] == item;
      PeersUpToMembers(items, n, peer);
    }
    IdsForEmpty(items[..n], peer);
  }

  lemma {:induction false} IdsForEmpty(items: seq<BatchItem>, peer: string)
    requires forall item :: item in items && ValidItem(item) ==> item.recipientId != peer
    ensures IdsFor(items, peer) == []
  {
    if items != [] {
      IdsForEmpty(items[..|items| - 1], peer);
    }
  }
}
