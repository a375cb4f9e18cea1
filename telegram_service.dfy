/** The broadcast engine of the Node backend: it resolves the Bot API
    token, turns a task's content into one Bot API request per message and
    recipient, walks the recipients in order counting deliveries and
    failures, undoes deliveries one message at a time, and folds engagement
    metrics back into a task's receipts.

    The Bot API, the Python analytics service and the file system are
    inputs: `outcome(i, j)` is what the API answers to message `j` sent to
    recipient `i`, a `FileSystem` maps each existing upload path to its
    size, and waits are recorded rather than slept. */
module TelegramService {
  import opened Wrappers
  import opened Text
  import opened Schema
  import TaskStore

  // ------------------------------------------------------------ bot token

  /** Where a bot token can come from: the users' `telegramConfig`, their
      `bot_token` settings, and the `BOT_TOKEN` environment variable ("" when
      unset). */
  datatype TokenSources = TokenSources(
    userConfigs: map<UserId, TelegramConfig>,
    botTokenSettings: map<UserId, string>,
    envToken: string)

  predicate HasUserToken(userId: Option<UserId>, src: TokenSources) {
    userId.Some? && userId.value in src.userConfigs
    && !IsBlank(src.userConfigs[userId.value].botToken)
  }

  predicate HasSettingToken(userId: Option<UserId>, src: TokenSources) {
    userId.Some? && userId.value in src.botTokenSettings
    && !IsBlank(src.botTokenSettings[userId.value])
  }

  /** The token used for a user's sends: the user's own configured token,
      else the user's `bot_token` setting (both trimmed), else the
      environment's token as it is. */
  function ResolveBotToken(userId: Option<UserId>, src: TokenSources): (token: string)
    ensures HasUserToken(userId, src) ==> token == Trim(src.userConfigs[userId.value].botToken)
    ensures !HasUserToken(userId, src) && HasSettingToken(userId, src)
      ==> token == Trim(src.botTokenSettings[userId.value])
    ensures !HasUserToken(userId, src) && !HasSettingToken(userId, src) ==> token == src.envToken
    ensures token == [] <==>
      !HasUserToken(userId, src) && !HasSettingToken(userId, src) && src.envToken == []
  {
    if HasUserToken(userId, src) then Trim(src.userConfigs[userId.value].botToken)
    else if HasSettingToken(userId, src) then Trim(src.botTokenSettings[userId.value])
    else src.envToken
  }

  const MissingSendToken := "BOT_TOKEN is missing. Bot API sending requires a token."
  const MissingDeleteToken := "BOT_TOKEN is missing. Bot API deletion requires a token."

  // ------------------------------------------------------------- arguments

  /** How `sendBroadcast` was called: with a user id first, or in the legacy
      form whose first argument is the recipient array. */
  datatype BroadcastCall =
    | WithUser(userId: Option<UserId>, recipients: seq<string>, taskType: string,
               content: Content, scheduling: Option<Scheduling>)
    | Legacy(recipients: seq<string>, taskType: string, content: Content,
             scheduling: Option<Scheduling>)

  /** The legacy form shifts its arguments and sends without a user. */
  function CallUser(call: BroadcastCall): (userId: Option<UserId>)
    ensures call.Legacy? ==> userId == None
    ensures call.WithUser? ==> userId == call.userId
  {
    match call
    case WithUser(u, _, _, _, _) => u
    case Legacy(_, _, _, _) => None
  }

  // -------------------------------------------------------------- messages

  /** The single message built from a task's top-level content fields. */
  function LegacyMessage(taskType: string, content: Content): (m: MessageDoc)
    ensures m.msgType == taskType && m.text == content.text && m.mediaUrl == content.mediaUrl
    ensures m.mediaUrls == [] && m.pollOptions == content.pollOptions
    ensures m.correctOption == content.correctOption
    ensures m.pollQuestion == content.pollQuestion && m.pollExplanation == content.pollExplanation
    ensures m.id == ""
  {
    MessageDoc("", taskType, content.text, content.mediaUrl, [], content.pollQuestion,
      content.pollOptions, content.correctOption, content.pollExplanation)
  }

  /** `content.messages` when it is a non-empty array, otherwise exactly one
      message built from the legacy fields. */
  function MessagesToSend(taskType: string, content: Content): (msgs: seq<MessageDoc>)
    ensures |msgs| >= 1
    ensures content.messages != [] ==> msgs == content.messages
    ensures content.messages == [] ==> msgs == [LegacyMessage(taskType, content)]
  {
    if content.messages != [] then content.messages else [LegacyMessage(taskType, content)]
  }

  datatype Kind = TextKind | PollKind | OtherKind(name: string)

  /** `msg.type || type || 'message'`, with `multi_message` read as a plain
      message. */
  function EffectiveKind(msgType: string, taskType: string): (k: Kind)
    ensures var raw := if msgType != "" then msgType else if taskType != "" then taskType else "message";
      (k == TextKind <==> raw == "message" || raw == "multi_message") &&
      (k == PollKind <==> raw == "poll")
  {
    var raw := if msgType != "" then msgType else if taskType != "" then taskType else "message";
    if raw == "message" || raw == "multi_message" then TextKind
    else if raw == "poll" then PollKind
    else OtherKind(raw)
  }

  /** A multi-message task's messages are sent as plain messages. */
  lemma MultiMessageIsText(taskType: string)
    ensures EffectiveKind("multi_message", taskType) == TextKind
    ensures EffectiveKind("", "multi_message") == TextKind
  {
  }

  // ----------------------------------------------------------------- delay

  const DefaultDelayMs := 2000
  const MessageGapMs := 500

  /** The wait between two recipients, in milliseconds. */
  function RecipientDelay(scheduling: Option<Scheduling>): (ms: int)
    ensures scheduling.Some? && scheduling.value.mode == "delay" && scheduling.value.delayMinutes != 0
      ==> ms == scheduling.value.delayMinutes * 60000
    ensures !(scheduling.Some? && scheduling.value.mode == "delay" && scheduling.value.delayMinutes != 0)
      ==> ms == DefaultDelayMs
  {
    if scheduling.Some? && scheduling.value.mode == "delay" && scheduling.value.delayMinutes != 0
    then scheduling.value.delayMinutes * 60000
    else DefaultDelayMs
  }

  // ----------------------------------------------------------------- media

  /** Existing upload files, by path relative to the backend root, with
      their size in bytes. */
  type FileSystem = map<string, nat>

  /** An upload URL (`/uploads/...`) without its leading slash. */
  function RelativePath(url: string): (p: string)
    ensures StartsWith(url, "/") ==> "/" + p == url
    ensures !StartsWith(url, "/") ==> p == url
  {
    if StartsWith(url, "/") then url[1..] else url
  }

  /** The last path segment. */
  function BaseName(path: string): (b: string)
    ensures '/' !in b && EndsWith(path, b)
  {
    if '/' in path then
      var i := IndexOf(path, '/');
      var b := BaseName(path[i + 1..]);
      assert path[|path| - |b|..] == path[i + 1..][|path[i + 1..]| - |b|..];
      b
    else path
  }

  /** The index of the last '.' in `s`, if any. */
  function LastDot(s: string): (r: Option<nat>)
    ensures r.None? ==> '.' !in s
    ensures r.Some? ==> r.value < |s| && s[r.value] == '.' && '.' !in s[r.value + 1..]
  {
    if s == [] then None
    else if s[|s| - 1] == '.' then Some(|s| - 1)
    else
      var r := LastDot(s[..|s| - 1]);
      assert r.Some? ==> s[r.value + 1..] == s[..|s| - 1][r.value + 1..] + [s[|s| - 1]];
      r
  }

  /** `path.extname(p).toLowerCase()`: from the last '.' of the last
      segment, or "" when that segment has no '.' after its first
      character. */
  function Extension(p: string): string {
    var base := BaseName(p);
    match LastDot(base)
    case None => []
    case Some(i) => if i == 0 then [] else Lower(base[i..])
  }

  datatype MediaKind = Photo | Video | Document

  const MaxPhotoSize := 10 * 1024 * 1024

  /** A single attachment: images up to 10 MiB go as photos (larger ones as
      documents), videos as videos, everything else as a document. */
  function SingleMediaKind(ext: string, size: nat): (k: MediaKind)
    ensures k == Photo <==> ext in {".jpg", ".jpeg", ".png", ".gif", ".webp"} && size <= MaxPhotoSize
    ensures k == Video <==> ext in {".mp4", ".mov", ".avi"}
  {
    if ext in {".jpg", ".jpeg", ".png", ".gif", ".webp"} then
      (if size > MaxPhotoSize then Document else Photo)
    else if ext in {".mp4", ".mov", ".avi"} then Video
    else Document
  }

  /** An album item: a shorter extension list, and no size limit. */
  function AlbumMediaKind(ext: string): (k: MediaKind)
    ensures k == Photo <==> ext in {".jpg", ".jpeg", ".png", ".gif"}
    ensures k == Video <==> ext in {".mp4", ".mov"}
  {
    if ext in {".jpg", ".jpeg", ".png", ".gif"} then Photo
    else if ext in {".mp4", ".mov"} then Video
    else Document
  }

  /** The two classifications agree except on `.webp`, `.avi` and images
      over 10 MiB. */
  lemma AlbumAgreesWithSingle(ext: string, size: nat)
    requires ext != ".webp" && ext != ".avi"
    requires size <= MaxPhotoSize
    ensures AlbumMediaKind(ext) == SingleMediaKind(ext, size)
  {
  }

  /** `send` followed by the capitalised kind. */
  function MediaMethod(k: MediaKind): string {
    match k
    case Photo => "sendPhoto"
    case Video => "sendVideo"
    case Document => "sendDocument"
  }

  // -------------------------------------------------------------- requests

  /** One album entry, sent as form field `file<position>`; `caption` is ""
      when the entry carries none. */
  datatype AlbumItem = AlbumItem(kind: MediaKind, path: string, position: nat, caption: string)

  /** One Bot API call. `Unroutable` is a message whose type is neither a
      plain message nor a poll: no endpoint is chosen for it. */
  datatype Request =
    | SendText(chatId: string, text: string)
    | SendFile(chatId: string, kind: MediaKind, path: string, caption: string)
    | SendAlbum(chatId: string, items: seq<AlbumItem>)
    | SendQuiz(chatId: string, question: string, options: Option<seq<string>>,
               correctOptionId: Option<int>, explanation: string)
    | Unroutable(chatId: string)
  {
    function Method(): string {
      match this
      case SendText(_, _) => "sendMessage"
      case SendFile(_, k, _, _) => MediaMethod(k)
      case SendAlbum(_, _) => "sendMediaGroup"
      case SendQuiz(_, _, _, _, _) => "sendPoll"
      case Unroutable(_) => ""
    }
  }

  const AlbumMissingSuffix := "\n\n(Error: Album files not found)"
  const MediaMissingSuffix := "\n\n(Error: Media file not found)"

  /** The album entries for the first `n` URLs: missing files are skipped,
      and only the entry for URL 0 may carry the caption. */
  function AlbumItemsUpTo(urls: seq<string>, n: nat, text: string, fs: FileSystem): (items: seq<AlbumItem>)
    requires n <= |urls|
    ensures |items| <= n
  {
    if n == 0 then []
    else
      var prev := AlbumItemsUpTo(urls, n - 1, text, fs);
      if RelativePath(urls[n - 1]) in fs then prev + [AlbumEntry(urls, n - 1, text)]
      else prev
  }

  /** The entry an existing file at URL `q` becomes: its path, the album
      kind of its extension, and the caption only at position 0. */
  function AlbumEntry(urls: seq<string>, q: nat, text: string): (e: AlbumItem)
    requires q < |urls|
    ensures e.position == q && (q > 0 ==> e.caption == "")
  {
    var path := RelativePath(urls[q]);
    AlbumItem(AlbumMediaKind(Extension(path)), path, q, if q == 0 then text else "")
  }

  /** Each album entry is the entry of an existing file, in URL order. */
  lemma AlbumItemsShape(urls: seq<string>, n: nat, text: string, fs: FileSystem)
    requires n <= |urls|
    ensures forall k :: 0 <= k < |AlbumItemsUpTo(urls, n, text, fs)| ==>
      var item := AlbumItemsUpTo(urls, n, text, fs)[k];
      item.position < n && item == AlbumEntry(urls, item.position, text) && item.path in fs
    ensures forall k, l :: 0 <= k < l < |AlbumItemsUpTo(urls, n, text, fs)| ==>
      AlbumItemsUpTo(urls, n, text, fs)[k].position < AlbumItemsUpTo(urls, n, text, fs)[l].position
  {
    AlbumItemsValid(urls, n, text, fs);
    AlbumItemsOrdered(urls, n, text, fs);
  }

  lemma {:induction false} AlbumItemsValid(urls: seq<string>, n: nat, text: string, fs: FileSystem)
    requires n <= |urls|
    ensures forall k :: 0 <= k < |AlbumItemsUpTo(urls, n, text, fs)| ==>
      AlbumItemsUpTo(urls, n, text, fs)[k].position < n && AlbumItemsUpTo(urls, n, text, fs)[k] == AlbumEntry(urls, AlbumItemsUpTo(urls, n, text, fs)[k].position, text) && AlbumItemsUpTo(urls, n, text, fs)[k].path in fs
  {
    if n > 0 {
      AlbumItemsValid(urls, n - 1, text, fs);
      AlbumStep(urls, n - 1, text, fs);
    }
  }

  lemma {:induction false} AlbumItemsOrdered(urls: seq<string>, n: nat, text: string, fs: FileSystem)
    requires n <= |urls|
    ensures forall k, l :: 0 <= k < l < |AlbumItemsUpTo(urls, n, text, fs)| ==> AlbumItemsUpTo(urls, n, text, fs)[k].position < AlbumItemsUpTo(urls, n, text, fs)[l].position
  {
    if n > 0 {
      AlbumItemsOrdered(urls, n - 1, text, fs);
      AlbumItemsValid(urls, n - 1, text, fs);
      AlbumStep(urls, n - 1, text, fs);
    }
  }

  /** The album is empty exactly when none of its files exists. */
  lemma {:induction false} AlbumItemsEmpty(urls: seq<string>, n: nat, text: string, fs: FileSystem)
    requires n <= |urls|
    ensures AlbumItemsUpTo(urls, n, text, fs) == [] <==> forall q :: 0 <= q < n ==> RelativePath(urls[q]) !in fs
  {
    if n > 0 {
      AlbumItemsEmpty(urls, n - 1, text, fs);
    }
  }

  lemma AlbumStep(urls: seq<string>, m: nat, text: string, fs: FileSystem)
    requires m < |urls|
    ensures AlbumItemsUpTo(urls, m + 1, text, fs)
         == AlbumItemsUpTo(urls, m, text, fs)
            + (if RelativePath(urls[m]) in fs then [AlbumEntry(urls, m, text)] else [])
  {
  }

  /** The album loop: it collects the entries of the files that exist. */
  method BuildAlbum(urls: seq<string>, text: string, fs: FileSystem) returns (items: seq<AlbumItem>)
    ensures items == AlbumItemsUpTo(urls, |urls|, text, fs)
  {
    items := [];
    var m := 0;
    while m < |urls|
      invariant 0 <= m <= |urls|
      invariant items == AlbumItemsUpTo(urls, m, text, fs)
    {
      AlbumStep(urls, m, text, fs);
      if RelativePath(urls[m]) in fs {
        items := items + [AlbumEntry(urls, m, text)];
      }
      m := m + 1;
    }
  }

  /** The request for one message to one chat. */
  function RequestFor(chatId: string, msg: MessageDoc, taskType: string, content: Content, fs: FileSystem): (req: Request)
    ensures req.chatId == chatId
    ensures req.SendAlbum? ==> |msg.mediaUrls| > 1 && req.items != []
    ensures req.SendFile? ==> req.path in fs && req.caption == msg.text
    ensures req.SendQuiz? <==> EffectiveKind(msg.msgType, taskType) == PollKind
    ensures req.Unroutable? <==> EffectiveKind(msg.msgType, taskType).OtherKind?
  {
    match EffectiveKind(msg.msgType, taskType)
    case TextKind =>
      if |msg.mediaUrls| > 1 then
        var items := AlbumItemsUpTo(msg.mediaUrls, |msg.mediaUrls|, msg.text, fs);
        if items != [] then SendAlbum(chatId, items)
        else SendText(chatId, msg.text + AlbumMissingSuffix)
      else if msg.mediaUrl != "" || |msg.mediaUrls| == 1 then
        var path := RelativePath(if msg.mediaUrl != "" then msg.mediaUrl else msg.mediaUrls[0]);
        if path in fs then SendFile(chatId, SingleMediaKind(Extension(path), fs[path]), path, msg.text)
        else SendText(chatId, msg.text + MediaMissingSuffix)
      else SendText(chatId, msg.text)
    case PollKind =>
      SendQuiz(chatId,
        if msg.pollQuestion != "" then msg.pollQuestion else content.pollQuestion,
        if msg.pollOptions.Some? then msg.pollOptions else content.pollOptions,
        if msg.correctOption.Some? then msg.correctOption else content.correctOption,
        if msg.pollExplanation != "" then msg.pollExplanation else content.pollExplanation)
    case OtherKind(_) => Unroutable(chatId)
  }

  /** A plain message falls back to `sendMessage` with an error suffix
      exactly when the attachment it names does not exist. */
  lemma MissingMediaFallsBack(chatId: string, msg: MessageDoc, taskType: string, content: Content, fs: FileSystem)
    requires EffectiveKind(msg.msgType, taskType) == TextKind
    requires |msg.mediaUrls| <= 1 && (msg.mediaUrl != "" || |msg.mediaUrls| == 1)
    ensures var req := RequestFor(chatId, msg, taskType, content, fs);
      var url := if msg.mediaUrl != "" then msg.mediaUrl else msg.mediaUrls[0];
      (req.SendText? <==> RelativePath(url) !in fs) &&
      (req.SendText? ==> req.text == msg.text + MediaMissingSuffix)
  {
  }

  /** The request builder with its album loop. */
  method PlanRequest(chatId: string, msg: MessageDoc, taskType: string, content: Content, fs: FileSystem)
    returns (req: Request)
    ensures req == RequestFor(chatId, msg, taskType, content, fs)
  {
    var kind := EffectiveKind(msg.msgType, taskType);
    if kind == TextKind {
      if |msg.mediaUrls| > 1 {
        var items := BuildAlbum(msg.mediaUrls, msg.text, fs);
        if items != [] {
          req := SendAlbum(chatId, items);
        } else {
          req := SendText(chatId, msg.text + AlbumMissingSuffix);
        }
      } else if msg.mediaUrl != "" || |msg.mediaUrls| == 1 {
        var raw := if msg.mediaUrl != "" then msg.mediaUrl else msg.mediaUrls[0];
        var path := RelativePath(raw);
        if path in fs {
          req := SendFile(chatId, SingleMediaKind(Extension(path), fs[path]), path, msg.text);
        } else {
          req := SendText(chatId, msg.text + MediaMissingSuffix);
        }
      } else {
        req := SendText(chatId, msg.text);
      }
    } else if kind == PollKind {
      req := SendQuiz(chatId,
        if msg.pollQuestion != "" then msg.pollQuestion else content.pollQuestion,
        if msg.pollOptions.Some? then msg.pollOptions else content.pollOptions,
        if msg.correctOption.Some? then msg.correctOption else content.correctOption,
        if msg.pollExplanation != "" then msg.pollExplanation else content.pollExplanation);
    } else {
      req := Unroutable(chatId);
    }
  }

  // ------------------------------------------------------------- broadcast

  /** The `result` of a successful Bot API answer: one message, or the list
      of messages of an album. */
  datatype ApiResult = One(messageId: int) | Many(messageIds: seq<int>)

  /** What the Bot API answers to one request: success, a refusal with its
      description, or a thrown error (network, parse, unroutable). */
  datatype SendOutcome = Sent(result: ApiResult) | Refused(description: string) | Thrown(message: string)

  const EmptyAlbumResult := "Cannot read properties of undefined (reading 'message_id')"

  /** What `fetch` throws when no endpoint was chosen. */
  const NoEndpoint := "Failed to parse URL from undefined"

  /** The message id recorded for a send, or the error that aborts the
      recipient; an album is recorded by its first message. A request
      without an endpoint never reaches the API: `fetch` throws. */
  function Attempt(req: Request, o: SendOutcome): (r: Result<int, string>)
    ensures req.Unroutable? ==> r == Err(NoEndpoint)
    ensures !req.Unroutable? && o.Sent? && o.result.One? ==> r == Ok(o.result.messageId)
    ensures !req.Unroutable? && o.Sent? && o.result.Many? && o.result.messageIds != [] ==> r == Ok(o.result.messageIds[0])
    ensures !req.Unroutable? && !o.Sent? ==> r == Err(if o.Refused? then o.description else o.message)
    ensures r.Ok? ==> o.Sent? && !req.Unroutable?
  {
    if req.Unroutable? then Err(NoEndpoint)
    else match o
      case Sent(One(id)) => Ok(id)
      case Sent(Many(ids)) => if ids == [] then Err(EmptyAlbumResult) else Ok(ids[0])
      case Refused(d) => Err(d)
      case Thrown(m) => Err(m)
  }

  /** A receipt as returned by `sendBroadcast`. */
  datatype SentMessage = SentMessage(recipientId: string, messageId: int)

  /** A recorded pause: between two messages of one recipient, or between
      two recipients. */
  datatype Wait = MessageGap | RecipientGap(ms: int)

  /** Everything a broadcast needs besides the recipients. */
  datatype Plan = Plan(msgs: seq<MessageDoc>, taskType: string, content: Content, fs: FileSystem, delayMs: int)

  /** The running totals of one broadcast, with the request and wait log. */
  datatype Broadcast = Broadcast(
    success: nat,
    failed: nat,
    errors: seq<string>,
    sentMessages: seq<SentMessage>,
    requests: seq<Request>,
    waits: seq<Wait>)

  const NoBroadcast := Broadcast(0, 0, [], [], [], [])

  /** One recipient's run over its messages. */
  datatype RecipientRun = RecipientRun(sent: seq<SentMessage>, requests: seq<Request>, waits: seq<Wait>, error: Option<string>)

  const NoRun := RecipientRun([], [], [], None)

  /** Recipient `i`'s run over the first `n` messages: the first error stops
      it. */
  function RunUpTo(plan: Plan, rid: string, i: nat, outcome: (nat, nat) -> SendOutcome, n: nat): (run: RecipientRun)
    requires n <= |plan.msgs|
  {
    if n == 0 then NoRun
    else
      var prev := RunUpTo(plan, rid, i, outcome, n - 1);
      if prev.error.Some? then prev
      else
        var req := RequestFor(rid, plan.msgs[n - 1], plan.taskType, plan.content, plan.fs);
        match Attempt(req, outcome(i, n - 1))
        case Ok(id) =>
          RecipientRun(prev.sent + [SentMessage(rid, id)], prev.requests + [req],
            prev.waits + (if |plan.msgs| > 1 then [MessageGap] else []), None)
        case Err(m) =>
          RecipientRun(prev.sent, prev.requests + [req], prev.waits, Some(m))
  }

  function FailureText(rid: string, message: string): string {
    "Failed to send to " + rid + ": " + message
  }

  /** The totals after adding one recipient's run. */
  function Absorb(b: Broadcast, rid: string, run: RecipientRun): Broadcast {
    Broadcast(
      b.success + |run.sent|,
      b.failed + (if run.error.Some? then 1 else 0),
      b.errors + (if run.error.Some? then [FailureText(rid, run.error.value)] else []),
      b.sentMessages + run.sent,
      b.requests + run.requests,
      b.waits + run.waits)
  }

  /** Every recipient's run over all the messages, in recipient order. */
  function Runs(plan: Plan, recipients: seq<string>, outcome: (nat, nat) -> SendOutcome): (runs: seq<RecipientRun>)
    ensures |runs| == |recipients|
    ensures forall j :: 0 <= j < |recipients| ==> runs[j] == RunUpTo(plan, recipients[j], j, outcome, |plan.msgs|)
  {
    seq(|recipients|, j requires 0 <= j < |recipients| => RunUpTo(plan, recipients[j], j, outcome, |plan.msgs|))
  }

  /** The totals after the first `k` runs, with the recipient wait after
      every recipient but the last. */
  function Accumulate(recipients: seq<string>, runs: seq<RecipientRun>, delayMs: int, k: nat): Broadcast
    requires k <= |recipients| == |runs|
  {
    if k == 0 then NoBroadcast
    else
      var b := Absorb(Accumulate(recipients, runs, delayMs, k - 1), recipients[k - 1], runs[k - 1]);
      if k - 1 < |recipients| - 1 then b.(waits := b.waits + [RecipientGap(delayMs)]) else b
  }

  /** The broadcast over the first `k` recipients. */
  function BroadcastUpTo(plan: Plan, recipients: seq<string>, outcome: (nat, nat) -> SendOutcome, k: nat): Broadcast
    requires k <= |recipients|
  {
    Accumulate(recipients, Runs(plan, recipients, outcome), plan.delayMs, k)
  }

  function PlanOf(call: BroadcastCall, fs: FileSystem): Plan {
    Plan(MessagesToSend(call.taskType, call.content), call.taskType, call.content, fs,
      RecipientDelay(call.scheduling))
  }

  /** `sendBroadcast`: fails before any request when no token resolves;
      otherwise sends every message to every recipient in order. */
  method SendBroadcast(call: BroadcastCall, tokens: TokenSources, fs: FileSystem, outcome: (nat, nat) -> SendOutcome)
    returns (r: Result<Broadcast, string>)
    ensures (ResolveBotToken(CallUser(call), tokens) == [] <==> r.Err?) && (r.Err? ==> r.error == MissingSendToken)
    ensures r.Ok? ==> r.value == BroadcastUpTo(PlanOf(call, fs), call.recipients, outcome, |call.recipients|)
  {
    var token := ResolveBotToken(CallUser(call), tokens);
    if token == [] {
      return Err(MissingSendToken);
    }
    var plan := PlanOf(call, fs);
    var results := SendAll(plan, call.recipients, outcome);
    return Ok(results);
  }

  /** The loop over the recipients, with the recipient wait after all but
      the last. */
  method SendAll(plan: Plan, recipients: seq<string>, outcome: (nat, nat) -> SendOutcome) returns (results: Broadcast)
    ensures results == BroadcastUpTo(plan, recipients, outcome, |recipients|)
  {
    results := NoBroadcast;
    var i := 0;
    while i < |recipients|
      invariant 0 <= i <= |recipients|
      invariant results == BroadcastUpTo(plan, recipients, outcome, i)
    {
      BroadcastStep(plan, recipients, outcome, i);
      results := SendToRecipient(plan, recipients[i], i, outcome, results);
      if i < |recipients| - 1 {
        results := results.(waits := results.waits + [RecipientGap(plan.delayMs)]);
      }
      i := i + 1;
    }
  }

  /** One more recipient: its whole run is absorbed, then the recipient
      wait unless it was the last. */
  lemma BroadcastStep(plan: Plan, recipients: seq<string>, outcome: (nat, nat) -> SendOutcome, i: nat)
    requires i < |recipients|
    ensures BroadcastUpTo(plan, recipients, outcome, i + 1)
         == var b := Absorb(BroadcastUpTo(plan, recipients, outcome, i), recipients[i],
                            RunUpTo(plan, recipients[i], i, outcome, |plan.msgs|));
            if i < |recipients| - 1 then b.(waits := b.waits + [RecipientGap(plan.delayMs)]) else b
  {
  }

  /** The messages of one recipient, in order, until one fails (the body of
      the `try` block); the totals are updated as each answer arrives. */
  method SendToRecipient(plan: Plan, rid: string, i: nat, outcome: (nat, nat) -> SendOutcome, before: Broadcast)
    returns (results: Broadcast)
    ensures results == Absorb(before, rid, RunUpTo(plan, rid, i, outcome, |plan.msgs|))
  {
    var msgs := plan.msgs;
    results := before;
    var failure: Option<string> := None;
    var j := 0;
    ghost var run := NoRun;
    while j < |msgs| && failure.None?
      invariant 0 <= j <= |msgs|
      invariant run == RunUpTo(plan, rid, i, outcome, j)
      invariant failure == run.error
      invariant results == Absorb(before, rid, run)
    {
      var req := PlanRequest(rid, msgs[j], plan.taskType, plan.content, plan.fs);
      var attempt := Attempt(req, outcome(i, j));
      ghost var gap: seq<Wait> := if |msgs| > 1 then [MessageGap] else [];
      RunStep(plan, rid, i, outcome, j);
      if attempt.Ok? {
        AbsorbSent(before, rid, run, SentMessage(rid, attempt.value), req, gap);
        results := results.(success := results.success + 1,
          sentMessages := results.sentMessages + [SentMessage(rid, attempt.value)],
          requests := results.requests + [req]);
        if |msgs| > 1 {
          results := results.(waits := results.waits + [MessageGap]);
        } else {
          assert results.waits + gap == results.waits;
        }
        run := RecipientRun(run.sent + [SentMessage(rid, attempt.value)], run.requests + [req], run.waits + gap, None);
      } else {
        AbsorbFailed(before, rid, run, attempt.error, req);
        failure := Some(attempt.error);
        results := results.(failed := results.failed + 1,
          errors := results.errors + [FailureText(rid, attempt.error)],
          requests := results.requests + [req]);
        run := RecipientRun(run.sent, run.requests + [req], run.waits, Some(attempt.error));
      }
      j := j + 1;
    }
    RunStopsAtError(plan, rid, i, outcome, j);
  }

  /** The answer to message `j` sent to recipient `i`. */
  function AttemptAt(plan: Plan, rid: string, i: nat, outcome: (nat, nat) -> SendOutcome, j: nat): Result<int, string>
    requires j < |plan.msgs|
  {
    Attempt(RequestFor(rid, plan.msgs[j], plan.taskType, plan.content, plan.fs), outcome(i, j))
  }

  /** A message whose type is neither a plain message nor a poll fails its
      recipient whatever the API would answer: the run stops there with the
      error `fetch` throws. */
  lemma UnroutableFails(plan: Plan, rid: string, i: nat, outcome: (nat, nat) -> SendOutcome, j: nat)
    requires j < |plan.msgs| && RunUpTo(plan, rid, i, outcome, j).error.None?
    requires EffectiveKind(plan.msgs[j].msgType, plan.taskType).OtherKind?
    ensures RunUpTo(plan, rid, i, outcome, |plan.msgs|).error == Some(NoEndpoint)
    ensures |RunUpTo(plan, rid, i, outcome, |plan.msgs|).sent| == |RunUpTo(plan, rid, i, outcome, j).sent|
  {
    RunStopsAtError(plan, rid, i, outcome, j + 1);
  }

  /** One more message of a recipient whose run has not failed: its
      request is added, then either its receipt and gap or the failure. */
  lemma RunStep(plan: Plan, rid: string, i: nat, outcome: (nat, nat) -> SendOutcome, j: nat)
    requires j < |plan.msgs| && RunUpTo(plan, rid, i, outcome, j).error.None?
    ensures AttemptAt(plan, rid, i, outcome, j).Ok? ==> RunUpTo(plan, rid, i, outcome, j + 1) == RecipientRun(
      RunUpTo(plan, rid, i, outcome, j).sent + [SentMessage(rid, AttemptAt(plan, rid, i, outcome, j).value)],
      RunUpTo(plan, rid, i, outcome, j).requests + [RequestFor(rid, plan.msgs[j], plan.taskType, plan.content, plan.fs)],
      RunUpTo(plan, rid, i, outcome, j).waits + (if |plan.msgs| > 1 then [MessageGap] else []), None)
    ensures AttemptAt(plan, rid, i, outcome, j).Err? ==> RunUpTo(plan, rid, i, outcome, j + 1) == RecipientRun(
      RunUpTo(plan, rid, i, outcome, j).sent,
      RunUpTo(plan, rid, i, outcome, j).requests + [RequestFor(rid, plan.msgs[j], plan.taskType, plan.content, plan.fs)],
      RunUpTo(plan, rid, i, outcome, j).waits, Some(AttemptAt(plan, rid, i, outcome, j).error))
  {
  }

  /** A delivered message adds one success, its receipt, its request and
      its gap to the totals. */
  lemma AbsorbSent(b: Broadcast, rid: string, run: RecipientRun, sent: SentMessage, req: Request, gap: seq<Wait>)
    requires run.error.None?
    ensures Absorb(b, rid, RecipientRun(run.sent + [sent], run.requests + [req], run.waits + gap, None))
      == var a := Absorb(b, rid, run);
         a.(success := a.success + 1, sentMessages := a.sentMessages + [sent],
            requests := a.requests + [req], waits := a.waits + gap)
  {
    assert b.sentMessages + (run.sent + [sent]) == b.sentMessages + run.sent + [sent];
    assert b.requests + (run.requests + [req]) == b.requests + run.requests + [req];
    assert b.waits + (run.waits + gap) == b.waits + run.waits + gap;
  }

  /** A failed message adds one failure, its error text and its request. */
  lemma AbsorbFailed(b: Broadcast, rid: string, run: RecipientRun, error: string, req: Request)
    requires run.error.None?
    ensures Absorb(b, rid, RecipientRun(run.sent, run.requests + [req], run.waits, Some(error)))
      == var a := Absorb(b, rid, run);
         a.(failed := a.failed + 1, errors := a.errors + [FailureText(rid, error)], requests := a.requests + [req])
  {
    assert b.requests + (run.requests + [req]) == b.requests + run.requests + [req];
  }

  /** Once a recipient's run has failed, the remaining messages add nothing. */
  lemma {:induction false} RunStopsAtError(plan: Plan, rid: string, i: nat, outcome: (nat, nat) -> SendOutcome, j: nat)
    requires j <= |plan.msgs|
    requires j == |plan.msgs| || RunUpTo(plan, rid, i, outcome, j).error.Some?
    ensures RunUpTo(plan, rid, i, outcome, |plan.msgs|) == RunUpTo(plan, rid, i, outcome, j)
    decreases |plan.msgs| - j
  {
    if j < |plan.msgs| {
      RunStopsAtError(plan, rid, i, outcome, j + 1);
    }
  }

  /** What one recipient's run can look like after `n` messages: every
      message delivered, one request each, or the messages before the first
      failure plus the one failed request; receipts are addressed to the
      recipient and the only waits are the gaps between its messages. */
  predicate WellShaped(run: RecipientRun, rid: string, n: nat) {
    && (run.error.None? ==> |run.sent| == |run.requests| == n)
    && (run.error.Some? ==> |run.requests| == |run.sent| + 1 <= n)
    && (forall k :: 0 <= k < |run.sent| ==> run.sent[k].recipientId == rid)
    && (forall k :: 0 <= k < |run.waits| ==> run.waits[k] == MessageGap)
  }

  lemma RunShape(plan: Plan, rid: string, i: nat, outcome: (nat, nat) -> SendOutcome, n: nat)
    requires n <= |plan.msgs|
    ensures WellShaped(RunUpTo(plan, rid, i, outcome, n), rid, n)
  {
    RunCounts(plan, rid, i, outcome, n);
    RunContents(plan, rid, i, outcome, n);
  }

  lemma {:induction false} RunCounts(plan: Plan, rid: string, i: nat, outcome: (nat, nat) -> SendOutcome, n: nat)
    requires n <= |plan.msgs|
    ensures RunUpTo(plan, rid, i, outcome, n).error.None? ==> |RunUpTo(plan, rid, i, outcome, n).sent| == |RunUpTo(plan, rid, i, outcome, n).requests| == n
    ensures RunUpTo(plan, rid, i, outcome, n).error.Some? ==> |RunUpTo(plan, rid, i, outcome, n).requests| == |RunUpTo(plan, rid, i, outcome, n).sent| + 1 <= n
  {
    if n > 0 {
      RunCounts(plan, rid, i, outcome, n - 1);
    }
  }

  lemma {:induction false} RunContents(plan: Plan, rid: string, i: nat, outcome: (nat, nat) -> SendOutcome, n: nat)
    requires n <= |plan.msgs|
    ensures forall k :: 0 <= k < |RunUpTo(plan, rid, i, outcome, n).sent| ==> RunUpTo(plan, rid, i, outcome, n).sent[k].recipientId == rid
    ensures forall k :: 0 <= k < |RunUpTo(plan, rid, i, outcome, n).waits| ==> RunUpTo(plan, rid, i, outcome, n).waits[k] == MessageGap
  {
    if n > 0 {
      RunContents(plan, rid, i, outcome, n - 1);
    }
  }

  /** Every recipient's run is well shaped. */
  lemma RunsShape(plan: Plan, recipients: seq<string>, outcome: (nat, nat) -> SendOutcome)
    ensures forall j :: 0 <= j < |recipients| ==> WellShaped(Runs(plan, recipients, outcome)[j], recipients[j], |plan.msgs|)
  {
    forall j | 0 <= j < |recipients|
      ensures WellShaped(Runs(plan, recipients, outcome)[j], recipients[j], |plan.msgs|)
    {
      RunShape(plan, recipients[j], j, outcome, |plan.msgs|);
    }
  }

  function RecipientGaps(ws: seq<Wait>): nat {
    if ws == [] then 0 else (if ws[|ws| - 1].RecipientGap? then 1 else 0) + RecipientGaps(ws[..|ws| - 1])
  }

  lemma {:induction false} RecipientGapsAppend(a: seq<Wait>, b: seq<Wait>)
    ensures RecipientGaps(a + b) == RecipientGaps(a) + RecipientGaps(b)
    decreases |b|
  {
    if b != [] {
      RecipientGapsAppend(a, b[..|b| - 1]);
      assert (a + b)[..|a + b| - 1] == a + b[..|b| - 1];
    } else {
      assert a + b == a;
    }
  }

  lemma {:induction false} NoRecipientGaps(ws: seq<Wait>)
    requires forall k :: 0 <= k < |ws| ==> ws[k] == MessageGap
    ensures RecipientGaps(ws) == 0
  {
    if ws != [] {
      NoRecipientGaps(ws[..|ws| - 1]);
    }
  }

  /** The totals are consistent: one receipt per success, one error per
      failed recipient, and at most one failure per recipient. */
  lemma {:induction false} AccumulateCounts(recipients: seq<string>, runs: seq<RecipientRun>, delayMs: int, k: nat)
    requires k <= |recipients| == |runs|
    ensures Accumulate(recipients, runs, delayMs, k).success == |Accumulate(recipients, runs, delayMs, k).sentMessages|
    ensures Accumulate(recipients, runs, delayMs, k).failed == |Accumulate(recipients, runs, delayMs, k).errors| <= k
  {
    if k > 0 {
      AccumulateCounts(recipients, runs, delayMs, k - 1);
    }
  }

  lemma BroadcastCounts(plan: Plan, recipients: seq<string>, outcome: (nat, nat) -> SendOutcome, k: nat)
    requires k <= |recipients|
    ensures BroadcastUpTo(plan, recipients, outcome, k).success == |BroadcastUpTo(plan, recipients, outcome, k).sentMessages|
    ensures BroadcastUpTo(plan, recipients, outcome, k).failed == |BroadcastUpTo(plan, recipients, outcome, k).errors| <= k
  {
    AccumulateCounts(recipients, Runs(plan, recipients, outcome), plan.delayMs, k);
  }

  /** Receipts come from the runs of the first `k` recipients. */
  lemma {:induction false} AccumulateAddressing(recipients: seq<string>, runs: seq<RecipientRun>, delayMs: int, k: nat)
    requires k <= |recipients| == |runs|
    requires forall j, m :: 0 <= j < |runs| && 0 <= m < |runs[j].sent| ==> runs[j].sent[m].recipientId == recipients[j]
    ensures forall s :: s in Accumulate(recipients, runs, delayMs, k).sentMessages ==> s.recipientId in recipients[..k]
  {
    if k > 0 {
      AccumulateAddressing(recipients, runs, delayMs, k - 1);
      assert recipients[..k] == recipients[..k - 1] + [recipients[k - 1]];
      forall s | s in runs[k - 1].sent ensures s.recipientId == recipients[k - 1] {
        var m :| 0 <= m < |runs[k - 1].sent| && runs[k - 1].sent[m] == s;
      }
    }
  }

  /** Every receipt is addressed to one of the broadcast's recipients. */
  lemma BroadcastAddressing(plan: Plan, recipients: seq<string>, outcome: (nat, nat) -> SendOutcome, k: nat)
    requires k <= |recipients|
    ensures forall s :: s in BroadcastUpTo(plan, recipients, outcome, k).sentMessages ==> s.recipientId in recipients[..k]
  {
    RunsShape(plan, recipients, outcome);
    AccumulateAddressing(recipients, Runs(plan, recipients, outcome), plan.delayMs, k);
  }

  /** One recipient gap after each of the first `k` runs but the last one. */
  lemma {:induction false} AccumulateGaps(recipients: seq<string>, runs: seq<RecipientRun>, delayMs: int, k: nat)
    requires k <= |recipients| == |runs|
    requires forall j, m :: 0 <= j < |runs| && 0 <= m < |runs[j].waits| ==> runs[j].waits[m] == MessageGap
    ensures RecipientGaps(Accumulate(recipients, runs, delayMs, k).waits)
      == (if k == |recipients| && k > 0 then k - 1 else k)
  {
    if k > 0 {
      AccumulateGaps(recipients, runs, delayMs, k - 1);
      var prev := Accumulate(recipients, runs, delayMs, k - 1).waits;
      GapsStep(prev, runs[k - 1].waits, k < |recipients|, delayMs);
      if k == |recipients| {
        assert prev + runs[k - 1].waits + [] == prev + runs[k - 1].waits;
      }
    }
  }

  /** The recipient wait happens between consecutive recipients only, never
      after the last one. */
  lemma BroadcastGaps(plan: Plan, recipients: seq<string>, outcome: (nat, nat) -> SendOutcome, k: nat)
    requires k <= |recipients|
    ensures RecipientGaps(BroadcastUpTo(plan, recipients, outcome, k).waits)
      == (if k == |recipients| && k > 0 then k - 1 else k)
  {
    RunsShape(plan, recipients, outcome);
    AccumulateGaps(recipients, Runs(plan, recipients, outcome), plan.delayMs, k);
  }

  /** A recipient's own waits hold no recipient gap, so each recipient adds
      at most the one gap after it. */
  lemma GapsStep(before: seq<Wait>, own: seq<Wait>, more: bool, delayMs: int)
    requires forall k :: 0 <= k < |own| ==> own[k] == MessageGap
    ensures RecipientGaps(before + own + (if more then [RecipientGap(delayMs)] else []))
      == RecipientGaps(before) + (if more then 1 else 0)
  {
    NoRecipientGaps(own);
    RecipientGapsAppend(before, own);
    var tail: seq<Wait> := if more then [RecipientGap(delayMs)] else [];
    RecipientGapsAppend(before + own, tail);
    assert RecipientGaps(tail) == (if more then 1 else 0) by {
      assert [RecipientGap(delayMs)][..0] == [];
    }
  }

  // ---------------------------------------------------------------- delete

  /** One entry to undo; `messageId` is `None` when it does not parse as an
      integer. */
  datatype DeleteEntry = DeleteEntry(recipientId: string, messageId: Option<int>)

  /** What the Bot API answers to one `deleteMessage`. */
  datatype DeleteOutcome = Deleted | NotDeleted(description: string) | DeleteFailed(description: string)

  datatype DeleteCall = DeleteCall(chatId: string, messageId: int)

  datatype DeleteReport = DeleteReport(success: nat, failed: nat, errors: seq<string>, calls: seq<DeleteCall>, waits: nat)

  predicate ValidEntry(e: DeleteEntry) {
    e.recipientId != "" && e.messageId.Some?
  }

  function InvalidEntryText(e: DeleteEntry): string {
    "Invalid message data: recipientId=" + e.recipientId + ", messageId="
      + (if e.messageId.Some? then IntToString(e.messageId.value) else "NaN")
  }

  /** The undo loop over the first `k` entries. */
  function DeleteUpTo(entries: seq<DeleteEntry>, outcome: nat -> DeleteOutcome, k: nat): DeleteReport
    requires k <= |entries|
  {
    if k == 0 then DeleteReport(0, 0, [], [], 0)
    else
      var prev := DeleteUpTo(entries, outcome, k - 1);
      var e := entries[k - 1];
      if !ValidEntry(e) then
        prev.(failed := prev.failed + 1, errors := prev.errors + [InvalidEntryText(e)])
      else
        var base := prev.(calls := prev.calls + [DeleteCall(e.recipientId, e.messageId.value)],
          waits := prev.waits + (if k - 1 < |entries| - 1 then 1 else 0));
        match outcome(k - 1)
        case Deleted => base.(success := base.success + 1)
        case NotDeleted(d) => base.(failed := base.failed + 1, errors := base.errors + [e.recipientId + ": " + d])
        case DeleteFailed(d) => base.(failed := base.failed + 1, errors := base.errors + [e.recipientId + ": " + d])
  }

  /** The calls made for a list of entries: one per valid entry, in order. */
  function CallsFor(entries: seq<DeleteEntry>): seq<DeleteCall> {
    if entries == [] then []
    else
      var e := entries[|entries| - 1];
      CallsFor(entries[..|entries| - 1]) + (if ValidEntry(e) then [DeleteCall(e.recipientId, e.messageId.value)] else [])
  }

  /** Every entry is counted once; each valid entry gets exactly one call,
      in order, invalid ones none; a wait follows exactly the valid entries
      that are not the last, so the whole run waits once per valid entry
      before the last position. */
  lemma {:induction false} DeleteTotals(entries: seq<DeleteEntry>, outcome: nat -> DeleteOutcome, k: nat)
    requires k <= |entries|
    ensures var r := DeleteUpTo(entries, outcome, k);
      r.success + r.failed == k && r.calls == CallsFor(entries[..k]) && r.waits <= |r.calls|
      && (k < |entries| ==> r.waits == |r.calls|)
      && (0 < k == |entries| ==> r.waits == |CallsFor(entries[..k - 1])|)
  {
    if k > 0 {
      DeleteTotals(entries, outcome, k - 1);
      assert entries[..k][..k - 1] == entries[..k - 1];
    }
  }

  datatype DeleteArgs = DeleteFor(userId: Option<UserId>, entries: seq<DeleteEntry>) | LegacyDelete(entries: seq<DeleteEntry>)

  /** `deleteMessages`: fails before any call when no token resolves. */
  method DeleteMessages(args: DeleteArgs, tokens: TokenSources, outcome: nat -> DeleteOutcome)
    returns (r: Result<DeleteReport, string>)
    ensures var userId := if args.DeleteFor? then args.userId else None;
      (ResolveBotToken(userId, tokens) == [] <==> r.Err?) && (r.Err? ==> r.error == MissingDeleteToken)
    ensures r.Ok? ==> r.value == DeleteUpTo(args.entries, outcome, |args.entries|)
  {
    var userId := if args.DeleteFor? then args.userId else None;
    var token := ResolveBotToken(userId, tokens);
    if token == [] {
      return Err(MissingDeleteToken);
    }
    var entries := args.entries;
    var report := DeleteReport(0, 0, [], [], 0);
    var i := 0;
    while i < |entries|
      invariant 0 <= i <= |entries|
      invariant report == DeleteUpTo(entries, outcome, i)
    {
      var e := entries[i];
      if !ValidEntry(e) {
        report := report.(failed := report.failed + 1, errors := report.errors + [InvalidEntryText(e)]);
      } else {
        report := report.(calls := report.calls + [DeleteCall(e.recipientId, e.messageId.value)]);
        var answer := outcome(i);
        match answer {
          case Deleted =>
            report := report.(success := report.success + 1);
          case NotDeleted(d) =>
            report := report.(failed := report.failed + 1, errors := report.errors + [e.recipientId + ": " + d]);
          case DeleteFailed(d) =>
            report := report.(failed := report.failed + 1, errors := report.errors + [e.recipientId + ": " + d]);
        }
        if i < |entries| - 1 {
          report := report.(waits := report.waits + 1);
        }
      }
      i := i + 1;
    }
    return Ok(report);
  }

  // --------------------------------------------------------------- metrics

  /** The metrics of one message as the analytics service reports them. */
  datatype BatchMetrics = BatchMetrics(views: int, forwards: int, replies: int, reactions: int, voters: int)

  datatype MetricsReply = TaskOrMessagesNotFound | MetricsUpdated(updatedCount: nat)

  const MissingCreator := "Task is missing createdBy; cannot fetch metrics"

  /** The batch key of a receipt: its message id in decimal. */
  function ReceiptKey(r: Receipt): string {
    IntToString(r.messageId)
  }

  /** The stored metrics for one batch entry, stamped with the time. */
  function Stamped(b: BatchMetrics, now: int): Metrics {
    Metrics(b.views, b.forwards, b.replies, b.reactions, b.voters, now)
  }

  function RefreshReceipt(r: Receipt, batch: map<string, BatchMetrics>, now: int): Receipt {
    if ReceiptKey(r) in batch then r.(metrics := Stamped(batch[ReceiptKey(r)], now)) else r
  }

  /** Every receipt whose key is in the batch gets the batch's views,
      forwards, replies, reactions and voters and a fresh `updatedAt`; the
      others are left as they were. */
  function RefreshAll(rs: seq<Receipt>, batch: map<string, BatchMetrics>, now: int): (out: seq<Receipt>)
    ensures |out| == |rs|
    ensures forall k :: 0 <= k < |rs| ==>
      out[k].recipientId == rs[k].recipientId && out[k].messageId == rs[k].messageId
    ensures forall k :: 0 <= k < |rs| && ReceiptKey(rs[k]) !in batch ==> out[k] == rs[k]
    ensures forall k :: 0 <= k < |rs| && ReceiptKey(rs[k]) in batch ==>
      out[k] == rs[k].(metrics := Stamped(batch[ReceiptKey(rs[k])], now))
  {
    if rs == [] then [] else RefreshAll(rs[..|rs| - 1], batch, now) + [RefreshReceipt(rs[|rs| - 1], batch, now)]
  }

  function CountKeyed(rs: seq<Receipt>, batch: map<string, BatchMetrics>): (n: nat)
    ensures n <= |rs|
  {
    if rs == [] then 0 else CountKeyed(rs[..|rs| - 1], batch) + (if ReceiptKey(rs[|rs| - 1]) in batch then 1 else 0)
  }

  /** Nothing is written when no receipt is in the batch. */
  lemma {:induction false} NothingKeyedNothingChanged(rs: seq<Receipt>, batch: map<string, BatchMetrics>, now: int)
    requires CountKeyed(rs, batch) == 0
    ensures RefreshAll(rs, batch, now) == rs
  {
    if rs != [] {
      NothingKeyedNothingChanged(rs[..|rs| - 1], batch, now);
      assert rs == rs[..|rs| - 1] + [rs[|rs| - 1]];
    }
  }

  /** Refreshing with the same answer at the same time a second time
      changes nothing more, and finds the same receipts in the batch. */
  lemma {:induction false} RefreshIdempotent(rs: seq<Receipt>, batch: map<string, BatchMetrics>, now: int)
    ensures RefreshAll(RefreshAll(rs, batch, now), batch, now) == RefreshAll(rs, batch, now)
    ensures CountKeyed(RefreshAll(rs, batch, now), batch) == CountKeyed(rs, batch)
  {
    if rs != [] {
      var init := rs[..|rs| - 1];
      RefreshIdempotent(init, batch, now);
      var once := RefreshAll(rs, batch, now);
      assert once[..|once| - 1] == RefreshAll(init, batch, now);
      assert ReceiptKey(once[|once| - 1]) == ReceiptKey(rs[|rs| - 1]);
    }
  }

  /** The receipts after `updateMetrics`: refreshed when the task has
      receipts and a creator and the analytics service answered, else as
      they were. */
  function MetricsAfter(rs: seq<Receipt>, createdBy: Option<UserId>,
                        fetch: Result<map<string, BatchMetrics>, string>, now: int): seq<Receipt>
  {
    if rs != [] && createdBy.Some? && fetch.Ok? then RefreshAll(rs, fetch.value, now) else rs
  }

  /** `updateMetrics(taskId)`: `fetch` is the analytics service's answer.
      Only the task's receipts change, and only when the task exists, has
      receipts and a creator, and the fetch succeeded; every error is
      rethrown with the document unchanged. */
  method UpdateMetrics(store: TaskStore.Store, taskId: string, fetch: Result<map<string, BatchMetrics>, string>, now: int)
    returns (r: Result<MetricsReply, string>)
    requires store.Valid()
    modifies if taskId in store.tasks then {store.tasks[taskId]} else {}
    ensures store.Valid()
    ensures taskId !in store.tasks || old(store.tasks[taskId].sentMessages) == [] ==> r == Ok(TaskOrMessagesNotFound)
    ensures taskId in store.tasks ==>
      var t := store.tasks[taskId];
      t.Record() == old(t.Record()).(sentMessages := MetricsAfter(old(t.sentMessages), old(t.createdBy), fetch, now))
    ensures taskId in store.tasks && old(store.tasks[taskId].sentMessages) != [] ==>
      var t := store.tasks[taskId];
      (t.createdBy.None? ==> r == Err(MissingCreator)) &&
      (t.createdBy.Some? && fetch.Err? ==> r == Err(fetch.error)) &&
      (t.createdBy.Some? && fetch.Ok? ==> r == Ok(MetricsUpdated(CountKeyed(old(t.sentMessages), fetch.value))))
  {
    if taskId !in store.tasks {
      return Ok(TaskOrMessagesNotFound);
    }
    var t := store.tasks[taskId];
    if t.sentMessages == [] {
      return Ok(TaskOrMessagesNotFound);
    }
    if t.createdBy.None? {
      return Err(MissingCreator);
    }
    if fetch.Err? {
      return Err(fetch.error);
    }
    var batch := fetch.value;
    var receipts := t.sentMessages;
    var updated, count := RefreshReceipts(receipts, batch, now);
    if count > 0 {
      t.sentMessages := updated;
    } else {
      NothingKeyedNothingChanged(receipts, batch, now);
    }
    return Ok(MetricsUpdated(count));
  }

  /** The loop over the receipts: each one in the batch gets its metrics
      and the time, and is counted. */
  method RefreshReceipts(receipts: seq<Receipt>, batch: map<string, BatchMetrics>, now: int)
    returns (updated: seq<Receipt>, count: nat)
    ensures updated == RefreshAll(receipts, batch, now)
    ensures count == CountKeyed(receipts, batch)
  {
    updated := [];
    count := 0;
    var k := 0;
    while k < |receipts|
      invariant 0 <= k <= |receipts|
      invariant updated == RefreshAll(receipts[..k], batch, now)
      invariant count == CountKeyed(receipts[..k], batch)
    {
      assert receipts[..k + 1][..k] == receipts[..k];
      var key := ReceiptKey(receipts[k]);
      if key in batch {
        var b := batch[key];
        updated := updated + [receipts[k].(metrics := Stamped(b, now))];
        count := count + 1;
      } else {
        updated := updated + [receipts[k]];
      }
      k := k + 1;
    }
    assert receipts[..k] == receipts;
  }
}
