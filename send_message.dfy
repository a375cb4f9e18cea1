/** The broadcast page's submit handler: the three checks, then the
    multipart form built by successive appends — name, type, message
    content, targets, an optional scheduled time, the scheduling config, an
    optional expiry, and every media file under `media_<message id>`. */
module SendMessage {
  import opened Wrappers
  import opened Text
  import opened Messages
  import ChannelOrder
  import ScheduleTime

  /** `{ id, text }` in `content.messages`. */
  datatype ContentMessage = ContentMessage(id: string, text: string)

  /** The value of one form field; JSON fields keep their structure. */
  datatype FormValue =
    | TextValue(s: string)
    | ContentJson(messages: seq<ContentMessage>, isMulti: bool)
    | TargetsJson(ids: seq<string>)
    | SchedulingJson(mode: string, delayMinutes: int)
    | ScheduledAtValue(at: ScheduleTime.LocalTime)
    | FilePart(file: Option<FileBlob>)  // None: the appended value is `undefined`

  /** The form's field names; `Name()` is the text sent. */
  datatype FieldKey =
    | NameKey | TypeKey | ContentKey | TargetIdsKey | ScheduledAtKey | SchedulingKey | ExpiryHoursKey
    | MediaKey(messageId: string)
  {
    function Name(): string {
      match this
      case NameKey => "name"
      case TypeKey => "type"
      case ContentKey => "content"
      case TargetIdsKey => "targetIds"
      case ScheduledAtKey => "scheduledAt"
      case SchedulingKey => "scheduling"
      case ExpiryHoursKey => "expiryHours"
      case MediaKey(id) => "media_" + id
    }
  }

  datatype FormEntry = FormEntry(key: FieldKey, value: FormValue)

  /** The page state the handler reads. */
  datatype BroadcastForm = BroadcastForm(
    taskName: string,
    messages: seq<Message>,
    selected: seq<string>,
    ordered: seq<ChannelOrder.Channel>,
    mode: string,
    delayMinutes: int,
    scheduleDate: string,
    scheduleTime: string,
    expiryHours: string)

  /** An alert and no request, a throw out of the handler (an unreadable
      schedule), or the form handed to the mutation. */
  datatype Submission = Alerted(message: string) | Thrown(error: string) | Posted(entries: seq<FormEntry>)

  function ValidationAlert(f: BroadcastForm): Option<string> {
    if IsBlank(f.taskName) then Some("Please enter a campaign name")
    else if f.messages == [] then Some("Please add at least one message")
    else if f.selected == [] then Some("Please select at least one target channel/group")
    else None
  }

  function MessageType(ms: seq<Message>): (r: string)
    ensures r == "multi_message" <==> |ms| > 1
    ensures r == "message" <==> |ms| <= 1
  {
    if |ms| > 1 then "multi_message" else "message"
  }

  /** `messages.map(m => ({ id: m.id, text: m.content }))`. */
  function ContentMessages(ms: seq<Message>): (r: seq<ContentMessage>)
    ensures |r| == |ms|
    ensures forall k :: 0 <= k < |ms| ==> r[k].id == ms[k].id && r[k].text == ms[k].content
  {
    seq(|ms|, k requires 0 <= k < |ms| => ContentMessage(ms[k].id, ms[k].content))
  }

  /** The priority order's ids in delay mode, else the selection as is. */
  function Targets(f: BroadcastForm): (r: seq<string>)
    ensures f.mode == "delay" ==> r == ChannelOrder.Ids(f.ordered)
    ensures f.mode != "delay" ==> r == f.selected
  {
    if f.mode == "delay" then ChannelOrder.Ids(f.ordered) else f.selected
  }

  /** The `scheduledAt` field: only in schedule mode with a date and a
      time, and an unreadable time throws. */
  function ScheduledEntries(f: BroadcastForm): (r: Result<seq<FormEntry>, string>)
    ensures r.Err? ==> f.mode == "schedule"
    ensures r.Ok? && r.value != [] <==>
              f.mode == "schedule" && f.scheduleDate != [] && f.scheduleTime != []
              && ScheduleTime.ReadScheduleTime(f.scheduleDate, f.scheduleTime).Ok?
    ensures r.Ok? && r.value != [] ==> |r.value| == 1 && r.value[0].key == ScheduledAtKey
  {
    if f.mode == "schedule" && f.scheduleDate != [] && f.scheduleTime != [] then
      match ScheduleTime.ReadScheduleTime(f.scheduleDate, f.scheduleTime)
      case Ok(t) => Ok([FormEntry(ScheduledAtKey, ScheduledAtValue(t))])
      case Err(e) => Err(e)
    else Ok([])
  }

  function ExpiryEntries(f: BroadcastForm): seq<FormEntry> {
    if f.expiryHours != [] then [FormEntry(ExpiryHoursKey, TextValue(f.expiryHours))] else []
  }

  /** `mItem.file` for an element of a `media` array. */
  function ArrayFile(v: MediaValue): Option<FileBlob> {
    if v.Item? then v.item.file else None
  }

  /** One `media_<id>` field per element of a `media` array, in order. */
  function ArrayEntries(id: string, vs: seq<MediaValue>): (r: seq<FormEntry>)
    ensures |r| == |vs|
  {
    if vs == [] then []
    else ArrayEntries(id, vs[..|vs| - 1]) + [FormEntry(MediaKey(id), FilePart(ArrayFile(vs[|vs| - 1])))]
  }

  /** The media fields of one message: an array's elements, or a single
      File; any other value adds nothing. */
  function MessageEntries(m: Message): seq<FormEntry> {
    match m.media
    case NoMedia => []
    case List(vs) => ArrayEntries(m.id, vs)
    case Single(v) => if v.RawFile? then [FormEntry(MediaKey(m.id), FilePart(Some(v.file)))] else []
  }

  /** The media fields of all messages, message by message. */
  function MediaEntries(ms: seq<Message>): seq<FormEntry> {
    if ms == [] then [] else MediaEntries(ms[..|ms| - 1]) + MessageEntries(ms[|ms| - 1])
  }

  /** The four fields every posted form starts with. */
  function FixedEntries(f: BroadcastForm): seq<FormEntry> {
    [ FormEntry(NameKey, TextValue(Trim(f.taskName))),
      FormEntry(TypeKey, TextValue(MessageType(f.messages))),
      FormEntry(ContentKey, ContentJson(ContentMessages(f.messages), |f.messages| > 1)),
      FormEntry(TargetIdsKey, TargetsJson(Targets(f))) ]
  }

  /** The scheduling config: the mode, and the delay only in delay mode. */
  function SchedulingEntry(f: BroadcastForm): FormEntry {
    FormEntry(SchedulingKey, SchedulingJson(f.mode, if f.mode == "delay" then f.delayMinutes else 0))
  }

  /** The fields before the media, in append order. */
  function HeadEntries(f: BroadcastForm, scheduled: seq<FormEntry>): seq<FormEntry> {
    FixedEntries(f) + scheduled + [SchedulingEntry(f)] + ExpiryEntries(f)
  }

  /** What `handleSubmit` does with a page state. */
  function Submit(f: BroadcastForm): Submission {
    if ValidationAlert(f).Some? then Alerted(ValidationAlert(f).value)
    else match ScheduledEntries(f)
      case Err(e) => Thrown(e)
      case Ok(scheduled) => Posted(HeadEntries(f, scheduled) + MediaEntries(f.messages))
  }

  /** `handleSubmit`: the checks, then the appends, with the media loop
      over messages and, for an array, over its elements. */
  method HandleSubmit(f: BroadcastForm) returns (out: Submission)
    ensures out == Submit(f)
  {
    if IsBlank(f.taskName) {
      return Alerted("Please enter a campaign name");
    }
    if |f.messages| == 0 {
      return Alerted("Please add at least one message");
    }
    if |f.selected| == 0 {
      return Alerted("Please select at least one target channel/group");
    }
    var form := AppendFixed(f);
    var scheduled := ScheduledEntries(f);
    if scheduled.Err? {
      return Thrown(scheduled.error);
    }
    form := AppendSettings(form + scheduled.value, f);
    assert form == HeadEntries(f, scheduled.value);
    form := AppendMedia(form, f.messages);
    return Posted(form);
  }

  /** The name, type, content and target appends. */
  method AppendFixed(f: BroadcastForm) returns (form: seq<FormEntry>)
    ensures form == FixedEntries(f)
  {
    form := [];
    form := form + [FormEntry(NameKey, TextValue(Trim(f.taskName)))];
    form := form + [FormEntry(TypeKey, TextValue(if |f.messages| > 1 then "multi_message" else "message"))];
    form := form + [FormEntry(ContentKey, ContentJson(ContentMessages(f.messages), |f.messages| > 1))];
    var targetIds := f.selected;
    if f.mode == "delay" {
      targetIds := ChannelOrder.Ids(f.ordered);
    }
    form := form + [FormEntry(TargetIdsKey, TargetsJson(targetIds))];
  }

  /** The scheduling config append, then `expiryHours` when it is set. */
  method AppendSettings(before: seq<FormEntry>, f: BroadcastForm) returns (form: seq<FormEntry>)
    ensures form == before + [SchedulingEntry(f)] + ExpiryEntries(f)
  {
    form := before + [FormEntry(SchedulingKey, SchedulingJson(f.mode, if f.mode == "delay" then f.delayMinutes else 0))];
    if f.expiryHours != [] {
      form := form + [FormEntry(ExpiryHoursKey, TextValue(f.expiryHours))];
    }
  }

  /** The `forEach` over one message's media array. */
  method AppendArrayFiles(form: seq<FormEntry>, id: string, vs: seq<MediaValue>) returns (r: seq<FormEntry>)
    ensures r == form + ArrayEntries(id, vs)
  {
    r := form;
    var j := 0;
    while j < |vs|
      invariant 0 <= j <= |vs|
      invariant r == form + ArrayEntries(id, vs[..j])
    {
      assert vs[..j + 1][..j] == vs[..j];
      r := r + [FormEntry(MediaKey(id), FilePart(ArrayFile(vs[j])))];
      j := j + 1;
    }
    assert vs[..|vs|] == vs;
  }

  /** The `forEach` over the messages appending their media. */
  method AppendMedia(form: seq<FormEntry>, ms: seq<Message>) returns (r: seq<FormEntry>)
    ensures r == form + MediaEntries(ms)
  {
    r := form;
    var i := 0;
    while i < |ms|
      invariant 0 <= i <= |ms|
      invariant r == form + MediaEntries(ms[..i])
    {
      var msg := ms[i];
      MediaStep(form, ms, i);
      ghost var before := r;
      match msg.media {
        case NoMedia =>
        case List(vs) =>
          r := AppendArrayFiles(r, msg.id, vs);
        case Single(v) =>
          if v.RawFile? {
            r := r + [FormEntry(MediaKey(msg.id), FilePart(Some(v.file)))];
          }
      }
      assert r == before + MessageEntries(msg);
      i := i + 1;
    }
    assert ms[..|ms|] == ms;
  }

  lemma MediaStep(form: seq<FormEntry>, ms: seq<Message>, i: nat)
    requires i < |ms|
    ensures form + MediaEntries(ms[..i + 1]) == form + MediaEntries(ms[..i]) + MessageEntries(ms[i])
  {
    assert ms[..i + 1][..i] == ms[..i];
  }

  /** Nothing is sent without a name, a message and a target, and those
      three checks are all the handler makes before sending. */
  lemma AlertIff(f: BroadcastForm)
    ensures Submit(f).Alerted? <==> IsBlank(f.taskName) || f.messages == [] || f.selected == []
  {
  }

  function Keys(entries: seq<FormEntry>): (r: seq<FieldKey>)
    ensures |r| == |entries| && forall k :: 0 <= k < |entries| ==> r[k] == entries[k].key
  {
    seq(|entries|, k requires 0 <= k < |entries| => entries[k].key)
  }

  lemma {:induction false} ArrayEntriesAt(id: string, vs: seq<MediaValue>, k: nat)
    requires k < |vs|
    ensures ArrayEntries(id, vs)[k] == FormEntry(MediaKey(id), FilePart(ArrayFile(vs[k])))
  {
    if k < |vs| - 1 {
      ArrayEntriesAt(id, vs[..|vs| - 1], k);
    }
  }

  /** Every media field is named `media_<id>` after its message. */
  lemma {:induction false} MediaKeysArePrefixed(ms: seq<Message>)
    ensures forall e :: e in MediaEntries(ms) ==> e.key.MediaKey? && exists m :: m in ms && e.key.messageId == m.id
  {
    if ms != [] {
      MediaKeysArePrefixed(ms[..|ms| - 1]);
      var m := ms[|ms| - 1];
      if m.media.List? {
        forall e | e in ArrayEntries(m.id, m.media.values) ensures e.key == MediaKey(m.id) {
          var k :| 0 <= k < |m.media.values| && ArrayEntries(m.id, m.media.values)[k] == e;
          ArrayEntriesAt(m.id, m.media.values, k);
        }
      }
    }
  }

  lemma {:induction false} KeysAppend(a: seq<FormEntry>, b: seq<FormEntry>)
    ensures Keys(a + b) == Keys(a) + Keys(b)
  {
  }

  /** The media fields never use another field's name. */
  lemma MediaHasNoScheduledAt(ms: seq<Message>)
    ensures ScheduledAtKey !in Keys(MediaEntries(ms))
  {
    MediaKeysArePrefixed(ms);
    var media := MediaEntries(ms);
    assert forall k :: 0 <= k < |media| ==> media[k] in media;
  }

  /** A posted form starts with name, type, content and targets, and its
      type is `multi_message` exactly for several messages. */
  lemma PostedForm(f: BroadcastForm)
    requires Submit(f).Posted?
    ensures var e := Submit(f).entries;
      |e| >= 5 && e[..4] == FixedEntries(f)
      && e[0] == FormEntry(NameKey, TextValue(Trim(f.taskName)))
      && (e[1].value == TextValue("multi_message") <==> |f.messages| > 1)
      && e[2].value == ContentJson(ContentMessages(f.messages), |f.messages| > 1)
      && e[3].value == TargetsJson(Targets(f))
  {
    var e := Submit(f).entries;
    var head := HeadEntries(f, ScheduledEntries(f).value);
    assert e == head + MediaEntries(f.messages);
    assert e[..4] == head[..4] == FixedEntries(f);
  }

  /** A posted form has a `scheduledAt` field exactly in schedule mode with
      a date and a time. */
  lemma PostedScheduledAt(f: BroadcastForm)
    requires Submit(f).Posted?
    ensures ScheduledAtKey in Keys(Submit(f).entries) <==>
              f.mode == "schedule" && f.scheduleDate != [] && f.scheduleTime != []
  {
    var scheduled := ScheduledEntries(f).value;
    var fixed := FixedEntries(f);
    var tail := [SchedulingEntry(f)];
    var media := MediaEntries(f.messages);
    assert Submit(f).entries == fixed + scheduled + tail + ExpiryEntries(f) + media;
    KeysAppend(fixed + scheduled + tail + ExpiryEntries(f), media);
    KeysAppend(fixed + scheduled + tail, ExpiryEntries(f));
    KeysAppend(fixed + scheduled, tail);
    KeysAppend(fixed, scheduled);
    MediaHasNoScheduledAt(f.messages);
    assert Keys(fixed) == [NameKey, TypeKey, ContentKey, TargetIdsKey];
    assert ScheduledAtKey !in Keys(ExpiryEntries(f));
  }

  /** The scheduling config's delay is the page's only in delay mode. */
  lemma SchedulingDelay(f: BroadcastForm)
    requires Submit(f).Posted?
    ensures var e := Submit(f).entries;
      forall k :: 0 <= k < |e| && e[k].value.SchedulingJson? ==>
        e[k].value.mode == f.mode && e[k].value.delayMinutes == (if f.mode == "delay" then f.delayMinutes else 0)
  {
    var scheduled := ScheduledEntries(f).value;
    var head := HeadEntries(f, scheduled);
    var media := MediaEntries(f.messages);
    var e := head + media;
    HeadScheduling(f, scheduled);
    forall k | 0 <= k < |e| && e[k].value.SchedulingJson?
      ensures e[k].value == SchedulingEntry(f).value
    {
      if k < |head| {
        assert e[k] == head[k];
      } else {
        assert e[k] == media[k - |head|];
        MediaValues(f.messages, k - |head|);
      }
    }
  }

  /** Among the fields before the media, only the scheduling entry holds a
      scheduling config. */
  lemma HeadScheduling(f: BroadcastForm, scheduled: seq<FormEntry>)
    requires ScheduledEntries(f) == Ok(scheduled)
    ensures var head := HeadEntries(f, scheduled);
      forall k :: 0 <= k < |head| && head[k].value.SchedulingJson? ==> head[k].value == SchedulingEntry(f).value
  {
    var fixed := FixedEntries(f);
    var tail := [SchedulingEntry(f)] + ExpiryEntries(f);
    assert HeadEntries(f, scheduled) == fixed + scheduled + tail;
    assert forall k :: 0 <= k < |scheduled| ==> !scheduled[k].value.SchedulingJson?;
  }

  lemma {:induction false} MediaValues(ms: seq<Message>, k: nat)
    requires k < |MediaEntries(ms)|
    ensures MediaEntries(ms)[k].value.FilePart?
  {
    var init := MediaEntries(ms[..|ms| - 1]);
    var m := ms[|ms| - 1];
    if k < |init| {
      MediaValues(ms[..|ms| - 1], k);
    } else if m.media.List? {
      ArrayEntriesAt(m.id, m.media.values, k - |init|);
    }
  }

  /** The media fields follow the message order, and within a message the
      order of its media array: one `media_<id>` field per element. */
  lemma MediaOrder(ms: seq<Message>, m: Message, id: string, vs: seq<MediaValue>, k: nat)
    requires k < |vs|
    ensures MediaEntries(ms + [m]) == MediaEntries(ms) + MessageEntries(m)
    ensures MessageEntries(Message(id, m.content, List(vs)))[k] == FormEntry(MediaKey(id), FilePart(ArrayFile(vs[k])))
  {
    assert (ms + [m])[..|ms|] == ms;
    ArrayEntriesAt(id, vs, k);
  }
}
