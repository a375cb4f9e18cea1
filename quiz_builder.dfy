/** The quiz builder page: the editable list of quizzes, the submit-time
    validation of every question, option and explanation, and the poll
    payloads sent for each quiz. */
module QuizBuilder {
  import opened Wrappers
  import opened Text
  import opened FrontEntities
  import ChannelOrder
  import QuizParse
  import ScheduleTime

  /** A quiz in the editor list. */
  datatype Quiz = Quiz(
    id: string,
    question: string,
    options: seq<string>,
    correctOption: int,
    explanation: string,
    scheduledAt: Option<QuizParse.BlockTime>)

  /** `quiz-${Date.now()}-${i}`. */
  function ParsedId(now: nat, i: nat): string {
    "quiz-" + NatToString(now) + "-" + NatToString(i)
  }

  /** The parsed quizzes with their list ids, as set after a parse. */
  function Tagged(parsed: seq<QuizParse.ParsedQuiz>, now: nat): (r: seq<Quiz>)
    ensures |r| == |parsed|
    ensures forall i :: 0 <= i < |r| ==>
      r[i].question == parsed[i].question && r[i].options == parsed[i].options
      && r[i].correctOption == parsed[i].correctOption && r[i].explanation == parsed[i].explanation
      && r[i].scheduledAt == parsed[i].scheduledAt
  {
    seq(|parsed|, i requires 0 <= i < |parsed| =>
      var p := parsed[i];
      Quiz(ParsedId(now, i), p.question, p.options, p.correctOption, p.explanation, p.scheduledAt))
  }

  /** Quizzes tagged in one parse never share an id. */
  lemma TaggedIdsDistinct(parsed: seq<QuizParse.ParsedQuiz>, now: nat, i: nat, j: nat)
    requires i < j < |parsed|
    ensures Tagged(parsed, now)[i].id != Tagged(parsed, now)[j].id
  {
    var prefix := "quiz-" + NatToString(now) + "-";
    assert ParsedId(now, i) == prefix + NatToString(i);
    assert ParsedId(now, j) == prefix + NatToString(j);
    if ParsedId(now, i) == ParsedId(now, j) {
      assert NatToString(i) == (prefix + NatToString(i))[|prefix|..];
      assert NatToString(j) == (prefix + NatToString(j))[|prefix|..];
      NatToStringValue(i);
      NatToStringValue(j);
      assert false;
    }
  }

  // ------------------------------------------------------- parseRawText

  /** What `parseRawText` leaves behind: nothing for a blank text, no quiz
      found, the quizzes found, or `Stuck` when an exception escapes the
      handler (no quizzes are set and `isParsing` stays true). */
  datatype ParseOutcome = Ignored | NoQuizzes | Parsed(quizzes: seq<QuizParse.ParsedQuiz>) | Stuck

  /** `parseWithGenericParser` as written: a `scheduled on ... at ...`
      phrase anywhere in the text reaches `setScheduledTime`, which the page
      never declares, so the call throws a `ReferenceError`. */
  function GenericAsWritten(blocks: seq<string>, rawText: string): (r: Result<seq<QuizParse.ParsedQuiz>, string>)
    ensures r.Err? <==> QuizParse.ContainsSchedule(rawText)
    ensures r.Ok? ==> r.value == QuizParse.GenericQuizzes(blocks, rawText)
  {
    if QuizParse.ContainsSchedule(rawText) then Err("setScheduledTime is not defined")
    else Ok(QuizParse.GenericQuizzes(blocks, rawText))
  }

  /** The outcome of the generic parser's result. */
  function Found(qs: seq<QuizParse.ParsedQuiz>): (r: ParseOutcome)
    ensures r == NoQuizzes <==> qs == []
    ensures r != NoQuizzes ==> r == Parsed(qs)
  {
    if qs == [] then NoQuizzes else Parsed(qs)
  }

  /** `parseRawText` as written. `custom` is what `wordFileParser` returns
      and `blocks` is `rawText.split(/\n\s*\n/)`. A custom result whose
      first quiz is scheduled reaches the undeclared `setScheduledTime` too;
      the `catch` then runs the generic parser, and a second throw from it
      escapes the handler. */
  function ParseRawTextAsWritten(rawText: string, custom: seq<QuizParse.ParsedQuiz>, blocks: seq<string>): ParseOutcome {
    if IsBlank(rawText) then Ignored
    else if custom != [] && custom[0].scheduledAt.None? then Parsed(custom)
    else
      match GenericAsWritten(blocks, rawText)
      case Err(_) => Stuck
      case Ok(qs) => Found(qs)
  }

  /** When the custom parser's first quiz is scheduled, its result is
      dropped: the outcome is the one the text gives with no custom quiz at
      all. A text holding a schedule phrase, with no custom quiz or a
      scheduled first one, leaves the page stuck. */
  lemma AsWrittenLosesScheduledParses(rawText: string, custom: seq<QuizParse.ParsedQuiz>, blocks: seq<string>)
    ensures custom != [] && custom[0].scheduledAt.Some? ==>
      ParseRawTextAsWritten(rawText, custom, blocks) == ParseRawTextAsWritten(rawText, [], blocks)
    ensures !IsBlank(rawText) && QuizParse.ContainsSchedule(rawText)
            && (custom == [] || custom[0].scheduledAt.Some?) ==>
      ParseRawTextAsWritten(rawText, custom, blocks) == Stuck
  {
  }

  /** A pasted text reading `scheduled on 1/1/2025 at 9 AM` leaves the page
      as written stuck. */
  lemma ScheduledTextSticks(blocks: seq<string>)
    ensures ParseRawTextAsWritten("scheduled on 1/1/2025 at 9 AM", [], blocks) == Stuck
  {
    var t := "scheduled on 1/1/2025 at 9 AM";
    assert !IsSpace(t[0]) && !IsSpace(t[|t| - 1]);
    assert Trim(t) == t;
    QuizParse.SchedulePhraseMatches();
    assert GenericAsWritten(blocks, t).Err?;
  }

  /** `parseRawText` with the schedule state declared: the custom parser's
      quizzes when it finds any, otherwise the generic parser's. */
  function ParseRawText(rawText: string, custom: seq<QuizParse.ParsedQuiz>, blocks: seq<string>): ParseOutcome {
    if IsBlank(rawText) then Ignored
    else if custom != [] then Parsed(custom)
    else Found(QuizParse.GenericQuizzes(blocks, rawText))
  }

  /** The corrected handler never gets stuck, keeps every custom parse,
      falls back to the generic parser otherwise, and agrees with the
      handler as written wherever that one does not reach the undeclared
      setter. */
  lemma ParseRawTextSettles(rawText: string, custom: seq<QuizParse.ParsedQuiz>, blocks: seq<string>)
    ensures ParseRawText(rawText, custom, blocks) != Stuck
    ensures ParseRawText(rawText, custom, blocks) == Ignored <==> IsBlank(rawText)
    ensures !IsBlank(rawText) && custom != [] ==> ParseRawText(rawText, custom, blocks) == Parsed(custom)
    ensures !IsBlank(rawText) && custom == [] ==>
      (ParseRawText(rawText, custom, blocks) == NoQuizzes <==> QuizParse.GenericQuizzes(blocks, rawText) == [])
    ensures custom == [] && ParseRawText(rawText, custom, blocks).Parsed? ==>
      forall q :: q in ParseRawText(rawText, custom, blocks).quizzes ==>
        q.question != [] && |q.options| >= 2 && q.correctOption >= 0
    ensures (custom != [] && custom[0].scheduledAt.None?) || (custom == [] && !QuizParse.ContainsSchedule(rawText)) ==>
      ParseRawTextAsWritten(rawText, custom, blocks) == ParseRawText(rawText, custom, blocks)
  {
    QuizParse.GenericWellFormed(blocks, rawText);
  }

  /** The fields `updateQuiz(index, field, value)` is called with. */
  datatype QuizEdit = SetQuestion(text: string) | SetCorrectOption(index: int) | SetExplanation(text: string)

  function Edited(q: Quiz, e: QuizEdit): (r: Quiz)
    ensures r.id == q.id && r.scheduledAt == q.scheduledAt && r.options == q.options
    ensures e.SetQuestion? ==> r == q.(question := e.text)
    ensures e.SetCorrectOption? ==> r == q.(correctOption := e.index)
    ensures e.SetExplanation? ==> r == q.(explanation := e.text)
  {
    match e
    case SetQuestion(t) => q.(question := t)
    case SetCorrectOption(k) => q.(correctOption := k)
    case SetExplanation(t) => q.(explanation := t)
  }

  /** `filter((_, i) => i !== k)`. */
  function RemoveIndex(s: seq<string>, k: int): (r: seq<string>)
    ensures 0 <= k < |s| ==> |r| == |s| - 1
    ensures 0 <= k < |s| ==> forall i :: 0 <= i < |r| ==> r[i] == (if i < k then s[i] else s[i + 1])
    ensures !(0 <= k < |s|) ==> r == s
  {
    if 0 <= k < |s| then s[..k] + s[k + 1..] else s
  }

  /** The answer index after option `k` is removed. */
  function ShiftedAnswer(c: int, k: int): int {
    if c == k then 0 else if c > k then c - 1 else c
  }

  /** Removing an option other than the answer leaves the answer index on
      the same option text; removing the answer resets it to 0. */
  lemma RemoveOptionKeepsAnswer(opts: seq<string>, c: int, k: int)
    requires 0 <= k < |opts| && 0 <= c < |opts|
    ensures c == k ==> ShiftedAnswer(c, k) == 0
    ensures c != k ==> 0 <= ShiftedAnswer(c, k) < |RemoveIndex(opts, k)|
                       && RemoveIndex(opts, k)[ShiftedAnswer(c, k)] == opts[c]
  {
  }

  /** Poll option counts stay between 2 and 10 under the option edits. */
  predicate OptionCountOk(q: Quiz) {
    2 <= |q.options| <= 10
  }

  /** The quiz list the editor callbacks update. */
  class QuizList {
    var quizzes: seq<Quiz>

    constructor (quizzes: seq<Quiz>)
      ensures this.quizzes == quizzes
    {
      this.quizzes := quizzes;
    }

    /** `removeQuiz`: `splice(index, 1)` on a copy. */
    method RemoveQuiz(index: nat)
      modifies this
      ensures index < |old(quizzes)| ==> quizzes == old(quizzes)[..index] + old(quizzes)[index + 1..]
      ensures index >= |old(quizzes)| ==> quizzes == old(quizzes)
    {
      if index < |quizzes| {
        quizzes := quizzes[..index] + quizzes[index + 1..];
      }
    }

    /** `handleManualAdd`: a blank two-option quiz at the end. */
    method AddManual(now: nat)
      modifies this
      ensures quizzes == old(quizzes) + [Quiz("quiz-" + NatToString(now), "", ["", ""], 0, "", None)]
    {
      quizzes := quizzes + [Quiz("quiz-" + NatToString(now), "", ["", ""], 0, "", None)];
    }

    /** `updateQuiz(index, field, value)`. */
    method UpdateQuiz(index: nat, e: QuizEdit)
      requires index < |quizzes|
      modifies this
      ensures quizzes == old(quizzes)[index := Edited(old(quizzes)[index], e)]
    {
      quizzes := quizzes[index := Edited(quizzes[index], e)];
    }

    /** `updateOption(qIndex, oIndex, value)`. */
    method UpdateOption(qIndex: nat, oIndex: nat, value: string)
      requires qIndex < |quizzes| && oIndex < |quizzes[qIndex].options|
      modifies this
      ensures |quizzes| == |old(quizzes)|
      ensures forall i :: 0 <= i < |quizzes| && i != qIndex ==> quizzes[i] == old(quizzes)[i]
      ensures quizzes[qIndex] == old(quizzes)[qIndex].(options := old(quizzes)[qIndex].options[oIndex := value])
    {
      var q := quizzes[qIndex];
      quizzes := quizzes[qIndex := q.(options := q.options[oIndex := value])];
    }

    /** `addOption`: nothing at ten options, otherwise an empty option. */
    method AddOption(qIndex: nat)
      requires qIndex < |quizzes|
      modifies this
      ensures |old(quizzes)[qIndex].options| >= 10 ==> quizzes == old(quizzes)
      ensures |old(quizzes)[qIndex].options| < 10 ==>
        quizzes == old(quizzes)[qIndex := old(quizzes)[qIndex].(options := old(quizzes)[qIndex].options + [""])]
      ensures OptionCountOk(old(quizzes)[qIndex]) ==> OptionCountOk(quizzes[qIndex])
    {
      var q := quizzes[qIndex];
      if |q.options| >= 10 {
        return;
      }
      quizzes := quizzes[qIndex := q.(options := q.options + [""])];
    }

    /** `removeOption`: nothing at two options or fewer, otherwise the
        option goes and the answer index follows its option. */
    method RemoveOption(qIndex: nat, oIndex: int)
      requires qIndex < |quizzes|
      modifies this
      ensures |old(quizzes)[qIndex].options| <= 2 ==> quizzes == old(quizzes)
      ensures |old(quizzes)[qIndex].options| > 2 ==>
        var q := old(quizzes)[qIndex];
        quizzes == old(quizzes)[qIndex := q.(options := RemoveIndex(q.options, oIndex),
                                             correctOption := ShiftedAnswer(q.correctOption, oIndex))]
      ensures OptionCountOk(old(quizzes)[qIndex]) ==> OptionCountOk(quizzes[qIndex])
    {
      var q := quizzes[qIndex];
      if |q.options| <= 2 {
        return;
      }
      var opts := RemoveIndex(q.options, oIndex);
      var c := q.correctOption;
      if c == oIndex {
        c := 0;
      } else if c > oIndex {
        c := c - 1;
      }
      quizzes := quizzes[qIndex := q.(options := opts, correctOption := c)];
    }

    /** `duplicateQuiz`: a copy with a fresh id right after the original. */
    method DuplicateQuiz(index: nat, cloneId: string)
      requires index < |quizzes|
      modifies this
      ensures quizzes == old(quizzes)[..index + 1] + [old(quizzes)[index].(id := cloneId)] + old(quizzes)[index + 1..]
    {
      var clone := quizzes[index].(id := cloneId);
      quizzes := quizzes[..index + 1] + [clone] + quizzes[index + 1..];
    }
  }

  // ---------------------------------------------------------- validation

  /** `String.fromCharCode(65 + j)`: the option letter in messages. */
  function OptionLetter(j: nat): char {
    if 65 + j < 0xD800 then (65 + j) as char else '?'
  }

  function QuestionLabel(i: nat): string {
    "Error in Question " + NatToString(i + 1)
  }

  /** The message for the first bad option from `j` on, if any. */
  function OptionsError(i: nat, options: seq<string>, j: nat): (r: Option<string>)
    requires j <= |options|
    ensures r.None? <==> forall k :: j <= k < |options| ==> !IsBlank(options[k]) && Utf16Length(options[k]) <= 100
    decreases |options| - j
  {
    if j == |options| then None
    else if IsBlank(options[j]) then
      Some(QuestionLabel(i) + ", Option " + [OptionLetter(j)] + ": Option text cannot be empty.")
    else if Utf16Length(options[j]) > 100 then
      Some(QuestionLabel(i) + ", Option " + [OptionLetter(j)] + ": Length (" + NatToString(Utf16Length(options[j])) + ") exceeds 100 characters.")
    else OptionsError(i, options, j + 1)
  }

  /** A quiz the submit loop lets through. */
  predicate QuizValid(q: Quiz) {
    !IsBlank(q.question) && Utf16Length(q.question) <= 300 && Utf16Length(q.explanation) <= 200
    && forall k :: 0 <= k < |q.options| ==> !IsBlank(q.options[k]) && Utf16Length(q.options[k]) <= 100
  }

  /** The message for quiz number `i`, if it is rejected. */
  function QuizError(i: nat, q: Quiz): (r: Option<string>)
    ensures r.None? <==> QuizValid(q)
  {
    if IsBlank(q.question) then Some(QuestionLabel(i) + ": Question text cannot be empty.")
    else if Utf16Length(q.question) > 300 then
      Some(QuestionLabel(i) + ": Question length (" + NatToString(Utf16Length(q.question)) + ") exceeds 300 characters.")
    else if Utf16Length(q.explanation) > 200 then
      Some(QuestionLabel(i) + ": Explanation length (" + NatToString(Utf16Length(q.explanation)) + ") exceeds 200 characters.")
    else OptionsError(i, q.options, 0)
  }

  /** The limits count UTF-16 code units: a question of 151 characters
      outside the Basic Multilingual Plane (emoji, say) is 302 units long
      and is rejected, though it has only 151 characters. */
  lemma AstralQuestionRejected(i: nat, q: Quiz)
    requires |q.question| == 151 && forall k :: 0 <= k < |q.question| ==> IsAstral(q.question[k])
    ensures !QuizValid(q)
    ensures QuizError(i, q) == Some(QuestionLabel(i) + ": Question length (" + NatToString(302) + ") exceeds 300 characters.")
  {
    assert !IsSpace(q.question[0]) && !IsSpace(q.question[150]);
    assert Trim(q.question) == q.question;
    assert Utf16Length(q.question) == 302;
  }

  /** The first rejected quiz from position `i` on. */
  function FirstQuizError(quizzes: seq<Quiz>, i: nat): (r: Option<string>)
    requires i <= |quizzes|
    ensures r.None? <==> forall k :: i <= k < |quizzes| ==> QuizValid(quizzes[k])
    decreases |quizzes| - i
  {
    if i == |quizzes| then None
    else if QuizError(i, quizzes[i]).Some? then QuizError(i, quizzes[i])
    else FirstQuizError(quizzes, i + 1)
  }

  /** The checks of `handleSubmit`, in order. */
  function SubmitError(taskName: string, quizzes: seq<Quiz>, selected: seq<string>): Option<string> {
    if IsBlank(taskName) then Some("Please enter a task name prefix")
    else if quizzes == [] then Some("Please add at least one quiz question")
    else if selected == [] then Some("Please select at least one target channel/group")
    else FirstQuizError(quizzes, 0)
  }

  /** Submission goes ahead exactly when there is a name, a quiz and a
      target, and every quiz is within Telegram's poll limits. */
  lemma SubmitAcceptedIff(taskName: string, quizzes: seq<Quiz>, selected: seq<string>)
    ensures SubmitError(taskName, quizzes, selected).None? <==>
      !IsBlank(taskName) && |quizzes| > 0 && |selected| > 0
      && forall k :: 0 <= k < |quizzes| ==> QuizValid(quizzes[k])
  {
  }

  /** The validation part of `handleSubmit`: the three guards, then the
      nested loops over quizzes and their options. */
  method ValidateSubmission(taskName: string, quizzes: seq<Quiz>, selected: seq<string>)
    returns (error: Option<string>)
    ensures error == SubmitError(taskName, quizzes, selected)
  {
    if IsBlank(taskName) {
      return Some("Please enter a task name prefix");
    }
    if |quizzes| == 0 {
      return Some("Please add at least one quiz question");
    }
    if |selected| == 0 {
      return Some("Please select at least one target channel/group");
    }
    var i := 0;
    while i < |quizzes|
      invariant 0 <= i <= |quizzes|
      invariant FirstQuizError(quizzes, 0) == FirstQuizError(quizzes, i)
    {
      var q := quizzes[i];
      if IsBlank(q.question) {
        return Some(QuestionLabel(i) + ": Question text cannot be empty.");
      }
      if Utf16Length(q.question) > 300 {
        return Some(QuestionLabel(i) + ": Question length (" + NatToString(Utf16Length(q.question)) + ") exceeds 300 characters.");
      }
      if Utf16Length(q.explanation) > 200 {
        return Some(QuestionLabel(i) + ": Explanation length (" + NatToString(Utf16Length(q.explanation)) + ") exceeds 200 characters.");
      }
      var j := 0;
      while j < |q.options|
        invariant 0 <= j <= |q.options|
        invariant OptionsError(i, q.options, 0) == OptionsError(i, q.options, j)
      {
        if IsBlank(q.options[j]) {
          return Some(QuestionLabel(i) + ", Option " + [OptionLetter(j)] + ": Option text cannot be empty.");
        }
        if Utf16Length(q.options[j]) > 100 {
          return Some(QuestionLabel(i) + ", Option " + [OptionLetter(j)] + ": Length (" + NatToString(Utf16Length(q.options[j])) + ") exceeds 100 characters.");
        }
        j := j + 1;
      }
      i := i + 1;
    }
    return None;
  }

  // ------------------------------------------------------------- payload

  /** When a poll is to go out. */
  datatype SendAt = Unscheduled | FromQuiz(block: QuizParse.BlockTime) | FromPicker(at: ScheduleTime.LocalTime)

  /** The body of one `scheduleTask` call. */
  datatype PollPayload = PollPayload(
    name: string,
    question: string,
    options: seq<string>,
    correctOption: int,
    explanation: string,
    targetIds: seq<string>,
    scheduledAt: SendAt,
    mode: string,
    delayMinutes: int,
    expiryHours: Option<string>)

  /** The form state `handleSubmit` reads besides the quizzes. */
  datatype QuizForm = QuizForm(
    taskName: string,
    selected: seq<string>,
    ordered: seq<ChannelOrder.Channel>,
    known: map<string, EntityObj>,
    mode: string,
    delayMinutes: int,
    scheduleDate: string,
    scheduleTime: string,
    expiryHours: string)

  /** `entity ? entity.telegramId : id`: Telegram chat ids for the sender. */
  function ChatId(id: string, known: map<string, EntityObj>): string {
    if id in known then known[id].telegramId else id
  }

  function ChatIds(ids: seq<string>, known: map<string, EntityObj>): (r: seq<string>)
    ensures |r| == |ids| && forall k :: 0 <= k < |ids| ==> r[k] == ChatId(ids[k], known)
  {
    seq(|ids|, k requires 0 <= k < |ids| => ChatId(ids[k], known))
  }

  /** The targets: the selection in selection order, or the priority list
      in delay mode, each resolved to its chat id. */
  function PollTargets(f: QuizForm): (r: seq<string>)
    ensures f.mode != "delay" ==> r == ChatIds(f.selected, f.known)
    ensures f.mode == "delay" ==> r == ChatIds(ChannelOrder.Ids(f.ordered), f.known)
  {
    if f.mode == "delay" then ChatIds(ChannelOrder.Ids(f.ordered), f.known)
    else ChatIds(f.selected, f.known)
  }

  /** `' (Part i+1)'` when there is more than one quiz. */
  function PartSuffix(count: nat, i: nat): string {
    if count > 1 then " (Part " + NatToString(i + 1) + ")" else ""
  }

  /** The payload for quiz `i` of `count`, or the error the global
      schedule's `toISOString` throws. */
  function PayloadFor(f: QuizForm, count: nat, i: nat, q: Quiz): (r: Result<PollPayload, string>)
    ensures r.Ok? ==> r.value.name == Trim(f.taskName) + PartSuffix(count, i)
    ensures r.Ok? ==> r.value.question == q.question && r.value.options == q.options
                      && r.value.correctOption == q.correctOption && r.value.explanation == q.explanation
    ensures r.Ok? ==> r.value.targetIds == PollTargets(f)
    ensures r.Ok? ==> r.value.delayMinutes == (if f.mode == "delay" then f.delayMinutes else 0)
    ensures q.scheduledAt.Some? ==> r.Ok? && r.value.scheduledAt == FromQuiz(q.scheduledAt.value)
    ensures r.Err? ==> q.scheduledAt.None? && f.mode == "schedule"
    ensures r.Ok? && q.scheduledAt.None? && (f.mode != "schedule" || f.scheduleDate == [] || f.scheduleTime == [])
            ==> r.value.scheduledAt == Unscheduled
  {
    var at: Result<SendAt, string> :=
      if q.scheduledAt.Some? then Ok(FromQuiz(q.scheduledAt.value))
      else if f.mode == "schedule" && f.scheduleDate != [] && f.scheduleTime != [] then
        match ScheduleTime.ReadScheduleTime(f.scheduleDate, f.scheduleTime)
        case Ok(t) => Ok(FromPicker(t))
        case Err(e) => Err(e)
      else Ok(Unscheduled);
    match at
    case Err(e) => Err(e)
    case Ok(when) =>
      Ok(PollPayload(Trim(f.taskName) + PartSuffix(count, i), q.question, q.options, q.correctOption,
        q.explanation, PollTargets(f), when, f.mode, if f.mode == "delay" then f.delayMinutes else 0,
        if f.expiryHours != [] then Some(f.expiryHours) else None))
  }

  /** The part number inside a numbered name. */
  lemma PartDigits(count: nat, i: nat)
    requires count > 1
    ensures var s := PartSuffix(count, i); |s| >= 8 && s[7..|s| - 1] == NatToString(i + 1)
  {
  }

  /** A single quiz keeps the plain task name; with several, the names are
      numbered from 1 and no two coincide. */
  lemma PartNames(count: nat, i: nat, j: nat)
    requires i < j < count
    ensures PartSuffix(1, 0) == ""
    ensures PartSuffix(count, i) != PartSuffix(count, j)
  {
    var si, sj := PartSuffix(count, i), PartSuffix(count, j);
    PartDigits(count, i);
    PartDigits(count, j);
    DistinctNumerals(i + 1, j + 1);
    assert si[7..|si| - 1] != sj[7..|sj| - 1];
  }

  lemma DistinctNumerals(a: nat, b: nat)
    requires a != b
    ensures NatToString(a) != NatToString(b)
  {
    NatToStringValue(a);
    NatToStringValue(b);
  }

  datatype SubmitOutcome = Rejected(message: string) | Sent(payloads: seq<PollPayload>, failure: Option<string>)

  /** `handleSubmit`: validation, then one `scheduleTask` call per quiz in
      list order. A global schedule that cannot be read throws inside the
      `map`, after the earlier quizzes' calls were already issued. */
  method SubmitQuizzes(f: QuizForm, quizzes: seq<Quiz>) returns (out: SubmitOutcome)
    ensures SubmitError(f.taskName, quizzes, f.selected).Some? <==> out.Rejected?
    ensures out.Rejected? ==> out.message == SubmitError(f.taskName, quizzes, f.selected).value
    ensures out.Sent? ==> |out.payloads| <= |quizzes|
    ensures out.Sent? ==> forall k :: 0 <= k < |out.payloads| ==>
              PayloadFor(f, |quizzes|, k, quizzes[k]) == Ok(out.payloads[k])
    ensures out.Sent? && out.failure.None? ==> |out.payloads| == |quizzes|
    ensures out.Sent? && out.failure.Some? ==>
              |out.payloads| < |quizzes| && PayloadFor(f, |quizzes|, |out.payloads|, quizzes[|out.payloads|]).Err?
  {
    var error := ValidateSubmission(f.taskName, quizzes, f.selected);
    if error.Some? {
      return Rejected(error.value);
    }
    var sent: seq<PollPayload> := [];
    ghost var outcomes := Payloads(f, quizzes);
    var i := 0;
    while i < |quizzes|
      invariant 0 <= i <= |quizzes| && |sent| == i
      invariant forall k :: 0 <= k < i ==> outcomes[k] == Ok(sent[k])
    {
      var p := PayloadFor(f, |quizzes|, i, quizzes[i]);
      if p.Err? {
        return Sent(sent, Some(p.error));
      }
      PrefixStep(outcomes, sent, p.value);
      sent := sent + [p.value];
      i := i + 1;
    }
    return Sent(sent, None);
  }

  /** Every quiz's payload, or the error that stops the sends. */
  function Payloads(f: QuizForm, quizzes: seq<Quiz>): (rs: seq<Result<PollPayload, string>>)
    ensures |rs| == |quizzes|
    ensures forall k :: 0 <= k < |quizzes| ==> rs[k] == PayloadFor(f, |quizzes|, k, quizzes[k])
  {
    seq(|quizzes|, k requires 0 <= k < |quizzes| => PayloadFor(f, |quizzes|, k, quizzes[k]))
  }

  /** Appending the next successful outcome keeps `sent` the successful
      prefix of `outcomes`. */
  lemma PrefixStep<T>(outcomes: seq<Result<T, string>>, sent: seq<T>, p: T)
    requires |sent| < |outcomes| && outcomes[|sent|] == Ok(p)
    requires forall k :: 0 <= k < |sent| ==> outcomes[k] == Ok(sent[k])
    ensures forall k :: 0 <= k < |sent| + 1 ==> outcomes[k] == Ok((sent + [p])[k])
  {
    forall k | 0 <= k < |sent| + 1 ensures outcomes[k] == Ok((sent + [p])[k]) {
      if k < |sent| {
        assert (sent + [p])[k] == sent[k];
      }
    }
  }

  /** With a readable picker value, or outside schedule mode, every quiz
      is sent. */
  lemma NoScheduleFailure(f: QuizForm, count: nat, i: nat, q: Quiz)
    requires f.mode != "schedule" || f.scheduleDate == [] || f.scheduleTime == []
             || ScheduleTime.ReadScheduleTime(f.scheduleDate, f.scheduleTime).Ok?
    ensures PayloadFor(f, count, i, q).Ok?
  {
  }
}
