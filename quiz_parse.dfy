/** The quiz builder's line-based fallback parser (`parseBlock` and the loop
    over blank-line separated blocks). Each regular expression the parser
    uses is written out as a matcher on the trimmed line, including the
    backtracking cases that decide what the capture groups hold. */
module QuizParse {
  import opened Wrappers
  import opened Text

  datatype Period = AM | PM

  /** `Date: d/m/yyyy` as the day, month and year numbers it is split into. */
  datatype DateFields = DateFields(day: nat, month: nat, year: nat)

  /** `Time: h:mm [AM|PM]`. */
  datatype TimeFields = TimeFields(hour: nat, minute: nat, period: Option<Period>)

  /** The arguments of `new Date(year, month - 1, day, hour, minute)`. */
  datatype BlockTime = BlockTime(year: nat, month: nat, day: nat, hour: int, minute: nat)

  /** The object `parseBlock` returns. */
  datatype ParsedQuiz = ParsedQuiz(
    question: string,
    options: seq<string>,
    correctOption: int,
    explanation: string,
    scheduledAt: Option<BlockTime>)

  /** The loop variables `q`, `opts`, `corr`, `exp`, `dateStr`, `timeStr`. */
  datatype BlockState = BlockState(
    q: string,
    opts: seq<string>,
    corr: int,
    exp: string,
    date: Option<DateFields>,
    time: Option<TimeFields>)

  const Start := BlockState([], [], -1, [], None, None)

  // ------------------------------------------------------------ matchers

  /** The value of the first `n` characters, all digits. */
  function RunValue(s: string, n: nat): nat
    requires n <= DigitRun(s)
  {
    DigitRunDigits(s);
    assert forall i :: 0 <= i < n ==> s[..n][i] == s[..DigitRun(s)][i];
    DigitsValue(s[..n])
  }

  /** `[A-J]` under the `i` flag. */
  predicate IsOptionLetter(c: char) {
    'A' <= c <= 'J' || 'a' <= c <= 'j'
  }

  /** `/^(Question:|Que:|Q:|\d+\.)/i`: the length of the matched prefix. */
  function QuestionPrefix(t: string): (r: Option<nat>)
    ensures r.Some? ==> 0 < r.value <= |t|
  {
    if StartsWithIgnoringCase(t, "question:") then Some(9)
    else if StartsWithIgnoringCase(t, "que:") then Some(4)
    else if StartsWithIgnoringCase(t, "q:") then Some(2)
    else
      var d := DigitRun(t);
      if 0 < d < |t| && t[d] == '.' then Some(d + 1) else None
  }

  /** `/^(Answer:|Ans:|Correct:)/i`. */
  predicate AnswerPrefix(t: string) {
    StartsWithIgnoringCase(t, "answer:") || StartsWithIgnoringCase(t, "ans:")
    || StartsWithIgnoringCase(t, "correct:")
  }

  /** `/^(Explanation:|Exp:|Solution:)/i`: the length of the prefix. */
  function ExplanationPrefix(t: string): (r: Option<nat>)
    ensures r.Some? ==> r.value <= |t|
  {
    if StartsWithIgnoringCase(t, "explanation:") then Some(12)
    else if StartsWithIgnoringCase(t, "exp:") then Some(4)
    else if StartsWithIgnoringCase(t, "solution:") then Some(9)
    else None
  }

  /** `/^(Answer|Ans|Correct|Explanation|Exp|Solution)/i`. */
  predicate KeywordPrefix(t: string) {
    StartsWithIgnoringCase(t, "ans") || StartsWithIgnoringCase(t, "correct")
    || StartsWithIgnoringCase(t, "exp") || StartsWithIgnoringCase(t, "solution")
  }

  /** `trimmed.split(':')[1]?.trim().toUpperCase()`, then the letter A..J
      as 0..9 or a leading digit 1..9 as `parseInt(ansText) - 1`; anything
      else leaves `corr` as it was. */
  function AnswerChoice(t: string, corr: int): int {
    var parts := Split(t, ':');
    if |parts| < 2 then corr else AnswerTextChoice(Upper(Trim(parts[1])), corr)
  }

  /** The choice an upper-cased answer text selects. */
  function AnswerTextChoice(a: string, corr: int): int {
    if a == [] then corr
    else if 'A' <= a[0] <= 'J' then a[0] as int - 'A' as int
    else if '1' <= a[0] <= '9' then
      match ParseInt(a)
      case Some(v) => v - 1
      case None => corr
    else corr
  }

  /** `/^([A-J]\)|[A-J]\.|[1-9]\.|Option\s+\d+:?)\s*(.+)/i` on a trimmed
      line, giving `match[2].trim()`. */
  function OptionText(t: string): Option<string> {
    if |t| >= 2 && IsOptionLetter(t[0]) && (t[1] == ')' || t[1] == '.') then
      if |t| > 2 then Some(Trim(t[2..])) else None
    else if |t| >= 2 && '1' <= t[0] <= '9' && t[1] == '.' then
      if |t| > 2 then Some(Trim(t[2..])) else None
    else if StartsWithIgnoringCase(t, "option") then OptionNumbered(t[6..])
    else None
  }

  /** `\s+\d+:?\s*(.+)` after the word `Option`. With nothing after the
      number, the regular expression backtracks: the last digit becomes the
      text (when the number has two or more digits), and a lone `:` is
      itself the text. */
  function OptionNumbered(rest: string): Option<string> {
    var w := SpaceRun(rest);
    if w == 0 then None
    else
      var after := rest[w..];
      var d := DigitRun(after);
      if d == 0 then None
      else
        var tail := after[d..];
        if tail == [] then (if d >= 2 then Some([after[d - 1]]) else None)
        else if tail[0] == ':' then (if |tail| == 1 then Some(":") else Some(Trim(tail[1..])))
        else Some(Trim(tail))
  }

  predicate IsDateSeparator(c: char) {
    c == '/' || c == '-'
  }

  /** `/^Date\s*:\s*(\d{1,2}[\/\-]\d{1,2}[\/\-]\d{2,4})/i`, split into its
      three numbers. */
  function DateLine(t: string): Option<DateFields> {
    if !StartsWithIgnoringCase(t, "date") then None
    else
      var a := t[4..];
      var i := SpaceRun(a);
      if i >= |a| || a[i] != ':' then None
      else
        var b := a[i + 1..];
        DateText(b[SpaceRun(b)..])
  }

  /** `\d{1,2}[\/\-]\d{1,2}[\/\-]\d{2,4}`: the day and month runs must be
      one or two digits, the year takes up to four of its digits. */
  function DateText(c: string): Option<DateFields> {
    var d1 := DigitRun(c);
    if d1 < 1 || d1 > 2 || d1 >= |c| || !IsDateSeparator(c[d1]) then None
    else
      var c2 := c[d1 + 1..];
      var d2 := DigitRun(c2);
      if d2 < 1 || d2 > 2 || d2 >= |c2| || !IsDateSeparator(c2[d2]) then None
      else
        var c3 := c2[d2 + 1..];
        var d3 := DigitRun(c3);
        if d3 < 2 then None
        else Some(DateFields(RunValue(c, d1), RunValue(c2, d2), RunValue(c3, if d3 > 4 then 4 else d3)))
  }

  /** `/^Time\s*:\s*(\d{1,2}:\d{2}\s*(?:AM|PM)?)/i` and the later
      `/(\d+):(\d+)\s*(AM|PM)?/i` on the upper-cased capture. */
  function TimeLine(t: string): Option<TimeFields> {
    if !StartsWithIgnoringCase(t, "time") then None
    else
      var a := t[4..];
      var i := SpaceRun(a);
      if i >= |a| || a[i] != ':' then None
      else
        var b := a[i + 1..];
        TimeText(b[SpaceRun(b)..])
  }

  function TimeText(c: string): Option<TimeFields> {
    var h := DigitRun(c);
    if h < 1 || h > 2 || |c| < h + 3 || c[h] != ':' || !IsDigit(c[h + 1]) || !IsDigit(c[h + 2]) then None
    else
      var after := c[h + 3..];
      var p := after[SpaceRun(after)..];
      var period := if StartsWithIgnoringCase(p, "am") then Some(AM)
                    else if StartsWithIgnoringCase(p, "pm") then Some(PM) else None;
      Some(TimeFields(RunValue(c, h), 10 * DigitValue(c[h + 1]) + DigitValue(c[h + 2]), period))
  }

  /** `/scheduled on (\d{1,2}\/\d{1,2}\/\d{4}) at (\d{1,2}(?::\d{2})?\s*(?:AM|PM))/i`
      matched at the start of `t`. */
  predicate ScheduleAt(t: string) {
    StartsWithIgnoringCase(t, "scheduled on ") &&
    var c := t[13..];
    var d1 := DigitRun(c);
    1 <= d1 <= 2 && d1 < |c| && c[d1] == '/' &&
    var c2 := c[d1 + 1..];
    var d2 := DigitRun(c2);
    1 <= d2 <= 2 && d2 < |c2| && c2[d2] == '/' &&
    var c3 := c2[d2 + 1..];
    DigitRun(c3) >= 4 && StartsWithIgnoringCase(c3[4..], " at ") &&
    var e := c3[8..];
    var hr := DigitRun(e);
    1 <= hr <= 2 &&
    var f := e[hr..];
    var g := if |f| >= 3 && f[0] == ':' && IsDigit(f[1]) && IsDigit(f[2]) then f[3..] else f;
    var p := g[SpaceRun(g)..];
    StartsWithIgnoringCase(p, "am") || StartsWithIgnoringCase(p, "pm")
  }

  /** `scheduleRegex.test(trimmed)`: the pattern occurs anywhere. */
  predicate ContainsSchedule(t: string)
    ensures ContainsSchedule(t) ==> |t| >= 13
  {
    t != [] && (ScheduleAt(t) || ContainsSchedule(t[1..]))
  }

  // ------------------------------------------------------------- parsing

  /** One pass of the `for (const line of lines)` body. */
  function Step(st: BlockState, line: string): BlockState {
    var t := Trim(line);
    if ContainsSchedule(t) then st
    else if DateLine(t).Some? then st.(date := DateLine(t))
    else if TimeLine(t).Some? then st.(time := TimeLine(t))
    else if QuestionPrefix(t).Some? && st.q == [] then st.(q := Trim(t[QuestionPrefix(t).value..]))
    else if st.q == [] && st.opts == [] then st.(q := t)
    else if AnswerPrefix(t) then st.(corr := AnswerChoice(t, st.corr))
    else if ExplanationPrefix(t).Some? then st.(exp := Trim(t[ExplanationPrefix(t).value..]))
    else if OptionText(t).Some? then st.(opts := st.opts + [OptionText(t).value])
    else if st.opts != [] && !KeywordPrefix(t) && |st.opts| < 10 then st.(opts := st.opts + [t])
    else st
  }

  /** The loop state after the given lines. */
  function RunLines(lines: seq<string>): BlockState {
    if lines == [] then Start
    else Step(RunLines(lines[..|lines| - 1]), lines[|lines| - 1])
  }

  /** `block.split('\n').filter(l => l.trim())`. */
  function NonBlankLines(lines: seq<string>): (r: seq<string>)
    ensures forall l :: l in r <==> l in lines && !IsBlank(l)
  {
    if lines == [] then []
    else (if IsBlank(lines[0]) then [] else [lines[0]]) + NonBlankLines(lines[1..])
  }

  /** The 12-hour adjustment inside a block: PM below 12 adds 12, 12 AM is 0. */
  function BlockHour(t: TimeFields): int {
    if t.period == Some(PM) && t.hour < 12 then t.hour + 12
    else if t.period == Some(AM) && t.hour == 12 then 0
    else t.hour
  }

  /** The quiz a finished loop state yields: a question and at least two
      options are required; `correctOption` is `Math.max(0, corr)`. */
  function Finish(st: BlockState): (r: Option<ParsedQuiz>)
    ensures r.Some? <==> st.q != [] && |st.opts| >= 2
    ensures r.Some? ==> r.value.question == st.q && r.value.options == st.opts
                        && r.value.explanation == st.exp
                        && r.value.correctOption >= 0
                        && (st.corr >= 0 ==> r.value.correctOption == st.corr)
                        && (st.corr < 0 ==> r.value.correctOption == 0)
    ensures r.Some? ==> (r.value.scheduledAt.Some? <==> st.date.Some? && st.time.Some?)
  {
    if st.q != [] && |st.opts| >= 2 then
      var when := if st.date.Some? && st.time.Some? then
          var d := st.date.value;
          Some(BlockTime(d.year, d.month, d.day, BlockHour(st.time.value), st.time.value.minute))
        else None;
      Some(ParsedQuiz(st.q, st.opts, if st.corr < 0 then 0 else st.corr, st.exp, when))
    else None
  }

  /** What `parseBlock(block)` returns. */
  function ParsedBlock(block: string): Option<ParsedQuiz> {
    if IsBlank(block) then None
    else Finish(RunLines(NonBlankLines(Split(block, '\n'))))
  }

  /** `parseBlock`: the loop over the block's non-blank lines. */
  method ParseBlock(block: string) returns (quiz: Option<ParsedQuiz>)
    ensures quiz == ParsedBlock(block)
  {
    if IsBlank(block) {
      return None;
    }
    var lines := NonBlankLines(Split(block, '\n'));
    var q, opts, corr, exp := [], [], -1, [];
    var date: Option<DateFields>, time: Option<TimeFields> := None, None;
    var i := 0;
    while i < |lines|
      invariant 0 <= i <= |lines|
      invariant BlockState(q, opts, corr, exp, date, time) == RunLines(lines[..i])
    {
      assert lines[..i + 1][..i] == lines[..i];
      q, opts, corr, exp, date, time := ParseLine(q, opts, corr, exp, date, time, lines[i]);
      i := i + 1;
    }
    assert lines[..i] == lines;
    quiz := Finish(BlockState(q, opts, corr, exp, date, time));
  }

  /** The body of the line loop: the first matching branch updates its
      variable. */
  method ParseLine(q: string, opts: seq<string>, corr: int, exp: string,
                   date: Option<DateFields>, time: Option<TimeFields>, line: string)
    returns (q': string, opts': seq<string>, corr': int, exp': string,
             date': Option<DateFields>, time': Option<TimeFields>)
    ensures BlockState(q', opts', corr', exp', date', time')
         == Step(BlockState(q, opts, corr, exp, date, time), line)
  {
    q', opts', corr', exp', date', time' := q, opts, corr, exp, date, time;
    var t := Trim(line);
    if ContainsSchedule(t) {
    } else if DateLine(t).Some? {
      date' := DateLine(t);
    } else if TimeLine(t).Some? {
      time' := TimeLine(t);
    } else if QuestionPrefix(t).Some? && q == [] {
      q' := Trim(t[QuestionPrefix(t).value..]);
    } else if q == [] && opts == [] {
      q' := t;
    } else if AnswerPrefix(t) {
      corr' := AnswerChoice(t, corr);
    } else if ExplanationPrefix(t).Some? {
      exp' := Trim(t[ExplanationPrefix(t).value..]);
    } else if OptionText(t).Some? {
      opts' := opts + [OptionText(t).value];
    } else if opts != [] && !KeywordPrefix(t) {
      if |opts| < 10 {
        opts' := opts + [t];
      }
    }
  }

  // ----------------------------------------------------------- properties

  /** A line adds at most one option, and only at the end. */
  lemma StepOptions(st: BlockState, line: string)
    ensures var r := Step(st, line);
      (r.opts == st.opts || (|r.opts| == |st.opts| + 1 && r.opts[..|st.opts|] == st.opts))
  {
  }

  /** Continuation lines stop at ten options: once there are ten, only a
      line with an explicit option marker can add one. */
  lemma ContinuationCapped(st: BlockState, line: string)
    requires |st.opts| >= 10
    requires OptionText(Trim(line)).None?
    ensures Step(st, line).opts == st.opts
  {
  }

  /** Explicit option lines are not capped: an eleventh `A) ...` line is
      still added. */
  lemma ExplicitOptionsUncapped(st: BlockState)
    requires st.q != [] && |st.opts| == 10
    ensures |Step(st, "A) x").opts| == 11
  {
    var t := Trim("A) x");
    assert t == "A) x";
    assert !ContainsSchedule(t);
    assert Lower(t[..4]) == "a) x";
    assert DateLine(t).None? && TimeLine(t).None?;
    assert !StartsWithIgnoringCase(t, "answer:") && !StartsWithIgnoringCase(t, "ans:");
    assert !StartsWithIgnoringCase(t, "correct:");
    assert ExplanationPrefix(t).None?;
    assert t[2..] == " x" && Trim(" x") == "x";
    assert OptionText(t) == Some("x");
  }

  /** Options are only collected after a question: a state with options
      always has a question, and each line keeps it so. */
  lemma StepKeepsQuestionFirst(st: BlockState, line: string)
    requires st.opts != [] ==> st.q != []
    ensures var r := Step(st, line); r.opts != [] ==> r.q != []
  {
  }

  lemma {:induction false} RunKeepsQuestionFirst(lines: seq<string>)
    ensures var r := RunLines(lines); r.opts != [] ==> r.q != []
  {
    if lines != [] {
      RunKeepsQuestionFirst(lines[..|lines| - 1]);
      StepKeepsQuestionFirst(RunLines(lines[..|lines| - 1]), lines[|lines| - 1]);
    }
  }

  /** A short answer line reaches the answer branch once there is a
      question. */
  lemma StepAnswerLine(st: BlockState, line: string)
    requires st.q != [] && ShortAnswerLine(line)
    ensures Step(st, line).corr == AnswerChoice(line, st.corr)
  {
  }

  /** The answer text is what follows the first colon, up to the next. */
  lemma SplitAfterColon(head: string, rest: string)
    requires ':' !in head && ':' !in rest
    ensures |Split(head + [':'] + rest, ':')| == 2 && Split(head + [':'] + rest, ':')[1] == rest
  {
    Join2(head, rest, ':');
    SplitJoin([head, rest], ':');
  }

  /** A short line that starts with an answer keyword. */
  predicate ShortAnswerLine(line: string) {
    Trim(line) == line && AnswerPrefix(line) && |line| < 13
    && !StartsWithIgnoringCase(line, "date") && !StartsWithIgnoringCase(line, "time")
  }

  /** The ten answer letters: `Answer: A` .. `Answer: J` (or `Ans:`,
      `Correct:`, in either case) select options 0..9. */
  lemma AnswerLetter(st: BlockState, keyword: string, k: nat, lower: bool)
    requires keyword == "Answer:" || keyword == "Ans:" || keyword == "Correct:"
    requires st.q != [] && k < 10
    ensures var letter := ((if lower then 'a' else 'A') as int + k) as char;
            Step(st, keyword + " " + [letter]).corr == k
  {
    var letter := ((if lower then 'a' else 'A') as int + k) as char;
    var line := keyword + " " + [letter];
    LetterLineShape(keyword, letter);
    LetterLineChoice(keyword, letter, st.corr);
    StepAnswerLine(st, line);
  }

  lemma LetterLineShape(keyword: string, letter: char)
    requires keyword == "Answer:" || keyword == "Ans:" || keyword == "Correct:"
    requires IsOptionLetter(letter)
    ensures ShortAnswerLine(keyword + " " + [letter])
  {
    var line := keyword + " " + [letter];
    assert line[0] == keyword[0] && line[|line| - 1] == letter;
    assert !IsSpace(line[0]) && !IsSpace(line[|line| - 1]);
    assert line[..|keyword|] == keyword;
    KeywordLower(keyword);
    NotDateTime(line);
  }

  lemma KeywordLower(keyword: string)
    requires keyword == "Answer:" || keyword == "Ans:" || keyword == "Correct:"
    ensures Lower(keyword) == "answer:" || Lower(keyword) == "ans:" || Lower(keyword) == "correct:"
    ensures LowerChar(keyword[0]) == 'a' || LowerChar(keyword[0]) == 'c'
  {
    if keyword == "Answer:" {
      assert Lower(keyword) == "answer:";
    } else if keyword == "Ans:" {
      assert Lower(keyword) == "ans:";
    } else {
      assert Lower(keyword) == "correct:";
    }
  }

  /** A line whose first letter is `a` or `c` is neither a date nor a time
      line. */
  lemma NotDateTime(line: string)
    requires |line| >= 4 && (LowerChar(line[0]) == 'a' || LowerChar(line[0]) == 'c')
    ensures !StartsWithIgnoringCase(line, "date") && !StartsWithIgnoringCase(line, "time")
  {
    assert Lower(line[..4])[0] == LowerChar(line[0]);
  }

  lemma LetterLineChoice(keyword: string, letter: char, corr: int)
    requires keyword == "Answer:" || keyword == "Ans:" || keyword == "Correct:"
    requires IsOptionLetter(letter)
    ensures AnswerChoice(keyword + " " + [letter], corr) == UpperChar(letter) as int - 'A' as int
  {
    var head := keyword[..|keyword| - 1];
    var rest := [' ', letter];
    KeywordColon(keyword, letter);
    SpaceThen([letter]);
    AnswerAfterColon(head, rest, [letter], corr);
    assert Upper([letter]) == [UpperChar(letter)];
  }

  /** An answer keyword line is its keyword, a colon, and the rest. */
  lemma KeywordColon(keyword: string, letter: char)
    requires keyword == "Answer:" || keyword == "Ans:" || keyword == "Correct:"
    requires IsOptionLetter(letter)
    ensures keyword + " " + [letter] == keyword[..|keyword| - 1] + [':'] + [' ', letter]
    ensures ':' !in keyword[..|keyword| - 1] && ':' !in [' ', letter]
  {
  }

  /** A space in front of a non-blank string without surrounding spaces is
      trimmed off. */
  lemma SpaceThen(a: string)
    requires a != [] && !IsSpace(a[0]) && !IsSpace(a[|a| - 1])
    ensures Trim([' '] + a) == a
  {
    var rest := [' '] + a;
    assert IsSpace(rest[0]) && rest[1..] == a;
  }

  /** The answer text is the trimmed part after the only colon. */
  lemma AnswerAfterColon(head: string, rest: string, a: string, corr: int)
    requires ':' !in head && ':' !in rest && Trim(rest) == a
    ensures AnswerChoice(head + [':'] + rest, corr) == AnswerTextChoice(Upper(a), corr)
  {
    SplitAfterColon(head, rest);
  }

  /** A numeric answer `n` selects option `n - 1`, for every number that
      starts with 1..9; `Answer: 12` gives index 11. */
  lemma AnswerNumber(st: BlockState, n: nat)
    requires st.q != [] && 1 <= n < 1000
    ensures Step(st, "Answer: " + NatToString(n)).corr == n - 1
  {
    NumberLineShape(n);
    NumberLineChoice(n, st.corr);
    StepAnswerLine(st, "Answer: " + NatToString(n));
  }

  lemma NumberLineShape(n: nat)
    requires 1 <= n < 1000
    ensures ShortAnswerLine("Answer: " + NatToString(n))
  {
    var digits := NatToString(n);
    var line := "Answer: " + digits;
    NatToStringLength(n);
    assert !IsSpace(line[0]) && !IsSpace(line[|line| - 1]) by {
      assert line[|line| - 1] == digits[|digits| - 1];
    }
    assert line[..7] == "Answer:";
    assert Lower(line[..4]) == "answ";
  }

  lemma NumberLineChoice(n: nat, corr: int)
    requires 1 <= n
    ensures AnswerChoice("Answer: " + NatToString(n), corr) == n - 1
  {
    var digits := NatToString(n);
    var rest := [' '] + digits;
    NumberLineColon(digits);
    assert !IsSpace(digits[0]) && !IsSpace(digits[|digits| - 1]);
    SpaceThen(digits);
    AnswerAfterColon("Answer", rest, digits, corr);
    UpperDigits(digits);
    DigitsChoice(n, corr);
  }

  lemma NumberLineColon(digits: string)
    requires AllDigits(digits)
    ensures "Answer: " + digits == "Answer" + [':'] + ([' '] + digits)
    ensures ':' !in "Answer" && ':' !in [' '] + digits
  {
    var rest := [' '] + digits;
    forall k | 0 <= k < |rest| ensures rest[k] != ':' {
      if k > 0 { assert rest[k] == digits[k - 1]; }
    }
  }

  /** The number's digits select option `n - 1`. */
  lemma DigitsChoice(n: nat, corr: int)
    requires 1 <= n
    ensures AnswerTextChoice(NatToString(n), corr) == n - 1
  {
    NatToStringFirst(n);
    ParseIntOfNat(n, []);
    assert NatToString(n) + [] == NatToString(n);
  }

  lemma UpperDigits(digits: string)
    requires AllDigits(digits)
    ensures Upper(digits) == digits
  {
    forall k | 0 <= k < |digits| ensures Upper(digits)[k] == digits[k] {
      assert IsDigit(digits[k]);
    }
  }

  lemma {:induction false} NatToStringLength(n: nat)
    requires n < 1000
    ensures |NatToString(n)| <= 3
  {
    if n >= 10 {
      NatToStringLength(n / 10);
    }
  }

  /** A positive number's rendering starts with 1..9. */
  lemma {:induction false} NatToStringFirst(n: nat)
    requires n >= 1
    ensures '1' <= NatToString(n)[0] <= '9'
    decreases n
  {
    if n >= 10 {
      NatToStringFirst(n / 10);
    }
  }

  lemma Join2(a: string, b: string, sep: char)
    ensures Join([a, b], sep) == a + [sep] + b
  {
    assert [a, b][1..] == [b];
  }

  // ------------------------------------------------------ generic parser

  /** The quizzes found in the blocks, in block order. */
  function Collected(blocks: seq<string>): seq<ParsedQuiz> {
    if blocks == [] then []
    else
      var rest := Collected(blocks[..|blocks| - 1]);
      match ParsedBlock(blocks[|blocks| - 1])
      case Some(q) => rest + [q]
      case None => rest
  }

  /** What the generic parser finds: the quizzes of the blocks, or, when no
      block gives one, the quiz the whole text gives, if any. */
  function GenericQuizzes(blocks: seq<string>, rawText: string): (r: seq<ParsedQuiz>)
    ensures Collected(blocks) != [] ==> r == Collected(blocks)
    ensures Collected(blocks) == [] ==> |r| <= 1 && (r != [] <==> ParsedBlock(rawText).Some?)
    ensures Collected(blocks) == [] && r != [] ==> r[0] == ParsedBlock(rawText).value
  {
    if Collected(blocks) != [] then Collected(blocks)
    else if ParsedBlock(rawText).Some? then [ParsedBlock(rawText).value]
    else []
  }

  /** The generic parser's two loops: every block in turn, then the whole
      text when no block gave a quiz. */
  method ParseBlocks(blocks: seq<string>, rawText: string) returns (quizzes: seq<ParsedQuiz>)
    ensures quizzes == GenericQuizzes(blocks, rawText)
  {
    quizzes := [];
    var i := 0;
    while i < |blocks|
      invariant 0 <= i <= |blocks|
      invariant quizzes == Collected(blocks[..i])
    {
      assert blocks[..i + 1][..i] == blocks[..i];
      var quiz := ParseBlock(blocks[i]);
      if quiz.Some? {
        quizzes := quizzes + [quiz.value];
      }
      i := i + 1;
    }
    assert blocks[..i] == blocks;
    if quizzes == [] {
      var quiz := ParseBlock(rawText);
      if quiz.Some? {
        quizzes := quizzes + [quiz.value];
      }
    }
  }

  /** Every quiz the generic parser yields has a question, at least two
      options and a non-negative answer index. */
  lemma {:induction false} CollectedWellFormed(blocks: seq<string>)
    ensures forall q :: q in Collected(blocks) ==>
      q.question != [] && |q.options| >= 2 && q.correctOption >= 0
  {
    if blocks != [] {
      CollectedWellFormed(blocks[..|blocks| - 1]);
    }
  }

  /** Whatever path it takes, the generic parser yields only quizzes with a
      question, at least two options and a non-negative answer index. */
  lemma GenericWellFormed(blocks: seq<string>, rawText: string)
    ensures forall q :: q in GenericQuizzes(blocks, rawText) ==>
      q.question != [] && |q.options| >= 2 && q.correctOption >= 0
  {
    CollectedWellFormed(blocks);
  }

  /** The phrase `scheduled on 1/1/2025 at 9 AM` matches the schedule
      pattern. */
  lemma SchedulePhraseMatches()
    ensures ContainsSchedule("scheduled on 1/1/2025 at 9 AM")
  {
    var t := "scheduled on 1/1/2025 at 9 AM";
    PhraseMatches(t);
  }

  lemma PhraseMatches(t: string)
    requires t == "scheduled on 1/1/2025 at 9 AM"
    ensures ScheduleAt(t)
  {
    PhraseHead(t);
    var c := t[13..];
    PhraseDay(c);
    var c2 := c[2..];
    PhraseDay(c2);
    var c3 := c2[2..];
    PhraseYear(c3);
    PhraseTime(c3[8..]);
  }

  lemma PhraseHead(t: string)
    requires t == "scheduled on 1/1/2025 at 9 AM"
    ensures StartsWithIgnoringCase(t, "scheduled on ") && t[13..] == "1/1/2025 at 9 AM"
  {
    assert t[..13] == "scheduled on ";
    assert Lower("scheduled on ") == "scheduled on ";
  }

  lemma PhraseDay(c: string)
    requires |c| >= 2 && c[0] == '1' && c[1] == '/'
    ensures DigitRun(c) == 1 && c[1] == '/'
  {
    assert DigitRun(c[1..]) == 0;
  }

  lemma PhraseYear(c: string)
    requires c == "2025 at 9 AM"
    ensures DigitRun(c) == 4 && StartsWithIgnoringCase(c[4..], " at ") && c[8..] == "9 AM"
  {
    var d, rest := "2025", " at 9 AM";
    assert c == d + rest && c[4..] == rest;
    assert AllDigits(d);
    DigitRunOf(d, rest);
    PhraseAt(rest);
  }

  lemma PhraseAt(rest: string)
    requires rest == " at 9 AM"
    ensures StartsWithIgnoringCase(rest, " at ") && rest[4..] == "9 AM"
  {
    assert rest[..4] == " at ";
    assert Lower(" at ") == " at ";
  }

  lemma PhraseTime(e: string)
    requires e == "9 AM"
    ensures DigitRun(e) == 1 && e[1..] == " AM" && SpaceRun(e[1..]) == 1
    ensures StartsWithIgnoringCase(e[1..][1..], "am")
  {
    assert DigitRun(e[1..]) == 0;
    var g := e[1..];
    assert SpaceRun(g[1..]) == 0;
    assert g[1..][..2] == "AM";
    assert Lower("AM") == "am";
  }
}
