/** The `DD:HH:MM:SS` expiry-duration helpers of the front end. Hours are
    fractional numbers in the program; here a duration is carried as its
    whole number of seconds, `floor(hours * 3600)`, and `durationToHours`
    is modelled as the seconds it divides by 3600. */
module Duration {
  import opened Wrappers
  import opened Text

  const Zero := "00:00:00:00"

  /** JavaScript's `%`, which truncates toward zero (Dafny's is Euclidean). */
  function JsRem(a: int, b: int): (r: int)
    requires b > 0
  {
    if a >= 0 then a % b else -((-a) % b)
  }

  datatype Fields = Fields(days: int, hrs: int, mins: int, secs: int)

  /** The four fields `hoursToDuration` computes: `Math.floor` for each
      quotient, `%=` for each remainder. */
  function Split4(total: int): Fields {
    var days := total / 86400;
    var rest := JsRem(total, 86400);
    var hrs := rest / 3600;
    var rest2 := JsRem(rest, 3600);
    Fields(days, hrs, rest2 / 60, JsRem(rest2, 60))
  }

  /** For a non-negative total the fields add back up to it and each is in
      its range. */
  lemma Split4Sums(total: nat)
    ensures var f := Split4(total);
      && f.days * 86400 + f.hrs * 3600 + f.mins * 60 + f.secs == total
      && f.days >= 0 && 0 <= f.hrs < 24 && 0 <= f.mins < 60 && 0 <= f.secs < 60
  {
  }

  /** `String(n).padStart(2, '0')` */
  function Field(n: int): (r: string)
    ensures |r| >= 2
  {
    PadStart(IntToString(n), 2, '0')
  }

  /** No field holds a colon; a field of a non-negative value is its
      decimal digits, zero-padded. */
  lemma FieldFacts(n: int)
    ensures ':' !in Field(n)
    ensures n >= 0 ==> AllDigits(Field(n)) && DigitsValue(Field(n)) == n
  {
    FieldNoColon(n);
    if n >= 0 {
      var s := NatToString(n);
      assert Field(n) == seq(|Field(n)| - |s|, _ => '0') + s;
      NatToStringValue(n);
      LeadingZeros(|Field(n)| - |s|, s);
    }
  }

  lemma FieldNoColon(n: int)
    ensures ':' !in Field(n)
  {
    var s := IntToString(n);
    var r := Field(n);
    var z := |r| - |s|;
    assert r[z..] == s;
    assert ':' !in s by {
      var d := NatToString(if n < 0 then -n else n);
      forall j | 0 <= j < |s| ensures s[j] != ':' {
        if n < 0 && j > 0 {
          assert s[j] == d[j - 1];
        } else if n >= 0 {
          assert IsDigit(d[j]);
        }
      }
    }
    forall i | 0 <= i < |r| ensures r[i] != ':' {
      if i >= z {
        assert r[i] == r[z..][i - z];
      }
    }
  }

  /** `hoursToDuration`: `None` stands for a falsy or `NaN` argument. */
  function HoursToDuration(seconds: Option<int>): (r: string)
    ensures seconds.None? ==> r == Zero
  {
    match seconds
    case None => Zero
    case Some(total) => Render(Split4(total))
  }

  /** The four fields padded and joined with colons. */
  function Render(f: Fields): string {
    Join([Field(f.days), Field(f.hrs), Field(f.mins), Field(f.secs)], ':')
  }

  /** `durationToHours`, as seconds: 0 for an empty string or one that does
      not have exactly four fields; `None` (`NaN`) when a field is not a
      number. */
  function DurationToSeconds(duration: string): (r: Option<int>)
    ensures duration == [] || |Split(duration, ':')| != 4 ==> r == Some(0)
  {
    if duration == [] then Some(0)
    else
      var parts := Split(duration, ':');
      if |parts| != 4 then Some(0)
      else
        var n := Numbers(parts);
        Seconds(n[0], n[1], n[2], n[3])
  }

  /** `parts.map(Number)` */
  function Numbers(parts: seq<string>): (r: seq<Option<int>>)
    ensures |r| == |parts|
  {
    seq(|parts|, i requires 0 <= i < |parts| => JsNumber(parts[i]))
  }

  /** `days * 24 * 3600 + hrs * 3600 + mins * 60 + secs`, `NaN` when a
      field is. */
  function Seconds(d: Option<int>, h: Option<int>, m: Option<int>, s: Option<int>): Option<int> {
    if d.None? || h.None? || m.None? || s.None? then None
    else Some(d.value * 86400 + h.value * 3600 + m.value * 60 + s.value)
  }

  /** A field of a non-negative value reads back as that value. */
  lemma FieldNumber(n: nat)
    ensures JsNumber(Field(n)) == Some(n)
  {
    FieldFacts(n);
    NumberOfDigits(Field(n));
  }

  lemma SecondsOf(a: nat, b: nat, c: nat, d: nat, x: int)
    requires x == a * 86400 + b * 3600 + c * 60 + d
    ensures Seconds(Some(a), Some(b), Some(c), Some(d)) == Some(x)
  {
  }

  lemma FieldsRead(a: nat, b: nat, c: nat, d: nat, x: int)
    requires x == a * 86400 + b * 3600 + c * 60 + d
    ensures Seconds(JsNumber(Field(a)), JsNumber(Field(b)), JsNumber(Field(c)), JsNumber(Field(d))) == Some(x)
  {
    FieldNumber(a);
    FieldNumber(b);
    FieldNumber(c);
    FieldNumber(d);
    SecondsOf(a, b, c, d, x);
  }

  /** A string of four fields is read field by field. */
  lemma ReadFields(r: string)
    requires |Split(r, ':')| == 4
    ensures var parts := Split(r, ':');
      DurationToSeconds(r) == Seconds(JsNumber(parts[0]), JsNumber(parts[1]), JsNumber(parts[2]), JsNumber(parts[3]))
  {
    assert r != [];
  }

  /** Rendered fields split back into the four fields they were joined
      from. */
  lemma RenderSplits(f: Fields)
    ensures Split(Render(f), ':') == [Field(f.days), Field(f.hrs), Field(f.mins), Field(f.secs)]
  {
    FieldFacts(f.days);
    FieldFacts(f.hrs);
    FieldFacts(f.mins);
    FieldFacts(f.secs);
    SplitJoin4(Field(f.days), Field(f.hrs), Field(f.mins), Field(f.secs), ':');
  }

  /** Non-negative fields, rendered, read back as the seconds they add up
      to. */
  lemma RenderReadsBack(f: Fields, x: int)
    requires f.days >= 0 && f.hrs >= 0 && f.mins >= 0 && f.secs >= 0
    requires x == f.days * 86400 + f.hrs * 3600 + f.mins * 60 + f.secs
    ensures DurationToSeconds(Render(f)) == Some(x)
  {
    var r := Render(f);
    RenderSplits(f);
    ReadFields(r);
    FieldsRead(f.days, f.hrs, f.mins, f.secs, x);
  }

  /** For a non-negative number of seconds the output is four colon-joined
      fields of at least two digits. */
  lemma DurationShape(total: nat)
    ensures var parts := Split(HoursToDuration(Some(total)), ':');
      && |parts| == 4
      && AllDigits(parts[0]) && AllDigits(parts[1]) && AllDigits(parts[2]) && AllDigits(parts[3])
      && |parts[0]| >= 2 && |parts[1]| >= 2 && |parts[2]| >= 2 && |parts[3]| >= 2
  {
    Split4Sums(total);
    RenderShape(Split4(total));
  }

  lemma RenderShape(f: Fields)
    requires f.days >= 0 && f.hrs >= 0 && f.mins >= 0 && f.secs >= 0
    ensures var parts := Split(Render(f), ':');
      && |parts| == 4
      && AllDigits(parts[0]) && AllDigits(parts[1]) && AllDigits(parts[2]) && AllDigits(parts[3])
      && |parts[0]| >= 2 && |parts[1]| >= 2 && |parts[2]| >= 2 && |parts[3]| >= 2
  {
    FieldFacts(f.days);
    FieldFacts(f.hrs);
    FieldFacts(f.mins);
    FieldFacts(f.secs);
    RenderSplits(f);
    DigitParts(Split(Render(f), ':'), Field(f.days), Field(f.hrs), Field(f.mins), Field(f.secs));
  }

  lemma DigitParts(parts: seq<string>, a: string, b: string, c: string, d: string)
    requires parts == [a, b, c, d]
    requires AllDigits(a) && AllDigits(b) && AllDigits(c) && AllDigits(d)
    requires |a| >= 2 && |b| >= 2 && |c| >= 2 && |d| >= 2
    ensures |parts| == 4
    ensures AllDigits(parts[0]) && AllDigits(parts[1]) && AllDigits(parts[2]) && AllDigits(parts[3])
    ensures |parts[0]| >= 2 && |parts[1]| >= 2 && |parts[2]| >= 2 && |parts[3]| >= 2
  {
  }

  /** For a non-negative number of seconds, reading the output back gives
      the same number of seconds. */
  lemma RoundTrip(total: nat)
    ensures DurationToSeconds(HoursToDuration(Some(total))) == Some(total)
  {
    var f := Split4(total);
    Split4Sums(total);
    RenderReadsBack(f, total);
  }

  lemma MinusOneField()
    ensures Field(-1) == "-1"
  {
    assert NatToString(1) == "1";
    assert IntToString(-1) == "-1";
  }

  lemma MinusOneNumber()
    ensures JsNumber("-1") == Some(-1)
  {
    assert Trim("-1") == "-1" by {
      assert !IsSpace("-1"[0]) && !IsSpace("-1"[1]);
    }
    assert "-1"[1..] == "1";
    assert Unsigned("1") == Some(1);
  }

  /** A negative number of seconds is floored for the days but truncated
      for the other fields: one second before zero renders as `-1:-1:-1:-1`,
      which reads back as a day, an hour, a minute and a second before
      zero. */
  lemma NegativeSecond()
    ensures HoursToDuration(Some(-1)) == "-1:-1:-1:-1"
    ensures DurationToSeconds(HoursToDuration(Some(-1))) == Some(-86400 - 3600 - 60 - 1)
  {
    NegativeSecondRenders();
    MinusOnesRead();
  }

  lemma NegativeSecondRenders()
    ensures HoursToDuration(Some(-1)) == "-1:-1:-1:-1"
  {
    assert Split4(-1) == Fields(-1, -1, -1, -1);
    MinusOnesJoined();
  }

  lemma MinusOnesJoined()
    ensures Render(Fields(-1, -1, -1, -1)) == "-1:-1:-1:-1"
  {
    MinusOneField();
    MinusOnesLiteral();
  }

  lemma MinusOnesLiteral()
    ensures Join(["-1", "-1", "-1", "-1"], ':') == "-1:-1:-1:-1"
  {
    Join4("-1", "-1", "-1", "-1", ':');
  }

  lemma MinusOnesRead()
    ensures DurationToSeconds("-1:-1:-1:-1") == Some(-86400 - 3600 - 60 - 1)
  {
    var m := "-1";
    Join4(m, m, m, m, ':');
    assert Join([m, m, m, m], ':') == "-1:-1:-1:-1";
    JoinedReads(m, m, m, m);
    MinusOneNumber();
  }

  /** Four fields without a colon, joined by colons, read back field by
      field. */
  lemma JoinedReads(a: string, b: string, c: string, d: string)
    requires ':' !in a && ':' !in b && ':' !in c && ':' !in d
    ensures DurationToSeconds(Join([a, b, c, d], ':')) == Seconds(JsNumber(a), JsNumber(b), JsNumber(c), JsNumber(d))
  {
    SplitJoin4(a, b, c, d, ':');
    ReadFields(Join([a, b, c, d], ':'));
  }

  // ------------------------------------------------------------ input

  /** `value.replace(/\D/g, '')` */
  function OnlyDigits(s: string): (r: string)
    ensures AllDigits(r) && |r| <= |s|
    ensures AllDigits(s) ==> r == s
  {
    if s == [] then []
    else OnlyDigits(s[..|s| - 1]) + (if IsDigit(s[|s| - 1]) then [s[|s| - 1]] else [])
  }

  lemma {:induction false} OnlyDigitsAppend(a: string, b: string)
    ensures OnlyDigits(a + b) == OnlyDigits(a) + OnlyDigits(b)
  {
    if b != [] {
      OnlyDigitsAppend(a, b[..|b| - 1]);
      assert (a + b)[..|a + b| - 1] == a + b[..|b| - 1];
    } else {
      assert a + b == a;
    }
  }

  /** `padded.match(/.{1,2}/g).join(':')` on eight characters. */
  function Pairs(d: string): (r: string)
    requires |d| == 8
  {
    Join([d[0..2], d[2..4], d[4..6], d[6..8]], ':')
  }

  /** `cleanValue.padStart(8, '0').slice(-8)`: the last eight digits typed,
      with zeros in front when fewer were typed. */
  function LastEight(value: string): (d: string)
    ensures |d| == 8 && AllDigits(d)
    ensures var clean := OnlyDigits(value);
      && (|clean| >= 8 ==> d == clean[|clean| - 8..])
      && (|clean| < 8 ==> d == seq(8 - |clean|, _ => '0') + clean)
  {
    var clean := OnlyDigits(value);
    var padded := PadStart(clean, 8, '0');
    PaddedDigits(clean, 8);
    padded[|padded| - 8..]
  }

  lemma PaddedDigits(clean: string, width: nat)
    requires AllDigits(clean)
    ensures AllDigits(PadStart(clean, width, '0'))
  {
    var padded := PadStart(clean, width, '0');
    forall i | 0 <= i < |padded| ensures IsDigit(padded[i]) {
      if i >= |padded| - |clean| {
        assert padded[i] == clean[i - (|padded| - |clean|)];
      }
    }
  }

  /** `formatDurationInput`: the output is eight digits in four colon-joined
      pairs, and its digits are the last eight digits typed. */
  function FormatDurationInput(value: string): (r: string)
    ensures |r| == 11
    ensures var d := LastEight(value);
      Split(r, ':') == [d[0..2], d[2..4], d[4..6], d[6..8]]
  {
    var d := LastEight(value);
    PairsSplit(d);
    Pairs(d)
  }

  /** The digits of the output are the last eight digits typed. */
  lemma FormatKeepsDigits(value: string)
    ensures OnlyDigits(FormatDurationInput(value)) == LastEight(value)
  {
    PairsDigits(LastEight(value));
  }

  lemma PairsSplit(d: string)
    requires |d| == 8 && AllDigits(d)
    ensures |Pairs(d)| == 11
    ensures Split(Pairs(d), ':') == [d[0..2], d[2..4], d[4..6], d[6..8]]
  {
    var p0, p1, p2, p3 := d[0..2], d[2..4], d[4..6], d[6..8];
    assert AllDigits(p0) && AllDigits(p1) && AllDigits(p2) && AllDigits(p3);
    Join4(p0, p1, p2, p3, ':');
    SplitJoin4(p0, p1, p2, p3, ':');
  }

  lemma PairsDigits(d: string)
    requires |d| == 8 && AllDigits(d)
    ensures OnlyDigits(Pairs(d)) == d
  {
    var p0, p1, p2, p3 := d[0..2], d[2..4], d[4..6], d[6..8];
    assert AllDigits(p0) && AllDigits(p1) && AllDigits(p2) && AllDigits(p3);
    Join4(p0, p1, p2, p3, ':');
    JoinedDigits(p0, p1, p2, p3);
    assert p0 + p1 + p2 + p3 == d;
  }

  /** The digits of four digit strings joined with colons are the four
      strings run together. */
  lemma JoinedDigits(p0: string, p1: string, p2: string, p3: string)
    requires AllDigits(p0) && AllDigits(p1) && AllDigits(p2) && AllDigits(p3)
    ensures OnlyDigits(p0 + [':'] + p1 + [':'] + p2 + [':'] + p3) == p0 + p1 + p2 + p3
  {
    OnlyDigitsColon(p0, p1);
    OnlyDigitsColon(p0 + [':'] + p1, p2);
    OnlyDigitsColon(p0 + [':'] + p1 + [':'] + p2, p3);
  }

  /** A colon between two strings adds no digit. */
  lemma OnlyDigitsColon(a: string, b: string)
    ensures OnlyDigits(a + [':'] + b) == OnlyDigits(a) + OnlyDigits(b)
  {
    var ac := a + [':'];
    OnlyDigitsAppend(ac, b);
    assert ac[..|ac| - 1] == a && !IsDigit(ac[|ac| - 1]);
    assert OnlyDigits(ac) == OnlyDigits(a);
  }

  /** Formatting what is already formatted changes nothing. */
  lemma FormatIdempotent(value: string)
    ensures FormatDurationInput(FormatDurationInput(value)) == FormatDurationInput(value)
  {
    var r := FormatDurationInput(value);
    var d := LastEight(value);
    FormatKeepsDigits(value);
    assert LastEight(r) == d;
  }

  /** Eight digits in pairs read back as days, hours, minutes and seconds
      taken two digits at a time. */
  lemma PairsRead(d: string, x: int)
    requires |d| == 8 && AllDigits(d)
    requires x == DigitsValue(d[0..2]) * 86400 + DigitsValue(d[2..4]) * 3600
      + DigitsValue(d[4..6]) * 60 + DigitsValue(d[6..8])
    ensures DurationToSeconds(Pairs(d)) == Some(x)
  {
    var p0, p1, p2, p3 := d[0..2], d[2..4], d[4..6], d[6..8];
    assert AllDigits(p0) && AllDigits(p1) && AllDigits(p2) && AllDigits(p3);
    PairsSplit(d);
    ReadFields(Pairs(d));
    NumberOfDigits(p0);
    NumberOfDigits(p1);
    NumberOfDigits(p2);
    NumberOfDigits(p3);
    SecondsOf(DigitsValue(p0), DigitsValue(p1), DigitsValue(p2), DigitsValue(p3), x);
  }

  /** Whatever is typed, the formatted input reads back as a duration: the
      last eight digits typed, two each for days, hours, minutes and
      seconds. */
  lemma FormattedIsDuration(value: string)
    ensures var d := LastEight(value);
      DurationToSeconds(FormatDurationInput(value))
        == Some(DigitsValue(d[0..2]) * 86400 + DigitsValue(d[2..4]) * 3600
          + DigitsValue(d[4..6]) * 60 + DigitsValue(d[6..8]))
  {
    PairsReadBack(LastEight(value));
  }

  lemma PairsReadBack(d: string)
    requires |d| == 8 && AllDigits(d)
    ensures DurationToSeconds(Pairs(d))
      == Some(DigitsValue(d[0..2]) * 86400 + DigitsValue(d[2..4]) * 3600
        + DigitsValue(d[4..6]) * 60 + DigitsValue(d[6..8]))
  {
    PartsDigits(d);
    PairsRead(d, DigitsValue(d[0..2]) * 86400 + DigitsValue(d[2..4]) * 3600
      + DigitsValue(d[4..6]) * 60 + DigitsValue(d[6..8]));
  }

  lemma PartsDigits(d: string)
    requires |d| == 8 && AllDigits(d)
    ensures AllDigits(d[0..2]) && AllDigits(d[2..4]) && AllDigits(d[4..6]) && AllDigits(d[6..8])
  {
  }
}
