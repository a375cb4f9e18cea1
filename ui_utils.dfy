/** The character-counter colour of the editors: red at or over the limit,
    orange from 80% of the limit, gray below. The ratio `current / limit`
    is compared without division, by cross-multiplying with the limit's
    sign, so every integer pair has the class the floating-point ratio
    gives it, including a zero limit (an infinite or NaN ratio). */
module UiUtils {

  datatype CounterColor = Gray | Orange | Red

  /** The Tailwind classes the counter is rendered with. */
  function ClassName(c: CounterColor): string {
    match c
    case Red => "text-red-600 font-bold"
    case Orange => "text-orange-500 font-medium"
    case Gray => "text-gray-400"
  }

  /** `current / limit >= 1`. With a zero limit the ratio is +Infinity for a
      positive count, -Infinity for a negative one and NaN for zero. */
  predicate RatioAtLeastOne(current: int, limit: int) {
    if limit > 0 then current >= limit
    else if limit < 0 then current <= limit
    else current > 0
  }

  /** `current / limit >= 0.8`, that is `5 * current >= 4 * limit` for a
      positive limit. */
  predicate RatioAtLeastFourFifths(current: int, limit: int) {
    if limit > 0 then 5 * current >= 4 * limit
    else if limit < 0 then 5 * current <= 4 * limit
    else current > 0
  }

  /** `getCounterColor(current, limit)`. */
  function CounterColorOf(current: int, limit: int): (r: CounterColor)
    ensures limit > 0 ==> (r == Red <==> current >= limit)
    ensures limit > 0 ==> (r == Orange <==> 4 * limit <= 5 * current && current < limit)
    ensures limit > 0 ==> (r == Gray <==> 5 * current < 4 * limit)
    ensures limit == 0 ==> (r == Red <==> current > 0) && r != Orange
  {
    if RatioAtLeastOne(current, limit) then Red
    else if RatioAtLeastFourFifths(current, limit) then Orange
    else Gray
  }

  /** A severity rank: gray < orange < red. */
  function Rank(c: CounterColor): (r: nat)
    ensures r <= 2
    ensures (r == 0 <==> c == Gray) && (r == 2 <==> c == Red)
  {
    match c
    case Gray => 0
    case Orange => 1
    case Red => 2
  }

  /** With a positive limit, typing more characters never lowers the
      counter's severity. */
  lemma SeverityMonotone(a: int, b: int, limit: int)
    requires limit > 0 && a <= b
    ensures Rank(CounterColorOf(a, limit)) <= Rank(CounterColorOf(b, limit))
  {
  }

  /** The limits the editors use (4096 for a message, 300 for a question,
      200 for an explanation, 100 for an option) turn orange at 3277, 240,
      160 and 80 characters. */
  lemma EditorThresholds()
    ensures CounterColorOf(3276, 4096) == Gray && CounterColorOf(3277, 4096) == Orange
    ensures CounterColorOf(239, 300) == Gray && CounterColorOf(240, 300) == Orange
    ensures CounterColorOf(159, 200) == Gray && CounterColorOf(160, 200) == Orange
    ensures CounterColorOf(79, 100) == Gray && CounterColorOf(80, 100) == Orange
    ensures CounterColorOf(100, 100) == Red && CounterColorOf(4096, 4096) == Red
  {
  }
}
