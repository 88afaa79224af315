/** Fixed configuration of the Pomodoro timer: the three session kinds with
    their durations, the automatic rollover cycle, the arc colours and the
    demo command list (code.py:63-76, 98-100, 126). Also the integer reading of
    Python's int() applied to a quotient, which the timer uses for elapsed
    seconds and for the number of lit arc segments. */
module Config {

  /** The session kinds; the source spells them "WORK", "BREAK" and "LONG". */
  datatype Kind = Work | ShortBreak | LongBreak

  /** The text the session label shows for a kind; no two kinds share a text. */
  function Label(k: Kind): (s: string)
    ensures s == "WORK" <==> k == Work
    ensures s == "BREAK" <==> k == ShortBreak
    ensures s == "LONG" <==> k == LongBreak
  {
    match k
    case Work => "WORK"
    case ShortBreak => "BREAK"
    case LongBreak => "LONG"
  }

  /** Nominal length of a session in seconds. */
  function Duration(k: Kind): (d: int)
    ensures 300 <= d <= 1500
  {
    match k
    case Work => 25 * 60
    case ShortBreak => 5 * 60
    case LongBreak => 15 * 60
  }

  /** Rollover order used on natural expiry: [WORK, BREAK] three times, then WORK, LONG. */
  const SessionCycle: seq<Kind> := [Work, ShortBreak] + [Work, ShortBreak] + [Work, ShortBreak] + [Work, LongBreak]

  /** Number of arc segments of the progress ring. */
  const TotalSteps: int := 120

  const ArcColorWork: int := 0x00FF00
  const ArcColorBreak: int := 0x00BFFF
  const Black: int := 0x000000

  /** Work gets one colour; both break kinds share the other. */
  function ArcColor(k: Kind): (c: int)
    ensures c != Black
    ensures c == ArcColorWork <==> k == Work
    ensures c == ArcColorBreak <==> k != Work
  {
    if k == Work then ArcColorWork else ArcColorBreak
  }

  /** The four demo commands, in the order the dispatcher cycles through them. */
  datatype Command = StartTimer | PauseTimer | StartShortBreak | StartLongBreak

  const VoiceCommands: seq<Command> := [StartTimer, PauseTimer, StartShortBreak, StartLongBreak]

  /** Python's int(a / b) for b > 0: the quotient truncated toward zero. */
  function TruncDiv(a: int, b: int): (q: int)
    requires b > 0
    ensures a >= 0 ==> 0 <= q && q * b <= a < q * b + b
    ensures a < 0 ==> q <= 0 && q * b - b < a <= q * b
  {
    if a >= 0 then DivBounds(a, b); a / b
    else DivBounds(-a, b); -((-a) / b)
  }

  /** Floor division of a non-negative number brackets it between two multiples. */
  lemma DivBounds(a: int, b: int)
    requires a >= 0 && b > 0
    ensures 0 <= a / b && (a / b) * b <= a < (a / b) * b + b
  {
    var q, r := a / b, a % b;
    assert a == b * q + r && 0 <= r < b;
    assert b * q == q * b;
  }

  /** Truncation toward zero never reverses the order of two numerators. */
  lemma TruncDivMonotone(a: int, b: int, d: int)
    requires a <= b && d > 0
    ensures TruncDiv(a, d) <= TruncDiv(b, d)
  {
    var qa, qb := TruncDiv(a, d), TruncDiv(b, d);
    if qa > qb {
      // qa * d >= qb * d + d then puts a above b, whatever the signs
      MulStrict(qb, qa, d);
    }
  }

  /** x < y gives x * d + d <= y * d for a positive factor. */
  lemma MulStrict(x: int, y: int, d: int)
    requires x < y && d > 0
    ensures x * d + d <= y * d
  {
    assert (y - x) * d >= d by {
      assert y - x >= 1;
    }
    assert (y - x) * d == y * d - x * d;
  }

  /** Natural rollover alternates work with a break, and the long break closes the cycle. */
  lemma CycleAlternates(i: int)
    requires 0 <= i < |SessionCycle|
    ensures (SessionCycle[i] == Work) != (SessionCycle[(i + 1) % |SessionCycle|] == Work)
    ensures SessionCycle[i] == LongBreak <==> i == |SessionCycle| - 1
  {
  }
}
