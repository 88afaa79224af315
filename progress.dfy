/** The progress ring and the whole screen contents: update_progress_arc
    (code.py:110-117) and the three display updates of the redraw
    (code.py:206-208). */
module Progress {
  import opened Config
  import opened Format

  /** steps = int(percentage * total_steps) with percentage = done / total,
      read in exact arithmetic. */
  function Steps(done: int, total: int): (n: int)
    requires total > 0
    ensures 0 <= done <= total ==> 0 <= n <= TotalSteps
    ensures done == 0 ==> n == 0
    ensures done == total ==> n == TotalSteps
  {
    var q := TruncDiv(done * TotalSteps, total);
    assert 0 <= done <= total ==> 0 <= q <= TotalSteps by {
      if 0 <= done <= total {
        assert done * TotalSteps <= total * TotalSteps;
        if q > TotalSteps {
          MulStrict(TotalSteps, q, total);
        }
      }
    }
    assert done == total ==> q == TotalSteps by {
      if done == total && q < TotalSteps {
        MulStrict(q, TotalSteps, total);
      }
    }
    q
  }

  /** The ring never loses a lit segment while the remaining time counts down:
      with remaining2 <= remaining1 the fraction done, and so the step count, can only grow. */
  lemma StepsMonotone(remaining1: int, remaining2: int, seconds: int)
    requires seconds > 0 && remaining2 <= remaining1
    ensures Steps(seconds - remaining1, seconds) <= Steps(seconds - remaining2, seconds)
  {
    var d1, d2 := seconds - remaining1, seconds - remaining2;
    assert d1 * TotalSteps <= d2 * TotalSteps;
    TruncDivMonotone(d1 * TotalSteps, d2 * TotalSteps, seconds);
  }

  /** Segment colours after update_progress_arc: the session colour below steps, black from there on. */
  function ArcFill(steps: int, k: Kind): (arc: seq<int>)
    ensures |arc| == TotalSteps
  {
    seq(TotalSteps, i => if i < steps then ArcColor(k) else Black)
  }

  /** Number of segments that are not black. */
  function Lit(arc: seq<int>): nat {
    if arc == [] then 0 else Lit(arc[..|arc| - 1]) + (if arc[|arc| - 1] != Black then 1 else 0)
  }

  function Clamp(n: int, lo: int, hi: int): int
    requires lo <= hi
  {
    if n < lo then lo else if n > hi then hi else n
  }

  /** The lit segments form a prefix: segment i is lit, in the session colour, exactly when
      i < steps, and the number lit is steps clamped to [0, total_steps]. */
  lemma ArcFillLit(steps: int, k: Kind)
    ensures forall i :: 0 <= i < TotalSteps ==>
      (ArcFill(steps, k)[i] != Black <==> i < steps) && (i < steps ==> ArcFill(steps, k)[i] == ArcColor(k))
    ensures Lit(ArcFill(steps, k)) == Clamp(steps, 0, TotalSteps)
  {
    var arc := ArcFill(steps, k);
    forall i | 0 <= i < |arc|
      ensures arc[i] == (if i < steps then ArcColor(k) else Black)
    {
    }
    PrefixLit(arc, steps, TotalSteps);
    assert arc[..TotalSteps] == arc;
  }

  lemma {:induction false} PrefixLit(arc: seq<int>, steps: int, n: nat)
    requires n <= |arc|
    requires forall i :: 0 <= i < |arc| ==> (arc[i] != Black <==> i < steps)
    ensures Lit(arc[..n]) == Clamp(steps, 0, n)
  {
    if n > 0 {
      assert arc[..n][..n - 1] == arc[..n - 1];
      PrefixLit(arc, steps, n - 1);
    } else {
      assert arc[..0] == [];
    }
  }

  /** What the display holds: the session label, the countdown text and the ring. */
  datatype Screen = Screen(session: string, time: string, arc: seq<int>)

  /** The redraw of code.py:206-208 for a session of the given kind and length. */
  function Render(k: Kind, remaining: int, seconds: int): (s: Screen)
    requires seconds > 0
    ensures s.session == Label(k) && |s.arc| == TotalSteps
    ensures forall i :: 0 <= i < TotalSteps ==>
      (s.arc[i] != Black <==> i < Steps(seconds - remaining, seconds)) &&
      (s.arc[i] != Black ==> s.arc[i] == ArcColor(k))
    ensures 0 <= remaining <= seconds ==> Lit(s.arc) == Steps(seconds - remaining, seconds)
    ensures 0 <= remaining < 6000 ==> ParseTime(s.time) == Some(remaining)
  {
    var steps := Steps(seconds - remaining, seconds);
    ArcFillLit(steps, k);
    assert 0 <= remaining < 6000 ==> ParseTime(FormatTime(remaining)) == Some(remaining) by {
      if 0 <= remaining < 6000 {
        FormatTimeRoundTrip(remaining);
      }
    }
    Screen(Label(k), FormatTime(remaining), ArcFill(steps, k))
  }
}
