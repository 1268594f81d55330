/** Phase arithmetic of the sine generator: the truncated value of pi the
    program uses, the wrap step that keeps the phase from growing without
    bound, and the phase reached after a number of samples. */
module Phase {

  /** The program's own (truncated) pi; f32 rounding is not modelled. */
  const Pi: real := 3.14159265358979

  /** One full turn, `2.0 * PI` in the program. */
  const TwoPi: real := 2.0 * Pi

  /** k whole turns. */
  function Turns(k: nat): real {
    k as real * TwoPi
  }

  /** The wrap loop: while the phase is strictly above one turn, take one
      turn off. A phase of exactly one turn is left as it is. */
  function Wrap(p: real): (r: real)
    ensures r <= TwoPi
    ensures p <= TwoPi ==> r == p
    ensures TwoPi < p ==> 0.0 < r < p
    decreases if TwoPi < p then (p / TwoPi).Floor else 0
  {
    if TwoPi < p then Wrap(p - TwoPi) else p
  }

  /** How many turns the wrap loop takes off `p`: the fewest whole turns
      that bring `p` down to at most one turn. */
  function WrapCount(p: real): (k: nat)
    ensures p - Turns(k) <= TwoPi
    ensures 0 < k ==> TwoPi < p - Turns(k - 1)
    decreases if TwoPi < p then (p / TwoPi).Floor else 0
  {
    if TwoPi < p then 1 + WrapCount(p - TwoPi) else 0
  }

  /** The wrap only ever takes off whole turns, as many as it loops. */
  lemma {:induction false} WrapTakesWholeTurns(p: real)
    ensures Wrap(p) == p - Turns(WrapCount(p))
    decreases WrapCount(p)
  {
    if TwoPi < p {
      WrapTakesWholeTurns(p - TwoPi);
    }
  }

  /** One pass of the wrap loop leaves the final result unchanged and takes
      one turn off the count still to go. */
  lemma WrapStep(p: real)
    requires TwoPi < p
    ensures Wrap(p - TwoPi) == Wrap(p)
    ensures WrapCount(p - TwoPi) == WrapCount(p) - 1
  {
  }

  /** Reference definition of the wrap above one turn: the only value in
      (0, TwoPi] that differs from `p` by whole turns. */
  lemma {:induction false} WrapUnique(p: real, k: nat, r: real)
    requires TwoPi < p
    requires 0.0 < r <= TwoPi
    requires r == p - Turns(k)
    ensures Wrap(p) == r
    decreases k
  {
    assert 0 < k;
    assert p - TwoPi == r + Turns(k - 1);
    if TwoPi < p - TwoPi {
      WrapUnique(p - TwoPi, k - 1, r);
    }
  }

  /** The phase after `n` samples, starting from `p` with increment `d`:
      each sample adds `d` and then wraps. */
  function PhaseAfter(p: real, d: real, n: nat): (r: real)
    ensures 0 < n ==> r <= TwoPi
    ensures p <= TwoPi ==> r <= TwoPi
    ensures 0.0 <= p && 0.0 <= d ==> 0.0 <= r
  {
    if n == 0 then p else Wrap(PhaseAfter(p, d, n - 1) + d)
  }

  /** Continuity of the phase: n steps and then m steps are n + m steps. */
  lemma {:induction false} PhaseAfterAdditive(p: real, d: real, n: nat, m: nat)
    ensures PhaseAfter(p, d, n + m) == PhaseAfter(PhaseAfter(p, d, n), d, m)
    decreases m
  {
    if m > 0 {
      PhaseAfterAdditive(p, d, n, m - 1);
      assert PhaseAfter(p, d, n + m) == Wrap(PhaseAfter(p, d, n + (m - 1)) + d);
    }
  }

  /** The boundary of the wrap is strict: a phase of exactly one turn is
      kept, so the stored phase can equal TwoPi. */
  lemma PhaseMayEqualTwoPi()
    ensures PhaseAfter(0.0, TwoPi, 1) == TwoPi
  {
  }
}
