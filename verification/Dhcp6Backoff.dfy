/** DHCPv6 retransmission timeouts: RFC 8415 section 15, with the random factor any number in [-0.1, 0.1]. */
module Dhcp6Backoff {
  type Jitter = r: real | -0.1 <= r <= 0.1 witness 0.0

  /** The two draws a timeout may use: one for doubling, one more when the maximum caps it. */
  datatype Draw = Draw(double: Jitter, cap: Jitter)

  /** A time randomised by up to a tenth either way. */
  function InitialTimeout(irt: real, r: Jitter): real { irt + r * irt }

  function Doubled(previous: real, r: Jitter): real { 2.0 * previous + r * previous }

  function Capped(rt: real, capped: real, mrt: real): real { if mrt != 0.0 && rt > mrt then capped else rt }

  function SubsequentTimeout(previous: real, mrt: real, d: Draw): real {
    Capped(Doubled(previous, d.double), InitialTimeout(mrt, d.cap), mrt)
  }

  /** The n-th timeout, for the n draws made so far. */
  function TimeoutAfter(irt: real, mrt: real, draws: seq<Draw>): real
    requires draws != []
  {
    var last := |draws| - 1;
    if last == 0 then InitialTimeout(irt, draws[0].double)
    else SubsequentTimeout(TimeoutAfter(irt, mrt, draws[..last]), mrt, draws[last])
  }

  function Power(b: real, n: nat): real { if n == 0 then 1.0 else b * Power(b, n - 1) }

  /** The n-th term of a geometric series. */
  function Term(first: real, ratio: real, n: nat): real { first * Power(ratio, n) }

  function Lower(a: real, b: real): real { if a < b then a else b }

  lemma {:induction false} PowerPositive(b: real, n: nat)
    requires b > 0.0
    ensures Power(b, n) > 0.0
  {
    if n > 0 {
      PowerPositive(b, n - 1);
    }
  }

  lemma NextTerm(first: real, ratio: real, n: nat)
    requires n > 0
    ensures Term(first, ratio, n) == ratio * Term(first, ratio, n - 1)
  {
  }

  lemma ProductNatural(a: real, b: real)
    requires 0.0 <= a && 0.0 <= b
    ensures 0.0 <= a * b
  {
  }

  /** A tenth either way of a time: the one place where two unknowns are multiplied. */
  lemma JitterSpan(t: real, r: Jitter)
    requires t >= 0.0
    ensures -0.1 * t <= r * t <= 0.1 * t
  {
    ProductNatural(r + 0.1, t);
    ProductNatural(0.1 - r, t);
    assert (r + 0.1) * t == r * t + 0.1 * t;
    assert (0.1 - r) * t == 0.1 * t - r * t;
  }

  lemma DoublingBounds(p: real, r: Jitter)
    requires p >= 0.0
    ensures 1.9 * p <= Doubled(p, r) <= 2.1 * p
  {
    JitterSpan(p, r);
  }

  lemma JitterBounds(t: real, r: Jitter)
    requires t >= 0.0
    ensures 0.9 * t <= InitialTimeout(t, r) <= 1.1 * t
  {
    JitterSpan(t, r);
  }

  /** The step on plain numbers: a timeout at most doubled and then capped. */
  lemma CappedWithin(low: real, p: real, mrt: real, rt: real, capped: real)
    requires 0.0 < low && 0.0 < mrt && Lower(low, 0.9 * mrt) <= p <= 1.1 * mrt
    requires 1.9 * p <= rt && 0.9 * mrt <= capped <= 1.1 * mrt
    ensures Lower(1.9 * low, 0.9 * mrt) <= Capped(rt, capped, mrt) <= 1.1 * mrt
  {
  }

  lemma CappedStep(low: real, p: real, mrt: real, d: Draw)
    requires 0.0 < low && 0.0 < mrt && Lower(low, 0.9 * mrt) <= p <= 1.1 * mrt
    ensures Lower(1.9 * low, 0.9 * mrt) <= SubsequentTimeout(p, mrt, d) <= 1.1 * mrt
  {
    DoublingBounds(p, d.double);
    JitterBounds(mrt, d.cap);
    CappedWithin(low, p, mrt, Doubled(p, d.double), InitialTimeout(mrt, d.cap));
  }

  lemma UncappedStep(low: real, high: real, p: real, d: Draw)
    requires 0.0 < low <= p <= high
    ensures 1.9 * low <= SubsequentTimeout(p, 0.0, d) <= 2.1 * high
  {
    DoublingBounds(p, d.double);
    assert SubsequentTimeout(p, 0.0, d) == Doubled(p, d.double);
  }

  lemma TermPositive(first: real, ratio: real, n: nat)
    requires first > 0.0 && ratio > 0.0
    ensures Term(first, ratio, n) > 0.0
  {
    PowerPositive(ratio, n);
  }

  lemma {:induction false} FirstTimeout(irt: real, mrt: real, draws: seq<Draw>)
    requires 0.0 < irt && |draws| == 1
    ensures Term(0.9 * irt, 1.9, 0) == 0.9 * irt && Term(1.1 * irt, 2.1, 0) == 1.1 * irt
    ensures 0.9 * irt <= TimeoutAfter(irt, mrt, draws) <= 1.1 * irt
  {
    JitterBounds(irt, draws[0].double);
  }

  /** With a maximum: the timeout grows at least by 1.9 until it comes near the cap, and stays there. */
  lemma {:induction false} CappedEnvelope(irt: real, mrt: real, draws: seq<Draw>)
    requires 0.0 < irt <= mrt && draws != []
    ensures Lower(Term(0.9 * irt, 1.9, |draws| - 1), 0.9 * mrt) <= TimeoutAfter(irt, mrt, draws) <= 1.1 * mrt
  {
    var last := |draws| - 1;
    if last == 0 {
      FirstTimeout(irt, mrt, draws);
    } else {
      CappedEnvelope(irt, mrt, draws[..last]);
      TermPositive(0.9 * irt, 1.9, last - 1);
      NextTerm(0.9 * irt, 1.9, last);
      CappedStep(Term(0.9 * irt, 1.9, last - 1), TimeoutAfter(irt, mrt, draws[..last]), mrt, draws[last]);
    }
  }

  /** Without one it never stops growing, between these two geometric series. */
  lemma {:induction false} UncappedEnvelope(irt: real, draws: seq<Draw>)
    requires 0.0 < irt && draws != []
    ensures Term(0.9 * irt, 1.9, |draws| - 1) <= TimeoutAfter(irt, 0.0, draws) <= Term(1.1 * irt, 2.1, |draws| - 1)
  {
    var last := |draws| - 1;
    if last == 0 {
      FirstTimeout(irt, 0.0, draws);
    } else {
      UncappedEnvelope(irt, draws[..last]);
      TermPositive(0.9 * irt, 1.9, last - 1);
      NextTerm(0.9 * irt, 1.9, last);
      NextTerm(1.1 * irt, 2.1, last);
      UncappedStep(Term(0.9 * irt, 1.9, last - 1), Term(1.1 * irt, 2.1, last - 1),
                   TimeoutAfter(irt, 0.0, draws[..last]), draws[last]);
    }
  }

  function Constant(r: Jitter, n: nat): seq<Draw> { seq(n, _ => Draw(r, r)) }

  /** Both series are reached, so neither bound can be improved. */
  lemma {:induction false} UncappedEnvelopeIsTight(irt: real, n: nat)
    requires 0.0 < irt && n > 0
    ensures TimeoutAfter(irt, 0.0, Constant(-0.1, n)) == Term(0.9 * irt, 1.9, n - 1)
    ensures TimeoutAfter(irt, 0.0, Constant(0.1, n)) == Term(1.1 * irt, 2.1, n - 1)
  {
    if n > 1 {
      UncappedEnvelopeIsTight(irt, n - 1);
      assert Constant(-0.1, n)[..n - 1] == Constant(-0.1, n - 1);
      assert Constant(0.1, n)[..n - 1] == Constant(0.1, n - 1);
      NextTerm(0.9 * irt, 1.9, n - 1);
      NextTerm(1.1 * irt, 2.1, n - 1);
    }
  }
}
