/** Feeding bits one by one into a register, whatever the register is made of.

  The lemmas need little about a single step: that it loses nothing, that it can
  be traced backwards for a while, or that it keeps account of a parity.
 */
module Lfsr {

  function Run<R>(step: (R, bool) -> R, r: R, bits: seq<bool>): R
    decreases |bits|
  {
    if bits == [] then r else Run(step, step(r, bits[0]), bits[1..])
  }

  lemma {:induction false} RunAppend<R>(step: (R, bool) -> R, r: R, a: seq<bool>, b: seq<bool>)
    ensures Run(step, r, a + b) == Run(step, Run(step, r, a), b)
    decreases |a|
  {
    if a == [] {
      assert a + b == b;
    } else {
      RunAppend(step, step(r, a[0]), a[1..], b);
      assert (a + b)[1..] == a[1..] + b;
    }
  }

  /** A step loses nothing: equal successors by the same bit had equal origins. */
  ghost predicate Lossless<R(!new)>(step: (R, bool) -> R) {
    forall f, g, p :: step(f, p) == step(g, p) ==> f == g
  }

  /** The register never forgets a difference, however much equal data follows. */
  lemma {:induction false} RunInjective<R(!new)>(step: (R, bool) -> R, f: R, g: R, bits: seq<bool>)
    requires Lossless(step)
    requires Run(step, f, bits) == Run(step, g, bits)
    ensures f == g
    decreases |bits|
  {
    if bits != [] {
      var p := bits[0];
      RunInjective(step, step(f, p), step(g, p), bits[1..]);
      assert step(f, p) == step(g, p);
    }
  }

  /** agree(n, f, g) is what is left of equality after tracing f and g back n steps. */
  ghost predicate Traceable<R(!new)>(step: (R, bool) -> R, agree: (nat, R, R) -> bool, limit: nat) {
    && (forall f :: agree(0, f, f))
    && forall n: nat, f, p, g, q :: n < limit && agree(n, step(f, p), step(g, q)) ==>
         agree(n + 1, f, g) && (f == g ==> p == q)
  }

  /** Within the limit, equal outcomes from equal registers come from equal inputs. */
  lemma {:induction false} RunTraced<R(!new)>(
      step: (R, bool) -> R, agree: (nat, R, R) -> bool, limit: nat, f: R, x: seq<bool>, g: R, y: seq<bool>)
    requires Traceable(step, agree, limit)
    requires |x| == |y| <= limit
    requires Run(step, f, x) == Run(step, g, y)
    ensures agree(|x|, f, g)
    ensures f == g ==> x == y
    decreases |x|
  {
    if x != [] {
      var p, q := x[0], y[0];
      RunTraced(step, agree, limit, step(f, p), x[1..], step(g, q), y[1..]);
      assert agree(|x| - 1, step(f, p), step(g, q));
      if f == g {
        assert x == [x[0]] + x[1..] && y == [y[0]] + y[1..];
      }
    }
  }

  /** Inputs that differ only within a window no longer than the limit lead apart for good. */
  lemma BurstVisible<R(!new)>(
      step: (R, bool) -> R, agree: (nat, R, R) -> bool, limit: nat, r: R, a: seq<bool>, b: seq<bool>, at: nat, len: nat)
    requires Lossless(step) && Traceable(step, agree, limit)
    requires |a| == |b| && at + len <= |a| && len <= limit
    requires a[..at] == b[..at] && a[at + len..] == b[at + len..]
    requires Run(step, r, a) == Run(step, r, b)
    ensures a == b
  {
    var p, x, y, s := a[..at], a[at..at + len], b[at..at + len], a[at + len..];
    assert a == p + (x + s) && b == p + (y + s);
    var q := Run(step, r, p);
    RunAppend(step, r, p, x + s);
    RunAppend(step, r, p, y + s);
    RunAppend(step, q, x, s);
    RunAppend(step, q, y, s);
    RunInjective(step, Run(step, q, x), Run(step, q, y), s);
    RunTraced(step, agree, limit, q, x, q, y);
  }

  /** How many of the bits are set. */
  function Ones(bits: seq<bool>): nat {
    if bits == [] then 0 else (if bits[0] then 1 else 0) + Ones(bits[1..])
  }

  /** Every set bit toggles the parity of the register. */
  lemma {:induction false} RunParity<R(!new)>(step: (R, bool) -> R, odd: R -> bool, r: R, bits: seq<bool>)
    requires forall f, p :: odd(step(f, p)) == (odd(f) != p)
    ensures odd(Run(step, r, bits)) == (odd(r) != (Ones(bits) % 2 == 1))
    decreases |bits|
  {
    if bits != [] {
      RunParity(step, odd, step(r, bits[0]), bits[1..]);
    }
  }

  /** h carries every step of one register over to the other. */
  ghost predicate Carries<R(!new), Q>(step: (R, bool) -> R, h: R -> Q, step': (Q, bool) -> Q) {
    forall r, p :: h(step(r, p)) == step'(h(r), p)
  }

  lemma {:induction false} RunCarried<R(!new), Q>(
      step: (R, bool) -> R, h: R -> Q, step': (Q, bool) -> Q, r: R, bits: seq<bool>)
    requires Carries(step, h, step')
    ensures h(Run(step, r, bits)) == Run(step', h(r), bits)
    decreases |bits|
  {
    if bits != [] {
      var p := bits[0];
      var q := step(r, p);
      assert h(q) == step'(h(r), p);
      RunCarried(step, h, step', q, bits[1..]);
    }
  }

  /** Eight bits, as the steps take them apart. */
  function EightBits(p0: bool, p1: bool, p2: bool, p3: bool, p4: bool, p5: bool, p6: bool, p7: bool): (bits: seq<bool>)
    ensures |bits| == 8
  {
    [p0] + ([p1] + ([p2] + ([p3] + ([p4] + ([p5] + ([p6] + ([p7] + [])))))))
  }

  lemma RunOn<R>(step: (R, bool) -> R, r: R, p: bool, rest: seq<bool>)
    ensures Run(step, r, [p] + rest) == Run(step, step(r, p), rest)
  {
    assert ([p] + rest)[1..] == rest;
  }

  lemma RunFour<R>(step: (R, bool) -> R, r: R, p0: bool, p1: bool, p2: bool, p3: bool, rest: seq<bool>)
    ensures Run(step, r, [p0] + ([p1] + ([p2] + ([p3] + rest))))
         == Run(step, step(step(step(step(r, p0), p1), p2), p3), rest)
  {
    RunOn(step, r, p0, [p1] + ([p2] + ([p3] + rest)));
    RunOn(step, step(r, p0), p1, [p2] + ([p3] + rest));
    RunOn(step, step(step(r, p0), p1), p2, [p3] + rest);
    RunOn(step, step(step(step(r, p0), p1), p2), p3, rest);
  }
}
