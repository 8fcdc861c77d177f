/** Sequence and arithmetic helpers shared by the chunking and routing models. */
module Collections {

  /** Python `[x for x in s if p(x)]`. */
  function Filter<T>(s: seq<T>, p: T -> bool): (r: seq<T>)
    ensures |r| <= |s|
  {
    if |s| == 0 then [] else (if p(s[0]) then [s[0]] else []) + Filter(s[1..], p)
  }

  /** An element survives the filter exactly when it occurs in the input and satisfies the predicate. */
  lemma {:induction false} FilterMembership<T>(s: seq<T>, p: T -> bool, x: T)
    ensures x in Filter(s, p) <==> x in s && p(x)
  {
    if |s| > 0 {
      FilterMembership(s[1..], p, x);
      assert s == [s[0]] + s[1..];
    }
  }

  /** A filter that every element passes keeps the sequence. */
  lemma {:induction false} FilterAllKept<T>(s: seq<T>, p: T -> bool)
    requires forall k :: 0 <= k < |s| ==> p(s[k])
    ensures Filter(s, p) == s
  {
    if |s| > 0 {
      FilterAllKept(s[1..], p);
      assert s == [s[0]] + s[1..];
    }
  }

  /** Filtering commutes with appending one element at the end, so a loop can build a filter left to right. */
  lemma {:induction false} FilterSnoc<T>(s: seq<T>, x: T, p: T -> bool)
    ensures Filter(s + [x], p) == Filter(s, p) + (if p(x) then [x] else [])
  {
    if |s| == 0 {
      assert s + [x] == [x];
    } else {
      var t := s + [x];
      assert t[0] == s[0] && t[1..] == s[1..] + [x];
      FilterSnoc(s[1..], x, p);
      calc {
        Filter(t, p);
        (if p(s[0]) then [s[0]] else []) + Filter(s[1..] + [x], p);
        (if p(s[0]) then [s[0]] else []) + (Filter(s[1..], p) + (if p(x) then [x] else []));
        Filter(s, p) + (if p(x) then [x] else []);
      }
    }
  }

  /** A filter of a filter by a stronger predicate only drops elements: it is a sub-filter. */
  lemma {:induction false} FilterStronger<T>(s: seq<T>, p: T -> bool, q: T -> bool)
    requires forall x :: q(x) ==> p(x)
    ensures Filter(s, q) == Filter(Filter(s, p), q)
  {
    if |s| > 0 {
      FilterStronger(s[1..], p, q);
      var fp := Filter(s, p);
      if p(s[0]) {
        assert fp == [s[0]] + Filter(s[1..], p);
        assert fp[0] == s[0] && fp[1..] == Filter(s[1..], p);
        assert Filter(fp, q) == (if q(s[0]) then [s[0]] else []) + Filter(fp[1..], q);
      } else {
        assert fp == Filter(s[1..], p);
      }
    }
  }

  /** Python `s[-n:]` for `n >= 0`: the last `n` elements (all of them when there are fewer). */
  function LastN<T>(s: seq<T>, n: nat): (r: seq<T>)
    ensures |r| == if |s| < n then |s| else n
    ensures forall k :: 0 <= k < |r| ==> r[k] == s[|s| - |r| + k]
  {
    if |s| <= n then s else s[|s| - n..]
  }

  function Min(a: int, b: int): int { if a <= b then a else b }

  function Max(a: int, b: int): int { if a >= b then a else b }

  /** The offset `k * step` of the `k`-th window or batch, counted stride by stride so that proofs
      about it stay linear. */
  function Offset(k: nat, step: nat): nat {
    if k == 0 then 0 else Offset(k - 1, step) + step
  }

  lemma OffsetSucc(k: nat, step: nat)
    ensures Offset(k + 1, step) == Offset(k, step) + step
  {
  }

  lemma {:induction false} OffsetIsProduct(k: nat, step: nat)
    ensures Offset(k, step) == k * step
  {
    if k > 0 {
      OffsetIsProduct(k - 1, step);
      assert k * step == (k - 1) * step + step;
    }
  }

  /** `ceil(n / step)` for a positive step, counted stride by stride: the number of strides that
      start below `n`. */
  function CeilDiv(n: nat, step: nat): nat
    requires step > 0
    decreases n
  {
    if n == 0 then 0 else if n <= step then 1 else 1 + CeilDiv(n - step, step)
  }

  /** Window `k` of a stride-`step` cover of `[0, n)` starts inside it exactly when `k < CeilDiv(n, step)`. */
  lemma {:induction false} CeilDivCovers(n: nat, step: nat, k: nat)
    requires step > 0
    ensures k < CeilDiv(n, step) <==> Offset(k, step) < n
    decreases k
  {
    if k > 0 {
      if n <= step {
        OffsetAtLeastStep(k - 1, step);
      } else {
        CeilDivCovers(n - step, step, k - 1);
      }
    }
  }

  lemma OffsetAtLeastStep(k: nat, step: nat)
    ensures Offset(k + 1, step) >= step
  {
  }

  /** `CeilDiv(n, step)` is the one count `c` whose windows `[k*step, ...)` for `k < c` start before `n`
      and whose next start `c*step` does not. */
  lemma CeilDivUnique(c: nat, n: nat, step: nat)
    requires step > 0
    requires Offset(c, step) >= n
    requires c == 0 || Offset(c - 1, step) < n
    ensures c == CeilDiv(n, step)
  {
    CeilDivCovers(n, step, c);
    if c > 0 {
      CeilDivCovers(n, step, c - 1);
    }
  }

  lemma MulMonotone(a: int, b: int, step: int)
    requires step > 0 && a <= b
    ensures a * step <= b * step
  {
    assert b * step - a * step == (b - a) * step;
  }

  lemma MulCancel(a: int, b: int, step: int)
    requires step > 0 && a * step < b * step
    ensures a < b
  {
    if a >= b {
      MulMonotone(b, a, step);
    }
  }

  /** The stride count is Python's `ceil(n / step)`, i.e. `(n + step - 1) // step`. */
  lemma {:induction false} CeilDivIsQuotient(n: nat, step: nat)
    requires step > 0
    ensures CeilDiv(n, step) == (n + step - 1) / step
    decreases n
  {
    if n == 0 {
      DivSmall(step - 1, step);
    } else if n <= step {
      DivSmall(n - 1, step);
      DivShift(n - 1, step);
    } else {
      CeilDivIsQuotient(n - step, step);
      DivShift(n - 1, step);
    }
  }

  lemma DivSmall(a: nat, step: nat)
    requires a < step
    ensures a / step == 0
  {
  }

  lemma DivShift(a: nat, step: nat)
    requires step > 0
    ensures (a + step) / step == a / step + 1
  {
    var q, r := a / step, a % step;
    var q2, r2 := (a + step) / step, (a + step) % step;
    assert a == q * step + r && 0 <= r < step;
    assert a + step == q2 * step + r2 && 0 <= r2 < step;
    var d := q2 - (q + 1);
    assert d * step == q2 * step - (q + 1) * step;
    assert d * step == r - r2;
    if d > 0 {
      MulMonotone(1, d, step);
    } else if d < 0 {
      MulMonotone(d, -1, step);
    }
  }
}
