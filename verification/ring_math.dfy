/** Positions in ring buffers and pages.
  *
  * A ring of m entries is walked by `ring_buffer_t::incr`; the entry an absolute
  * count x lands on is its remainder.  Quotient and remainder are written as
  * recursions so that the proofs that use them only need the laws below.
  */
module RingMath {

  /** The entry that absolute count x occupies in a ring of m entries. */
  function Slot(x: nat, m: nat): (r: nat)
    requires m > 0
    ensures r < m
    decreases x
  {
    if x < m then x else Slot(x - m, m)
  }

  /** The number of whole blocks of m below absolute count x. */
  function Div(x: nat, m: nat): (r: nat)
    requires m > 0
    decreases x
  {
    if x < m then 0 else 1 + Div(x - m, m)
  }

  /** ring_buffer_t::incr */
  function Incr(i: nat, m: nat): (r: nat)
    ensures i < m ==> r < m
  {
    if i == m - 1 then 0 else i + 1
  }

  /** ring_buffer_t::add */
  function Add(a: nat, b: nat, m: nat): nat {
    if a + b >= m then a + b - m else a + b
  }

  lemma {:induction false} SlotNext(x: nat, m: nat)
    requires m > 0
    ensures Slot(x + 1, m) == Incr(Slot(x, m), m)
    ensures Div(x + 1, m) == Div(x, m) + (if Slot(x, m) == m - 1 then 1 else 0)
    decreases x
  {
    if x >= m {
      SlotNext(x - m, m);
    } else if x == m - 1 {
      assert Slot(m, m) == Slot(0, m) == 0;
      assert Div(m, m) == 1 + Div(0, m) == 1;
    }
  }

  lemma {:induction false} SlotAdd(x: nat, d: nat, m: nat)
    requires m > 0 && d <= m
    ensures Slot(x + d, m) == Add(Slot(x, m), d, m)
    decreases d
  {
    if d > 0 {
      SlotAdd(x, d - 1, m);
      SlotNext(x + d - 1, m);
    }
  }

  lemma {:induction false} SlotsDiffer(x: nat, y: nat, m: nat)
    requires m > 0 && x < y < x + m
    ensures Slot(x, m) != Slot(y, m)
  {
    SlotAdd(x, y - x, m);
  }

  lemma {:induction false} DivMonotone(x: nat, y: nat, m: nat)
    requires m > 0 && x <= y
    ensures Div(x, m) <= Div(y, m)
    ensures Div(x, m) == Div(y, m) ==> y - x == Slot(y, m) - Slot(x, m)
    ensures Slot(y, m) == 0 && x < y ==> Div(x, m) < Div(y, m)
    ensures y - x <= m ==> Div(y, m) <= Div(x, m) + 1
    decreases y - x
  {
    if x < y {
      DivMonotone(x, y - 1, m);
      SlotNext(y - 1, m);
      if y - x <= m && Div(y, m) > Div(x, m) + 1 {
        DivMonotone(x, y - 1, m);
        SlotGap(x, y - 1, m);
      }
    }
  }

  /** Quotient and remainder together determine the count. */
  lemma {:induction false} SlotGap(x: nat, y: nat, m: nat)
    requires m > 0 && x <= y
    ensures Div(y, m) == Div(x, m) + 1 ==> y - x == m + Slot(y, m) - Slot(x, m)
    ensures Div(y, m) == Div(x, m) ==> y - x == Slot(y, m) - Slot(x, m)
    ensures Div(y, m) >= Div(x, m)
    decreases y - x
  {
    if x < y {
      SlotGap(x, y - 1, m);
      SlotNext(y - 1, m);
    }
  }

  /** A distance of k whole blocks is a distance of at least k in quotients. */
  lemma {:induction false} DivFar(x: nat, y: nat, m: nat, k: nat)
    requires m > 0 && y >= x + m * k
    ensures Div(y, m) >= Div(x, m) + k
    decreases k
  {
    if k == 0 {
      DivMonotone(x, y, m);
    } else {
      assert m * k == m * (k - 1) + m;
      assert y - m >= 0 by { assert m * (k - 1) >= 0; }
      DivFar(x, y - m, m, k - 1);
    }
  }

  /** A quotient gap below k keeps the distance below k blocks. */
  lemma {:induction false} DivNear(x: nat, y: nat, m: nat, k: nat)
    requires m > 0 && x <= y && Div(y, m) < Div(x, m) + k
    ensures y - x < m * k
  {
    if y - x >= m * k {
      DivFar(x, y, m, k);
    }
  }

  /** A remainder modulo a multiple keeps the remainder modulo the divisor. */
  lemma {:induction false} SlotOfSlot(x: nat, n: nat, m: nat)
    requires m > 0 && n > 0 && Slot(n, m) == 0
    ensures Slot(Slot(x, n), m) == Slot(x, m)
    decreases x
  {
    if x >= n {
      SlotOfSlot(x - n, n, m);
      SlotPlusMultiple(x - n, n, m);
    }
  }

  lemma {:induction false} SlotPlusMultiple(x: nat, n: nat, m: nat)
    requires m > 0 && Slot(n, m) == 0
    ensures Slot(x + n, m) == Slot(x, m)
    decreases n
  {
    if n >= m {
      SlotPlusMultiple(x, n - m, m);
    }
  }

  /** The recursions are the arithmetic quotient and remainder. */
  lemma {:induction false} SlotIsMod(x: nat, m: nat)
    requires m > 0
    ensures x == m * Div(x, m) + Slot(x, m)
    ensures Slot(x, m) == x % m && Div(x, m) == x / m
    decreases x
  {
    if x >= m {
      SlotIsMod(x - m, m);
      var q, r := Div(x - m, m), Slot(x - m, m);
      assert x == m * (q + 1) + r by { assert m * (q + 1) == m * q + m; }
      EuclidUnique(x, m, q + 1, r);
    } else {
      EuclidUnique(x, m, 0, x);
    }
  }

  lemma EuclidUnique(x: nat, m: nat, q: nat, r: nat)
    requires r < m && x == m * q + r
    ensures x % m == r && x / m == q
  {
    var q', r' := x / m, x % m;
    assert x == m * q' + r';
    MulGap(m, q, q');
  }

  lemma {:induction false} MulGap(m: nat, a: nat, b: nat)
    ensures a < b ==> m * b >= m * a + m
    ensures b < a ==> m * a >= m * b + m
    decreases a + b
  {
    if a < b {
      assert m * b == m * (b - 1) + m;
      MulGap(m, a, b - 1);
    } else if b < a {
      assert m * a == m * (a - 1) + m;
      MulGap(m, b, a - 1);
    }
  }

  function Pow(a: nat, k: nat): (r: nat)
    ensures a > 0 ==> r > 0
  {
    if k == 0 then 1 else a * Pow(a, k - 1)
  }

  lemma DivLess(x: nat, w: nat, n: nat)
    requires w > 0 && x < n * w
    ensures 0 <= x / w < n && x == x / w * w + x % w
  {
    SlotIsMod(x, w);
    MulGap(w, x / w, n);
    assert n * w == w * n && x / w * w == w * (x / w);
  }

  lemma Distribute(a: nat, x: nat)
    ensures a * (x + 1) == a * x + a
  {
  }

  lemma MulNat(a: nat, b: nat)
    ensures 0 <= a * b
  {
  }

  lemma PowAbove(a: nat, n: nat)
    requires a >= 2
    ensures Pow(a, n) > 1 <==> n > 0
    ensures n == 0 ==> Pow(a, n) == 1
  {
    if n > 0 { MulGap(a, 0, Pow(a, n - 1)); }
  }

  lemma PowDown(a: nat, n: nat)
    requires a > 0 && n > 0
    ensures Pow(a, n) / a == Pow(a, n - 1)
  {
    EuclidUnique(Pow(a, n), a, Pow(a, n - 1), 0);
  }
}
