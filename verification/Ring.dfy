// Index arithmetic shared by the three ring queues: a counter `i` that never
// wraps is stored in slot `i & MASK`, where MASK == 2^bits - 1.
module Ring {

  function Pow2(n: nat): (r: nat)
    ensures 1 <= r
  {
    if n == 0 then 1 else 2 * Pow2(n - 1)
  }

  // Bitwise "and" of two naturals, bit by bit.
  function BitAnd(a: nat, b: nat): (r: nat) {
    if a == 0 || b == 0 then 0
    else (if a % 2 == 1 && b % 2 == 1 then 1 else 0) + 2 * BitAnd(a / 2, b / 2)
  }

  function Mask(bits: nat): (r: nat) {
    Pow2(bits) - 1
  }

  lemma HalfMod(i: nat, m: nat)
    requires 0 < m
    ensures i % (2 * m) == i % 2 + 2 * ((i / 2) % m)
  {
    var q, r := (i / 2) / m, (i / 2) % m;
    assert i / 2 == q * m + r;
    assert i == q * (2 * m) + (i % 2 + 2 * r);
    ModUnique(i, 2 * m, q, i % 2 + 2 * r);
  }

  lemma MulBounds(q: int, m: int)
    requires 0 < m
    ensures q >= 1 ==> q * m >= m
    ensures q == 0 ==> q * m == 0
    ensures q <= -1 ==> q * m <= -m
  {
  }

  lemma ModUnique(i: int, m: int, q: int, r: int)
    requires 0 < m && i == q * m + r && 0 <= r < m
    ensures i % m == r
  {
    var q', r' := i / m, i % m;
    assert i == q' * m + r';
    assert (q - q') * m == r' - r;
    MulBounds(q - q', m);
  }

  lemma SameRemainder(a: nat, b: nat, m: nat)
    requires 0 < m && a < b && a % m == b % m
    ensures a + m <= b
  {
    var q := b / m - a / m;
    assert a == (a / m) * m + a % m && b == (b / m) * m + b % m;
    assert b - a == q * m;
    MulBounds(q, m);
  }

  // The mask picks out the remainder modulo the ring size.
  lemma {:induction false} MaskIsMod(i: nat, bits: nat)
    ensures BitAnd(i, Mask(bits)) == i % Pow2(bits)
  {
    if bits == 0 {
    } else {
      HalfMod(i, Pow2(bits - 1));
      MaskIsMod(i / 2, bits - 1);
      if i == 0 {
        assert 0 % Pow2(bits) == 0;
      } else {
        assert Mask(bits) == 2 * Mask(bits - 1) + 1;
        assert Mask(bits) / 2 == Mask(bits - 1);
      }
    }
  }

  function Slot(i: nat, bits: nat): (r: nat)
    ensures r < Pow2(bits)
  {
    MaskIsMod(i, bits);
    BitAnd(i, Mask(bits))
  }

  // Two counters less than one lap apart never share a slot.
  lemma SlotsDiffer(a: nat, b: nat, bits: nat)
    requires a < b < a + Pow2(bits)
    ensures Slot(a, bits) != Slot(b, bits)
  {
    MaskIsMod(a, bits);
    MaskIsMod(b, bits);
    if a % Pow2(bits) == b % Pow2(bits) {
      SameRemainder(a, b, Pow2(bits));
      assert false;
    }
  }

  // ------------------------------------------------------------- ring contents

  function Cell<T>(ring: seq<T>, bits: nat, i: nat): (v: T)
    requires |ring| == Pow2(bits)
  {
    ring[Slot(i, bits)]
  }

  function Put<T>(ring: seq<T>, bits: nat, i: nat, val: T): (r: seq<T>)
    requires |ring| == Pow2(bits)
    ensures |r| == Pow2(bits) && Cell(r, bits, i) == val
  {
    ring[Slot(i, bits) := val]
  }

  // The values stored for the indices lo, lo + 1, ..., hi - 1.
  function Window<T>(ring: seq<T>, bits: nat, lo: nat, hi: nat): (w: seq<T>)
    requires |ring| == Pow2(bits) && lo <= hi
    ensures |w| == hi - lo
    decreases hi
  {
    if lo == hi then [] else Window(ring, bits, lo, hi - 1) + [Cell(ring, bits, hi - 1)]
  }

  lemma {:induction false} WindowFront<T>(ring: seq<T>, bits: nat, lo: nat, hi: nat)
    requires |ring| == Pow2(bits) && lo < hi
    ensures Window(ring, bits, lo, hi) == [Cell(ring, bits, lo)] + Window(ring, bits, lo + 1, hi)
    decreases hi
  {
    if lo + 1 < hi {
      WindowFront(ring, bits, lo, hi - 1);
    } else {
      assert Window(ring, bits, lo, lo) == [];
    }
  }

  // A write for an index less than one lap ahead leaves the window alone.
  lemma {:induction false} WindowPut<T>(ring: seq<T>, bits: nat, lo: nat, hi: nat, h: nat, val: T)
    requires |ring| == Pow2(bits) && lo <= hi <= h < lo + Pow2(bits)
    ensures Window(Put(ring, bits, h, val), bits, lo, hi) == Window(ring, bits, lo, hi)
    decreases hi
  {
    if lo < hi {
      SlotsDiffer(hi - 1, h, bits);
      WindowPut(ring, bits, lo, hi - 1, h, val);
    }
  }
}
