/**
 * Widths of hardware signals. A signal `width` bits wide that is assigned a
 * wider value keeps its low `width` bits. Wherever the model assigns a value
 * that may not fit its signal, it goes through `Truncate`.
 */
module Hdl {

  function Pow2(n: nat): (r: nat)
    ensures r >= 1
  {
    if n == 0 then 1 else 2 * Pow2(n - 1)
  }

  /** The value a `width`-bit signal holds after being assigned `v`. */
  function Truncate(v: nat, width: nat): (r: nat)
    ensures r == v % Pow2(width)
    ensures r < Pow2(width)
    ensures v < Pow2(width) ==> r == v
  {
    if v < Pow2(width) then ModBelow(v, Pow2(width)); v else v % Pow2(width)
  }

  lemma ModBelow(v: nat, m: nat)
    requires v < m
    ensures v % m == v
  {
  }

  /** Bit `i` of `v`, bit 0 being the least significant. */
  function Bit(v: nat, i: nat): nat
  {
    if i == 0 then v % 2 else Bit(v / 2, i - 1)
  }

  /** `2 ** width - 1`, the value with the low `width` bits set. */
  function AllOnes(width: nat): nat
  {
    Pow2(width) - 1
  }

  /** `2 ** width - 1` sets exactly the bits below `width`. */
  lemma {:induction false} AllOnesBits(width: nat, i: nat)
    ensures Bit(AllOnes(width), i) == (if i < width then 1 else 0)
  {
    var w' := if width == 0 then 0 else width - 1;
    assert AllOnes(width) / 2 == AllOnes(w');
    if i > 0 {
      AllOnesBits(w', i - 1);
    }
  }

  /** The widths the bus uses. */
  lemma Pow2Values()
    ensures Pow2(1) == 2 && Pow2(4) == 16 && Pow2(8) == 256
    ensures Pow2(30) == 0x4000_0000 && Pow2(32) == 0x1_0000_0000
  {
    assert Pow2(8) == 256;
    assert Pow2(16) == 0x1_0000;
    assert Pow2(24) == 0x100_0000;
    assert Pow2(30) == 0x4000_0000;
  }
}
