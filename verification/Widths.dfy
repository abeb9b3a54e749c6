/** Sizes of machine words. */
module Widths {
  const WORD := 0x1_0000_0000
  const DOUBLE := 0x1_0000_0000_0000_0000

  /** How many numbers k bytes can tell apart. */
  function Pow256(k: nat): (p: nat)
    ensures p > 0
  {
    if k == 0 then 1 else 256 * Pow256(k - 1)
  }

  lemma Powers()
    ensures Pow256(1) == 0x100 && Pow256(4) == WORD && Pow256(8) == DOUBLE
  {
    assert Pow256(2) == 0x1_0000;
    assert Pow256(3) == 0x100_0000;
    assert Pow256(5) == 0x100_0000_0000;
    assert Pow256(6) == 0x1_0000_0000_0000;
    assert Pow256(7) == 0x100_0000_0000_0000;
  }
}
