/**
 Kotlin `Int` values used as bit sets.

 A Kotlin `Int` is a 32-bit two's-complement value whose infix `and` / `or`
 act on the bit pattern only, so a `bv32` models it exactly: `and` is `&`,
 `or` is `|`, and `==` compares bit patterns.
 */
module Masks {

  /** Every bit of `bits` is also set in `mask`: the test `(mask and bits) == bits`. */
  predicate Includes(mask: bv32, bits: bv32)
  {
    mask & bits == bits
  }

  /** A mask that includes an OR includes both operands. */
  lemma IncludesOrSplit(mask: bv32, a: bv32, b: bv32)
    requires Includes(mask, a | b)
    ensures Includes(mask, a) && Includes(mask, b)
  {
  }

  /** A mask that includes both operands includes their OR. */
  lemma IncludesOrJoin(mask: bv32, a: bv32, b: bv32)
    requires Includes(mask, a) && Includes(mask, b)
    ensures Includes(mask, a | b)
  {
  }

  /** Inclusion is transitive. */
  lemma IncludesTransitive(a: bv32, b: bv32, c: bv32)
    requires Includes(a, b) && Includes(b, c)
    ensures Includes(a, c)
  {
  }

  /**
   The OR of `flag` and `flags`, folded from left to right as the source's
   loop does. It includes every one of them (and, by `CombineFlagsLeast`,
   nothing more than it must).
   */
  function CombineFlags(flag: bv32, flags: seq<bv32>): (all: bv32)
    ensures Includes(all, flag)
    ensures forall j :: 0 <= j < |flags| ==> Includes(all, flags[j])
    decreases |flags|
  {
    if |flags| == 0 then
      flag
    else
      var init := flags[..|flags| - 1];
      var last := flags[|flags| - 1];
      var rest := CombineFlags(flag, init);
      var all := rest | last;
      IncludesOrSplit(all, rest, last);
      IncludesTransitive(all, rest, flag);
      assert forall j :: 0 <= j < |flags| - 1 ==> Includes(all, flags[j]) by {
        forall j | 0 <= j < |flags| - 1
          ensures Includes(all, flags[j])
        {
          assert Includes(rest, init[j]);
          IncludesTransitive(all, rest, flags[j]);
        }
      }
      all
  }

  /** Every mask that includes `flag` and each of `flags` includes their combination. */
  lemma {:induction false} CombineFlagsLeast(mask: bv32, flag: bv32, flags: seq<bv32>)
    ensures (Includes(mask, flag) && forall j :: 0 <= j < |flags| ==> Includes(mask, flags[j]))
      ==> Includes(mask, CombineFlags(flag, flags))
    decreases |flags|
  {
    if |flags| > 0 && Includes(mask, flag) && forall j :: 0 <= j < |flags| ==> Includes(mask, flags[j]) {
      var init := flags[..|flags| - 1];
      assert forall j :: 0 <= j < |init| ==> init[j] == flags[j];
      CombineFlagsLeast(mask, flag, init);
      IncludesOrJoin(mask, CombineFlags(flag, init), flags[|flags| - 1]);
    }
  }
}
