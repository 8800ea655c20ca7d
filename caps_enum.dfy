/** The enumerated-value sets of a capability descriptor (virDomainCapsEnum). Each set is
    the `values` word of the C struct, an unsigned int whose bit `e` says that enum value
    `e` is supported. */
module CapsEnum {

  /** The `values` field: 32 bits, one per possible enum value. */
  type Mask = bv32

  /** An enum value that has a bit in the word: 0 up to sizeof(unsigned int) * CHAR_BIT - 1. */
  type BitIndex = bv5

  const NoBits: Mask := 0

  /** Whether enum value `e` is a member of the set. */
  predicate Contains(m: Mask, e: BitIndex)
  {
    (m >> e) & 1 == 1
  }

  /** Every value that has a bit in the word is a member. */
  ghost predicate IsFull(m: Mask)
  {
    forall e: BitIndex :: Contains(m, e)
  }

  /** The set with value `e` added: the word with bit `e` also set. */
  function Add(m: Mask, e: BitIndex): (r: Mask)
    ensures forall f: BitIndex :: Contains(r, f) <==> Contains(m, f) || f == e
  {
    assert forall f: BitIndex :: Contains(m | (1 << e), f) <==> Contains(m, f) || f == e by {
      forall f: BitIndex
        ensures Contains(m | (1 << e), f) <==> Contains(m, f) || f == e
      {
        AddHasBit(m, e, f);
      }
    }
    m | (1 << e)
  }

  /** Bit `f` of `m | (1 << e)`, one position at a time. */
  lemma AddHasBit(m: Mask, e: BitIndex, f: BitIndex)
    ensures Contains(m | (1 << e), f) <==> Contains(m, f) || f == e
  {
  }

  /** SET_ALL_BITS(x): memset of the whole `values` word to 0xff bytes. Every enum value
      becomes a member, whatever the word held before. */
  function SetAllBits(m: Mask): (r: Mask)
    ensures IsFull(r)
  {
    0xFFFF_FFFF
  }

  /** VIR_DOMAIN_CAPS_ENUM_SET(x, e1, e2, ...), read as adding: the members afterwards are
      the earlier members and the listed values, and nothing else. */
  function EnumSet(m: Mask, es: seq<BitIndex>): (r: Mask)
    ensures forall i :: 0 <= i < |es| ==> Contains(r, es[i])
    ensures forall e: BitIndex :: Contains(r, e) <==> Contains(m, e) || e in es
    decreases |es|
  {
    if es == [] then m else EnumSet(Add(m, es[0]), es[1..])
  }

  /** A set holds every enum value exactly when its word is all ones, so "every value is
      supported" and the memset encoding agree. */
  lemma FullIffAllOnes(m: Mask)
    ensures IsFull(m) <==> m == 0xFFFF_FFFF
  {
    if IsFull(m) {
      var e: nat := 0;
      while e < 32
        invariant e <= 32
        invariant (m | (0xFFFF_FFFF << e)) == 0xFFFF_FFFF
      {
        assert Contains(m, e as BitIndex);
        e := e + 1;
      }
    }
  }

  /** Applying SET_ALL_BITS twice is the same as applying it once. */
  lemma SetAllBitsIdempotent(m: Mask)
    ensures SetAllBits(SetAllBits(m)) == SetAllBits(m)
  {
  }

  /** Setting all bits and adding single values commute: either order gives the full set. */
  lemma {:induction false} SetAllCommutesWithEnumSet(m: Mask, es: seq<BitIndex>)
    ensures EnumSet(SetAllBits(m), es) == SetAllBits(EnumSet(m, es))
  {
    var r := EnumSet(SetAllBits(m), es);
    assert IsFull(r) by {
      forall e: BitIndex
        ensures Contains(r, e)
      {
        assert Contains(SetAllBits(m), e);
      }
    }
    FullIffAllOnes(r);
  }
}
