/** The 32-bit action signature: set and tested bit by bit in C with a 64-bit
    shift, and tested with literal masks by the P4 control blocks. */
module Signature {
  import opened OpenFlow

  function SetBit(sig: bv32, bit: bv16): bv32
    requires bit < 64
  {
    (((sig as bv64) | ((1 as bv64) << bit)) & 0xffff_ffff) as bv32
  }

  function Masked(sig: bv32, bit: bv16): bv64
    requires bit < 64
  {
    (sig as bv64) & ((1 as bv64) << bit)
  }

  predicate CheckBit(sig: bv32, bit: bv16)
    requires bit < 64
  {
    Masked(sig, bit) != 0
  }

  /** The guard of a P4 control block: every bit of the mask is set. */
  predicate Guard(bmap: bv32, mask: bv32) {
    bmap & mask == mask
  }

  lemma SetBitSame(sig: bv32, bit: bv16)
    requires bit < 32
    ensures CheckBit(SetBit(sig, bit), bit)
  {
  }

  lemma DistinctBits(b: bv16, c: bv16)
    requires b < 32 && c < 32 && b != c
    ensures ((1 as bv64) << b) & ((1 as bv64) << c) == 0
    ensures ((1 as bv64) << c) & 0xffff_ffff == (1 as bv64) << c
  {
  }

  lemma OrOutsideMask(s: bv64, x: bv64, y: bv64)
    requires x & y == 0 && y & 0xffff_ffff == y
    ensures ((s | x) & 0xffff_ffff) & y == s & y
  {
  }

  lemma SetBitOther(sig: bv32, b: bv16, c: bv16)
    requires b < 32 && c < 32 && b != c
    ensures Masked(SetBit(sig, b), c) == Masked(sig, c)
  {
    DistinctBits(b, c);
    OrOutsideMask(sig as bv64, (1 as bv64) << b, (1 as bv64) << c);
  }

  /** Setting a bit sets that bit and no other. */
  lemma SetThenCheck(sig: bv32, b: bv16, c: bv16)
    requires b < 32 && c < 32
    ensures CheckBit(SetBit(sig, b), c) <==> CheckBit(sig, c) || b == c
  {
    if b == c {
      SetBitSame(sig, b);
    } else {
      SetBitOther(sig, b, c);
    }
  }

  /** The C shift is 64 bits wide: a bit above the signature is lost, not wrapped. */
  lemma SetHighBit(sig: bv32, bit: bv16)
    requires 32 <= bit < 64
    ensures SetBit(sig, bit) == sig
  {
  }

  lemma GuardIsBit(bmap: bv32, mask: bv32, bit: bv16)
    requires bit < 32 && mask as bv64 == (1 as bv64) << bit
    ensures Guard(bmap, mask) <==> CheckBit(bmap, bit)
  {
  }

  /** Every mask the P4 control blocks test is the C bit of the action type it stands for. */
  lemma GuardsAreBits(bmap: bv32)
    ensures Guard(bmap, 0x1) <==> CheckBit(bmap, OFPAT_OUTPUT.Code())
    ensures Guard(bmap, 0x8000) <==> CheckBit(bmap, OFPAT_SET_MPLS_TTL.Code())
    ensures Guard(bmap, 0x10000) <==> CheckBit(bmap, OFPAT_DEC_MPLS_TTL.Code())
    ensures Guard(bmap, 0x20000) <==> CheckBit(bmap, OFPAT_PUSH_VLAN.Code())
    ensures Guard(bmap, 0x40000) <==> CheckBit(bmap, OFPAT_POP_VLAN.Code())
    ensures Guard(bmap, 0x80000) <==> CheckBit(bmap, OFPAT_PUSH_MPLS.Code())
    ensures Guard(bmap, 0x100000) <==> CheckBit(bmap, OFPAT_POP_MPLS.Code())
    ensures Guard(bmap, 0x400000) <==> CheckBit(bmap, OFPAT_GROUP.Code())
    ensures Guard(bmap, 0x800000) <==> CheckBit(bmap, OFPAT_SET_NW_TTL.Code())
    ensures Guard(bmap, 0x1000000) <==> CheckBit(bmap, OFPAT_DEC_NW_TTL.Code())
    ensures Guard(bmap, 0x2000000) <==> CheckBit(bmap, OFPAT_SET_FIELD.Code())
  {
    GuardIsBit(bmap, 0x1, OFPAT_OUTPUT.Code());
    GuardIsBit(bmap, 0x8000, OFPAT_SET_MPLS_TTL.Code());
    GuardIsBit(bmap, 0x10000, OFPAT_DEC_MPLS_TTL.Code());
    GuardIsBit(bmap, 0x20000, OFPAT_PUSH_VLAN.Code());
    GuardIsBit(bmap, 0x40000, OFPAT_POP_VLAN.Code());
    GuardIsBit(bmap, 0x80000, OFPAT_PUSH_MPLS.Code());
    GuardIsBit(bmap, 0x100000, OFPAT_POP_MPLS.Code());
    GuardIsBit(bmap, 0x400000, OFPAT_GROUP.Code());
    GuardIsBit(bmap, 0x800000, OFPAT_SET_NW_TTL.Code());
    GuardIsBit(bmap, 0x1000000, OFPAT_DEC_NW_TTL.Code());
    GuardIsBit(bmap, 0x2000000, OFPAT_SET_FIELD.Code());
  }

  /** The `t` low bits of two signatures agree. */
  predicate SameLow(s: bv32, r: bv32, t: bv16)
    requires t <= 32
  {
    (s ^ r) & (((1 as bv32) << t) - 1) == 0
  }

  lemma SameLowNext(s: bv32, r: bv32, t: bv16)
    requires t < 32 && SameLow(s, r, t)
    requires Masked(s, t) == Masked(r, t)
    ensures SameLow(s, r, t + 1)
  {
  }

  lemma SameLowAll(s: bv32, r: bv32)
    requires SameLow(s, r, 32)
    ensures s == r
  {
  }

  lemma MaskedIsBit(s: bv32, r: bv32, t: bv16)
    requires t < 32 && (CheckBit(s, t) <==> CheckBit(r, t))
    ensures Masked(s, t) == Masked(r, t)
  {
  }

  lemma {:induction false} SameLowUpTo(s: bv32, r: bv32, t: bv16)
    requires t <= 32
    requires forall b: bv16 :: b < 32 ==> (CheckBit(s, b) <==> CheckBit(r, b))
    ensures SameLow(s, r, t)
    decreases t
  {
    if t == 0 {
    } else {
      SameLowUpTo(s, r, t - 1);
      MaskedIsBit(s, r, t - 1);
      SameLowNext(s, r, t - 1);
    }
  }

  /** A signature is determined by its 32 bits. */
  lemma BitsDetermine(s: bv32, r: bv32)
    requires forall b: bv16 :: b < 32 ==> (CheckBit(s, b) <==> CheckBit(r, b))
    ensures s == r
  {
    SameLowUpTo(s, r, 32);
    SameLowAll(s, r);
  }

  // ----- 64-bit ids -----

  function Masked64(x: bv64, bit: bv16): bv64
    requires bit < 64
  {
    x & ((1 as bv64) << bit)
  }

  predicate HasBit(x: bv64, bit: bv16)
    requires bit < 64
  {
    Masked64(x, bit) != 0
  }

  /** The bits of x are those of y and those of z. */
  ghost predicate Unites(x: bv64, y: bv64, z: bv64) {
    forall bit: bv16 | bit < 64 :: HasBit(x, bit) <==> HasBit(y, bit) || HasBit(z, bit)
  }

  lemma MaskedOr64(y: bv64, z: bv64, bit: bv16)
    requires bit < 64
    ensures Masked64(y | z, bit) == Masked64(y, bit) | Masked64(z, bit)
  {
  }

  lemma OrIsZero(x: bv64, y: bv64)
    ensures x | y == 0 <==> x == 0 && y == 0
  {
  }

  lemma OrHasBit(y: bv64, z: bv64, bit: bv16)
    requires bit < 64
    ensures HasBit(y | z, bit) <==> HasBit(y, bit) || HasBit(z, bit)
  {
    MaskedOr64(y, z, bit);
    OrIsZero(Masked64(y, bit), Masked64(z, bit));
  }

  lemma OrUnites(y: bv64, z: bv64)
    ensures Unites(y | z, y, z)
  {
    forall bit: bv16 | bit < 64
      ensures HasBit(y | z, bit) <==> HasBit(y, bit) || HasBit(z, bit)
    {
      OrHasBit(y, z, bit);
    }
  }
}
