/** Message tags as they travel, bit by bit: UCX packs tag and rank into 64 bits, libfabric context and tag.

    A tag or rank is given by its 32 bits; a negative number has its top bit set. */
module Tags {

  // ---------- UCX ----------

  const ANY_SOURCE_MASK: bv64 := 0x0000000000000000
  const SPECIFIC_SOURCE_MASK: bv64 := 0x00000000ffffffff
  const TAG_MASK: bv64 := 0xffffffff00000000

  /** A signed 32-bit number cast to 64 unsigned bits: the sign bit fills the upper half. */
  function Cast64(x: bv32): bv64
  {
    ((x as bv64) ^ 0x80000000) - 0x80000000
  }

  datatype Source = AnySource | From(rank: bv32)

  /** Tag bits above, rank bits below. */
  function Packed(tag: bv32, rank: bv32): bv64
  {
    (Cast64(tag) << 32) | Cast64(rank)
  }

  function RecvTag(tag: bv32, src: Source): bv64
  {
    match src
    case AnySource => Cast64(tag) << 32
    case From(rank) => Packed(tag, rank)
  }

  function RecvMask(src: Source): bv64
  {
    match src
    case AnySource => TAG_MASK | ANY_SOURCE_MASK
    case From(_) => TAG_MASK | SPECIFIC_SOURCE_MASK
  }

  /** UCX matches a message to a receive when the tags agree under the receive's mask. */
  predicate Matches(stag: bv64, rtag: bv64, mask: bv64) { stag & mask == rtag & mask }

  /** A rank is not negative. */
  predicate IsRank(x: bv32) { x < 0x80000000 }

  lemma CastSmall(x: bv32)
    requires x < 0x80000000
    ensures Cast64(x) == x as bv64
  {
  }

  lemma CastNegative(x: bv32)
    requires x >= 0x80000000
    ensures Cast64(x) == (x as bv64) | 0xffffffff00000000
  {
  }

  /** Shifted up, the sign bits of the cast are gone. */
  lemma ShiftedTag(tag: bv32)
    ensures Cast64(tag) << 32 == (tag as bv64) << 32
  {
  }

  lemma PackedBits(tag: bv32, rank: bv32)
    requires IsRank(rank)
    ensures Packed(tag, rank) == ((tag as bv64) << 32) | (rank as bv64)
  {
    ShiftedTag(tag);
    CastSmall(rank);
  }

  lemma AnyMask(w: bv64)
    ensures w & RecvMask(AnySource) == w & 0xffffffff00000000
  {
    assert RecvMask(AnySource) == 0xffffffff00000000;
  }

  lemma FullMask(w: bv64, rank: bv32)
    ensures w & RecvMask(From(rank)) == w
  {
    assert RecvMask(From(rank)) == 0xffffffffffffffff;
  }

  lemma MatchAny(sendTag: bv32, sender: bv32, recvTag: bv32)
    requires IsRank(sender)
    ensures Matches(Packed(sendTag, sender), RecvTag(recvTag, AnySource), RecvMask(AnySource)) <==> sendTag == recvTag
  {
    if sendTag == recvTag {
      AnyMatches(sendTag, sender);
    } else if Matches(Packed(sendTag, sender), RecvTag(recvTag, AnySource), RecvMask(AnySource)) {
      MatchMeansSameTag(sendTag, sender, recvTag);
    }
  }

  lemma AnyMatches(tag: bv32, sender: bv32)
    requires IsRank(sender)
    ensures Matches(Packed(tag, sender), RecvTag(tag, AnySource), RecvMask(AnySource))
  {
    UpperHalf(tag, sender);
    UpperHalfOnly(tag);
  }

  lemma MatchMeansSameTag(tag: bv32, sender: bv32, other: bv32)
    requires IsRank(sender)
    requires Matches(Packed(tag, sender), RecvTag(other, AnySource), RecvMask(AnySource))
    ensures tag == other
  {
    UpperHalf(tag, sender);
    UpperHalfOnly(other);
    ShiftInjective(tag, other);
  }

  lemma UpperHalf(tag: bv32, rank: bv32)
    requires IsRank(rank)
    ensures Packed(tag, rank) & RecvMask(AnySource) == (tag as bv64) << 32
  {
    PackedBits(tag, rank);
    AnyMask(Packed(tag, rank));
    UpperHalfBits(tag, rank);
  }

  lemma UpperHalfBits(t: bv32, r: bv32)
    ensures (((t as bv64) << 32) | (r as bv64)) & 0xffffffff00000000 == (t as bv64) << 32
  {
  }

  lemma UpperHalfOnly(tag: bv32)
    ensures (Cast64(tag) << 32) & RecvMask(AnySource) == (tag as bv64) << 32
  {
    ShiftedTag(tag);
    AnyMask(Cast64(tag) << 32);
    UpperHalfBits(tag, 0);
  }

  lemma ShiftInjective(t: bv32, u: bv32)
    requires (t as bv64) << 32 == (u as bv64) << 32
    ensures t == u
  {
  }

  lemma MatchFrom(sendTag: bv32, sender: bv32, recvTag: bv32, rank: bv32)
    requires IsRank(sender) && IsRank(rank)
    ensures Matches(Packed(sendTag, sender), RecvTag(recvTag, From(rank)), RecvMask(From(rank)))
            <==> sendTag == recvTag && sender == rank
  {
    FullMask(Packed(sendTag, sender), rank);
    FullMask(Packed(recvTag, rank), rank);
    if Packed(sendTag, sender) == Packed(recvTag, rank) {
      PackedInjective(sendTag, sender, recvTag, rank);
    }
  }

  lemma PackedInjective(t: bv32, r: bv32, u: bv32, q: bv32)
    requires IsRank(r) && IsRank(q) && Packed(t, r) == Packed(u, q)
    ensures t == u && r == q
  {
    PackedBits(t, r);
    PackedBits(u, q);
    HalvesInjective(t, r, u, q);
  }

  /** Two packed words agree only when both halves do. */
  lemma HalvesInjective(t: bv32, r: bv32, u: bv32, q: bv32)
    requires ((t as bv64) << 32) | (r as bv64) == ((u as bv64) << 32) | (q as bv64)
    ensures t == u && r == q
  {
  }

  /** For all 32-bit tags, negative ones included, a receive matches exactly the messages with its tag from its
      source. */
  lemma UcxMatchExact(sendTag: bv32, sender: bv32, recvTag: bv32, src: Source)
    requires IsRank(sender) && (src.From? ==> IsRank(src.rank))
    ensures Matches(Packed(sendTag, sender), RecvTag(recvTag, src), RecvMask(src))
            <==> sendTag == recvTag && (src.AnySource? || src.rank == sender)
  {
    match src
    case AnySource => MatchAny(sendTag, sender, recvTag);
    case From(rank) => MatchFrom(sendTag, sender, recvTag, rank);
  }

  // ---------- libfabric ----------

  /** `make_tag64`: 24 bits of context above 24 bits of tag. */
  function MakeTag64(tag: bv32, ctxt: bv64): bv64
  {
    ((ctxt & 0x0000000000FFFFFF) << 24) | ((tag as bv64) & 0x0000000000FFFFFF)
  }

  lemma TagField(tag: bv32, ctxt: bv64)
    ensures MakeTag64(tag, ctxt) & 0xFFFFFF == (tag as bv64) & 0xFFFFFF
  {
  }

  lemma ContextField(tag: bv32, ctxt: bv64)
    ensures MakeTag64(tag, ctxt) >> 24 == ctxt & 0xFFFFFF
  {
  }

  /** Two libfabric words are the same exactly when the low 24 bits of tags and of context tags agree. */
  lemma FabricTagsCollide(t1: bv32, c1: bv64, t2: bv32, c2: bv64)
    ensures MakeTag64(t1, c1) == MakeTag64(t2, c2)
            <==> (t1 as bv64) & 0xFFFFFF == (t2 as bv64) & 0xFFFFFF && c1 & 0xFFFFFF == c2 & 0xFFFFFF
  {
    if MakeTag64(t1, c1) == MakeTag64(t2, c2) {
      FieldsAgree(t1, c1, t2, c2);
    } else {
      FieldsDiffer(t1, c1, t2, c2);
    }
  }

  lemma FieldsAgree(t1: bv32, c1: bv64, t2: bv32, c2: bv64)
    requires MakeTag64(t1, c1) == MakeTag64(t2, c2)
    ensures (t1 as bv64) & 0xFFFFFF == (t2 as bv64) & 0xFFFFFF && c1 & 0xFFFFFF == c2 & 0xFFFFFF
  {
    TagField(t1, c1);
    TagField(t2, c2);
    ContextField(t1, c1);
    ContextField(t2, c2);
  }

  lemma FieldsDiffer(t1: bv32, c1: bv64, t2: bv32, c2: bv64)
    requires MakeTag64(t1, c1) != MakeTag64(t2, c2)
    ensures !((t1 as bv64) & 0xFFFFFF == (t2 as bv64) & 0xFFFFFF && c1 & 0xFFFFFF == c2 & 0xFFFFFF)
  {
  }

  /** All tags below a limit stay apart in one context. */
  ghost predicate Distinguishes(limit: bv64, ctxt: bv64)
  {
    forall a: bv32, b: bv32 | (a as bv64) < limit && (b as bv64) < limit && a != b ::
      MakeTag64(a, ctxt) != MakeTag64(b, ctxt)
  }

  lemma LowField(a: bv32)
    requires (a as bv64) < 0x1000000
    ensures (a as bv64) & 0xFFFFFF == a as bv64
  {
  }

  lemma SmallApart(a: bv32, b: bv32, ctxt: bv64)
    requires (a as bv64) < 0x1000000 && (b as bv64) < 0x1000000 && a != b
    ensures MakeTag64(a, ctxt) != MakeTag64(b, ctxt)
  {
    LowField(a);
    LowField(b);
    TagField(a, ctxt);
    TagField(b, ctxt);
  }

  lemma LowestClash(ctxt: bv64)
    ensures MakeTag64(0, ctxt) == MakeTag64(0x1000000, ctxt)
  {
  }

  /** The backend announces 32 tag bits, but the tags below a limit stay apart exactly up to 24 bits. */
  lemma FabricSafeRange(limit: bv64, ctxt: bv64)
    ensures Distinguishes(limit, ctxt) <==> limit <= 0x1000000
  {
    if limit <= 0x1000000 {
      forall a: bv32, b: bv32 | (a as bv64) < limit && (b as bv64) < limit && a != b
        ensures MakeTag64(a, ctxt) != MakeTag64(b, ctxt)
      {
        SmallApart(a, b, ctxt);
      }
    } else {
      LowestClash(ctxt);
    }
  }
}
