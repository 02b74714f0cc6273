/** `enum_fuse`: several enum values packed into one machine word.
    An enum is known here by its number of values, a value by its index, the word
    (`std::uintmax_t`) by its number of bits. */
module EnumFuse {
  import opened Bits
  import opened Wrappers

  /** Bits reserved for one argument: the logarithm of its count plus one. */
  function Width(count: nat): nat {
    Log2(count + 1)
  }

  /** The sum the static assertion of `enum_fuse` bounds by the word size. */
  function TotalWidth(counts: seq<nat>): nat {
    if counts == [] then 0 else Width(counts[0]) + TotalWidth(counts[1..])
  }

  /** One argument folded in; an unset word or an unknown value gives nothing. */
  function FuseOne(bits: nat, word: Option<nat>, count: nat, index: Option<nat>): Option<nat> {
    if word.Some? && index.Some?
    then Some(Or(Low(Shl(word.value, Width(count)), bits), index.value))
    else None
  }

  /** The last argument is folded first, into zero; the head ends in the low bits. */
  function FuseEnum(bits: nat, counts: seq<nat>, indices: seq<Option<nat>>): Option<nat>
    requires |counts| == |indices| >= 1
  {
    var word := if |counts| == 1 then Some(0) else FuseEnum(bits, counts[1..], indices[1..]);
    FuseOne(bits, word, counts[0], indices[0])
  }

  /** Index tuples of declared values. */
  predicate Declared(counts: seq<nat>, a: seq<nat>) {
    |a| == |counts| && forall i :: 0 <= i < |a| ==> a[i] < counts[i]
  }

  function Known(a: seq<nat>): seq<Option<nat>> {
    seq(|a|, i requires 0 <= i < |a| => Some(a[i]))
  }

  /** The word of a tuple of declared values. */
  function Fused(bits: nat, counts: seq<nat>, a: seq<nat>): nat
    requires |counts| == |a|
  {
    if counts == [] then 0
    else Or(Low(Shl(Fused(bits, counts[1..], a[1..]), Width(counts[0])), bits), a[0])
  }

  ghost predicate Injective(bits: nat, counts: seq<nat>) {
    forall a, b | Declared(counts, a) && Declared(counts, b) && Fused(bits, counts, a) == Fused(bits, counts, b) ::
      a == b
  }

  /** The largest index fits in the reserved bits. */
  predicate Tight(count: nat) {
    count <= Pow2(Width(count))
  }

  /** An argument that overflows its field must sit next to an enum of one value, whose
      spare bit takes the overflow. */
  predicate NoOverlap(counts: seq<nat>) {
    forall i :: 0 <= i < |counts| - 1 ==> Tight(counts[i]) || counts[i + 1] == 1
  }

  /** What a caller can check: no overlap between neighbours, and the last argument
      overflows only if the word has a bit to spare. */
  predicate Fusable(bits: nat, counts: seq<nat>)
    requires |counts| >= 1
  {
    NoOverlap(counts) && (Tight(counts[|counts| - 1]) || TotalWidth(counts) < bits)
  }

  // ----- the optional form and the plain word agree -----

  /** `FuseEnum` is defined exactly when every value is known. */
  lemma {:induction false} FuseDefinedIffAllKnown(bits: nat, counts: seq<nat>, indices: seq<Option<nat>>)
    requires |counts| == |indices| >= 1
    ensures FuseEnum(bits, counts, indices).Some? <==> forall i :: 0 <= i < |indices| ==> indices[i].Some?
  {
    if |counts| > 1 {
      FuseDefinedIffAllKnown(bits, counts[1..], indices[1..]);
      if FuseEnum(bits, counts, indices).Some? {
        forall i | 0 <= i < |indices| ensures indices[i].Some? {
          assert i > 0 ==> indices[1..][i - 1] == indices[i];
        }
      }
    }
  }

  /** On declared values it gives the word. */
  lemma {:induction false} FuseIsFused(bits: nat, counts: seq<nat>, a: seq<nat>)
    requires |counts| == |a| >= 1
    ensures FuseEnum(bits, counts, Known(a)) == Some(Fused(bits, counts, a))
  {
    if |counts| > 1 {
      assert Known(a)[1..] == Known(a[1..]);
      FuseIsFused(bits, counts[1..], a[1..]);
    }
  }

  // ----- the bits of the word -----

  /** Bit `j` of the word comes from argument `i`: its index is shifted by the widths of the
      arguments before it, and cut off at the word size unless it is the first. */
  predicate Gives(bits: nat, counts: seq<nat>, a: seq<nat>, i: nat, j: nat)
    requires |counts| == |a|
  {
    && i < |a| && TotalWidth(counts[..i]) <= j && Bit(a[i], j - TotalWidth(counts[..i]))
    && (i > 0 ==> j < bits)
  }

  lemma GivesLater(bits: nat, counts: seq<nat>, a: seq<nat>, i: nat, j: nat)
    requires |counts| == |a| && 0 < i < |a|
    ensures Gives(bits, counts, a, i, j) <==>
      j < bits && j >= Width(counts[0]) && Gives(bits, counts[1..], a[1..], i - 1, j - Width(counts[0]))
  {
    hide Width, Bit;
    assert counts[..i][1..] == counts[1..][..i - 1];
    assert TotalWidth(counts[..i]) == Width(counts[0]) + TotalWidth(counts[1..][..i - 1]);
  }

  lemma FoldBit(bits: nat, tail: nat, w: nat, index: nat, j: nat)
    ensures Bit(Or(Low(Shl(tail, w), bits), index), j) <==> (j < bits && j >= w && Bit(tail, j - w)) || Bit(index, j)
  {
    OrBit(Low(Shl(tail, w), bits), index, j);
    LowBit(Shl(tail, w), bits, j);
    ShlBit(tail, w, j);
  }

  /** A bit of the word is set exactly if some argument gives it: bits are OR-ed, never added. */
  lemma {:induction false} WordBits(bits: nat, counts: seq<nat>, a: seq<nat>, j: nat)
    requires |counts| == |a|
    ensures Bit(Fused(bits, counts, a), j) <==> exists i: nat :: Gives(bits, counts, a, i, j)
    decreases |a|
  {
    hide Or, Low, Shl, Bit, Width;
    if a == [] {
      ZeroBit(j);
    } else {
      var w := Width(counts[0]);
      FoldBit(bits, Fused(bits, counts[1..], a[1..]), w, a[0], j);
      assert Gives(bits, counts, a, 0, j) <==> Bit(a[0], j);
      if j >= w {
        WordBits(bits, counts[1..], a[1..], j - w);
      }
      if i: nat :| Gives(bits, counts, a, i, j) {
        if i > 0 { GivesLater(bits, counts, a, i, j); }
      }
      if j < bits && j >= w {
        var j' := j - w;
        if k: nat :| Gives(bits, counts[1..], a[1..], k, j') {
          GivesLater(bits, counts, a, k + 1, j);
          assert Gives(bits, counts, a, k + 1, j);
        }
      }
    }
  }

  // ----- which counts are tight -----

  lemma WidthBounds(count: nat)
    ensures count < Pow2(Width(count) + 1)
    ensures Pow2(Width(count)) <= count + 1
    ensures count > 0 ==> Width(count) > 0
  {
    Log2Brackets(count + 1);
  }

  /** One below a power of two, or a power of two other than one (one is 2^1 - 1). */
  lemma TightExactly(count: nat)
    ensures Tight(count) <==> exists k: nat :: count + 1 == Pow2(k) || count == Pow2(k)
  {
    WidthBounds(count);
    if k: nat :| count + 1 == Pow2(k) || count == Pow2(k) {
      Log2OfPow2(k);
      if count == Pow2(k) && k > 0 {
        Log2OfPow2Plus1(k);
      }
    }
  }

  lemma {:induction false} Log2OfPow2Plus1(k: nat)
    requires k > 0
    ensures Log2(Pow2(k) + 1) == k
  {
    if k > 1 {
      assert (Pow2(k) + 1) / 2 == Pow2(k - 1);
      Log2OfPow2(k - 1);
    }
  }

  // ----- decoding -----

  /** Bits the fused word can occupy. */
  function Span(counts: seq<nat>): nat
    requires |counts| >= 1
  {
    TotalWidth(counts) + if Tight(counts[|counts| - 1]) then 0 else 1
  }

  /** Reads the indices back from a fused word. */
  function Defuse(counts: seq<nat>, word: nat): seq<nat> {
    if |counts| <= 1 then seq(|counts|, _ => word)
    else if Tight(counts[0]) then
      [Low(word, Width(counts[0]))] + Defuse(counts[1..], Shr(word, Width(counts[0])))
    else
      [Low(word, Width(counts[0]) + 1)] + Defuse(counts[1..], 2 * Shr(word, Width(counts[0]) + 1))
  }

  /** Folding a tight argument `index` of width `w` over the word `tail` of span `s`. */
  lemma FoldTight(bits: nat, tail: nat, s: nat, w: nat, index: nat)
    requires s + w <= bits && tail < Pow2(s) && index < Pow2(w)
    ensures var word := Or(Low(Shl(tail, w), bits), index);
            word < Pow2(s + w) && Low(word, w) == index && Shr(word, w) == tail
  {
    ShlBound(tail, s, w);
    Pow2Monotone(s + w, bits);
    LowOfSmall(Shl(tail, w), bits);
    OrIntoShifted(tail, w, index);
  }

  /** The same for an argument one bit too wide, over an even word. */
  lemma FoldOverflowing(bits: nat, tail: nat, s: nat, w: nat, index: nat)
    requires s + w <= bits && s > 0 && tail < Pow2(s) && tail % 2 == 0 && index < Pow2(w + 1)
    ensures var word := Or(Low(Shl(tail, w), bits), index);
            word < Pow2(s + w) && Low(word, w + 1) == index && 2 * Shr(word, w + 1) == tail
  {
    ShlOfDouble(tail / 2, w);
    FoldTight(bits, tail / 2, s - 1, w + 1, index);
  }

  /** The first fold, into zero, gives the index itself. */
  lemma FoldFirst(bits: nat, w: nat, index: nat)
    ensures Or(Low(Shl(0, w), bits), index) == index
  {
    ShlZero(w);
    LowOfSmall(0, bits);
  }

  /** The word decodes to `a`, stays in its span, and is even over an enum of one value. */
  predicate Decodes(counts: seq<nat>, word: nat, a: seq<nat>)
    requires |counts| >= 1
  {
    Defuse(counts, word) == a && word < Pow2(Span(counts)) && (counts[0] == 1 ==> word % 2 == 0)
  }

  lemma FoldTightDecodes(bits: nat, counts: seq<nat>, tail: nat, index: nat, b: seq<nat>)
    requires |counts| >= 2 && Tight(counts[0]) && index < counts[0] && Span(counts) <= bits
    requires Decodes(counts[1..], tail, b)
    ensures Decodes(counts, Or(Low(Shl(tail, Width(counts[0])), bits), index), [index] + b)
  {
    hide Or, Low, Shl, Shr, Pow2, Width;
    assert counts[1..][|counts| - 2] == counts[|counts| - 1];
    FoldTight(bits, tail, Span(counts[1..]), Width(counts[0]), index);
    if counts[0] == 1 {
      EvenFold(bits, tail);
    }
  }

  lemma FoldOverflowingDecodes(bits: nat, counts: seq<nat>, tail: nat, index: nat, b: seq<nat>)
    requires |counts| >= 2 && !Tight(counts[0]) && index < counts[0] && Span(counts) <= bits
    requires counts[1] == 1 && Decodes(counts[1..], tail, b)
    ensures Decodes(counts, Or(Low(Shl(tail, Width(counts[0])), bits), index), [index] + b)
  {
    WidthBounds(1);
    WidthBounds(counts[0]);
    assert counts[1..][|counts| - 2] == counts[|counts| - 1] && counts[1..][0] == 1;
    assert TotalWidth(counts[1..]) > 0 && Tight(1);
    hide Or, Low, Shl, Shr, Pow2, Width;
    FoldOverflowing(bits, tail, Span(counts[1..]), Width(counts[0]), index);
  }

  /** Round trip: where neighbours do not overlap and the word is wide enough, the indices
      are read back from it. */
  lemma {:induction false} DefuseFused(bits: nat, counts: seq<nat>, a: seq<nat>)
    requires |counts| >= 1 && Declared(counts, a) && NoOverlap(counts) && Span(counts) <= bits
    ensures Defuse(counts, Fused(bits, counts, a)) == a
    ensures Fused(bits, counts, a) < Pow2(Span(counts))
    ensures counts[0] == 1 ==> Fused(bits, counts, a) % 2 == 0
  {
    hide Or, Low, Shl, Shr, Pow2, Width;
    assert a[0] < counts[0];
    if |counts| == 1 {
      WidthBounds(counts[0]);
      FoldFirst(bits, Width(counts[0]), a[0]);
      assert Fused(bits, counts, a) == a[0] && a == [a[0]];
      assert TotalWidth(counts) == Width(counts[0]) + TotalWidth(counts[1..]) == Width(counts[0]);
    } else {
      var rest, b := counts[1..], a[1..];
      assert rest[|rest| - 1] == counts[|counts| - 1];
      DefuseFused(bits, rest, b);
      var tail := Fused(bits, rest, b);
      assert Decodes(rest, tail, b);
      assert a == [a[0]] + b;
      hide Defuse, Tight;
      if Tight(counts[0]) {
        FoldTightDecodes(bits, counts, tail, a[0], b);
      } else {
        FoldOverflowingDecodes(bits, counts, tail, a[0], b);
      }
    }
  }

  /** Folding the only value of an enum leaves the low bit clear. */
  lemma EvenFold(bits: nat, tail: nat)
    ensures Or(Low(Shl(tail, Width(1)), bits), 0) % 2 == 0
  {
    assert Shl(tail, 1) == 2 * Shl(tail, 0);
    if bits > 0 {
      assert Low(Shl(tail, 1), bits) % 2 == Shl(tail, 1) % 2;
    }
  }

  // ----- collisions -----

  function Zeros(n: nat): seq<nat> {
    seq(n, _ => 0)
  }

  lemma {:induction false} FusedZeros(bits: nat, counts: seq<nat>)
    ensures Fused(bits, counts, Zeros(|counts|)) == 0
  {
    if counts != [] {
      assert Zeros(|counts|)[1..] == Zeros(|counts[1..]|);
      FusedZeros(bits, counts[1..]);
      ShlZero(Width(counts[0]));
      LowOfSmall(0, bits);
    }
  }

  /** With only the head index set the word is that index. */
  lemma FusedHead(bits: nat, counts: seq<nat>, index: nat)
    requires counts != []
    ensures Fused(bits, counts, Zeros(|counts|)[0 := index]) == index
  {
    assert Zeros(|counts|)[0 := index][1..] == Zeros(|counts[1..]|);
    FusedZeros(bits, counts[1..]);
    FoldFirst(bits, Width(counts[0]), index);
  }

  /** A collision of the tail is one of the whole. */
  lemma CollisionExtends(bits: nat, counts: seq<nat>)
    requires counts != [] && 0 !in counts && !Injective(bits, counts[1..])
    ensures !Injective(bits, counts)
  {
    var a, b :| Declared(counts[1..], a) && Declared(counts[1..], b)
                && Fused(bits, counts[1..], a) == Fused(bits, counts[1..], b) && a != b;
    var a', b' := [0] + a, [0] + b;
    assert a'[1..] == a && b'[1..] == b;
    assert counts[0] in counts;
    assert Declared(counts, a') && Declared(counts, b');
  }

  /** An overflowing head next to an enum of two or more values: its top index sets the
      bit that the neighbour's index 1 sets too. */
  lemma OverlapCollides(bits: nat, counts: seq<nat>)
    requires |counts| >= 2 && 0 !in counts && TotalWidth(counts) <= bits
    requires !Tight(counts[0]) && counts[1] != 1
    ensures !Injective(bits, counts)
  {
    hide Or, Low, Shl, Pow2, Width;
    var w, rest := Width(counts[0]), counts[1..];
    WidthBounds(counts[0]);
    WidthBounds(rest[0]);
    forall i | 0 <= i < |counts| ensures counts[i] > 0 { assert counts[i] in counts; }
    var tail := Zeros(|rest|);
    var a, b := [Pow2(w)] + tail, [Pow2(w)] + tail[0 := 1];
    assert a[1..] == tail && b[1..] == tail[0 := 1];
    assert Declared(counts, a) && Declared(counts, b);
    FusedZeros(bits, rest);
    FusedHead(bits, rest, 1);
    assert w < bits;
    SameTopBit(bits, w);
    assert a[1] != b[1];
  }

  /** Folding a field's overflow bit over the words 0 and 1 gives the same word. */
  lemma SameTopBit(bits: nat, w: nat)
    requires w < bits
    ensures Or(Low(Shl(0, w), bits), Pow2(w)) == Or(Low(Shl(1, w), bits), Pow2(w))
  {
    FoldFirst(bits, w, Pow2(w));
    ShlBound(1, 0, w);
    Pow2Monotone(w, bits);
    LowOfSmall(Pow2(w), bits);
    OrSelf(Pow2(w));
  }

  /** The top index of an overflowing last argument alone sets one bit past the reserved
      sum, and the word cuts it off. */
  lemma {:induction false} TopOfLast(bits: nat, counts: seq<nat>)
    requires counts != [] && 0 !in counts && TotalWidth(counts) <= bits
    ensures var last := |counts| - 1;
            Fused(bits, counts, Zeros(|counts|)[last := Pow2(Width(counts[last]))])
              == if |counts| == 1 then Pow2(TotalWidth(counts)) else Low(Pow2(TotalWidth(counts)), bits)
  {
    var last := |counts| - 1;
    if last == 0 {
      assert TotalWidth(counts) == Width(counts[0]) + TotalWidth(counts[1..]);
      FusedHead(bits, counts, Pow2(Width(counts[0])));
      assert Zeros(1)[0 := Pow2(Width(counts[0]))] == Zeros(|counts|)[last := Pow2(Width(counts[last]))];
    } else {
      var top, w, t := Pow2(Width(counts[last])), Width(counts[0]), TotalWidth(counts[1..]);
      assert counts[0] in counts;
      WidthBounds(counts[0]);
      TopOfLast(bits, counts[1..]);
      assert Zeros(|counts|)[last := top][1..] == Zeros(|counts| - 1)[last - 1 := top];
      Pow2Monotone(t, bits);
      LowOfSmall(Pow2(t), bits);
      ShlBound(Pow2(t), t, w);
    }
  }

  lemma TruncationCollides(bits: nat, counts: seq<nat>)
    requires |counts| >= 2 && 0 !in counts && TotalWidth(counts) == bits
    requires !Tight(counts[|counts| - 1])
    ensures !Injective(bits, counts)
  {
    var last := |counts| - 1;
    var a, b := Zeros(|counts|), Zeros(|counts|)[last := Pow2(Width(counts[last]))];
    forall i | 0 <= i < |counts| ensures counts[i] > 0 { assert counts[i] in counts; }
    TopOfLast(bits, counts);
    LowOfPow2(bits);
    FusedZeros(bits, counts);
    assert Declared(counts, a) && Declared(counts, b);
    assert a[last] != b[last];
  }

  lemma {:induction false} OverlapAnywhereCollides(bits: nat, counts: seq<nat>)
    requires 0 !in counts && TotalWidth(counts) <= bits && !NoOverlap(counts)
    ensures !Injective(bits, counts)
  {
    var i :| 0 <= i < |counts| - 1 && !Tight(counts[i]) && counts[i + 1] != 1;
    if i == 0 {
      OverlapCollides(bits, counts);
    } else {
      var rest := counts[1..];
      assert rest[i - 1] == counts[i] && rest[i] == counts[i + 1];
      OverlapAnywhereCollides(bits, rest);
      CollisionExtends(bits, counts);
    }
  }

  /** Main result. Under the static assertions, `enum_fuse` tells all tuples of values apart
      exactly when some enum is empty (there are no tuples) or the counts are fusable. */
  lemma FuseInjectiveIffFusable(bits: nat, counts: seq<nat>)
    requires |counts| >= 2 && TotalWidth(counts) <= bits
    ensures Injective(bits, counts) <==> 0 in counts || Fusable(bits, counts)
  {
    if 0 in counts {
      var i :| 0 <= i < |counts| && counts[i] == 0;
      forall a ensures !Declared(counts, a) {
        assert |a| == |counts| ==> !(a[i] < counts[i]);
      }
    } else if Fusable(bits, counts) {
      forall a, b | Declared(counts, a) && Declared(counts, b) && Fused(bits, counts, a) == Fused(bits, counts, b)
        ensures a == b
      {
        DefuseFused(bits, counts, a);
        DefuseFused(bits, counts, b);
      }
    } else if !NoOverlap(counts) {
      OverlapAnywhereCollides(bits, counts);
    } else {
      TruncationCollides(bits, counts);
    }
  }

  /** For tight counts the word fits the reserved bits, hence the machine word. */
  lemma TightFuseFits(bits: nat, counts: seq<nat>, a: seq<nat>)
    requires counts != [] && TotalWidth(counts) <= bits && Declared(counts, a)
    requires forall i :: 0 <= i < |counts| ==> Tight(counts[i])
    ensures Fused(bits, counts, a) < Pow2(TotalWidth(counts)) <= Pow2(bits)
  {
    DefuseFused(bits, counts, a);
    Pow2Monotone(TotalWidth(counts), bits);
  }

  /** Enums of five and two values: (4, 0) and (0, 1) give the same word. */
  lemma FiveByTwoCollides(bits: nat)
    requires bits >= 3
    ensures TotalWidth([5, 2]) <= bits && !Fusable(bits, [5, 2])
    ensures FuseEnum(bits, [5, 2], [Some(4), Some(0)]) == FuseEnum(bits, [5, 2], [Some(0), Some(1)]) == Some(4)
  {
    var counts: seq<nat> := [5, 2];
    assert counts[1..] == [2];
    assert Width(5) == 2 && Width(2) == 1 && TotalWidth([2]) == 1 && Pow2(2) == 4;
    assert !Tight(counts[0]) && counts[1] != 1;
    FoldFirst(bits, 1, 0);
    FoldFirst(bits, 1, 1);
    FoldFirst(bits, 2, 4);
    assert [Some(4), Some(0)][1..] == [Some(0)] && [Some(0), Some(1)][1..] == [Some(1)];
    Pow2Monotone(3, bits);
    assert Pow2(3) == 8 && Shl(1, 2) == 4;
    LowOfSmall(4, bits);
  }
}
