/** The two hashes of a list of names, and a list on which both repeat. */
module NameHashes {
  import opened EnumSwitch
  import opened Sequences
  import opened Wrappers
  import Crc32

  type Name = seq<bv8>

  // ----- the secondary hash -----

  const BASIS: bv64 := 2166136261

  /** A character converted to the 64-bit accumulator's type: sign-extended where `char` is
      signed. */
  function Widen(c: bv8, signedChar: bool): bv64 {
    if signedChar && c >= 0x80 then 0xffff_ffff_ffff_ff00 | (c as bv64) else c as bv64
  }

  /** As C++ converts it: a signed character from 128 up stands for itself less 256. */
  lemma WidenIsCast(c: bv8, signedChar: bool)
    ensures Widen(c, signedChar) == if signedChar && c >= 0x80 then (c as bv64) - 256 else c as bv64
  {
  }

  predicate Narrow(x: bv64) { x <= 0xffff_ffff }

  function Narrowed(x: bv64): bv32
    requires Narrow(x)
  {
    x as bv32
  }

  /** One character folded in: exclusive or, then a product, masked to 32 bits. */
  function Mix(acc: bv64, c: bv64): (next: bv64)
    ensures Narrow(next)
  {
    ((acc ^ c) * 16777619) & 0xffff_ffff
  }

  function MixAll(acc: bv64, name: Name, signedChar: bool): (mixed: bv64)
    requires Narrow(acc)
    ensures Narrow(mixed)
    decreases |name|
  {
    if name == [] then acc else MixAll(Mix(acc, Widen(name[0], signedChar)), name[1..], signedChar)
  }

  function Mixed(name: Name, signedChar: bool): bv32 {
    Narrowed(MixAll(BASIS, name, signedChar))
  }

  lemma MixOne(acc: bv64, name: Name, k: nat, signedChar: bool)
    requires Narrow(acc) && k < |name|
    ensures MixAll(acc, name[k..], signedChar) == MixAll(Mix(acc, Widen(name[k], signedChar)), name[k + 1..], signedChar)
  {
    hide Mix, Widen;
    assert name[k..][0] == name[k] && name[k..][1..] == name[k + 1..];
  }

  lemma MixNone(acc: bv64, name: Name, signedChar: bool)
    requires Narrow(acc)
    ensures MixAll(acc, name[|name|..], signedChar) == acc
  {
  }

  method SecondaryHash(val: Name, signedChar: bool) returns (hash: bv32)
    ensures hash == Mixed(val, signedChar)
  {
    assert Narrow(BASIS);
    hide Mix, Widen, MixAll, Narrow, Narrowed;
    var acc := BASIS;
    assert val[0..] == val;
    for k := 0 to |val|
      invariant Narrow(acc)
      invariant MixAll(acc, val[k..], signedChar) == MixAll(BASIS, val, signedChar)
    {
      MixOne(acc, val, k, signedChar);
      acc := Mix(acc, Widen(val[k], signedChar));
    }
    MixNone(acc, val, signedChar);
    hash := Narrowed(acc);
  }

  // ----- the two hashes as integers -----

  const MAX: int := 0xffff_ffff

  function ToInt(word: bv32): (n: int)
    ensures 0 <= n <= MAX
  {
    word as int
  }

  lemma ToIntBack(word: bv32)
    ensures ToInt(word) as bv32 == word
  {
  }

  lemma ToIntInjective(a: bv32, b: bv32)
    ensures ToInt(a) == ToInt(b) <==> a == b
  {
    hide ToInt;
    ToIntBack(a);
    ToIntBack(b);
  }

  function Primary(): Name -> int {
    (name: Name) => ToInt(Crc32.Crc(name))
  }

  function Secondary(signedChar: bool): Name -> int {
    (name: Name) => ToInt(Mixed(name, signedChar))
  }

  /** The hash the lookup of a name switches on. */
  ghost function NameHash(names: seq<Name>, signedChar: bool): Name -> int {
    ChosenHash(names, Primary(), Secondary(signedChar))
  }

  lemma NameHashesInType(names: seq<Name>, signedChar: bool)
    ensures InType(names, NameHash(names, signedChar), 0, MAX)
  {
    hide ToInt, Distinct, MixAll, Crc32.Crc;
    var hash := NameHash(names, signedChar);
    assert forall name :: 0 <= hash(name) <= MAX;
    hide NameHash;
  }

  /** The lookup of a name compiles. */
  ghost predicate LookupCompiles(names: seq<Name>, signedChar: bool) {
    NameHashesInType(names, signedChar);
    Compiles(names, NameHash(names, signedChar), 0, MAX)
  }

  /** It finds what linear search finds, for every name searched. */
  ghost predicate LookupIsSearch(names: seq<Name>, signedChar: bool)
    requires names != []
  {
    NameHashesInType(names, signedChar);
    AgreesWithLinearSearch(names, NameHash(names, signedChar), 0, MAX)
  }

  /** The lookup of a name, where it compiles, is linear search exactly if the CRC or the
      secondary hash repeats nowhere on the list. */
  lemma NameLookupIsLinearSearchIff(names: seq<Name>, signedChar: bool)
    requires names != [] && Distinct(names) && LookupCompiles(names, signedChar)
    ensures LookupIsSearch(names, signedChar)
      <==> Distinct(Hashes(names, Primary())) || Distinct(Hashes(names, Secondary(signedChar)))
  {
    NameHashesInType(names, signedChar);
    DispatchIsLinearSearchIff(names, Primary(), Secondary(signedChar), 0, MAX);
  }

  // ----- names that collide -----

  const CODDING: Name := [0x63, 0x6f, 0x64, 0x64, 0x69, 0x6e, 0x67]    // codding
  const GNU: Name := [0x67, 0x6e, 0x75]                            // gnu
  const ALTARAGE: Name := [0x61, 0x6c, 0x74, 0x61, 0x72, 0x61, 0x67, 0x65]    // altarage
  const ZINKE: Name := [0x7a, 0x69, 0x6e, 0x6b, 0x65]              // zinke

  lemma CrcRepeats()
    ensures Crc32.Crc(CODDING) == Crc32.Crc(GNU)
  {
    hide Crc32.FeedBytes;
    assert CODDING[0..] == CODDING && GNU[0..] == GNU;
    Crc32.Feeds(CODDING, 0, 0xffffffff, 0xf9462090);
    Crc32.Feeds(CODDING, 1, 0xf9462090, 0x2dfba9ad);
    Crc32.Feeds(CODDING, 2, 0x2dfba9ad, 0xe29581bd);
    Crc32.Feeds(CODDING, 3, 0xe29581bd, 0xffedfff1);
    Crc32.Feeds(CODDING, 4, 0xffedfff1, 0xfe2bf689);
    Crc32.Feeds(CODDING, 5, 0xfe2bf689, 0x3e905c2d);
    Crc32.Feeds(CODDING, 6, 0x3e905c2d, 0x963738d2);
    Crc32.Feeds(GNU, 0, 0xffffffff, 0xfe2be489);
    Crc32.Feeds(GNU, 1, 0xfe2be489, 0x3e905c3f);
    Crc32.Feeds(GNU, 2, 0x3e905c3f, 0x963738d2);
    Crc32.FedNothing(CODDING, 0x963738d2);
    Crc32.FedNothing(GNU, 0x963738d2);
  }

  lemma Mixes(w: Name, signedChar: bool, i: nat, acc: bv64, next: bv64)
    requires i < |w| && w[i] < 0x80 && Narrow(acc) && Mix(acc, w[i] as bv64) == next
    ensures MixAll(acc, w[i..], signedChar) == MixAll(next, w[i + 1..], signedChar)
  {
    SmallWidens(w[i], signedChar);
    hide Mix, MixAll, Widen;
    MixOne(acc, w, i, signedChar);
  }

  lemma MixedCodding(signedChar: bool)
    ensures MixAll(BASIS, CODDING, signedChar) == 0x6620edf1
  {
    hide MixAll;
    assert CODDING[0..] == CODDING;
    Mixes(CODDING, signedChar, 0, 0x811c9dc5, 0xe60c2c52);
    Mixes(CODDING, signedChar, 1, 0xe60c2c52, 0x6229a407);
    Mixes(CODDING, signedChar, 2, 0x6229a407, 0xea8dc7d9);
    Mixes(CODDING, signedChar, 3, 0xea8dc7d9, 0xfa316e87);
    Mixes(CODDING, signedChar, 4, 0xfa316e87, 0xc9d1a0aa);
    Mixes(CODDING, signedChar, 5, 0xc9d1a0aa, 0x7900148c);
    Mixes(CODDING, signedChar, 6, 0x7900148c, 0x6620edf1);
    MixNone(0x6620edf1, CODDING, signedChar);
  }

  lemma MixedGnu(signedChar: bool)
    ensures MixAll(BASIS, GNU, signedChar) == 0x531971b7
  {
    hide MixAll;
    assert GNU[0..] == GNU;
    Mixes(GNU, signedChar, 0, 0x811c9dc5, 0xe20c2606);
    Mixes(GNU, signedChar, 1, 0xe20c2606, 0x412075b8);
    Mixes(GNU, signedChar, 2, 0x412075b8, 0x531971b7);
    MixNone(0x531971b7, GNU, signedChar);
  }

  lemma MixedAltarage(signedChar: bool)
    ensures MixAll(BASIS, ALTARAGE, signedChar) == 0xe460d8b6
  {
    hide MixAll;
    assert ALTARAGE[0..] == ALTARAGE;
    Mixes(ALTARAGE, signedChar, 0, 0x811c9dc5, 0xe40c292c);
    Mixes(ALTARAGE, signedChar, 1, 0xe40c292c, 0x3f24efc0);
    Mixes(ALTARAGE, signedChar, 2, 0x3f24efc0, 0x1b25585c);
    Mixes(ALTARAGE, signedChar, 3, 0x1b25585c, 0xf8c9e807);
    Mixes(ALTARAGE, signedChar, 4, 0xf8c9e807, 0x1ad8f02f);
    Mixes(ALTARAGE, signedChar, 5, 0x1ad8f02f, 0x91824aca);
    Mixes(ALTARAGE, signedChar, 6, 0x91824aca, 0xbd1b8e57);
    Mixes(ALTARAGE, signedChar, 7, 0xbd1b8e57, 0xe460d8b6);
    MixNone(0xe460d8b6, ALTARAGE, signedChar);
  }

  lemma MixedZinke(signedChar: bool)
    ensures MixAll(BASIS, ZINKE, signedChar) == 0xe460d8b6
  {
    hide MixAll;
    assert ZINKE[0..] == ZINKE;
    Mixes(ZINKE, signedChar, 0, 0x811c9dc5, 0xff0c53ad);
    Mixes(ZINKE, signedChar, 1, 0xff0c53ad, 0x4467dd8c);
    Mixes(ZINKE, signedChar, 2, 0x4467dd8c, 0x91824ac6);
    Mixes(ZINKE, signedChar, 3, 0x91824ac6, 0xbd1b8e57);
    Mixes(ZINKE, signedChar, 4, 0xbd1b8e57, 0xe460d8b6);
    MixNone(0xe460d8b6, ZINKE, signedChar);
  }

  // ----- a list of 257 names -----

  /** The two-letter names from `Aa` to `Pp`. */
  function TwoLetters(i: bv8): Name {
    [0x41 + (i >> 4), 0x61 + (i & 15)]
  }

  function TwoLetterHash(i: bv8): bv64 {
    Mix(Mix(BASIS, (0x41 + (i >> 4)) as bv64), (0x61 + (i & 15)) as bv64)
  }

  lemma MixTwo(a: bv8, b: bv8, signedChar: bool)
    requires a < 0x80 && b < 0x80
    ensures MixAll(BASIS, [a, b], signedChar) == Mix(Mix(BASIS, a as bv64), b as bv64)
  {
    SmallWidens(a, signedChar);
    SmallWidens(b, signedChar);
    hide Mix, Widen;
    assert [a, b][1..] == [b] && [b][1..] == [];
    assert MixAll(Mix(BASIS, a as bv64), [b], signedChar) == Mix(Mix(BASIS, a as bv64), b as bv64);
  }

  lemma MixedTwoLetters(i: bv8, signedChar: bool)
    ensures MixAll(BASIS, TwoLetters(i), signedChar) == TwoLetterHash(i)
  {
    LettersAreSmall(i);
    hide Mix, MixAll;
    MixTwo(0x41 + (i >> 4), 0x61 + (i & 15), signedChar);
  }

  lemma LettersAreSmall(i: bv8)
    ensures 0x41 + (i >> 4) < 0x80 && 0x61 + (i & 15) < 0x80
  {
  }

  lemma SmallWidens(c: bv8, signedChar: bool)
    requires c < 0x80
    ensures Widen(c, signedChar) == c as bv64
  {
  }

  /** Different two-letter names differ in the low half of their hashes. */
  lemma TwoLetterHashesDiffer(i: bv8, j: bv8)
    requires i != j
    ensures TwoLetterHash(i) & 0xffff != TwoLetterHash(j) & 0xffff
  {
  }

  /** Nor is any of them the hash of one of the four words. */
  lemma WordsDiffer(i: bv8)
    ensures TwoLetterHash(i) != 0x6620edf1 && TwoLetterHash(i) != 0x531971b7 && TwoLetterHash(i) != 0xe460d8b6
  {
  }

  function Nibble(n: nat): bv8
    requires n < 16
  {
    if n == 0 then 0 else if n == 1 then 1 else if n == 2 then 2 else if n == 3 then 3 else
    if n == 4 then 4 else if n == 5 then 5 else if n == 6 then 6 else if n == 7 then 7 else
    if n == 8 then 8 else if n == 9 then 9 else if n == 10 then 10 else if n == 11 then 11 else
    if n == 12 then 12 else if n == 13 then 13 else if n == 14 then 14 else 15
  }

  lemma NibblesDiffer(a: nat, b: nat)
    requires a < 16 && b < 16
    ensures Nibble(a) < 16 && (Nibble(a) == Nibble(b) <==> a == b)
  {
  }

  function Byte(high: bv8, low: bv8): bv8 { (high << 4) | low }

  lemma BytesDiffer(a: bv8, b: bv8, c: bv8, d: bv8)
    requires a < 16 && b < 16 && c < 16 && d < 16
    ensures Byte(a, b) == Byte(c, d) <==> a == c && b == d
  {
  }

  function Letter(k: nat): bv8
    requires k < 256
  {
    Byte(Nibble(k / 16), Nibble(k % 16))
  }

  lemma LettersDiffer(k: nat, m: nat)
    requires k < 256 && m < 256 && k != m
    ensures Letter(k) != Letter(m)
  {
    hide Nibble, Byte;
    NibblesDiffer(k / 16, m / 16);
    NibblesDiffer(m / 16, k / 16);
    NibblesDiffer(k % 16, m % 16);
    NibblesDiffer(m % 16, k % 16);
    BytesDiffer(Nibble(k / 16), Nibble(k % 16), Nibble(m / 16), Nibble(m % 16));
  }

  /** 253 two-letter names, two names that share their CRC, and two that share their secondary
      hash, the second of them on the second page. */
  function Names(): seq<Name> {
    seq(253, k requires 0 <= k < 253 => TwoLetters(Letter(k))) + [CODDING, GNU, ALTARAGE, ZINKE]
  }

  /** The secondary hashes of the list. */
  function MixedAt(k: nat): bv64
    requires k < 257
  {
    if k < 253 then TwoLetterHash(Letter(k))
    else if k == 253 then 0x6620edf1 else if k == 254 then 0x531971b7 else 0xe460d8b6
  }

  lemma NamesMixed(k: nat, signedChar: bool)
    requires k < 257
    ensures |Names()| == 257 && MixAll(BASIS, Names()[k], signedChar) == MixedAt(k)
  {
    hide MixAll, TwoLetters, TwoLetterHash;
    if k < 253 {
      MixedTwoLetters(Letter(k), signedChar);
    } else if k == 253 {
      MixedCodding(signedChar);
    } else if k == 254 {
      MixedGnu(signedChar);
    } else if k == 255 {
      MixedAltarage(signedChar);
    } else {
      MixedZinke(signedChar);
    }
  }

  lemma MixedDiffer(k: nat, m: nat)
    requires k < m < 256
    ensures MixedAt(k) != MixedAt(m)
  {
    hide TwoLetterHash, Letter;
    if m < 253 {
      LettersDiffer(k, m);
      TwoLetterHashesDiffer(Letter(k), Letter(m));
    } else if k < 253 {
      WordsDiffer(Letter(k));
    }
  }

  lemma MixedBounded(k: nat)
    requires k < 257
    ensures Narrow(MixedAt(k))
  {
  }

  /** The hashes of the list: different on the first page, and the last one again that of
      `altarage`. */
  lemma SecondaryHashes(signedChar: bool)
    ensures var hashes := Hashes(Names(), Secondary(signedChar));
      && |hashes| == 257 && Distinct(hashes[..256]) && hashes[256] == hashes[255] == 0xe460d8b6
      && forall h :: h in hashes ==> 0 <= h <= MAX
  {
    hide MixedAt, MixAll, ToInt, Names, TwoLetterHash;
    var names, hashes := Names(), Hashes(Names(), Secondary(signedChar));
    NamesMixed(0, signedChar);
    forall k: nat | k < 257 ensures Narrow(MixedAt(k)) && hashes[k] == ToInt(Narrowed(MixedAt(k))) {
      NamesMixed(k, signedChar);
      MixedBounded(k);
    }
    forall k: nat, m: nat | k < m < 256 ensures hashes[k] != hashes[m] {
      MixedDiffer(k, m);
      DifferentInts(MixedAt(k), MixedAt(m));
    }
    LastHash();
  }

  lemma DifferentInts(a: bv64, b: bv64)
    requires Narrow(a) && Narrow(b) && a != b
    ensures ToInt(Narrowed(a)) != ToInt(Narrowed(b))
  {
    NarrowInjective(a, b);
    hide ToInt;
    ToIntInjective(Narrowed(a), Narrowed(b));
  }

  lemma NarrowBack(x: bv64)
    requires Narrow(x)
    ensures Narrowed(x) as bv64 == x
  {
  }

  lemma NarrowInjective(a: bv64, b: bv64)
    requires Narrow(a) && Narrow(b) && a != b
    ensures Narrowed(a) != Narrowed(b)
  {
    NarrowBack(a);
    NarrowBack(b);
    hide Narrow, Narrowed;
  }

  lemma LastHash()
    ensures MixedAt(255) == MixedAt(256) == 0xe460d8b6 && Narrow(0xe460d8b6) && ToInt(Narrowed(0xe460d8b6)) == 0xe460d8b6
  {
  }

  lemma NamesDistinct(signedChar: bool)
    ensures Distinct(Names()) && ZINKE in Names() && Names()[256] == ZINKE
  {
    var names := Names();
    assert names[256] == ZINKE && names[255] == ALTARAGE && |ZINKE| != |ALTARAGE|;
    hide Names, Secondary;
    SecondaryHashes(signedChar);
    DistinctByHash(names, Secondary(signedChar));
  }

  lemma DistinctByHash(names: seq<Name>, hash: Name -> int)
    requires |names| == 257 && Distinct(Hashes(names, hash)[..256])
    requires Hashes(names, hash)[256] == Hashes(names, hash)[255] && names[256] != names[255]
    ensures Distinct(names)
  {
    var hashes := Hashes(names, hash);
    forall k: nat, m: nat | k < m < 257 ensures names[k] != names[m] {
      assert hashes[k] == hash(names[k]) && hashes[m] == hash(names[m]);
      assert m < 256 ==> hashes[..256][k] != hashes[..256][m];
      assert m == 256 && k < 255 ==> hashes[..256][k] != hashes[..256][255];
    }
  }

  /** Both pages have different labels: the first is full, the second has room above. */
  lemma PageCompilesWithLastRepeated(names: seq<Name>, hash: Name -> int, p: nat)
    requires InType(names, hash, 0, MAX) && |names| == 257
    requires Distinct(Hashes(names, hash)[..256]) && Hashes(names, hash)[256] + 255 <= MAX
    ensures PageCompiles(names, hash, 0, MAX, p)
  {
    hide Cases, Distinct;
    var hashes := Hashes(names, hash);
    if p == 0 {
      assert Live(hashes, 0) == hashes[..256];
      LabelsDistinctIff(hashes, 0, 0, MAX);
    } else if p == 1 {
      assert Live(hashes, 256) == [hashes[256]];
      SingleIsDistinct(hashes[256]);
      LabelsDistinctIff(hashes, 256, 0, MAX);
    }
  }

  lemma SingleIsDistinct(h: int)
    ensures Distinct([h])
  {
  }

  /** With names an enum can have, and the hashes of the code: an enum of 257 names whose switch
      compiles, and whose last name is not found. */
  lemma LastNameIsNotFound(signedChar: bool)
    ensures Distinct(Names()) && ZINKE in Names()
    ensures InType(Names(), NameHash(Names(), signedChar), 0, MAX)
    ensures Compiles(Names(), NameHash(Names(), signedChar), 0, MAX)
    ensures Switch(Names(), NameHash(Names(), signedChar), 0, MAX, 0, ZINKE, EqualTo()) == None
  {
    PrimaryRepeats();
    var names, hash := Names(), Secondary(signedChar);
    assert NameHash(names, signedChar) == hash;
    NamesDistinct(signedChar);
    SecondaryHashes(signedChar);
    NameHashesInType(names, signedChar);
    hide Names, Secondary, Switch, NameHash, PageCompiles;
    forall p: nat ensures PageCompiles(names, hash, 0, MAX, p) {
      PageCompilesWithLastRepeated(names, hash, p);
    }
    ZinkeIsHidden(names, hash);
  }

  lemma ZinkeIsHidden(names: seq<Name>, hash: Name -> int)
    requires |names| == 257 && InType(names, hash, 0, MAX) && Compiles(names, hash, 0, MAX)
    requires Distinct(names) && Hashes(names, hash)[256] == Hashes(names, hash)[255] && Distinct(Hashes(names, hash)[..256])
    ensures Switch(names, hash, 0, MAX, 0, names[256], EqualTo()) == None
  {
    hide Switch, Compiles, InType;
    var hashes := Hashes(names, hash);
    SwitchFollowsFirstHash(names, hash, 0, MAX, 0, names[256], EqualTo());
    assert hashes[255] == hash(names[256]);
    assert forall k: nat :: k < 255 ==> hashes[..256][k] != hashes[..256][255];
    var first := FirstFrom(hashes, hash(names[256]), 0);
    assert first == Some(255);
  }

  lemma PrimaryRepeats()
    ensures !Distinct(Hashes(Names(), Primary()))
  {
    hide TwoLetters;
    CrcRepeats();
    hide Crc32.Crc, ToInt;
    var names, hashes := Names(), Hashes(Names(), Primary());
    assert names[253] == CODDING && names[254] == GNU;
    assert hashes[253] == hashes[254];
  }
}
