/** Flag enums: printing with `enum_flags_name`, parsing with the string `enum_cast`, and
    the two integer casts. A flag is known by its bit; `bits` lists the declared flags in
    the order of the value table. A value is its bit pattern, read as unsigned: a negative
    value of a signed type has its top bit set, which no flag of the type has. */
module EnumFlags {
  import opened Bits
  import opened Sequences
  import opened Wrappers

  /** An OR of declared flags, and not zero. */
  ghost predicate Combination(bits: seq<nat>, value: nat) {
    value != 0 && forall k: nat :: Bit(value, k) ==> k in bits
  }

  predicate Has(value: nat, bit: nat) {
    And(value, Pow2(bit)) != 0
  }

  lemma HasIsBit(value: nat, bit: nat)
    ensures Has(value, bit) <==> Bit(value, bit)
  {
    forall k: nat ensures Bit(And(value, Pow2(bit)), k) <==> Bit(value, k) && k == bit {
      AndBit(value, Pow2(bit), k);
      Pow2Bit(bit, k);
    }
    if Bit(value, bit) {
      ZeroBit(bit);
    } else {
      forall k: nat ensures !Bit(0, k) { ZeroBit(k); }
      SameBits(And(value, Pow2(bit)), 0);
    }
  }

  /** The loop both casts and the printer run: the OR of the first `n` flags the value has. */
  function Gathered(bits: seq<nat>, value: nat, n: nat): nat
    requires n <= |bits|
  {
    if n == 0 then 0
    else if Has(value, bits[n - 1]) then Or(Gathered(bits, value, n - 1), Pow2(bits[n - 1]))
    else Gathered(bits, value, n - 1)
  }

  lemma {:induction false} GatheredBits(bits: seq<nat>, value: nat, n: nat, k: nat)
    requires n <= |bits|
    ensures Bit(Gathered(bits, value, n), k) <==> Bit(value, k) && k in bits[..n]
  {
    if n == 0 {
      ZeroBit(k);
    } else {
      GatheredBits(bits, value, n - 1, k);
      HasIsBit(value, bits[n - 1]);
      OrBit(Gathered(bits, value, n - 1), Pow2(bits[n - 1]), k);
      Pow2Bit(bits[n - 1], k);
      assert bits[..n] == bits[..n - 1] + [bits[n - 1]];
    }
  }

  /** The accepting test: the flags found are the whole value, and not none. */
  lemma GatheredAllIffCombination(bits: seq<nat>, value: nat)
    ensures Gathered(bits, value, |bits|) != 0 && Gathered(bits, value, |bits|) == value
      <==> Combination(bits, value)
  {
    var all := Gathered(bits, value, |bits|);
    assert bits[..|bits|] == bits;
    forall k: nat ensures Bit(all, k) <==> Bit(value, k) && k in bits {
      GatheredBits(bits, value, |bits|, k);
    }
    if Combination(bits, value) {
      SameBits(all, value);
    }
  }

  // ----- integer casts -----

  /** `enum_cast` from an integer where the flags have gaps. */
  method CastSparse(bits: seq<nat>, value: nat) returns (result: Option<nat>)
    ensures result == if Combination(bits, value) then Some(value) else None
  {
    var check := 0;
    for i := 0 to |bits|
      invariant check == Gathered(bits, value, i)
    {
      if Has(value, bits[i]) {
        check := Or(check, Pow2(bits[i]));
      }
    }
    GatheredAllIffCombination(bits, value);
    if check != 0 && check == value {
      return Some(value);
    }
    return None;
  }

  /** `values_ors`. */
  function OrOfAll(bits: seq<nat>, n: nat): nat
    requires n <= |bits|
  {
    if n == 0 then 0 else Or(OrOfAll(bits, n - 1), Pow2(bits[n - 1]))
  }

  method ValuesOrs(bits: seq<nat>) returns (ors: nat)
    ensures ors == OrOfAll(bits, |bits|)
  {
    ors := 0;
    for i := 0 to |bits|
      invariant ors == OrOfAll(bits, i)
    {
      ors := Or(ors, Pow2(bits[i]));
    }
  }

  /** Flags without gaps: consecutive bits. */
  predicate Consecutive(bits: seq<nat>) {
    bits != [] && forall i :: 0 <= i < |bits| ==> bits[i] == bits[0] + i
  }

  /** `enum_cast` from an integer where the flags have no gaps: a range test. */
  function CastDense(bits: seq<nat>, value: nat): Option<nat>
    requires Consecutive(bits)
  {
    if Pow2(bits[0]) <= value <= OrOfAll(bits, |bits|) then Some(value) else None
  }

  lemma {:induction false} OrOfConsecutive(bits: seq<nat>, n: nat)
    requires Consecutive(bits) && n <= |bits|
    ensures OrOfAll(bits, n) == Pow2(bits[0] + n) - Pow2(bits[0])
  {
    if n > 0 {
      OrOfConsecutive(bits, n - 1);
      NextBit(OrOfAll(bits, n - 1), bits[0] + n - 1);
    }
  }

  lemma NextBit(low: nat, top: nat)
    requires low < Pow2(top)
    ensures Or(low, Pow2(top)) == low + Pow2(top)
  {
    OrSymmetric(low, Pow2(top));
    OrIntoShifted(1, top, low);
    ShlBound(1, 0, top);
  }

  lemma {:induction false} OrSymmetric(a: nat, b: nat)
    ensures Or(a, b) == Or(b, a)
  {
    if a != 0 && b != 0 {
      OrSymmetric(a / 2, b / 2);
    }
  }

  ghost predicate CastsAgree(bits: seq<nat>)
    requires Consecutive(bits)
  {
    forall value: nat :: CastDense(bits, value).Some? <==> Combination(bits, value)
  }

  lemma DoublePlusOneIsOdd(n: nat)
    ensures Bit(2 * n + 1, 0)
  {
  }

  lemma FlagPlusOneIsOdd(low: nat)
    requires low > 0
    ensures Bit(Pow2(low) + 1, 0) && Pow2(low + 1) == 2 * Pow2(low) && Pow2(low) >= 2
  {
    var half := Pow2(low - 1);
    assert Pow2(low) == 2 * half;
    hide Pow2;
    DoublePlusOneIsOdd(half);
  }

  /** Otherwise the range test accepts the value one above the lowest flag. */
  lemma StrayValueAccepted(bits: seq<nat>)
    requires Consecutive(bits) && bits[0] != 0 && |bits| > 1
    ensures CastDense(bits, Pow2(bits[0]) + 1) == Some(Pow2(bits[0]) + 1) && !Combination(bits, Pow2(bits[0]) + 1)
  {
    var stray := Pow2(bits[0]) + 1;
    OrOfConsecutive(bits, |bits|);
    Pow2Monotone(bits[0] + 1, bits[0] + |bits|);
    FlagPlusOneIsOdd(bits[0]);
    hide Pow2, Bit, OrOfAll;
    assert Bit(stray, 0) && 0 !in bits;
  }

  /** Main result on the casts. For flags without gaps the range test accepts exactly the
      combinations iff the lowest flag is bit 0 or there is a single flag. */
  lemma DenseCastAgreesIff(bits: seq<nat>)
    requires Consecutive(bits)
    ensures CastsAgree(bits) <==> bits[0] == 0 || |bits| == 1
  {
    var low, n := bits[0], |bits|;
    OrOfConsecutive(bits, n);
    if low == 0 || n == 1 {
      forall value: nat ensures CastDense(bits, value).Some? <==> Combination(bits, value) {
        if low == 0 {
          FullRange(bits, value);
        } else {
          SingleFlag(bits, value);
        }
      }
    } else {
      StrayValueAccepted(bits);
    }
  }

  /** From bit 0 up, every non-zero word within the OR of all flags is a combination. */
  lemma FullRange(bits: seq<nat>, value: nat)
    requires Consecutive(bits) && bits[0] == 0
    ensures CastDense(bits, value).Some? <==> Combination(bits, value)
  {
    var n := |bits|;
    OrOfConsecutive(bits, n);
    if value < Pow2(n) {
      forall k: nat | Bit(value, k) ensures k in bits {
        if k >= n { HighBitsClear(value, n, k); }
        assert bits[k] == k;
      }
    } else {
      var k := HighBitSet(value, n);
      assert k !in bits;
    }
  }

  lemma SingleFlag(bits: seq<nat>, value: nat)
    requires Consecutive(bits) && |bits| == 1
    ensures CastDense(bits, value).Some? <==> Combination(bits, value)
  {
    var flag := bits[0];
    OrOfConsecutive(bits, 1);
    if value == Pow2(flag) {
      forall k: nat | Bit(value, k) ensures k in bits { Pow2Bit(flag, k); }
    } else if Combination(bits, value) {
      forall k: nat ensures Bit(value, k) <==> Bit(Pow2(flag), k) {
        Pow2Bit(flag, k);
        if k == flag && !Bit(value, k) {
          forall j: nat ensures Bit(value, j) <==> Bit(0, j) { ZeroBit(j); }
          SameBits(value, 0);
        }
      }
      SameBits(value, Pow2(flag));
    }
  }

  // ----- printing -----

  /** The names of the first `n` flags that the value has. */
  function Picked(bits: seq<nat>, names: seq<string>, value: nat, n: nat): seq<string>
    requires n <= |bits| == |names|
  {
    if n == 0 then []
    else if Has(value, bits[n - 1]) then Picked(bits, names, value, n - 1) + [names[n - 1]]
    else Picked(bits, names, value, n - 1)
  }

  function Join(tokens: seq<string>): string {
    if tokens == [] then ""
    else if |tokens| == 1 then tokens[0]
    else Join(tokens[..|tokens| - 1]) + "|" + tokens[|tokens| - 1]
  }

  /** The printed form: appended to what is there, after a bar unless nothing is there. */
  function Printed(bits: seq<nat>, names: seq<string>, value: nat, n: nat): string
    requires n <= |bits| == |names|
  {
    if n == 0 then ""
    else
      var name := Printed(bits, names, value, n - 1);
      if Has(value, bits[n - 1]) then (if name == "" then "" else name + "|") + names[n - 1] else name
  }

  /** `enum_flags_name` of a flags enum. */
  method FlagsName(bits: seq<nat>, names: seq<string>, value: nat) returns (name: string)
    requires |bits| == |names|
    ensures name == Print(bits, names, value)
  {
    var text, check := "", 0;
    for i := 0 to |bits|
      invariant check == Gathered(bits, value, i)
      invariant text == Printed(bits, names, value, i)
    {
      if Has(value, bits[i]) {
        check := Or(check, Pow2(bits[i]));
        if text != "" {
          text := text + "|";
        }
        text := text + names[i];
      }
    }
    GatheredAllIffCombination(bits, value);
    if check != 0 && check == value {
      return text;
    }
    return "";
  }

  ghost function Print(bits: seq<nat>, names: seq<string>, value: nat): string
    requires |bits| == |names|
  {
    if Combination(bits, value) then Printed(bits, names, value, |bits|) else ""
  }

  lemma JoinAppend(tokens: seq<string>, last: string)
    ensures Join(tokens + [last]) == if tokens == [] then last else Join(tokens) + "|" + last
  {
    assert (tokens + [last])[..|tokens|] == tokens;
  }

  lemma {:induction false} PrintedIsJoin(bits: seq<nat>, names: seq<string>, value: nat, n: nat)
    requires n <= |bits| == |names| && "" !in names
    ensures Printed(bits, names, value, n) == Join(Picked(bits, names, value, n))
    ensures Picked(bits, names, value, n) == [] <==> Printed(bits, names, value, n) == ""
  {
    hide Has;
    if n > 0 {
      PrintedIsJoin(bits, names, value, n - 1);
      assert names[n - 1] in names;
      hide Join;
      JoinAppend(Picked(bits, names, value, n - 1), names[n - 1]);
    } else {
      assert Join([]) == "";
    }
  }

  lemma {:induction false} NothingPicked(bits: seq<nat>, names: seq<string>, value: nat, n: nat)
    requires n <= |bits| == |names|
    ensures Picked(bits, names, value, n) == [] <==> forall i :: 0 <= i < n ==> !Has(value, bits[i])
  {
    hide Has;
    if n > 0 {
      NothingPicked(bits, names, value, n - 1);
    }
  }

  /** With non-empty names, exactly the combinations have a printed form; any other value
      prints as nothing, even if some of its flags are declared. */
  lemma PrintedIffCombination(bits: seq<nat>, names: seq<string>, value: nat)
    requires |bits| == |names| && "" !in names
    ensures Print(bits, names, value) != "" <==> Combination(bits, value)
  {
    if Combination(bits, value) {
      PrintedIsJoin(bits, names, value, |bits|);
      NothingPicked(bits, names, value, |bits|);
      var k := LowestBit(value);
      var i :| 0 <= i < |bits| && bits[i] == k;
      HasIsBit(value, bits[i]);
    }
  }

  lemma LowestBit(value: nat) returns (k: nat)
    requires value != 0
    ensures Bit(value, k)
  {
    k := HighBitSet(value, 0);
  }

  // ----- parsing -----

  /** The position of the first bar, or the length. */
  function FindBar(s: string): (d: nat)
    ensures d <= |s| && (d < |s| ==> s[d] == '|')
    ensures forall i :: 0 <= i < d ==> s[i] != '|'
  {
    if s == "" || s[0] == '|' then 0 else 1 + FindBar(s[1..])
  }

  /** The text up to the first bar. */
  function Head(s: string): string {
    s[..FindBar(s)]
  }

  /** The text after the first bar; nothing if there is none or nothing follows. */
  function Rest(s: string): (rest: string)
    ensures s != "" ==> |rest| < |s|
  {
    var d := FindBar(s);
    if d == |s| then "" else s[d + 1..]
  }

  /** `cmp_equal`. */
  predicate SameText(a: string, b: string, same: (char, char) -> bool) {
    |a| == |b| && forall i :: 0 <= i < |a| ==> same(a[i], b[i])
  }

  /** The first name a token matches, from `i` on. */
  function FirstName(names: seq<string>, token: string, same: (char, char) -> bool, i: nat): (f: nat)
    requires i <= |names|
    ensures i <= f <= |names| && (f < |names| ==> SameText(token, names[f], same))
    ensures forall j :: i <= j < f ==> !SameText(token, names[j], same)
    decreases |names| - i
  {
    if i == |names| || SameText(token, names[i], same) then i else FirstName(names, token, same, i + 1)
  }

  /** The string `enum_cast` of a flags enum, continued with the flags found so far. */
  function ParseFrom(bits: seq<nat>, names: seq<string>, same: (char, char) -> bool, s: string, found: nat): Option<nat>
    requires |bits| == |names|
    decreases |s|
  {
    if s == "" then (if found != 0 then Some(found) else None)
    else
      var f := FirstName(names, Head(s), same, 0);
      if f == |names| then None
      else ParseFrom(bits, names, same, Rest(s), Or(found, Pow2(bits[f])))
  }

  function Parse(bits: seq<nat>, names: seq<string>, same: (char, char) -> bool, s: string): Option<nat>
    requires |bits| == |names|
  {
    ParseFrom(bits, names, same, s, 0)
  }

  /** The inner loop: the first flag the token names, or zero. */
  method FindFlag(bits: seq<nat>, names: seq<string>, same: (char, char) -> bool, token: string) returns (f: nat)
    requires |bits| == |names|
    ensures var i := FirstName(names, token, same, 0); f == if i < |names| then Pow2(bits[i]) else 0
  {
    hide SameText, Pow2;
    var i := 0;
    while i < |names|
      invariant 0 <= i <= |names|
      invariant FirstName(names, token, same, i) == FirstName(names, token, same, 0)
    {
      if SameText(token, names[i], same) {
        return Pow2(bits[i]);
      }
      i := i + 1;
    }
    f := 0;
  }

  method CastString(bits: seq<nat>, names: seq<string>, same: (char, char) -> bool, text: string)
    returns (result: Option<nat>)
    requires |bits| == |names|
    ensures result == Parse(bits, names, same, text)
  {
    hide FirstName, Or, Pow2;
    var value, found := text, 0;
    while value != ""
      invariant ParseFrom(bits, names, same, value, found) == Parse(bits, names, same, text)
      decreases |value|
    {
      var d := FindBar(value);
      var f := FindFlag(bits, names, same, value[..d]);
      if f == 0 {
        return None;
      }
      found := Or(found, f);
      value := if d == |value| then "" else value[d + 1..];
    }
    return if found != 0 then Some(found) else None;
  }

  /** The tokens of a string; a bar at the end opens no token. */
  function Split(s: string): seq<string>
    decreases |s|
  {
    if s == "" then [] else [Head(s)] + Split(Rest(s))
  }

  predicate AllNamed(names: seq<string>, same: (char, char) -> bool, tokens: seq<string>) {
    forall t :: t in tokens ==> FirstName(names, t, same, 0) < |names|
  }

  lemma AllNamedSplit(names: seq<string>, same: (char, char) -> bool, head: string, tail: seq<string>)
    ensures AllNamed(names, same, [head] + tail) <==> FirstName(names, head, same, 0) < |names| && AllNamed(names, same, tail)
  {
    assert head in [head] + tail;
    assert forall t :: t in tail ==> t in [head] + tail;
  }

  /** Parsing succeeds iff there is a flag at all and every token names one. */
  lemma {:induction false} ParseSucceedsIff(bits: seq<nat>, names: seq<string>, same: (char, char) -> bool, s: string, found: nat)
    requires |bits| == |names|
    ensures ParseFrom(bits, names, same, s, found).Some?
      <==> (s != "" || found != 0) && AllNamed(names, same, Split(s))
    decreases |s|
  {
    if s == "" {
      assert AllNamed(names, same, []);
    } else {
      hide Or, Pow2, SameText, AllNamed, Head, Rest;
      var f := FirstName(names, Head(s), same, 0);
      AllNamedSplit(names, same, Head(s), Split(Rest(s)));
      if f < |names| {
        FlagFound(found, bits[f], 0);
        ParseSucceedsIff(bits, names, same, Rest(s), Or(found, Pow2(bits[f])));
      }
    }
  }

  /** The value parsed is not zero and has exactly the bits of the flags named. */
  lemma {:induction false} ParsedBits(bits: seq<nat>, names: seq<string>, same: (char, char) -> bool, s: string, found: nat, k: nat)
    requires |bits| == |names| && ParseFrom(bits, names, same, s, found).Some?
    ensures var value := ParseFrom(bits, names, same, s, found).value;
      value != 0 && (Bit(value, k) <==> Bit(found, k) || NamedBit(bits, names, same, Split(s), k))
    decreases |s|
  {
    hide Or, Bit, Pow2, SameText, NamedBit, Head, Rest;
    if s != "" {
      var f := FirstName(names, Head(s), same, 0);
      ParsedBits(bits, names, same, Rest(s), Or(found, Pow2(bits[f])), k);
      FlagFound(found, bits[f], k);
      NamedBitSplit(bits, names, same, Head(s), Split(Rest(s)), k);
    } else {
      NoTokens(bits, names, same, k);
    }
  }

  lemma NoTokens(bits: seq<nat>, names: seq<string>, same: (char, char) -> bool, k: nat)
    requires |bits| == |names|
    ensures !NamedBit(bits, names, same, [], k)
  {
  }

  lemma {:induction false} FlagFound(found: nat, bit: nat, k: nat)
    ensures Or(found, Pow2(bit)) != 0
    ensures Bit(Or(found, Pow2(bit)), k) <==> Bit(found, k) || k == bit
  {
    OrBit(found, Pow2(bit), bit);
    Pow2Bit(bit, bit);
    ZeroBit(bit);
    OrBit(found, Pow2(bit), k);
    Pow2Bit(bit, k);
  }

  /** Some token names the flag with bit `k`. */
  predicate NamedBit(bits: seq<nat>, names: seq<string>, same: (char, char) -> bool, tokens: seq<string>, k: nat)
    requires |bits| == |names|
  {
    exists t :: t in tokens && Names(bits, names, same, t, k)
  }

  predicate Names(bits: seq<nat>, names: seq<string>, same: (char, char) -> bool, token: string, k: nat)
    requires |bits| == |names|
  {
    var f := FirstName(names, token, same, 0);
    f < |names| && bits[f] == k
  }

  lemma NamedBitSplit(bits: seq<nat>, names: seq<string>, same: (char, char) -> bool, head: string, tail: seq<string>, k: nat)
    requires |bits| == |names|
    ensures NamedBit(bits, names, same, [head] + tail, k)
      <==> Names(bits, names, same, head, k) || NamedBit(bits, names, same, tail, k)
  {
    assert head in [head] + tail;
    assert forall t :: t in tail ==> t in [head] + tail;
  }

  // ----- round trips -----

  /** Tokens that can be told apart after joining. */
  predicate Plain(tokens: seq<string>) {
    forall t :: t in tokens ==> t != "" && '|' !in t
  }

  lemma FindBarAfter(token: string, rest: string)
    requires '|' !in token
    ensures FindBar(token) == |token| && FindBar(token + "|" + rest) == |token|
  {
    var s := token + "|" + rest;
    assert s[|token|] == '|';
    forall i | 0 <= i < |token| ensures s[i] == token[i] != '|' { assert token[i] in token; }
  }

  lemma {:induction false} SplitFirst(token: string, s: string)
    requires token != "" && '|' !in token
    ensures Split(token) == [token]
    ensures Split(token + "|" + s) == [token] + Split(s)
  {
    FindBarAfter(token, s);
    var j := token + "|" + s;
    assert j[..|token|] == token && j[|token| + 1..] == s;
    assert token[..|token|] == token;
  }

  /** Joining from the front. */
  lemma {:induction false} JoinFront(tokens: seq<string>)
    requires |tokens| >= 2
    ensures Join(tokens) == tokens[0] + "|" + Join(tokens[1..])
  {
    var last := |tokens| - 1;
    if last > 1 {
      JoinFront(tokens[..last]);
      assert tokens[..last][1..] == tokens[1..][..last - 1];
      assert tokens[1..][last - 1] == tokens[last];
    }
  }

  lemma {:induction false} SplitJoin(tokens: seq<string>)
    requires Plain(tokens)
    ensures Split(Join(tokens)) == tokens
  {
    if tokens != [] {
      assert tokens[0] in tokens;
      if |tokens| > 1 {
        JoinFront(tokens);
        assert forall t :: t in tokens[1..] ==> t in tokens;
        SplitJoin(tokens[1..]);
        SplitFirst(tokens[0], Join(tokens[1..]));
      } else {
        SplitFirst(tokens[0], "");
      }
    }
  }

  /** What a name table must satisfy: names are non-empty, free of the bar and pairwise
      different to the comparison used. */
  predicate Readable(names: seq<string>, same: (char, char) -> bool) {
    && Plain(names)
    && forall i, j :: 0 <= i < j < |names| ==> !SameText(names[j], names[i], same)
  }

  lemma {:induction false} PickedTokens(bits: seq<nat>, names: seq<string>, value: nat, n: nat)
    requires n <= |bits| == |names|
    ensures forall t :: t in Picked(bits, names, value, n) <==>
      exists i :: 0 <= i < n && Has(value, bits[i]) && names[i] == t
  {
    if n > 0 {
      PickedTokens(bits, names, value, n - 1);
    }
  }

  lemma NameFindsItself(names: seq<string>, same: (char, char) -> bool, i: nat)
    requires Readable(names, same) && i < |names| && forall c :: same(c, c)
    ensures FirstName(names, names[i], same, 0) == i
  {
    assert SameText(names[i], names[i], same);
  }

  /** Printing and parsing back gives the value, for any comparison that holds a character
      equal to itself. */
  lemma PrintThenParse(bits: seq<nat>, names: seq<string>, same: (char, char) -> bool, value: nat)
    requires |bits| == |names| && Readable(names, same) && Combination(bits, value)
    requires forall c :: same(c, c)
    ensures Parse(bits, names, same, Print(bits, names, value)) == Some(value)
  {
    var text, tokens := Print(bits, names, value), Picked(bits, names, value, |bits|);
    PrintedIsJoin(bits, names, value, |bits|);
    PickedTokens(bits, names, value, |bits|);
    assert Plain(tokens);
    SplitJoin(tokens);
    forall i | 0 <= i < |names| ensures FirstName(names, names[i], same, 0) == i { NameFindsItself(names, same, i); }
    ParseSucceedsIff(bits, names, same, text, 0);
    if text == "" {
      assert tokens == [];
      forall k: nat ensures Bit(value, k) <==> Bit(0, k) {
        ZeroBit(k);
        PickedBits(bits, names, same, value, k);
        NoTokens(bits, names, same, k);
      }
      SameBits(value, 0);
    }
    forall k: nat ensures Bit(Parse(bits, names, same, text).value, k) <==> Bit(value, k) {
      ZeroBit(k);
      ParsedBits(bits, names, same, text, 0, k);
      PickedBits(bits, names, same, value, k);
    }
    SameBits(Parse(bits, names, same, text).value, value);
  }

  lemma PickedBits(bits: seq<nat>, names: seq<string>, same: (char, char) -> bool, value: nat, k: nat)
    requires |bits| == |names| && Combination(bits, value)
    requires forall i :: 0 <= i < |names| ==> FirstName(names, names[i], same, 0) == i
    ensures NamedBit(bits, names, same, Picked(bits, names, value, |bits|), k) <==> Bit(value, k)
  {
    var tokens := Picked(bits, names, value, |bits|);
    PickedTokens(bits, names, value, |bits|);
    HasIsBit(value, k);
    if Bit(value, k) {
      var i :| 0 <= i < |bits| && bits[i] == k;
      assert names[i] in tokens && Names(bits, names, same, names[i], k);
    }
  }

  /** Every accepted string, repeats, any order and a bar at the end included, parses to a
      combination, whose printed form parses back to it. */
  lemma ParseThenPrint(bits: seq<nat>, names: seq<string>, same: (char, char) -> bool, s: string)
    requires |bits| == |names| && Readable(names, same) && forall c :: same(c, c)
    requires Parse(bits, names, same, s).Some?
    ensures var value := Parse(bits, names, same, s).value;
      Combination(bits, value) && Parse(bits, names, same, Print(bits, names, value)) == Some(value)
  {
    var value := Parse(bits, names, same, s).value;
    ParsedBits(bits, names, same, s, 0, 0);
    forall k: nat | Bit(value, k) ensures k in bits {
      ZeroBit(k);
      ParsedBits(bits, names, same, s, 0, k);
      var t :| t in Split(s) && Names(bits, names, same, t, k);
      assert bits[FirstName(names, t, same, 0)] == k;
    }
    PrintThenParse(bits, names, same, value);
  }

  /** A comparison of characters by what they have in common, as their lower case. */
  ghost predicate Equivalence(same: (char, char) -> bool) {
    && (forall a :: same(a, a))
    && (forall a, b :: same(a, b) ==> same(b, a))
    && (forall a, b, c :: same(a, b) && same(b, c) ==> same(a, c))
  }

  /** The same text to the comparison, with the bars in the same places. */
  predicate Respelled(s: string, t: string, same: (char, char) -> bool) {
    |s| == |t| && forall i :: 0 <= i < |s| ==> same(s[i], t[i]) && (s[i] == '|' <==> t[i] == '|')
  }

  lemma RespelledHead(s: string, t: string, same: (char, char) -> bool)
    requires Respelled(s, t, same)
    ensures FindBar(s) == FindBar(t)
    ensures SameText(Head(s), Head(t), same) && Respelled(Rest(s), Rest(t), same)
  {
    var d, e := FindBar(s), FindBar(t);
    assert d < |s| ==> t[d] == '|';
    assert e < |t| ==> s[e] == '|';
  }

  lemma SameTextJoins(a: string, b: string, c: string, same: (char, char) -> bool)
    requires Equivalence(same) && SameText(a, b, same)
    ensures SameText(a, c, same) <==> SameText(b, c, same)
  {
  }

  lemma {:induction false} RespelledNamesTheSame(names: seq<string>, s: string, t: string, same: (char, char) -> bool, i: nat)
    requires i <= |names| && Equivalence(same) && SameText(s, t, same)
    ensures FirstName(names, s, same, i) == FirstName(names, t, same, i)
    decreases |names| - i
  {
    if i < |names| {
      SameTextJoins(s, t, names[i], same);
      hide SameText, Equivalence;
      RespelledNamesTheSame(names, s, t, same, i + 1);
    }
  }

  /** Parsing sees of a text only what the comparison sees: any respelling, of a printed
      combination or any other text, parses to the same. */
  lemma {:induction false} RespelledParsesTheSame(bits: seq<nat>, names: seq<string>, same: (char, char) -> bool, s: string, t: string, found: nat)
    requires |bits| == |names| && Equivalence(same) && Respelled(s, t, same)
    ensures ParseFrom(bits, names, same, s, found) == ParseFrom(bits, names, same, t, found)
    decreases |s|
  {
    assert |s| == |t|;
    if s != "" {
      RespelledHead(s, t, same);
      RespelledNamesTheSame(names, Head(s), Head(t), same, 0);
      hide SameText, Equivalence, Head, Rest, Respelled, FirstName, Or, Pow2;
      var f := FirstName(names, Head(s), same, 0);
      if f < |names| {
        RespelledParsesTheSame(bits, names, same, Rest(s), Rest(t), Or(found, Pow2(bits[f])));
      }
    }
  }

  function Equal(): (char, char) -> bool {
    (a: char, b: char) => a == b
  }

  lemma EqualIsEquality(a: string, b: string)
    ensures SameText(a, b, Equal()) <==> a == b
  {
  }

  ghost predicate RoundTrips(bits: seq<nat>, names: seq<string>)
    requires |bits| == |names|
  {
    forall value: nat :: Combination(bits, value) ==> Parse(bits, names, Equal(), Print(bits, names, value)) == Some(value)
  }

  /** Main result on text. With the default comparison, printing is undone by parsing for
      every combination exactly when the names are readable. */
  lemma RoundTripsIffReadable(bits: seq<nat>, names: seq<string>)
    requires |bits| == |names| && Distinct(bits)
    ensures RoundTrips(bits, names) <==> Readable(names, Equal())
  {
    if Readable(names, Equal()) {
      forall value: nat | Combination(bits, value)
        ensures Parse(bits, names, Equal(), Print(bits, names, value)) == Some(value)
      {
        PrintThenParse(bits, names, Equal(), value);
      }
    } else {
      var i := Unreadable(names);
      SinglePrint(bits, names, i);
      UnreadableFails(bits, names, i);
    }
  }

  /** A name that spoils the table: empty, with a bar, or already taken. */
  lemma Unreadable(names: seq<string>) returns (i: nat)
    requires !Readable(names, Equal())
    ensures i < |names| && (names[i] == "" || '|' in names[i] || names[i] in names[..i])
  {
    if t :| t in names && (t == "" || '|' in t) {
      i :| 0 <= i < |names| && names[i] == t;
    } else {
      var k, j :| 0 <= k < j < |names| && SameText(names[j], names[k], Equal());
      EqualIsEquality(names[j], names[k]);
      assert names[..j][k] == names[j];
      i := j;
    }
  }

  /** The flag alone prints as its name. */
  lemma SinglePrint(bits: seq<nat>, names: seq<string>, i: nat)
    requires |bits| == |names| && Distinct(bits) && i < |bits|
    ensures Combination(bits, Pow2(bits[i])) && Print(bits, names, Pow2(bits[i])) == names[i]
  {
    var value := Pow2(bits[i]);
    forall k: nat ensures Bit(value, k) <==> k == bits[i] { Pow2Bit(bits[i], k); }
    PrintedSingle(bits, names, i, |bits|);
  }

  lemma {:induction false} PrintedSingle(bits: seq<nat>, names: seq<string>, i: nat, n: nat)
    requires n <= |bits| == |names| && Distinct(bits) && i < |bits|
    ensures Printed(bits, names, Pow2(bits[i]), n) == if i < n then names[i] else ""
  {
    if n > 0 {
      PrintedSingle(bits, names, i, n - 1);
      HasIsBit(Pow2(bits[i]), bits[n - 1]);
      Pow2Bit(bits[i], bits[n - 1]);
      if n - 1 != i {
        assert bits[n - 1] != bits[i];
      }
    }
  }

  lemma UnreadableFails(bits: seq<nat>, names: seq<string>, i: nat)
    requires |bits| == |names| && Distinct(bits) && i < |bits|
    requires names[i] == "" || '|' in names[i] || names[i] in names[..i]
    ensures Parse(bits, names, Equal(), names[i]) != Some(Pow2(bits[i]))
  {
    hide SameText, Bit, Pow2, Or;
    var s := names[i];
    TokensHaveNoBar(s);
    forall t, k | 0 <= k <= i ensures SameText(t, names[k], Equal()) <==> t == names[k] { EqualIsEquality(t, names[k]); }
    forall t | t in Split(s) ensures !Names(bits, names, Equal(), t, bits[i]) {
    }
    if Parse(bits, names, Equal(), s).Some? {
      ParsedBits(bits, names, Equal(), s, 0, bits[i]);
      Pow2Bit(bits[i], bits[i]);
      ZeroBit(bits[i]);
    }
  }

  lemma {:induction false} TokensHaveNoBar(s: string)
    ensures forall t :: t in Split(s) ==> '|' !in t
    decreases |s|
  {
    if s != "" {
      TokensHaveNoBar(Rest(s));
      assert '|' !in Head(s);
    }
  }
}
