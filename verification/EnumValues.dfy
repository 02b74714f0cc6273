/** The reflected value table, and lookups between values, indices and integers. Dense
    enums take arithmetic shortcuts; sparse ones go through the table or the hash switch. */
module EnumValues {
  import opened Bits
  import opened Sequences
  import opened Wrappers
  import opened EnumSwitch
  import EnumFlags

  /** An enum as the scan sees it: `valid[i]` tells whether candidate `i` has a name. The
      candidates are `min + i`, or for flags the powers of two. `lo..hi` is the range of
      the underlying type. */
  datatype Enum = Enum(isFlags: bool, min: int, valid: seq<bool>, lo: int, hi: int)

  /** The candidate `i` places after `offset`. */
  function Value(isFlags: bool, offset: int, i: nat): int
    requires isFlags ==> offset >= 0
  {
    if isFlags then Pow2(offset + i) else offset + i
  }

  function Offset(e: Enum): int {
    if e.isFlags then 0 else e.min
  }

  /** The valid places among the first `n`. */
  function Positions(valid: seq<bool>, n: nat): seq<nat>
    requires n <= |valid|
  {
    if n == 0 then [] else Positions(valid, n - 1) + (if valid[n - 1] then [n - 1] else [])
  }

  /** All valid places; for flags, the bits declared. */
  function Places(e: Enum): seq<nat> {
    Positions(e.valid, |e.valid|)
  }

  /** The value table `values_v`. */
  function Table(e: Enum): seq<int> {
    var p := Places(e);
    seq(|p|, j requires 0 <= j < |p| => Value(e.isFlags, Offset(e), p[j]))
  }

  method ValuesCount(valid: seq<bool>) returns (count: nat)
    ensures count == |Positions(valid, |valid|)|
  {
    count := 0;
    for i := 0 to |valid|
      invariant count == |Positions(valid, i)|
    {
      if valid[i] {
        count := count + 1;
      }
    }
  }

  lemma {:induction false} PositionsGrow(valid: seq<bool>, m: nat, n: nat)
    requires m <= n <= |valid|
    ensures Positions(valid, m) <= Positions(valid, n)
    decreases n - m
  {
    if m < n {
      PositionsGrow(valid, m, n - 1);
    }
  }

  /** A valid candidate reached by the scan is the next place; while places are missing
      the scan has candidates left. */
  lemma NextPlace(valid: seq<bool>, i: nat)
    requires i <= |valid|
    ensures |Positions(valid, i)| < |Positions(valid, |valid|)| ==> i < |valid|
    ensures i < |valid| && valid[i] ==> |Positions(valid, i)| < |Positions(valid, |valid|)|
    ensures i < |valid| && valid[i] ==> Positions(valid, |valid|)[|Positions(valid, i)|] == i
  {
    if i < |valid| && valid[i] {
      var later := Positions(valid, i + 1);
      assert later[|Positions(valid, i)|] == i;
      PositionsGrow(valid, i + 1, |valid|);
    }
  }

  /** The scan stops once the table is full, which is before it runs out of candidates. */
  method Values(e: Enum) returns (values: seq<int>)
    ensures values == Table(e)
  {
    var count := ValuesCount(e.valid);
    ghost var p := Places(e);
    var table := new int[count](_ => 0);
    var i, v := 0, 0;
    while v < count
      invariant 0 <= i <= |e.valid| && v == |Positions(e.valid, i)| <= count
      invariant forall k :: 0 <= k < v ==> table[k] == Value(e.isFlags, Offset(e), p[k])
      decreases |e.valid| - i
    {
      hide Value;
      NextPlace(e.valid, i);
      if e.valid[i] {
        table[v] := Value(e.isFlags, Offset(e), i);
        v := v + 1;
      }
      i := i + 1;
    }
    values := table[..];
  }

  lemma {:induction false} PositionsExact(valid: seq<bool>, n: nat)
    requires n <= |valid|
    ensures forall p: nat :: p in Positions(valid, n) <==> p < n && valid[p]
    ensures forall i, j :: 0 <= i < j < |Positions(valid, n)| ==> Positions(valid, n)[i] < Positions(valid, n)[j]
  {
    if n > 0 {
      PositionsExact(valid, n - 1);
      var before := Positions(valid, n - 1);
      forall i | 0 <= i < |before| ensures before[i] < n - 1 { assert before[i] in before; }
    }
  }

  lemma TableAscends(e: Enum)
    ensures Ascending(Table(e))
  {
    var p := Places(e);
    PositionsExact(e.valid, |e.valid|);
    forall i, j | 0 <= i < j < |p| ensures Table(e)[i] < Table(e)[j] {
      Pow2Monotone(p[i], p[j]);
    }
  }

  /** Candidate `i` is valid and is the value `x`. */
  predicate ValidAt(e: Enum, i: nat, x: int) {
    i < |e.valid| && e.valid[i] && x == Value(e.isFlags, Offset(e), i)
  }

  lemma TableSound(e: Enum, x: int)
    requires x in Table(e)
    ensures exists i: nat :: ValidAt(e, i, x)
  {
    var p, table := Places(e), Table(e);
    PositionsExact(e.valid, |e.valid|);
    var j :| 0 <= j < |table| && table[j] == x;
    assert p[j] in p && ValidAt(e, p[j], x);
  }

  lemma TableComplete(e: Enum, i: nat, x: int)
    requires ValidAt(e, i, x)
    ensures x in Table(e)
  {
    var p, table := Places(e), Table(e);
    PositionsExact(e.valid, |e.valid|);
    assert i in p;
    var j :| 0 <= j < |p| && p[j] == i;
    assert table[j] == x;
  }

  /** The table holds exactly the valid candidates, strictly ascending. */
  lemma TableExact(e: Enum)
    ensures Ascending(Table(e))
    ensures forall x :: x in Table(e) <==> exists i: nat :: ValidAt(e, i, x)
  {
    hide Value, Ascending, ValidAt, Table;
    TableAscends(e);
    forall x ensures x in Table(e) <==> exists i: nat :: ValidAt(e, i, x) {
      if x in Table(e) {
        TableSound(e, x);
      }
      if i: nat :| ValidAt(e, i, x) {
        TableComplete(e, i, x);
      }
    }
  }

  /** Every entry of a flags table is the power of two of its place, and of another table the
      minimum plus its place. */
  lemma TableEntries(e: Enum, j: nat)
    requires j < |Table(e)|
    ensures e.isFlags ==> Table(e)[j] == Pow2(Places(e)[j])
    ensures !e.isFlags ==> Table(e)[j] == e.min + Places(e)[j]
    ensures Places(e)[j] < |e.valid| && e.valid[Places(e)[j]]
  {
    PositionsExact(e.valid, |e.valid|);
    assert Places(e)[j] in Places(e);
  }

  // ----- dense or sparse -----

  /** `log2` of a table entry for flags, the entry itself otherwise. */
  function Rank(isFlags: bool, v: int): (r: int)
    ensures isFlags ==> r >= 0
  {
    if isFlags then (if v > 1 then Log2(v) else 0) else v
  }

  /** `is_sparse`. */
  predicate Sparse(isFlags: bool, values: seq<int>) {
    values != [] && Rank(isFlags, values[|values| - 1]) - Rank(isFlags, values[0]) + 1 != |values|
  }

  lemma RankOfValue(isFlags: bool, offset: int, i: nat)
    requires isFlags ==> offset >= 0
    ensures Rank(isFlags, Value(isFlags, offset, i)) == offset + i
  {
    if isFlags {
      Log2OfPow2(offset + i);
    }
  }

  /** Not being sparse is having the positions consecutive. */
  lemma DenseIffConsecutive(e: Enum)
    requires Table(e) != []
    ensures !Sparse(e.isFlags, Table(e)) <==> EnumFlags.Consecutive(Places(e))
  {
    var p := Places(e);
    var last := |p| - 1;
    PositionsExact(e.valid, |e.valid|);
    RankOfValue(e.isFlags, Offset(e), p[0]);
    RankOfValue(e.isFlags, Offset(e), p[last]);
    if p[last] - p[0] == last {
      forall i | 0 <= i < |p| ensures p[i] == p[0] + i {
        Spread(p, 0, i);
        Spread(p, i, last);
      }
    }
  }

  lemma {:induction false} Spread(p: seq<nat>, i: nat, j: nat)
    requires i <= j < |p| && forall i, j :: 0 <= i < j < |p| ==> p[i] < p[j]
    ensures p[j] - p[i] >= j - i
    decreases j - i
  {
    if i < j {
      Spread(p, i, j - 1);
    }
  }

  /** `enum_value`: arithmetic for a dense enum, the table for a sparse one. */
  function EnumValue(e: Enum, index: nat): int
    requires index < |Table(e)|
  {
    var values := Table(e);
    if Sparse(e.isFlags, values) then values[index]
    else Value(e.isFlags, Rank(e.isFlags, values[0]), index)
  }

  lemma EnumValueIsTable(e: Enum, index: nat)
    requires index < |Table(e)|
    ensures EnumValue(e, index) == Table(e)[index]
  {
    RankOfValue(e.isFlags, Offset(e), Places(e)[0]);
    DenseIffConsecutive(e);
  }

  // ----- lookups -----

  /** The values fit the underlying type, and the lookup by hash compiles where used. */
  ghost predicate WellFormed(e: Enum) {
    && InType(Table(e), Itself(), e.lo, e.hi)
    && (Table(e) != [] && (Sparse(e.isFlags, Table(e)) || e.isFlags) ==> RoomAbove(Table(e), e.hi))
  }

  /** `enum_index`. */
  function EnumIndex(e: Enum, value: int): Option<nat>
    requires InType(Table(e), Itself(), e.lo, e.hi)
  {
    var values := Table(e);
    if values == [] then None
    else if Sparse(e.isFlags, values) || e.isFlags then
      Switch(values, Itself(), e.lo, e.hi, 0, value, EqualTo())
    else if values[0] <= value <= values[|values| - 1] then Some(value - values[0])
    else None
  }

  /** The integer `enum_cast` of an enum that is not a flags enum. */
  function EnumCast(e: Enum, value: int): Option<int>
    requires !e.isFlags && InType(Table(e), Itself(), e.lo, e.hi)
  {
    var values := Table(e);
    if values == [] then None
    else if Sparse(false, values) then
      var found := Switch(values, Itself(), e.lo, e.hi, 0, value, EqualTo());
      if found.Some? then Some(values[found.value]) else None
    else if values[0] <= value <= values[|values| - 1] then Some(value)
    else None
  }

  lemma SwitchOnTable(e: Enum, value: int)
    requires WellFormed(e) && Table(e) != []
    requires Sparse(e.isFlags, Table(e)) || e.isFlags
    ensures Switch(Table(e), Itself(), e.lo, e.hi, 0, value, EqualTo()) == LinearSearch(Table(e), value)
  {
    TableExact(e);
    EnumSwitchCompilesIff(Table(e), e.lo, e.hi);
    SwitchIsLinearSearchIff(Table(e), Itself(), e.lo, e.hi);
  }

  /** A dense non-flags table is an interval. */
  lemma DenseTable(e: Enum, i: nat)
    requires !e.isFlags && i < |Table(e)| && !Sparse(false, Table(e))
    ensures Table(e)[i] == Table(e)[0] + i
  {
    DenseIffConsecutive(e);
  }

  /** Main result on lookups: dense or sparse, `enum_index` is membership search in the
      table, and `enum_cast` of a non-flags enum accepts exactly the table's values. */
  lemma LookupsAreSearch(e: Enum, value: int)
    requires WellFormed(e)
    ensures EnumIndex(e, value) == LinearSearch(Table(e), value)
    ensures !e.isFlags ==> EnumCast(e, value) == if value in Table(e) then Some(value) else None
  {
    var values := Table(e);
    if values != [] {
      if Sparse(e.isFlags, values) || e.isFlags {
        SwitchOnTable(e, value);
      } else {
        forall i | 0 <= i < |values| ensures values[i] == values[0] + i { DenseTable(e, i); }
        if values[0] <= value <= values[|values| - 1] {
          assert values[value - values[0]] == value;
        }
      }
    }
  }

  /** Index and value undo each other. */
  lemma IndexAndValueAreInverse(e: Enum)
    requires WellFormed(e)
    ensures forall i: nat :: i < |Table(e)| ==> EnumIndex(e, EnumValue(e, i)) == Some(i)
    ensures forall v, i: nat :: EnumIndex(e, v) == Some(i) ==> i < |Table(e)| && EnumValue(e, i) == v
  {
    TableExact(e);
    forall i: nat | i < |Table(e)| ensures EnumIndex(e, EnumValue(e, i)) == Some(i) {
      EnumValueIsTable(e, i);
      LookupsAreSearch(e, Table(e)[i]);
    }
    forall v, i: nat | EnumIndex(e, v) == Some(i) ensures i < |Table(e)| && EnumValue(e, i) == v {
      LookupsAreSearch(e, v);
      EnumValueIsTable(e, i);
    }
  }

  // ----- flags -----

  /** The integer `enum_cast` of a flags enum. */
  method CastFlags(e: Enum, value: nat) returns (result: Option<nat>)
    requires e.isFlags
    ensures Table(e) != [] && !Sparse(true, Table(e)) ==>
      EnumFlags.Consecutive(Places(e)) && result == EnumFlags.CastDense(Places(e), value)
    ensures Table(e) == [] || Sparse(true, Table(e)) ==>
      result == if EnumFlags.Combination(Places(e), value) then Some(value) else None
  {
    var bits := Places(e);
    if Table(e) == [] {
      if value > 0 {
        ghost var k := HighBitSet(value, 0);
      }
      return None;
    }
    DenseIffConsecutive(e);
    if Sparse(true, Table(e)) {
      result := EnumFlags.CastSparse(bits, value);
    } else {
      result := EnumFlags.CastDense(bits, value);
    }
  }

  /** A dense flags enum: the range test is exact iff the lowest flag is one or there is a
      single flag. */
  lemma DenseFlagsCastExactIff(e: Enum)
    requires e.isFlags && Table(e) != [] && !Sparse(true, Table(e))
    ensures EnumFlags.Consecutive(Places(e))
    ensures EnumFlags.CastsAgree(Places(e)) <==> Table(e)[0] == 1 || |Table(e)| == 1
  {
    DenseIffConsecutive(e);
    EnumFlags.DenseCastAgreesIff(Places(e));
  }

  /** Is this positive integer not a power of two? The test `v & (v - 1)` also rejects
      every negative integer: it shares its sign bit with its predecessor. */
  predicate SharesBits(v: int) {
    v < 0 || (v > 0 && And(v, v - 1) != 0)
  }

  lemma {:induction false} AndSelf(a: nat)
    ensures And(a, a) == a
  {
    if a != 0 {
      AndSelf(a / 2);
    }
  }

  ghost predicate PowerOfTwo(v: int) {
    exists k: nat :: v == Pow2(k)
  }

  lemma PowerOfTwoHalves(v: nat)
    requires v > 1
    ensures PowerOfTwo(v) <==> v % 2 == 0 && PowerOfTwo(v / 2)
  {
    if k: nat :| v == Pow2(k) {
      assert v / 2 == Pow2(k - 1);
    }
    if k: nat :| v / 2 == Pow2(k) && v % 2 == 0 {
      assert v == Pow2(k + 1);
    }
  }

  lemma {:induction false} PowerOfTwoIff(v: nat)
    requires v > 0
    ensures And(v, v - 1) == 0 <==> PowerOfTwo(v)
  {
    if v == 1 {
      assert v == Pow2(0);
    } else {
      hide PowerOfTwo;
      PowerOfTwoHalves(v);
      AndSelf(v / 2);
      assert (v - 1) / 2 == if v % 2 == 1 then v / 2 else v / 2 - 1;
      assert And(v, v - 1) == 2 * And(v / 2, (v - 1) / 2);
      if v % 2 == 0 {
        PowerOfTwoIff(v / 2);
      }
    }
  }

  /** `is_flags_enum` where the enum does not say so itself: there are flags, at least as
      many as values found by the plain scan, and those are zero or powers of two. */
  method IsFlagsEnum(flagValues: seq<int>, defaultValues: seq<int>) returns (flags: bool)
    ensures flags <==>
      && 0 < |flagValues| && |defaultValues| <= |flagValues|
      && forall v :: v in defaultValues ==> v == 0 || PowerOfTwo(v)
  {
    if |flagValues| == 0 || |defaultValues| > |flagValues| {
      return false;
    }
    for i := 0 to |defaultValues|
      invariant forall j :: 0 <= j < i ==> defaultValues[j] == 0 || PowerOfTwo(defaultValues[j])
    {
      var v := defaultValues[i];
      if v > 0 { PowerOfTwoIff(v); }
      if v != 0 && SharesBits(v) {
        assert v in defaultValues && !PowerOfTwo(v);
        return false;
      }
    }
    return |flagValues| > 0;
  }

  // ----- names -----

  predicate NameChar(c: char) {
    '0' <= c <= '9' || NameStart(c)
  }

  predicate NameStart(c: char) {
    'a' <= c <= 'z' || 'A' <= c <= 'Z' || c == '_'
  }

  /** In ASCII: a name starts with a letter or an underscore, and goes on with digits too. */
  lemma NameCharacters(c: char)
    ensures NameStart(c) <==> 65 <= c as int <= 90 || 97 <= c as int <= 122 || c as int == 95
    ensures NameChar(c) <==> NameStart(c) || 48 <= c as int <= 57
  {
  }

  /** `pretty_name`: the longest tail of name characters, if it starts like a name. So a
      valid name is never empty and holds no bar. */
  method PrettyName(signature: string) returns (name: string)
    ensures exists k :: 0 <= k <= |signature| && LongestTail(signature, k) && name == NameFrom(signature, k)
    ensures '|' !in name
    ensures name != "" ==> NameStart(name[0]) && forall c :: c in name ==> NameChar(c)
  {
    name := signature;
    var i := |signature|;
    while i > 0
      invariant 0 <= i <= |signature| && name == signature
      invariant forall j :: i <= j < |signature| ==> NameChar(signature[j])
    {
      if !NameChar(signature[i - 1]) {
        name := signature[i..];
        break;
      }
      i := i - 1;
    }
    assert LongestTail(signature, i) && name == signature[i..];
    if |name| > 0 && NameStart(name[0]) {
      return name;
    }
    return "";
  }

  function NameFrom(s: string, k: nat): string
    requires k <= |s|
  {
    if k < |s| && NameStart(s[k]) then s[k..] else ""
  }

  predicate LongestTail(s: string, k: nat)
    requires k <= |s|
  {
    (forall j :: k <= j < |s| ==> NameChar(s[j])) && (k > 0 ==> !NameChar(s[k - 1]))
  }

  // ----- per-enum storage -----

  /** `Timeouts`: one slot per value of an enum, addressed by the value's index. */
  class Timeouts {
    const e: Enum
    var slots: seq<Option<int>>

    ghost predicate Valid()
      reads this
    {
      WellFormed(e) && |slots| == |Table(e)|
    }

    /** No timeout is set. */
    constructor (e: Enum)
      requires WellFormed(e)
      ensures Valid() && this.e == e && forall v :: v in Table(e) ==> At(v) == None
    {
      this.e := e;
      slots := seq(|Table(e)|, _ => None);
      new;
      forall v | v in Table(e) ensures At(v) == None {
        LookupsAreSearch(e, v);
      }
    }

    /** The duration kept for a declared value. */
    ghost function At(value: int): Option<int>
      reads this
      requires Valid() && value in Table(e)
    {
      LookupsAreSearch(e, value);
      slots[EnumIndex(e, value).value]
    }

    method SetTimeout(value: int, duration: Option<int>)
      requires Valid() && value in Table(e)
      modifies this
      ensures Valid()
      ensures forall v :: v in Table(e) ==> At(v) == if v == value then duration else old(At(v))
    {
      LookupsAreSearch(e, value);
      var index := EnumIndex(e, value);
      slots := slots[index.value := duration];
      forall v | v in Table(e) ensures At(v) == if v == value then duration else old(At(v)) {
        LookupsAreSearch(e, v);
      }
    }

    method GetTimeout(value: int) returns (duration: Option<int>)
      requires Valid() && value in Table(e)
      ensures duration == At(value)
    {
      LookupsAreSearch(e, value);
      var index := EnumIndex(e, value);
      duration := slots[index.value];
    }
  }
}
