/** The hash switch behind `enum_index`, `enum_cast` and name lookup: duplicate test, case
    labels of one 256-entry page, and the chain of pages. The integral type switched on is
    its range `lo..hi`; every integral type but `bool` has at least 256 values. */
module EnumSwitch {
  import opened Sequences
  import opened Wrappers

  const PAGE: nat := 256

  // ----- no_duplicate -----

  lemma AscendingJoin(a: seq<int>, b: seq<int>)
    requires Ascending(a) && Ascending(b)
    requires a != [] && b != [] ==> a[|a| - 1] < b[0]
    ensures Ascending(a + b)
  {
    forall i, j | 0 <= i < |a| && 0 <= j < |b| ensures a[i] < b[j] {
      assert a[i] <= a[|a| - 1] && b[0] <= b[j];
    }
  }

  /** Inserting between its neighbours keeps a sorted sequence sorted, and adds the element. */
  lemma InsertedInOrder(sorted: seq<int>, elem: int, at: nat)
    requires Ascending(sorted) && at <= |sorted|
    requires at > 0 ==> sorted[at - 1] < elem
    requires at < |sorted| ==> elem < sorted[at]
    ensures Ascending(sorted[..at] + [elem] + sorted[at..]) && elem !in sorted
    ensures multiset(sorted[..at] + [elem] + sorted[at..]) == multiset(sorted) + multiset{elem}
  {
    hide Ascending;
    AscendingPart(sorted, 0, at);
    AscendingPart(sorted, at, |sorted|);
    AscendingPart([elem], 0, 1);
    AscendingJoin(sorted[..at], [elem]);
    AscendingJoin(sorted[..at] + [elem], sorted[at..]);
    InsertedOnce(sorted, elem, at);
    NotBetween(sorted, elem, at);
  }

  lemma AscendingPart(s: seq<int>, i: nat, j: nat)
    requires i <= j <= |s| && (Ascending(s) || |s| == 1)
    ensures Ascending(s[i..j]) && s[0..j] == s[..j] && s[i..|s|] == s[i..] && (|s| == 1 ==> Ascending(s))
  {
  }

  lemma NotBetween(sorted: seq<int>, elem: int, at: nat)
    requires Ascending(sorted) && at <= |sorted|
    requires at > 0 ==> sorted[at - 1] < elem
    requires at < |sorted| ==> elem < sorted[at]
    ensures elem !in sorted
  {
    forall k | 0 <= k < |sorted| ensures sorted[k] != elem {
      assert k < at ==> sorted[k] <= sorted[at - 1];
      assert k >= at ==> sorted[at] <= sorted[k];
    }
  }

  lemma InsertedOnce(sorted: seq<int>, elem: int, at: nat)
    requires at <= |sorted|
    ensures multiset(sorted[..at] + [elem] + sorted[at..]) == multiset(sorted) + multiset{elem}
  {
    assert sorted == sorted[..at] + sorted[at..];
  }

  /** Sinks the last of `size` hashes into the sorted ones before it, giving up on an equal
      neighbour. */
  method Sink(hashes: array<int>, size: nat) returns (unseen: bool)
    requires 0 < size <= hashes.Length && Ascending(hashes[..size - 1])
    modifies hashes
    ensures unseen <==> old(hashes[size - 1]) !in old(hashes[..size - 1])
    ensures unseen ==> Ascending(hashes[..size])
    ensures unseen ==> multiset(hashes[..size]) == multiset(old(hashes[..size - 1])) + multiset{old(hashes[size - 1])}
  {
    ghost var sorted := hashes[..size - 1];
    ghost var elem := hashes[size - 1];
    var i := size - 1;
    while i > 0
      invariant 0 <= i < size
      invariant hashes[..size] == sorted[..i] + [elem] + sorted[i..]
      invariant i < |sorted| ==> elem < sorted[i]
    {
      assert hashes[..size][i - 1] == sorted[i - 1] && hashes[..size][i] == elem;
      if hashes[i] < hashes[i - 1] {
        hashes[i], hashes[i - 1] := hashes[i - 1], hashes[i];
      } else if hashes[i] == hashes[i - 1] {
        return false;
      } else {
        break;
      }
      i := i - 1;
    }
    InsertedInOrder(sorted, elem, i);
    return true;
  }

  /** Insertion sort that gives up on the first equal neighbour. */
  method NoDuplicate(values: seq<int>) returns (distinct: bool)
    ensures distinct <==> Distinct(values)
  {
    var hashes := new int[|values|];
    var size := 0;
    while size < |values|
      invariant 0 <= size <= |values| == hashes.Length
      invariant Ascending(hashes[..size])
      invariant multiset(hashes[..size]) == multiset(values[..size])
      invariant Distinct(values[..size])
    {
      ghost var sorted := hashes[..size];
      var elem := values[size];
      hashes[size] := elem;
      size := size + 1;
      assert hashes[..size - 1] == sorted;
      var unseen := Sink(hashes, size);
      SeenAlike(sorted, values[..size - 1], elem);
      assert values[..size] == values[..size - 1] + [elem];
      if !unseen {
        return false;
      }
    }
    assert values[..size] == values;
    return true;
  }

  lemma SeenAlike(a: seq<int>, b: seq<int>, x: int)
    requires multiset(a) == multiset(b)
    ensures x in a <==> x in b
  {
    assert x in a <==> x in multiset(a);
  }

  // ----- calculate_cases -----

  function Min(a: nat, b: nat): nat {
    if a < b then a else b
  }

  /** `n` consecutive values from `start`. */
  function CountUp(start: int, n: nat): seq<int> {
    seq(n, i => start + i)
  }

  function Live(hashes: seq<int>, page: nat): seq<int>
    requires page < |hashes|
  {
    hashes[page..page + Min(PAGE, |hashes| - page)]
  }

  /** Dead labels counted up from the last live one, as far as the type goes. */
  function DeadAbove(live: seq<int>, hi: int): seq<int>
    requires 0 < |live| <= PAGE && live[|live| - 1] <= hi
  {
    var last := live[|live| - 1];
    CountUp(last + 1, Min(PAGE - |live|, hi - last))
  }

  /** How many labels from the front equal `lo`, `lo + 1`, ... */
  function Run(labels: seq<int>, lo: int): nat {
    if labels == [] || labels[0] != lo then 0 else 1 + Run(labels[1..], lo + 1)
  }

  /** The labels of the first two loops. */
  function Used(hashes: seq<int>, page: nat, hi: int): seq<int>
    requires page < |hashes| && forall h :: h in hashes ==> h <= hi
  {
    var live := Live(hashes, page);
    assert live[|live| - 1] in hashes;
    live + DeadAbove(live, hi)
  }

  /** The labels of the page that starts at `page`. */
  function Cases(hashes: seq<int>, page: nat, lo: int, hi: int): seq<int>
    requires page < |hashes| && forall h :: h in hashes ==> lo <= h <= hi
  {
    var used := Used(hashes, page, hi);
    used + seq(PAGE - |used|, _ => lo + Run(used, lo))
  }

  lemma {:induction false} RunExtent(labels: seq<int>, lo: int)
    ensures Run(labels, lo) <= |labels|
    ensures forall i :: 0 <= i < Run(labels, lo) ==> labels[i] == lo + i
    ensures Run(labels, lo) < |labels| ==> labels[Run(labels, lo)] != lo + Run(labels, lo)
  {
    if labels != [] && labels[0] == lo {
      RunExtent(labels[1..], lo + 1);
      forall i | 0 < i < Run(labels, lo) ensures labels[i] == lo + i {
        assert labels[i] == labels[1..][i - 1];
      }
    }
  }

  /** Labels that end on the type's maximum before the page is full cannot all be the run
      `lo, lo + 1, ...`: the type has as many values as the page has slots. */
  lemma RunStops(used: seq<int>, lo: int, hi: int)
    requires 0 < |used| < PAGE <= hi - lo + 1 && used[|used| - 1] == hi
    ensures Run(used, lo) < |used|
  {
    RunExtent(used, lo);
  }

  /** The first loop: the page's live hashes. */
  method FillLive(result: array<int>, hashes: seq<int>, page: nat) returns (fill: nat)
    requires result.Length == PAGE && page < |hashes|
    modifies result
    ensures 0 < fill <= PAGE && result[..fill] == Live(hashes, page)
  {
    var valuesTo := Min(PAGE, |hashes| - page);
    fill := 0;
    while fill < valuesTo
      invariant 0 <= fill <= valuesTo
      invariant forall k :: 0 <= k < fill ==> result[k] == hashes[page + k]
    {
      result[fill] := hashes[page + fill];
      fill := fill + 1;
    }
  }

  /** The second loop: dead labels above the last live hash. */
  method FillUpwards(result: array<int>, used: nat, hi: int) returns (fill: nat)
    requires result.Length == PAGE && 0 < used <= PAGE && result[used - 1] <= hi
    modifies result
    ensures used <= fill <= PAGE
    ensures result[..fill] == old(result[..used]) + DeadAbove(old(result[..used]), hi)
  {
    ghost var live := result[..used];
    var last := result[used - 1];
    var lastValue := last;
    fill := used;
    while fill != PAGE && lastValue != hi
      invariant used <= fill <= PAGE && lastValue == last + (fill - used) <= hi
      invariant forall k :: 0 <= k < used ==> result[k] == live[k]
      invariant forall k :: used <= k < fill ==> result[k] == last + 1 + (k - used)
      decreases PAGE - fill
    {
      lastValue := lastValue + 1;
      result[fill] := lastValue;
      fill := fill + 1;
    }
    assert |DeadAbove(live, hi)| == fill - used;
    assert result[used..fill] == DeadAbove(live, hi);
    assert result[..fill] == result[..used] + result[used..fill];
  }

  /** The last loop. It writes the same value into every slot left: after its first write
      the value still differs from the label it is held against, so neither advances. */
  method WrapAround(result: array<int>, used: nat, lo: int)
    requires 0 < used <= result.Length
    requires used < result.Length ==> Run(result[..used], lo) < used
    modifies result
    ensures result[..] == old(result[..used]) + seq(result.Length - used, _ => lo + Run(old(result[..used]), lo))
  {
    ghost var front := result[..used];
    ghost var gap := Run(front, lo);
    RunExtent(front, lo);
    var fill, it, lastValue := used, 0, lo;
    while fill != result.Length
      invariant used <= fill <= result.Length && result[..used] == front
      invariant used < result.Length ==> it <= gap < used
      invariant it == lastValue - lo >= 0
      invariant forall k :: used <= k < fill ==> result[k] == lo + gap
    {
      while lastValue == result[it]
        invariant it == lastValue - lo && 0 <= it <= gap
        decreases gap - it
      {
        assert result[it] == front[it];
        lastValue, it := lastValue + 1, it + 1;
      }
      assert result[it] == front[it];
      result[fill] := lastValue;
      fill := fill + 1;
    }
  }

  method CalculateCases(hashes: seq<int>, page: nat, lo: int, hi: int) returns (labels: seq<int>)
    requires page < |hashes| && forall h :: h in hashes ==> lo <= h <= hi
    requires hi - lo + 1 >= PAGE
    ensures labels == Cases(hashes, page, lo, hi)
  {
    var result := new int[PAGE](_ => 0);
    var live := FillLive(result, hashes, page);
    assert result[live - 1] == Live(hashes, page)[live - 1] && result[live - 1] in hashes;
    var fill := FillUpwards(result, live, hi);
    if fill < PAGE {
      RunStops(result[..fill], lo, hi);
    }
    WrapAround(result, fill, lo);
    labels := result[..];
  }

  /** No live hash is one of the `dead` labels counted up from the last. */
  predicate ClearOfDead(live: seq<int>, dead: nat)
    requires live != []
  {
    forall i :: 0 <= i < |live| ==> !(live[|live| - 1] < live[i] <= live[|live| - 1] + dead)
  }

  /** What any page needs for pairwise distinct labels: its hashes differ, none of them lies
      among the dead labels above the last, and the wrap-around loop has nothing to fill, or
      one slot and a value that is not a label yet. */
  predicate PageFits(hashes: seq<int>, page: nat, lo: int, hi: int)
    requires page < |hashes| && forall h :: h in hashes ==> h <= hi
  {
    var live, used := Live(hashes, page), Used(hashes, page, hi);
    && Distinct(live) && ClearOfDead(live, |used| - |live|)
    && (|used| == PAGE || (|used| == PAGE - 1 && lo + Run(used, lo) !in used))
  }

  lemma LabelsDistinctIff(hashes: seq<int>, page: nat, lo: int, hi: int)
    requires page < |hashes| && forall h :: h in hashes ==> lo <= h <= hi
    ensures Distinct(Cases(hashes, page, lo, hi)) <==> PageFits(hashes, page, lo, hi)
  {
    hide Run, Live;
    var live, used, labels := Live(hashes, page), Used(hashes, page, hi), Cases(hashes, page, lo, hi);
    UsedDistinctIff(hashes, page, hi);
    assert used == labels[..|used|];
    if |used| + 2 <= PAGE {
      assert labels[PAGE - 2] == labels[PAGE - 1];
    } else if |used| + 1 == PAGE {
      assert labels == used + [lo + Run(used, lo)];
      DistinctOfAppend(used, lo + Run(used, lo));
    } else {
      assert labels == used;
    }
    if !Distinct(used) {
      var i, j :| 0 <= i < j < |used| && used[i] == used[j];
      assert labels[i] == labels[j];
    }
  }

  lemma DistinctOfAppend(s: seq<int>, x: int)
    ensures Distinct(s + [x]) <==> Distinct(s) && x !in s
  {
    var longer := s + [x];
    assert forall i :: 0 <= i < |s| ==> longer[i] == s[i];
    if i :| 0 <= i < |s| && s[i] == x {
      assert longer[i] == longer[|s|];
    }
    if i, j :| 0 <= i < j < |s| && s[i] == s[j] {
      assert longer[i] == longer[j];
    }
  }

  lemma UsedDistinctIff(hashes: seq<int>, page: nat, hi: int)
    requires page < |hashes| && forall h :: h in hashes ==> h <= hi
    ensures var live, used := Live(hashes, page), Used(hashes, page, hi);
      Distinct(used) <==> Distinct(live) && ClearOfDead(live, |used| - |live|)
  {
    var live, used := Live(hashes, page), Used(hashes, page, hi);
    hide Live;
    var last := live[|live| - 1];
    assert forall k :: |live| <= k < |used| ==> used[k] == last + 1 + (k - |live|);
    assert forall k :: 0 <= k < |live| ==> used[k] == live[k];
    if i :| 0 <= i < |live| && last < live[i] <= last + (|used| - |live|) {
      assert used[i] == used[|live| + (live[i] - last - 1)];
    }
    if i, j :| 0 <= i < j < |live| && live[i] == live[j] {
      assert used[i] == used[j];
    }
  }

  /** On a strictly ascending page the labels are pairwise distinct exactly when at most one
      slot is left for the wrap-around loop. */
  lemma AscendingLabelsDistinctIff(hashes: seq<int>, page: nat, lo: int, hi: int)
    requires page < |hashes| && forall h :: h in hashes ==> lo <= h <= hi
    requires hi - lo + 1 >= PAGE
    requires Ascending(Live(hashes, page))
    ensures var live := Live(hashes, page);
            Distinct(Cases(hashes, page, lo, hi)) <==> live[|live| - 1] + PAGE - |live| <= hi + 1
  {
    var live, used := Live(hashes, page), Used(hashes, page, hi);
    assert live[0] in hashes;
    LabelsDistinctIff(hashes, page, lo, hi);
    assert Ascending(used);
    if |used| + 1 == PAGE {
      assert used[|used| - 1] == hi;
      RunStops(used, lo, hi);
      RunExtent(used, lo);
      var r := Run(used, lo);
      forall i | 0 <= i < |used| ensures used[i] != lo + r {
        assert used[r] >= lo + r by { AscendingGrows(used, lo, r); }
        assert i >= r ==> used[i] >= used[r];
      }
    }
  }

  /** Ascending labels of the type are at least `lo` plus their position. */
  lemma {:induction false} AscendingGrows(used: seq<int>, lo: int, i: nat)
    requires Ascending(used) && i < |used| && used[0] >= lo
    ensures used[i] >= lo + i
  {
    if i > 0 {
      AscendingGrows(used, lo, i - 1);
    }
  }

  // ----- constexpr_switch -----

  function Hashes<V>(values: seq<V>, hash: V -> int): seq<int> {
    seq(|values|, i requires 0 <= i < |values| => hash(values[i]))
  }

  /** The first position from `k` on that holds `x`. */
  function FirstFrom<T(==)>(s: seq<T>, x: T, k: nat): (first: Option<nat>)
    ensures first.None? ==> forall i :: k <= i < |s| ==> s[i] != x
    ensures first.Some? ==> k <= first.value < |s| && s[first.value] == x
    ensures first.Some? ==> forall i :: k <= i < first.value ==> s[i] != x
    decreases |s| - k
  {
    if k >= |s| then None
    else if s[k] == x then Some(k)
    else FirstFrom(s, x, k + 1)
  }

  /** The reference: linear search. */
  function LinearSearch<V(==)>(values: seq<V>, searched: V): Option<nat> {
    FirstFrom(values, searched, 0)
  }

  /** All hashes are values of the integral type switched on. */
  predicate InType<V>(values: seq<V>, hash: V -> int, lo: int, hi: int) {
    && hi - lo + 1 >= PAGE
    && forall h :: h in Hashes(values, hash) ==> lo <= h <= hi
  }

  /** `constexpr_switch` from one page on: jump to the case label that equals the hash, or
      to `default`. Following pages are searched with plain equality. */
  function Switch<V(==)>(values: seq<V>, hash: V -> int, lo: int, hi: int,
                         page: nat, searched: V, pred: (V, V) -> bool): (found: Option<nat>)
    requires page < |values| && InType(values, hash, lo, hi)
    ensures found.Some? ==> page <= found.value < |values|
    decreases |values| - page, 2, 0
  {
    var slot := FirstFrom(Cases(Hashes(values, hash), page, lo, hi), hash(searched), 0);
    if slot.Some? && slot.value < PAGE then RunCase(values, hash, lo, hi, page, searched, pred, slot.value)
    else RunDefault(values, hash, lo, hi, page, searched)
  }

  /** The body of one case. A live case tests the predicate and leaves the switch either
      way; a dead one falls through to the next, the last into `default`. */
  function RunCase<V(==)>(values: seq<V>, hash: V -> int, lo: int, hi: int,
                          page: nat, searched: V, pred: (V, V) -> bool, val: nat): (found: Option<nat>)
    requires page < |values| && InType(values, hash, lo, hi) && val <= PAGE
    ensures found.Some? ==> page <= found.value < |values|
    decreases |values| - page, 1, PAGE - val
  {
    if val == PAGE then RunDefault(values, hash, lo, hi, page, searched)
    else if val + page < |values| then
      if pred(values[val + page], searched) then Some(val + page) else None
    else RunCase(values, hash, lo, hi, page, searched, pred, val + 1)
  }

  function RunDefault<V(==)>(values: seq<V>, hash: V -> int, lo: int, hi: int, page: nat, searched: V): (found: Option<nat>)
    requires page < |values| && InType(values, hash, lo, hi)
    ensures found.Some? ==> page <= found.value < |values|
    decreases |values| - page, 0, 0
  {
    if |values| > PAGE + page
    then Switch(values, hash, lo, hi, page + PAGE, searched, (a: V, b: V) => a == b)
    else None
  }

  /** The switch statement of page `p` compiles: its labels differ. */
  ghost predicate PageCompiles<V>(values: seq<V>, hash: V -> int, lo: int, hi: int, p: nat)
    requires InType(values, hash, lo, hi)
  {
    p * PAGE < |values| ==> Distinct(Cases(Hashes(values, hash), p * PAGE, lo, hi))
  }

  ghost predicate Compiles<V>(values: seq<V>, hash: V -> int, lo: int, hi: int)
    requires InType(values, hash, lo, hi)
  {
    forall p: nat :: PageCompiles(values, hash, lo, hi, p)
  }

  /** A dead case of the last page ends in the default result. */
  lemma {:induction false} DeadCaseMisses<V>(values: seq<V>, hash: V -> int, lo: int, hi: int,
                                             page: nat, searched: V, pred: (V, V) -> bool, val: nat)
    requires page < |values| && InType(values, hash, lo, hi) && val <= PAGE && val + page >= |values|
    ensures RunCase(values, hash, lo, hi, page, searched, pred, val) == None
    decreases PAGE - val
  {
    if val < PAGE {
      DeadCaseMisses(values, hash, lo, hi, page, searched, pred, val + 1);
    }
  }

  /** What the chain of pages computes: the first value with the searched hash decides
      alone, by the predicate on the page searched first and by equality on later ones. */
  lemma {:induction false} SwitchFollowsFirstHash<V>(values: seq<V>, hash: V -> int, lo: int, hi: int,
                                                     p: nat, searched: V, pred: (V, V) -> bool)
    requires InType(values, hash, lo, hi) && Compiles(values, hash, lo, hi) && p * PAGE < |values|
    ensures Switch(values, hash, lo, hi, p * PAGE, searched, pred)
      == var first := FirstFrom(Hashes(values, hash), hash(searched), p * PAGE);
         if first.None? then None
         else if (if first.value < p * PAGE + PAGE then pred(values[first.value], searched)
                  else values[first.value] == searched)
         then first else None
    decreases |values| - p * PAGE
  {
    hide Cases, Distinct;
    var page, hashes, h := p * PAGE, Hashes(values, hash), hash(searched);
    var first, slot := FirstFrom(hashes, h, page), FirstFrom(Cases(hashes, page, lo, hi), h, 0);
    CasesOfHash(hashes, page, lo, hi, h, values, hash, p);
    if slot.Some? && slot.value + page >= |values| {
      DeadCaseMisses(values, hash, lo, hi, page, searched, pred, slot.value);
    } else if slot.None? && |values| > page + PAGE {
      SwitchFollowsFirstHash(values, hash, lo, hi, p + 1, searched, (a: V, b: V) => a == b);
      SkipTo(hashes, h, page, page + PAGE);
    }
  }

  /** Where the labels of a page differ, a hash meets its live case if it has one; failing
      that a dead case, which only the last page has. */
  lemma CasesOfHash<V>(hashes: seq<int>, page: nat, lo: int, hi: int, h: int, values: seq<V>, hash: V -> int, p: nat)
    requires InType(values, hash, lo, hi) && Compiles(values, hash, lo, hi)
    requires page == p * PAGE < |values| && hashes == Hashes(values, hash)
    ensures |Cases(hashes, page, lo, hi)| == PAGE
    ensures var first, slot := FirstFrom(hashes, h, page), FirstFrom(Cases(hashes, page, lo, hi), h, 0);
      if first.Some? && first.value < page + PAGE then slot == Some(first.value - page)
      else slot.Some? ==> slot.value + page >= |values|
  {
    var labels, live := Cases(hashes, page, lo, hi), Live(hashes, page);
    assert PageCompiles(values, hash, lo, hi, p);
    forall i | 0 <= i < |live| ensures labels[i] == hashes[page + i] {
    }
    var first, slot := FirstFrom(hashes, h, page), FirstFrom(labels, h, 0);
    if first.Some? && first.value < page + PAGE {
      assert labels[first.value - page] == h;
    }
  }

  lemma {:induction false} SkipTo<T>(s: seq<T>, x: T, k: nat, m: nat)
    requires k <= m <= |s| && forall i :: k <= i < m ==> s[i] != x
    ensures FirstFrom(s, x, k) == FirstFrom(s, x, m)
    decreases m - k
  {
    if k < m {
      SkipTo(s, x, k + 1, m);
    }
  }

  function EqualTo<V(==)>(): (V, V) -> bool {
    (a: V, b: V) => a == b
  }

  ghost predicate AgreesWithLinearSearch<V(!new)>(values: seq<V>, hash: V -> int, lo: int, hi: int)
    requires values != [] && InType(values, hash, lo, hi)
  {
    forall searched :: Switch(values, hash, lo, hi, 0, searched, EqualTo()) == LinearSearch(values, searched)
  }

  /** No two different values of the list share a hash. */
  predicate Separates<V(==)>(values: seq<V>, hash: V -> int) {
    forall i, j :: 0 <= i < j < |values| && hash(values[i]) == hash(values[j]) ==> values[i] == values[j]
  }

  /** Main result. For a list of any length whose switches compile, the hash switch is
      linear search exactly when the hash separates the list. Distinct labels alone give
      that within a page but not across pages: there a hash shared with an earlier page
      stops the search at the earlier value. */
  lemma SwitchIsLinearSearchIff<V(!new)>(values: seq<V>, hash: V -> int, lo: int, hi: int)
    requires values != [] && InType(values, hash, lo, hi) && Compiles(values, hash, lo, hi)
    ensures AgreesWithLinearSearch(values, hash, lo, hi) <==> Separates(values, hash)
  {
    if Separates(values, hash) {
      forall searched
        ensures Switch(values, hash, lo, hi, 0, searched, EqualTo()) == LinearSearch(values, searched)
      {
        var hashes := Hashes(values, hash);
        SwitchFollowsFirstHash(values, hash, lo, hi, 0, searched, EqualTo());
        var first, found := FirstFrom(hashes, hash(searched), 0 * PAGE), LinearSearch(values, searched);
        if found.Some? {
          assert hashes[found.value] == hash(searched);
          assert first.Some? && hash(values[first.value]) == hash(values[found.value]);
        }
      }
    } else {
      var i, j :| 0 <= i < j < |values| && hash(values[i]) == hash(values[j]) && values[i] != values[j];
      var hashes := Hashes(values, hash);
      assert hashes[i] == hashes[j] == hash(values[i]);
      var k := FirstFrom(hashes, hashes[i], 0).value;
      var hidden := if values[k] == values[i] then values[j] else values[i];
      SwitchFollowsFirstHash(values, hash, lo, hi, 0, hidden, EqualTo());
      assert Switch(values, hash, lo, hi, 0, hidden, EqualTo()) == None;
    }
  }

  /** A list of one page needs no condition: labels that differ are hashes that differ. */
  lemma OnePageSwitchIsLinearSearch<V(!new)>(values: seq<V>, hash: V -> int, lo: int, hi: int)
    requires 0 < |values| <= PAGE && InType(values, hash, lo, hi) && Compiles(values, hash, lo, hi)
    ensures AgreesWithLinearSearch(values, hash, lo, hi)
  {
    var labels, hashes := Cases(Hashes(values, hash), 0 * PAGE, lo, hi), Hashes(values, hash);
    assert PageCompiles(values, hash, lo, hi, 0);
    forall i, j | 0 <= i < j < |values| ensures hash(values[i]) != hash(values[j]) {
      assert labels[i] == hashes[i] && labels[j] == hashes[j];
    }
    SwitchIsLinearSearchIff(values, hash, lo, hi);
  }

  /** The hash switched on: the primary one unless it repeats anywhere on the list. */
  ghost function ChosenHash<V>(values: seq<V>, primary: V -> int, secondary: V -> int): V -> int {
    if Distinct(Hashes(values, primary)) then primary else secondary
  }

  lemma SeparatesIffDistinct<V>(values: seq<V>, hash: V -> int)
    requires Distinct(values)
    ensures Separates(values, hash) <==> Distinct(Hashes(values, hash))
  {
    var hashes := Hashes(values, hash);
    assert forall i :: 0 <= i < |values| ==> hashes[i] == hash(values[i]);
    if !Distinct(hashes) {
      var i, j :| 0 <= i < j < |hashes| && hashes[i] == hashes[j];
      assert values[i] != values[j];
    }
  }

  /** A list of different values is searched correctly exactly if one of the two hashes
      repeats nowhere on it; nothing checks that of the fallback. */
  lemma DispatchIsLinearSearchIff<V(!new)>(values: seq<V>, primary: V -> int, secondary: V -> int, lo: int, hi: int)
    requires values != [] && Distinct(values)
    requires InType(values, ChosenHash(values, primary, secondary), lo, hi)
    requires Compiles(values, ChosenHash(values, primary, secondary), lo, hi)
    ensures AgreesWithLinearSearch(values, ChosenHash(values, primary, secondary), lo, hi)
      <==> Distinct(Hashes(values, primary)) || Distinct(Hashes(values, secondary))
  {
    hide Compiles, AgreesWithLinearSearch, Distinct;
    SwitchIsLinearSearchIff(values, ChosenHash(values, primary, secondary), lo, hi);
    SeparatesIffDistinct(values, primary);
    SeparatesIffDistinct(values, secondary);
  }

  // ----- enum values, hashed by their own integer -----

  function Itself(): int -> int {
    (v: int) => v
  }

  /** Values used on the last page. */
  function LastPageUse(count: nat): nat
    requires count > 0
  {
    (count - 1) % PAGE + 1
  }

  /** Room above the last value for the dead labels of the last page but for one at most. */
  predicate RoomAbove(values: seq<int>, hi: int)
    requires values != []
  {
    values[|values| - 1] + PAGE - LastPageUse(|values|) <= hi + 1
  }

  /** One page of an ascending enum: a full page compiles, the last one needs the room. */
  lemma PageOfAscending(values: seq<int>, lo: int, hi: int, p: nat)
    requires values != [] && Ascending(values) && InType(values, Itself(), lo, hi)
    ensures PageCompiles(values, Itself(), lo, hi, p)
      <==> (p != (|values| - 1) / PAGE || RoomAbove(values, hi))
  {
    hide Distinct, Cases;
    assert Hashes(values, Itself()) == values;
    if p * PAGE < |values| {
      var live := Live(values, p * PAGE);
      assert live[|live| - 1] in values && Ascending(live);
      AscendingLabelsDistinctIff(values, p * PAGE, lo, hi);
      assert |live| == if p == (|values| - 1) / PAGE then LastPageUse(|values|) else PAGE;
    }
  }

  /** The dispatch over an ascending enum compiles exactly when there is room above. */
  lemma EnumSwitchCompilesIff(values: seq<int>, lo: int, hi: int)
    requires values != [] && Ascending(values) && InType(values, Itself(), lo, hi)
    ensures Compiles(values, Itself(), lo, hi) <==> RoomAbove(values, hi)
  {
    hide PageCompiles, RoomAbove;
    forall p: nat ensures PageCompiles(values, Itself(), lo, hi, p) <==> (p != (|values| - 1) / PAGE || RoomAbove(values, hi)) {
      PageOfAscending(values, lo, hi, p);
    }
    assert PageCompiles(values, Itself(), lo, hi, (|values| - 1) / PAGE) <==> RoomAbove(values, hi);
  }

  /** A sparse enum of one byte may not compile: 1 and 255 leave 254 slots and no value
      above, so the wrap-around loop repeats a label. */
  lemma TwoByteValuesDoNotCompile()
    ensures InType([1, 255], Itself(), 0, 255) && !Compiles([1, 255], Itself(), 0, 255)
  {
    assert Hashes([1, 255], Itself()) == [1, 255];
    EnumSwitchCompilesIff([1, 255], 0, 255);
  }

  /** Over a type of one byte the switch compiles exactly when the last value, counted from
      the minimum of the type, is at most the number of values. */
  lemma ByteSwitchCompilesIff(values: seq<int>, lo: int)
    requires values != [] && Ascending(values) && InType(values, Itself(), lo, lo + 255)
    ensures Compiles(values, Itself(), lo, lo + 255) <==> values[|values| - 1] - lo <= |values|
  {
    ByteValuesFitOnePage(values, lo);
    hide Compiles, InType, Ascending;
    EnumSwitchCompilesIff(values, lo, lo + 255);
  }

  lemma ByteValuesFitOnePage(values: seq<int>, lo: int)
    requires values != [] && Ascending(values) && InType(values, Itself(), lo, lo + 255)
    ensures LastPageUse(|values|) == |values|
  {
    assert Hashes(values, Itself()) == values && values[0] in values && values[|values| - 1] in values;
    AscendingGrows(values, lo, |values| - 1);
  }

  /** So plain byte enums do not compile where they are switched on: the flags 1, 2 and 4
      unsigned, or 0 and 2 signed. */
  lemma UnsignedByteFlagsDoNotCompile()
    ensures InType([1, 2, 4], Itself(), 0, 255) && !Compiles([1, 2, 4], Itself(), 0, 255)
  {
    hide Compiles;
    assert Hashes([1, 2, 4], Itself()) == [1, 2, 4];
    ByteSwitchCompilesIff([1, 2, 4], 0);
  }

  lemma SignedByteValuesDoNotCompile()
    ensures InType([0, 2], Itself(), -128, 127) && !Compiles([0, 2], Itself(), -128, 127)
  {
    hide Compiles;
    assert Hashes([0, 2], Itself()) == [0, 2];
    ByteSwitchCompilesIff([0, 2], -128);
  }
}
