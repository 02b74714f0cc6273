/** `AwaitableEvent`: a latch with any number of waiting operations, each of which can be
    canceled. `set`, the start of `co_wait` and the cancellation handler run under one mutex,
    so every interleaving is a sequence of them. */
module AwaitableEvent {
  import opened Sequences

  /** The error code a handler is posted with. */
  datatype Outcome = Success | Canceled

  datatype Posted = Posted(op: nat, outcome: Outcome)

  /** `m_set`; `m_operations`, the waiters linked, in order; the operations whose
      cancellation slot was assigned; those finalizing; the handlers posted so far. */
  datatype Event = Event(isSet: bool, linked: seq<nat>, slots: set<nat>, finalizing: set<nat>, posted: seq<Posted>)

  datatype Call = Set | Wait(op: nat) | Cancel(op: nat)

  const Initial: Event := Event(false, [], {}, {}, [])

  function Without(s: seq<nat>, x: nat): seq<nat> {
    if s == [] then [] else (if s[0] == x then [] else [s[0]]) + Without(s[1..], x)
  }

  /** `TOperation::finalize`. */
  function Finalized(e: Event, op: nat, outcome: Outcome): Event {
    if op in e.finalizing then e
    else e.(linked := Without(e.linked, op), finalizing := e.finalizing + {op}, posted := e.posted + [Posted(op, outcome)])
  }

  /** Waiters leave the list from the front, each unlinked before it is finalized. */
  function Cleared(e: Event): Event
    decreases |e.linked|
  {
    if e.linked == [] then e
    else
      var popped := e.(linked := e.linked[1..]);
      WithoutShrinks(popped.linked, e.linked[0]);
      Cleared(Finalized(popped, e.linked[0], Success))
  }

  lemma {:induction false} WithoutShrinks(s: seq<nat>, x: nat)
    ensures |Without(s, x)| <= |s|
    ensures x !in Without(s, x)
    ensures forall y :: y in Without(s, x) <==> y in s && y != x
    ensures x !in s ==> Without(s, x) == s
  {
    if s != [] {
      WithoutShrinks(s[1..], x);
    }
  }

  function Next(e: Event, call: Call): Event {
    match call
    case Set => Cleared(e.(isSet := true))
    case Wait(op) =>
      if e.isSet then Finalized(e, op, Success)
      else e.(linked := e.linked + [op], slots := e.slots + {op})
    case Cancel(op) => if op in e.slots then Finalized(e, op, Canceled) else e
  }

  /** The event after a history of calls. */
  function After(h: seq<Call>): Event {
    if h == [] then Initial else Next(After(h[..|h| - 1]), h[|h| - 1])
  }

  /** Operations are fresh objects: each is made by one `co_wait`. */
  predicate FreshOperations(h: seq<Call>) {
    forall i, j :: 0 <= i < j < |h| && h[i].Wait? && h[j].Wait? ==> h[i].op != h[j].op
  }

  class AwaitableEvent {
    var isSet: bool
    var operations: seq<nat>
    var slots: set<nat>
    var finalizing: set<nat>
    ghost var posted: seq<Posted>

    ghost function View(): Event
      reads this
    {
      Event(isSet, operations, slots, finalizing, posted)
    }

    constructor ()
      ensures View() == Initial
    {
      isSet, operations, slots, finalizing, posted := false, [], {}, {}, [];
    }

    method Unlink(op: nat)
      modifies this
      ensures View() == old(View()).(linked := Without(old(operations), op))
    {
      var kept := [];
      for i := 0 to |operations|
        invariant View() == old(View())
        invariant kept + Without(operations[i..], op) == Without(operations, op)
      {
        if operations[i] != op {
          kept := kept + [operations[i]];
        }
      }
      operations := kept;
    }

    method Finalize(op: nat, outcome: Outcome)
      modifies this
      ensures View() == Finalized(old(View()), op, outcome)
    {
      if op in finalizing {
        return;
      }
      Unlink(op);
      finalizing := finalizing + {op};
      posted := posted + [Posted(op, outcome)];
    }

    method SetEvent()
      modifies this
      ensures View() == Next(old(View()), Set)
    {
      isSet := true;
      while operations != []
        invariant Cleared(View()) == Next(old(View()), Set)
        decreases |operations|
      {
        var op := operations[0];
        operations := operations[1..];
        WithoutShrinks(operations, op);
        Finalize(op, Success);
      }
    }

    method CoWait(op: nat)
      modifies this
      ensures View() == Next(old(View()), Wait(op))
    {
      if isSet {
        Finalize(op, Success);
      } else {
        operations := operations + [op];
        slots := slots + {op};
      }
    }

    method CancelSlot(op: nat)
      modifies this
      ensures View() == Next(old(View()), Cancel(op))
    {
      if op in slots {
        Finalize(op, Canceled);
      }
    }
  }

  // ----- what became of an operation, read off the history alone -----

  /** The event was set, and no cancellation of the waiting operation came before that. */
  ghost predicate SetFirst(h: seq<Call>, op: nat) {
    exists w, s :: 0 <= w < |h| && 0 <= s < |h| && h[w] == Wait(op) && h[s] == Set
      && forall c :: w < c < s ==> h[c] != Cancel(op)
  }

  /** The waiting operation was canceled before the event was ever set. */
  ghost predicate CancelFirst(h: seq<Call>, op: nat) {
    exists w, c :: 0 <= w < c < |h| && h[w] == Wait(op) && h[c] == Cancel(op) && Set !in h[..c]
  }

  function Successes(ops: seq<nat>): seq<Posted> {
    seq(|ops|, i requires 0 <= i < |ops| => Posted(ops[i], Success))
  }

  /** Setting posts every waiter, in list order, and leaves none linked. */
  lemma {:induction false} ClearedPostsAll(e: Event)
    requires Distinct(e.linked) && forall op :: op in e.linked ==> op !in e.finalizing
    ensures var c := Cleared(e);
      && c.linked == [] && c.isSet == e.isSet && c.slots == e.slots
      && c.posted == e.posted + Successes(e.linked)
      && forall op :: op in c.finalizing <==> op in e.finalizing || op in e.linked
    decreases |e.linked|
  {
    if e.linked != [] {
      var op, rest := e.linked[0], e.linked[1..];
      assert e.linked == [op] + rest;
      var e' := e.(linked := rest, finalizing := e.finalizing + {op}, posted := e.posted + [Posted(op, Success)]);
      ClearedFirst(e);
      ClearedPostsAll(e');
      SuccessesOfFirst(e.posted, e.linked);
    }
  }

  lemma ClearedFirst(e: Event)
    requires Distinct(e.linked) && e.linked != [] && e.linked[0] !in e.finalizing
    ensures var op := e.linked[0];
      Cleared(e) == Cleared(e.(linked := e.linked[1..], finalizing := e.finalizing + {op}, posted := e.posted + [Posted(op, Success)]))
  {
    hide Without;
    WithoutShrinks(e.linked[1..], e.linked[0]);
  }

  lemma SuccessesOfFirst(posted: seq<Posted>, linked: seq<nat>)
    requires linked != []
    ensures posted + [Posted(linked[0], Success)] + Successes(linked[1..]) == posted + Successes(linked)
  {
    assert Successes(linked) == [Posted(linked[0], Success)] + Successes(linked[1..]);
  }

  // ----- the history -----

  /** An operation waiting at some time is decided by a set unless a cancellation won. */
  lemma SetFirstIff(h: seq<Call>, op: nat)
    requires FreshOperations(h)
    ensures SetFirst(h, op) <==> Set in h && Wait(op) in h && !CancelFirst(h, op)
  {
    if Set in h && Wait(op) in h && !CancelFirst(h, op) {
      var w :| 0 <= w < |h| && h[w] == Wait(op);
      var s := FirstSet(h);
      forall c | w < c < s ensures h[c] != Cancel(op) {
        assert Set !in h[..c];
      }
    }
  }

  function FirstSet(h: seq<Call>): (s: nat)
    requires Set in h
    ensures s < |h| && h[s] == Set && Set !in h[..s]
  {
    if h[0] == Set then 0 else 1 + FirstSet(h[1..])
  }

  lemma CancelFirstStep(h: seq<Call>, call: Call, op: nat)
    ensures CancelFirst(h + [call], op)
      <==> CancelFirst(h, op) || (call == Cancel(op) && Wait(op) in h && Set !in h)
  {
    var h' := h + [call];
    if w, c :| 0 <= w < c < |h| && h[w] == Wait(op) && h[c] == Cancel(op) && Set !in h[..c] {
      assert h'[..c] == h[..c] && h'[w] == Wait(op) && h'[c] == Cancel(op);
    }
    if call == Cancel(op) && Wait(op) in h && Set !in h {
      var w :| 0 <= w < |h| && h[w] == Wait(op);
      assert h'[..|h|] == h && h'[w] == Wait(op) && h'[|h|] == Cancel(op);
    }
    if w, c :| 0 <= w < c < |h'| && h'[w] == Wait(op) && h'[c] == Cancel(op) && Set !in h'[..c] {
      assert h'[..c] == if c < |h| then h[..c] else h;
    }
  }

  /** What became of an operation: decided by the first of set and cancellation, if any. */
  ghost function Fate(h: seq<Call>, op: nat): set<Outcome> {
    if CancelFirst(h, op) then {Canceled}
    else if Set in h && Wait(op) in h then {Success}
    else {}
  }

  /** What every call keeps, for one operation: posted exactly as the history decided, and
      linked exactly while it waits undecided. */
  ghost predicate Faithful(h: seq<Call>, e: Event, op: nat) {
    && (op in e.finalizing <==> Fate(h, op) != {})
    && (op in e.linked <==> Wait(op) in h && Fate(h, op) == {})
    && (op in e.slots ==> Wait(op) in h)
    && (op in e.linked ==> op in e.slots)
    && (forall o :: Posted(op, o) in e.posted <==> o in Fate(h, op))
  }

  ghost predicate Consistent(h: seq<Call>, e: Event) {
    && (e.isSet <==> Set in h)
    && (e.isSet ==> e.linked == [])
    && Distinct(e.linked)
    && (forall i, j :: 0 <= i < j < |e.posted| ==> e.posted[i].op != e.posted[j].op)
    && (forall op :: Faithful(h, e, op))
  }

  lemma FateStep(h: seq<Call>, call: Call, op: nat)
    ensures Fate(h + [call], op) == if Fate(h, op) != {} then Fate(h, op)
      else if call == Cancel(op) && Wait(op) in h then {Canceled}
      else if call == Set && Wait(op) in h then {Success}
      else if call == Wait(op) && Set in h then {Success}
      else {}
  {
    CancelFirstStep(h, call, op);
    hide CancelFirst;
    assert forall c: Call :: c in h + [call] <==> c in h || c == call;
  }

  lemma FinalizedIsConsistent(e: Event, op: nat, outcome: Outcome)
    requires op !in e.finalizing
    ensures var f := Finalized(e, op, outcome);
      && f.isSet == e.isSet && f.slots == e.slots && f.finalizing == e.finalizing + {op}
      && f.posted == e.posted + [Posted(op, outcome)]
      && (forall x :: x in f.linked <==> x in e.linked && x != op)
      && (Distinct(e.linked) ==> Distinct(f.linked))
      && (e.linked == [] ==> f.linked == [])
  {
    WithoutShrinks(e.linked, op);
    if Distinct(e.linked) { WithoutKeepsDistinct(e.linked, op); }
  }

  lemma {:induction false} WithoutKeepsDistinct(s: seq<nat>, x: nat)
    requires Distinct(s)
    ensures Distinct(Without(s, x))
  {
    if s != [] {
      WithoutKeepsDistinct(s[1..], x);
      WithoutShrinks(s[1..], x);
      assert s[0] !in s[1..];
    }
  }

  lemma StepKeepsConsistent(h: seq<Call>, e: Event, call: Call)
    requires Consistent(h, e) && FreshOperations(h + [call])
    ensures Consistent(h + [call], Next(e, call))
  {
    match call
    case Set =>
      SetKeeps(h, e);
    case Wait(op) =>
      FreshIsNew(h, op);
      WaitKeeps(h, e, op);
    case Cancel(op) =>
      CancelKeeps(h, e, op);
  }

  lemma FreshIsNew(h: seq<Call>, op: nat)
    requires FreshOperations(h + [Wait(op)])
    ensures Wait(op) !in h
  {
    var h' := h + [Wait(op)];
    forall i | 0 <= i < |h| ensures h[i] != Wait(op) {
      assert h'[i] == h[i] && h'[|h|] == Wait(op);
    }
  }

  lemma NoFateWithoutWait(h: seq<Call>, op: nat)
    requires Wait(op) !in h
    ensures Fate(h, op) == {}
  {
  }

  lemma SetKeeps(h: seq<Call>, e: Event)
    requires Consistent(h, e)
    ensures Consistent(h + [Set], Next(e, Set))
  {
    hide Fate, Cleared;
    var e', h' := Next(e, Set), h + [Set];
    assert forall c: Call :: c in h' <==> c in h || c == Set;
    assert forall op :: op in e.linked ==> Faithful(h, e, op);
    ClearedPostsAll(e.(isSet := true));
    assert e'.posted == e.posted + Successes(e.linked);
    forall op ensures Faithful(h', e', op) {
      assert Faithful(h, e, op);
      FateStep(h, Set, op);
      PostedSuccess(e.linked, op);
    }
    forall i, j | 0 <= i < j < |e'.posted| ensures e'.posted[i].op != e'.posted[j].op {
      if i < |e.posted| <= j {
        assert Faithful(h, e, e.linked[j - |e.posted|]) && e.linked[j - |e.posted|] in e.linked;
        assert e.posted[i] == Posted(e.posted[i].op, e.posted[i].outcome) && e.posted[i] in e.posted;
      }
    }
  }

  lemma PostedSuccess(linked: seq<nat>, op: nat)
    ensures forall o :: Posted(op, o) in Successes(linked) <==> op in linked && o == Success
  {
    if op in linked {
      var i :| 0 <= i < |linked| && linked[i] == op;
      assert Successes(linked)[i] == Posted(op, Success);
    }
  }

  lemma WaitKeeps(h: seq<Call>, e: Event, op: nat)
    requires Consistent(h, e) && Wait(op) !in h
    ensures Consistent(h + [Wait(op)], Next(e, Wait(op)))
  {
    hide Fate, Finalized;
    var e', h' := Next(e, Wait(op)), h + [Wait(op)];
    assert Faithful(h, e, op);
    NoFateWithoutWait(h, op);
    FinalizedIsConsistent(e, op, Success);
    forall x ensures Faithful(h', e', x) {
      assert Faithful(h, e, x);
      FateStep(h, Wait(op), x);
    }
    PostedStaysUnique(h, e, op, Success);
  }

  lemma CancelKeeps(h: seq<Call>, e: Event, op: nat)
    requires Consistent(h, e)
    ensures Consistent(h + [Cancel(op)], Next(e, Cancel(op)))
  {
    hide Fate;
    var e', h' := Next(e, Cancel(op)), h + [Cancel(op)];
    assert Faithful(h, e, op);
    if op !in e.finalizing {
      FinalizedIsConsistent(e, op, Canceled);
    }
    hide Finalized;
    forall x ensures Faithful(h', e', x) {
      assert Faithful(h, e, x);
      FateStep(h, Cancel(op), x);
    }
    PostedStaysUnique(h, e, op, Canceled);
  }

  lemma PostedStaysUnique(h: seq<Call>, e: Event, op: nat, outcome: Outcome)
    requires Consistent(h, e)
    ensures op !in e.finalizing ==> forall i, j :: 0 <= i < j < |e.posted| + 1 ==>
      (e.posted + [Posted(op, outcome)])[i].op != (e.posted + [Posted(op, outcome)])[j].op
  {
    assert Faithful(h, e, op);
    if op !in e.finalizing {
      forall i | 0 <= i < |e.posted| ensures e.posted[i].op != op {
        assert e.posted[i] == Posted(e.posted[i].op, e.posted[i].outcome) && e.posted[i] in e.posted;
      }
    }
  }

  lemma {:induction false} AlwaysConsistent(h: seq<Call>)
    requires FreshOperations(h)
    ensures Consistent(h, After(h))
  {
    if h == [] {
      forall op ensures Faithful(h, Initial, op) { }
    } else {
      var before, call := h[..|h| - 1], h[|h| - 1];
      assert h == before + [call];
      AlwaysConsistent(before);
      StepKeepsConsistent(before, After(before), call);
    }
  }

  /** Main result. In every interleaving each operation is posted at most once: with success
      iff it waited and no cancellation came between its start and a set; canceled iff it was
      canceled, after its start, before any set. It is linked iff it waits undecided. */
  lemma LatchOverAllInterleavings(h: seq<Call>)
    requires FreshOperations(h)
    ensures var e := After(h);
      && (forall i, j :: 0 <= i < j < |e.posted| ==> e.posted[i].op != e.posted[j].op)
      && (forall op :: Posted(op, Success) in e.posted <==> SetFirst(h, op))
      && (forall op :: Posted(op, Canceled) in e.posted <==> CancelFirst(h, op))
      && (forall op :: op in e.linked <==> Wait(op) in h && op !in e.finalizing)
      && (forall op :: op in e.finalizing <==> SetFirst(h, op) || CancelFirst(h, op))
  {
    var e := After(h);
    AlwaysConsistent(h);
    forall op
      ensures Posted(op, Success) in e.posted <==> SetFirst(h, op)
      ensures Posted(op, Canceled) in e.posted <==> CancelFirst(h, op)
      ensures op in e.linked <==> Wait(op) in h && op !in e.finalizing
      ensures op in e.finalizing <==> SetFirst(h, op) || CancelFirst(h, op)
    {
      assert Faithful(h, e, op);
      SetFirstIff(h, op);
    }
  }

  /** After a set no waiter is linked; and a later wait, never canceled in time, is posted
      success: a set before the wait is not lost. */
  lemma SetIsNotLost(h: seq<Call>, op: nat)
    requires FreshOperations(h) && Set in h
    ensures After(h).linked == []
    ensures Wait(op) !in h ==> Posted(op, Success) in After(h + [Wait(op)]).posted
  {
    var e := After(h);
    AlwaysConsistent(h);
    if Wait(op) !in h {
      var h' := h + [Wait(op)];
      assert h'[..|h|] == h;
      assert Faithful(h, e, op);
      NoFateWithoutWait(h, op);
    }
  }

  // ----- the order of the posts -----

  ghost predicate WaitedBefore(h: seq<Call>, a: nat, b: nat) {
    exists x, y :: 0 <= x < y < |h| && h[x] == Wait(a) && h[y] == Wait(b)
  }

  ghost predicate InWaitOrder(h: seq<Call>, ops: seq<nat>) {
    forall i, j :: 0 <= i < j < |ops| ==> WaitedBefore(h, ops[i], ops[j])
  }

  ghost predicate SuccessesInOrder(h: seq<Call>, posted: seq<Posted>) {
    forall i, j :: 0 <= i < j < |posted| && posted[i].outcome == Success && posted[j].outcome == Success ==>
      WaitedBefore(h, posted[i].op, posted[j].op)
  }

  lemma StillBefore(h: seq<Call>, call: Call, a: nat, b: nat)
    requires WaitedBefore(h, a, b)
    ensures WaitedBefore(h + [call], a, b)
  {
    var x, y :| 0 <= x < y < |h| && h[x] == Wait(a) && h[y] == Wait(b);
    assert (h + [call])[x] == Wait(a) && (h + [call])[y] == Wait(b);
  }

  lemma BeforeTheLast(h: seq<Call>, a: nat, b: nat)
    requires Wait(a) in h
    ensures WaitedBefore(h + [Wait(b)], a, b)
  {
    var x :| 0 <= x < |h| && h[x] == Wait(a);
    assert (h + [Wait(b)])[x] == Wait(a) && (h + [Wait(b)])[|h|] == Wait(b);
  }

  lemma {:induction false} WithoutKeepsOrder(h: seq<Call>, s: seq<nat>, x: nat)
    requires InWaitOrder(h, s)
    ensures InWaitOrder(h, Without(s, x))
  {
    hide WaitedBefore;
    if s != [] {
      WithoutKeepsOrder(h, s[1..], x);
      WithoutShrinks(s[1..], x);
      var rest := Without(s[1..], x);
      forall j | 0 <= j < |rest| ensures WaitedBefore(h, s[0], rest[j]) {
        assert rest[j] in rest && rest[j] in s[1..];
      }
    }
  }

  lemma StillInOrder(h: seq<Call>, call: Call, e: Event)
    requires InWaitOrder(h, e.linked) && SuccessesInOrder(h, e.posted)
    ensures InWaitOrder(h + [call], e.linked) && SuccessesInOrder(h + [call], e.posted)
  {
    forall a, b | WaitedBefore(h, a, b) ensures WaitedBefore(h + [call], a, b) { StillBefore(h, call, a, b); }
    hide WaitedBefore;
  }

  /** What the calls keep: an operation that waits or succeeded had its wait. */
  lemma WaitOf(h: seq<Call>, e: Event, op: nat)
    requires Consistent(h, e)
    ensures op in e.linked ==> Wait(op) in h
    ensures Posted(op, Success) in e.posted ==> Wait(op) in h && Set in h
  {
    assert Faithful(h, e, op);
  }

  lemma SetKeepsOrder(h: seq<Call>, e: Event)
    requires Consistent(h, e) && InWaitOrder(h, e.linked) && SuccessesInOrder(h, e.posted)
    ensures InWaitOrder(h + [Set], Next(e, Set).linked) && SuccessesInOrder(h + [Set], Next(e, Set).posted)
  {
    StillInOrder(h, Set, e);
    forall op ensures Posted(op, Success) in e.posted ==> Set in h { WaitOf(h, e, op); }
    forall op | op in e.linked ensures op !in e.finalizing { assert Faithful(h, e, op); }
    ClearedPostsAll(e.(isSet := true));
    hide WaitedBefore, Cleared, Faithful;
    if Set !in h {
      assert forall i :: 0 <= i < |e.posted| ==> e.posted[i] in e.posted;
      assert forall i :: 0 <= i < |e.posted| && e.posted[i].outcome == Success ==> e.posted[i] == Posted(e.posted[i].op, Success);
    }
  }

  lemma WaitKeepsOrder(h: seq<Call>, e: Event, op: nat)
    requires Consistent(h, e) && Wait(op) !in h && InWaitOrder(h, e.linked) && SuccessesInOrder(h, e.posted)
    ensures InWaitOrder(h + [Wait(op)], Next(e, Wait(op)).linked) && SuccessesInOrder(h + [Wait(op)], Next(e, Wait(op)).posted)
  {
    StillInOrder(h, Wait(op), e);
    NoFateWithoutWait(h, op);
    assert Faithful(h, e, op);
    FinalizedIsConsistent(e, op, Success);
    forall a | Wait(a) in h ensures WaitedBefore(h + [Wait(op)], a, op) { BeforeTheLast(h, a, op); }
    forall a ensures (a in e.linked ==> Wait(a) in h) && (Posted(a, Success) in e.posted ==> Wait(a) in h) { WaitOf(h, e, a); }
    hide WaitedBefore, Faithful, Finalized;
    assert forall i :: 0 <= i < |e.posted| ==> e.posted[i] in e.posted;
    assert forall i :: 0 <= i < |e.posted| && e.posted[i].outcome == Success ==> e.posted[i] == Posted(e.posted[i].op, Success);
  }

  lemma CancelKeepsOrder(h: seq<Call>, e: Event, op: nat)
    requires Consistent(h, e) && InWaitOrder(h, e.linked) && SuccessesInOrder(h, e.posted)
    ensures InWaitOrder(h + [Cancel(op)], Next(e, Cancel(op)).linked) && SuccessesInOrder(h + [Cancel(op)], Next(e, Cancel(op)).posted)
  {
    StillInOrder(h, Cancel(op), e);
    WithoutKeepsOrder(h + [Cancel(op)], e.linked, op);
    hide WaitedBefore, Consistent;
  }

  lemma {:induction false} AlwaysInOrder(h: seq<Call>)
    requires FreshOperations(h)
    ensures InWaitOrder(h, After(h).linked) && SuccessesInOrder(h, After(h).posted)
  {
    if h != [] {
      var before, call := h[..|h| - 1], h[|h| - 1];
      assert h == before + [call];
      AlwaysConsistent(before);
      AlwaysInOrder(before);
      hide InWaitOrder, SuccessesInOrder, Consistent;
      match call
      case Set => SetKeepsOrder(before, After(before));
      case Wait(op) =>
        FreshIsNew(before, op);
        WaitKeepsOrder(before, After(before), op);
      case Cancel(op) => CancelKeepsOrder(before, After(before), op);
    }
  }

  /** Operations succeed in the order in which they began to wait, whether they waited for
      the set or came after it. */
  lemma SuccessesComeInWaitOrder(h: seq<Call>, i: nat, j: nat)
    requires FreshOperations(h) && i < j < |After(h).posted|
    requires After(h).posted[i].outcome == Success && After(h).posted[j].outcome == Success
    ensures WaitedBefore(h, After(h).posted[i].op, After(h).posted[j].op)
  {
    AlwaysInOrder(h);
  }
}
