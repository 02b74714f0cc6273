/** `AsyncProxyProvider`: requests wait in one queue per class, responses are handed to the
    head of the queue of their class. All steps run on the provider's strand; each request
    owns an event whose only operation bears the request's number. */
module AsyncProxyProvider {
  import opened Sequences
  import opened Wrappers
  import opened AwaitableEvent

  /** How `get` ends: with a session, `host_unreachable`, or the exception of an operation
      that failed or was canceled. */
  datatype Result = Delivered(session: nat) | HostUnreachable | Aborted

  /** Inside `startAsyncRequest`, inside the event's `co_wait`, or over. */
  datatype Phase = Starting | Awaiting | Over(result: Result)

  /** A request: class, place in `get`, calls its event has seen, and `second`. */
  datatype Request = Request(cls: int, phase: Phase, calls: seq<Call>, second: Option<nat>)

  /** One response (a session, or a null pointer) and the request it was handed to. */
  datatype Match = Match(session: Option<nat>, cls: int, to: Option<nat>)

  /** Requests are numbered as they arrive. */
  datatype Provider = Provider(requests: seq<Request>, queues: map<int, seq<nat>>, log: seq<Match>)

  datatype Step =
    | Get(cls: int)                                    // `get` up to `startAsyncRequest`
    | StartEnds(r: nat, ok: bool)                      // true: on to `co_wait`
    | StartThrows(r: nat)
    | Response(session: Option<nat>, cls: int)         // the closure of `asyncResponse`
    | CancelWait(r: nat)
    | Resume(r: nat, outcome: Outcome)                 // the event's handler runs

  const Empty: Provider := Provider([], map[], [])

  function Queue(p: Provider, cls: int): seq<nat> {
    if cls in p.queues then p.queues[cls] else []
  }

  predicate InPhase(p: Provider, r: nat, phase: Phase) {
    r < |p.requests| && p.requests[r].phase == phase
  }

  /** The handler of the request's own wait was posted, and with what. */
  predicate PostedWith(q: Request, r: nat, outcome: Outcome) {
    Posted(r, outcome) in After(q.calls).posted
  }

  predicate Enabled(p: Provider, s: Step) {
    match s
    case Get(_) => true
    case StartEnds(r, _) => InPhase(p, r, Starting)
    case StartThrows(r) => InPhase(p, r, Starting)
    case Response(_, _) => true
    case CancelWait(r) => InPhase(p, r, Awaiting)
    case Resume(r, outcome) => InPhase(p, r, Awaiting) && PostedWith(p.requests[r], r, outcome)
  }

  /** Queues hold numbers of requests only. */
  predicate Known(p: Provider) {
    forall cls: int, r: nat :: cls in p.queues && r in p.queues[cls] ==> r < |p.requests|
  }

  /** What `get` ends with once the event's handler runs. */
  function ResultOf(q: Request, outcome: Outcome): Result {
    if outcome == Canceled then Aborted
    else if q.second.Some? then Delivered(q.second.value)
    else HostUnreachable
  }

  /** Leaving `get` destroys the request, which unlinks itself. */
  function Left(p: Provider, r: nat, result: Result): (p': Provider)
    requires r < |p.requests|
    ensures Known(p) ==> Known(p')
  {
    var q := p.requests[r];
    WithoutShrinks(Queue(p, q.cls), r);
    p.(requests := p.requests[r := q.(phase := Over(result))],
       queues := if q.cls in p.queues then p.queues[q.cls := Without(p.queues[q.cls], r)] else p.queues)
  }

  function Called(p: Provider, r: nat, call: Call): Provider
    requires r < |p.requests|
  {
    p.(requests := p.requests[r := p.requests[r].(calls := p.requests[r].calls + [call])])
  }

  function Take(p: Provider, s: Step): (p': Provider)
    requires Enabled(p, s) && Known(p)
    ensures Known(p')
  {
    match s
    case Get(cls) =>
      Provider(p.requests + [Request(cls, Starting, [], None)],
               p.queues[cls := Queue(p, cls) + [|p.requests|]], p.log)
    case StartEnds(r, ok) =>
      if !ok then Left(p, r, HostUnreachable)
      else
        var waiting := Called(p, r, Wait(r));
        waiting.(requests := waiting.requests[r := waiting.requests[r].(phase := Awaiting)])
    case StartThrows(r) => Left(p, r, Aborted)
    case Response(session, cls) => Responded(p, session, cls)
    case CancelWait(r) => Called(p, r, Cancel(r))
    case Resume(r, outcome) =>
      Left(p, r, ResultOf(p.requests[r], outcome))
  }

  /** The head of the class's queue gets the session and has its event set. */
  function Responded(p: Provider, session: Option<nat>, cls: int): (p': Provider)
    requires Known(p)
    ensures Known(p')
    ensures |p'.requests| == |p.requests|
  {
    var queue := Queue(p, cls);
    if queue == [] then p.(log := p.log + [Match(session, cls, None)])
    else
      var r := queue[0];
      assert r in p.queues[cls] && forall x :: x in queue[1..] ==> x in p.queues[cls];
      var q := p.requests[r].(second := session, calls := p.requests[r].calls + [Set]);
      Provider(p.requests[r := q], p.queues[cls := queue[1..]], p.log + [Match(session, cls, Some(r))])
  }

  class AsyncProxyProvider {
    var requests: seq<Request>
    var queues: map<int, seq<nat>>
    ghost var log: seq<Match>

    ghost function View(): Provider
      reads this
    {
      Provider(requests, queues, log)
    }

    constructor ()
      ensures Known(View()) && View() == Empty
    {
      requests, queues, log := [], map[], [];
    }

    method GetStarts(cls: int) returns (r: nat)
      requires Known(View())
      modifies this
      ensures Known(View()) && View() == Take(old(View()), Get(cls)) && r == |old(requests)|
    {
      if cls !in queues {
        queues := queues[cls := []];
      }
      r := |requests|;
      requests := requests + [Request(cls, Starting, [], None)];
      queues := queues[cls := queues[cls] + [r]];
    }

    method Leave(r: nat, result: Result)
      requires Known(View()) && r < |requests|
      modifies this
      ensures Known(View()) && View() == Left(old(View()), r, result)
    {
      var q := requests[r];
      assert Known(Left(View(), r, result));
      requests := requests[r := q.(phase := Over(result))];
      if q.cls in queues {
        queues := queues[q.cls := Without(queues[q.cls], r)];
      }
    }

    method StartFinished(r: nat, ok: bool)
      requires Known(View()) && InPhase(View(), r, Starting)
      modifies this
      ensures Known(View()) && View() == Take(old(View()), StartEnds(r, ok))
    {
      if !ok {
        Leave(r, HostUnreachable);
      } else {
        requests := requests[r := requests[r].(calls := requests[r].calls + [Wait(r)], phase := Awaiting)];
      }
    }

    method StartThrew(r: nat)
      requires Known(View()) && InPhase(View(), r, Starting)
      modifies this
      ensures Known(View()) && View() == Take(old(View()), StartThrows(r))
    {
      Leave(r, Aborted);
    }

    method AsyncResponse(session: Option<nat>, cls: int)
      requires Known(View())
      modifies this
      ensures Known(View()) && View() == Take(old(View()), Response(session, cls))
    {
      if cls !in queues || queues[cls] == [] {
        log := log + [Match(session, cls, None)];
        return;
      }
      var r := queues[cls][0];
      assert r in queues[cls];
      queues := queues[cls := queues[cls][1..]];
      requests := requests[r := requests[r].(second := session, calls := requests[r].calls + [Set])];
      log := log + [Match(session, cls, Some(r))];
      assert View() == Responded(old(View()), session, cls);
    }

    method CancelWaiting(r: nat)
      requires Known(View()) && InPhase(View(), r, Awaiting)
      modifies this
      ensures Known(View()) && View() == Take(old(View()), CancelWait(r))
    {
      requests := requests[r := requests[r].(calls := requests[r].calls + [Cancel(r)])];
    }

    method HandlerRuns(r: nat, outcome: Outcome)
      requires Known(View()) && Enabled(View(), Resume(r, outcome))
      modifies this
      ensures Known(View()) && View() == Take(old(View()), Resume(r, outcome))
    {
      var second := requests[r].second;
      if outcome == Canceled {
        Leave(r, Aborted);
      } else if second.None? {
        Leave(r, HostUnreachable);
      } else {
        Leave(r, Delivered(second.value));
      }
    }
  }

  /** A run of enabled steps. */
  predicate Runs(p: Provider, run: seq<Step>, p': Provider): (runs: bool)
    requires Known(p)
    ensures runs ==> Known(p')
    decreases |run|
  {
    if run == [] then p == p' else Enabled(p, run[0]) && Runs(Take(p, run[0]), run[1..], p')
  }

  // ----- what every step keeps -----

  predicate Matched(q: Request) {
    Set in q.calls
  }

  /** In the queue: neither handed a session nor gone. */
  predicate Linked(p: Provider, r: nat) {
    r < |p.requests| && !Matched(p.requests[r]) && !p.requests[r].phase.Over?
  }

  /** Every queue holds exactly the linked requests of its class, oldest first. */
  ghost predicate Queued(p: Provider) {
    forall cls :: QueuedClass(p, cls)
  }

  ghost predicate QueuedClass(p: Provider, cls: int) {
    && Ascending(Queue(p, cls))
    && forall r: nat :: r in Queue(p, cls) <==> Linked(p, r) && p.requests[r].cls == cls
  }

  /** The wait had begun and was not canceled before the event was set. */
  ghost predicate WaitHeld(q: Request, r: nat) {
    Wait(r) in q.calls && !CancelFirst(q.calls, r)
  }

  /** How a request that came to its wait ends. */
  ghost function Decided(q: Request, r: nat): Result {
    if !WaitHeld(q, r) then Aborted
    else if q.second.None? then HostUnreachable
    else Delivered(q.second.value)
  }

  /** What a request's calls and result say of each other. */
  ghost predicate Sound(q: Request, r: nat) {
    && FreshOperations(q.calls)
    && (forall call :: call in q.calls && call.Wait? ==> call == Wait(r))
    && (q.phase == Starting ==> Wait(r) !in q.calls)
    && (q.phase == Awaiting ==> Wait(r) in q.calls)
    && (q.phase.Over? && q.phase.result.Delivered? ==> Matched(q) && q.second == Some(q.phase.result.session))
    && (q.phase.Over? && Matched(q) && q.second.Some? ==> (q.phase.result.Delivered? <==> WaitHeld(q, r)))
    && (q.phase.Over? && Wait(r) in q.calls ==> q.phase.result == Decided(q, r))
  }

  /** The request an entry names has what the entry says. */
  predicate Confirms(p: Provider, entry: Match)
    requires entry.to.Some?
  {
    var r := entry.to.value;
    && r < |p.requests| && Matched(p.requests[r])
    && p.requests[r].cls == entry.cls && p.requests[r].second == entry.session
  }

  /** The log and the requests agree: a request is matched by one entry, of its class. */
  ghost predicate Logged(p: Provider) {
    && (forall i :: 0 <= i < |p.log| && p.log[i].to.Some? ==> Confirms(p, p.log[i]))
    && (forall i, j :: 0 <= i < j < |p.log| && p.log[i].to.Some? ==> p.log[i].to != p.log[j].to)
    && (forall r: nat :: r < |p.requests| && Matched(p.requests[r]) ==> exists i :: 0 <= i < |p.log| && p.log[i].to == Some(r))
  }

  ghost predicate Good(p: Provider) {
    Known(p) && Queued(p) && Logged(p) && forall r: nat :: r < |p.requests| ==> Sound(p.requests[r], r)
  }

  // ----- preservation, part by part -----

  lemma CallKeepsSound(q: Request, r: nat, call: Call)
    requires Sound(q, r) && !q.phase.Over?
    requires call == Cancel(r) || (call == Wait(r) && q.phase == Starting)
    ensures Sound(q.(calls := q.calls + [call], phase := if call.Wait? then Awaiting else q.phase), r)
  {
    assert forall c: Call :: c in q.calls + [call] <==> c in q.calls || c == call;
    if call.Wait? {
      forall i | 0 <= i < |q.calls| ensures !q.calls[i].Wait? { assert q.calls[i] in q.calls; }
    }
  }

  lemma SetKeepsSound(q: Request, r: nat, session: Option<nat>)
    requires Sound(q, r) && !q.phase.Over?
    ensures Sound(q.(second := session, calls := q.calls + [Set]), r)
  {
    assert forall c: Call :: c in q.calls + [Set] <==> c in q.calls || c == Set;
  }

  lemma LeaveKeepsSound(q: Request, r: nat, result: Result)
    requires Sound(q, r) && !q.phase.Over?
    requires q.phase == Starting ==> !result.Delivered?
    requires q.phase == Awaiting ==> exists outcome :: PostedWith(q, r, outcome) && result == ResultOf(q, outcome)
    ensures Sound(q.(phase := Over(result)), r)
  {
    if q.phase == Awaiting {
      LatchOverAllInterleavings(q.calls);
      SetFirstIff(q.calls, r);
      hide SetFirst, CancelFirst, After, FreshOperations;
      var outcome :| PostedWith(q, r, outcome) && result == ResultOf(q, outcome);
      assert outcome == Success <==> !CancelFirst(q.calls, r);
      assert outcome == Success ==> Matched(q);
    }
  }

  lemma ResponseKeepsSound(p: Provider, session: Option<nat>, cls: int, r: nat)
    requires Known(p) && Queued(p) && r < |Responded(p, session, cls).requests|
    requires forall t: nat :: t < |p.requests| ==> Sound(p.requests[t], t)
    ensures Sound(Responded(p, session, cls).requests[r], r)
  {
    hide Sound;
    assert QueuedClass(p, cls) && r < |p.requests| && Sound(p.requests[r], r);
    var queue := Queue(p, cls);
    if queue != [] && queue[0] == r {
      assert r in queue;
      SetKeepsSound(p.requests[r], r, session);
    }
  }

  lemma StepKeepsSound(p: Provider, s: Step, r: nat)
    requires Good(p) && Enabled(p, s) && r < |Take(p, s).requests|
    ensures Sound(Take(p, s).requests[r], r)
  {
    hide Sound, PostedWith, Logged;
    assert r < |p.requests| ==> Sound(p.requests[r], r);
    match s
    case Get(cls) =>
      if r == |p.requests| { NewIsSound(cls, r); }
    case StartEnds(k, ok) =>
      if r == k && ok { CallKeepsSound(p.requests[r], r, Wait(r)); }
      if r == k && !ok { LeaveKeepsSound(p.requests[r], r, HostUnreachable); }
    case StartThrows(k) =>
      if r == k { LeaveKeepsSound(p.requests[r], r, Aborted); }
    case Response(session, cls) =>
      ResponseKeepsSound(p, session, cls, r);
    case CancelWait(k) =>
      if r == k { CallKeepsSound(p.requests[r], r, Cancel(r)); }
    case Resume(k, outcome) =>
      if r == k {
        LeaveKeepsSound(p.requests[r], r, ResultOf(p.requests[r], outcome));
      }
  }

  lemma NewIsSound(cls: int, r: nat)
    ensures Sound(Request(cls, Starting, [], None), r)
  {
  }

  lemma {:induction false} WithoutKeepsAscending(s: seq<nat>, x: nat)
    requires Ascending(s)
    ensures Ascending(Without(s, x))
  {
    if s != [] {
      WithoutKeepsAscending(s[1..], x);
      WithoutShrinks(s[1..], x);
      var rest := Without(s[1..], x);
      forall i | 0 <= i < |rest| ensures s[0] < rest[i] { assert rest[i] in rest && rest[i] in s[1..]; }
    }
  }

  /** Linking, the class and the queues are all that `Queued` reads. */
  lemma StepKeepsQueued(p: Provider, s: Step, cls: int)
    requires Good(p) && Enabled(p, s)
    ensures QueuedClass(Take(p, s), cls)
  {
    hide Sound, PostedWith, Logged;
    assert QueuedClass(p, cls);
    match s
    case Get(c) =>
      GetKeepsQueued(p, c, cls);
    case StartEnds(k, ok) =>
      if !ok { LeaveKeepsQueued(p, k, HostUnreachable, cls); }
      else { CallKeepsLinked(p, k, Wait(k), Awaiting, cls); }
    case StartThrows(k) =>
      LeaveKeepsQueued(p, k, Aborted, cls);
    case Response(session, c) =>
      ResponseKeepsQueued(p, session, c, cls);
    case CancelWait(k) =>
      CallKeepsLinked(p, k, Cancel(k), Awaiting, cls);
    case Resume(k, outcome) =>
      LeaveKeepsQueued(p, k, Take(p, s).requests[k].phase.result, cls);
  }

  lemma CallKeepsLinked(p: Provider, k: nat, call: Call, phase: Phase, cls: int)
    requires QueuedClass(p, cls) && k < |p.requests| && !p.requests[k].phase.Over? && !phase.Over? && call != Set
    ensures QueuedClass(p.(requests := p.requests[k := p.requests[k].(calls := p.requests[k].calls + [call], phase := phase)]), cls)
  {
    var calls := p.requests[k].calls;
    assert Set in calls + [call] <==> Set in calls;
  }

  lemma LeaveKeepsQueued(p: Provider, k: nat, result: Result, cls: int)
    requires Queued(p) && k < |p.requests|
    ensures QueuedClass(Left(p, k, result), cls)
  {
    assert QueuedClass(p, cls);
    WithoutKeepsAscending(Queue(p, cls), k);
    WithoutShrinks(Queue(p, cls), k);
    var p' := Left(p, k, result);
    assert Queue(p', cls) == if cls == p.requests[k].cls then Without(Queue(p, cls), k) else Queue(p, cls);
    forall r: nat ensures Linked(p', r) <==> Linked(p, r) && r != k {
    }
    assert forall r: nat :: r < |p.requests| ==> p'.requests[r].cls == p.requests[r].cls;
    hide Left, Linked, Queue, Without, Queued;
  }

  lemma GetKeepsQueued(p: Provider, c: int, cls: int)
    requires Known(p) && QueuedClass(p, cls)
    ensures QueuedClass(Take(p, Get(c)), cls)
  {
    var p', n := Take(p, Get(c)), |p.requests|;
    assert Queue(p', cls) == if cls == c then Queue(p, cls) + [n] else Queue(p, cls);
    forall r: nat ensures Linked(p', r) <==> Linked(p, r) || r == n {
      assert r < n ==> p'.requests[r] == p.requests[r];
      assert p'.requests[n] == Request(c, Starting, [], None);
    }
    forall i | 0 <= i < |Queue(p, cls)| ensures Queue(p, cls)[i] < n { assert Queue(p, cls)[i] in Queue(p, cls); }
  }

  lemma ResponseKeepsQueued(p: Provider, session: Option<nat>, c: int, cls: int)
    requires Known(p) && Queued(p)
    ensures QueuedClass(Responded(p, session, c), cls)
  {
    var queue, p' := Queue(p, c), Responded(p, session, c);
    assert QueuedClass(p, cls) && QueuedClass(p, c);
    if queue != [] {
      var head := queue[0];
      assert queue == [head] + queue[1..] && head in queue;
      assert Set in p.requests[head].calls + [Set];
      assert forall r: nat :: Linked(p', r) <==> Linked(p, r) && r != head;
      assert forall r: nat :: r < |p.requests| ==> p'.requests[r].cls == p.requests[r].cls;
      hide Linked;
      if cls == c {
        assert Queue(p', cls) == queue[1..] && head !in queue[1..];
      } else {
        assert Queue(p', cls) == Queue(p, cls);
      }
    }
  }

  lemma StepKeepsLogged(p: Provider, s: Step)
    requires Good(p) && Enabled(p, s)
    ensures Logged(Take(p, s))
  {
    hide Sound, PostedWith;
    if s.Response? {
      ResponseKeepsLogged(p, s.session, s.cls);
    } else {
      var p' := Take(p, s);
      forall r: nat | r < |p.requests|
        ensures Matched(p'.requests[r]) == Matched(p.requests[r])
        ensures p'.requests[r].cls == p.requests[r].cls && p'.requests[r].second == p.requests[r].second
      {
        var calls := p.requests[r].calls;
        assert forall call: Call :: call != Set ==> (Set in calls + [call] <==> Set in calls);
      }
      SameMatchesKeepLogged(p, p');
    }
  }

  lemma SameMatchesKeepLogged(p: Provider, p': Provider)
    requires Logged(p) && p'.log == p.log && |p.requests| <= |p'.requests|
    requires forall r: nat :: r < |p.requests| ==> Matched(p'.requests[r]) == Matched(p.requests[r])
    requires forall r: nat :: r < |p.requests| ==> p'.requests[r].cls == p.requests[r].cls
    requires forall r: nat :: r < |p.requests| ==> p'.requests[r].second == p.requests[r].second
    requires forall r: nat :: |p.requests| <= r < |p'.requests| ==> !Matched(p'.requests[r])
    ensures Logged(p')
  {
    forall i | 0 <= i < |p.log| && p.log[i].to.Some? ensures Confirms(p', p'.log[i]) {
      assert Confirms(p, p.log[i]);
    }
  }

  lemma ResponseKeepsLogged(p: Provider, session: Option<nat>, cls: int)
    requires Known(p) && Queued(p) && Logged(p)
    ensures Logged(Responded(p, session, cls))
  {
    var queue, p' := Queue(p, cls), Responded(p, session, cls);
    assert QueuedClass(p, cls);
    assert queue != [] ==> queue[0] in queue && Linked(p, queue[0]) && p.requests[queue[0]].cls == cls;
    hide Known, Queued, QueuedClass;
    var entry := p'.log[|p.log|];
    assert p'.log == p.log + [entry];
    if queue != [] {
      var r := queue[0];
      assert Set in p.requests[r].calls + [Set];
      forall i | 0 <= i < |p.log| ensures p.log[i].to != Some(r) { }
    }
    forall r: nat | r < |p'.requests| && Matched(p'.requests[r])
      ensures exists i :: 0 <= i < |p'.log| && p'.log[i].to == Some(r)
    {
      if Matched(p.requests[r]) {
        var i :| 0 <= i < |p.log| && p.log[i].to == Some(r);
        assert p'.log[i].to == Some(r);
      } else {
        assert p'.log[|p.log|].to == Some(r);
      }
    }
  }

  lemma {:induction false} RunKeepsGood(p: Provider, run: seq<Step>, p': Provider)
    requires Good(p) && Runs(p, run, p')
    ensures Good(p') && p.log <= p'.log
    decreases |run|
  {
    if run != [] {
      var next := Take(p, run[0]);
      forall cls ensures QueuedClass(next, cls) { StepKeepsQueued(p, run[0], cls); }
      forall r: nat | r < |next.requests| ensures Sound(next.requests[r], r) { StepKeepsSound(p, run[0], r); }
      StepKeepsLogged(p, run[0]);
      RunKeepsGood(next, run[1..], p');
    }
  }

  lemma InitialIsGood()
    ensures Good(Empty)
  {
  }

  // ----- main results -----

  /** First in, first out, per class: in every reachable state a response goes to the oldest
      request of its class still linked, and is dropped only if there is none. */
  lemma ResponseGoesToOldest(run: seq<Step>, p: Provider, session: Option<nat>, cls: int)
    requires Runs(Empty, run, p)
    ensures var to := Take(p, Response(session, cls)).log[|p.log|].to;
      && (to.Some? ==> Linked(p, to.value) && p.requests[to.value].cls == cls)
      && (forall r: nat :: Linked(p, r) && p.requests[r].cls == cls ==> to.Some? && to.value <= r)
  {
    InitialIsGood();
    RunKeepsGood(Empty, run, p);
    var queue := Queue(p, cls);
    assert QueuedClass(p, cls);
    forall r: nat | r in queue ensures queue != [] && queue[0] <= r { }
    if queue != [] {
      assert queue[0] in queue;
    }
  }

  /** The responses of a run, in order, with their classes. */
  function Responses(run: seq<Step>): seq<(Option<nat>, int)> {
    if run == [] then [] else Answer(run[0]) + Responses(run[1..])
  }

  function Answer(s: Step): seq<(Option<nat>, int)> {
    if s.Response? then [(s.session, s.cls)] else []
  }

  function Recorded(log: seq<Match>): seq<(Option<nat>, int)> {
    seq(|log|, i requires 0 <= i < |log| => (log[i].session, log[i].cls))
  }

  lemma StepIsRecorded(p: Provider, s: Step)
    requires Known(p) && Enabled(p, s)
    ensures Recorded(Take(p, s).log) == Recorded(p.log) + Answer(s)
  {
    hide Known, PostedWith;
  }

  /** The log records every response of a run once, in order. */
  lemma {:induction false} EveryResponseIsRecorded(p: Provider, run: seq<Step>, p': Provider)
    requires Known(p) && Runs(p, run, p')
    ensures Recorded(p'.log) == Recorded(p.log) + Responses(run)
    decreases |run|
  {
    if run == [] {
      assert Recorded(p.log) + [] == Recorded(p.log);
    } else {
      hide Known, Enabled, Take, Recorded;
      StepIsRecorded(p, run[0]);
      EveryResponseIsRecorded(Take(p, run[0]), run[1..], p');
      hide *;
      var first := Answer(run[0]);
      assert Recorded(p.log) + first + Responses(run[1..]) == Recorded(p.log) + (first + Responses(run[1..]));
    }
  }

  predicate DifferentSessions(responses: seq<(Option<nat>, int)>) {
    forall i, j :: 0 <= i < j < |responses| && responses[i].0.Some? ==> responses[i].0 != responses[j].0
  }

  /** Conservation: no two responses reach the same request, a session is delivered only to
      the request it was handed to, and, if the responses of the run bring different
      sessions, none is delivered to two requests. */
  lemma MatchingIsConservative(run: seq<Step>, p: Provider)
    requires Runs(Empty, run, p)
    ensures forall i, j :: 0 <= i < j < |p.log| && p.log[i].to.Some? ==> p.log[i].to != p.log[j].to
    ensures forall r: nat, s: nat :: InPhase(p, r, Over(Delivered(s))) ==> HandedTo(p, r, s)
    ensures DifferentSessions(Responses(run)) ==> DeliveredOnce(p)
  {
    InitialIsGood();
    RunKeepsGood(Empty, run, p);
    forall r: nat, s: nat | InPhase(p, r, Over(Delivered(s))) ensures HandedTo(p, r, s) {
      assert Sound(p.requests[r], r);
      var i :| 0 <= i < |p.log| && p.log[i].to == Some(r);
      assert Confirms(p, p.log[i]);
    }
    EveryResponseIsRecorded(Empty, run, p);
    assert Recorded(p.log) == Responses(run);
    if DifferentSessions(Responses(run)) {
      HandedOnce(p);
    }
  }

  /** No session is delivered to two requests. */
  ghost predicate DeliveredOnce(p: Provider) {
    forall r: nat, t: nat, s: nat :: InPhase(p, r, Over(Delivered(s))) && InPhase(p, t, Over(Delivered(s))) ==> r == t
  }

  lemma HandedOnce(p: Provider)
    requires DifferentSessions(Recorded(p.log))
    requires forall r: nat, s: nat :: InPhase(p, r, Over(Delivered(s))) ==> HandedTo(p, r, s)
    ensures DeliveredOnce(p)
  {
    forall r: nat, t: nat, s: nat | InPhase(p, r, Over(Delivered(s))) && InPhase(p, t, Over(Delivered(s)))
      ensures r == t
    {
      assert HandedTo(p, r, s) && HandedTo(p, t, s);
      var i :| 0 <= i < |p.log| && p.log[i] == Match(Some(s), p.requests[r].cls, Some(r));
      var j :| 0 <= j < |p.log| && p.log[j] == Match(Some(s), p.requests[t].cls, Some(t));
      assert Recorded(p.log)[i].0 == Some(s) == Recorded(p.log)[j].0;
    }
  }

  /** Some response of the request's class handed it this session. */
  predicate HandedTo(p: Provider, r: nat, session: nat)
    requires r < |p.requests|
  {
    exists i :: 0 <= i < |p.log| && p.log[i] == Match(Some(session), p.requests[r].cls, Some(r))
  }

  /** When a session handed to a request is lost: once `get` is over, it returned the session
      exactly if the wait had begun and was not canceled before the session came. A session
      that comes before `co_wait` is not lost; one that comes between a cancellation and the
      request's end, or before a start that then fails, is. */
  lemma DeliveredUnlessCanceledFirst(run: seq<Step>, p: Provider, r: nat, session: nat)
    requires Runs(Empty, run, p)
    requires r < |p.requests| && p.requests[r].phase.Over?
    requires HandedTo(p, r, session)
    ensures p.requests[r].phase.result == Delivered(session) <==> WaitHeld(p.requests[r], r)
  {
    InitialIsGood();
    RunKeepsGood(Empty, run, p);
    assert Sound(p.requests[r], r);
  }

  // ----- the history -----

  /** The steps that concern request `r` itself. */
  predicate Concerns(s: Step, r: nat) {
    (s.StartEnds? || s.StartThrows? || s.CancelWait?) && s.r == r
  }

  /** What the history says of a request. */
  ghost predicate Told(h: seq<Step>, q: Request, r: nat) {
    && (Wait(r) in q.calls <==> StartEnds(r, true) in h)
    && (Cancel(r) in q.calls <==> CancelWait(r) in h)
    && (q.phase == Starting <==> StartEnds(r, true) !in h && StartEnds(r, false) !in h && StartThrows(r) !in h)
    && (StartEnds(r, false) in h ==> q.phase == Over(HostUnreachable))
    && (StartThrows(r) in h ==> q.phase == Over(Aborted))
  }

  /** The classes asked for, in order. */
  function Asked(h: seq<Step>): seq<int> {
    if h == [] then [] else Asked(h[..|h| - 1]) + if h[|h| - 1].Get? then [h[|h| - 1].cls] else []
  }

  ghost predicate AllTold(h: seq<Step>, p: Provider) {
    && (forall r: nat :: r < |p.requests| ==> Told(h, p.requests[r], r))
    && (forall s, r: nat :: s in h && Concerns(s, r) ==> r < |p.requests|)
  }

  predicate ClassesKept(h: seq<Step>, p: Provider) {
    |Asked(h)| == |p.requests| && forall r: nat :: r < |p.requests| ==> p.requests[r].cls == Asked(h)[r]
  }

  /** What a step makes of a request. */
  lemma RequestAfter(p: Provider, s: Step, r: nat)
    requires Known(p) && Enabled(p, s) && r < |p.requests|
    ensures |Take(p, s).requests| == |p.requests| + if s.Get? then 1 else 0
    ensures var q, q' := p.requests[r], Take(p, s).requests[r];
      match s
      case Get(_) => q' == q
      case StartEnds(k, ok) => q' == if k != r then q else if ok then q.(calls := q.calls + [Wait(r)], phase := Awaiting) else q.(phase := Over(HostUnreachable))
      case StartThrows(k) => q' == if k != r then q else q.(phase := Over(Aborted))
      case Response(session, _) => q' == q || q' == q.(second := session, calls := q.calls + [Set])
      case CancelWait(k) => q' == if k != r then q else q.(calls := q.calls + [Cancel(r)])
      case Resume(k, outcome) => q' == if k != r then q else q.(phase := Over(ResultOf(q, outcome)))
  {
    hide PostedWith;
    if s.Response? && Queue(p, s.cls) != [] {
      assert Queue(p, s.cls)[0] in Queue(p, s.cls);
    }
  }

  lemma StepIsTold(h: seq<Step>, p: Provider, s: Step, r: nat)
    requires Known(p) && Enabled(p, s) && r < |p.requests| && Told(h, p.requests[r], r)
    ensures r < |Take(p, s).requests| && Told(h + [s], Take(p, s).requests[r], r)
  {
    RequestAfter(p, s, r);
    hide Known, PostedWith, Take;
    assert forall x :: x in h + [s] <==> x in h || x == s;
    var calls := p.requests[r].calls;
    assert forall call: Call, c: Call :: c in calls + [call] <==> c in calls || c == call;
  }

  lemma NewIsTold(h: seq<Step>, cls: int, r: nat)
    requires forall x :: x in h ==> !Concerns(x, r)
    ensures Told(h, Request(cls, Starting, [], None), r)
  {
    if StartEnds(r, true) in h { assert Concerns(StartEnds(r, true), r); }
    if StartEnds(r, false) in h { assert Concerns(StartEnds(r, false), r); }
    if StartThrows(r) in h { assert Concerns(StartThrows(r), r); }
    if CancelWait(r) in h { assert Concerns(CancelWait(r), r); }
  }

  lemma ConcernedExists(p: Provider, s: Step, r: nat)
    requires Enabled(p, s) && Concerns(s, r)
    ensures r < |p.requests|
  {
  }

  lemma TakeKeepsRequests(p: Provider, s: Step)
    requires Known(p) && Enabled(p, s)
    ensures |Take(p, s).requests| == |p.requests| + if s.Get? then 1 else 0
    ensures forall r: nat :: r < |p.requests| ==> Take(p, s).requests[r].cls == p.requests[r].cls
    ensures s.Get? ==> Take(p, s).requests[|p.requests|] == Request(s.cls, Starting, [], None)
  {
    forall r: nat | r < |p.requests| ensures Take(p, s).requests[r].cls == p.requests[r].cls { RequestAfter(p, s, r); }
  }

  lemma StepKeepsAllTold(h: seq<Step>, p: Provider, s: Step)
    requires Known(p) && AllTold(h, p) && ClassesKept(h, p) && Enabled(p, s)
    ensures AllTold(h + [s], Take(p, s)) && ClassesKept(h + [s], Take(p, s))
  {
    TakeKeepsRequests(p, s);
    forall r: nat | r < |p.requests| ensures Told(h + [s], Take(p, s).requests[r], r) { StepIsTold(h, p, s, r); }
    forall x, r: nat | x in h + [s] && Concerns(x, r) ensures r < |p.requests| {
      if x == s { ConcernedExists(p, s, r); }
    }
    var n := |p.requests|;
    if s.Get? {
      forall x | x in h + [s] ensures !Concerns(x, n) {
      }
      NewIsTold(h + [s], s.cls, n);
    }
    hide Told, PostedWith, Take, Concerns;
    assert (h + [s])[..|h|] == h;
  }

  lemma {:induction false} RunKeepsAllTold(h: seq<Step>, p: Provider, run: seq<Step>, p': Provider)
    requires Known(p) && Runs(p, run, p') && AllTold(h, p) && ClassesKept(h, p)
    ensures AllTold(h + run, p') && ClassesKept(h + run, p')
    decreases |run|
  {
    if run == [] {
      assert h + run == h;
    } else {
      hide AllTold, ClassesKept, Take;
      StepKeepsAllTold(h, p, run[0]);
      assert h + run == (h + [run[0]]) + run[1..];
      RunKeepsAllTold(h + [run[0]], Take(p, run[0]), run[1..], p');
    }
  }

  /** Requests are numbered in the order of the calls of `get`, each with its class. */
  lemma RequestsAreCalls(run: seq<Step>, p: Provider)
    requires Runs(Empty, run, p)
    ensures |p.requests| == |Asked(run)|
    ensures forall r: nat :: r < |p.requests| ==> p.requests[r].cls == Asked(run)[r]
  {
    assert [] + run == run;
    RunKeepsAllTold([], Empty, run, p);
  }

  /** How every `get` ends: unreachable if its start was refused, with the start's exception
      if that threw, and once it waits, canceled if a cancellation came before a response,
      else with the session of the response, or unreachable for a null one. */
  lemma ResultIsDecided(run: seq<Step>, p: Provider, r: nat)
    requires Runs(Empty, run, p) && r < |p.requests| && p.requests[r].phase.Over?
    ensures StartEnds(r, false) in run ==> p.requests[r].phase.result == HostUnreachable
    ensures StartThrows(r) in run ==> p.requests[r].phase.result == Aborted
    ensures StartEnds(r, true) in run ==> p.requests[r].phase.result == Decided(p.requests[r], r)
    ensures StartEnds(r, false) in run || StartThrows(r) in run || StartEnds(r, true) in run
  {
    InitialIsGood();
    RunKeepsGood(Empty, run, p);
    assert [] + run == run;
    RunKeepsAllTold([], Empty, run, p);
    assert Told(run, p.requests[r], r) && Sound(p.requests[r], r);
  }

  /** The request was handed the session and ended otherwise. */
  predicate Lost(p: Provider, r: nat, session: nat, result: Result) {
    InPhase(p, r, Over(result)) && HandedTo(p, r, session) && result != Delivered(session)
  }

  lemma StepThenRun(p: Provider, s: Step, rest: seq<Step>, p': Provider)
    requires Known(p) && Enabled(p, s) && Runs(Take(p, s), rest, p')
    ensures Runs(p, [s] + rest, p')
  {
    assert ([s] + rest)[1..] == rest;
  }

  /** A provider with one request, as long as no response came. */
  function OnlyRequest(cls: int, phase: Phase, calls: seq<Call>): (p: Provider)
    ensures Known(p)
  {
    Provider([Request(cls, phase, calls, None)], map[cls := [0]], [])
  }

  /** And when a response came for it. */
  function OnlyMatched(cls: int, phase: Phase, calls: seq<Call>, session: nat): (p: Provider)
    ensures Known(p)
    ensures phase.Over? && phase.result != Delivered(session) ==> Lost(p, 0, session, phase.result)
  {
    var p := Provider([Request(cls, phase, calls, Some(session))], map[cls := []], [Match(Some(session), cls, Some(0))]);
    assert p.log[0] == Match(Some(session), cls, Some(0));
    p
  }

  lemma FirstSteps(cls: int)
    ensures Take(Empty, Get(cls)) == OnlyRequest(cls, Starting, [])
    ensures Take(OnlyRequest(cls, Starting, []), StartEnds(0, true)) == OnlyRequest(cls, Awaiting, [Wait(0)])
    ensures Take(OnlyRequest(cls, Awaiting, [Wait(0)]), CancelWait(0)) == OnlyRequest(cls, Awaiting, [Wait(0), Cancel(0)])
  {
    assert Queue(Empty, cls) + [0] == [0] && [] + [Wait(0)] == [Wait(0)];
    assert [Wait(0)] + [Cancel(0)] == [Wait(0), Cancel(0)];
  }

  lemma ResponseToOnly(cls: int, phase: Phase, calls: seq<Call>, session: nat)
    ensures Take(OnlyRequest(cls, phase, calls), Response(Some(session), cls)) == OnlyMatched(cls, phase, calls + [Set], session)
  {
  }

  lemma OnlyLeaves(cls: int, phase: Phase, calls: seq<Call>, session: nat, result: Result)
    ensures Left(OnlyMatched(cls, phase, calls, session), 0, result) == OnlyMatched(cls, Over(result), calls, session)
  {
  }

  function FailedRun(cls: int, session: nat): seq<Step> {
    [Get(cls)] + ([Response(Some(session), cls)] + ([StartEnds(0, false)] + []))
  }

  function CanceledRun(cls: int, session: nat): seq<Step> {
    [Get(cls)] + ([StartEnds(0, true)] + ([CancelWait(0)] + ([Response(Some(session), cls)] + ([Resume(0, Canceled)] + []))))
  }

  /** Both ways of losing a session happen: a start that fails after the session came, and a
      wait that is canceled before it comes but not yet over. */
  lemma SessionBeforeFailedStartIsLost(cls: int, session: nat)
    ensures exists p :: Runs(Empty, FailedRun(cls, session), p) && Lost(p, 0, session, HostUnreachable)
  {
    FirstSteps(cls);
    ResponseToOnly(cls, Starting, [], session);
    OnlyLeaves(cls, Starting, [] + [Set], session, HostUnreachable);
    var p := OnlyMatched(cls, Over(HostUnreachable), [] + [Set], session);
    StepThenRun(OnlyMatched(cls, Starting, [] + [Set], session), StartEnds(0, false), [], p);
    hide Take, OnlyMatched, OnlyRequest, Runs;
    StepThenRun(OnlyRequest(cls, Starting, []), Response(Some(session), cls), [StartEnds(0, false)] + [], p);
    StepThenRun(Empty, Get(cls), [Response(Some(session), cls)] + ([StartEnds(0, false)] + []), p);
  }

  lemma SessionAfterCancellationIsLost(cls: int, session: nat)
    ensures exists p :: Runs(Empty, CanceledRun(cls, session), p) && Lost(p, 0, session, Aborted)
  {
    FirstSteps(cls);
    var waited := [Wait(0), Cancel(0)];
    ResponseToOnly(cls, Awaiting, waited, session);
    CanceledIsPosted();
    OnlyLeaves(cls, Awaiting, waited + [Set], session, Aborted);
    var p := OnlyMatched(cls, Over(Aborted), waited + [Set], session);
    var r1 := [Resume(0, Canceled)] + [];
    StepThenRun(OnlyMatched(cls, Awaiting, waited + [Set], session), Resume(0, Canceled), [], p);
    hide Take, OnlyMatched, Runs;
    var r2 := [Response(Some(session), cls)] + r1;
    StepThenRun(OnlyRequest(cls, Awaiting, waited), Response(Some(session), cls), r1, p);
    StepThenRun(OnlyRequest(cls, Awaiting, [Wait(0)]), CancelWait(0), r2, p);
    StepThenRun(OnlyRequest(cls, Starting, []), StartEnds(0, true), [CancelWait(0)] + r2, p);
    StepThenRun(Empty, Get(cls), [StartEnds(0, true)] + ([CancelWait(0)] + r2), p);
  }

  lemma CanceledIsPosted()
    ensures Posted(0, Canceled) in After([Wait(0), Cancel(0)] + [Set]).posted
  {
    var h: seq<Call> := [Wait(0), Cancel(0)] + [Set];
    assert h[0] == Wait(0) && h[1] == Cancel(0) && Set !in h[..1];
    LatchOverAllInterleavings(h);
  }
}
