/** Sockets and the sessions that own them: starting, closing, and moving a live socket to a
    new session. A call on a socket is bound to it when the session's code evaluates
    `socket()`, and begins later, so steps of other strands may come between. */
module SocketHandover {
  import opened Wrappers

  datatype SocketState = INITIAL | STARTED | CLOSED

  /** One socket: its state, how often the virtual `start()` and `close()` were called, and
      the session that called `close()`. */
  datatype Sock = Sock(state: SocketState, starts: nat, closes: nat, closedBy: Option<nat>)

  /** Where a session's `run()` is: before it, in `prepare()`, with its start call waiting,
      with the start begun, in `work()`, or over. */
  datatype Life = Idle | Preparing | Starting | Handshaking | Working | Ended(ok: bool)

  /** One session: the socket it owns, `m_socketAutoClose`, its `run()`, and the closures
      on its strand that `closeSocket` and `co_start` posted. */
  datatype Sess = Sess(socket: nat, autoClose: bool, life: Life, posted: nat, starts: nat)

  /** A call of `co_start` or `co_close`, bound to a socket by a session, not begun. */
  datatype Call = StartCall(owner: nat, socket: nat) | CloseCall(owner: nat, socket: nat)

  datatype Fleet = Fleet(sockets: seq<Sock>, sessions: seq<Sess>, calls: seq<Call>)

  datatype Step =
    | Connect                                 // a new session on a new socket
    | Start(s: nat)                           // `co_start` posts its closure
    | RunBegins(s: nat)                       // which runs, and throws unless it is the first
    | PrepareEnds(s: nat, ok: bool)
    | StartEnds(s: nat, ok: bool)             // the timed start returns or throws
    | WorkEnds(s: nat, ok: bool)
    | SetAutoClose(s: nat, on: bool)
    | CloseSocket(s: nat)
    | RunClose(s: nat)                        // a closure of `closeSocket` evaluates `socket()`
    | Begin(i: nat)                           // a bound call begins
    | Drop(i: nat)                            // or is canceled before that
    | Mutate(s: nat)

  const NewSocket: Sock := Sock(INITIAL, 0, 0, None)

  function NewSession(socket: nat): Sess { Sess(socket, true, Idle, 0, 0) }

  /** `Socket::co_start`, up to the end of its first effect. */
  function CoStarted(k: Sock): Sock {
    if k.state != INITIAL then k else k.(state := STARTED, starts := k.starts + 1)
  }

  /** `Socket::co_close`. */
  function CoClosed(k: Sock, caller: nat): Sock {
    if k.state != STARTED then k else k.(state := CLOSED, closes := k.closes + 1, closedBy := Some(caller))
  }

  /** The end of `run()`: its guard posts a close if auto-close is on. */
  function RunEnded(s: Sess, ok: bool): Sess {
    s.(life := Ended(ok), posted := if s.autoClose then s.posted + 1 else s.posted)
  }

  /** A closure of `co_start`: `run()` begins, or throws if it was begun before. */
  function RunBegun(s: Sess): Sess
    requires s.starts > 0
  {
    s.(starts := s.starts - 1, life := if s.life == Idle then Preparing else s.life)
  }

  predicate Enabled(f: Fleet, step: Step) {
    match step
    case Connect => true
    case Start(s) => s < |f.sessions|
    case RunBegins(s) => s < |f.sessions| && f.sessions[s].starts > 0
    case PrepareEnds(s, _) => s < |f.sessions| && f.sessions[s].life == Preparing
    case StartEnds(s, ok) =>
      s < |f.sessions| && (f.sessions[s].life == Handshaking || (!ok && f.sessions[s].life == Starting))
    case WorkEnds(s, _) => s < |f.sessions| && f.sessions[s].life == Working
    case SetAutoClose(s, _) => s < |f.sessions|
    case CloseSocket(s) => s < |f.sessions|
    case RunClose(s) => s < |f.sessions| && f.sessions[s].posted > 0
    case Begin(i) => i < |f.calls| && f.calls[i].owner < |f.sessions| && f.calls[i].socket < |f.sockets|
    case Drop(i) => i < |f.calls|
    case Mutate(s) => s < |f.sessions|
  }

  function Bound(f: Fleet, call: Call): Fleet { f.(calls := f.calls + [call]) }

  function Removed(calls: seq<Call>, i: nat): seq<Call>
    requires i < |calls|
  {
    calls[..i] + calls[i + 1..]
  }

  function Update(f: Fleet, s: nat, v: Sess): Fleet
    requires s < |f.sessions|
  {
    f.(sessions := f.sessions[s := v])
  }

  /** The call begins, on the socket it was bound to. */
  function Begun(f: Fleet, i: nat): Fleet
    requires i < |f.calls| && f.calls[i].owner < |f.sessions| && f.calls[i].socket < |f.sockets|
  {
    var c, rest := f.calls[i], f.(calls := Removed(f.calls, i));
    var k := f.sockets[c.socket];
    match c
    case StartCall(owner, _) =>
      var v := f.sessions[owner];
      var v' := if v.life == Starting then v.(life := Handshaking) else v;
      Update(rest, owner, v').(sockets := f.sockets[c.socket := CoStarted(k)])
    case CloseCall(owner, _) =>
      rest.(sockets := f.sockets[c.socket := CoClosed(k, owner)])
  }

  /** `mutate`: the new session takes the socket, the old one gets a new socket. */
  function Mutated(f: Fleet, s: nat): Fleet
    requires s < |f.sessions|
  {
    var v := f.sessions[s];
    f.(sockets := f.sockets + [NewSocket],
       sessions := f.sessions[s := v.(socket := |f.sockets|)] + [NewSession(v.socket)])
  }

  function Next(f: Fleet, step: Step): Fleet
    requires Enabled(f, step)
  {
    match step
    case Connect => f.(sockets := f.sockets + [NewSocket], sessions := f.sessions + [NewSession(|f.sockets|)])
    case Start(s) => Update(f, s, f.sessions[s].(starts := f.sessions[s].starts + 1))
    case RunBegins(s) => Update(f, s, RunBegun(f.sessions[s]))
    case PrepareEnds(s, ok) =>
      if !ok then Update(f, s, RunEnded(f.sessions[s], false))
      else Bound(Update(f, s, f.sessions[s].(life := Starting)), StartCall(s, f.sessions[s].socket))
    case StartEnds(s, ok) =>
      Update(f, s, if ok then f.sessions[s].(life := Working) else RunEnded(f.sessions[s], false))
    case WorkEnds(s, ok) => Update(f, s, RunEnded(f.sessions[s], ok))
    case SetAutoClose(s, on) => Update(f, s, f.sessions[s].(autoClose := on))
    case CloseSocket(s) => Update(f, s, f.sessions[s].(posted := f.sessions[s].posted + 1))
    case RunClose(s) =>
      Bound(Update(f, s, f.sessions[s].(posted := f.sessions[s].posted - 1)), CloseCall(s, f.sessions[s].socket))
    case Begin(i) => Begun(f, i)
    case Drop(i) => f.(calls := Removed(f.calls, i))
    case Mutate(s) => Mutated(f, s)
  }

  /** A run: enabled steps in any order. */
  predicate Runs(f: Fleet, run: seq<Step>, f': Fleet)
    decreases |run|
  {
    if run == [] then f == f' else Enabled(f, run[0]) && Runs(Next(f, run[0]), run[1..], f')
  }

  const Empty: Fleet := Fleet([], [], [])

  // ----- the objects -----

  class Socket {
    var state: SocketState
    ghost const id: nat
    ghost var starts: nat
    ghost var closes: nat
    ghost var closedBy: Option<nat>

    ghost function View(): Sock
      reads this
    {
      Sock(state, starts, closes, closedBy)
    }

    constructor (ghost id: nat)
      ensures View() == NewSocket && this.id == id
    {
      state, starts, closes, closedBy := INITIAL, 0, 0, None;
      this.id := id;
    }

    /** `called`: the virtual `start()` is called. */
    method CoStart() returns (called: bool)
      modifies this
      ensures View() == CoStarted(old(View()))
      ensures called <==> starts == old(starts) + 1
    {
      if state != INITIAL {
        return false;
      }
      state := STARTED;
      starts := starts + 1;
      called := true;
    }

    /** `called`: the virtual `close()` is called. */
    method CoClose(ghost caller: nat) returns (called: bool)
      modifies this
      ensures View() == CoClosed(old(View()), caller)
      ensures called <==> closes == old(closes) + 1
    {
      if state != STARTED {
        return false;
      }
      state := CLOSED;
      closes, closedBy := closes + 1, Some(caller);
      called := true;
    }
  }

  class Session {
    var socket: Socket
    var socketAutoClose: bool
    var life: Life
    var posted: nat
    var starts: nat
    var other: Session?

    ghost function View(): Sess
      reads this
    {
      Sess(socket.id, socketAutoClose, life, posted, starts)
    }

    constructor (s: Socket)
      ensures socket == s && other == null && View() == NewSession(s.id)
    {
      socket, socketAutoClose, life, posted, starts, other := s, true, Idle, 0, 0, null;
    }

    method SetSocketAutoClose(on: bool)
      modifies this`socketAutoClose
      ensures View() == old(View()).(autoClose := on)
    {
      socketAutoClose := on;
    }

    /** Takes the socket out and puts a new one in its place. */
    method ReleaseSocket(ghost nextId: nat) returns (released: Socket)
      modifies this`socket
      ensures released == old(socket)
      ensures fresh(socket) && socket.View() == NewSocket && View() == old(View()).(socket := nextId)
    {
      released := socket;
      socket := new Socket(nextId);
    }

    /** The new session is on this session's socket, which itself does not change. */
    method MutateTo(ghost nextId: nat) returns (result: Session)
      modifies this`socket
      ensures fresh(result) && result.socket == old(socket) && result.View() == NewSession(old(View()).socket)
      ensures fresh(socket) && socket.View() == NewSocket && View() == old(View()).(socket := nextId)
    {
      var released := ReleaseSocket(nextId);
      result := new Session(released);
    }

    method CoStart()
      modifies this`starts
      ensures View() == old(View()).(starts := old(starts) + 1)
    {
      starts := starts + 1;
    }

    /** The closure of `co_start`: a second one throws and changes nothing else. */
    method ExecuteStart() returns (threw: bool)
      requires starts > 0
      modifies this`starts, this`life
      ensures View() == RunBegun(old(View())) && (threw <==> old(life) != Idle)
    {
      starts := starts - 1;
      threw := life != Idle;
      if !threw {
        life := Preparing;
      }
    }

    /** Posts a closure that will evaluate `socket()` when it runs. */
    method Close()
      modifies this`posted
      ensures View() == old(View()).(posted := old(posted) + 1)
    {
      posted := posted + 1;
    }

    /** That closure: `bound` is the socket this session owns now. */
    method ExecuteClose() returns (bound: Socket)
      requires posted > 0
      modifies this`posted
      ensures bound == socket && View() == old(View()).(posted := old(posted) - 1)
    {
      posted := posted - 1;
      bound := socket;
    }

    method Leave(ok: bool)
      modifies this`life, this`posted
      ensures View() == RunEnded(old(View()), ok)
    {
      life := Ended(ok);
      if socketAutoClose {
        Close();
      }
    }

    /** `run()` once `prepare()` is over: `bound` is the socket to start, if any. */
    method AfterPrepare(ok: bool) returns (bound: Socket?)
      requires life == Preparing
      modifies this`life, this`posted
      ensures View() == if ok then old(View()).(life := Starting) else RunEnded(old(View()), false)
      ensures bound == if ok then socket else null
    {
      if !ok {
        Leave(false);
        return null;
      }
      life := Starting;
      bound := socket;
    }

    method AfterStart(ok: bool)
      requires life == Handshaking || (!ok && life == Starting)
      modifies this`life, this`posted
      ensures View() == if ok then old(View()).(life := Working) else RunEnded(old(View()), false)
    {
      if ok {
        life := Working;
      } else {
        Leave(false);
      }
    }
  }

  // ----- what every step keeps -----

  /** Neither closed nor started twice, and closed only after it was started. */
  predicate Orderly(k: Sock) {
    match k.state
    case INITIAL => k.starts == 0 && k.closes == 0 && k.closedBy == None
    case STARTED => k.starts == 1 && k.closes == 0 && k.closedBy == None
    case CLOSED => k.starts == 1 && k.closes == 1 && k.closedBy.Some?
  }

  predicate AllOrderly(sockets: seq<Sock>) {
    forall k: nat :: k < |sockets| ==> Orderly(sockets[k])
  }

  predicate NoneShared(sessions: seq<Sess>) {
    forall s: nat, t: nat :: s < t < |sessions| ==> sessions[s].socket != sessions[t].socket
  }

  predicate KnownTo(f: Fleet, c: Call) { c.owner < |f.sessions| && c.socket < |f.sockets| }

  predicate Known(f: Fleet) {
    && (forall s: nat :: s < |f.sessions| ==> f.sessions[s].socket < |f.sockets|)
    && (forall c :: c in f.calls ==> KnownTo(f, c))
  }

  predicate Good(f: Fleet) {
    Known(f) && NoneShared(f.sessions) && AllOrderly(f.sockets)
  }

  lemma StepKeepsKnown(f: Fleet, step: Step)
    requires Known(f) && Enabled(f, step)
    ensures Known(Next(f, step))
  {
    var f' := Next(f, step);
    assert |f.sessions| <= |f'.sessions| && |f.sockets| <= |f'.sockets|;
    forall c | c in f'.calls
      ensures KnownTo(f', c)
    {
      assert c in f.calls || (step.PrepareEnds? && c.owner == step.s) || (step.RunClose? && c.owner == step.s);
    }
  }

  lemma StepKeepsNoneShared(f: Fleet, step: Step)
    requires Known(f) && NoneShared(f.sessions) && Enabled(f, step)
    ensures NoneShared(Next(f, step).sessions)
  {
  }

  lemma StepKeepsOrderly(f: Fleet, step: Step)
    requires AllOrderly(f.sockets) && Enabled(f, step)
    ensures AllOrderly(Next(f, step).sockets)
  {
  }

  lemma StepKeepsGood(f: Fleet, step: Step)
    requires Good(f) && Enabled(f, step)
    ensures Good(Next(f, step))
  {
    hide *;
    GoodParts(f);
    StepKeepsKnown(f, step);
    StepKeepsNoneShared(f, step);
    StepKeepsOrderly(f, step);
    GoodParts(Next(f, step));
  }

  lemma GoodParts(f: Fleet)
    ensures Good(f) <==> Known(f) && NoneShared(f.sessions) && AllOrderly(f.sockets)
  {
  }

  lemma {:induction false} RunKeepsGood(f: Fleet, run: seq<Step>, f': Fleet)
    requires Good(f) && Runs(f, run, f')
    ensures Good(f')
    decreases |run|
  {
    if run != [] {
      StepKeepsGood(f, run[0]);
      RunKeepsGood(Next(f, run[0]), run[1..], f');
    }
  }

  /** In every reachable state no two sessions own the same socket, and every socket was
      started at most once, closed at most once, and closed only after it was started. */
  lemma SocketsOverAllRuns(run: seq<Step>, f: Fleet)
    requires Runs(Empty, run, f)
    ensures forall s: nat, t: nat :: s < t < |f.sessions| ==> f.sessions[s].socket != f.sessions[t].socket
    ensures forall k: nat :: k < |f.sockets| ==> f.sockets[k].closes <= f.sockets[k].starts <= 1
    ensures forall k: nat :: k < |f.sockets| ==> (f.sockets[k].starts == 1 <==> f.sockets[k].state != INITIAL)
  {
    RunKeepsGood(Empty, run, f);
  }

  /** `run()` of a session is over for good: a later start throws. */
  lemma {:induction false} EndedIsForever(f: Fleet, run: seq<Step>, f': Fleet, s: nat)
    requires Runs(f, run, f') && s < |f.sessions| && f.sessions[s].life.Ended?
    ensures s < |f'.sessions| && f'.sessions[s].life == f.sessions[s].life
    decreases |run|
  {
    if run != [] {
      EndedStays(f, run[0], s);
      EndedIsForever(Next(f, run[0]), run[1..], f', s);
    }
  }

  lemma EndedStays(f: Fleet, step: Step, s: nat)
    requires Enabled(f, step) && s < |f.sessions| && f.sessions[s].life.Ended?
    ensures s < |Next(f, step).sessions| && Next(f, step).sessions[s].life == f.sessions[s].life
  {
  }

  /** Nothing was started, and nothing is going to be. */
  predicate NothingStarted(f: Fleet) {
    && (forall k: nat :: k < |f.sockets| ==> f.sockets[k].state == INITIAL)
    && (forall c :: c in f.calls ==> c.CloseCall?)
  }

  predicate Prepares(step: Step) {
    step.PrepareEnds? && step.ok
  }

  /** A socket is started only after a session was prepared for it. */
  lemma {:induction false} OnlyPreparedIsStarted(f: Fleet, run: seq<Step>, f': Fleet)
    requires Runs(f, run, f') && NothingStarted(f) && forall step :: step in run ==> !Prepares(step)
    ensures NothingStarted(f')
    decreases |run|
  {
    if run != [] {
      assert run[0] in run && forall step :: step in run[1..] ==> step in run;
      NothingStartedStays(f, run[0]);
      OnlyPreparedIsStarted(Next(f, run[0]), run[1..], f');
    }
  }

  lemma NothingStartedStays(f: Fleet, step: Step)
    requires NothingStarted(f) && Enabled(f, step) && !Prepares(step)
    ensures NothingStarted(Next(f, step))
  {
    var f' := Next(f, step);
    if step.Begin? {
      assert f.calls[step.i] in f.calls;
    }
    forall c | c in f'.calls ensures c.CloseCall? {
      assert c in f.calls || (step.RunClose? && c.CloseCall?);
    }
  }

  // ----- closures and calls are used up -----

  function Starts(run: seq<Step>, s: nat): nat {
    if run == [] then 0 else (if run[0] == Start(s) then 1 else 0) + Starts(run[1..], s)
  }

  function StartsRun(run: seq<Step>, s: nat): nat {
    if run == [] then 0 else (if run[0] == RunBegins(s) then 1 else 0) + StartsRun(run[1..], s)
  }

  function CloseRequests(run: seq<Step>, s: nat): nat {
    if run == [] then 0 else (if run[0] == CloseSocket(s) then 1 else 0) + CloseRequests(run[1..], s)
  }

  function ClosesRun(run: seq<Step>, s: nat): nat {
    if run == [] then 0 else (if run[0] == RunClose(s) then 1 else 0) + ClosesRun(run[1..], s)
  }

  /** Calls bound by the run. */
  function CallsBound(run: seq<Step>): nat {
    if run == [] then 0 else (if run[0].RunClose? || Prepares(run[0]) then 1 else 0) + CallsBound(run[1..])
  }

  /** Calls begun or dropped in it. */
  function CallsTaken(run: seq<Step>): nat {
    if run == [] then 0 else (if run[0].Begin? || run[0].Drop? then 1 else 0) + CallsTaken(run[1..])
  }

  /** Every start posted runs once, every close requested runs once, the exit guard adds one
      close at most, and every call bound begins or is dropped once. */
  lemma {:induction false} ClosuresAreUsedUp(f: Fleet, run: seq<Step>, f': Fleet, s: nat)
    requires Runs(f, run, f') && s < |f.sessions|
    ensures s < |f'.sessions|
    ensures f'.sessions[s].starts + StartsRun(run, s) == f.sessions[s].starts + Starts(run, s)
    ensures var after, before := f'.sessions[s].posted + ClosesRun(run, s), f.sessions[s].posted + CloseRequests(run, s);
      before <= after <= before + if f'.sessions[s].life.Ended? && !f.sessions[s].life.Ended? then 1 else 0
    ensures |f'.calls| + CallsTaken(run) == |f.calls| + CallsBound(run)
    decreases |run|
  {
    if run != [] {
      var next := Next(f, run[0]);
      StepUsesUp(f, run[0], s);
      if next.sessions[s].life.Ended? {
        EndedIsForever(next, run[1..], f', s);
      }
      ClosuresAreUsedUp(next, run[1..], f', s);
    }
  }

  lemma StepUsesUp(f: Fleet, step: Step, s: nat)
    requires Enabled(f, step) && s < |f.sessions|
    ensures var f' := Next(f, step);
      && s < |f'.sessions|
      && f'.sessions[s].starts + (if step == RunBegins(s) then 1 else 0) == f.sessions[s].starts + (if step == Start(s) then 1 else 0)
      && f'.sessions[s].posted + (if step == RunClose(s) then 1 else 0)
         >= f.sessions[s].posted + (if step == CloseSocket(s) then 1 else 0)
      && f'.sessions[s].posted + (if step == RunClose(s) then 1 else 0)
         <= f.sessions[s].posted + (if step == CloseSocket(s) then 1 else 0) + (if f'.sessions[s].life.Ended? && !f.sessions[s].life.Ended? then 1 else 0)
      && (f.sessions[s].life.Ended? ==> f'.sessions[s].life.Ended?)
      && |f'.calls| + (if step.Begin? || step.Drop? then 1 else 0) == |f.calls| + (if step.RunClose? || Prepares(step) then 1 else 0)
  {
  }

  // ----- the old session and the moved socket -----

  /** Moving a socket changes nothing else: no other session, no socket, no call on its way,
      and of the old session only what it owns. The new one is as if it had connected. */
  lemma MutateMovesTheSocket(f: Fleet, s: nat)
    requires s < |f.sessions|
    ensures var m := Mutated(f, s);
      && |m.sessions| == |f.sessions| + 1 && |m.sockets| == |f.sockets| + 1 && m.calls == f.calls
      && m.sessions[s].socket == |f.sockets| && m.sessions[|f.sessions|] == NewSession(f.sessions[s].socket)
      && m.sessions[s].(socket := f.sessions[s].socket) == f.sessions[s]
      && (forall t: nat :: t < |f.sessions| && t != s ==> m.sessions[t] == f.sessions[t])
      && m.sockets[..|f.sockets|] == f.sockets && m.sockets[|f.sockets|] == NewSocket
  {
  }

  /** Session `s` neither owns socket `k` nor closed it, and has no close of it waiting. */
  predicate CutOff(f: Fleet, s: nat, k: nat) {
    && s < |f.sessions| && k < |f.sockets|
    && f.sessions[s].socket != k
    && f.sockets[k].closedBy != Some(s)
    && CloseCall(s, k) !in f.calls
  }

  lemma StepKeepsCutOff(f: Fleet, step: Step, s: nat, k: nat)
    requires CutOff(f, s, k) && Enabled(f, step)
    ensures CutOff(Next(f, step), s, k)
  {
  }

  lemma {:induction false} RunKeepsCutOff(f: Fleet, run: seq<Step>, f': Fleet, s: nat, k: nat)
    requires CutOff(f, s, k) && Runs(f, run, f')
    ensures CutOff(f', s, k)
    decreases |run|
  {
    if run != [] {
      StepKeepsCutOff(f, run[0], s, k);
      RunKeepsCutOff(Next(f, run[0]), run[1..], f', s, k);
    }
  }

  predicate ClosesLater(f: Fleet, s: nat, k: nat, run: seq<Step>, f': Fleet) {
    Runs(f, run, f') && k < |f'.sockets| && f'.sockets[k].closedBy == Some(s)
  }

  /** After a hand-over of a started socket some run has the old session close it exactly if
      a close of the old session had been bound to it before. A close whose closure runs on
      the old session after the hand-over never reaches the moved socket. */
  lemma OldSessionClosesIffBoundBefore(f: Fleet, s: nat)
    requires Good(f) && s < |f.sessions| && f.sockets[f.sessions[s].socket].state == STARTED
    ensures var k := f.sessions[s].socket;
      (exists run, f' :: ClosesLater(Mutated(f, s), s, k, run, f')) <==> CloseCall(s, k) in f.calls
  {
    var k, m := f.sessions[s].socket, Mutated(f, s);
    if CloseCall(s, k) in f.calls {
      var i: nat :| i < |f.calls| && f.calls[i] == CloseCall(s, k);
      var run := [Begin(i)];
      assert Enabled(m, Begin(i)) && run[1..] == [];
      assert Runs(Next(m, Begin(i)), run[1..], Next(m, Begin(i)));
      assert ClosesLater(m, s, k, run, Next(m, Begin(i)));
    } else {
      assert CutOff(m, s, k);
      forall run, f' | Runs(m, run, f')
        ensures !ClosesLater(m, s, k, run, f')
      {
        RunKeepsCutOff(m, run, f', s, k);
      }
    }
  }

  lemma StepThenRun(f: Fleet, step: Step, rest: seq<Step>, f': Fleet)
    requires Enabled(f, step) && Runs(Next(f, step), rest, f')
    ensures Runs(f, [step] + rest, f')
  {
    assert ([step] + rest)[1..] == rest;
  }

  function StaleCloseRun(): seq<Step> {
    [Connect] + ([Start(0)] + ([RunBegins(0)] + ([PrepareEnds(0, true)] + ([Begin(0)] + StaleCloseEnd()))))
  }

  function StaleCloseEnd(): seq<Step> {
    [CloseSocket(0)] + ([RunClose(0)] + ([Mutate(0)] + ([Begin(0)] + [])))
  }

  /** Session 0 moved its socket to session 1 and closed it all the same. */
  predicate ClosedAfterMove(f: Fleet) {
    && |f.sessions| == 2 && |f.sockets| == 2
    && f.sessions[1].socket == 0 && f.sessions[0].socket == 1 && f.sockets[0].closedBy == Some(0)
  }

  /** It happens: a session is started and asked to close its socket, the closure that binds
      the close runs, the session is mutated, and the close begins. */
  lemma OldSessionCanCloseMovedSocket()
    ensures exists f :: Runs(Empty, StaleCloseRun(), f) && ClosedAfterMove(f)
  {
    var f := StaleClose();
    var s := [Begin(0)] + StaleCloseEnd();
    var f1 := Next(Empty, Connect);
    var f2 := Next(f1, Start(0));
    var f3 := Next(f2, RunBegins(0));
    assert Next(f3, PrepareEnds(0, true)) == HalfStarted();
    StepThenRun(f3, PrepareEnds(0, true), s, f);
    StepThenRun(f2, RunBegins(0), [PrepareEnds(0, true)] + s, f);
    StepThenRun(f1, Start(0), [RunBegins(0)] + ([PrepareEnds(0, true)] + s), f);
    StepThenRun(Empty, Connect, [Start(0)] + ([RunBegins(0)] + ([PrepareEnds(0, true)] + s)), f);
  }

  /** One session whose start call is bound. */
  function HalfStarted(): Fleet {
    Fleet([NewSocket], [Sess(0, true, Starting, 0, 0)], [StartCall(0, 0)])
  }

  lemma StaleClose() returns (f: Fleet)
    ensures Runs(HalfStarted(), [Begin(0)] + StaleCloseEnd(), f) && ClosedAfterMove(f)
  {
    var f1 := Next(HalfStarted(), Begin(0));
    assert f1.calls == [];
    var f2 := Next(f1, CloseSocket(0));
    var f3 := Next(f2, RunClose(0));
    assert f3.calls == [CloseCall(0, 0)];
    var f4 := Next(f3, Mutate(0));
    f := Next(f4, Begin(0));
    assert Runs(f, [], f) && ClosedAfterMove(f);
    hide Next, Enabled, Runs, ClosedAfterMove, HalfStarted;
    StepThenRun(f4, Begin(0), [], f);
    StepThenRun(f3, Mutate(0), [Begin(0)] + [], f);
    StepThenRun(f2, RunClose(0), [Mutate(0)] + ([Begin(0)] + []), f);
    StepThenRun(f1, CloseSocket(0), [RunClose(0)] + ([Mutate(0)] + ([Begin(0)] + [])), f);
    StepThenRun(HalfStarted(), Begin(0), StaleCloseEnd(), f);
  }
}
