/** Two coupled relays. Each reads from its own socket and writes to the other's, until one
    fails or is stopped; then they agree, by messages between their strands, on who closes
    the sockets. */
module ProxyDataSession {
  import opened Wrappers
  import opened CoroutineTask

  /** `m_state`: the operation a relay was last in. */
  datatype Place = READ | WRITE

  /** The session's `run()`: not entered, starting the socket, in the relay loop suspended in
      a read or in a write, out of the loop, or over without having reached it. */
  datatype Phase = Idle | Connecting | Reading | Writing(chunk: seq<bv8>) | Exited | Unserved

  /** Closures on a side's strand: the other side's notice that it is done, and a stop. */
  datatype Message = OtherDone(last: Place) | StopSelf

  /** One session: its task state, loop, `m_state`, `m_otherDone`, strand queue, bytes read
      and bytes written to the other's socket, whether its exit guard closed the sockets, and
      the times its loop ended and the other's notice was run. */
  datatype Side = Side(task: State, phase: Phase, last: Place, otherDone: bool, queue: seq<Message>,
                       input: seq<bv8>, output: seq<bv8>, closedBoth: bool,
                       exitedAt: Option<nat>, noticedAt: Option<nat>)

  /** Both sessions, the one that takes the step first, and the time. */
  datatype Pair = Pair(self: Side, other: Side, now: nat)

  datatype Step =
    | RunStarts                                          // the task starts: `run()` begins
    | ConnectFails(canceled: bool)                       // its socket does not start
    | Enter                                              // or does, and `work` begins
    | ReadCompletes(chunk: seq<bv8>)
    | ReadFails(canceled: bool)
    | WriteCompletes
    | WriteFails(written: nat, canceled: bool)
    | RunMessage                                            // the head of the strand's queue
    | RequestStop                                        // `stop()` from outside

  const NewSide: Side := Side(INITIAL, Idle, READ, false, [], [], [], false, None, None)

  predicate CanTake(s: Side, step: Step) {
    match step
    case RunStarts => s.phase.Idle? && s.task == INITIAL
    case ConnectFails(_) => s.phase.Connecting?
    case Enter => s.phase.Connecting?
    case ReadCompletes(_) => s.phase.Reading?
    case ReadFails(_) => s.phase.Reading?
    case WriteCompletes => s.phase.Writing?
    case WriteFails(written, _) => s.phase.Writing? && written <= |s.phase.chunk|
    case RunMessage => s.queue != []
    case RequestStop => true
  }

  function Posted(s: Side, m: Message): Side {
    s.(queue := s.queue + [m])
  }

  /** Leaving `work`: its guard closes both sockets if the other's notice was run, and sends
      a notice otherwise; the task stops itself if canceled, and ends done unless stopped. */
  function Left(p: Pair, canceled: bool): Pair {
    var s := p.self;
    var self := s.(phase := Exited, closedBoth := s.otherDone, exitedAt := Some(p.now),
                   task := AfterRun(s.task));
    Pair(if canceled then Posted(self, StopSelf) else self,
         if s.otherDone then p.other else Posted(p.other, OtherDone(s.last)), p.now)
  }

  /** `run()` ends before `work`: no guard of the relay, only the task's own. */
  function Unreached(p: Pair, canceled: bool): Pair {
    var self := p.self.(phase := Unserved, task := AfterRun(p.self.task));
    p.(self := if canceled then Posted(self, StopSelf) else self)
  }

  /** The loop's condition: on to the next read, or out. */
  function Looped(p: Pair): Pair {
    if p.self.task == RUNNING && !p.self.otherDone
    then p.(self := p.self.(phase := Reading, last := READ))
    else Left(p, false)
  }

  /** One closure of the strand. A stop stops the other session too. */
  function Executed(p: Pair): Pair
    requires p.self.queue != []
  {
    var s := p.self.(queue := p.self.queue[1..]);
    match p.self.queue[0]
    case OtherDone(last) =>
      var s' := if last == READ then Posted(s, StopSelf) else s;
      p.(self := s'.(otherDone := true, noticedAt := if s.noticedAt.None? then Some(p.now) else s.noticedAt))
    case StopSelf =>
      if s.task == STOPPED then p.(self := s)
      else p.(self := s.(task := STOPPED), other := Posted(p.other, StopSelf))
  }

  function Stepped(p: Pair, step: Step): Pair
    requires CanTake(p.self, step)
  {
    var s := p.self;
    match step
    case RunStarts => p.(self := s.(task := RUNNING, phase := Connecting))
    case ConnectFails(canceled) => Unreached(p, canceled)
    case Enter => Looped(p)
    case ReadCompletes(chunk) => p.(self := s.(phase := Writing(chunk), last := WRITE, input := s.input + chunk))
    case ReadFails(canceled) => Left(p, canceled)
    case WriteCompletes => Looped(p.(self := s.(output := s.output + s.phase.chunk)))
    case WriteFails(written, canceled) => Left(p.(self := s.(output := s.output + s.phase.chunk[..written])), canceled)
    case RunMessage => Executed(p)
    case RequestStop => p.(self := Posted(s, StopSelf))
  }

  /** A step of the first session, or of the second. Time passes. */
  function Take(p: Pair, mirrored: bool, step: Step): Pair
    requires CanTake(if mirrored then p.other else p.self, step)
  {
    if !mirrored then Tick(Stepped(p, step)) else Mirror(Tick(Stepped(Mirror(p), step)))
  }

  function Mirror(p: Pair): Pair { Pair(p.other, p.self, p.now) }

  function Tick(p: Pair): Pair { p.(now := p.now + 1) }

  /** A run: steps of either side in any order. */
  predicate Runs(p: Pair, run: seq<(bool, Step)>, p': Pair)
    decreases |run|
  {
    if run == [] then p == p'
    else CanTake(if run[0].0 then p.other else p.self, run[0].1) && Runs(Take(p, run[0].0, run[0].1), run[1..], p')
  }

  const Fresh: Pair := Pair(NewSide, NewSide, 0)

  class ProxyDataSession {
    var task: State
    var phase: Phase
    var last: Place
    var otherDone: bool
    var queue: seq<Message>
    var other: ProxyDataSession?
    ghost var input: seq<bv8>
    ghost var output: seq<bv8>
    ghost var closedBoth: bool
    ghost var exitedAt: Option<nat>
    ghost var noticedAt: Option<nat>

    ghost function View(): Side
      reads this
    {
      Side(task, phase, last, otherDone, queue, input, output, closedBoth, exitedAt, noticedAt)
    }

    /** `setOther` was called both ways. */
    ghost predicate Coupled()
      reads this, other
    {
      other != null && other != this && other.other == this
    }

    ghost function Both(now: nat): Pair
      reads this, other
      requires Coupled()
    {
      Pair(View(), other.View(), now)
    }

    constructor ()
      ensures View() == NewSide && other == null
    {
      task, phase, last, otherDone, queue, other := INITIAL, Idle, READ, false, [], null;
      input, output, closedBoth, exitedAt, noticedAt := [], [], false, None, None;
    }

    method Post(m: Message)
      modifies this`queue
      ensures queue == old(queue) + [m]
    {
      queue := queue + [m];
    }

    /** The exit guard of `work`, then the task's own handler and guard. */
    method Leave(canceled: bool, ghost now: nat)
      requires Coupled()
      modifies this, other`queue
      ensures Coupled() && other == old(other) && Both(now) == Left(old(Both(now)), canceled)
    {
      phase, exitedAt := Exited, Some(now);
      if otherDone {
        closedBoth := true;
      } else {
        closedBoth := false;
        other.Post(OtherDone(last));
      }
      if canceled {
        Post(StopSelf);
      }
      if task != STOPPED {
        task := DONE;
      }
    }

    method LoopTest(ghost now: nat)
      requires Coupled()
      modifies this, other`queue
      ensures Coupled() && other == old(other) && Both(now) == Looped(old(Both(now)))
    {
      if task == RUNNING && !otherDone {
        phase, last := Reading, READ;
      } else {
        Leave(false, now);
      }
    }

    method StartRun(ghost now: nat)
      requires Coupled() && CanTake(View(), RunStarts)
      modifies this
      ensures Coupled() && other == old(other) && Both(now) == Stepped(old(Both(now)), RunStarts)
    {
      task, phase := RUNNING, Connecting;
    }

    method OnConnectError(canceled: bool, ghost now: nat)
      requires Coupled() && CanTake(View(), ConnectFails(canceled))
      modifies this
      ensures Coupled() && other == old(other) && Both(now) == Stepped(old(Both(now)), ConnectFails(canceled))
    {
      phase := Unserved;
      if canceled {
        Post(StopSelf);
      }
      if task != STOPPED {
        task := DONE;
      }
    }

    /** The socket is started; the task may have been stopped meanwhile. */
    method EnterWork(ghost now: nat)
      requires Coupled() && CanTake(View(), Enter)
      modifies this, other`queue
      ensures Coupled() && other == old(other) && Both(now) == Stepped(old(Both(now)), Enter)
    {
      LoopTest(now);
    }

    method OnRead(chunk: seq<bv8>, ghost now: nat)
      requires Coupled() && CanTake(View(), ReadCompletes(chunk))
      modifies this
      ensures Coupled() && other == old(other) && Both(now) == Stepped(old(Both(now)), ReadCompletes(chunk))
    {
      phase, last, input := Writing(chunk), WRITE, input + chunk;
    }

    method OnReadError(canceled: bool, ghost now: nat)
      requires Coupled() && CanTake(View(), ReadFails(canceled))
      modifies this, other`queue
      ensures Coupled() && other == old(other) && Both(now) == Stepped(old(Both(now)), ReadFails(canceled))
    {
      Leave(canceled, now);
    }

    method OnWritten(ghost now: nat)
      requires Coupled() && CanTake(View(), WriteCompletes)
      modifies this, other`queue
      ensures Coupled() && other == old(other) && Both(now) == Stepped(old(Both(now)), WriteCompletes)
    {
      output := output + phase.chunk;
      LoopTest(now);
    }

    method OnWriteError(written: nat, canceled: bool, ghost now: nat)
      requires Coupled() && CanTake(View(), WriteFails(written, canceled))
      modifies this, other`queue
      ensures Coupled() && other == old(other) && Both(now) == Stepped(old(Both(now)), WriteFails(written, canceled))
    {
      output := output + phase.chunk[..written];
      Leave(canceled, now);
    }

    /** `otherDone`'s closure, or `co_stop` with this class's `onStop`. */
    method ExecuteNext(ghost now: nat)
      requires Coupled() && queue != []
      modifies this, other`queue
      ensures Coupled() && other == old(other) && Both(now) == Stepped(old(Both(now)), RunMessage)
    {
      var m := queue[0];
      queue := queue[1..];
      match m
      case OtherDone(lastState) =>
        if lastState == READ {
          Post(StopSelf);
        }
        otherDone := true;
        if noticedAt.None? { noticedAt := Some(now); }
      case StopSelf =>
        if task == STOPPED {
          return;
        }
        task := STOPPED;
        other.Post(StopSelf);
    }
  }

  // ----- what every step keeps -----

  predicate IsNotice(m: Message) { m.OtherDone? }

  function Notices(queue: seq<Message>): nat {
    if queue == [] then 0 else (if IsNotice(queue[0]) then 1 else 0) + Notices(queue[1..])
  }

  lemma {:induction false} NoticesOfPost(queue: seq<Message>, m: Message)
    ensures Notices(queue + [m]) == Notices(queue) + if IsNotice(m) then 1 else 0
  {
    if queue != [] {
      assert (queue + [m])[1..] == queue[1..] + [m];
      NoticesOfPost(queue[1..], m);
    } else {
      assert (queue + [m])[1..] == [];
    }
  }

  /** Bytes are neither lost, nor invented, nor reordered: what was written to the other
      socket, with the chunk on its way, is what was read. */
  predicate Conserves(s: Side) {
    match s.phase
    case Idle => s.input == s.output == []
    case Connecting => s.input == s.output == []
    case Unserved => s.input == s.output == []
    case Reading => s.output == s.input
    case Writing(chunk) => s.output + chunk == s.input
    case Exited => s.output <= s.input
  }

  /** What one side knows of the other. */
  predicate Knows(s: Side, o: Side, now: nat) {
    && Conserves(s)
    && (s.phase.Exited? <==> s.exitedAt.Some?)
    && (s.otherDone <==> s.noticedAt.Some?)
    && (s.exitedAt.Some? ==> s.exitedAt.value < now)
    && (s.noticedAt.Some? ==> s.noticedAt.value < now)
    // one notice, on its way or run, from an other side that left without closing
    && Notices(s.queue) + (if s.otherDone then 1 else 0) == (if o.phase.Exited? && !o.closedBoth then 1 else 0)
    && (s.noticedAt.Some? && o.exitedAt.Some? ==> o.exitedAt.value < s.noticedAt.value)
    && (s.closedBoth <==> s.exitedAt.Some? && s.noticedAt.Some? && s.noticedAt.value < s.exitedAt.value)
    && (s.task == STOPPED ==> o.task == STOPPED || StopSelf in o.queue)
  }

  predicate Good(p: Pair) {
    Knows(p.self, p.other, p.now) && Knows(p.other, p.self, p.now)
  }

  lemma LeftKeepsGood(p: Pair, canceled: bool)
    requires Good(p) && !p.self.phase.Exited?
    ensures Good(Tick(Left(p, canceled)))
  {
    NoticesOfPost(p.self.queue, StopSelf);
    NoticesOfPost(p.other.queue, OtherDone(p.self.last));
  }

  lemma ExecutedKeepsGood(p: Pair)
    requires Good(p) && p.self.queue != []
    ensures Good(Tick(Executed(p)))
  {
    match p.self.queue[0]
    case OtherDone(_) => NoticeKeepsGood(p);
    case StopSelf => StopKeepsGood(p);
  }

  lemma NoticeKeepsGood(p: Pair)
    requires Good(p) && p.self.queue != [] && p.self.queue[0].OtherDone?
    ensures Good(Tick(Executed(p)))
  {
    var head, rest := p.self.queue[0], p.self.queue[1..];
    assert p.self.queue == [head] + rest;
    assert StopSelf in p.self.queue ==> StopSelf in rest;
    NoticesOfPost(rest, StopSelf);
  }

  lemma StopKeepsGood(p: Pair)
    requires Good(p) && p.self.queue != [] && p.self.queue[0].StopSelf?
    ensures Good(Tick(Executed(p)))
  {
    var rest := p.self.queue[1..];
    assert Notices(p.self.queue) == Notices(rest);
    NoticesOfPost(p.other.queue, StopSelf);
    hide Notices, Conserves;
    assert StopSelf in p.other.queue + [StopSelf];
    assert StopSelf in p.other.queue ==> StopSelf in p.other.queue + [StopSelf];
  }

  lemma StepKeepsGood(p: Pair, step: Step)
    requires Good(p) && CanTake(p.self, step)
    ensures Good(Tick(Stepped(p, step)))
  {
    var s := p.self;
    match step
    case RunStarts =>
    case ConnectFails(canceled) =>
      NoticesOfPost(s.queue, StopSelf);
    case Enter =>
      if s.task != RUNNING || s.otherDone { LeftKeepsGood(p, false); }
    case ReadCompletes(chunk) =>
    case ReadFails(canceled) =>
      LeftKeepsGood(p, canceled);
    case WriteCompletes =>
      if s.task != RUNNING || s.otherDone { WrittenLeaves(p, |s.phase.chunk|, false); }
    case WriteFails(written, canceled) =>
      WrittenLeaves(p, written, canceled);
    case RunMessage =>
      ExecutedKeepsGood(p);
    case RequestStop =>
      NoticesOfPost(s.queue, StopSelf);
  }

  lemma WrittenLeaves(p: Pair, written: nat, canceled: bool)
    requires Good(p) && p.self.phase.Writing? && written <= |p.self.phase.chunk|
    ensures Good(Tick(Left(p.(self := p.self.(output := p.self.output + p.self.phase.chunk[..written])), canceled)))
  {
    var s := p.self;
    var p' := p.(self := s.(output := s.output + s.phase.chunk[..written], phase := Writing(s.phase.chunk[written..])));
    assert s.phase.chunk == s.phase.chunk[..written] + s.phase.chunk[written..];
    LeftKeepsGood(p', canceled);
  }

  lemma {:induction false} RunKeepsGood(p: Pair, run: seq<(bool, Step)>, p': Pair)
    requires Good(p) && Runs(p, run, p')
    ensures Good(p')
    decreases |run|
  {
    if run != [] {
      StepKeepsGood(if run[0].0 then Mirror(p) else p, run[0].1);
      RunKeepsGood(Take(p, run[0].0, run[0].1), run[1..], p');
    }
  }

  lemma FreshIsGood()
    ensures Good(Fresh)
  {
  }

  // ----- main results -----

  /** In every reachable state the sockets have been closed by the pair only if both loops
      have ended, and by one side at most. */
  lemma ClosedOnlyAfterBothLoops(run: seq<(bool, Step)>, p: Pair)
    requires Runs(Fresh, run, p)
    ensures p.self.closedBoth || p.other.closedBoth ==> p.self.phase.Exited? && p.other.phase.Exited?
    ensures !(p.self.closedBoth && p.other.closedBoth)
  {
    FreshIsGood();
    RunKeepsGood(Fresh, run, p);
  }

  /** A side ran the other's notice before its own loop ended. */
  predicate NoticedInTime(s: Side) {
    s.noticedAt.Some? && s.exitedAt.Some? && s.noticedAt.value < s.exitedAt.value
  }

  /** In every reachable state exactly one side has closed the sockets iff one of them ran the
      other's notice in time; where the notices cross, or one side never came to its loop,
      neither has. */
  lemma ExactlyOneClosesIffNoticedInTime(run: seq<(bool, Step)>, p: Pair)
    requires Runs(Fresh, run, p)
    ensures p.self.closedBoth != p.other.closedBoth <==> NoticedInTime(p.self) || NoticedInTime(p.other)
    ensures !p.self.closedBoth && !p.other.closedBoth <==> !NoticedInTime(p.self) && !NoticedInTime(p.other)
  {
    FreshIsGood();
    RunKeepsGood(Fresh, run, p);
  }

  predicate Crossed(p: Pair) {
    && p.self.phase.Exited? && p.other.phase.Exited? && !p.self.closedBoth && !p.other.closedBoth
    && p.self.queue == p.other.queue == [OtherDone(READ)]
  }

  /** The notices do cross in some run: both reads fail before either notice is run. */
  lemma NoticesMayCross()
    ensures exists run, p :: Runs(Fresh, run, p) && Crossed(p)
  {
    var p1 := BothReading();
    var p2 := Take(p1, false, ReadFails(false));
    var p3 := Take(p2, true, ReadFails(false));
    assert Runs(p3, [], p3) && Crossed(p3);
    StepThenRun(p2, true, ReadFails(false), [], p3);
    StepThenRun(p1, false, ReadFails(false), [(true, ReadFails(false))] + [], p3);
    BothReadingReached([(false, ReadFails(false))] + ([(true, ReadFails(false))] + []), p3);
  }

  lemma StepThenRun(p: Pair, mirrored: bool, step: Step, rest: seq<(bool, Step)>, p': Pair)
    requires CanTake(if mirrored then p.other else p.self, step) && Runs(Take(p, mirrored, step), rest, p')
    ensures Runs(p, [(mirrored, step)] + rest, p')
  {
    assert ([(mirrored, step)] + rest)[1..] == rest;
  }

  /** Both relays started and wait in their first reads. */
  function BothReading(): Pair {
    var s := NewSide.(task := RUNNING, phase := Reading);
    Pair(s, s, 4)
  }

  lemma BothReadingReached(rest: seq<(bool, Step)>, p: Pair)
    requires Runs(BothReading(), rest, p)
    ensures exists run :: Runs(Fresh, run, p)
  {
    var p1 := Take(Fresh, false, RunStarts);
    var p2 := Take(p1, true, RunStarts);
    var p3 := Take(p2, false, Enter);
    assert Take(p3, true, Enter) == BothReading();
    StepThenRun(p3, true, Enter, rest, p);
    StepThenRun(p2, false, Enter, [(true, Enter)] + rest, p);
    StepThenRun(p1, true, RunStarts, [(false, Enter)] + ([(true, Enter)] + rest), p);
    StepThenRun(Fresh, false, RunStarts, [(true, RunStarts)] + ([(false, Enter)] + ([(true, Enter)] + rest)), p);
  }

  /** What a side wrote to the other's socket is at every time a prefix of what it read,
      short only of the chunk on its way while the loop runs. */
  lemma OutputIsPrefixOfInput(run: seq<(bool, Step)>, p: Pair)
    requires Runs(Fresh, run, p)
    ensures p.self.output <= p.self.input && p.other.output <= p.other.input
    ensures p.self.phase.Reading? ==> p.self.output == p.self.input
    ensures p.self.phase.Writing? ==> p.self.output + p.self.phase.chunk == p.self.input
  {
    FreshIsGood();
    RunKeepsGood(Fresh, run, p);
  }

  /** A stop of either side reaches the other: when the strands are drained, both are stopped
      or neither is. */
  lemma StopReachesBoth(run: seq<(bool, Step)>, p: Pair)
    requires Runs(Fresh, run, p) && p.self.queue == [] && p.other.queue == []
    ensures p.self.task == STOPPED <==> p.other.task == STOPPED
  {
    FreshIsGood();
    RunKeepsGood(Fresh, run, p);
  }

  // ----- the history -----

  /** Steps of `work` itself. */
  predicate InLoop(step: Step) {
    step.Enter? || step.ReadCompletes? || step.ReadFails? || step.WriteCompletes? || step.WriteFails?
  }

  /** The last step of `work` a side took; `mirrored` is the second side. */
  function LastInLoop(h: seq<(bool, Step)>, mirrored: bool): Option<Step> {
    if h == [] then None
    else
      var last := h[|h| - 1];
      if last.0 == mirrored && InLoop(last.1) then Some(last.1) else LastInLoop(h[..|h| - 1], mirrored)
  }

  /** What the side read from its socket, in order. */
  function ReadBy(h: seq<(bool, Step)>, mirrored: bool): seq<bv8> {
    if h == [] then []
    else
      var last := h[|h| - 1];
      ReadBy(h[..|h| - 1], mirrored) + if last.0 == mirrored && last.1.ReadCompletes? then last.1.chunk else []
  }

  /** What was not written of it: nothing, the chunk being written, or what a failed write
      left over. */
  function Unwritten(h: seq<(bool, Step)>, mirrored: bool): nat {
    if h == [] then 0
    else
      var last := h[|h| - 1];
      var before := Unwritten(h[..|h| - 1], mirrored);
      if last.0 != mirrored then before
      else if last.1.ReadCompletes? then |last.1.chunk|
      else if last.1.WriteCompletes? then 0
      else if last.1.WriteFails? && last.1.written <= before then before - last.1.written
      else before
  }

  predicate InRun(phase: Phase) {
    phase.Connecting? || phase.Reading? || phase.Writing?
  }

  /** The place of a side in its loop, against the history. */
  ghost predicate RemembersPlace(h: seq<(bool, Step)>, s: Side, mirrored: bool) {
    var last := LastInLoop(h, mirrored);
    && (s.phase.Idle? || s.phase.Connecting? || s.phase.Unserved? <==> last == None)
    && (s.phase.Reading? ==> s.last == READ && last.Some? && (last.value.Enter? || last.value.WriteCompletes?))
    && (s.phase.Writing? ==> s.last == WRITE && last == Some(ReadCompletes(s.phase.chunk)))
    && (last == None ==> s.last == READ)
    && (s.phase.Exited? ==> last.Some? && !last.value.ReadCompletes?)
    && (s.phase.Exited? ==> s.last == if last.value.Enter? || last.value.ReadFails? then READ else WRITE)
    && (s.phase.Exited? && (last.value.Enter? || last.value.WriteCompletes?) ==> s.task == STOPPED || s.otherDone)
    && (InRun(s.phase) ==> s.task == RUNNING || s.task == STOPPED)
  }

  /** Its bytes, against the history. */
  ghost predicate RemembersBytes(h: seq<(bool, Step)>, s: Side, mirrored: bool) {
    && s.input == ReadBy(h, mirrored)
    && |s.output| + Unwritten(h, mirrored) == |s.input|
    && (s.phase.Writing? ==> Unwritten(h, mirrored) == |s.phase.chunk|)
    && (s.phase.Reading? || s.phase.Idle? || s.phase.Connecting? ==> Unwritten(h, mirrored) == 0)
  }

  ghost predicate Remembers(h: seq<(bool, Step)>, s: Side, mirrored: bool) {
    RemembersPlace(h, s, mirrored) && RemembersBytes(h, s, mirrored)
  }

  lemma HistoryOfStep(h: seq<(bool, Step)>, mirrored: bool, step: Step, who: bool)
    ensures var h' := h + [(mirrored, step)];
      && LastInLoop(h', who) == (if who == mirrored && InLoop(step) then Some(step) else LastInLoop(h, who))
      && ReadBy(h', who) == ReadBy(h, who) + (if who == mirrored && step.ReadCompletes? then step.chunk else [])
      && Unwritten(h', who) == if who != mirrored then Unwritten(h, who) else if step.ReadCompletes? then |step.chunk| else if step.WriteCompletes? then 0 else if step.WriteFails? && step.written <= Unwritten(h, who) then Unwritten(h, who) - step.written else Unwritten(h, who)
  {
    assert (h + [(mirrored, step)])[..|h|] == h;
  }

  /** Nothing happened to the side's loop: at most a stop or a notice was run. */
  predicate SameLoop(s: Side, s': Side) {
    && s'.phase == s.phase && s'.last == s.last && s'.input == s.input && s'.output == s.output
    && (s'.task == s.task || s'.task == STOPPED) && (s.otherDone ==> s'.otherDone)
  }

  lemma SameLoopIsRemembered(h: seq<(bool, Step)>, s: Side, mirrored: bool, step: Step, s': Side, who: bool)
    requires Remembers(h, s, who) && SameLoop(s, s') && (who != mirrored || !InLoop(step))
    ensures Remembers(h + [(mirrored, step)], s', who)
  {
    HistoryOfStep(h, mirrored, step, who);
    hide LastInLoop, ReadBy, Unwritten;
  }

  lemma OutsideLoopIsSame(p: Pair, step: Step)
    requires CanTake(p.self, step)
    ensures SameLoop(p.other, Stepped(p, step).other)
    ensures step.RunMessage? || step.RequestStop? ==> SameLoop(p.self, Stepped(p, step).self)
  {
  }

  lemma LoopStepRemembersPlace(h: seq<(bool, Step)>, p: Pair, mirrored: bool, step: Step)
    requires RemembersPlace(h, p.self, mirrored) && CanTake(p.self, step) && InLoop(step)
    ensures RemembersPlace(h + [(mirrored, step)], Stepped(p, step).self, mirrored)
  {
    HistoryOfStep(h, mirrored, step, mirrored);
    hide LastInLoop, ReadBy, Unwritten, Executed, Unreached;
    assert RemembersPlace(h, p.self, mirrored);
  }

  lemma LoopStepRemembersBytes(h: seq<(bool, Step)>, p: Pair, mirrored: bool, step: Step)
    requires RemembersBytes(h, p.self, mirrored) && CanTake(p.self, step) && InLoop(step)
    ensures RemembersBytes(h + [(mirrored, step)], Stepped(p, step).self, mirrored)
  {
    HistoryOfStep(h, mirrored, step, mirrored);
    hide ReadBy, Unwritten;
  }

  lemma StartIsRemembered(h: seq<(bool, Step)>, p: Pair, mirrored: bool, step: Step)
    requires Remembers(h, p.self, mirrored) && CanTake(p.self, step) && (step.RunStarts? || step.ConnectFails?)
    ensures Remembers(h + [(mirrored, step)], Stepped(p, step).self, mirrored)
  {
    HistoryOfStep(h, mirrored, step, mirrored);
    hide LastInLoop, ReadBy, Unwritten;
  }

  lemma StepIsRemembered(h: seq<(bool, Step)>, p: Pair, mirrored: bool, step: Step)
    requires Remembers(h, p.self, mirrored) && CanTake(p.self, step)
    ensures Remembers(h + [(mirrored, step)], Stepped(p, step).self, mirrored)
  {
    hide RemembersPlace, RemembersBytes, CanTake, Stepped, SameLoop;
    if InLoop(step) {
      LoopStepRemembersPlace(h, p, mirrored, step);
      LoopStepRemembersBytes(h, p, mirrored, step);
    } else if step.RunStarts? || step.ConnectFails? {
      StartIsRemembered(h, p, mirrored, step);
    } else {
      OutsideLoopIsSame(p, step);
      SameLoopIsRemembered(h, p.self, mirrored, step, Stepped(p, step).self, mirrored);
    }
  }

  lemma OtherIsRemembered(h: seq<(bool, Step)>, p: Pair, mirrored: bool, step: Step)
    requires Remembers(h, p.other, !mirrored) && CanTake(p.self, step)
    ensures Remembers(h + [(mirrored, step)], Stepped(p, step).other, !mirrored)
  {
    OutsideLoopIsSame(p, step);
    SameLoopIsRemembered(h, p.other, mirrored, step, Stepped(p, step).other, !mirrored);
  }

  // ----- who is stopped -----

  predicate Asked(step: Step) {
    step.RequestStop? || ((step.ReadFails? || step.WriteFails? || step.ConnectFails?) && step.canceled)
  }

  predicate AnyAsked(h: seq<(bool, Step)>) {
    exists i :: 0 <= i < |h| && Asked(h[i].1)
  }

  /** The side left its loop in a read, and told the other. */
  predicate LeftReading(s: Side) {
    s.phase.Exited? && !s.closedBoth && s.last == READ
  }

  predicate StopComes(s: Side) {
    s.task == STOPPED || StopSelf in s.queue || OtherDone(READ) in s.queue
  }

  predicate EitherStops(p: Pair) {
    StopComes(p.self) || StopComes(p.other)
  }

  /** A stop has run, or is on its way, exactly for a reason. */
  predicate Reasoned(h: seq<(bool, Step)>, p: Pair) {
    EitherStops(p) <==> AnyAsked(h) || LeftReading(p.self) || LeftReading(p.other)
  }

  lemma AskedOfStep(h: seq<(bool, Step)>, mirrored: bool, step: Step)
    ensures AnyAsked(h + [(mirrored, step)]) <==> AnyAsked(h) || Asked(step)
  {
    var h' := h + [(mirrored, step)];
    assert h'[|h|].1 == step && forall i :: 0 <= i < |h| ==> h'[i] == h[i];
  }

  lemma PostedComes(s: Side, m: Message)
    ensures StopComes(Posted(s, m)) <==> StopComes(s) || m == StopSelf || m == OtherDone(READ)
  {
    assert forall x :: x in s.queue + [m] <==> x in s.queue || x == m;
  }

  lemma LeftIsReasoned(p: Pair, canceled: bool)
    requires !p.self.phase.Exited?
    ensures EitherStops(Left(p, canceled)) <==> EitherStops(p) || canceled || LeftReading(Left(p, canceled).self)
    ensures LeftReading(Left(p, canceled).other) <==> LeftReading(p.other)
  {
    var s := p.self;
    var self := s.(phase := Exited, closedBoth := s.otherDone, exitedAt := Some(p.now), task := AfterRun(s.task));
    PostedComes(self, StopSelf);
    PostedComes(p.other, OtherDone(s.last));
  }

  lemma ExecutedIsReasoned(p: Pair)
    requires p.self.queue != []
    ensures EitherStops(Executed(p)) <==> EitherStops(p)
    ensures LeftReading(Executed(p).self) == LeftReading(p.self) && LeftReading(Executed(p).other) == LeftReading(p.other)
  {
    assert p.self.queue == [p.self.queue[0]] + p.self.queue[1..];
    PostedComes(p.self.(queue := p.self.queue[1..]), StopSelf);
    PostedComes(p.other, StopSelf);
  }

  lemma StepIsReasoned(h: seq<(bool, Step)>, p: Pair, mirrored: bool, step: Step)
    requires Reasoned(h, p) && CanTake(p.self, step)
    ensures Reasoned(h + [(mirrored, step)], Stepped(p, step))
  {
    AskedOfStep(h, mirrored, step);
    hide AnyAsked, Executed, Left, StopComes;
    match step
    case RunStarts => SameComes(p.self, Stepped(p, step).self);
    case ConnectFails(canceled) =>
      var self := p.self.(phase := Unserved, task := AfterRun(p.self.task));
      SameComes(p.self, self);
      PostedComes(self, StopSelf);
    case Enter => LoopedIsReasoned(p);
    case ReadCompletes(_) => SameComes(p.self, Stepped(p, step).self);
    case ReadFails(canceled) => LeftIsReasoned(p, canceled);
    case WriteCompletes =>
      var self := p.self.(output := p.self.output + p.self.phase.chunk);
      SameComes(p.self, self);
      LoopedIsReasoned(p.(self := self));
    case WriteFails(written, canceled) =>
      var self := p.self.(output := p.self.output + p.self.phase.chunk[..written]);
      SameComes(p.self, self);
      LeftIsReasoned(p.(self := self), canceled);
    case RunMessage => ExecutedIsReasoned(p);
    case RequestStop => PostedComes(p.self, StopSelf);
  }

  lemma SameComes(s: Side, s': Side)
    requires s'.queue == s.queue && (s'.task == STOPPED <==> s.task == STOPPED)
    ensures StopComes(s') <==> StopComes(s)
  {
  }

  lemma LoopedIsReasoned(p: Pair)
    requires !p.self.phase.Exited?
    ensures EitherStops(Looped(p)) <==> EitherStops(p) || LeftReading(Looped(p).self)
    ensures LeftReading(Looped(p).other) <==> LeftReading(p.other)
  {
    if p.self.task == RUNNING && !p.self.otherDone {
      SameComes(p.self, Looped(p).self);
    } else {
      LeftIsReasoned(p, false);
    }
  }

  lemma MirroredIsReasoned(h: seq<(bool, Step)>, p: Pair)
    ensures Reasoned(h, p) <==> Reasoned(h, Mirror(p))
  {
  }

  /** Everything above, for both sides. */
  ghost predicate Recorded(h: seq<(bool, Step)>, p: Pair) {
    Reasoned(h, p) && Remembers(h, p.self, false) && Remembers(h, p.other, true)
  }

  lemma StepIsRecorded(h: seq<(bool, Step)>, p: Pair, mirrored: bool, step: Step)
    requires Good(p) && Recorded(h, p) && CanTake(if mirrored then p.other else p.self, step)
    ensures Recorded(h + [(mirrored, step)], Take(p, mirrored, step))
  {
    hide Good, Reasoned, Remembers, Stepped, CanTake;
    var q := if mirrored then Mirror(p) else p;
    MirroredIsReasoned(h, p);
    StepIsRemembered(h, q, mirrored, step);
    OtherIsRemembered(h, q, mirrored, step);
    StepIsReasoned(h, q, mirrored, step);
    var q' := Stepped(q, step);
    TickIsReasoned(h + [(mirrored, step)], q');
    MirroredIsReasoned(h + [(mirrored, step)], Tick(q'));
  }

  lemma TickIsReasoned(h: seq<(bool, Step)>, p: Pair)
    ensures Reasoned(h, p) <==> Reasoned(h, Tick(p))
  {
  }

  lemma {:induction false} RunIsRecorded(h: seq<(bool, Step)>, p: Pair, run: seq<(bool, Step)>, p': Pair)
    requires Good(p) && Runs(p, run, p') && Recorded(h, p)
    ensures Recorded(h + run, p')
    decreases |run|
  {
    if run == [] {
      assert h + run == h;
    } else {
      hide Good, Recorded, Stepped;
      var (mirrored, step) := run[0];
      StepIsRecorded(h, p, mirrored, step);
      TakeKeepsGood(p, mirrored, step);
      assert h + run == (h + [run[0]]) + run[1..];
      RunIsRecorded(h + [run[0]], Take(p, mirrored, step), run[1..], p');
    }
  }

  lemma TakeKeepsGood(p: Pair, mirrored: bool, step: Step)
    requires Good(p) && CanTake(if mirrored then p.other else p.self, step)
    ensures Good(Take(p, mirrored, step))
  {
    StepKeepsGood(if mirrored then Mirror(p) else p, step);
  }

  lemma FreshRunIsRecorded(run: seq<(bool, Step)>, p: Pair)
    requires Runs(Fresh, run, p)
    ensures Good(p) && Recorded(run, p)
  {
    FreshIsGood();
    RunKeepsGood(Fresh, run, p);
    assert [] + run == run;
    RunIsRecorded([], Fresh, run, p);
  }

  /** The side's loop ended in a read, and it did not close the sockets: a read failed, or the
      side found itself stopped before its first. */
  predicate EndedReading(h: seq<(bool, Step)>, s: Side, mirrored: bool) {
    var last := LastInLoop(h, mirrored);
    s.phase.Exited? && !s.closedBoth && last.Some? && (last.value.ReadFails? || last.value.Enter?)
  }

  /** When the strands are drained a side is stopped exactly if somebody asked for it from
      outside, by a stop or a cancellation, or one side's loop ended in a read; an end in a
      write stops nobody. */
  lemma StoppedExactlyForAReason(run: seq<(bool, Step)>, p: Pair)
    requires Runs(Fresh, run, p) && p.self.queue == [] && p.other.queue == []
    ensures p.self.task == STOPPED <==> AnyAsked(run) || EndedReading(run, p.self, false) || EndedReading(run, p.other, true)
    ensures p.other.task == STOPPED <==> p.self.task == STOPPED
  {
    FreshRunIsRecorded(run, p);
    hide AnyAsked, LastInLoop;
    StopReachesBoth(run, p);
  }

  /** A side that left without closing has told the other, and nobody else did. */
  lemma NoticesArrive(run: seq<(bool, Step)>, p: Pair)
    requires Runs(Fresh, run, p) && p.self.queue == [] && p.other.queue == []
    ensures p.other.otherDone <==> p.self.phase.Exited? && !p.self.closedBoth
    ensures p.self.otherDone <==> p.other.phase.Exited? && !p.other.closedBoth
  {
    FreshRunIsRecorded(run, p);
  }

  /** The bytes of a side are those of its completed reads, in order, and the other's socket
      got all of them but what its last write left over. */
  lemma BytesAreHistory(run: seq<(bool, Step)>, p: Pair)
    requires Runs(Fresh, run, p)
    ensures p.self.input == ReadBy(run, false) && p.other.input == ReadBy(run, true)
    ensures Unwritten(run, false) <= |p.self.input| && p.self.output == p.self.input[..|p.self.input| - Unwritten(run, false)]
    ensures Unwritten(run, true) <= |p.other.input| && p.other.output == p.other.input[..|p.other.input| - Unwritten(run, true)]
  {
    FreshRunIsRecorded(run, p);
    OutputIsPrefixOfInput(run, p);
    hide ReadBy, Unwritten;
  }

  /** A loop that ends without a failure ends because the side is stopped or the other done. */
  lemma LoopEndsForAReason(run: seq<(bool, Step)>, p: Pair)
    requires Runs(Fresh, run, p) && p.self.phase.Exited?
    requires LastInLoop(run, false) == Some(Enter) || LastInLoop(run, false) == Some(WriteCompletes)
    ensures p.self.task == STOPPED || p.self.otherDone
  {
    FreshRunIsRecorded(run, p);
  }

  function ReadsOf(run: seq<(bool, Step)>): nat {
    if run == [] then 0 else (if !run[0].0 && run[0].1.ReadCompletes? then 1 else 0) + ReadsOf(run[1..])
  }

  /** And once it is, the read it is in completes at most, and no other begins. */
  lemma {:induction false} NoReadBeginsAfterStop(p: Pair, run: seq<(bool, Step)>, p': Pair)
    requires Runs(p, run, p') && (p.self.task == STOPPED || p.self.otherDone)
    ensures ReadsOf(run) <= if p.self.phase.Reading? then 1 else 0
    ensures p.self.phase.Idle? || p.self.phase.Connecting? || p.self.phase.Reading? || p.self.phase.Writing? || p'.self.phase == p.self.phase
    decreases |run|
  {
    if run != [] {
      StopIsKept(p, run[0].0, run[0].1);
      NoReadBeginsAfterStop(Take(p, run[0].0, run[0].1), run[1..], p');
    }
  }

  lemma StopIsKept(p: Pair, mirrored: bool, step: Step)
    requires CanTake(if mirrored then p.other else p.self, step) && (p.self.task == STOPPED || p.self.otherDone)
    ensures var p' := Take(p, mirrored, step);
      && (p'.self.task == STOPPED || p'.self.otherDone)
      && (mirrored ==> p'.self.phase == p.self.phase)
      && (!mirrored && step.ReadCompletes? ==> !p'.self.phase.Reading?)
      && (p'.self.phase.Reading? ==> p.self.phase.Reading?)
      && (p.self.phase.Exited? || p.self.phase.Unserved? ==> p'.self.phase == p.self.phase)
  {
  }

  // ----- the relay is a task -----

  /** The task `t` is where the side's own task is, with nothing left to run. */
  predicate IsTask(s: Side, t: Model) {
    && t.state == s.task && t.inRun == InRun(s.phase) && t.queue == [] && !t.inOnStop
    && (s.phase.Idle? || t.state != INITIAL)
  }

  ghost predicate TaskReached(s: Side, steps: seq<CoroutineTask.Step>) {
    var t := CoroutineTask.After(Initial, steps);
    t.Some? && IsTask(s, t.value)
  }

  lemma TaskGoesOn(s: Side, steps: seq<CoroutineTask.Step>, s': Side, more: seq<CoroutineTask.Step>)
    requires TaskReached(s, steps)
    requires var t := CoroutineTask.After(Initial, steps).value;
      CoroutineTask.After(t, more).Some? && IsTask(s', CoroutineTask.After(t, more).value)
    ensures TaskReached(s', steps + more)
  {
    AfterJoins(Initial, steps, more);
  }

  /** A start, the end of a run, and a stop, each with all that belongs to it. */
  lemma TaskSteps(t: Model)
    requires t.queue == [] && !t.inOnStop
    ensures CoroutineTask.After(t, [Post(Start), Execute]) == Some(Entered(t))
    ensures t.inRun ==> CoroutineTask.After(t, [RunEnds(Failed)]) == Some(RunEnded(t, Failed))
    ensures CoroutineTask.After(t, [Post(Stop), Execute]) == Some(StopBegun(t))
    ensures t.state != STOPPED ==> CoroutineTask.After(t, [Post(Stop), Execute, OnStopEnds]) == Some(CoroutineTask.Next(StopBegun(t), OnStopEnds))
  {
    assert ([] + [Start])[1..] == [] && ([] + [Stop])[1..] == [];
    assert [Post(Start), Execute][1..] == [Execute] && [Execute][1..] == [] && [RunEnds(Failed)][1..] == [];
    assert [Post(Stop), Execute][1..] == [Execute];
    assert [Post(Stop), Execute, OnStopEnds][1..] == [Execute, OnStopEnds] && [Execute, OnStopEnds][1..] == [OnStopEnds] && [OnStopEnds][1..] == [];
  }

  /** What a step of the side does to its task, a task does by its own steps. */
  lemma StepIsTaskSteps(p: Pair, step: Step, t: Model) returns (more: seq<CoroutineTask.Step>)
    requires CanTake(p.self, step) && IsTask(p.self, t)
    ensures CoroutineTask.After(t, more).Some? && IsTask(Stepped(p, step).self, CoroutineTask.After(t, more).value)
  {
    TaskSteps(t);
    hide CoroutineTask.After;
    more := [];
    NoSteps(t);
    var s' := Stepped(p, step).self;
    if step.RunStarts? {
      more := [Post(Start), Execute];
    } else if InRun(p.self.phase) && !InRun(s'.phase) {
      more := [RunEnds(Failed)];
    } else if step.RunMessage? && p.self.queue[0] == StopSelf && p.self.task != STOPPED {
      more := [Post(Stop), Execute, OnStopEnds];
    }
  }

  lemma NoSteps(t: Model)
    ensures CoroutineTask.After(t, []) == Some(t)
  {
  }

  /** A step of the other side leaves this one's task alone. */
  lemma OtherLeavesTask(p: Pair, step: Step)
    requires CanTake(p.self, step)
    ensures Stepped(p, step).other.task == p.other.task && Stepped(p, step).other.phase == p.other.phase
  {
  }

  lemma {:induction false} RunIsTaskRun(p: Pair, run: seq<(bool, Step)>, p': Pair, steps: seq<CoroutineTask.Step>)
    requires Runs(p, run, p') && TaskReached(p.self, steps)
    ensures exists steps' :: TaskReached(p'.self, steps')
    decreases |run|
  {
    if run != [] {
      var next := Take(p, run[0].0, run[0].1);
      var more := [];
      if run[0].0 {
        OtherLeavesTask(Mirror(p), run[0].1);
        NoSteps(CoroutineTask.After(Initial, steps).value);
      } else {
        more := StepIsTaskSteps(p, run[0].1, CoroutineTask.After(Initial, steps).value);
      }
      TaskGoesOn(p.self, steps, next.self, more);
      RunIsTaskRun(next, run[1..], p', steps + more);
    }
  }

  function Flipped(run: seq<(bool, Step)>): seq<(bool, Step)> {
    seq(|run|, i requires 0 <= i < |run| => (!run[i].0, run[i].1))
  }

  /** The pair is symmetric. */
  lemma {:induction false} MirroredRun(p: Pair, run: seq<(bool, Step)>, p': Pair)
    requires Runs(p, run, p')
    ensures Runs(Mirror(p), Flipped(run), Mirror(p'))
    decreases |run|
  {
    if run != [] {
      assert Flipped(run)[1..] == Flipped(run[1..]);
      MirroredRun(Take(p, run[0].0, run[0].1), run[1..], p');
    }
  }

  /** In every run of the pair each side's task is where some run of a task is, started and
      stopped as tasks are: what holds of all tasks holds of relays. */
  lemma RelayIsATask(run: seq<(bool, Step)>, p: Pair)
    requires Runs(Fresh, run, p)
    ensures exists steps :: TaskReached(p.self, steps)
    ensures exists steps :: TaskReached(p.other, steps)
  {
    assert TaskReached(Fresh.self, []);
    RunIsTaskRun(Fresh, run, p, []);
    MirroredRun(Fresh, run, p);
    RunIsTaskRun(Mirror(Fresh), Flipped(run), Mirror(p), []);
  }
}
