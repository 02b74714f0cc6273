/** The life of one `CoroutineTask`. Its strand runs posted closures in order, each up to
    its next suspension; a suspended `run()` or `onStop()` ends at any later time. */
module CoroutineTask {
  import opened Wrappers

  datatype State = INITIAL | RUNNING | DONE | STOPPED

  /** What `co_start` and `co_stop` post. */
  datatype Closure = Start | Stop

  /** How `run()` ends: normally, with `operation_canceled`, or with another exception. */
  datatype Outcome = Returned | Canceled | Failed

  /** One task: its fields, its strand's queue, whether `run()` or `onStop()` is suspended,
      and how often `run()` was entered, ended canceled, `onStop()` called and `m_stopped`
      fired. */
  datatype Model = Model(state: State, cancellable: bool, queue: seq<Closure>,
                         inRun: bool, inOnStop: bool,
                         entered: nat, canceled: nat, onStops: nat, fired: nat)

  datatype Step = Post(closure: Closure) | Execute | RunEnds(outcome: Outcome) | OnStopEnds

  predicate Enabled(t: Model, s: Step) {
    match s
    case Post(_) => true
    case Execute => t.queue != []
    case RunEnds(_) => t.inRun
    case OnStopEnds => t.inOnStop
  }

  /** `work` up to the call of `run()`; a second start throws and changes nothing. */
  function Entered(t: Model): Model {
    if t.state != INITIAL then t
    else t.(state := RUNNING, cancellable := true, inRun := true, entered := t.entered + 1)
  }

  /** `co_stop` up to the call of `onStop()`. */
  function StopBegun(t: Model): Model {
    if t.state == STOPPED then t
    else t.(state := STOPPED, inOnStop := true, onStops := t.onStops + 1)
  }

  /** The exit guard of `work`. */
  function AfterRun(state: State): State {
    if state == STOPPED then STOPPED else DONE
  }

  /** `work` from the end of `run()`: the handler posts a stop if canceled, then the exit
      guard marks the task done unless it is stopped. */
  function RunEnded(t: Model, outcome: Outcome): Model {
    t.(inRun := false,
       queue := if outcome == Canceled then t.queue + [Stop] else t.queue,
       canceled := if outcome == Canceled then t.canceled + 1 else t.canceled,
       state := AfterRun(t.state))
  }

  function Next(t: Model, s: Step): Model
    requires Enabled(t, s)
  {
    match s
    case Post(c) => t.(queue := t.queue + [c])
    case Execute =>
      var rest := t.(queue := t.queue[1..]);
      if t.queue[0] == Start then Entered(rest) else StopBegun(rest)
    case RunEnds(outcome) => RunEnded(t, outcome)
    case OnStopEnds => t.(inOnStop := false, fired := t.fired + 1)
  }

  const Initial: Model := Model(INITIAL, false, [], false, false, 0, 0, 0, 0)

  /** The task after a run of steps; nothing if some step was not enabled. */
  function After(t: Model, run: seq<Step>): Option<Model>
    decreases |run|
  {
    if run == [] then Some(t)
    else if Enabled(t, run[0]) then After(Next(t, run[0]), run[1..])
    else None
  }

  class Task {
    var state: State
    var cancellable: bool
    var queue: seq<Closure>
    var inRun: bool
    var inOnStop: bool
    ghost var entered: nat
    ghost var canceled: nat
    ghost var onStops: nat
    ghost var fired: nat

    ghost function View(): Model
      reads this
    {
      Model(state, cancellable, queue, inRun, inOnStop, entered, canceled, onStops, fired)
    }

    constructor ()
      ensures View() == Initial
    {
      state, cancellable, queue, inRun, inOnStop := INITIAL, false, [], false, false;
      entered, canceled, onStops, fired := 0, 0, 0, 0;
    }

    method PostClosure(c: Closure)
      modifies this
      ensures View() == Next(old(View()), Post(c))
    {
      queue := queue + [c];
    }

    /** Runs the closure at the head of the strand's queue. */
    method ExecuteNext() returns (threw: bool)
      requires queue != []
      modifies this
      ensures View() == Next(old(View()), Execute)
      ensures threw <==> old(queue[0]) == Start && old(state) != INITIAL
    {
      var c := queue[0];
      queue := queue[1..];
      threw := false;
      match c
      case Start =>
        if state != INITIAL {
          return true;
        }
        cancellable := true;
        state := RUNNING;
        inRun, entered := true, entered + 1;
      case Stop =>
        if state == STOPPED {
          return;
        }
        state := STOPPED;
        inOnStop, onStops := true, onStops + 1;
    }

    method FinishRun(outcome: Outcome)
      requires inRun
      modifies this
      ensures View() == Next(old(View()), RunEnds(outcome))
    {
      inRun := false;
      if outcome == Canceled {
        canceled := canceled + 1;
        queue := queue + [Stop];
      }
      if state != STOPPED {
        state := DONE;
      }
    }

    /** The rest of `co_stop`: the task's operations are canceled if it ever started, then
        the `m_stopped` slots run. */
    method FinishOnStop() returns (emitted: bool)
      requires inOnStop
      modifies this
      ensures View() == Next(old(View()), OnStopEnds)
      ensures emitted == cancellable
    {
      inOnStop := false;
      emitted := cancellable;
      fired := fired + 1;
    }
  }

  // ----- over all runs -----

  /** What every step keeps. */
  predicate Good(t: Model) {
    && t.entered == (if t.cancellable then 1 else 0)
    && (t.state == INITIAL ==> t.entered == 0)
    && (t.state == RUNNING ==> t.inRun)
    && (t.inRun ==> t.entered == 1 && t.canceled == 0)
    && t.canceled <= t.entered
    && t.onStops == (if t.state == STOPPED then 1 else 0)
    && t.fired + (if t.inOnStop then 1 else 0) == t.onStops
    && (t.canceled > 0 ==> t.state == STOPPED || Stop in t.queue)
  }

  lemma StepKeepsGood(t: Model, s: Step)
    requires Good(t) && Enabled(t, s)
    ensures Good(Next(t, s))
    ensures t.state == STOPPED ==> Next(t, s).state == STOPPED && Next(t, s).entered == t.entered
    ensures Next(t, s).entered >= t.entered && Next(t, s).canceled >= t.canceled
  {
    if s == Execute {
      assert t.queue == [t.queue[0]] + t.queue[1..];
    }
  }

  lemma {:induction false} RunKeepsGood(t: Model, run: seq<Step>)
    requires Good(t) && After(t, run).Some?
    ensures Good(After(t, run).value)
    ensures t.state == STOPPED ==> After(t, run).value.state == STOPPED && After(t, run).value.entered == t.entered
    ensures After(t, run).value.canceled >= t.canceled + if RunEnds(Canceled) in run then 1 else 0
    decreases |run|
  {
    if run != [] {
      var t' := Next(t, run[0]);
      StepKeepsGood(t, run[0]);
      RunKeepsGood(t', run[1..]);
      assert run == [run[0]] + run[1..];
    }
  }

  /** Main result. In every run from a new task: `run()` is entered at most once, `onStop()`
      is called once iff the task is stopped, and `m_stopped` has fired once iff moreover
      `onStop()` is over; it can be canceled iff `run()` was entered. */
  lemma LifecycleOverAllRuns(run: seq<Step>)
    requires After(Initial, run).Some?
    ensures var t := After(Initial, run).value;
      && t.entered <= 1
      && t.onStops == (if t.state == STOPPED then 1 else 0)
      && t.fired == (if t.state == STOPPED && !t.inOnStop then 1 else 0)
      && (t.cancellable <==> t.entered == 1)
  {
    RunKeepsGood(Initial, run);
  }

  lemma {:induction false} AfterJoins(t: Model, before: seq<Step>, later: seq<Step>)
    requires After(t, before).Some?
    ensures After(t, before + later) == After(After(t, before).value, later)
    decreases |before|
  {
    if before == [] {
      assert before + later == later;
    } else {
      assert (before + later)[0] == before[0] && (before + later)[1..] == before[1..] + later;
      AfterJoins(Next(t, before[0]), before[1..], later);
    }
  }

  /** Once stopped always stopped, against any later step, the exit guard's included; and
      `run()` is not entered any more. */
  lemma StoppedIsForever(before: seq<Step>, later: seq<Step>)
    requires After(Initial, before).Some? && After(Initial, before).value.state == STOPPED
    requires After(Initial, before + later).Some?
    ensures After(Initial, before + later).value.state == STOPPED
    ensures After(Initial, before + later).value.entered == After(Initial, before).value.entered
  {
    AfterJoins(Initial, before, later);
    RunKeepsGood(Initial, before);
    RunKeepsGood(After(Initial, before).value, later);
  }

  /** A run that ends canceled leaves the task stopped once its strand drains, with
      `onStop()` called exactly once and, when that is over, `m_stopped` fired. */
  lemma CanceledRunEndsStopped(run: seq<Step>)
    requires After(Initial, run).Some? && RunEnds(Canceled) in run
    requires After(Initial, run).value.queue == []
    ensures var t := After(Initial, run).value;
      t.state == STOPPED && t.onStops == 1 && (!t.inOnStop ==> t.fired == 1)
  {
    RunKeepsGood(Initial, run);
  }

  // ----- the state, read off the history alone -----

  /** What the steps posted first, if anything. */
  function FirstPost(run: seq<Step>): Option<Closure> {
    if run == [] then None
    else if run[0].Post? then Some(run[0].closure)
    else FirstPost(run[1..])
  }

  predicate StopPosted(run: seq<Step>) {
    Post(Stop) in run || RunEnds(Canceled) in run
  }

  predicate HasRunEnd(run: seq<Step>) {
    exists outcome :: RunEnds(outcome) in run
  }

  /** The state of a task in which nothing is left to run. */
  function DrainedState(run: seq<Step>): State {
    if StopPosted(run) then STOPPED
    else if FirstPost(run) != Some(Start) then INITIAL
    else if HasRunEnd(run) then DONE
    else RUNNING
  }

  /** What the task and its history say of each other after every step: stops are on their
      way or run, and what was posted first waits at the head of the queue or has decided
      whether `run()` is entered. */
  ghost predicate Explained(h: seq<Step>, t: Model) {
    && (t.state == STOPPED || Stop in t.queue <==> StopPosted(h))
    && (HasRunEnd(h) <==> t.entered == 1 && !t.inRun)
    && (t.state != STOPPED ==> t.state == if t.entered == 0 then INITIAL else if t.inRun then RUNNING else DONE)
    && match FirstPost(h)
       case None => t.queue == [] && t.state == INITIAL
       case Some(first) =>
         || (t.state == INITIAL && t.queue != [] && t.queue[0] == first)
         || (t.state != INITIAL && (t.entered == 1 <==> first == Start))
  }

  lemma {:induction false} FirstPostJoins(h: seq<Step>, s: Step)
    ensures FirstPost(h + [s]) == if FirstPost(h).Some? then FirstPost(h) else if s.Post? then Some(s.closure) else None
  {
    if h == [] {
      assert (h + [s])[1..] == [];
    } else {
      assert (h + [s])[1..] == h[1..] + [s];
      FirstPostJoins(h[1..], s);
    }
  }

  lemma StepKeepsExplained(h: seq<Step>, t: Model, s: Step)
    requires Good(t) && Explained(h, t) && Enabled(t, s)
    ensures Explained(h + [s], Next(t, s))
  {
    FirstPostJoins(h, s);
    assert forall x: Step :: x in h + [s] <==> x in h || x == s;
    if s == Execute {
      assert t.queue == [t.queue[0]] + t.queue[1..];
    }
    if s.RunEnds? {
      assert s in h + [s];
    }
  }

  lemma {:induction false} RunKeepsExplained(h: seq<Step>, t: Model, run: seq<Step>)
    requires Good(t) && Explained(h, t) && After(t, run).Some?
    ensures Explained(h + run, After(t, run).value)
    decreases |run|
  {
    if run == [] {
      assert h + run == h;
    } else {
      StepKeepsGood(t, run[0]);
      StepKeepsExplained(h, t, run[0]);
      assert h + run == (h + [run[0]]) + run[1..];
      RunKeepsExplained(h + [run[0]], Next(t, run[0]), run[1..]);
    }
  }

  /** In every run that leaves nothing to run, the state is what the history says: stopped
      exactly if a stop was posted or `run()` ended canceled, no other exception; else not
      started, running or done, by whether the first closure posted was a start and whether
      `run()` has ended. And `run()` was entered exactly if a start was posted first. */
  lemma DrainedStateIsHistory(run: seq<Step>)
    requires After(Initial, run).Some? && After(Initial, run).value.queue == []
    ensures After(Initial, run).value.state == DrainedState(run)
    ensures After(Initial, run).value.entered == if FirstPost(run) == Some(Start) then 1 else 0
  {
    assert [] + run == run;
    RunKeepsExplained([], Initial, run);
    RunKeepsGood(Initial, run);
  }

  /** On the way it may be seen as done, not stopped. */
  lemma CanceledPassesThroughDone()
    ensures var seen := After(Initial, [Post(Start), Execute, RunEnds(Canceled)]);
      seen.Some? && seen.value.state == DONE && seen.value.queue == [Stop]
  {
    var run := [Post(Start), Execute, RunEnds(Canceled)];
    assert run[1..] == [Execute, RunEnds(Canceled)] && run[1..][1..] == [RunEnds(Canceled)];
    assert run[1..][1..][1..] == [];
    assert ([] + [Start])[1..] == [];
  }
}
