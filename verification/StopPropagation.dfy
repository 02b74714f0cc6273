/** Stops spreading over a graph of tasks. A task being stopped stops others twice: from
    `onStop()`, and once that is over through the slots `registerStop` connected. Stops are
    posted, so pending ones may run in any order the strands allow. */
module StopPropagation {

  /** The tasks `onStop()` stops, and those registered with `m_stopped`, per task. */
  datatype Graph<T(==)> = Graph(tasks: set<T>, onStop: map<T, seq<T>>, registered: map<T, seq<T>>)

  predicate WellFormed<T>(g: Graph<T>) {
    && g.onStop.Keys == g.tasks == g.registered.Keys
    && (forall t, u :: t in g.tasks && u in g.onStop[t] ==> u in g.tasks)
    && (forall t, u :: t in g.tasks && u in g.registered[t] ==> u in g.tasks)
  }

  predicate Edge<T(==)>(g: Graph<T>, t: T, u: T)
    requires WellFormed(g)
  {
    t in g.tasks && (u in g.onStop[t] || u in g.registered[t])
  }

  /** A chain of stops from a requested task, through tasks not stopped before. */
  predicate Chain<T(==)>(g: Graph<T>, before: set<T>, requested: multiset<T>, chain: seq<T>)
    requires WellFormed(g)
  {
    && chain != [] && chain[0] in requested
    && (forall i :: 0 <= i < |chain| ==> chain[i] !in before)
    && (forall i :: 0 <= i < |chain| - 1 ==> Edge(g, chain[i], chain[i + 1]))
  }

  ghost predicate Reached<T(!new)>(g: Graph<T>, before: set<T>, requested: multiset<T>, t: T)
    requires WellFormed(g)
  {
    exists chain :: Chain(g, before, requested, chain) && chain[|chain| - 1] == t
  }

  lemma ReachedNext<T(!new)>(g: Graph<T>, before: set<T>, requested: multiset<T>, t: T, u: T)
    requires WellFormed(g) && Reached(g, before, requested, t) && Edge(g, t, u) && u !in before
    ensures Reached(g, before, requested, u)
  {
    var chain :| Chain(g, before, requested, chain) && chain[|chain| - 1] == t;
    var longer := chain + [u];
    assert Chain(g, before, requested, longer) && longer[|longer| - 1] == u;
  }

  /** Stops in progress: tasks stopped, stops posted and not yet run, and tasks whose
      `onStop()` is not over (one stop each at most: a second finds the task stopped);
      and how often `onStop()` was called and `m_stopped` fired, per task. */
  datatype Progress<T(==)> = Progress(stopped: set<T>, posted: multiset<T>, finishing: set<T>,
                                      onStops: multiset<T>, fired: multiset<T>)

  /** Nothing is stopped without a reason. */
  ghost predicate Justified<T(!new)>(g: Graph<T>, before: set<T>, requested: multiset<T>, p: Progress<T>)
    requires WellFormed(g)
  {
    && before <= p.stopped <= g.tasks && p.finishing <= p.stopped - before
    && (forall t :: t in p.stopped || t in p.posted ==> t in g.tasks && (t in before || Reached(g, before, requested, t)))
  }

  /** The stop of `u` has run or is going to. */
  predicate Covered<T(==)>(p: Progress<T>, u: T) {
    u in p.stopped || u in p.posted
  }

  /** No reason is lost. */
  predicate Complete<T(==)>(g: Graph<T>, before: set<T>, requested: multiset<T>, p: Progress<T>)
    requires WellFormed(g) && p.stopped <= g.tasks
  {
    && (forall t :: t in requested ==> Covered(p, t))
    && (forall t, u :: t in p.stopped - before && u in g.onStop[t] ==> Covered(p, u))
    && (forall t, u :: t in p.stopped - before && u in g.registered[t] ==> t in p.finishing || Covered(p, u))
  }

  /** When nothing is pending every chain is stopped. */
  lemma {:induction false} ChainStopped<T(!new)>(g: Graph<T>, before: set<T>, requested: multiset<T>,
                                                 p: Progress<T>, chain: seq<T>, i: nat)
    requires WellFormed(g) && p.stopped <= g.tasks && Complete(g, before, requested, p)
    requires p.posted == multiset{} && p.finishing == {}
    requires Chain(g, before, requested, chain) && i < |chain|
    ensures chain[i] in p.stopped
  {
    if i > 0 {
      ChainStopped(g, before, requested, p, chain, i - 1);
      assert Edge(g, chain[i - 1], chain[i]);
    }
    assert Covered(p, chain[i]);
  }

  /** `co_stop` up to `onStop()`'s end: marks the task and lets `onStop()` post its stops. */
  function Begin<T(==)>(g: Graph<T>, p: Progress<T>, t: T): Progress<T>
    requires WellFormed(g) && t in g.tasks
  {
    var rest := p.posted - multiset{t};
    if t in p.stopped then p.(posted := rest)
    else Progress(p.stopped + {t}, rest + multiset(g.onStop[t]), p.finishing + {t}, p.onStops + multiset{t}, p.fired)
  }

  /** The rest of `co_stop`: `m_stopped` fires. */
  function Finish<T(==)>(g: Graph<T>, p: Progress<T>, t: T): Progress<T>
    requires WellFormed(g) && t in g.tasks
  {
    p.(posted := p.posted + multiset(g.registered[t]), finishing := p.finishing - {t}, fired := p.fired + multiset{t})
  }

  lemma SuccessorsReached<T(!new)>(g: Graph<T>, before: set<T>, requested: multiset<T>, t: T)
    requires WellFormed(g) && t in g.tasks && Reached(g, before, requested, t)
    ensures forall u :: Edge(g, t, u) ==> u in before || Reached(g, before, requested, u)
  {
    forall u | Edge(g, t, u) && u !in before ensures Reached(g, before, requested, u) {
      ReachedNext(g, before, requested, t, u);
    }
  }

  lemma BeginKeepsJustified<T(!new)>(g: Graph<T>, before: set<T>, requested: multiset<T>, p: Progress<T>, t: T)
    requires WellFormed(g) && Justified(g, before, requested, p) && t in p.posted
    ensures Justified(g, before, requested, Begin(g, p, t)) && Begin(g, p, t).stopped <= g.tasks
  {
    hide Reached;
    if t !in p.stopped {
      SuccessorsReached(g, before, requested, t);
      assert forall u :: u in g.onStop[t] ==> Edge(g, t, u);
    }
  }

  lemma BeginCovers<T(!new)>(g: Graph<T>, p: Progress<T>, t: T)
    requires WellFormed(g) && t in g.tasks && t in p.posted
    ensures forall u :: Covered(p, u) ==> Covered(Begin(g, p, t), u)
    ensures t !in p.stopped ==> forall u :: u in g.onStop[t] ==> Covered(Begin(g, p, t), u)
  {
    var p' := Begin(g, p, t);
    assert forall u :: u in p.posted && u != t ==> u in p.posted - multiset{t};
    assert t !in p.stopped ==> forall u :: u in g.onStop[t] ==> u in p'.posted;
  }

  lemma BeginKeepsComplete<T(!new)>(g: Graph<T>, before: set<T>, requested: multiset<T>, p: Progress<T>, t: T)
    requires WellFormed(g) && p.stopped <= g.tasks && t in g.tasks && t in p.posted
    requires Complete(g, before, requested, p)
    ensures Begin(g, p, t).stopped <= g.tasks && Complete(g, before, requested, Begin(g, p, t))
  {
    var p' := Begin(g, p, t);
    BeginCovers(g, p, t);
    assert p'.stopped == p.stopped + {t} && (t in p.stopped ==> p'.finishing == p.finishing);
    assert t !in p.stopped ==> p'.finishing == p.finishing + {t};
    hide Covered, Begin, WellFormed;
    forall x, u | x in p'.stopped - before && u in g.onStop[x] ensures Covered(p', u) {
      if x in p.stopped {
        assert Covered(p, u);
      }
    }
    forall x, u | x in p'.stopped - before && u in g.registered[x] ensures x in p'.finishing || Covered(p', u) {
      if x in p.stopped {
        assert x in p.finishing || Covered(p, u);
      }
    }
  }

  lemma BeginKeeps<T(!new)>(g: Graph<T>, before: set<T>, requested: multiset<T>, p: Progress<T>, t: T)
    requires WellFormed(g) && Justified(g, before, requested, p) && Complete(g, before, requested, p)
    requires t in p.posted
    ensures Justified(g, before, requested, Begin(g, p, t)) && Begin(g, p, t).stopped <= g.tasks
    ensures Complete(g, before, requested, Begin(g, p, t))
  {
    BeginKeepsJustified(g, before, requested, p, t);
    Bounds(g, before, requested, p);
    hide Justified, Complete, Begin;
    BeginKeepsComplete(g, before, requested, p, t);
  }

  lemma FinishKeeps<T(!new)>(g: Graph<T>, before: set<T>, requested: multiset<T>, p: Progress<T>, t: T)
    requires WellFormed(g) && Justified(g, before, requested, p) && Complete(g, before, requested, p)
    requires t in p.finishing
    ensures Justified(g, before, requested, Finish(g, p, t)) && Finish(g, p, t).stopped <= g.tasks
    ensures Complete(g, before, requested, Finish(g, p, t))
  {
    hide Reached;
    var p' := Finish(g, p, t);
    SuccessorsReached(g, before, requested, t);
    assert forall u :: u in g.registered[t] ==> Edge(g, t, u) && u in p'.posted;
    assert forall u :: Covered(p, u) ==> Covered(p', u);
  }

  /** The calls made are those of the tasks stopped here, once each. */
  predicate Counted<T(==)>(before: set<T>, p: Progress<T>) {
    && p.finishing <= p.stopped
    && p.onStops == multiset(p.stopped - before) == p.fired + multiset(p.finishing)
  }

  lemma BeginCounts<T>(g: Graph<T>, before: set<T>, p: Progress<T>, t: T)
    requires WellFormed(g) && t in g.tasks && before <= p.stopped && Counted(before, p)
    ensures Counted(before, Begin(g, p, t))
  {
    if t !in p.stopped {
      assert p.stopped + {t} - before == (p.stopped - before) + {t};
    }
  }

  lemma FinishCounts<T>(g: Graph<T>, before: set<T>, p: Progress<T>, t: T)
    requires WellFormed(g) && t in g.tasks && Counted(before, p) && t in p.finishing
    ensures Counted(before, Finish(g, p, t))
  {
    assert p.finishing == (p.finishing - {t}) + {t};
  }

  /** One pending job, any one. */
  method RunOne<T>(g: Graph<T>, p: Progress<T>) returns (t: T, stop: bool, p': Progress<T>)
    requires WellFormed(g) && p.stopped <= g.tasks && p.finishing <= g.tasks
    requires forall t :: t in p.posted ==> t in g.tasks
    requires p.posted != multiset{} || p.finishing != {}
    ensures if stop then t in p.posted && p' == Begin(g, p, t) else t in p.finishing && p' == Finish(g, p, t)
    ensures p'.stopped == p.stopped || g.tasks - p'.stopped < g.tasks - p.stopped
    ensures p'.stopped == p.stopped ==> p'.finishing < p.finishing || (p'.finishing == p.finishing && |p'.posted| < |p.posted|)
  {
    stop :| stop ==> p.posted != multiset{};
    if stop || p.finishing == {} {
      stop := true;
      t :| t in p.posted;
      p' := Begin(g, p, t);
    } else {
      t :| t in p.finishing;
      p' := Finish(g, p, t);
    }
  }

  /** Main result. Whatever order the pending jobs run in, draining ends, on cyclic graphs
      too. Stopped are then exactly the tasks stopped before and those reached by a chain of
      stops from a request; each of the latter had `onStop()` called and `m_stopped` fired
      exactly once, the former not at all. */
  method Drain<T(!new)>(g: Graph<T>, before: set<T>, requested: multiset<T>) returns (p: Progress<T>)
    requires WellFormed(g) && before <= g.tasks && forall t :: t in requested ==> t in g.tasks
    ensures p.posted == multiset{} && p.finishing == {}
    ensures forall t :: t in p.stopped <==> t in before || Reached(g, before, requested, t)
    ensures p.onStops == p.fired == multiset(p.stopped - before)
  {
    hide Reached, Complete, Counted, Justified, Begin, Finish, WellFormed;
    p := Progress(before, requested, {}, multiset{}, multiset{});
    StartIsGood(g, before, requested);
    while p.posted != multiset{} || p.finishing != {}
      invariant Justified(g, before, requested, p)
      invariant p.stopped <= g.tasks && Complete(g, before, requested, p) && Counted(before, p)
      decreases g.tasks - p.stopped, p.finishing, |p.posted|
    {
      Bounds(g, before, requested, p);
      var t, stop, p' := RunOne(g, p);
      if stop {
        BeginKeeps(g, before, requested, p, t);
        BeginCounts(g, before, p, t);
      } else {
        FinishKeeps(g, before, requested, p, t);
        FinishCounts(g, before, p, t);
      }
      p := p';
    }
    DrainedIsReached(g, before, requested, p);
  }

  lemma Bounds<T(!new)>(g: Graph<T>, before: set<T>, requested: multiset<T>, p: Progress<T>)
    requires WellFormed(g) && Justified(g, before, requested, p)
    ensures before <= p.stopped <= g.tasks && p.finishing <= g.tasks
    ensures forall t :: t in p.posted ==> t in g.tasks
  {
  }

  lemma DrainedIsReached<T(!new)>(g: Graph<T>, before: set<T>, requested: multiset<T>, p: Progress<T>)
    requires WellFormed(g) && Justified(g, before, requested, p) && Complete(g, before, requested, p)
    requires p.posted == multiset{} && p.finishing == {} && Counted(before, p)
    ensures forall t :: t in p.stopped <==> t in before || Reached(g, before, requested, t)
    ensures p.onStops == p.fired == multiset(p.stopped - before)
  {
    forall t | Reached(g, before, requested, t) ensures t in p.stopped {
      var chain :| Chain(g, before, requested, chain) && chain[|chain| - 1] == t;
      ChainStopped(g, before, requested, p, chain, |chain| - 1);
    }
  }

  lemma StartIsGood<T(!new)>(g: Graph<T>, before: set<T>, requested: multiset<T>)
    requires WellFormed(g) && before <= g.tasks && forall t :: t in requested ==> t in g.tasks
    ensures var p := Progress(before, requested, {}, multiset{}, multiset{});
      Justified(g, before, requested, p) && Complete(g, before, requested, p) && Counted(before, p)
  {
    forall t | t in requested && t !in before ensures Reached(g, before, requested, t) {
      assert Chain(g, before, requested, [t]) && [t][|[t]| - 1] == t;
    }
  }
}
