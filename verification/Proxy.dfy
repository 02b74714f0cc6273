/** The proxy: gets a second session, serves both in turn, and moves their sockets to a pair
    of linked relays, while every other session goes on. */
module Proxy {
  import opened Wrappers
  import opened SocketHandover

  /** Where `run()` is. `begun`: the session's own `run()` has been entered for the proxy. */
  datatype Stage =
    | Getting
    | FirstWork(second: nat, begun: bool)
    | SecondWork(second: nat, begun: bool)
    | Linked(second: nat, p1: nat, p2: nat)
    | Failed

  /** All sockets and sessions, the proxy's first session, its stage, who is linked to whom,
      and the sockets the two sessions came with. */
  datatype World = World(fleet: Fleet, first: nat, stage: Stage, links: map<nat, nat>, k1: nat, k2: nat)

  datatype Act =
    | Other(step: Step)              // any step of a session or a socket
    | Got(second: Option<nat>)       // the provider's answer; none if it throws or times out
    | Starts                         // the awaited session's task begins
    | Finished(ok: bool)             // and ends, or throws, or times out

  predicate CanAct(w: World, act: Act) {
    match act
    case Other(step) => Enabled(w.fleet, step)
    case Got(second) =>
      && w.stage.Getting? && w.first < |w.fleet.sessions|
      && (second.Some? ==> second.value < |w.fleet.sessions|)
    case Starts =>
      || (w.stage.FirstWork? && !w.stage.begun && Enabled(w.fleet, RunBegins(w.first)))
      || (w.stage.SecondWork? && !w.stage.begun && Enabled(w.fleet, RunBegins(w.stage.second)))
    case Finished(ok) =>
      || (w.stage.FirstWork? && w.stage.second < |w.fleet.sessions| && (ok ==> w.stage.begun && Done(w.fleet, w.first)))
      || (w.stage.SecondWork? && w.first < |w.fleet.sessions| && w.stage.second < |w.fleet.sessions|
          && (ok ==> w.stage.begun && Done(w.fleet, w.stage.second)))
  }

  predicate Done(f: Fleet, s: nat) { s < |f.sessions| && f.sessions[s].life == Ended(true) }

  /** The closure of `co_start` runs; for a session that was started before it throws. */
  function Started(w: World, s: nat, next: Stage): World
    requires Enabled(w.fleet, RunBegins(s))
  {
    w.(fleet := Next(w.fleet, RunBegins(s)), stage := if w.fleet.sessions[s].life == Idle then next else Failed)
  }

  /** A session about to be served: auto-close off, and started. */
  function Armed(f: Fleet, s: nat): Fleet
    requires s < |f.sessions|
  {
    Next(Next(f, SetAutoClose(s, false)), Start(s))
  }

  /** `mutate` to a session that switches auto-close off. */
  function Relay(f: Fleet, s: nat): Fleet
    requires s < |f.sessions|
  {
    Next(Mutated(f, s), SetAutoClose(|f.sessions|, false))
  }

  /** Both sockets move to relays, which are linked and then started. */
  function Link(w: World, second: nat): World
    requires w.first < |w.fleet.sessions| && second < |w.fleet.sessions|
  {
    var p1 := |w.fleet.sessions|;
    w.(fleet := Next(Next(Relay(Relay(w.fleet, w.first), second), Start(p1)), Start(p1 + 1)),
       stage := Linked(second, p1, p1 + 1),
       links := w.links[p1 := p1 + 1][p1 + 1 := p1])
  }

  function Acted(w: World, act: Act): World
    requires CanAct(w, act)
  {
    match act
    case Other(step) => w.(fleet := Next(w.fleet, step))
    case Got(second) =>
      if second.None? then w.(stage := Failed)
      else w.(fleet := Armed(w.fleet, w.first), stage := FirstWork(second.value, false),
              k2 := w.fleet.sessions[second.value].socket)
    case Starts =>
      if w.stage.FirstWork? then Started(w, w.first, FirstWork(w.stage.second, true))
      else Started(w, w.stage.second, SecondWork(w.stage.second, true))
    case Finished(ok) =>
      if !ok then w.(stage := Failed)
      else if w.stage.FirstWork? then
        w.(fleet := Armed(w.fleet, w.stage.second), stage := SecondWork(w.stage.second, false))
      else Link(w, w.stage.second)
  }

  // ----- runs in which nobody else handles the proxy's sessions -----

  /** The step does not close, re-arm or move session `s` from outside. */
  predicate LeavesAlone(step: Step, s: nat) {
    && step != CloseSocket(s)
    && step != Mutate(s)
    && !(step.SetAutoClose? && step.s == s)
  }

  /** A session as its creator hands it out: not started, nothing waiting. */
  predicate Untouched(f: Fleet, s: nat) {
    && s < |f.sessions| && f.sessions[s].socket < |f.sockets|
    && f.sessions[s].life == Idle && f.sessions[s].posted == 0
    && f.sockets[f.sessions[s].socket] == NewSocket
    && (forall c :: c in f.calls ==> c.owner != s && c.socket != f.sessions[s].socket)
  }

  predicate Quiet(w: World, act: Act) {
    match act
    case Other(step) =>
      (match w.stage
       case Getting => LeavesAlone(step, w.first) && step != RunBegins(w.first)
       case FirstWork(second, _) => LeavesAlone(step, w.first) && LeavesAlone(step, second) && step != RunBegins(second)
       case SecondWork(second, _) => LeavesAlone(step, w.first) && LeavesAlone(step, second)
       case Linked(_, p1, p2) => step != Mutate(p1) && step != Mutate(p2)
       case Failed => true)
    case Got(Some(second)) => second != w.first && Untouched(w.fleet, second)
    case Got(None) => true
    case Starts => true
    case Finished(_) => true
  }

  predicate QuietRun(w: World, run: seq<Act>, w': World)
    decreases |run|
  {
    if run == [] then w == w'
    else CanAct(w, run[0]) && Quiet(w, run[0]) && QuietRun(Acted(w, run[0]), run[1..], w')
  }

  predicate Begins(w: World) {
    && Good(w.fleet) && w.stage == Getting && Untouched(w.fleet, w.first)
    && w.k1 == w.fleet.sessions[w.first].socket
  }

  // ----- the proxy's sessions at each stage -----

  predicate OnlyStarts(f: Fleet, s: nat, k: nat) {
    forall c :: c in f.calls && (c.owner == s || c.socket == k) ==> c == StartCall(s, k)
  }

  /** Session `s`, on socket `k`, with auto-close off: nothing will close the socket, and it
      is started once the session is past its start. */
  predicate Served(f: Fleet, s: nat, k: nat) {
    && s < |f.sessions| && k < |f.sockets|
    && f.sessions[s].socket == k && !f.sessions[s].autoClose && f.sessions[s].posted == 0
    && f.sockets[k].state != CLOSED
    && (f.sessions[s].life in {Handshaking, Working, Ended(true)} ==> f.sockets[k].state == STARTED)
    && OnlyStarts(f, s, k)
  }

  predicate OnlyClosedBy(f: Fleet, p: nat, k: nat) {
    forall c :: c in f.calls && c.CloseCall? && c.socket == k ==> c.owner == p
  }

  /** Session `p` owns socket `k`, which was started and which no other session closes. */
  predicate Owns(f: Fleet, p: nat, k: nat) {
    && p < |f.sessions| && k < |f.sockets|
    && f.sessions[p].socket == k && f.sockets[k].state != INITIAL
    && f.sockets[k].closedBy in {None, Some(p)}
    && OnlyClosedBy(f, p, k)
  }

  predicate Kept(w: World) {
    && Good(w.fleet)
    && match w.stage
       case Getting => Untouched(w.fleet, w.first) && w.fleet.sessions[w.first].socket == w.k1
       case FirstWork(second, _) =>
         && second != w.first && Served(w.fleet, w.first, w.k1)
         && Untouched(w.fleet, second) && w.fleet.sessions[second].socket == w.k2
       case SecondWork(second, _) =>
         && second != w.first && Served(w.fleet, w.first, w.k1) && Done(w.fleet, w.first)
         && Served(w.fleet, second, w.k2)
       case Linked(_, p1, p2) =>
         && Owns(w.fleet, p1, w.k1) && Owns(w.fleet, p2, w.k2)
         && p1 in w.links && p2 in w.links && w.links[p1] == p2 && w.links[p2] == p1
       case Failed => true
  }

  lemma UntouchedStays(f: Fleet, step: Step, s: nat)
    requires Good(f) && Untouched(f, s) && Enabled(f, step) && LeavesAlone(step, s) && step != RunBegins(s)
    ensures Untouched(Next(f, step), s) && Next(f, step).sessions[s].socket == f.sessions[s].socket
  {
  }

  lemma ServedStays(f: Fleet, step: Step, s: nat, k: nat)
    requires Good(f) && Served(f, s, k) && Enabled(f, step) && LeavesAlone(step, s)
    ensures Served(Next(f, step), s, k)
    ensures Done(f, s) ==> Done(Next(f, step), s)
    ensures f.sockets[k].state == STARTED ==> Next(f, step).sockets[k].state == STARTED
  {
  }

  lemma OwnsStays(f: Fleet, step: Step, p: nat, k: nat)
    requires Good(f) && Owns(f, p, k) && Enabled(f, step) && step != Mutate(p)
    ensures Owns(Next(f, step), p, k)
  {
  }

  /** With auto-close off, an untouched session is as good as served. */
  lemma AutoCloseOffServes(f: Fleet, s: nat)
    requires Good(f) && Untouched(f, s) && !f.sessions[s].autoClose
    ensures Served(f, s, f.sessions[s].socket)
  {
  }

  lemma ArmedServes(f: Fleet, s: nat)
    requires Good(f) && Untouched(f, s)
    ensures Good(Armed(f, s)) && Served(Armed(f, s), s, f.sessions[s].socket)
  {
    var f' := Next(f, SetAutoClose(s, false));
    StepKeepsGood(f, SetAutoClose(s, false));
    StepKeepsGood(f', Start(s));
    assert Untouched(f', s);
    AutoCloseOffServes(f', s);
    ServedStays(f', Start(s), s, f.sessions[s].socket);
  }

  lemma ArmedKeepsUntouched(f: Fleet, s: nat, t: nat)
    requires Good(f) && s < |f.sessions| && s != t && Untouched(f, t)
    ensures Untouched(Armed(f, s), t) && Armed(f, s).sessions[t] == f.sessions[t]
  {
    StepKeepsGood(f, SetAutoClose(s, false));
    UntouchedStays(f, SetAutoClose(s, false), t);
    UntouchedStays(Next(f, SetAutoClose(s, false)), Start(s), t);
  }

  lemma ArmedKeepsServed(f: Fleet, s: nat, t: nat, k: nat)
    requires Good(f) && s < |f.sessions| && s != t && Served(f, t, k)
    ensures Served(Armed(f, s), t, k) && (Done(f, t) ==> Done(Armed(f, s), t))
  {
    StepKeepsGood(f, SetAutoClose(s, false));
    ServedStays(f, SetAutoClose(s, false), t, k);
    ServedStays(Next(f, SetAutoClose(s, false)), Start(s), t, k);
  }

  lemma RelayOwns(f: Fleet, s: nat, k: nat)
    requires Good(f) && Served(f, s, k) && Done(f, s)
    ensures Good(Relay(f, s)) && Owns(Relay(f, s), |f.sessions|, k)
  {
    StepKeepsGood(f, Mutate(s));
    StepKeepsGood(Mutated(f, s), SetAutoClose(|f.sessions|, false));
  }

  lemma RelayKeepsServed(f: Fleet, s: nat, t: nat, k: nat)
    requires Good(f) && Served(f, t, k) && Done(f, t) && s != t && s < |f.sessions|
    ensures Served(Relay(f, s), t, k) && Done(Relay(f, s), t)
  {
    ServedStays(f, Mutate(s), t, k);
    StepKeepsGood(f, Mutate(s));
    ServedStays(Mutated(f, s), SetAutoClose(|f.sessions|, false), t, k);
  }

  lemma RelayKeepsOwns(f: Fleet, s: nat, p: nat, k: nat)
    requires Good(f) && Owns(f, p, k) && s != p && s < |f.sessions|
    ensures Owns(Relay(f, s), p, k)
  {
    OwnsStays(f, Mutate(s), p, k);
    StepKeepsGood(f, Mutate(s));
    OwnsStays(Mutated(f, s), SetAutoClose(|f.sessions|, false), p, k);
  }

  lemma LinkKeepsKept(w: World, second: nat)
    requires Good(w.fleet) && second != w.first
    requires Served(w.fleet, w.first, w.k1) && Done(w.fleet, w.first)
    requires Served(w.fleet, second, w.k2) && Done(w.fleet, second)
    ensures Kept(Link(w, second))
  {
    var n := |w.fleet.sessions|;
    RelaysOwn(w, second);
    var f := Relay(Relay(w.fleet, w.first), second);
    hide Good, Owns, Served, LeavesAlone, Relay, Next;
    StepKeepsGood(f, Start(n));
    OwnsStays(f, Start(n), n, w.k1);
    OwnsStays(f, Start(n), n + 1, w.k2);
    var f' := Next(f, Start(n));
    StepKeepsGood(f', Start(n + 1));
    OwnsStays(f', Start(n + 1), n, w.k1);
    OwnsStays(f', Start(n + 1), n + 1, w.k2);
  }

  /** The relays come with auto-close off and a start posted. */
  lemma LinkStartsBoth(w: World, second: nat)
    requires w.first < |w.fleet.sessions| && second < |w.fleet.sessions| && second != w.first
    ensures var f, n := Link(w, second).fleet, |w.fleet.sessions|;
      && f.sessions[n] == NewSession(w.fleet.sessions[w.first].socket).(autoClose := false, starts := 1)
      && f.sessions[n + 1] == NewSession(w.fleet.sessions[second].socket).(autoClose := false, starts := 1)
  {
  }

  lemma RelaysOwn(w: World, second: nat)
    requires Good(w.fleet) && second != w.first
    requires Served(w.fleet, w.first, w.k1) && Done(w.fleet, w.first)
    requires Served(w.fleet, second, w.k2) && Done(w.fleet, second)
    ensures var f, n := Relay(Relay(w.fleet, w.first), second), |w.fleet.sessions|;
      |f.sessions| == n + 2 && Good(f) && Owns(f, n, w.k1) && Owns(f, n + 1, w.k2)
  {
    hide Good, Owns, Served, LeavesAlone;
    var f, n := w.fleet, |w.fleet.sessions|;
    RelayOwns(f, w.first, w.k1);
    RelayKeepsServed(f, w.first, second, w.k2);
    RelayOwns(Relay(f, w.first), second, w.k2);
    RelayKeepsOwns(Relay(f, w.first), second, n, w.k1);
  }

  lemma OtherKeepsKept(w: World, step: Step)
    requires Kept(w) && Enabled(w.fleet, step) && Quiet(w, Other(step))
    ensures Kept(Acted(w, Other(step)))
  {
    hide Good, Owns, Served, Untouched, LeavesAlone, Next, Enabled, Done;
    StepKeepsGood(w.fleet, step);
    match w.stage
    case Getting => UntouchedStays(w.fleet, step, w.first);
    case FirstWork(second, _) =>
      ServedStays(w.fleet, step, w.first, w.k1);
      UntouchedStays(w.fleet, step, second);
    case SecondWork(second, _) =>
      ServedStays(w.fleet, step, w.first, w.k1);
      ServedStays(w.fleet, step, second, w.k2);
    case Linked(_, p1, p2) =>
      OwnsStays(w.fleet, step, p1, w.k1);
      OwnsStays(w.fleet, step, p2, w.k2);
    case Failed =>
  }

  lemma StartsKeepsKept(w: World)
    requires Kept(w) && CanAct(w, Starts)
    ensures Kept(Acted(w, Starts))
  {
    if w.stage.FirstWork? {
      StepKeepsGood(w.fleet, RunBegins(w.first));
      ServedStays(w.fleet, RunBegins(w.first), w.first, w.k1);
      UntouchedStays(w.fleet, RunBegins(w.first), w.stage.second);
    } else {
      StepKeepsGood(w.fleet, RunBegins(w.stage.second));
      ServedStays(w.fleet, RunBegins(w.stage.second), w.first, w.k1);
      ServedStays(w.fleet, RunBegins(w.stage.second), w.stage.second, w.k2);
    }
  }

  lemma ActKeepsKept(w: World, act: Act)
    requires Kept(w) && CanAct(w, act) && Quiet(w, act)
    ensures Kept(Acted(w, act))
  {
    hide Good, Served, Owns, LeavesAlone, Armed;
    match act
    case Other(step) => OtherKeepsKept(w, step);
    case Got(None) =>
    case Got(Some(second)) =>
      ArmedServes(w.fleet, w.first);
      ArmedKeepsUntouched(w.fleet, w.first, second);
    case Starts => StartsKeepsKept(w);
    case Finished(ok) =>
      if ok && w.stage.FirstWork? {
        ArmedServes(w.fleet, w.stage.second);
        ArmedKeepsServed(w.fleet, w.stage.second, w.first, w.k1);
      } else if ok {
        LinkKeepsKept(w, w.stage.second);
      }
  }

  lemma {:induction false} QuietRunKeepsKept(w: World, run: seq<Act>, w': World)
    requires Kept(w) && QuietRun(w, run, w')
    ensures Kept(w') && w'.k1 == w.k1
    decreases |run|
  {
    if run != [] {
      ActKeepsKept(w, run[0]);
      QuietRunKeepsKept(Acted(w, run[0]), run[1..], w');
    }
  }

  // ----- main results -----

  /** Whenever the proxy has linked its pair, and at every later time, each relay owns the
      connection one of the two sessions came with; it was started once, and if it was
      closed, then by the relay that owns it; and the relays are linked both ways. */
  lemma LinkedPairOwnsConnections(w: World, run: seq<Act>, w': World)
    requires Begins(w) && QuietRun(w, run, w') && w'.stage.Linked?
    ensures w'.stage.p1 < |w'.fleet.sessions| && w'.fleet.sessions[w'.stage.p1].socket == w.k1 < |w'.fleet.sockets|
    ensures w'.stage.p2 < |w'.fleet.sessions| && w'.fleet.sessions[w'.stage.p2].socket == w'.k2 < |w'.fleet.sockets|
    ensures w'.fleet.sockets[w.k1].starts == 1 && w'.fleet.sockets[w.k1].closedBy in {None, Some(w'.stage.p1)}
    ensures w'.fleet.sockets[w'.k2].starts == 1 && w'.fleet.sockets[w'.k2].closedBy in {None, Some(w'.stage.p2)}
    ensures w'.links.Items >= {(w'.stage.p1, w'.stage.p2), (w'.stage.p2, w'.stage.p1)}
  {
    QuietRunKeepsKept(w, run, w');
  }

  /** A run of sessions and sockets that does not close, re-arm or move session `s`. */
  predicate RunLeavesAlone(run: seq<Step>, s: nat) {
    forall i: nat :: i < |run| ==> LeavesAlone(run[i], s)
  }

  lemma {:induction false} ServedStaysOpen(f: Fleet, run: seq<Step>, f': Fleet, s: nat, k: nat)
    requires Good(f) && Served(f, s, k) && Runs(f, run, f') && RunLeavesAlone(run, s)
    ensures Served(f', s, k) && (f.sockets[k].state == STARTED ==> f'.sockets[k].state == STARTED)
    decreases |run|
  {
    if run != [] {
      StepKeepsGood(f, run[0]);
      assert LeavesAlone(run[0], s);
      ServedStays(f, run[0], s, k);
      assert forall i: nat :: i < |run[1..]| ==> run[1..][i] == run[i + 1];
      ServedStaysOpen(Next(f, run[0]), run[1..], f', s, k);
    }
  }

  ghost predicate CanClose(f: Fleet, s: nat, k: nat) {
    exists later, f' :: Closes(f, s, k, later, f')
  }

  /** The run closes socket `k`, and nobody handles session `s` from outside in it. */
  predicate Closes(f: Fleet, s: nat, k: nat, later: seq<Step>, f': Fleet) {
    Runs(f, later, f') && RunLeavesAlone(later, s) && k < |f'.sockets| && f'.sockets[k].closes > 0
  }

  /** Once a session is served with auto-close off nothing closes its socket. */
  lemma ServedIsNotClosed(f: Fleet, s: nat, k: nat)
    requires Good(f) && Served(f, s, k)
    ensures !CanClose(f, s, k)
  {
    forall later, f' | Runs(f, later, f') && RunLeavesAlone(later, s)
      ensures !Closes(f, s, k, later, f')
    {
      ServedStaysOpen(f, later, f', s, k);
      RunKeepsGood(f, later, f');
      assert Orderly(f'.sockets[k]);
    }
  }

  /** A step that fails the proxy. */
  predicate Fails(w: World, act: Act) {
    CanAct(w, act) && w.stage != Failed && Acted(w, act).stage == Failed
  }

  /** Main result on failures, for the first session: whatever fails the proxy, its connection
      can still be closed in some later run exactly if the proxy was getting the second one
      and the session came with auto-close on. Later the proxy has switched that off. */
  lemma FailureLeavesFirstOpenIff(w: World, run: seq<Act>, w': World, act: Act)
    requires Begins(w) && QuietRun(w, run, w') && Fails(w', act)
    ensures CanClose(Acted(w', act).fleet, w.first, w.k1) <==> w'.stage.Getting? && w.fleet.sessions[w.first].autoClose
  {
    QuietRunKeepsKept(w, run, w');
    FirstStays(w, run, w');
    hide Good, Served, Untouched;
    if w'.stage.Getting? {
      AutoCloseStays(w, run, w');
      UntouchedClosesIff(w'.fleet, w.first);
    } else {
      FailedIsServed(w', act);
      ServedIsNotClosed(Acted(w', act).fleet, w.first, w.k1);
    }
  }

  /** For the second session: it can be closed exactly if the proxy failed while it served
      the first one, and the second came with auto-close on. */
  lemma FailureLeavesSecondOpenIff(w: World, run: seq<Act>, w': World, act: Act)
    requires Begins(w) && QuietRun(w, run, w') && Fails(w', act) && (w'.stage.FirstWork? || w'.stage.SecondWork?)
    ensures var second := w'.stage.second;
      second < |w'.fleet.sessions| && (CanClose(Acted(w', act).fleet, second, w'.k2)
        <==> w'.stage.FirstWork? && w'.fleet.sessions[second].autoClose)
  {
    QuietRunKeepsKept(w, run, w');
    var second := w'.stage.second;
    FailedIsServed(w', act);
    if w'.stage.FirstWork? {
      UntouchedClosesIff(Acted(w', act).fleet, second);
    } else {
      ServedIsNotClosed(Acted(w', act).fleet, second, w'.k2);
    }
  }

  /** What a failure leaves behind. */
  lemma FailedIsServed(w: World, act: Act)
    requires Kept(w) && Fails(w, act)
    ensures Good(Acted(w, act).fleet)
    ensures !w.stage.Getting? ==> Served(Acted(w, act).fleet, w.first, w.k1)
    ensures w.stage.SecondWork? ==> Served(Acted(w, act).fleet, w.stage.second, w.k2)
    ensures w.stage.FirstWork? ==> Untouched(Acted(w, act).fleet, w.stage.second)
    ensures w.stage.FirstWork? ==> Acted(w, act).fleet.sessions[w.stage.second] == w.fleet.sessions[w.stage.second]
  {
    if act == Starts {
      var s := if w.stage.FirstWork? then w.first else w.stage.second;
      StepKeepsGood(w.fleet, RunBegins(s));
      ServedStays(w.fleet, RunBegins(s), w.first, w.k1);
      if w.stage.FirstWork? {
        UntouchedStays(w.fleet, RunBegins(s), w.stage.second);
      } else {
        ServedStays(w.fleet, RunBegins(s), w.stage.second, w.k2);
      }
    }
  }

  lemma {:induction false} AutoCloseStays(w: World, run: seq<Act>, w': World)
    requires QuietRun(w, run, w') && w.first < |w.fleet.sessions|
    ensures w'.first == w.first < |w'.fleet.sessions|
    ensures w'.stage.Getting? ==> w.stage.Getting? && w'.fleet.sessions[w.first].autoClose == w.fleet.sessions[w.first].autoClose
    decreases |run|
  {
    if run != [] {
      AutoCloseStaysOnce(w, run[0]);
      AutoCloseStays(Acted(w, run[0]), run[1..], w');
    }
  }

  lemma AutoCloseStaysOnce(w: World, act: Act)
    requires CanAct(w, act) && Quiet(w, act) && w.first < |w.fleet.sessions|
    ensures var w' := Acted(w, act);
      && w'.first == w.first < |w'.fleet.sessions|
      && (w'.stage.Getting? ==> w.stage.Getting? && w'.fleet.sessions[w.first].autoClose == w.fleet.sessions[w.first].autoClose)
  {
  }

  /** A connection that is open when the proxy fails stays open for good. */
  lemma OpenConnectionStaysOpen(w: World, run: seq<Act>, w': World, act: Act, later: seq<Step>, f': Fleet)
    requires Begins(w) && QuietRun(w, run, w') && Fails(w', act) && !w'.stage.Getting?
    requires Runs(Acted(w', act).fleet, later, f') && RunLeavesAlone(later, w.first)
    ensures w.k1 < |w'.fleet.sockets| && w.k1 < |f'.sockets|
    ensures w'.fleet.sockets[w.k1].state == STARTED ==> f'.sockets[w.k1].state == STARTED
  {
    QuietRunKeepsKept(w, run, w');
    FirstStays(w, run, w');
    FailedIsServed(w', act);
    ServedStaysOpen(Acted(w', act).fleet, later, f', w.first, w.k1);
  }

  lemma {:induction false} FirstStays(w: World, run: seq<Act>, w': World)
    requires QuietRun(w, run, w')
    ensures w'.first == w.first
    decreases |run|
  {
    if run != [] {
      FirstStays(Acted(w, run[0]), run[1..], w');
    }
  }

  // ----- an untouched session closes itself -----

  /** Session `s`, its socket and all bound calls are just so. */
  predicate At(f: Fleet, s: nat, v: Sess, sock: Sock, calls: seq<Call>) {
    && s < |f.sessions| && f.sessions[s] == v && v.socket < |f.sockets|
    && f.sockets[v.socket] == sock && f.calls == calls
  }

  lemma CloseBackwards(f: Fleet, s: nat, k: nat, step: Step)
    requires Enabled(f, step) && LeavesAlone(step, s) && CanClose(Next(f, step), s, k)
    ensures CanClose(f, s, k)
  {
    var later, f' :| Closes(Next(f, step), s, k, later, f');
    SocketHandover.StepThenRun(f, step, later, f');
    assert forall i: nat :: 0 < i <= |later| ==> ([step] + later)[i] == later[i - 1];
    assert Closes(f, s, k, [step] + later, f');
  }

  /** A bound close of a started socket begins. */
  lemma BoundCloses(f: Fleet, s: nat, v: Sess, sock: Sock, calls: seq<Call>)
    requires At(f, s, v, sock, calls + [CloseCall(s, v.socket)]) && sock.state == STARTED
    ensures CanClose(f, s, v.socket)
  {
    var step := Begin(|calls|);
    var f' := Next(f, step);
    assert Closes(f', s, v.socket, [], f');
    CloseBackwards(f, s, v.socket, step);
  }

  /** The session's `work()` ends with auto-close on. */
  lemma WorkingCloses(f: Fleet, s: nat, v: Sess, sock: Sock, calls: seq<Call>)
    requires At(f, s, v, sock, calls) && v.life == Working && v.autoClose && sock.state == STARTED
    ensures CanClose(f, s, v.socket)
  {
    var f1 := Next(f, WorkEnds(s, true));
    var f2 := Next(f1, RunClose(s));
    BoundCloses(f2, s, f2.sessions[s], sock, calls);
    CloseBackwards(f1, s, v.socket, RunClose(s));
    CloseBackwards(f, s, v.socket, WorkEnds(s, true));
  }

  /** The start call of a session on a new socket is bound. */
  lemma StartingCloses(f: Fleet, s: nat, v: Sess, calls: seq<Call>)
    requires At(f, s, v, NewSocket, calls + [StartCall(s, v.socket)]) && v.life == Starting && v.autoClose
    requires forall c :: c in calls ==> KnownTo(f, c)
    ensures CanClose(f, s, v.socket)
  {
    var f1 := Next(f, Begin(|calls|));
    assert f1.calls == calls;
    var f2 := Next(f1, StartEnds(s, true));
    WorkingCloses(f2, s, f2.sessions[s], CoStarted(NewSocket), calls);
    CloseBackwards(f1, s, v.socket, StartEnds(s, true));
    CloseBackwards(f, s, v.socket, Begin(|calls|));
  }

  lemma UntouchedCloses(f: Fleet, s: nat)
    requires Good(f) && Untouched(f, s) && f.sessions[s].autoClose
    ensures CanClose(f, s, f.sessions[s].socket)
  {
    var v, k := f.sessions[s], f.sessions[s].socket;
    var f1 := Next(f, Start(s));
    var f2 := Next(f1, RunBegins(s));
    var f3 := Next(f2, PrepareEnds(s, true));
    StartingCloses(f3, s, f3.sessions[s], f.calls);
    CloseBackwards(f2, s, k, PrepareEnds(s, true));
    CloseBackwards(f1, s, k, RunBegins(s));
    CloseBackwards(f, s, k, Start(s));
  }

  /** A session as its creator hands it out can be closed exactly if auto-close is on. */
  lemma UntouchedClosesIff(f: Fleet, s: nat)
    requires Good(f) && Untouched(f, s)
    ensures CanClose(f, s, f.sessions[s].socket) <==> f.sessions[s].autoClose
  {
    if f.sessions[s].autoClose {
      UntouchedCloses(f, s);
    } else {
      AutoCloseOffServes(f, s);
      ServedIsNotClosed(f, s, f.sessions[s].socket);
    }
  }

  /** Auto-close can be switched off and on again before the session is started. */
  lemma RearmedClosesIff(f: Fleet, s: nat, on: bool)
    requires Good(f) && Untouched(f, s)
    ensures CanClose(Next(f, SetAutoClose(s, on)), s, f.sessions[s].socket) <==> on
  {
    StepKeepsGood(f, SetAutoClose(s, on));
    UntouchedClosesIff(Next(f, SetAutoClose(s, on)), s);
  }

  /** A close that was posted can reach the session's socket. */
  lemma PostedCloses(f: Fleet, s: nat)
    requires Good(f) && s < |f.sessions| && f.sessions[s].posted > 0
    requires f.sockets[f.sessions[s].socket].state == STARTED
    ensures CanClose(f, s, f.sessions[s].socket)
  {
    var f' := Next(f, RunClose(s));
    BoundCloses(f', s, f'.sessions[s], f.sockets[f.sessions[s].socket], f.calls);
    CloseBackwards(f, s, f.sessions[s].socket, RunClose(s));
  }

  /** The step ends the session's `run()`, in success or not. */
  predicate EndsRun(f: Fleet, s: nat, step: Step) {
    && Enabled(f, step)
    && (step == PrepareEnds(s, false) || step == StartEnds(s, false) || step == WorkEnds(s, true) || step == WorkEnds(s, false))
  }

  /** However `run()` ends, with auto-close on the started socket can be closed then. */
  lemma EveryEndCloses(f: Fleet, s: nat, step: Step)
    requires Good(f) && EndsRun(f, s, step) && f.sessions[s].autoClose
    requires f.sockets[f.sessions[s].socket].state == STARTED
    ensures CanClose(Next(f, step), s, f.sessions[s].socket)
  {
    StepKeepsGood(f, step);
    PostedCloses(Next(f, step), s);
  }

  /** And if no other close is on its way, exactly then. */
  lemma EndClosesIff(f: Fleet, s: nat, step: Step)
    requires Good(f) && EndsRun(f, s, step) && f.sockets[f.sessions[s].socket].state == STARTED
    requires f.sessions[s].posted == 0 && OnlyStarts(f, s, f.sessions[s].socket)
    ensures CanClose(Next(f, step), s, f.sessions[s].socket) <==> f.sessions[s].autoClose
  {
    if f.sessions[s].autoClose {
      EveryEndCloses(f, s, step);
    } else {
      StepKeepsGood(f, step);
      ServedIsNotClosed(Next(f, step), s, f.sessions[s].socket);
    }
  }

  /** A session that was asked to close a started socket can. */
  lemma CloseRequestCloses(f: Fleet, s: nat)
    requires Good(f) && s < |f.sessions| && f.sockets[f.sessions[s].socket].state == STARTED
    ensures CanClose(Next(f, CloseSocket(s)), s, f.sessions[s].socket)
  {
    StepKeepsGood(f, CloseSocket(s));
    PostedCloses(Next(f, CloseSocket(s)), s);
  }

  /** So can one that just connected, when it is over: its auto-close is on. */
  lemma ConnectedCloses(f: Fleet)
    requires Good(f)
    ensures CanClose(Next(f, Connect), |f.sessions|, |f.sockets|)
  {
    var f' := Next(f, Connect);
    StepKeepsGood(f, Connect);
    assert forall c :: c in f.calls ==> KnownTo(f, c);
    UntouchedCloses(f', |f.sessions|);
  }

  // ----- when the proxy fails -----

  /** The session awaited. */
  function Awaited(w: World): nat {
    match w.stage
    case FirstWork(_, _) => w.first
    case SecondWork(second, _) => second
    case _ => 0
  }

  /** A proxy fails exactly without a second session, when a session's work fails or times
      out, or when a session it starts was started before; and it stays failed. */
  lemma FailsExactly(w: World, act: Act)
    requires CanAct(w, act)
    ensures Acted(w, act).stage == Failed <==> w.stage == Failed || act == Got(None) || act == Finished(false) || (act == Starts && w.fleet.sessions[Awaited(w)].life != Idle)
  {
  }

  /** It links exactly when the second session's work has succeeded, after the first's. */
  lemma {:induction false} LinksExactly(w: World, run: seq<Act>, w': World)
    requires w.stage == Getting && QuietRun(w, run, w')
    ensures w'.stage.Linked? <==> Successes(run) == 2
    ensures w'.stage.SecondWork? ==> Successes(run) == 1
    ensures w'.stage.FirstWork? || w'.stage.Getting? ==> Successes(run) == 0
  {
    SuccessesCounted(w, run, w', 0);
  }

  function Successes(run: seq<Act>): nat {
    if run == [] then 0 else (if run[0] == Finished(true) then 1 else 0) + Successes(run[1..])
  }

  predicate Counts(stage: Stage, n: nat) {
    match stage
    case Getting => n == 0
    case FirstWork(_, _) => n == 0
    case SecondWork(_, _) => n == 1
    case Linked(_, _, _) => n == 2
    case Failed => n < 2
  }

  lemma {:induction false} SuccessesCounted(w: World, run: seq<Act>, w': World, n: nat)
    requires QuietRun(w, run, w') && Counts(w.stage, n)
    ensures Counts(w'.stage, n + Successes(run))
    decreases |run|
  {
    if run != [] {
      ActCounts(w, run[0], n);
      SuccessesCounted(Acted(w, run[0]), run[1..], w', n + if run[0] == Finished(true) then 1 else 0);
    }
  }

  lemma ActCounts(w: World, act: Act, n: nat)
    requires CanAct(w, act) && Counts(w.stage, n)
    ensures Counts(Acted(w, act).stage, n + if act == Finished(true) then 1 else 0)
  {
  }

  // ----- only sessions that worked are linked -----

  lemma DoneComesFromWork(f: Fleet, step: Step, s: nat)
    requires Enabled(f, step) && Done(Next(f, step), s)
    ensures Done(f, s) || step == WorkEnds(s, true)
  {
  }

  lemma DoneStays(f: Fleet, step: Step, s: nat)
    requires Enabled(f, step) && Done(f, s)
    ensures Done(Next(f, step), s)
  {
    EndedStays(f, step, s);
  }

  /** What an act other than a step of a session makes of the sessions served. */
  lemma ActLeavesDone(w: World, act: Act, s: nat)
    requires CanAct(w, act) && !act.Other?
    ensures Done(Acted(w, act).fleet, s) <==> Done(w.fleet, s)
  {
  }

  lemma {:induction false} DoneInRun(w: World, run: seq<Act>, w': World, s: nat)
    requires QuietRun(w, run, w') && !Done(w.fleet, s) && Done(w'.fleet, s)
    ensures Other(WorkEnds(s, true)) in run
    decreases |run|
  {
    assert run != [];
    var next := Acted(w, run[0]);
    if run[0].Other? && run[0].step == WorkEnds(s, true) {
      assert run[0] in run;
    } else {
      if Done(next.fleet, s) {
        if run[0].Other? { DoneComesFromWork(w.fleet, run[0].step, s); } else { ActLeavesDone(w, run[0], s); }
      }
      DoneInRun(next, run[1..], w', s);
    }
  }

  /** The sessions a stage counts as served are done. */
  predicate StageDone(w: World) {
    match w.stage
    case SecondWork(_, _) => Done(w.fleet, w.first)
    case Linked(second, _, _) => Done(w.fleet, w.first) && Done(w.fleet, second)
    case _ => true
  }

  lemma ActKeepsStageDone(w: World, act: Act)
    requires StageDone(w) && CanAct(w, act)
    ensures StageDone(Acted(w, act))
  {
    hide Done;
    var w' := Acted(w, act);
    if act.Other? {
      if w.stage.SecondWork? || w.stage.Linked? { DoneStays(w.fleet, act.step, w.first); }
      if w.stage.Linked? { DoneStays(w.fleet, act.step, w.stage.second); }
    } else {
      ActLeavesDone(w, act, w.first);
      if w'.stage.Linked? { ActLeavesDone(w, act, w'.stage.second); }
    }
  }

  lemma {:induction false} RunKeepsStageDone(w: World, run: seq<Act>, w': World)
    requires StageDone(w) && QuietRun(w, run, w')
    ensures StageDone(w') && w'.first == w.first
    decreases |run|
  {
    if run != [] {
      ActKeepsStageDone(w, run[0]);
      RunKeepsStageDone(Acted(w, run[0]), run[1..], w');
    }
  }

  function SecondOf(stage: Stage): Option<nat> {
    match stage
    case Getting => None
    case FirstWork(second, _) => Some(second)
    case SecondWork(second, _) => Some(second)
    case Linked(second, _, _) => Some(second)
    case Failed => None
  }

  /** The second session was not done when the proxy got it, and stays the second. */
  lemma {:induction false} SecondWorksInRun(w: World, run: seq<Act>, w': World)
    requires w.stage.Getting? && QuietRun(w, run, w') && w'.stage.Linked? && Done(w'.fleet, w'.stage.second)
    ensures Other(WorkEnds(w'.stage.second, true)) in run
    decreases |run|
  {
    assert run != [];
    var next := Acted(w, run[0]);
    if next.stage.Getting? {
      SecondWorksInRun(next, run[1..], w');
    } else if next.stage.FirstWork? {
      SecondStays(next, run[1..], w');
      ActLeavesDone(w, run[0], w'.stage.second);
      DoneInRun(next, run[1..], w', w'.stage.second);
    } else {
      FailedStays(next, run[1..], w');
    }
  }

  lemma {:induction false} SecondStays(w: World, run: seq<Act>, w': World)
    requires QuietRun(w, run, w') && SecondOf(w.stage).Some? && w'.stage != Failed
    ensures SecondOf(w'.stage) == SecondOf(w.stage)
    decreases |run|
  {
    if run != [] {
      if Acted(w, run[0]).stage == Failed {
        FailedStays(Acted(w, run[0]), run[1..], w');
      } else {
        SecondStays(Acted(w, run[0]), run[1..], w');
      }
    }
  }

  lemma {:induction false} FailedStays(w: World, run: seq<Act>, w': World)
    requires QuietRun(w, run, w') && w.stage == Failed
    ensures w'.stage == Failed
    decreases |run|
  {
    if run != [] {
      FailedStays(Acted(w, run[0]), run[1..], w');
    }
  }

  /** A pair is linked only after the work of both sessions has succeeded. */
  lemma LinkedSessionsWorked(w: World, run: seq<Act>, w': World)
    requires Begins(w) && QuietRun(w, run, w') && w'.stage.Linked?
    ensures Other(WorkEnds(w.first, true)) in run && Other(WorkEnds(w'.stage.second, true)) in run
  {
    RunKeepsStageDone(w, run, w');
    DoneInRun(w, run, w', w.first);
    SecondWorksInRun(w, run, w');
  }

  // ----- the later stages can be reached -----

  ghost predicate CanReach(w: World, goal: World -> bool) {
    exists run, w' :: QuietRun(w, run, w') && goal(w')
  }

  predicate IsLinked(w: World) { w.stage.Linked? }

  /** The first session has been served, or both have and the second awaited. */
  predicate IsFirstServed(w: World) { w.stage.FirstWork? && w.stage.begun && Done(w.fleet, w.first) }

  predicate IsSecondAwaited(w: World) { w.stage.SecondWork? }

  lemma Reached(w: World, goal: World -> bool)
    requires goal(w)
    ensures CanReach(w, goal)
  {
    assert QuietRun(w, [], w);
  }

  lemma Backwards(w: World, act: Act, goal: World -> bool)
    requires CanAct(w, act) && Quiet(w, act) && CanReach(Acted(w, act), goal)
    ensures CanReach(w, goal)
  {
    var run, w' :| QuietRun(Acted(w, act), run, w') && goal(w');
    assert ([act] + run)[1..] == run;
    assert QuietRun(w, [act] + run, w');
  }

  predicate Serves(w: World, s: nat) {
    && s < |w.fleet.sessions| && w.fleet.sessions[s].socket < |w.fleet.sockets|
    && w.fleet.sessions[s].life == Idle && w.fleet.sessions[s].starts > 0
    && ((w.stage.FirstWork? && s == w.first && s != w.stage.second) || (w.stage.SecondWork? && s == w.stage.second))
    && !w.stage.begun && w.first < |w.fleet.sessions| && w.stage.second < |w.fleet.sessions|
  }

  function Entered(stage: Stage): Stage {
    match stage
    case FirstWork(second, _) => FirstWork(second, true)
    case SecondWork(second, _) => SecondWork(second, true)
    case _ => stage
  }

  /** `w'` is `w` after some of the awaited session's `run()`. */
  predicate Serving(w: World, w': World, s: nat, life: Life, calls: seq<Call>) {
    && w'.first == w.first && w'.stage == Entered(w.stage)
    && |w'.fleet.sessions| == |w.fleet.sessions| && |w'.fleet.sockets| == |w.fleet.sockets|
    && s < |w.fleet.sessions| && w'.fleet.sessions[s].life == life
    && w'.fleet.sessions[s].socket == w.fleet.sessions[s].socket
    && w'.fleet.calls == calls
    && (forall t: nat :: t < |w.fleet.sessions| && t != s ==> w'.fleet.sessions[t] == w.fleet.sessions[t])
  }

  predicate IsServed(w: World, w': World, s: nat) {
    Serving(w, w', s, Ended(true), w.fleet.calls)
  }

  lemma ServingGoesOn(w: World, w': World, s: nat, step: Step, life: Life, calls: seq<Call>, goal: World -> bool)
    requires Serves(w, s) && Enabled(w'.fleet, step) && w'.stage == Entered(w.stage)
    requires step.PrepareEnds? || step.Begin? || step.StartEnds? || step.WorkEnds?
    requires Serving(w, Acted(w', Other(step)), s, life, calls) && CanReach(Acted(w', Other(step)), goal)
    ensures CanReach(w', goal)
  {
    Backwards(w', Other(step), goal);
  }

  /** What is reached from every state in which the awaited session is served is reached. */
  lemma ServedThenReached(w: World, s: nat, goal: World -> bool)
    requires Serves(w, s)
    requires forall w' :: IsServed(w, w', s) ==> CanReach(w', goal)
    ensures CanReach(w, goal)
  {
    hide CanReach, QuietRun;
    var call := StartCall(s, w.fleet.sessions[s].socket);
    var w1 := Acted(w, Starts);
    var w2 := Acted(w1, Other(PrepareEnds(s, true)));
    assert Serving(w, w2, s, Starting, w.fleet.calls + [call]);
    StartedThenReached(w, w2, s, goal);
    ServingGoesOn(w, w1, s, PrepareEnds(s, true), Starting, w.fleet.calls + [call], goal);
    Backwards(w, Starts, goal);
  }

  lemma StartedThenReached(w: World, w2: World, s: nat, goal: World -> bool)
    requires Serves(w, s) && Serving(w, w2, s, Starting, w.fleet.calls + [StartCall(s, w.fleet.sessions[s].socket)])
    requires forall w' :: IsServed(w, w', s) ==> CanReach(w', goal)
    ensures CanReach(w2, goal)
  {
    hide CanReach, QuietRun;
    var i := |w.fleet.calls|;
    var w3 := Acted(w2, Other(Begin(i)));
    assert w3.fleet.calls == w.fleet.calls;
    assert Serving(w, w3, s, Handshaking, w.fleet.calls);
    HandshakingThenReached(w, w3, s, goal);
    ServingGoesOn(w, w2, s, Begin(i), Handshaking, w.fleet.calls, goal);
  }

  lemma HandshakingThenReached(w: World, w3: World, s: nat, goal: World -> bool)
    requires Serves(w, s) && Serving(w, w3, s, Handshaking, w.fleet.calls)
    requires forall w' :: IsServed(w, w', s) ==> CanReach(w', goal)
    ensures CanReach(w3, goal)
  {
    hide CanReach, QuietRun;
    var w4 := Acted(w3, Other(StartEnds(s, true)));
    var w5 := Acted(w4, Other(WorkEnds(s, true)));
    assert IsServed(w, w5, s);
    ServingGoesOn(w, w4, s, WorkEnds(s, true), Ended(true), w.fleet.calls, goal);
    ServingGoesOn(w, w3, s, StartEnds(s, true), Working, w.fleet.calls, goal);
  }

  /** From every beginning, with any untouched second session, some run serves the first,
      some run comes to the second, and some run links a pair. */
  lemma EveryProxyCanLink(w: World, second: nat)
    requires Begins(w) && second != w.first && Untouched(w.fleet, second)
    ensures CanReach(w, IsFirstServed) && CanReach(w, IsSecondAwaited) && CanReach(w, IsLinked)
  {
    var w1 := Acted(w, Got(Some(second)));
    hide CanReach;
    forall w2 | IsServed(w1, w2, w.first)
      ensures CanReach(w2, IsFirstServed) && CanReach(w2, IsSecondAwaited) && CanReach(w2, IsLinked)
    {
      FirstServedReaches(w1, w2, second);
    }
    ServedThenReached(w1, w.first, IsFirstServed);
    ServedThenReached(w1, w.first, IsSecondAwaited);
    ServedThenReached(w1, w.first, IsLinked);
    Backwards(w, Got(Some(second)), IsFirstServed);
    Backwards(w, Got(Some(second)), IsSecondAwaited);
    Backwards(w, Got(Some(second)), IsLinked);
  }

  lemma FirstServedReaches(w1: World, w2: World, second: nat)
    requires w1.stage == FirstWork(second, false) && w1.first < |w1.fleet.sessions| && w1.first != second
    requires second < |w1.fleet.sessions| && w1.fleet.sessions[second].socket < |w1.fleet.sockets|
    requires w1.fleet.sessions[second].life == Idle && IsServed(w1, w2, w1.first)
    ensures CanReach(w2, IsFirstServed) && CanReach(w2, IsSecondAwaited) && CanReach(w2, IsLinked)
  {
    hide CanReach;
    Reached(w2, IsFirstServed);
    var w3 := Acted(w2, Finished(true));
    Reached(w3, IsSecondAwaited);
    Backwards(w2, Finished(true), IsSecondAwaited);
    forall w4 | IsServed(w3, w4, second)
      ensures CanReach(w4, IsLinked)
    {
      Reached(Acted(w4, Finished(true)), IsLinked);
      Backwards(w4, Finished(true), IsLinked);
    }
    ServedThenReached(w3, second, IsLinked);
    Backwards(w2, Finished(true), IsLinked);
  }

  /** A proxy over the first of two sessions that just connected. */
  function TwoFresh(): World {
    World(Fleet([NewSocket, NewSocket], [NewSession(0), NewSession(1)], []), 0, Getting, map[], 0, 1)
  }

  /** The proxy fails now, the first connection is open, and no later run closes it. */
  ghost predicate FailsOpen(w: World) {
    && Fails(w, Finished(false)) && w.k1 < |w.fleet.sockets| && w.fleet.sockets[w.k1].state == STARTED
    && !CanClose(Acted(w, Finished(false)).fleet, w.first, w.k1)
  }

  /** It happens from two sessions that just connected: a failure with the first connection
      open for good, while the first session is served and while the second is. */
  lemma FailuresHappen()
    ensures Runs(Empty, [Connect, Connect], TwoFresh().fleet) && Begins(TwoFresh())
    ensures exists run, w :: QuietRun(TwoFresh(), run, w) && w.stage.FirstWork? && FailsOpen(w)
    ensures exists run, w :: QuietRun(TwoFresh(), run, w) && w.stage.SecondWork? && FailsOpen(w)
  {
    var w := TwoFresh();
    TwoFreshBegins();
    EveryProxyCanLink(w, 1);
    var run1, w1 :| QuietRun(w, run1, w1) && IsFirstServed(w1);
    FailsWithFirstOpen(w, run1, w1);
    var run2, w2 :| QuietRun(w, run2, w2) && IsSecondAwaited(w2);
    FailsWithFirstOpen(w, run2, w2);
  }

  lemma TwoFreshBegins()
    ensures Runs(Empty, [Connect, Connect], TwoFresh().fleet) && Begins(TwoFresh()) && Untouched(TwoFresh().fleet, 1)
  {
    assert [Connect, Connect][1..] == [Connect] && [Connect][1..] == [];
    var f := Next(Next(Empty, Connect), Connect);
    assert f == TwoFresh().fleet && Runs(f, [], f);
    assert Runs(Next(Empty, Connect), [Connect], f);
  }

  lemma FailsWithFirstOpen(w: World, run: seq<Act>, w': World)
    requires Begins(w) && QuietRun(w, run, w') && (IsFirstServed(w') || IsSecondAwaited(w'))
    ensures FailsOpen(w')
  {
    QuietRunKeepsKept(w, run, w');
    FirstStays(w, run, w');
    hide CanClose, QuietRun;
    FailureLeavesFirstOpenIff(w, run, w', Finished(false));
  }

  // ----- the object -----

  class Proxy {
    var first: Session?
    var second: Session?

    constructor (s: Session)
      ensures first == s && second == null
    {
      first, second := s, null;
    }

    /** The provider answered; the first session is to be served. */
    method OnSession(s: Session)
      requires first != null
      modifies this`second, first`socketAutoClose, first`starts
      ensures second == s && first == old(first)
      ensures first.View() == old(first.View()).(autoClose := false, starts := old(first.starts) + 1)
    {
      second := s;
      first.SetSocketAutoClose(false);
      first.CoStart();
    }

    /** The first session is served; the second is to be. */
    method OnFirstServed()
      requires second != null
      modifies second`socketAutoClose, second`starts
      ensures second.View() == old(second.View()).(autoClose := false, starts := old(second.starts) + 1)
    {
      second.SetSocketAutoClose(false);
      second.CoStart();
    }

    /** Both are served: their sockets go to two relays, which are linked and started, and
        both are let go. */
    method HandOver(ghost id1: nat, ghost id2: nat) returns (p1: Session, p2: Session)
      requires first != null && second != null && first != second && first.socket != second.socket
      modifies this, first`socket, second`socket
      ensures fresh(p1) && fresh(p2) && p1 != p2
      ensures p1.socket == old(first.socket) && p2.socket == old(second.socket)
      ensures p1.View() == NewSession(old(first.View()).socket).(autoClose := false, starts := 1)
      ensures p2.View() == NewSession(old(second.View()).socket).(autoClose := false, starts := 1)
      ensures p1.other == p2 && p2.other == p1
      ensures old(first).View() == old(first.View()).(socket := id1) && fresh(old(first).socket)
      ensures old(second).View() == old(second.View()).(socket := id2) && fresh(old(second).socket)
      ensures first == null && second == null
    {
      p1 := first.MutateTo(id1);
      p1.SetSocketAutoClose(false);
      p2 := second.MutateTo(id2);
      p2.SetSocketAutoClose(false);
      first, second := null, null;
      p1.other := p2;
      p2.other := p1;
      p1.CoStart();
      p2.CoStart();
    }
  }
}
