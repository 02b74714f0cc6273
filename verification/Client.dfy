/** The client's reconnect loop: in managed mode it connects, serves a session, waits and
    starts again until it is stopped; otherwise it hands over the first session. */
module Client {
  import opened Wrappers

  /** How an awaited operation ends: normally, canceled, or with any other exception. */
  datatype End = Normal | Canceled | Failed

  /** One turn of the loop: how the connect ended, how the session did if there is one, and
      how the wait did if it was reached. */
  datatype Attempt = Attempt(connect: End, session: End, wait: End)

  /** What can be seen of the client, each time with `connected()`: it starts to connect, a
      session is announced, is running, is announced to be over, the client waits. */
  datatype Event =
    | Connecting(connected: bool)
    | New(s: nat, connected: bool)
    | Serving(s: nat, connected: bool)
    | Completed(s: nat, connected: bool)
    | Waiting(connected: bool)

  datatype Outcome = Session(s: nat) | OperationCanceled | OtherError | NotRecoverable

  datatype Trace = Trace(log: seq<Event>, outcome: Outcome)

  /** What one turn adds to the log, whether it ends the run, and the next session. */
  datatype Turn = Turn(log: seq<Event>, ended: Option<Outcome>, next: nat)

  function Served(n: nat): seq<Event> { [New(n, true), Serving(n, true), Completed(n, false)] }

  function WaitEnded(end: End): Option<Outcome> {
    match end
    case Normal => None
    case Canceled => Some(OperationCanceled)
    case Failed => Some(OtherError)
  }

  /** One turn of the loop; `n` is the next session. */
  function TurnOf(managed: bool, a: Attempt, n: nat): Turn {
    match a.connect
    case Canceled => Turn([Connecting(false)], Some(OperationCanceled), n)
    case Failed =>
      if !managed then Turn([Connecting(false)], Some(OtherError), n)
      else Turn([Connecting(false), Waiting(false)], WaitEnded(a.wait), n)
    case Normal =>
      if !managed then Turn([Connecting(false), New(n, false)], Some(Session(n)), n + 1)
      else if a.session == Canceled then Turn([Connecting(false)] + Served(n), Some(OperationCanceled), n + 1)
      else Turn([Connecting(false)] + Served(n) + [Waiting(false)], WaitEnded(a.wait), n + 1)
  }

  /** The run over these attempts, the last one made before `running()` is false. */
  function RunOf(managed: bool, env: seq<Attempt>, n: nat): Trace
    decreases |env|
  {
    if env == [] then Trace([], NotRecoverable)
    else
      var turn := TurnOf(managed, env[0], n);
      if turn.ended.Some? then Trace(turn.log, turn.ended.value)
      else
        var rest := RunOf(managed, env[1..], turn.next);
        Trace(turn.log + rest.log, rest.outcome)
  }

  /** What is left of the run after `i` turns, behind what was logged so far. */
  function Left(managed: bool, env: seq<Attempt>, i: nat, log: seq<Event>, n: nat): Trace
    requires i <= |env|
  {
    var rest := RunOf(managed, env[i..], n);
    Trace(log + rest.log, rest.outcome)
  }

  lemma LeftAfterTurn(managed: bool, env: seq<Attempt>, i: nat, log: seq<Event>, n: nat)
    requires i < |env|
    ensures var turn := TurnOf(managed, env[i], n);
      Left(managed, env, i, log, n)
        == if turn.ended.Some? then Trace(log + turn.log, turn.ended.value)
           else Left(managed, env, i + 1, log + turn.log, turn.next)
  {
    hide TurnOf;
    assert env[i..][1..] == env[i + 1..];
    var turn := TurnOf(managed, env[i], n);
    var rest := RunOf(managed, env[i + 1..], turn.next).log;
    assert log + (turn.log + rest) == (log + turn.log) + rest;
  }

  class Client {
    const managed: bool
    var session: Option<nat>
    var created: nat
    ghost var log: seq<Event>

    constructor (managed: bool)
      ensures this.managed == managed && session == None && created == 0 && log == []
    {
      this.managed, session, created, log := managed, None, 0, [];
    }

    predicate Connected()
      reads this
    {
      session.Some?
    }

    /** One session in managed mode. The guard runs however the session ends, and resets the
        reference before it announces the end. */
    method ServeManaged(end: End) returns (canceled: bool)
      modifies this
      ensures canceled <==> end == Canceled
      ensures session == None && created == old(created) + 1
      ensures log == old(log) + Served(old(created))
    {
      var s := created;
      created := created + 1;
      session := Some(s);
      log := log + [New(s, Connected())];
      log := log + [Serving(s, Connected())];
      canceled := end == Canceled;
      session := None;
      log := log + [Completed(s, Connected())];
    }

    /** The loop's body. */
    method TakeTurn(a: Attempt) returns (ended: Option<Outcome>)
      requires session == None
      modifies this
      ensures session == None && log == old(log) + TurnOf(managed, a, old(created)).log
      ensures ended == TurnOf(managed, a, old(created)).ended && created == TurnOf(managed, a, old(created)).next
    {
      log := log + [Connecting(Connected())];
      if a.connect == Canceled {
        return Some(OperationCanceled);
      }
      if a.connect == Failed && !managed {
        return Some(OtherError);
      }
      if a.connect == Normal {
        if managed {
          var canceled := ServeManaged(a.session);
          if canceled {
            return Some(OperationCanceled);
          }
        } else {
          log := log + [New(created, Connected())];
          created := created + 1;
          return Some(Session(created - 1));
        }
      }
      log := log + [Waiting(Connected())];
      if a.wait == Canceled {
        return Some(OperationCanceled);
      }
      if a.wait == Failed {
        return Some(OtherError);
      }
      ended := None;
    }

    /** `run()`; it is entered once, before any session. */
    method Run(env: seq<Attempt>) returns (r: Outcome)
      requires session == None
      modifies this
      ensures log == old(log) + RunOf(managed, env, old(created)).log
      ensures r == RunOf(managed, env, old(created)).outcome
      ensures session == None
    {
      assert env[0..] == env;
      var i := 0;
      while i < |env|
        invariant i <= |env| && session == None
        invariant Left(managed, env, i, log, created) == Left(managed, env, 0, old(log), old(created))
      {
        hide TurnOf, RunOf, Left;
        LeftAfterTurn(managed, env, i, log, created);
        var ended := TakeTurn(env[i]);
        if ended.Some? {
          return ended.value;
        }
        i := i + 1;
      }
      r := NotRecoverable;
    }
  }

  // ----- main results -----

  /** Where a managed client is: about to connect, with its connect tried, with a session
      announced or running, or with one completed. */
  datatype Place = Ready | Tried | Announced(s: nat) | Running(s: nat) | Over

  /** The trace brackets every session: `newSession` and `sessionCompleted` strictly
      alternate with matching sessions, numbered on from `n`, each runs once in between and
      is completed, `connected()` is true exactly there, and between two connects there is
      a wait. */
  predicate Brackets(log: seq<Event>, at: Place, n: nat)
    decreases |log|
  {
    if log == [] then at.Ready? || at.Tried? || at.Over?
    else match log[0]
      case Connecting(c) => !c && at == Ready && Brackets(log[1..], Tried, n)
      case New(s, c) => c && at == Tried && s == n && Brackets(log[1..], Announced(s), n + 1)
      case Serving(s, c) => c && at == Announced(s) && Brackets(log[1..], Running(s), n)
      case Completed(s, c) => !c && at == Running(s) && Brackets(log[1..], Over, n)
      case Waiting(c) => !c && (at == Tried || at == Over) && Brackets(log[1..], Ready, n)
  }

  lemma ServedBrackets(n: nat, rest: seq<Event>)
    requires Brackets(rest, Over, n + 1)
    ensures Brackets(Served(n) + rest, Tried, n)
  {
    var log := Served(n) + rest;
    assert log[1..] == [Serving(n, true), Completed(n, false)] + rest;
    assert log[1..][1..] == [Completed(n, false)] + rest;
    assert log[1..][1..][1..] == rest;
  }

  lemma OneBrackets(e: Event, rest: seq<Event>, at: Place, n: nat)
    requires (e == Connecting(false) && at == Ready && Brackets(rest, Tried, n))
      || (e == Waiting(false) && (at == Tried || at == Over) && Brackets(rest, Ready, n))
    ensures Brackets([e] + rest, at, n)
  {
    assert ([e] + rest)[1..] == rest;
  }

  /** A turn that came to its wait, or was canceled before. */
  predicate Waits(a: Attempt) {
    a.connect == Failed || (a.connect == Normal && a.session != Canceled)
  }

  function Waited(a: Attempt, rest: seq<Event>): seq<Event> {
    if Waits(a) then [Waiting(false)] + rest else []
  }

  lemma WaitedBrackets(a: Attempt, rest: seq<Event>, n: nat)
    requires Waits(a) ==> Brackets(rest, Ready, n)
    ensures Brackets(Waited(a, rest), Tried, n) && Brackets(Waited(a, rest), Over, n)
  {
    if Waits(a) {
      OneBrackets(Waiting(false), rest, Tried, n);
      OneBrackets(Waiting(false), rest, Over, n);
    }
  }

  lemma TurnIsJoined(a: Attempt, n: nat, rest: seq<Event>)
    requires !Waits(a) ==> rest == []
    ensures TurnOf(true, a, n).log + rest
      == [Connecting(false)] + if a.connect == Normal then Served(n) + Waited(a, rest) else Waited(a, rest)
  {
    hide Served;
  }

  lemma TurnBrackets(a: Attempt, n: nat, rest: seq<Event>)
    requires if Waits(a) then Brackets(rest, Ready, TurnOf(true, a, n).next) else rest == []
    ensures Brackets(TurnOf(true, a, n).log + rest, Ready, n)
  {
    hide Brackets, Served, Waited;
    WaitedBrackets(a, rest, TurnOf(true, a, n).next);
    TurnIsJoined(a, n, rest);
    if a.connect == Normal {
      ServedBrackets(n, Waited(a, rest));
      OneBrackets(Connecting(false), Served(n) + Waited(a, rest), Ready, n);
    } else {
      OneBrackets(Connecting(false), Waited(a, rest), Ready, n);
    }
  }

  /** However a managed client's run goes and ends. */
  lemma {:induction false} ManagedTraceBrackets(env: seq<Attempt>, n: nat)
    ensures Brackets(RunOf(true, env, n).log, Ready, n)
    decreases |env|
  {
    if env != [] {
      var turn := TurnOf(true, env[0], n);
      if turn.ended.Some? {
        TurnBrackets(env[0], n, []);
        assert turn.log + [] == turn.log;
      } else {
        ManagedTraceBrackets(env[1..], turn.next);
        TurnBrackets(env[0], n, RunOf(true, env[1..], turn.next).log);
      }
    }
  }

  /** The turn ends the managed client: something in it was canceled, or its wait failed. */
  predicate Ends(a: Attempt) {
    || a.connect == Canceled
    || (a.connect == Normal && a.session == Canceled)
    || a.wait != Normal
  }

  predicate FirstEnding(env: seq<Attempt>, k: nat) {
    k < |env| && Ends(env[k]) && forall j: nat :: j < k ==> !Ends(env[j])
  }

  predicate NoneEnds(env: seq<Attempt>) {
    forall k: nat :: k < |env| ==> !Ends(env[k])
  }

  /** How the run ends in its last turn. */
  function OutcomeOf(a: Attempt): Outcome {
    if a.connect == Canceled || (a.connect == Normal && a.session == Canceled) || a.wait == Canceled
    then OperationCanceled else OtherError
  }

  function Connects(log: seq<Event>): nat {
    if log == [] then 0 else (if log[0].Connecting? then 1 else 0) + Connects(log[1..])
  }

  function News(log: seq<Event>): nat {
    if log == [] then 0 else (if log[0].New? then 1 else 0) + News(log[1..])
  }

  /** Connections made, up to the turn that ends the client. */
  function Connections(env: seq<Attempt>): nat {
    if env == [] then 0
    else (if env[0].connect == Normal then 1 else 0) + (if Ends(env[0]) then 0 else Connections(env[1..]))
  }

  lemma {:induction false} CountsOfConcat(log: seq<Event>, rest: seq<Event>)
    ensures Connects(log + rest) == Connects(log) + Connects(rest)
    ensures News(log + rest) == News(log) + News(rest)
  {
    if log == [] {
      assert log + rest == rest;
    } else {
      assert (log + rest)[1..] == log[1..] + rest;
      CountsOfConcat(log[1..], rest);
    }
  }

  lemma CountsOfServed(n: nat)
    ensures Connects(Served(n)) == 0 && News(Served(n)) == 1
  {
    CountsOfOne(New(n, true));
    CountsOfOne(Serving(n, true));
    CountsOfOne(Completed(n, false));
    assert Served(n) == [New(n, true)] + ([Serving(n, true)] + [Completed(n, false)]);
    CountsOfConcat([Serving(n, true)], [Completed(n, false)]);
    CountsOfConcat([New(n, true)], [Serving(n, true)] + [Completed(n, false)]);
  }

  lemma CountsOfOne(e: Event)
    ensures Connects([e]) == (if e.Connecting? then 1 else 0) && News([e]) == if e.New? then 1 else 0
  {
    assert [e][1..] == [];
  }

  lemma CountsOfTurn(a: Attempt, n: nat)
    ensures Connects(TurnOf(true, a, n).log) == 1
    ensures News(TurnOf(true, a, n).log) == if a.connect == Normal then 1 else 0
  {
    var first, served, wait := [Connecting(false)], Served(n), [Waiting(false)];
    CountsOfOne(Connecting(false));
    CountsOfOne(Waiting(false));
    CountsOfServed(n);
    CountsOfConcat(first, served);
    CountsOfConcat(first, wait);
    CountsOfConcat(first + served, wait);
    assert [Connecting(false), Waiting(false)] == first + wait;
    hide Connects, News, Served;
  }

  /** A managed client never returns a session; it goes on through every failed connect and
      every failed session, announces one session per connection, and ends early exactly at
      the first turn in which an operation was canceled or the wait failed: canceled if
      something was canceled, so that its task stops itself, and with an error otherwise. */
  lemma {:induction false} ManagedEndsOnlyWhenStopped(env: seq<Attempt>, n: nat)
    ensures !RunOf(true, env, n).outcome.Session?
    ensures RunOf(true, env, n).outcome == NotRecoverable <==> NoneEnds(env)
    ensures forall k: nat :: FirstEnding(env, k) ==> RunOf(true, env, n).outcome == OutcomeOf(env[k])
    ensures NoneEnds(env) ==> Connects(RunOf(true, env, n).log) == |env|
    ensures forall k: nat :: FirstEnding(env, k) ==> Connects(RunOf(true, env, n).log) == k + 1
    ensures News(RunOf(true, env, n).log) == Connections(env)
    decreases |env|
  {
    if env != [] {
      var turn, rest := TurnOf(true, env[0], n), env[1..];
      CountsOfTurn(env[0], n);
      assert turn.ended.Some? <==> Ends(env[0]);
      assert turn.ended.Some? ==> turn.ended.value == OutcomeOf(env[0]);
      if turn.ended.None? {
        ManagedEndsOnlyWhenStopped(rest, turn.next);
        CountsOfConcat(turn.log, RunOf(true, rest, turn.next).log);
        LaterTurns(env);
        hide TurnOf, Ends, OutcomeOf;
        forall k: nat | FirstEnding(env, k)
          ensures RunOf(true, env, n).outcome == OutcomeOf(env[k])
          ensures Connects(RunOf(true, env, n).log) == k + 1
        {
          assert FirstEnding(rest, k - 1) && rest[k - 1] == env[k];
        }
      }
    }
  }

  lemma LaterTurns(env: seq<Attempt>)
    requires env != [] && !Ends(env[0])
    ensures NoneEnds(env) <==> NoneEnds(env[1..])
    ensures forall k: nat :: FirstEnding(env, k) ==> k > 0 && FirstEnding(env[1..], k - 1)
  {
    assert forall k: nat :: 0 < k < |env| ==> env[k] == env[1..][k - 1];
  }

  /** Otherwise the client makes one attempt. If it connects, its session is announced, never
      said to be connected or over, and that session is returned; if not, nothing is. */
  lemma UnmanagedMakesOneAttempt(env: seq<Attempt>, n: nat)
    requires env != []
    ensures env[0].connect == Normal ==> RunOf(false, env, n).outcome == Session(n)
    ensures env[0].connect == Canceled ==> RunOf(false, env, n).outcome == OperationCanceled
    ensures env[0].connect == Failed ==> RunOf(false, env, n).outcome == OtherError
    ensures RunOf(false, env, n).log
      == [Connecting(false)] + (if env[0].connect == Normal then [New(n, false)] else [])
    ensures RunOf(false, env, n) == RunOf(false, env[..1], n)
  {
  }
}
