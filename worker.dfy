/**
 * The connector's worker body (runloop.run) as a sequential state machine.
 *
 * The loop runs while `stopped` is false. Each turn connects; a failed connect
 * reports the failure and either retries after a fixed delay (persistent) or
 * leaves the loop (not persistent). A successful connect runs the protocol
 * loop, classifies how it ended, and always funnels through one cleanup.
 *
 * Threads are not modelled, so everything the worker depends on is an
 * input: a script gives, turn by turn, what link.open() yields, how loop() ends and
 * whether an external stop() lands in that turn. The worker's observable
 * behaviour is the ordered trace of hook and listener calls it makes.
 */
module Worker {
  import opened Wrappers
  import opened Address

  /** A queued outbound item; the connector never looks inside one. */
  type Item = int

  /** What the connect phase yields: an I/O failure, or the value link.open() returns. */
  datatype OpenResult = IoFailure | Opened(code: Int32)

  /** How the subclass's loop() ends. */
  datatype LoopOutcome =
    | Normal        // returns normally
    | Interrupted   // throws InterruptedException
    | Exception     // throws any other Exception
    | Fatal         // throws a Throwable that is not an Exception

  /** Where, within one turn of the worker, an external stop() lands. */
  datatype StopPoint =
    | NoStop
    | BeforeTest     // before the `while (!stopped)` test: the turn is not taken
    | DuringAttempt  // while connecting or while loop() runs

  datatype Step = Step(stop: StopPoint, open: OpenResult, outcome: LoopOutcome)

  /** The exception handed to listener.exception. */
  datatype Fault = TransportFault | OpenRefused(code: Int32) | ProtocolFault

  datatype Event =
    | HookConnected          // the connected() hook
    | HookDisconnected       // the disconnected() hook
    | ListenerConnected
    | ListenerDisconnected
    | ListenerException(fault: Fault)
    | Delay                  // the fixed sleep before a retry
    | QueueCleared           // msgq.clear() in the cleanup
    | LinkClosed             // disconnect(), that is link.close()
  {
    predicate IsListenerEvent() {
      ListenerConnected? || ListenerDisconnected? || ListenerException?
    }
  }

  /** The connector fields the worker reads but never writes. */
  datatype Config = Config(persistent: bool, hasListener: bool)

  /** The connector fields the worker and stop() both write. */
  datatype State = State(stopped: bool, msgq: seq<Item>)

  /**
   * What a run of the worker produces: its trace, the state it leaves, whether
   * it left the loop (and so cleared the worker handle) or the script ran out
   * first, and how many connect attempts it made.
   */
  datatype RunResult = RunResult(trace: seq<Event>, final: State, exited: bool, attempts: nat)

  /**
   * connect(): fails with an I/O failure, or when link.open() returns a
   * negative value; any other value is a connection.
   */
  function ConnectFault(r: OpenResult): (f: Option<Fault>)
    ensures f.Some? <==> (r.IoFailure? || r.code < 0)
    ensures f.Some? ==> f.value != ProtocolFault
  {
    match r
    case IoFailure => Some(TransportFault)
    case Opened(code) => if code < 0 then Some(OpenRefused(code)) else None
  }

  /** The effect of stop() on the shared state: stopped, and the queue emptied. */
  const Halted: State := State(true, [])

  /** The calls made after a failed connect. */
  function FailureEvents(c: Config, f: Fault): seq<Event>
  {
    [HookDisconnected] + (if c.hasListener then [ListenerDisconnected, ListenerException(f)] else [])
  }

  /** The calls made for one connection, from the connected() hook to the end of the cleanup. */
  function SessionEvents(c: Config, reported: bool): seq<Event>
  {
    [HookConnected] + (if c.hasListener then [ListenerConnected] else [])
    + (if reported then [ListenerException(ProtocolFault)] else [])
    + [QueueCleared, LinkClosed, HookDisconnected]
    + (if c.hasListener then [ListenerDisconnected] else [])
  }

  function Prepend(events: seq<Event>, r: RunResult): RunResult
  {
    r.(trace := events + r.trace, attempts := r.attempts + 1)
  }

  /** What one turn of the loop produces: its calls, the state after it, and whether it leaves the loop by `break`. */
  datatype TurnResult = TurnResult(events: seq<Event>, after: State, leaves: bool)

  /**
   * One turn of the loop, entered with `stopped` false: connect, and on a
   * failure report it and either sleep (persistent) or break; on a
   * connection run loop(), report an ordinary Exception when not stopped,
   * and clean up, setting `stopped` when not persistent.
   */
  function Turn(c: Config, s: State, step: Step): (t: TurnResult)
    ensures t.leaves <==> !c.persistent && ConnectFault(step.open).Some?
    ensures Delay in t.events <==> c.persistent && ConnectFault(step.open).Some?
    ensures t.after.stopped <==>
              s.stopped || step.stop == DuringAttempt || (!c.persistent && ConnectFault(step.open).None?)
    ensures t.after.msgq == s.msgq || t.after.msgq == []
    ensures ConnectFault(step.open).None? ==> t.after.msgq == []
    ensures ConnectFault(step.open).Some? ==> t.after == (if step.stop == DuringAttempt then Halted else s)
  {
    var s1 := if step.stop == DuringAttempt then Halted else s;
    match ConnectFault(step.open)
    case Some(f) =>
      if c.persistent then TurnResult(FailureEvents(c, f) + [Delay], s1, false)
      else TurnResult(FailureEvents(c, f), s1, true)
    case None =>
      var reported := step.outcome == Exception && !s1.stopped && c.hasListener;
      TurnResult(SessionEvents(c, reported), State(s1.stopped || !c.persistent, []), false)
  }

  /** The worker's loop, started in state s and fed the given script. */
  function Run(c: Config, s: State, script: seq<Step>): (r: RunResult)
    ensures r.attempts <= |script|
    ensures !r.exited ==> !r.final.stopped && r.attempts == |script|
    ensures |r.trace| == 0 <==> r.attempts == 0
    decreases |script|
  {
    if s.stopped then RunResult([], s, true, 0)
    else if script == [] then RunResult([], s, false, 0)
    else if script[0].stop == BeforeTest then RunResult([], Halted, true, 0)
    else
      var t := Turn(c, s, script[0]);
      if t.leaves then RunResult(t.events, t.after, true, 1)
      else Prepend(t.events, Run(c, t.after, script[1..]))
  }

  /** Run after one turn taken: what the loop implementation relies on at the end of each turn. */
  lemma RunAfterTurn(c: Config, s: State, script: seq<Step>)
    requires !s.stopped && script != [] && script[0].stop != BeforeTest
    ensures var t := Turn(c, s, script[0]);
            var r := Run(c, s, script);
            var rest := Run(c, t.after, script[1..]);
            if t.leaves then r.trace == t.events && r.final == t.after && r.exited
            else r.trace == t.events + rest.trace && r.final == rest.final && r.exited == rest.exited
  {
  }

  /**
   * Concatenation is associative. Dafny knows this; the lemma is only a hint
   * for the loop proof in Conn.Connector.RunLoop, which appends one turn at a time.
   */
  lemma ConcatAssoc(a: seq<Event>, b: seq<Event>, c: seq<Event>)
    ensures (a + b) + c == a + (b + c)
  {
  }

  // ---------------------------------------------------------------------------
  // One turn of the loop

  /**
   * A failed connect reports hook disconnected, then (with a listener)
   * listener disconnected and listener exception. A persistent worker then
   * sleeps and takes the next turn; a non-persistent one leaves the loop at
   * once, without a delay, with the queue and the stopped flag as they were
   * unless a stop() landed during the attempt.
   */
  lemma ConnectFailureTurn(c: Config, s: State, script: seq<Step>)
    requires !s.stopped && script != [] && script[0].stop != BeforeTest
    requires ConnectFault(script[0].open).Some?
    ensures var r := Run(c, s, script);
            var f := ConnectFault(script[0].open).value;
            var s1 := if script[0].stop == DuringAttempt then Halted else s;
            var failure := if c.hasListener
                           then [HookDisconnected, ListenerDisconnected, ListenerException(f)]
                           else [HookDisconnected];
            (c.persistent ==>
               r.trace == failure + [Delay] + Run(c, s1, script[1..]).trace) &&
            (!c.persistent ==>
               r.trace == failure && r.exited && r.final == s1 && r.attempts == 1)
  {
    var f := ConnectFault(script[0].open).value;
    var s1 := if script[0].stop == DuringAttempt then Halted else s;
    var failure := if c.hasListener
                   then [HookDisconnected, ListenerDisconnected, ListenerException(f)]
                   else [HookDisconnected];
    assert FailureEvents(c, f) == failure;
    var t := Turn(c, s, script[0]);
    assert t.after == s1;
    RunAfterTurn(c, s, script);
    if c.persistent {
      assert t.events == failure + [Delay];
    } else {
      assert t.events == failure;
    }
  }

  /**
   * A successful connect calls the connected() hook and listener connected,
   * then, whatever loop() does, exactly one cleanup in this order: queue
   * cleared, link closed, hook disconnected, listener disconnected. Between
   * the two, listener exception is called exactly when loop() threw an
   * ordinary Exception, no stop() landed in the turn and a listener is set.
   */
  lemma SessionTurn(c: Config, s: State, script: seq<Step>)
    requires !s.stopped && script != [] && script[0].stop != BeforeTest
    requires ConnectFault(script[0].open).None?
    ensures var r := Run(c, s, script);
            var step := script[0];
            var reported := step.outcome == Exception && step.stop == NoStop && c.hasListener;
            var stoppedAfter := step.stop == DuringAttempt || !c.persistent;
            var head := (if c.hasListener then [HookConnected, ListenerConnected] else [HookConnected])
                        + (if reported then [ListenerException(ProtocolFault)] else []);
            var cleanup := if c.hasListener
                           then [QueueCleared, LinkClosed, HookDisconnected, ListenerDisconnected]
                           else [QueueCleared, LinkClosed, HookDisconnected];
            r.trace == head + cleanup + Run(c, State(stoppedAfter, []), script[1..]).trace
  {
  }

  // ---------------------------------------------------------------------------
  // Whole runs

  /**
   * The shape of every trace, read left to right: a sequence of turns, each
   * either a failed connect (hook disconnected, listener disconnected,
   * listener exception for a connect fault) followed by a delay when
   * persistent and by nothing at all otherwise, or a connection (hook
   * connected, listener connected, at most one listener exception for a
   * protocol fault, queue cleared, link closed, hook disconnected, listener
   * disconnected) after which a non-persistent worker does nothing more.
   */
  ghost predicate WellFormed(c: Config, t: seq<Event>)
    decreases |t|
  {
    if t == [] then true
    else if t[0] == HookDisconnected then
      var n := if c.hasListener then 3 else 1;
      |t| >= n &&
      (c.hasListener ==>
         t[1] == ListenerDisconnected && t[2].ListenerException? && t[2].fault != ProtocolFault) &&
      if c.persistent then |t| > n && t[n] == Delay && WellFormed(c, t[n + 1..])
      else |t| == n
    else if t[0] == HookConnected then
      var m := if c.hasListener then 2 else 1;
      |t| > m && (c.hasListener ==> t[1] == ListenerConnected) &&
      var k := if c.hasListener && t[m] == ListenerException(ProtocolFault) then m + 1 else m;
      var e := if c.hasListener then k + 4 else k + 3;
      |t| >= e &&
      t[k] == QueueCleared && t[k + 1] == LinkClosed && t[k + 2] == HookDisconnected &&
      (c.hasListener ==> t[k + 3] == ListenerDisconnected) &&
      if c.persistent then WellFormed(c, t[e..]) else e == |t|
    else false
  }

  /** A failed connect, followed by the delay and a well-formed rest when persistent. */
  lemma FailureWellFormed(c: Config, f: Fault, rest: seq<Event>)
    requires f != ProtocolFault
    requires c.persistent ==> WellFormed(c, rest)
    ensures WellFormed(c, if c.persistent then FailureEvents(c, f) + [Delay] + rest else FailureEvents(c, f))
  {
  }

  /** One connection, followed by a well-formed rest that is empty when not persistent. */
  lemma SessionWellFormed(c: Config, reported: bool, rest: seq<Event>)
    requires reported ==> c.hasListener
    requires WellFormed(c, rest) && (!c.persistent ==> rest == [])
    ensures WellFormed(c, SessionEvents(c, reported) + rest)
  {
  }

  lemma {:induction false} RunWellFormed(c: Config, s: State, script: seq<Step>)
    ensures WellFormed(c, Run(c, s, script).trace)
    decreases |script|
  {
    if !s.stopped && script != [] && script[0].stop != BeforeTest {
      var step := script[0];
      var s1 := if step.stop == DuringAttempt then Halted else s;
      match ConnectFault(step.open)
      case Some(f) =>
        RunWellFormed(c, s1, script[1..]);
        FailureWellFormed(c, f, Run(c, s1, script[1..]).trace);
      case None =>
        var reported := step.outcome == Exception && !s1.stopped && c.hasListener;
        var s2 := State(s1.stopped || !c.persistent, []);
        RunWellFormed(c, s2, script[1..]);
        SessionWellFormed(c, reported, Run(c, s2, script[1..]).trace);
    }
  }

  /** With no listener set, the worker never calls a listener. */
  lemma {:induction false} NoListenerNoListenerEvents(c: Config, s: State, script: seq<Step>)
    requires !c.hasListener
    ensures forall e :: e in Run(c, s, script).trace ==> !e.IsListenerEvent()
    decreases |script|
  {
    if !s.stopped && script != [] && script[0].stop != BeforeTest {
      var s1 := if script[0].stop == DuringAttempt then Halted else s;
      var s2 := State(s1.stopped || !c.persistent, []);
      NoListenerNoListenerEvents(c, s1, script[1..]);
      NoListenerNoListenerEvents(c, s2, script[1..]);
    }
  }

  /**
   * A protocol fault reaches the listener only from a turn whose loop() threw
   * an ordinary Exception and in which no stop() landed: an interrupted or
   * fatal loop end is never reported.
   */
  lemma {:induction false} ProtocolFaultNeedsException(c: Config, s: State, script: seq<Step>)
    requires ListenerException(ProtocolFault) in Run(c, s, script).trace
    ensures c.hasListener
    ensures exists k :: 0 <= k < Run(c, s, script).attempts && k < |script| &&
              ConnectFault(script[k].open).None? && script[k].outcome == Exception && script[k].stop == NoStop
    decreases |script|
  {
    var step := script[0];
    var s1 := if step.stop == DuringAttempt then Halted else s;
    var t := Turn(c, s, step);
    RunAfterTurn(c, s, script);
    var reported := ConnectFault(step.open).None? && step.outcome == Exception && !s1.stopped && c.hasListener;
    if reported {
      assert Run(c, s, script).attempts >= 1;
      assert ConnectFault(script[0].open).None? && script[0].outcome == Exception && script[0].stop == NoStop;
    } else {
      assert ListenerException(ProtocolFault) !in t.events by {
        match ConnectFault(step.open)
        case Some(f) =>
          assert t.events == FailureEvents(c, f) + (if c.persistent then [Delay] else []);
        case None =>
          assert t.events == SessionEvents(c, false);
      }
      var rest := script[1..];
      ProtocolFaultNeedsException(c, t.after, rest);
      var k :| 0 <= k < Run(c, t.after, rest).attempts && k < |rest| &&
               ConnectFault(rest[k].open).None? && rest[k].outcome == Exception && rest[k].stop == NoStop;
      assert script[k + 1] == rest[k];
    }
  }

  /** Turns are taken only while `stopped` is false: a worker entered stopped calls nothing and leaves. */
  lemma NoTurnWhenStopped(c: Config, s: State, script: seq<Step>)
    requires s.stopped
    ensures Run(c, s, script) == RunResult([], s, true, 0)
  {
  }

  /**
   * A stop() that lands in turn k makes the worker leave the loop by the end
   * of that turn, after at most k + 1 connect attempts; a persistent worker
   * leaves it stopped.
   */
  lemma {:induction false} StopEndsRun(c: Config, s: State, script: seq<Step>, k: nat)
    requires k < |script| && script[k].stop != NoStop
    ensures var r := Run(c, s, script);
            r.exited && r.attempts <= k + 1 && (c.persistent ==> r.final.stopped)
    decreases k
  {
    if !s.stopped && script[0].stop == NoStop {
      var t := Turn(c, s, script[0]);
      if !t.leaves {
        assert script[1..][k - 1] == script[k];
        StopEndsRun(c, t.after, script[1..], k - 1);
      }
    }
  }

  /** The worker only ever empties the queue: it ends as it was or empty. */
  lemma {:induction false} QueueOnlyCleared(c: Config, s: State, script: seq<Step>)
    ensures var q := Run(c, s, script).final.msgq;
            q == s.msgq || q == []
    decreases |script|
  {
    if !s.stopped && script != [] && script[0].stop != BeforeTest {
      var t := Turn(c, s, script[0]);
      QueueOnlyCleared(c, t.after, script[1..]);
    }
  }

  /**
   * A non-persistent worker makes at most one connect attempt, never sleeps,
   * and leaves the loop after that attempt whatever its outcome.
   */
  lemma NonPersistentSingleAttempt(c: Config, s: State, script: seq<Step>)
    requires !c.persistent
    ensures var r := Run(c, s, script);
            r.attempts <= 1 && Delay !in r.trace && (r.attempts == 1 ==> r.exited)
  {
  }

  /**
   * The worker leaves the loop with `stopped` still false in one case only:
   * a non-persistent connector whose connect failed. When the script runs
   * out first, the worker is still running and `stopped` is false.
   */
  lemma {:induction false} ExitWithoutStop(c: Config, s: State, script: seq<Step>)
    ensures var r := Run(c, s, script);
            (!r.exited ==> !r.final.stopped && r.attempts <= |script|) &&
            (r.exited && !r.final.stopped ==>
               !c.persistent && r.attempts == 1 && !s.stopped && script != [] &&
               ConnectFault(script[0].open).Some?)
    decreases |script|
  {
    if !s.stopped && script != [] && script[0].stop != BeforeTest {
      var s1 := if script[0].stop == DuringAttempt then Halted else s;
      var s2 := State(s1.stopped || !c.persistent, []);
      ExitWithoutStop(c, s1, script[1..]);
      ExitWithoutStop(c, s2, script[1..]);
    }
  }

  /** The number of occurrences of e in t. */
  function Count(t: seq<Event>, e: Event): nat
  {
    if t == [] then 0 else (if t[0] == e then 1 else 0) + Count(t[1..], e)
  }

  lemma {:induction false} CountAppend(a: seq<Event>, b: seq<Event>, e: Event)
    ensures Count(a + b, e) == Count(a, e) + Count(b, e)
  {
    if a == [] {
      assert a + b == b;
    } else {
      assert (a + b)[0] == a[0];
      assert (a + b)[1..] == a[1..] + b;
      CountAppend(a[1..], b, e);
    }
  }

  /** Count of a sequence of at most one element. */
  lemma CountShort(t: seq<Event>, e: Event)
    requires |t| <= 1
    ensures Count(t, e) == if t == [e] then 1 else 0
  {
  }

  /** How often one failed turn calls each hook and touches the queue and the link. */
  lemma FailureCounts(c: Config, f: Fault, e: Event)
    requires !e.IsListenerEvent() && e != Delay
    ensures Count(FailureEvents(c, f), e) == if e == HookDisconnected then 1 else 0
    ensures Count([Delay], e) == 0
  {
    var x := if c.hasListener then [ListenerDisconnected] else [];
    var y := if c.hasListener then [ListenerException(f)] else [];
    assert FailureEvents(c, f) == [HookDisconnected] + x + y;
    CountAppend([HookDisconnected], x, e);
    CountAppend([HookDisconnected] + x, y, e);
    CountShort([HookDisconnected], e);
    CountShort(x, e);
    CountShort(y, e);
    CountShort([Delay], e);
  }

  /** How often one connection calls each hook and touches the queue and the link. */
  lemma SessionCounts(c: Config, reported: bool, e: Event)
    requires !e.IsListenerEvent() && e != Delay
    ensures Count(SessionEvents(c, reported), e) == if e == HookConnected || e == QueueCleared || e == LinkClosed || e == HookDisconnected then 1 else 0
  {
    var x := if c.hasListener then [ListenerConnected] else [];
    var y := if reported then [ListenerException(ProtocolFault)] else [];
    var z := if c.hasListener then [ListenerDisconnected] else [];
    var p0 := [HookConnected] + x;
    var p1 := p0 + y;
    var p2 := p1 + [QueueCleared];
    var p3 := p2 + [LinkClosed];
    var p4 := p3 + [HookDisconnected];
    assert SessionEvents(c, reported) == p4 + z;
    CountAppend([HookConnected], x, e);
    CountAppend(p0, y, e);
    CountAppend(p1, [QueueCleared], e);
    CountAppend(p2, [LinkClosed], e);
    CountAppend(p3, [HookDisconnected], e);
    CountAppend(p4, z, e);
    CountShort([HookConnected], e);
    CountShort(x, e);
    CountShort(y, e);
    CountShort([QueueCleared], e);
    CountShort([LinkClosed], e);
    CountShort([HookDisconnected], e);
    CountShort(z, e);
  }

  /** One turn calls the disconnected() hook once, and the connected() hook as often as it clears the queue and closes the link. */
  lemma TurnCounts(c: Config, s: State, step: Step)
    ensures var t := Turn(c, s, step).events;
            Count(t, HookDisconnected) == 1 &&
            Count(t, HookConnected) == Count(t, QueueCleared) == Count(t, LinkClosed)
  {
    var s1 := if step.stop == DuringAttempt then Halted else s;
    var events := Turn(c, s, step).events;
    match ConnectFault(step.open)
    case Some(f) =>
      var d := if c.persistent then [Delay] else [];
      assert events == FailureEvents(c, f) + d;
      CountShort(d, HookDisconnected);
      CountShort(d, HookConnected);
      CountShort(d, QueueCleared);
      CountShort(d, LinkClosed);
      FailureCounts(c, f, HookDisconnected);
      FailureCounts(c, f, HookConnected);
      FailureCounts(c, f, QueueCleared);
      FailureCounts(c, f, LinkClosed);
      CountAppend(FailureEvents(c, f), d, HookDisconnected);
      CountAppend(FailureEvents(c, f), d, HookConnected);
      CountAppend(FailureEvents(c, f), d, QueueCleared);
      CountAppend(FailureEvents(c, f), d, LinkClosed);
    case None =>
      var reported := step.outcome == Exception && !s1.stopped && c.hasListener;
      assert events == SessionEvents(c, reported);
      SessionCounts(c, reported, HookDisconnected);
      SessionCounts(c, reported, HookConnected);
      SessionCounts(c, reported, QueueCleared);
      SessionCounts(c, reported, LinkClosed);
  }

  /**
   * The disconnected() hook runs exactly once per connect attempt, failed or
   * not; every connected() hook is matched by one queue clear and one link
   * close; and no run attempts more turns than the script holds.
   */
  lemma {:induction false} AttemptCounts(c: Config, s: State, script: seq<Step>)
    ensures var r := Run(c, s, script);
            Count(r.trace, HookDisconnected) == r.attempts <= |script| &&
            Count(r.trace, HookConnected) == Count(r.trace, QueueCleared) == Count(r.trace, LinkClosed)
    decreases |script|
  {
    if !s.stopped && script != [] && script[0].stop != BeforeTest {
      var t := Turn(c, s, script[0]);
      var r := Run(c, s, script);
      RunAfterTurn(c, s, script);
      TurnCounts(c, s, script[0]);
      if !t.leaves {
        var r' := Run(c, t.after, script[1..]);
        assert r.attempts == r'.attempts + 1;
        AttemptCounts(c, t.after, script[1..]);
        CountAppend(t.events, r'.trace, HookDisconnected);
        CountAppend(t.events, r'.trace, HookConnected);
        CountAppend(t.events, r'.trace, QueueCleared);
        CountAppend(t.events, r'.trace, LinkClosed);
      }
    }
  }

  /** The fault each turn of a script reports, assuming every connect in it fails. */
  function FailureRounds(c: Config, script: seq<Step>): seq<Event>
    requires forall k :: 0 <= k < |script| ==> ConnectFault(script[k].open).Some?
  {
    if script == [] then []
    else FailureEvents(c, ConnectFault(script[0].open).value) + [Delay] + FailureRounds(c, script[1..])
  }

  /**
   * A persistent worker whose every connect fails, with no stop() landing,
   * reports each failure (hook disconnected, listener disconnected, listener
   * exception) followed by a delay, once per turn, and is still running, with
   * `stopped` false and the queue untouched, when the script runs out.
   */
  lemma {:induction false} PersistentFailuresRetry(c: Config, s: State, script: seq<Step>)
    requires c.persistent && !s.stopped
    requires forall k :: 0 <= k < |script| ==> ConnectFault(script[k].open).Some? && script[k].stop == NoStop
    ensures Run(c, s, script) == RunResult(FailureRounds(c, script), s, false, |script|)
    decreases |script|
  {
    if script != [] {
      PersistentFailuresRetry(c, s, script[1..]);
    }
  }

  /**
   * Example: a persistent connector with a listener whose first
   * connect hits a transport failure: disconnected, then the exception, then
   * the delay, and then a second connect attempt.
   */
  lemma TransportFailureExample(s: State, second: Step)
    requires !s.stopped && second.stop == NoStop
    ensures var c := Config(true, true);
            var script := [Step(NoStop, IoFailure, Normal), second];
            var r := Run(c, s, script);
            r.trace[..4] == [HookDisconnected, ListenerDisconnected, ListenerException(TransportFault), Delay] &&
            r.attempts == 2
  {
    var c := Config(true, true);
    var script := [Step(NoStop, IoFailure, Normal), second];
    assert script[1..] == [second];
    assert [second][1..] == [];
    var r2 := Run(c, s, [second]);
    var s1 := if second.stop == DuringAttempt then Halted else s;
    var s2 := State(s1.stopped, []);
    assert r2.attempts == 1 by {
      match ConnectFault(second.open)
      case Some(f) =>
        assert r2 == Prepend(FailureEvents(c, f) + [Delay], Run(c, s1, []));
      case None =>
        var reported := second.outcome == Exception && !s1.stopped;
        assert r2 == Prepend(SessionEvents(c, reported), Run(c, s2, []));
    }
  }
}
