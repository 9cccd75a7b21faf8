/**
 * The connector object: its fields, the public lifecycle operations that
 * update them, and the worker loop as an imperative method proved against the
 * trace specification Worker.Run.
 *
 * Threads are not modelled: the worker's loop is a method that a caller runs
 * after Start, and an external stop() that lands while the worker runs is a
 * call of Stop made by the loop where its script says so.
 */
module Conn {
  import opened Wrappers
  import opened Address
  import opened Worker

  class Connector {
    /** The address connected to; null until setAddr is called. */
    var addr: Option<string>
    /** Whether a ConnectorListener is registered. */
    var hasListener: bool
    /** The mailbox of outbound items. */
    var msgq: seq<Item>
    /** Whether the worker thread handle is set (thread != null). */
    var worker: bool
    var stopped: bool
    /** Retry forever after failures (true) or make one attempt (false). */
    var persistent: bool

    /** A new connector: stopped, no worker, persistent, no listener and no address. */
    constructor ()
      ensures addr == None && !hasListener && msgq == []
      ensures !worker && stopped && persistent
    {
      addr := None;
      hasListener := false;
      msgq := [];
      worker := false;
      stopped := true;
      persistent := true;
    }

    /**
     * setAddr: stores the address, with ":" and the default port appended
     * when it holds no ':'. `port` is the value defaultPort() returns.
     */
    method SetAddr(a: string, port: Int32)
      modifies this`addr
      ensures addr == Some(Normalize(a, port))
      ensures ':' in addr.value && a <= addr.value
    {
      addr := Some(Normalize(a, port));
    }

    /** setConnectorListener: registers a listener (present) or clears it. */
    method SetListener(present: bool)
      modifies this`hasListener
      ensures hasListener == present
    {
      hasListener := present;
    }

    method IsStopped() returns (b: bool)
      ensures b == stopped
    {
      b := stopped;
    }

    /**
     * start: does nothing when a worker exists (it only logs "thread already
     * started"); otherwise empties the queue, clears `stopped` and records
     * the new worker. `launched` tells which of the two happened.
     */
    method Start() returns (launched: bool)
      modifies this`msgq, this`stopped, this`worker
      ensures launched == !old(worker)
      ensures old(worker) ==> worker && stopped == old(stopped) && msgq == old(msgq)
      ensures !old(worker) ==> worker && !stopped && msgq == []
    {
      if worker {
        launched := false;
        return;
      }
      launched := true;
      msgq := [];
      stopped := false;
      worker := true;
    }

    /**
     * stop: sets `stopped`, interrupts the worker if there is one, empties
     * the queue and then polls for the worker to go away at most 10 times
     * (100 ms apart in the source). Nothing runs concurrently here, so a worker
     * that exists is still there after all 10 polls.
     */
    method Stop() returns (interrupted: bool, polls: nat)
      modifies this`stopped, this`msgq
      ensures stopped && msgq == []
      ensures interrupted == worker
      ensures polls <= 10 && (polls == 10 <==> worker) && (polls == 0 <==> !worker)
    {
      stopped := true;
      interrupted := worker;
      msgq := [];
      polls := 0;
      while polls < 10 && worker
        invariant polls <= 10
        invariant !worker ==> polls == 0
      {
        polls := polls + 1;
      }
    }

    /** clearq: empties the queue; `stopped` and the worker are untouched. */
    method ClearQueue()
      modifies this`msgq
      ensures msgq == []
    {
      msgq := [];
    }

    /**
     * One turn of the worker body runloop.run, entered with `stopped` false:
     * connect; on a connect failure call the disconnected() hook and the
     * listener and then either sleep or break; on a connection run loop()
     * and its catch and finally blocks. The script step says what connect()
     * and loop() do and whether a stop() lands meanwhile.
     */
    method Attempt(step: Step) returns (events: seq<Event>, leave: bool)
      requires !stopped
      modifies this`stopped, this`msgq
      ensures Turn(Config(persistent, hasListener), State(old(stopped), old(msgq)), step)
              == TurnResult(events, State(stopped, msgq), leave)
    {
      if step.stop == DuringAttempt {
        var _, _ := Stop();
      }
      events := [];
      leave := false;
      var fault := ConnectFault(step.open);
      if fault.Some? {
        events := events + [HookDisconnected];
        if hasListener {
          events := events + [ListenerDisconnected, ListenerException(fault.value)];
        }
        if !persistent {
          leave := true;
          return;
        }
        events := events + [Delay];
        return;
      }
      events := events + [HookConnected];
      if hasListener {
        events := events + [ListenerConnected];
      }
      ghost var reported := false;
      match step.outcome {
        case Normal =>
        case Interrupted =>
        case Exception =>
          if !stopped && hasListener {
            events := events + [ListenerException(ProtocolFault)];
            reported := true;
          }
        case Fatal =>
      }
      // the finally block
      if !persistent {
        stopped := true;
      }
      msgq := [];
      events := events + [QueueCleared, LinkClosed, HookDisconnected];
      if hasListener {
        events := events + [ListenerDisconnected];
      }
    }

    /**
     * The worker body runloop.run, fed a script of what each turn meets.
     * It produces the trace Worker.Run specifies and leaves `stopped` and the
     * queue as Worker.Run says; the worker handle is cleared exactly when the
     * loop is left, and kept when the script runs out first.
     */
    method RunLoop(script: seq<Step>) returns (trace: seq<Event>)
      modifies this`stopped, this`msgq, this`worker
      ensures var r := Worker.Run(Config(persistent, hasListener), State(old(stopped), old(msgq)), script);
              trace == r.trace && stopped == r.final.stopped && msgq == r.final.msgq &&
              worker == (old(worker) && !r.exited)
    {
      ghost var cfg := Config(persistent, hasListener);
      ghost var whole := Worker.Run(cfg, State(stopped, msgq), script);
      ghost var rest := whole;
      trace := [];
      var i := 0;
      while !stopped
        invariant 0 <= i <= |script|
        invariant worker == old(worker)
        invariant rest == Worker.Run(cfg, State(stopped, msgq), script[i..])
        invariant whole.trace == trace + rest.trace && whole.final == rest.final && whole.exited == rest.exited
        decreases |script| - i
      {
        if i == |script| {
          // The script ends while the worker is still running.
          return;
        }
        var step := script[i];
        ghost var turns := script[i..];
        assert turns[0] == step && turns[1..] == script[i + 1..];
        i := i + 1;
        if step.stop == BeforeTest {
          var _, _ := Stop();
          rest := Worker.Run(cfg, State(stopped, msgq), script[i..]);
          continue;
        }
        ghost var prior := trace;
        RunAfterTurn(cfg, State(stopped, msgq), turns);
        var events, leave := Attempt(step);
        trace := trace + events;
        if leave {
          break;
        }
        ConcatAssoc(prior, events, Worker.Run(cfg, State(stopped, msgq), script[i..]).trace);
        rest := Worker.Run(cfg, State(stopped, msgq), script[i..]);
      }
      worker := false;
    }
  }
}
