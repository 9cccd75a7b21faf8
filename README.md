# AbstrConn: a reconnecting client connector, modelled in Dafny

`AbstrConn` is the abstract base of the library's device connectors. It holds
an address, an optional listener, a mailbox of outbound items and a worker
thread. The worker loops while the connector is not stopped. Each turn it
connects; on a failure it reports to the listener and either sleeps and
retries (persistent) or gives up (not persistent). On a connection it runs
the subclass's protocol loop `loop()`, classifies how that loop ended, and
always cleans up: it clears the mailbox, closes the link, and reports the
disconnection.

This project models the sequential core of that class:

- `address.dfy` (module `Address`): `setAddr`'s normalisation. It writes out
  Java's `String.indexOf(char)`, `Integer.toString` and the 32-bit `int`
  returned by `defaultPort()`, and proves that the port it appends is
  exactly `Integer.toString`'s canonical text for it and can be read back.
- `worker.dfy` (module `Worker`): the worker body `runloop.run` as a
  specification. `Run` consumes a script of turns and yields the ordered
  trace of hook and listener calls, the final `stopped` flag and mailbox,
  whether the loop was left, and the number of connect attempts. Each script
  step gives three things:
  - what `link.open()` yields (an I/O failure or the returned `int`);
  - how `loop()` ends (normally, `InterruptedException`, another `Exception`,
    or a non-`Exception` `Throwable`);
  - whether an external `stop()` lands before the loop test or during the
    turn.

  The lemmas state the retry, reporting and termination policy over all
  scripts.
- `connector.dfy` (module `Conn`): the class `Connector` with the fields
  `addr`, `hasListener`, `msgq`, `worker` (the `thread` handle), `stopped`
  and `persistent`. Its methods are `SetAddr`, `SetListener`, `IsStopped`,
  `Start`, `Stop` and `ClearQueue`, plus the worker loop. `RunLoop` is a
  `while (!stopped)` loop and `Attempt` is one turn of it. Both are proved
  to produce exactly what `Worker.Run` and `Worker.Turn` specify.
- `wrappers.dfy`: an `Option` type for the nullable address and for the
  connect outcome.

Behaviour of the code that the model keeps as it is:

- A failed connect neither clears the mailbox nor closes the link; only a
  session's `finally` block does (`AbstrConn.java:46-54` and `74-80`).
- A non-persistent connector whose connect fails leaves the loop with
  `break` and does not set `stopped` (`AbstrConn.java:52`). The worker is
  then gone while `isStopped()` still returns false. `Worker.ExitWithoutStop`
  and `Worker.ConnectFailureTurn` prove that the code behaves this way.
- A persistent connector sleeps after each failed connect, not before it.
  With N consecutive failures the first failure comes without a delay and
  the last one is followed by one (`Worker.PersistentFailuresRetry`).
- `start()` and `stop()` are not synchronised. The model treats them as
  sequential operations.

## Model

| member | source | states |
|---|---|---|
| `Address.IndexOf` | src/conn/AbstrConn.java:96 | the result is -1 exactly when the character is absent; otherwise it is the position of its first occurrence |
| `Address.DecimalString` | src/conn/AbstrConn.java:96 | the decimal text of the port is canonical (digits without a leading zero, after a '-' exactly for a negative port, never "-0") and holds no ':' |
| `Address.DecimalRoundTrip` | src/conn/AbstrConn.java:96 | parsing the decimal text of any integer gives that integer back |
| `Address.DigitsOfValue` | src/conn/AbstrConn.java:96 | digits without a leading zero are the digits of their own value, the other half of the round trip |
| `Address.CanonicalRoundTrip` | src/conn/AbstrConn.java:96 | every canonical decimal text is the text `Integer.toString` gives for its value |
| `Address.CanonicalUnique` | src/conn/AbstrConn.java:96 | two canonical decimal texts with the same value are the same text |
| `Address.Normalize` | src/conn/AbstrConn.java:95-98 | the stored address always holds a ':'; an address holding ':' is kept unchanged; otherwise the address is a prefix, its first ':' is the appended one, and the text after it is canonical decimal text reading back as the default port, which by `Address.CanonicalUnique` is exactly `Integer.toString` of the port |
| `Address.NormalizeIdempotent` | src/conn/AbstrConn.java:95-98 | normalising an already normalised address changes nothing, whatever the default port |
| `Address.NormalizeExample` | src/conn/AbstrConn.java:95-98 | "dev1" with default port 4000 becomes "dev1:4000"; "dev1:77" stays as it is |
| `Conn.Connector.constructor` | src/conn/AbstrConn.java:28-36 | a new connector is stopped and persistent, with no worker, no listener, no address and an empty mailbox |
| `Conn.Connector.SetAddr` | src/conn/AbstrConn.java:95-98 | the stored address is the normalised one, holds a ':' and starts with the given address; no other field changes |
| `Conn.Connector.SetListener` | src/conn/AbstrConn.java:99 | the listener is registered or cleared; no other field changes |
| `Conn.Connector.IsStopped` | src/conn/AbstrConn.java:93 | returns the `stopped` flag |
| `Conn.Connector.Start` | src/conn/AbstrConn.java:101-111 | with a worker present nothing changes; otherwise the mailbox is emptied, `stopped` is cleared and a worker is recorded |
| `Conn.Connector.Stop` | src/conn/AbstrConn.java:112-117 | sets `stopped` and empties the mailbox; interrupts exactly when a worker exists; polls at most 10 times |
| `Conn.Connector.ClearQueue` | src/conn/AbstrConn.java:118 | empties the mailbox and changes no other field |
| `Conn.Connector.Attempt` | src/conn/AbstrConn.java:43-80 | one turn of the loop makes the calls, leaves the state and breaks exactly as `Worker.Turn` specifies |
| `Conn.Connector.RunLoop` | src/conn/AbstrConn.java:40-83 | the loop's trace, final `stopped` flag and mailbox are those of `Worker.Run`; the worker handle is cleared exactly when the loop is left |
| `Worker.ConnectFault` | src/conn/AbstrConn.java:126-134 | connect fails exactly on an I/O failure or a negative `link.open()` result, and never with a protocol fault |
| `Worker.Turn` | src/conn/AbstrConn.java:43-80 | one turn leaves the loop exactly on a non-persistent connect failure and sleeps exactly on a persistent one; it ends stopped exactly when a stop() landed or a non-persistent session ended; a session always empties the mailbox; a failed connect leaves `stopped` and the mailbox as they were unless a stop() landed during the attempt |
| `Worker.Run` | src/conn/AbstrConn.java:40-83 | a run makes at most one attempt per script step and calls something exactly when it attempts; when the script runs out first, every step was attempted and `stopped` is still false |
| `Worker.ConnectFailureTurn` | src/conn/AbstrConn.java:46-54 | a failed connect reports hook disconnected, then listener disconnected and listener exception when a listener is set; persistent: then a delay and the next turn; otherwise the loop is left after one attempt with no delay, and `stopped` and the mailbox are as they were unless a stop() landed during the attempt |
| `Worker.SessionTurn` | src/conn/AbstrConn.java:57-80 | a connection reports connected, then exactly one cleanup in order (queue cleared, link closed, hook disconnected, listener disconnected), with no delay; listener exception comes in between exactly for an ordinary Exception with no stop and a listener set |
| `Worker.RunWellFormed` | src/conn/AbstrConn.java:42-81 | every trace is a sequence of failed turns, each followed by a delay when persistent and ending the trace otherwise, and connections, each with one cleanup in order; nothing follows a non-persistent connection |
| `Worker.NoListenerNoListenerEvents` | src/conn/AbstrConn.java:48-79 | with no listener set, no listener event occurs in any run |
| `Worker.ProtocolFaultNeedsException` | src/conn/AbstrConn.java:64-73 | a protocol fault reaches the listener only if a listener is set and some turn that ran and connected had `loop()` throw an ordinary Exception with no stop landing; Interrupted and Fatal endings never report |
| `Worker.NoTurnWhenStopped` | src/conn/AbstrConn.java:42 | a worker that starts stopped makes no call and leaves the loop |
| `Worker.StopEndsRun` | src/conn/AbstrConn.java:42-80 | a stop landing in turn k ends the loop within that turn, after at most k+1 attempts; a persistent worker ends stopped |
| `Worker.QueueOnlyCleared` | src/conn/AbstrConn.java:76 | the worker leaves the mailbox as it was or empty |
| `Worker.NonPersistentSingleAttempt` | src/conn/AbstrConn.java:52-75 | a non-persistent worker makes at most one connect attempt, never delays, and leaves the loop after that attempt |
| `Worker.ExitWithoutStop` | src/conn/AbstrConn.java:52-82 | when the script runs out the worker is still running with `stopped` false; the loop is left with `stopped` false only through a non-persistent connect failure on the first turn |
| `Worker.AttemptCounts` | src/conn/AbstrConn.java:46-79 | hook disconnected occurs once per connect attempt; hook connected, queue cleared and link closed occur equally often; attempts never exceed the script |
| `Worker.PersistentFailuresRetry` | src/conn/AbstrConn.java:46-54 | with every connect failing and no stop, a persistent worker reports each failure and a delay, once per turn, and is still running with its state unchanged |
| `Worker.TransportFailureExample` | src/conn/AbstrConn.java:46-54 | persistent, with a listener, a first transport failure: disconnected, exception, delay, then a second attempt |

## Left out

- Threads: the model does not create the `Thread`, deliver `interrupt()`,
  race `start`/`stop`, or handle the memory visibility of `stopped`. An
  interrupt appears only as the Interrupted outcome of `loop()`. A `stop()`
  by another thread appears only as a scripted stop point.
- `Conn.Connector.Stop`: the worker cannot exit while `stop()` polls, so a
  present worker is always polled 10 times. The 100 ms sleeps and the 60 s
  retry sleep are left out; the retry sleep is the `Delay` event.
- The I/O inside `connect()`: `IOStream.createIOStream`, `setChrTmo(500)`,
  `open`, `flush` and `link.setIO` are foreign. An `IOException` from any of
  them is one `IoFailure`, and only the sign of `link.open()` matters.
- An unchecked exception or `Error` from inside `connect()` (for example a
  connect after `start()` without `setAddr`) is not caught by the
  `catch (IOException e)` at `AbstrConn.java:46`. It escapes `run()` before
  `thread=null` at line 82, so `thread` stays set, `stopped` stays false and
  every later `start()` does nothing. The model's connect yields only
  `IoFailure` or a `link.open()` result, so this path is not modelled.
- `Address.IndexOf` counts characters, where Java's `indexOf` counts UTF-16
  code units. Only the sign of the result is used at `AbstrConn.java:96`, and
  the sign is the same in both.
- `disconnect()` (`link.close()`) is the `LinkClosed` event. `isConnected()`
  and `getLink()` only consult the foreign link and are not modelled.
  `getName()` returns a constant and is not modelled.
- `SyncQueue`: the blocking, thread-safe behaviour is not modelled. The
  mailbox is a sequence of opaque items, and subclasses' `put` is not
  modelled because this class only clears the queue.
- Logging (`Logger`), including the "thread already started" message.
  `Start` returns `launched` instead.
- `readChn` and `writeChn` are empty no-ops.
- `execDone`, `readDone` and `writeDone` of the listener interface are never
  called in this class.
- `loop()` and `defaultPort()` are subclass hooks. Their results are inputs:
  the script's outcomes and `SetAddr`'s `port` parameter. The `connected()`
  and `disconnected()` hooks are no-ops by default and appear only as trace
  events.
- During one run of the worker, the listener and `persistent` do not change.
  In the source, other threads may reassign them.
- An exception thrown by a listener or hook call would escape `run()` and
  leave `thread` set. This is not modelled.
- `setAddr(null)` throws a `NullPointerException`. The model takes only
  strings.
