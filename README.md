# Three-phase-commit node: session state machine

This project models the session bookkeeping of the commit-protocol node in
`3pc/node/main.go`, and proves properties of it in Dafny.

The node keeps a process-wide table `sessions` that maps a session identifier
to its stored phase (`State`) and to a buffered event channel of capacity 1.
Three kinds of actor work on the table:

- Creating a session stores it in `Initialized` and starts a worker goroutine,
  `SessionManager`.
- The `/prepare` and `/commit` handlers read the stored phase. If it is the
  phase they require, they send the requested phase into the channel. They
  never write the phase themselves.
- The worker either receives an event and stores it as the phase, stopping
  after `commited`, or times out, stores `aborted` and stops.

`/sessions` returns each session's phase label.

## Structure

- `states.dfy` (module `States`): the `State` type, the four phases with
  Go's `iota` numbering, and their labels (`State.String`).
- `machine.dfy` (module `Machine`): a session entry `Session`. It holds the
  stored phase and the channel. The channel is its `buffer` plus the
  `sending` handlers that passed their check but have not yet completed their
  send. The entry also holds whether the worker is `alive`. The module defines
  one pure function per atomic step, the `Step`/`Next`/`Run` transition system
  over any interleaving, and the invariant `Valid` of reachable tables.
- `properties.dfy` (module `Properties`): lemmas over single steps and over
  arbitrary step sequences, plus a few concrete scenarios.
- `node.dfy` (module `Node`): the class `SessionTable`. Its field `sessions`
  is updated in place by one method per step. Each method's body follows the
  Go code's copy-modify-write of a map entry, and its postcondition equates
  the new table with the matching `Machine` function.

Concurrency is modelled as interleaving: any enabled step may run next.
- A handler's check and its send are two separate steps (`RequestPrepare` or
  `RequestCommit`, then `Send`). In Go they are two statements with no lock
  between them, and the send blocks while the buffer is full.
- A blocked send is kept in `sending`. It is never dropped or overwritten.
- `Deliver` is enabled when the worker is alive and the buffer is non-empty.
- `Timeout` is enabled whenever the worker is alive.

What the proofs show, beyond each step's own contract:

- Every run keeps the table in the invariant `Valid`:
  - the buffer never holds more than one event;
  - the worker runs exactly while the phase is not terminal;
  - only `prepared-to-commit` and `commited` are ever sent;
  - while a session is `Initialized`, only `prepared-to-commit` is pending.
- Only the worker's two branches write a stored phase.
- In one step, a phase only stays the same, goes `Initialized → PreparedToCommit`
  or `PreparedToCommit → Commited`, or goes from a non-terminal phase to
  `Aborted`. A session never goes `Initialized → Commited`. Over any run, a
  session that ends `Commited` was `PreparedToCommit` at some earlier step.
- Once a worker has stopped, its session's phase is terminal and never
  changes again.

Where the code and the design description of the node disagree, the model
follows the code:

- Two prepare requests for a fresh session are both accepted, because the
  check is advisory and both handlers see `Initialized`
  (`Properties.DoublePrepareBothAccepted`). The worker then applies
  `PreparedToCommit` twice.
- A commit issued before the worker has applied the prepare is rejected
  (`Properties.CommitBeforeDeliveryRejected`). A prepare immediately followed
  by a commit does not commit unless the worker runs in between
  (`Properties.PrepareThenCommitCommits`).
- Request handlers can block. A handler sending into a full channel whose
  worker has stopped never completes its send
  (`Properties.BlockedSenderNeverReleased`), and this state is reachable
  (`Properties.SecondPrepareCanHang`).
- The code has no lock around the table and no guard against a terminal
  phase. The model adds neither.
- The timeout timer is re-created on every loop iteration (line 70), so the
  deadline restarts after each event rather than running from creation. With
  time abstracted away, this needs no modelling.

## Model

| member | source | states |
|---|---|---|
| `States.Label` | 3pc/node/main.go:21-36 | The four phases get exactly the labels "Initialized", "prepared-to-commit", "aborted" and "commited", each label belonging to its phase only, and every other value gets "unknown" |
| `States.LabelInjective` | 3pc/node/main.go:21-36 | Two values with the same label are the same value when either of them is a named phase |
| `Machine.CreateSession` | 3pc/node/main.go:92-97 | Creation adds exactly the new key, in Initialized with an empty channel, no pending send and a running worker; every other entry is unchanged |
| `Machine.Request` | 3pc/node/main.go:119-135 | A handler decision: unknown id gives NoSuchSession, a stored phase other than the required one gives CannotTransition, and both change nothing; otherwise exactly the requested event is added to the pending sends, with the phase, the buffer, the worker and all other sessions untouched |
| `Machine.HandlePrepare` | 3pc/node/main.go:119-135 | Prepare rejects an unknown id and a phase other than Initialized without changing anything, and otherwise adds exactly one pending send of PreparedToCommit and nothing else |
| `Machine.HandleCommit` | 3pc/node/main.go:147-163 | Commit rejects an unknown id and a phase other than PreparedToCommit without changing anything, and otherwise adds exactly one pending send of Commited and nothing else |
| `Machine.CompleteSend` | 3pc/node/main.go:135 | A pending send completes only into a buffer with room; its event joins the back of the buffer and leaves the pending sends (as a multiset); the phase, the worker and other sessions are untouched |
| `Machine.DeliverEvent` | 3pc/node/main.go:61-69 | The worker stores the oldest buffered event as the phase whatever the phase was, removes it from the buffer, leaves pending sends and other sessions unchanged, and stops exactly when the event is Commited |
| `Machine.TimeOut` | 3pc/node/main.go:70-75 | A timeout stores Aborted whatever the phase was and stops the worker; the channel and other sessions are unchanged |
| `Properties.CreateKeepsValid` | 3pc/node/main.go:92-97 | Creating a session keeps the reachable-state invariant |
| `Properties.RequestKeepsValid` | 3pc/node/main.go:128-135 | An accepted or rejected prepare or commit keeps the reachable-state invariant |
| `Properties.SendKeepsValid` | 3pc/node/main.go:135 | Completing a send keeps the invariant, in particular the capacity-1 buffer bound |
| `Properties.DeliverKeepsValid` | 3pc/node/main.go:61-69 | Delivering an event keeps the invariant: the worker stays alive exactly while the new phase is not terminal |
| `Properties.TimeoutKeepsValid` | 3pc/node/main.go:70-75 | A timeout keeps the invariant |
| `Properties.NextKeepsValid` | 3pc/node/main.go:57-78 | Every step, enabled or not, maps a reachable table to a reachable table |
| `Properties.RunKeepsValid` | 3pc/node/main.go:57-78 | Every run of any interleaving of steps from a reachable table ends in a reachable table |
| `Properties.OnlyWorkerWritesState` | 3pc/node/main.go:61-75 | No session is ever removed, and every step other than that session's Deliver or Timeout leaves its stored phase as it was |
| `Properties.NextChangeAllowed` | 3pc/node/main.go:57-78 | In a reachable table one step changes a phase only from Initialized to PreparedToCommit, from PreparedToCommit to Commited, or from a non-terminal phase to Aborted; never from Initialized to Commited |
| `Properties.StoppedIsFinal` | 3pc/node/main.go:57-78 | Once a session's worker has stopped, its phase is terminal, and after any run it is still the same phase with the worker still stopped |
| `Properties.CommitOnlyAfterPrepare` | 3pc/node/main.go:57-78 | A session that starts Initialized and ends a run Commited was PreparedToCommit after some strictly earlier step of that run |
| `Properties.BlockedSenderNeverReleased` | 3pc/node/main.go:135 | For a stopped session whose buffer is full, no run changes its pending sends or its buffer: the blocked handlers never return |
| `Properties.IdleSessionStaysAborted` | 3pc/node/main.go:70-75 | A fresh session that times out is Aborted and stays Aborted after any further run |
| `Properties.PrepareThenCommitCommits` | 3pc/node/main.go:128-163 | Create, prepare, send, deliver, commit, send, deliver ends with the session Commited, its worker stopped and its channel empty |
| `Properties.CommitBeforeDeliveryRejected` | 3pc/node/main.go:156-161 | On a fresh session, a prepare is accepted and a commit made before the worker applies it is rejected with CannotTransition |
| `Properties.DoublePrepareBothAccepted` | 3pc/node/main.go:128-135 | Two prepares of a fresh session are both accepted, and once both are delivered the session is PreparedToCommit with its worker still running |
| `Properties.SecondPrepareCanHang` | 3pc/node/main.go:135 | After two prepares, one completed send and a timeout, the second handler's send stays pending after any further run |
| `Node.SessionTable.constructor` | 3pc/node/main.go:43 | The table starts empty and satisfies the invariant |
| `Node.SessionTable.Create` | 3pc/node/main.go:89-97 | Inserting a fresh session leaves the table equal to `CreateSession` of the old table, and keeps the invariant |
| `Node.SessionTable.RequestPrepare` | 3pc/node/main.go:119-135 | Outcome and new table are exactly `HandlePrepare` of the old table, and the invariant is kept |
| `Node.SessionTable.RequestCommit` | 3pc/node/main.go:147-163 | Outcome and new table are exactly `HandleCommit` of the old table, and the invariant is kept |
| `Node.SessionTable.Send` | 3pc/node/main.go:135 | Completing a pending send leaves the table equal to `CompleteSend` of the old table, and keeps the invariant |
| `Node.SessionTable.Deliver` | 3pc/node/main.go:61-69 | Returns the oldest buffered event and leaves the table equal to `DeliverEvent` of the old table, keeping the invariant |
| `Node.SessionTable.Timeout` | 3pc/node/main.go:70-75 | Leaves the table equal to `TimeOut` of the old table, keeping the invariant |
| `Node.SessionTable.ReadableSessions` | 3pc/node/main.go:45-51 | Returns a map with exactly the table's keys, each mapped to the label of that session's stored phase, without changing the table |

## Left out

- HTTP routing, method checks, status codes, `ListenAndServe` and JSON
  encoding of responses are left out because they are transport. Only each
  handler's decision is modelled, as an `Outcome`.
- `uuid.NewRandom` is an external call. The identifier is a parameter, and
  creation requires it to be fresh.
- Logging is left out because it only has side effects.
- Wall-clock time and `time.After` are left out. A timeout is a step that is
  enabled whenever the worker runs. This over-approximates Go's `select`,
  which prefers a buffered event over a timer that has just been created.
- Goroutine scheduling and the unsynchronised map access are modelled as
  atomic steps in some interleaving. Data races and torn writes are not
  modelled.
- Channel identity is not modelled. Each session's channel is only ever used
  through its entry, so the entry carries the channel's contents (`buffer`,
  `sending`).
- When several handlers have completed their checks, any of them may send
  next. Go's FIFO queue of blocked senders is not modelled separately, so the
  model allows more orders than Go does.
- `State` is bounded to the 64-bit range of Go's `int` on 64-bit platforms.
  Other widths are not modelled.
- A handler's reply after its send completes is not modelled. The outcome is
  fixed by the handler's check.
