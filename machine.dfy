/** The node's session table as a transition system.

    Each session is the record the node keeps for it (its stored phase and
    its event channel) together with the state of the goroutines around it:
    whether its worker is still running, and which request handlers have
    passed their phase check and are now sending into the channel.

    Every goroutine action is one atomic step; concurrency is "any enabled
    step may run next". A step that is not enabled stands for a goroutine
    that is blocked, and running it leaves the table unchanged. */
module Machine {
  import opened States

  /** Buffer size of each session's event channel. */
  const ChannelCapacity: nat := 1

  /** One entry of the session table.
      - `state` is the stored phase;
      - `buffer` holds the events sitting in the channel, oldest first;
      - `sending` holds the events of handlers that passed their check and
        have not yet completed their send (a send blocks while the buffer is
        full);
      - `alive` says whether the session's worker goroutine is running. */
  datatype Session = Session(state: State, buffer: seq<State>, sending: seq<State>, alive: bool)

  type Sessions = map<string, Session>

  /** What a prepare or commit request decides. */
  datatype Outcome =
    | Accepted          // the requested phase goes into the channel
    | NoSuchSession     // "no session id exists with the provided ID"
    | CannotTransition  // "session cannot be prepared." / "session cannot be commited."

  /** The entry of a session just created: phase Initialized, an empty
      channel, no handler sending, and its worker started. */
  function NewSession(): Session {
    Session(Initialized, [], [], true)
  }

  /** Session creation with identifier `id`, which the caller has drawn fresh. */
  function CreateSession(m: Sessions, id: string): (m': Sessions)
    requires id !in m
    ensures m'.Keys == m.Keys + {id}
    ensures m'[id].state == Initialized && m'[id].alive
    ensures m'[id].buffer == [] && m'[id].sending == []
    ensures forall other :: other in m ==> m'[other] == m[other]
  {
    m[id := NewSession()]
  }

  /** The decision a handler makes for session `id`: the request is accepted
      only when the stored phase is `required`, and then the handler starts
      sending `event`. The stored phase itself is never written here. */
  function Request(m: Sessions, id: string, required: State, event: State): (r: (Outcome, Sessions))
    ensures r.0 == NoSuchSession <==> id !in m
    ensures r.0 == CannotTransition <==> id in m && m[id].state != required
    ensures r.0 != Accepted ==> r.1 == m
    ensures r.1.Keys == m.Keys
    ensures forall other :: other in m && other != id ==> r.1[other] == m[other]
    ensures r.0 == Accepted ==>
      && r.1[id].state == m[id].state && r.1[id].alive == m[id].alive
      && r.1[id].buffer == m[id].buffer
      && r.1[id].sending == m[id].sending + [event]
  {
    if id !in m then (NoSuchSession, m)
    else
      var metadata := m[id];
      if metadata.state != required then (CannotTransition, m)
      else (Accepted, m[id := metadata.(sending := metadata.sending + [event])])
  }

  /** The `/prepare` decision: only a session in Initialized may be asked to
      prepare, and the requested event is PreparedToCommit. */
  function HandlePrepare(m: Sessions, id: string): (r: (Outcome, Sessions))
    ensures r.0 == NoSuchSession <==> id !in m
    ensures r.0 == CannotTransition <==> id in m && m[id].state != Initialized
    ensures r.0 != Accepted ==> r.1 == m
    ensures r.0 == Accepted ==>
      r.1 == m[id := m[id].(sending := m[id].sending + [PreparedToCommit])]
  {
    Request(m, id, Initialized, PreparedToCommit)
  }

  /** The `/commit` decision: only a session in PreparedToCommit may be asked
      to commit, and the requested event is Commited. */
  function HandleCommit(m: Sessions, id: string): (r: (Outcome, Sessions))
    ensures r.0 == NoSuchSession <==> id !in m
    ensures r.0 == CannotTransition <==> id in m && m[id].state != PreparedToCommit
    ensures r.0 != Accepted ==> r.1 == m
    ensures r.0 == Accepted ==>
      r.1 == m[id := m[id].(sending := m[id].sending + [Commited])]
  {
    Request(m, id, PreparedToCommit, Commited)
  }

  /** The `k`-th sending handler completes its send: its event joins the back
      of the channel buffer, which must have room. */
  function CompleteSend(m: Sessions, id: string, k: nat): (m': Sessions)
    requires id in m && k < |m[id].sending| && |m[id].buffer| < ChannelCapacity
    ensures m'.Keys == m.Keys
    ensures forall other :: other in m && other != id ==> m'[other] == m[other]
    ensures m'[id].state == m[id].state && m'[id].alive == m[id].alive
    ensures m'[id].buffer == m[id].buffer + [m[id].sending[k]]
    ensures |m'[id].sending| + 1 == |m[id].sending|
    ensures multiset(m'[id].sending) + multiset{m[id].sending[k]} == multiset(m[id].sending)
  {
    var s := m[id];
    assert s.sending == s.sending[..k] + [s.sending[k]] + s.sending[k + 1..];
    m[id := s.(buffer := s.buffer + [s.sending[k]], sending := s.sending[..k] + s.sending[k + 1..])]
  }

  /** One iteration of the worker's event branch: it takes the oldest event
      from the channel and stores it as the phase, whatever the phase was, and
      it stops exactly when that event is Commited. */
  function DeliverEvent(m: Sessions, id: string): (m': Sessions)
    requires id in m && m[id].alive && m[id].buffer != []
    ensures m'.Keys == m.Keys
    ensures forall other :: other in m && other != id ==> m'[other] == m[other]
    ensures m'[id].state == m[id].buffer[0]
    ensures m'[id].buffer == m[id].buffer[1..]
    ensures m'[id].sending == m[id].sending
    ensures m'[id].alive <==> m[id].buffer[0] != Commited
  {
    var s := m[id];
    var event := s.buffer[0];
    m[id := s.(state := event, buffer := s.buffer[1..], alive := event != Commited)]
  }

  /** The worker's timeout branch: the phase becomes Aborted, whatever it
      was, and the worker stops. The channel is left as it is. */
  function TimeOut(m: Sessions, id: string): (m': Sessions)
    requires id in m && m[id].alive
    ensures m'.Keys == m.Keys
    ensures forall other :: other in m && other != id ==> m'[other] == m[other]
    ensures m'[id].state == Aborted && !m'[id].alive
    ensures m'[id].buffer == m[id].buffer && m'[id].sending == m[id].sending
  {
    m[id := m[id].(state := Aborted, alive := false)]
  }

  /** The atomic steps of the node. */
  datatype Step =
    | CreateStep(id: string)
    | PrepareStep(id: string)
    | CommitStep(id: string)
    | SendStep(id: string, k: nat)
    | DeliverStep(id: string)
    | TimeoutStep(id: string)

  /** Whether a step can run now. */
  predicate Enabled(m: Sessions, st: Step) {
    match st
    case CreateStep(id) => id !in m
    case PrepareStep(_) => true
    case CommitStep(_) => true
    case SendStep(id, k) => id in m && k < |m[id].sending| && |m[id].buffer| < ChannelCapacity
    case DeliverStep(id) => id in m && m[id].alive && m[id].buffer != []
    case TimeoutStep(id) => id in m && m[id].alive
  }

  /** The table after running `st`; a step that is not enabled leaves it unchanged. */
  function Next(m: Sessions, st: Step): Sessions {
    if !Enabled(m, st) then m
    else match st
      case CreateStep(id) => CreateSession(m, id)
      case PrepareStep(id) => HandlePrepare(m, id).1
      case CommitStep(id) => HandleCommit(m, id).1
      case SendStep(id, k) => CompleteSend(m, id, k)
      case DeliverStep(id) => DeliverEvent(m, id)
      case TimeoutStep(id) => TimeOut(m, id)
  }

  /** The table after running `steps` in order. */
  function Run(m: Sessions, steps: seq<Step>): Sessions
    decreases |steps|
  {
    if steps == [] then m else Run(Next(m, steps[0]), steps[1..])
  }

  /** The events a session's channel holds or is being sent. */
  predicate Pending(s: Session, e: State) {
    e in s.buffer || e in s.sending
  }

  /** What holds of every session the node can reach:
      - the buffer never exceeds the channel's capacity;
      - the stored phase is one of the four phases, and the worker runs
        exactly while the phase is not terminal;
      - only PreparedToCommit and Commited are ever sent;
      - while the phase is Initialized, only PreparedToCommit is pending. */
  predicate SessionOk(s: Session) {
    && |s.buffer| <= ChannelCapacity
    && IsPhase(s.state)
    && (s.alive <==> !IsTerminal(s.state))
    && (forall e | Pending(s, e) :: e == PreparedToCommit || e == Commited)
    && (s.state == Initialized ==> forall e | Pending(s, e) :: e == PreparedToCommit)
  }

  predicate Valid(m: Sessions) {
    forall id | id in m :: SessionOk(m[id])
  }

  /** The phase changes the node can make to a session in one step: it keeps
      its phase, is prepared, commits after being prepared, or is aborted from
      a phase that is not terminal. */
  predicate AllowedChange(from: State, to: State) {
    || from == to
    || (from == Initialized && to == PreparedToCommit)
    || (from == PreparedToCommit && to == Commited)
    || (!IsTerminal(from) && to == Aborted)
  }
}
