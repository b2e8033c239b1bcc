/** The node process: its session table, updated in place by the request
    handlers and by each session's worker. Every method is one atomic step
    of Machine, and says so in its postcondition. */
module Node {
  import opened States
  import opened Machine
  import Properties

  class SessionTable {
    /** The process-wide table of sessions, keyed by session identifier. */
    var sessions: Sessions

    ghost predicate Valid()
      reads this
    {
      Machine.Valid(sessions)
    }

    /** The table as the process starts: empty. */
    constructor ()
      ensures Valid() && sessions == map[]
    {
      sessions := map[];
    }

    /** The `/session` handler without its transport: registers a session
        under the fresh identifier `id`, in Initialized with a new empty
        channel, and starts its worker. */
    method Create(id: string)
      requires Valid() && id !in sessions
      modifies this
      ensures Valid()
      ensures sessions == CreateSession(old(sessions), id)
    {
      var eventBus: seq<State> := [];
      sessions := sessions[id := Session(Initialized, eventBus, [], true)];
      Properties.CreateKeepsValid(old(sessions), id);
    }

    /** The decision of the `/prepare` handler: looks the session up, checks
        its stored phase, and on success starts sending PreparedToCommit. */
    method RequestPrepare(id: string) returns (r: Outcome)
      requires Valid()
      modifies this
      ensures Valid()
      ensures (r, sessions) == HandlePrepare(old(sessions), id)
    {
      if id !in sessions {
        return NoSuchSession;
      }
      var metadata := sessions[id];
      if metadata.state != Initialized {
        return CannotTransition;
      }
      sessions := sessions[id := metadata.(sending := metadata.sending + [PreparedToCommit])];
      r := Accepted;
      Properties.RequestKeepsValid(old(sessions), id, Initialized, PreparedToCommit);
    }

    /** The decision of the `/commit` handler: looks the session up, checks
        its stored phase, and on success starts sending Commited. */
    method RequestCommit(id: string) returns (r: Outcome)
      requires Valid()
      modifies this
      ensures Valid()
      ensures (r, sessions) == HandleCommit(old(sessions), id)
    {
      if id !in sessions {
        return NoSuchSession;
      }
      var metadata := sessions[id];
      if metadata.state != PreparedToCommit {
        return CannotTransition;
      }
      sessions := sessions[id := metadata.(sending := metadata.sending + [Commited])];
      r := Accepted;
      Properties.RequestKeepsValid(old(sessions), id, PreparedToCommit, Commited);
    }

    /** The send of an accepted handler completing: the `k`-th pending event
        enters the channel, which has room. */
    method Send(id: string, k: nat)
      requires Valid()
      requires id in sessions && k < |sessions[id].sending| && |sessions[id].buffer| < ChannelCapacity
      modifies this
      ensures Valid()
      ensures sessions == CompleteSend(old(sessions), id, k)
    {
      var channel := sessions[id];
      var event := channel.sending[k];
      var waiting := channel.sending[..k] + channel.sending[k + 1..];
      sessions := sessions[id := channel.(buffer := channel.buffer + [event], sending := waiting)];
      Properties.SendKeepsValid(old(sessions), id, k);
    }

    /** One iteration of the worker's event branch: receives the oldest event,
        copies the entry, stores the event as its phase and writes the entry
        back; the worker stops when the event is Commited. */
    method Deliver(id: string) returns (event: State)
      requires Valid()
      requires id in sessions && sessions[id].alive && sessions[id].buffer != []
      modifies this
      ensures Valid()
      ensures event == old(sessions)[id].buffer[0]
      ensures sessions == DeliverEvent(old(sessions), id)
    {
      var metadata := sessions[id];
      event := metadata.buffer[0];
      metadata := metadata.(buffer := metadata.buffer[1..]);
      metadata := metadata.(state := event);
      if event == Commited {
        metadata := metadata.(alive := false);
      }
      sessions := sessions[id := metadata];
      Properties.DeliverKeepsValid(old(sessions), id);
    }

    /** The worker's timeout branch: copies the entry, stores Aborted as its
        phase, writes it back, and the worker stops. */
    method Timeout(id: string)
      requires Valid()
      requires id in sessions && sessions[id].alive
      modifies this
      ensures Valid()
      ensures sessions == TimeOut(old(sessions), id)
    {
      var metadata := sessions[id];
      metadata := metadata.(state := Aborted);
      metadata := metadata.(alive := false);
      sessions := sessions[id := metadata];
      Properties.TimeoutKeepsValid(old(sessions), id);
    }

    /** The diagnostic view of the `/sessions` handler: every session's
        identifier mapped to the label of its stored phase. */
    method ReadableSessions() returns (readable: map<string, string>)
      ensures readable.Keys == sessions.Keys
      ensures forall id :: id in readable ==> readable[id] == Label(sessions[id].state)
    {
      readable := map[];
      var unvisited := sessions.Keys;
      while unvisited != {}
        invariant unvisited <= sessions.Keys
        invariant readable.Keys == sessions.Keys - unvisited
        invariant forall id :: id in readable ==> readable[id] == Label(sessions[id].state)
        decreases unvisited
      {
        var id :| id in unvisited;
        readable := readable[id := Label(sessions[id].state)];
        unvisited := unvisited - {id};
      }
    }
  }
}
