/** What the node guarantees about its sessions over any interleaving of
    steps. */
module Properties {
  import opened States
  import opened Machine

  /** A table stays reachable when one session changes into a well-formed
      one and the others are left alone. */
  lemma ValidAfterUpdate(m: Sessions, m': Sessions, id: string)
    requires Valid(m) && m'.Keys == m.Keys + {id}
    requires forall other :: other in m && other != id ==> m'[other] == m[other]
    requires SessionOk(m'[id])
    ensures Valid(m')
  {
  }

  lemma CreateKeepsValid(m: Sessions, id: string)
    requires Valid(m) && id !in m
    ensures Valid(CreateSession(m, id))
  {
  }

  lemma RequestKeepsValid(m: Sessions, id: string, required: State, event: State)
    requires Valid(m)
    requires (required, event) == (Initialized, PreparedToCommit) || (required, event) == (PreparedToCommit, Commited)
    ensures Valid(Request(m, id, required, event).1)
  {
    var m' := Request(m, id, required, event).1;
    if m' != m {
      var s, s' := m[id], m'[id];
      forall e | Pending(s', e)
        ensures Pending(s, e) || (s.state == required && e == event)
      {
      }
      ValidAfterUpdate(m, m', id);
    }
  }

  lemma SendKeepsValid(m: Sessions, id: string, k: nat)
    requires Valid(m)
    requires id in m && k < |m[id].sending| && |m[id].buffer| < ChannelCapacity
    ensures Valid(CompleteSend(m, id, k))
  {
    var m' := CompleteSend(m, id, k);
    var s, s' := m[id], m'[id];
    forall e | Pending(s', e)
      ensures Pending(s, e)
    {
      if e in s'.sending {
        assert e in multiset(s'.sending);
        assert e in multiset(s.sending);
      }
    }
    ValidAfterUpdate(m, m', id);
  }

  lemma DeliverKeepsValid(m: Sessions, id: string)
    requires Valid(m)
    requires id in m && m[id].alive && m[id].buffer != []
    ensures Valid(DeliverEvent(m, id))
  {
    var m' := DeliverEvent(m, id);
    var s, s' := m[id], m'[id];
    assert Pending(s, s.buffer[0]);
    assert s'.buffer == [];
    forall e | Pending(s', e)
      ensures Pending(s, e)
    {
    }
    ValidAfterUpdate(m, m', id);
  }

  lemma TimeoutKeepsValid(m: Sessions, id: string)
    requires Valid(m)
    requires id in m && m[id].alive
    ensures Valid(TimeOut(m, id))
  {
    var m' := TimeOut(m, id);
    forall e | Pending(m'[id], e)
      ensures Pending(m[id], e)
    {
    }
    ValidAfterUpdate(m, m', id);
  }

  /** Every step keeps the reachable-state invariant. */
  lemma NextKeepsValid(m: Sessions, st: Step)
    requires Valid(m)
    ensures Valid(Next(m, st))
  {
    if Enabled(m, st) {
      match st
      case CreateStep(id) => CreateKeepsValid(m, id);
      case PrepareStep(id) => RequestKeepsValid(m, id, Initialized, PreparedToCommit);
      case CommitStep(id) => RequestKeepsValid(m, id, PreparedToCommit, Commited);
      case SendStep(id, k) => SendKeepsValid(m, id, k);
      case DeliverStep(id) => DeliverKeepsValid(m, id);
      case TimeoutStep(id) => TimeoutKeepsValid(m, id);
    }
  }

  /** Every run from a reachable table ends in a reachable table. */
  lemma {:induction false} RunKeepsValid(m: Sessions, steps: seq<Step>)
    requires Valid(m)
    ensures Valid(Run(m, steps))
    decreases |steps|
  {
    if steps != [] {
      NextKeepsValid(m, steps[0]);
      RunKeepsValid(Next(m, steps[0]), steps[1..]);
    }
  }

  /** Sessions are never removed, and only the worker's two branches write a
      stored phase: the handlers and the completed sends leave it as it was. */
  lemma OnlyWorkerWritesState(m: Sessions, st: Step, id: string)
    requires id in m
    requires st != DeliverStep(id) && st != TimeoutStep(id)
    ensures id in Next(m, st)
    ensures Next(m, st)[id].state == m[id].state
  {
  }

  /** In one step a session's phase changes only along the allowed edges;
      in particular it never goes from Initialized straight to Commited. */
  lemma NextChangeAllowed(m: Sessions, st: Step, id: string)
    requires Valid(m) && id in m
    ensures id in Next(m, st)
    ensures AllowedChange(m[id].state, Next(m, st)[id].state)
    ensures m[id].state == Initialized ==> Next(m, st)[id].state != Commited
  {
    if st == DeliverStep(id) && Enabled(m, st) {
      assert Pending(m[id], m[id].buffer[0]);
    }
  }

  /** Once a session's worker has stopped, its phase is terminal and no run
      changes it again or restarts the worker. */
  lemma {:induction false} StoppedIsFinal(m: Sessions, steps: seq<Step>, id: string)
    requires Valid(m) && id in m && !m[id].alive
    ensures IsTerminal(m[id].state)
    ensures id in Run(m, steps)
    ensures Run(m, steps)[id].state == m[id].state && !Run(m, steps)[id].alive
    decreases |steps|
  {
    if steps != [] {
      var m' := Next(m, steps[0]);
      NextKeepsValid(m, steps[0]);
      assert m'[id] == m[id].(buffer := m'[id].buffer, sending := m'[id].sending);
      StoppedIsFinal(m', steps[1..], id);
    }
  }

  /** A session that starts in Initialized and ends a run in Commited was in
      PreparedToCommit after some earlier step of that run. */
  lemma {:induction false} CommitOnlyAfterPrepare(m: Sessions, steps: seq<Step>, id: string)
    requires Valid(m) && id in m && m[id].state == Initialized
    requires id in Run(m, steps) && Run(m, steps)[id].state == Commited
    ensures exists k :: 0 < k < |steps| && id in Run(m, steps[..k]) && Run(m, steps[..k])[id].state == PreparedToCommit
    decreases |steps|
  {
    assert steps != [];
    var m' := Next(m, steps[0]);
    NextKeepsValid(m, steps[0]);
    NextChangeAllowed(m, steps[0], id);
    assert steps[..1] == [steps[0]];
    assert Run(m, steps[..1]) == m' by {
      assert steps[..1][1..] == [];
    }
    var s' := m'[id].state;
    if s' == Initialized {
      CommitOnlyAfterPrepare(m', steps[1..], id);
      var j :| 0 < j < |steps[1..]| && id in Run(m', steps[1..][..j]) && Run(m', steps[1..][..j])[id].state == PreparedToCommit;
      assert steps[..j + 1][0] == steps[0];
      assert steps[..j + 1][1..] == steps[1..][..j];
      assert Run(m, steps[..j + 1]) == Run(m', steps[1..][..j]);
    } else if s' == Aborted {
      assert !m'[id].alive;
      StoppedIsFinal(m', steps[1..], id);
      assert false;
    } else {
      assert s' == PreparedToCommit;
      assert 1 < |steps|;
    }
  }

  /** A handler that is still sending into the full channel of a session whose
      worker has stopped stays blocked forever: no run completes its send. */
  lemma {:induction false} BlockedSenderNeverReleased(m: Sessions, steps: seq<Step>, id: string)
    requires id in m && !m[id].alive && IsTerminal(m[id].state)
    requires |m[id].buffer| == ChannelCapacity
    ensures id in Run(m, steps)
    ensures Run(m, steps)[id].sending == m[id].sending
    ensures Run(m, steps)[id].buffer == m[id].buffer
    decreases |steps|
  {
    if steps != [] {
      var m' := Next(m, steps[0]);
      BlockedSenderNeverReleased(m', steps[1..], id);
    }
  }

  /** Running two step sequences one after the other is running their concatenation. */
  lemma {:induction false} RunAppend(m: Sessions, a: seq<Step>, b: seq<Step>)
    ensures Run(m, a + b) == Run(Run(m, a), b)
    decreases |a|
  {
    if a != [] {
      assert (a + b)[0] == a[0];
      assert (a + b)[1..] == a[1..] + b;
      RunAppend(Next(m, a[0]), a[1..], b);
    } else {
      assert a + b == b;
    }
  }

  /** A session nobody prepares or commits is aborted by its timeout, and
      stays aborted whatever happens afterwards. */
  lemma IdleSessionStaysAborted(m: Sessions, id: string, later: seq<Step>)
    requires Valid(m) && id !in m
    ensures id in Run(m, [CreateStep(id), TimeoutStep(id)] + later)
    ensures Run(m, [CreateStep(id), TimeoutStep(id)] + later)[id].state == Aborted
  {
    var steps := [CreateStep(id), TimeoutStep(id)];
    var timedOut := TimeOut(CreateSession(m, id), id);
    assert Run(timedOut, steps[2..]) == timedOut;
    assert Run(CreateSession(m, id), steps[1..]) == timedOut;
    assert Run(m, steps) == timedOut;
    RunKeepsValid(m, steps);
    StoppedIsFinal(timedOut, later, id);
    RunAppend(m, [CreateStep(id), TimeoutStep(id)], later);
  }

  /** Prepare, its delivery, commit and its delivery take a fresh session to
      Commited with its worker stopped and its channel empty. */
  lemma PrepareThenCommitCommits(m: Sessions, id: string)
    requires id !in m
    ensures id in Run(m, [CreateStep(id), PrepareStep(id), SendStep(id, 0), DeliverStep(id),
                          CommitStep(id), SendStep(id, 0), DeliverStep(id)])
    ensures Run(m, [CreateStep(id), PrepareStep(id), SendStep(id, 0), DeliverStep(id),
                    CommitStep(id), SendStep(id, 0), DeliverStep(id)])[id]
            == Session(Commited, [], [], false)
  {
    var m1 := CreateSession(m, id);
    var m2 := HandlePrepare(m1, id).1;
    var m3 := CompleteSend(m2, id, 0);
    var m4 := DeliverEvent(m3, id);
    var m5 := HandleCommit(m4, id).1;
    var m6 := CompleteSend(m5, id, 0);
    var m7 := DeliverEvent(m6, id);
    assert m7[id] == Session(Commited, [], [], false);
    var steps := [CreateStep(id), PrepareStep(id), SendStep(id, 0), DeliverStep(id),
                  CommitStep(id), SendStep(id, 0), DeliverStep(id)];
    assert Run(m6, steps[6..]) == m7;
    assert Run(m5, steps[5..]) == m7;
    assert Run(m4, steps[4..]) == m7;
    assert Run(m3, steps[3..]) == m7;
    assert Run(m2, steps[2..]) == m7;
    assert Run(m1, steps[1..]) == m7;
  }

  /** A commit that arrives before the worker has applied the prepare is
      rejected: the handler still sees Initialized. */
  lemma CommitBeforeDeliveryRejected(m: Sessions, id: string)
    requires id !in m
    ensures HandlePrepare(CreateSession(m, id), id).0 == Accepted
    ensures HandleCommit(HandlePrepare(CreateSession(m, id), id).1, id).0 == CannotTransition
  {
  }

  /** Two prepares of a fresh session are both accepted, because each
      handler checks the stored phase before the worker applies either;
      the worker then applies PreparedToCommit twice. */
  lemma DoublePrepareBothAccepted(m: Sessions, id: string)
    requires id !in m
    ensures HandlePrepare(CreateSession(m, id), id).0 == Accepted
    ensures HandlePrepare(HandlePrepare(CreateSession(m, id), id).1, id).0 == Accepted
    ensures id in Run(m, [CreateStep(id), PrepareStep(id), PrepareStep(id), SendStep(id, 0),
                          DeliverStep(id), SendStep(id, 0), DeliverStep(id)])
    ensures Run(m, [CreateStep(id), PrepareStep(id), PrepareStep(id), SendStep(id, 0),
                    DeliverStep(id), SendStep(id, 0), DeliverStep(id)])[id]
            == Session(PreparedToCommit, [], [], true)
  {
    var m1 := CreateSession(m, id);
    var m2 := HandlePrepare(m1, id).1;
    var m3 := HandlePrepare(m2, id).1;
    var m4 := CompleteSend(m3, id, 0);
    var m5 := DeliverEvent(m4, id);
    var m6 := CompleteSend(m5, id, 0);
    var m7 := DeliverEvent(m6, id);
    assert m7[id] == Session(PreparedToCommit, [], [], true);
    var steps := [CreateStep(id), PrepareStep(id), PrepareStep(id), SendStep(id, 0),
                  DeliverStep(id), SendStep(id, 0), DeliverStep(id)];
    assert Run(m6, steps[6..]) == m7;
    assert Run(m5, steps[5..]) == m7;
    assert Run(m4, steps[4..]) == m7;
    assert Run(m3, steps[3..]) == m7;
    assert Run(m2, steps[2..]) == m7;
    assert Run(m1, steps[1..]) == m7;
  }

  /** Two prepares before the worker applies either, then a timeout, leave
      the second prepare's handler sending into a full channel that nobody
      reads any more: it never returns, whatever happens afterwards. */
  lemma SecondPrepareCanHang(m: Sessions, id: string, later: seq<Step>)
    requires id !in m
    ensures id in Run(m, [CreateStep(id), PrepareStep(id), PrepareStep(id), SendStep(id, 0), TimeoutStep(id)] + later)
    ensures Run(m, [CreateStep(id), PrepareStep(id), PrepareStep(id), SendStep(id, 0), TimeoutStep(id)] + later)[id].sending
            == [PreparedToCommit]
  {
    var steps := [CreateStep(id), PrepareStep(id), PrepareStep(id), SendStep(id, 0), TimeoutStep(id)];
    var m1 := CreateSession(m, id);
    var m2 := HandlePrepare(m1, id).1;
    var m3 := HandlePrepare(m2, id).1;
    var m4 := CompleteSend(m3, id, 0);
    var m5 := TimeOut(m4, id);
    assert m5[id] == Session(Aborted, [PreparedToCommit], [PreparedToCommit], false);
    assert Run(m5, steps[5..]) == m5;
    assert Run(m4, steps[4..]) == m5;
    assert Run(m3, steps[3..]) == m5;
    assert Run(m2, steps[2..]) == m5;
    assert Run(m1, steps[1..]) == m5;
    BlockedSenderNeverReleased(m5, later, id);
    RunAppend(m, steps, later);
  }
}
