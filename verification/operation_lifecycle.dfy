/**
 The life of one operation, and why a shutdown that has joined its workers finds
 every operation ended.
 */
module OperationLifecycle {
  import opened Wrappers
  import opened OperationState
  import opened OperationFrames

  /** Status, worker thread, progress and result agree. */
  predicate Consistent(operation: Operation) {
    var snapshot := operation.snapshot;
    && (operation.worker.Spawned? ==> snapshot.status.Queued? || snapshot.status.Cancelling?)
    && (operation.worker.Executing? ==> snapshot.status.Running? || snapshot.status.Cancelling?)
    && (operation.worker.Finished? || operation.worker.Exited? ==> Terminal(snapshot.status))
    && (snapshot.status.Queued? || snapshot.status.Running? ==> !snapshot.cancelRequested)
    && (snapshot.status.Cancelling? || snapshot.status.Cancelled? ==> snapshot.cancelRequested)
    && 0 < snapshot.total && snapshot.completed <= snapshot.total
    && (snapshot.status.Succeeded? ==> snapshot.completed == snapshot.total)
    && (snapshot.result.Some? <==> snapshot.status.Succeeded?)
    && (snapshot.error.Some? <==> snapshot.status.Cancelled? || snapshot.status.Failed?)
    && (operation.handle.Released? ==> Terminal(snapshot.status))
  }

  /** Whose thread handle may be where during a shutdown. */
  ghost predicate HandlesFollow(phase: Phase, operations: map<string, Operation>) {
    match phase
    case Serving => forall id | id in operations :: !operations[id].handle.Joining?
    case Stopping(owner, joined) =>
      forall id | id in operations ::
        && (operations[id].handle.Held? ==> owner == WorkerOwner(id))
        && (joined && operations[id].handle.Joining? ==> operations[id].worker.Exited?)
    case Complete => forall id | id in operations :: Terminal(operations[id].snapshot.status)
  }

  ghost predicate Lifecycle(phase: Phase, operations: map<string, Operation>) {
    && (forall id | id in operations :: Consistent(operations[id]))
    && HandlesFollow(phase, operations)
  }

  /** A snapshot only moves forward: progress grows, and a terminal snapshot is final. */
  predicate Evolves(before: Snapshot, after: Snapshot) {
    && after.session == before.session && after.total == before.total
    && before.completed <= after.completed
    && before.sequence <= after.sequence
    && (before.cancelRequested ==> after.cancelRequested)
    && (Terminal(before.status) ==> after == before)
  }

  ghost predicate AllEvolve(before: map<string, Operation>, after: map<string, Operation>) {
    && before.Keys == after.Keys
    && forall id | id in before ::
         Evolves(before[id].snapshot, after[id].snapshot) && before[id].admission == after[id].admission
  }

  /** One changed record that is consistent, keeps its handle and does not fall back from having exited. */
  lemma ChangeKeepsLifecycle(phase: Phase, operations: map<string, Operation>, id: string, after: Operation)
    requires Lifecycle(phase, operations) && id in operations && Consistent(after)
    requires after.handle == operations[id].handle
    requires operations[id].worker.Exited? ==> after.worker.Exited?
    requires phase.Complete? ==> Terminal(after.snapshot.status)
    ensures Lifecycle(phase, operations[id := after])
  {}

  lemma StoppingKeepsLifecycle(operations: map<string, Operation>, owner: Owner)
    requires Lifecycle(Serving, operations)
    ensures Lifecycle(Stopping(owner, false), map id | id in operations :: JoinUnlessOwner(owner, id, operations[id]))
  {}

  /** Once the workers are joined, no operation is left running at finalization. */
  lemma JoinedMeansEnded(phase: Phase, operations: map<string, Operation>)
    requires Lifecycle(phase, operations) && phase.Stopping? && phase.joined
    requires match phase.owner
             case WorkerOwner(id) => id in operations ==> operations[id].worker.Exited?
             case _ => true
    ensures forall id | id in operations :: Terminal(operations[id].snapshot.status)
  {
    forall id | id in operations ensures Terminal(operations[id].snapshot.status) {
      assert Consistent(operations[id]);
    }
  }
}

/**
 Blocked callers: each wait counter is the number of callers parked there, so a
 record with a parked caller is never erased.
 */
module OperationPins {
  import opened OperationState

  function PinsIn(pins: map<nat, Pin>, session: string): set<nat> {
    set pin | pin in pins && pins[pin].session == session
  }

  function PinsAt(pins: map<nat, Pin>, target: Pin): set<nat> {
    set pin | pin in pins && pins[pin] == target
  }

  predicate TargetAlive(sessions: map<string, Session>, operations: map<string, Operation>, pin: Pin) {
    && pin.session in sessions
    && match pin
       case RequestPin(_) => true
       case OperationPin(session, id) => id in operations && operations[id].snapshot.session == session
       case SubscriptionPin(session, id) => id in sessions[session].subscriptions
  }

  ghost predicate Pinned(sessions: map<string, Session>, operations: map<string, Operation>, pins: map<nat, Pin>) {
    && (forall pin | pin in pins :: TargetAlive(sessions, operations, pins[pin]))
    && (forall session | session in sessions :: sessions[session].waiters == |PinsIn(pins, session)|)
    && (forall id | id in operations ::
          operations[id].waiters == |PinsAt(pins, OperationPin(operations[id].snapshot.session, id))|)
    && (forall session, id | session in sessions && id in sessions[session].subscriptions ::
          sessions[session].subscriptions[id].waiters == |PinsAt(pins, SubscriptionPin(session, id))|)
  }

  lemma ParkIn(pins: map<nat, Pin>, pin: nat, target: Pin, session: string)
    requires pin !in pins
    ensures PinsIn(pins[pin := target], session) ==
            PinsIn(pins, session) + (if session == target.session then {pin} else {})
    ensures pin !in PinsIn(pins, session)
  {}

  lemma ParkAt(pins: map<nat, Pin>, pin: nat, target: Pin, other: Pin)
    requires pin !in pins
    ensures PinsAt(pins[pin := target], other) == PinsAt(pins, other) + (if other == target then {pin} else {})
    ensures pin !in PinsAt(pins, other)
  {}

  lemma Park(pins: map<nat, Pin>, pin: nat, target: Pin)
    requires pin !in pins
    ensures |PinsIn(pins[pin := target], target.session)| == |PinsIn(pins, target.session)| + 1
    ensures |PinsAt(pins[pin := target], target)| == |PinsAt(pins, target)| + 1
    ensures forall session | session != target.session :: PinsIn(pins[pin := target], session) == PinsIn(pins, session)
    ensures forall other | other != target :: PinsAt(pins[pin := target], other) == PinsAt(pins, other)
  {
    hide PinsIn, PinsAt;
    ParkIn(pins, pin, target, target.session);
    ParkAt(pins, pin, target, target);
    forall session | session != target.session
      ensures PinsIn(pins[pin := target], session) == PinsIn(pins, session)
    {
      ParkIn(pins, pin, target, session);
      assert PinsIn(pins, session) + {} == PinsIn(pins, session);
    }
    forall other | other != target ensures PinsAt(pins[pin := target], other) == PinsAt(pins, other) {
      ParkAt(pins, pin, target, other);
      assert PinsAt(pins, other) + {} == PinsAt(pins, other);
    }
  }

  lemma NobodyIn(pins: map<nat, Pin>, session: string)
    requires forall pin | pin in pins :: pins[pin].session != session
    ensures |PinsIn(pins, session)| == 0
  {
    assert PinsIn(pins, session) == {};
  }

  /** The count at a target is zero exactly when nobody is parked at it. */
  lemma NobodyAt(pins: map<nat, Pin>, target: Pin)
    ensures |PinsAt(pins, target)| == 0 <==> forall pin | pin in pins :: pins[pin] != target
  {
    if |PinsAt(pins, target)| == 0 {
      forall pin | pin in pins ensures pins[pin] != target { assert pin !in PinsAt(pins, target); }
    } else {
      assert PinsAt(pins, target) != {};
    }
  }

  lemma Unpark(pins: map<nat, Pin>, pin: nat)
    requires pin in pins
    ensures var target := pins[pin];
            && |PinsIn(pins - {pin}, target.session)| == |PinsIn(pins, target.session)| - 1
            && |PinsAt(pins - {pin}, target)| == |PinsAt(pins, target)| - 1
    ensures forall session | session != pins[pin].session :: PinsIn(pins - {pin}, session) == PinsIn(pins, session)
    ensures forall other | other != pins[pin] :: PinsAt(pins - {pin}, other) == PinsAt(pins, other)
  {
    var fewer := pins - {pin};
    assert fewer[pin := pins[pin]] == pins;
    Park(fewer, pin, pins[pin]);
  }

  /** A caller that leaves finds its records, with itself still counted. */
  lemma PinsNeverLost(s: Service, pin: nat)
    requires Pinned(s.sessions, s.operations, s.pins) && pin in s.pins
    ensures PinHolds(s, s.pins[pin])
  {
    assert pin in PinsIn(s.pins, s.pins[pin].session) && pin in PinsAt(s.pins, s.pins[pin]);
  }

  /** The wait counters of one record set, moved by `delta` at one target. */
  ghost predicate CountersMoved(sessions: map<string, Session>, operations: map<string, Operation>,
                                sessions': map<string, Session>, operations': map<string, Operation>, target: Pin,
                                delta: int) {
    && sessions'.Keys == sessions.Keys && operations'.Keys == operations.Keys
    && (forall session | session in sessions ::
          && sessions'[session].waiters == sessions[session].waiters + (if session == target.session then delta else 0)
          && sessions'[session].subscriptions.Keys == sessions[session].subscriptions.Keys)
    && (forall session, id | session in sessions && id in sessions[session].subscriptions ::
          sessions'[session].subscriptions[id].waiters ==
          sessions[session].subscriptions[id].waiters + (if SubscriptionPin(session, id) == target then delta else 0))
    && (forall id | id in operations ::
          && operations'[id].snapshot.session == operations[id].snapshot.session
          && operations'[id].waiters == operations[id].waiters +
               (if OperationPin(operations[id].snapshot.session, id) == target then delta else 0))
  }

  lemma ParkKeepsPins(sessions: map<string, Session>, operations: map<string, Operation>, pins: map<nat, Pin>,
                      sessions': map<string, Session>, operations': map<string, Operation>, pin: nat, target: Pin)
    requires Pinned(sessions, operations, pins) && pin !in pins && TargetAlive(sessions, operations, target)
    requires CountersMoved(sessions, operations, sessions', operations', target, 1)
    ensures Pinned(sessions', operations', pins[pin := target])
  {
    hide PinsIn, PinsAt;
    Park(pins, pin, target);
  }

  lemma UnparkKeepsPins(sessions: map<string, Session>, operations: map<string, Operation>, pins: map<nat, Pin>,
                        sessions': map<string, Session>, operations': map<string, Operation>, pin: nat)
    requires Pinned(sessions, operations, pins) && pin in pins
    requires CountersMoved(sessions, operations, sessions', operations', pins[pin], -1)
    ensures Pinned(sessions', operations', pins - {pin})
  {
    hide PinsIn, PinsAt;
    Unpark(pins, pin);
  }

  lemma EnterKeepsPins(s: Service, pin: nat, session: string)
    requires Pinned(s.sessions, s.operations, s.pins)
    ensures var t := Enter(s, pin, session); Pinned(t.sessions, t.operations, t.pins)
  {
    hide Pinned;
    var t := Enter(s, pin, session);
    if t != s {
      ParkKeepsPins(s.sessions, s.operations, s.pins, t.sessions, t.operations, pin, RequestPin(session));
    }
  }

  lemma WaitKeepsPins(s: Service, pin: nat, session: string, id: string)
    requires Pinned(s.sessions, s.operations, s.pins)
    ensures var t := Wait(s, pin, session, id); Pinned(t.sessions, t.operations, t.pins)
  {
    hide Pinned;
    var t := Wait(s, pin, session, id);
    if t != s {
      ParkKeepsPins(s.sessions, s.operations, s.pins, t.sessions, t.operations, pin, OperationPin(session, id));
    }
  }

  lemma PollKeepsPins(s: Service, pin: nat, session: string, id: string)
    requires Pinned(s.sessions, s.operations, s.pins)
    ensures var t := Poll(s, pin, session, id); Pinned(t.sessions, t.operations, t.pins)
  {
    hide Pinned;
    var t := Poll(s, pin, session, id);
    if t != s {
      ParkKeepsPins(s.sessions, s.operations, s.pins, t.sessions, t.operations, pin, SubscriptionPin(session, id));
    }
  }

  lemma UnparkedMovesCounters(s: Service, pin: nat)
    requires pin in s.pins && PinHolds(s, s.pins[pin])
    ensures var t := Unparked(s, pin);
            && CountersMoved(s.sessions, s.operations, t.sessions, t.operations, s.pins[pin], -1)
            && t == s.(sessions := t.sessions, operations := t.operations, pins := s.pins - {pin})
  {
    hide CountersMoved;
    match s.pins[pin]
    case RequestPin(session) => RequestReleased(s.sessions, s.operations, session);
    case OperationPin(session, id) => OperationReleased(s.sessions, s.operations, session, id);
    case SubscriptionPin(session, id) => SubscriptionReleased(s.sessions, s.operations, session, id);
  }

  lemma RequestReleased(sessions: map<string, Session>, operations: map<string, Operation>, session: string)
    requires session in sessions && sessions[session].waiters > 0
    ensures CountersMoved(sessions, operations,
                          sessions[session := sessions[session].(waiters := sessions[session].waiters - 1)], operations,
                          RequestPin(session), -1)
  {}

  lemma OperationReleased(sessions: map<string, Session>, operations: map<string, Operation>, session: string,
                          id: string)
    requires session in sessions && sessions[session].waiters > 0
    requires id in operations && operations[id].snapshot.session == session && operations[id].waiters > 0
    ensures CountersMoved(sessions, operations,
                          sessions[session := sessions[session].(waiters := sessions[session].waiters - 1)],
                          operations[id := operations[id].(waiters := operations[id].waiters - 1)],
                          OperationPin(session, id), -1)
  {}

  lemma SubscriptionReleased(sessions: map<string, Session>, operations: map<string, Operation>, session: string,
                             id: string)
    requires session in sessions && sessions[session].waiters > 0
    requires id in sessions[session].subscriptions && sessions[session].subscriptions[id].waiters > 0
    ensures var found := sessions[session];
            var subscription := found.subscriptions[id];
            CountersMoved(sessions, operations, sessions[session := found.(
              waiters := found.waiters - 1,
              subscriptions := found.subscriptions[id := subscription.(waiters := subscription.waiters - 1)])],
              operations, SubscriptionPin(session, id), -1)
  {}

  /** With every session's wait counter at zero nobody is parked anywhere. */
  lemma FinalizeKeepsPins(sessions: map<string, Session>, operations: map<string, Operation>, pins: map<nat, Pin>)
    requires Pinned(sessions, operations, pins)
    requires forall session | session in sessions :: sessions[session].waiters == 0
    ensures pins == map[] && Pinned(map[], operations, pins)
  {
    assert forall pin | pin in pins ::
             pin in PinsIn(pins, pins[pin].session) && TargetAlive(sessions, operations, pins[pin]);
    assert forall session | session in sessions :: PinsIn(pins, session) == {};
    assert pins.Keys == {};
  }

  /** A record may be dropped only with nobody parked at it. */
  lemma EvictionKeepsPins(sessions: map<string, Session>, operations: map<string, Operation>, pins: map<nat, Pin>,
                          id: string)
    requires Pinned(sessions, operations, pins) && id in operations && operations[id].waiters == 0
    ensures Pinned(sessions, operations - {id}, pins)
  {
    assert forall pin | pin in pins :: pin in PinsAt(pins, pins[pin]);
    assert PinsAt(pins, OperationPin(operations[id].snapshot.session, id)) == {};
    forall pin | pin in pins ensures TargetAlive(sessions, operations - {id}, pins[pin]) {
      assert TargetAlive(sessions, operations, pins[pin]);
    }
  }

  lemma RemovalKeepsPins(sessions: map<string, Session>, operations: map<string, Operation>, pins: map<nat, Pin>,
                         session: string)
    requires Pinned(sessions, operations, pins) && session in sessions && sessions[session].waiters == 0
    ensures Pinned(sessions - {session}, operations, pins)
  {
    assert forall pin | pin in pins :: pin in PinsIn(pins, pins[pin].session);
    assert PinsIn(pins, session) == {};
    forall pin | pin in pins ensures TargetAlive(sessions - {session}, operations, pins[pin]) {
      assert TargetAlive(sessions, operations, pins[pin]);
    }
  }

  lemma AdmissionKeepsPins(sessions: map<string, Session>, operations: map<string, Operation>, pins: map<nat, Pin>,
                           id: string, admitted: Operation)
    requires Pinned(sessions, operations, pins) && id !in operations && admitted.waiters == 0
    ensures Pinned(sessions, operations[id := admitted], pins)
  {
    assert PinsAt(pins, OperationPin(admitted.snapshot.session, id)) == {} by {
      forall pin | pin in pins ensures pins[pin] != OperationPin(admitted.snapshot.session, id) {
        assert TargetAlive(sessions, operations, pins[pin]);
      }
    }
  }

  /** Changes elsewhere in the records do not disturb the counters. */
  lemma PinsFrame(sessions: map<string, Session>, operations: map<string, Operation>, pins: map<nat, Pin>,
                  sessions': map<string, Session>, operations': map<string, Operation>)
    requires Pinned(sessions, operations, pins)
    requires sessions'.Keys == sessions.Keys && operations'.Keys == operations.Keys
    requires forall session | session in sessions ::
               && sessions'[session].waiters == sessions[session].waiters
               && sessions'[session].subscriptions.Keys == sessions[session].subscriptions.Keys
               && forall id | id in sessions[session].subscriptions ::
                    sessions'[session].subscriptions[id].waiters == sessions[session].subscriptions[id].waiters
    requires forall id | id in operations ::
               && operations'[id].waiters == operations[id].waiters
               && operations'[id].snapshot.session == operations[id].snapshot.session
    ensures Pinned(sessions', operations', pins)
  {
    hide PinsIn, PinsAt;
  }

  lemma DropSubscriptionKeepsPins(sessions: map<string, Session>, operations: map<string, Operation>,
                                  pins: map<nat, Pin>, session: string, victim: string)
    requires Pinned(sessions, operations, pins) && session in sessions && victim in sessions[session].subscriptions
    requires sessions[session].subscriptions[victim].waiters == 0
    ensures Pinned(sessions[session := sessions[session].(subscriptions := sessions[session].subscriptions - {victim})],
                   operations, pins)
  {
    hide PinsIn, PinsAt;
    var fewer := sessions[session := sessions[session].(subscriptions := sessions[session].subscriptions - {victim})];
    NobodyAt(pins, SubscriptionPin(session, victim));
    forall pin | pin in pins ensures TargetAlive(fewer, operations, pins[pin]) {
      assert TargetAlive(sessions, operations, pins[pin]);
    }
  }

  lemma AddSubscriptionKeepsPins(sessions: map<string, Session>, operations: map<string, Operation>,
                                 pins: map<nat, Pin>, session: string, id: string, added: Subscription)
    requires Pinned(sessions, operations, pins) && session in sessions && id !in sessions[session].subscriptions
    requires added.waiters == 0
    ensures var found := sessions[session];
            Pinned(sessions[session := found.(subscriptions := found.subscriptions[id := added])], operations, pins)
  {
    hide PinsIn, PinsAt;
    var more := sessions[session := sessions[session].(subscriptions := sessions[session].subscriptions[id := added])];
    forall pin | pin in pins
      ensures TargetAlive(more, operations, pins[pin]) && pins[pin] != SubscriptionPin(session, id)
    {
      assert TargetAlive(sessions, operations, pins[pin]);
    }
    NobodyAt(pins, SubscriptionPin(session, id));
  }

  lemma SubscribeKeepsPins(c: Config, s: Service, session: string, id: string, victim: string)
    requires Pinned(s.sessions, s.operations, s.pins)
    ensures var t := Subscribe(c, s, session, id, victim); Pinned(t.sessions, t.operations, t.pins)
  {
    hide Pinned, EraseKey;
    var t := Subscribe(c, s, session, id, victim);
    if t != s {
      var room := s.sessions;
      if |s.sessions[session].subscriptions| == c.maxSubscriptions {
        DropSubscriptionKeepsPins(s.sessions, s.operations, s.pins, session, victim);
        var found := s.sessions[session];
        room := s.sessions[session := found.(subscriptions := found.subscriptions - {victim})];
      }
      var added := Subscription(true, 0, s.nextAdmission);
      AddSubscriptionKeepsPins(room, s.operations, s.pins, session, id, added);
      assert t.sessions == room[session := room[session].(subscriptions := room[session].subscriptions[id := added])];
    }
  }
}
