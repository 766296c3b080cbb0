/**
 When a shutdown completes.  The thread that began it finalizes it, and for a request
 that is the moment the request leaves: whoever else waits then leaves without doing so.
 */
module OperationShutdown {
  import opened Wrappers
  import opened OperationState
  import opened OperationFrames
  import opened OperationLimits
  import H = OperationHistory
  import L = OperationLifecycle
  import P = OperationPins

  // ----- what leaves the phase and the callers alone -----

  ghost predicate SameCallers(s: Service, t: Service) {
    t.phase == s.phase && t.pins == s.pins
  }

  lemma CompletingLeavesCallers(c: Config, s: Service, id: string, operation: Operation)
    ensures SameCallers(s, CompleteOperation(c, s, id, operation))
  {
    hide QueueOperation, Counted;
    var snapshot := operation.snapshot.(sequence := s.nextSequence);
    var stored := Store(s.(stats := Counted(s.stats, operation.snapshot.status)), id, operation.(snapshot := snapshot))
                  .(nextSequence := s.nextSequence + 1);
    QueueFrame(c, Retire(stored, snapshot.session), id, snapshot);
  }

  lemma StartLeavesCallers(c: Config, s: Service, id: string, stopped: bool)
    requires s.fault.NoFault?
    ensures SameCallers(s, Start(c, s, id, stopped))
  {
    hide Advance, CompleteOperation;
    if id in s.operations {
      var operation := s.operations[id];
      CompletingLeavesCallers(c, s, id, operation.(
        snapshot := operation.snapshot.(status := Cancelled, cancelRequested := true, result := None,
                                        error := Some("operation cancelled before start")),
        worker := Finished));
      AdvanceFrame(c, s, id, operation.(snapshot := operation.snapshot.(status := Running), worker := Executing));
    }
  }

  lemma ProgressLeavesCallers(c: Config, s: Service, id: string, completed: nat)
    requires s.fault.NoFault?
    ensures SameCallers(s, Progress(c, s, id, completed))
  {
    hide Advance;
    if id in s.operations {
      var operation := s.operations[id];
      AdvanceFrame(c, s, id, operation.(snapshot := operation.snapshot.(completed := completed)));
    }
  }

  lemma FinishLeavesCallers(c: Config, s: Service, id: string, outcome: Outcome)
    ensures SameCallers(s, Finish(c, s, id, outcome))
  {
    hide CompleteOperation, Concluded;
    if id in s.operations {
      var operation := s.operations[id];
      CompletingLeavesCallers(c, s, id,
                              operation.(snapshot := Concluded(operation.snapshot, outcome), worker := Finished));
    }
  }

  lemma SubmitLeavesCallers(c: Config, s: Service, session: string, id: string, total: nat, victim: string,
                            spawned: bool)
    ensures SameCallers(s, Submit(c, s, session, id, total, victim, spawned))
  {
    hide CollectFinished, IsOldestEvictable;
    H.CollectIsQuiet(s);
  }

  lemma RemovalLeavesCallers(c: Config, s: Service, session: string, ids: seq<string>)
    requires s.fault.NoFault?
    ensures SameCallers(s, RemoveBegin(c, s, session, ids))
  {
    hide CancelAll, Lists, OperationsOf, Deactivated;
    if session in s.sessions {
      CancelAllFrame(c, s.(sessions := s.sessions[session := s.sessions[session].(closing := true)]), ids);
    }
  }

  lemma PublishLeavesCallers(c: Config, s: Service, session: string, id: string, item: nat)
    ensures SameCallers(s, Publish(c, s, session, id, item))
  {
    hide Coalesce, NoRoom;
  }

  predicate TouchesCallers(step: Step) {
    step.EnterStep? || step.WaitStep? || step.PollStep? || step.LeaveStep? ||
    step.ShutdownBeginStep? || step.ShutdownJoinedStep? || step.ShutdownFinalizeStep?
  }

  lemma OperationsLeaveCallers(c: Config, s: Service, step: Step)
    requires s.fault.NoFault?
    requires step.SubmitStep? || step.StartStep? || step.ProgressStep? || step.FinishStep? || step.ExitStep? ||
             step.CancelStep?
    ensures SameCallers(s, Next(c, s, step))
  {
    hide Submit, Start, Progress, Finish, CancelOne;
    match step
    case SubmitStep(session, id, total, victim, spawned) =>
      SubmitLeavesCallers(c, s, session, id, total, victim, spawned);
    case StartStep(id, stopped) => StartLeavesCallers(c, s, id, stopped);
    case ProgressStep(id, completed) => ProgressLeavesCallers(c, s, id, completed);
    case FinishStep(id, outcome) => FinishLeavesCallers(c, s, id, outcome);
    case CancelStep(_, id) => CancelOneFrame(c, s, id);
    case ExitStep(_) =>
  }

  lemma SessionsLeaveCallers(c: Config, s: Service, step: Step)
    requires s.fault.NoFault?
    requires step.RegisterStep? || step.RemoveBeginStep? || step.RemoveFinishStep? || step.SubscribeStep? ||
             step.UnsubscribeStep?
    ensures SameCallers(s, Next(c, s, step))
  {
    hide RemoveBegin, EraseKey, EraseSubscriptions, Find, ReleaseOf, IsOldestRetirable, Without;
    match step
    case RemoveBeginStep(session, ids) => RemovalLeavesCallers(c, s, session, ids);
    case _ =>
  }

  lemma SettlingLeavesCallers(s: Service, ok: bool)
    ensures SameCallers(s, DrainSettle(s, ok))
  {
    hide Acknowledge, Find, Without;
    if s.inFlight.Some? && s.inFlight.value.OperationUpdated? {
      AcknowledgingLeavesCallers(s.(inFlight := None), s.inFlight.value.id, s.inFlight.value.snapshot);
    }
  }

  lemma AcknowledgingLeavesCallers(s: Service, id: string, snapshot: Snapshot)
    ensures SameCallers(s, Acknowledge(s, id, snapshot))
  {}

  lemma NotificationsLeaveCallers(c: Config, s: Service, step: Step)
    requires step.PublishStep? || step.DrainBeginStep? || step.DrainTakeStep? || step.DrainSettleStep?
    ensures SameCallers(s, Next(c, s, step))
  {
    hide Publish, DrainSettle;
    match step
    case PublishStep(session, id, item) => PublishLeavesCallers(c, s, session, id, item);
    case DrainSettleStep(ok) => SettlingLeavesCallers(s, ok);
    case _ =>
  }

  lemma OthersLeaveCallers(c: Config, s: Service, step: Step)
    requires s.fault.NoFault? && !TouchesCallers(step)
    ensures SameCallers(s, Next(c, s, step))
  {
    hide Next, SameCallers;
    match step
    case RegisterStep(_) | RemoveBeginStep(_, _) | RemoveFinishStep(_) | SubscribeStep(_, _, _) |
         UnsubscribeStep(_, _) =>
      SessionsLeaveCallers(c, s, step);
    case PublishStep(_, _, _) | DrainBeginStep | DrainTakeStep | DrainSettleStep(_) =>
      NotificationsLeaveCallers(c, s, step);
    case _ => OperationsLeaveCallers(c, s, step);
  }

  // ----- a shutdown nobody will finish -----

  /** A request began the shutdown, and no request is inside the service any more. */
  ghost predicate Abandoned(s: Service) {
    && s.phase.Stopping? && s.phase.owner == RequestOwner
    && forall pin | pin in s.pins :: !s.pins[pin].RequestPin?
  }

  lemma AbandonedStep(c: Config, s: Service, step: Step)
    requires Abandoned(s) && s.fault.NoFault?
    ensures Abandoned(Next(c, s, step))
  {
    hide Next;
    if TouchesCallers(step) {
      CallersStayAbandoned(c, s, step);
    } else {
      OthersLeaveCallers(c, s, step);
    }
  }

  lemma CallersStayAbandoned(c: Config, s: Service, step: Step)
    requires Abandoned(s) && TouchesCallers(step)
    ensures Abandoned(Next(c, s, step))
  {
    hide Drained, PinHolds, CancelAll;
  }

  /** Once the last request has left, nothing that happens later completes the shutdown. */
  lemma {:induction false} AbandonedForGood(c: Config, s: Service, steps: seq<Step>)
    requires Abandoned(s)
    ensures Abandoned(Run(c, s, steps)) && !Run(c, s, steps).phase.Complete?
    decreases |steps|
  {
    hide Next, Abandoned;
    if steps != [] && s.fault.NoFault? {
      AbandonedStep(c, s, steps[0]);
      AbandonedForGood(c, Next(c, s, steps[0]), steps[1..]);
    } else {
      NotComplete(s);
    }
    NotComplete(Run(c, s, steps));
  }

  lemma NotComplete(s: Service)
    ensures Abandoned(s) ==> !s.phase.Complete?
  {}

  // ----- and one that can be finished -----

  ghost predicate RequestInside(s: Service) {
    exists pin | pin in s.pins :: s.pins[pin].RequestPin?
  }

  /** Nobody waits anywhere exactly when no caller is inside. */
  lemma DrainedMeansEmpty(c: Config, s: Service)
    requires H.Inv(c, s)
    ensures Drained(s) <==> s.pins == map[]
  {
    if Drained(s) { P.FinalizeKeepsPins(s.sessions, s.operations, s.pins); }
    if s.pins == map[] {
      forall session | session in s.sessions ensures s.sessions[session].waiters == 0 {
        assert P.PinsIn(s.pins, session) == {};
      }
    }
  }

  /** What leaving does to a caller that is inside. */
  lemma LeaveShape(c: Config, s: Service, pin: nat)
    requires H.Inv(c, s) && pin in s.pins
    ensures PinHolds(s, s.pins[pin]) && Unparked(s, pin).pins == s.pins - {pin} && Unparked(s, pin).phase == s.phase
    ensures H.Inv(c, Unparked(s, pin)) && H.Inv(c, Leave(s, pin)) && s.fault.NoFault?
  {
    H.LeaveKeepsInv(c, s, pin);
    H.UnparkedKeepsInv(c, s, pin);
    P.PinsNeverLost(s, pin);
    P.UnparkedMovesCounters(s, pin);
  }

  lemma LastOne(pins: map<nat, Pin>, pin: nat)
    requires pin in pins
    ensures pins - {pin} == map[] <==> pins.Keys == {pin}
  {
    assert (pins - {pin}).Keys == pins.Keys - {pin};
    if pins - {pin} == map[] {
      assert pins.Keys - {pin} == {};
    } else {
      var other :| other in pins - {pin};
      assert other in pins.Keys;
    }
  }

  /** A leaving caller completes the shutdown exactly if it is a request and the last one inside. */
  lemma LeaveCompletes(c: Config, s: Service, pin: nat)
    requires H.Inv(c, s) && pin in s.pins && s.phase == Stopping(RequestOwner, true)
    ensures H.Inv(c, Leave(s, pin)) && Leave(s, pin).pins == s.pins - {pin}
    ensures Leave(s, pin).phase.Complete? <==> s.pins[pin].RequestPin? && s.pins.Keys == {pin}
    ensures !Leave(s, pin).phase.Complete? ==> Leave(s, pin).phase == s.phase
  {
    hide H.Inv, Drained, PinHolds, Unparked;
    LeaveShape(c, s, pin);
    DrainedMeansEmpty(c, Unparked(s, pin));
    LastOne(s.pins, pin);
  }

  /** Someone to leave next: any caller but the last request, while there is one. */
  lemma NextToLeave(s: Service) returns (request: nat, pin: nat)
    requires RequestInside(s)
    ensures request in s.pins && s.pins[request].RequestPin? && pin in s.pins
    ensures s.pins.Keys == {pin} || pin != request
    ensures s.pins.Keys == {pin} ==> pin == request
  {
    request :| request in s.pins && s.pins[request].RequestPin?;
    pin := request;
    if exists other | other in s.pins :: other != request {
      pin :| pin in s.pins && pin != request;
      assert request in s.pins.Keys;
    } else {
      assert s.pins.Keys == {request};
    }
  }

  /** The callers can leave so that the shutdown completes: the others first, a request last. */
  lemma {:induction false} CanComplete(c: Config, s: Service) returns (steps: seq<Step>)
    requires H.Inv(c, s) && s.phase == Stopping(RequestOwner, true) && RequestInside(s)
    ensures Run(c, s, steps).phase.Complete?
    decreases |s.pins|
  {
    hide H.Inv, Leave, Run;
    NoFaultYet(c, s);
    var request, pin := NextToLeave(s);
    LeaveCompletes(c, s, pin);
    var left := Leave(s, pin);
    if left.phase.Complete? {
      steps := [LeaveStep(pin)];
      FirstStep(c, s, LeaveStep(pin), []);
      NoStep(c, left);
      assert [LeaveStep(pin)] + [] == [LeaveStep(pin)];
    } else {
      Fewer(s.pins, pin);
      assert request in left.pins && left.pins[request].RequestPin?;
      var rest := CanComplete(c, left);
      steps := [LeaveStep(pin)] + rest;
      FirstStep(c, s, LeaveStep(pin), rest);
    }
  }

  lemma Fewer(pins: map<nat, Pin>, pin: nat)
    requires pin in pins
    ensures |pins - {pin}| < |pins|
  {
    assert (pins - {pin}).Keys == pins.Keys - {pin};
    assert |(pins - {pin}).Keys| == |pins - {pin}| && |pins.Keys| == |pins|;
  }

  lemma NoFaultYet(c: Config, s: Service)
    requires H.Inv(c, s)
    ensures s.fault.NoFault?
  {}

  /** A joined shutdown that a request began can still complete if and only if a request is still inside. */
  lemma CompletesWhileARequestStays(c: Config, s: Service)
    requires H.Inv(c, s) && s.phase == Stopping(RequestOwner, true)
    ensures RequestInside(s) <==> exists steps :: Run(c, s, steps).phase.Complete?
  {
    hide H.Inv, Run;
    if RequestInside(s) {
      var steps := CanComplete(c, s);
      assert Run(c, s, steps).phase.Complete?;
    } else {
      forall steps: seq<Step> ensures !Run(c, s, steps).phase.Complete? {
        AbandonedForGood(c, s, steps);
      }
    }
  }

  /**
   A joined shutdown of any other thread completes at once exactly when nobody is inside
   and its own worker has ended.
   */
  lemma OwnerCompletes(c: Config, s: Service)
    requires H.Inv(c, s) && s.phase.Stopping? && s.phase.joined && s.phase.owner != RequestOwner
    ensures ShutdownFinalize(s).phase.Complete? <==>
              && s.pins == map[]
              && (s.phase.owner.WorkerOwner? && s.phase.owner.id in s.operations ==>
                    s.operations[s.phase.owner.id].worker.Exited?)
  {
    DrainedMeansEmpty(c, s);
  }

  // ----- the run -----

  function Watched(waiters: nat, subscriptionWaiters: nat, active: bool): map<string, Session> {
    map["s" := Session(0, waiters, false, map["n" := Subscription(active, subscriptionWaiters, 1)])]
  }

  function Quiet(sessions: map<string, Session>, phase: Phase, pins: map<nat, Pin>): Service {
    Service(sessions, map[], [], false, None, 1, 2, Stats(0, 0, 0, 0, 0, 0), phase, pins, [], NoFault)
  }

  /** A request and a poller of one session; the request begins a shutdown and leaves first. */
  const ENTERING: seq<Step> :=
    [RegisterStep("s"), SubscribeStep("s", "n", ""), EnterStep(0, "s"), PollStep(1, "s", "n")]

  const LEAVING: seq<Step> :=
    [ShutdownBeginStep(RequestOwner, []), ShutdownJoinedStep, LeaveStep(0), LeaveStep(1)]

  const BOTH: map<nat, Pin> := map[0 := RequestPin("s"), 1 := SubscriptionPin("s", "n")]

  lemma EnteringRuns(c: Config, rest: seq<Step>)
    requires 0 < c.maxSessions && 0 < c.maxSubscriptions
    ensures Run(c, INITIAL, ENTERING + rest) == Run(c, Quiet(Watched(2, 1, true), Serving, BOTH), rest)
  {
    hide Run, Next;
    var a, b, d, e := RegisterStep("s"), SubscribeStep("s", "n", ""), EnterStep(0, "s"), PollStep(1, "s", "n");
    Registered(c);
    Subscribed(c);
    Entered(c);
    Polled(c);
    FirstStep(c, INITIAL, a, [b, d, e] + rest);
    FirstStep(c, INITIAL.(sessions := map["s" := Session(0, 0, false, map[])]), b, [d, e] + rest);
    FirstStep(c, Quiet(Watched(0, 0, true), Serving, map[]), d, [e] + rest);
    FirstStep(c, Quiet(Watched(1, 0, true), Serving, map[0 := RequestPin("s")]), e, rest);
    assert ENTERING + rest == [a] + ([b, d, e] + rest);
    assert [b, d, e] + rest == [b] + ([d, e] + rest);
    assert [d, e] + rest == [d] + ([e] + rest);
  }

  lemma Registered(c: Config)
    requires 0 < c.maxSessions
    ensures Next(c, INITIAL, RegisterStep("s")) == INITIAL.(sessions := map["s" := Session(0, 0, false, map[])])
  {}

  lemma Subscribed(c: Config)
    requires 0 < c.maxSubscriptions
    ensures Next(c, INITIAL.(sessions := map["s" := Session(0, 0, false, map[])]), SubscribeStep("s", "n", ""))
         == Quiet(Watched(0, 0, true), Serving, map[])
  {}

  lemma Entered(c: Config)
    ensures Next(c, Quiet(Watched(0, 0, true), Serving, map[]), EnterStep(0, "s"))
         == Quiet(Watched(1, 0, true), Serving, map[0 := RequestPin("s")])
  {}

  lemma Polled(c: Config)
    ensures Next(c, Quiet(Watched(1, 0, true), Serving, map[0 := RequestPin("s")]), PollStep(1, "s", "n"))
         == Quiet(Watched(2, 1, true), Serving, BOTH)
  {
    var s := Quiet(Watched(1, 0, true), Serving, map[0 := RequestPin("s")]);
    var t := Poll(s, 1, "s", "n");
    assert t.sessions["s"] == Watched(2, 1, true)["s"] by {
      assert t.sessions["s"].subscriptions == Watched(2, 1, true)["s"].subscriptions;
    }
    assert t.sessions == Watched(2, 1, true) && t.pins == BOTH;
  }

  lemma LeavingRuns(c: Config)
    ensures Run(c, Quiet(Watched(2, 1, true), Serving, BOTH), LEAVING) ==
            Quiet(Watched(0, 0, false), Stopping(RequestOwner, true), map[])
  {
    hide Run, Next;
    var a, b, d, e := ShutdownBeginStep(RequestOwner, []), ShutdownJoinedStep, LeaveStep(0), LeaveStep(1);
    Begun(c);
    Joined(c);
    RequestLeft(c);
    PollerLeft(c);
    FirstStep(c, Quiet(Watched(2, 1, true), Serving, BOTH), a, [b, d, e]);
    FirstStep(c, Quiet(Watched(2, 1, false), Stopping(RequestOwner, false), BOTH), b, [d, e]);
    FirstStep(c, Quiet(Watched(2, 1, false), Stopping(RequestOwner, true), BOTH), d, [e]);
    FirstStep(c, Quiet(Watched(1, 1, false), Stopping(RequestOwner, true), POLLER), e, []);
    NoStep(c, Quiet(Watched(0, 0, false), Stopping(RequestOwner, true), map[]));
    assert LEAVING == [a] + [b, d, e] && [b, d, e] == [b] + [d, e] && [d, e] == [d] + [e] && [e] == [e] + [];
  }

  const POLLER: map<nat, Pin> := map[1 := SubscriptionPin("s", "n")]

  lemma WatchedStops()
    ensures (map session | session in Watched(2, 1, true) :: Deactivated(Watched(2, 1, true)[session]))
         == Watched(2, 1, false)
  {
    var before, after := Watched(2, 1, true)["s"], Watched(2, 1, false)["s"];
    assert Deactivated(before).subscriptions == after.subscriptions;
  }

  lemma Begun(c: Config)
    ensures Next(c, Quiet(Watched(2, 1, true), Serving, BOTH), ShutdownBeginStep(RequestOwner, []))
         == Quiet(Watched(2, 1, false), Stopping(RequestOwner, false), BOTH)
  {
    hide ShutdownBegin, Watched;
    BeginsWithoutOperations(c, Quiet(Watched(2, 1, true), Serving, BOTH), RequestOwner);
    WatchedStops();
  }

  lemma Joined(c: Config)
    ensures Next(c, Quiet(Watched(2, 1, false), Stopping(RequestOwner, false), BOTH), ShutdownJoinedStep)
         == Quiet(Watched(2, 1, false), Stopping(RequestOwner, true), BOTH)
  {}

  lemma RequestLeft(c: Config)
    ensures Next(c, Quiet(Watched(2, 1, false), Stopping(RequestOwner, true), BOTH), LeaveStep(0))
         == Quiet(Watched(1, 1, false), Stopping(RequestOwner, true), POLLER)
  {
    var s := Quiet(Watched(2, 1, false), Stopping(RequestOwner, true), BOTH);
    var t := Unparked(s, 0);
    assert BOTH - {0} == POLLER;
    assert t.sessions == Watched(1, 1, false);
    assert "s" in t.sessions && t.sessions["s"].waiters == 1;
    assert !Drained(t);
  }

  lemma PollerLeft(c: Config)
    ensures Next(c, Quiet(Watched(1, 1, false), Stopping(RequestOwner, true), POLLER), LeaveStep(1))
         == Quiet(Watched(0, 0, false), Stopping(RequestOwner, true), map[])
  {
    var s := Quiet(Watched(1, 1, false), Stopping(RequestOwner, true), POLLER);
    var t := Unparked(s, 1);
    assert POLLER - {1} == map[];
    assert t.sessions["s"].subscriptions == Watched(0, 0, false)["s"].subscriptions;
    assert t.sessions == Watched(0, 0, false);
  }

  /** The run after which everything is drained and joined and no continuation completes the shutdown. */
  lemma DrainedButStuck(c: Config, later: seq<Step>)
    requires 0 < c.maxSessions && 0 < c.maxSubscriptions
    ensures var s := Run(c, INITIAL, ENTERING + LEAVING);
            && s.phase == Stopping(RequestOwner, true) && Drained(s) && s.pins == map[] && s.fault.NoFault?
            && !Run(c, s, later).phase.Complete?
  {
    hide Run;
    EnteringRuns(c, LEAVING);
    LeavingRuns(c);
    AbandonedForGood(c, Quiet(Watched(0, 0, false), Stopping(RequestOwner, true), map[]), later);
  }
}
