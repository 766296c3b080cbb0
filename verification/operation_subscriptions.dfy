/**
 The stored count of active subscriptions.  Removing a session and shutting down switch
 subscriptions off without counting down, so the count may exceed the active ones; it is
 never smaller, and the underflow errors of the cancellation sections cannot occur.
 */
module OperationSubscriptions {
  import opened Wrappers
  import opened OperationState
  import opened OperationFrames
  import H = OperationHistory

  predicate ActiveIn(sessions: map<string, Session>, session: string, id: string) {
    session in sessions && id in sessions[session].subscriptions && sessions[session].subscriptions[id].active
  }

  function Open(sessions: map<string, Session>): set<(string, string)> {
    set session, id | session in sessions && id in sessions[session].subscriptions && ActiveIn(sessions, session, id) ::
      (session, id)
  }

  /** No subscription becomes active. */
  ghost predicate NoneOpened(before: map<string, Session>, after: map<string, Session>) {
    forall session, id | ActiveIn(after, session, id) :: ActiveIn(before, session, id)
  }

  // ----- the sections that open nothing -----

  /** The subscriptions of every session stay as they are. */
  ghost predicate SameSubscriptions(before: map<string, Session>, after: map<string, Session>) {
    && after.Keys == before.Keys
    && forall session | session in before :: after[session].subscriptions == before[session].subscriptions
  }

  lemma SameOpensNothing(before: map<string, Session>, after: map<string, Session>)
    requires SameSubscriptions(before, after)
    ensures NoneOpened(before, after)
  {}

  lemma CompletionSubscriptions(c: Config, s: Service, id: string, ended: Operation)
    ensures SameSubscriptions(s.sessions, CompleteOperation(c, s, id, ended).sessions)
  {
    hide QueueOperation, Counted, Retire;
    var numbered := ended.(snapshot := ended.snapshot.(sequence := s.nextSequence));
    var stored := Store(s.(stats := Counted(s.stats, ended.snapshot.status)), id, numbered)
                  .(nextSequence := s.nextSequence + 1);
    H.RetireFrame(stored, numbered.snapshot.session);
    QueueFrame(c, Retire(stored, numbered.snapshot.session), id, numbered.snapshot);
  }

  lemma StartSubscriptions(c: Config, s: Service, id: string, stopped: bool)
    requires s.fault.NoFault?
    ensures SameSubscriptions(s.sessions, Start(c, s, id, stopped).sessions)
  {
    hide Advance, CompleteOperation;
    if id in s.operations {
      var operation := s.operations[id];
      CompletionSubscriptions(c, s, id, operation.(
        snapshot := operation.snapshot.(status := Cancelled, cancelRequested := true, result := None,
                                        error := Some("operation cancelled before start")),
        worker := Finished));
      AdvanceFrame(c, s, id, operation.(snapshot := operation.snapshot.(status := Running), worker := Executing));
    }
  }

  lemma ProgressSubscriptions(c: Config, s: Service, id: string, completed: nat)
    requires s.fault.NoFault?
    ensures SameSubscriptions(s.sessions, Progress(c, s, id, completed).sessions)
  {
    hide Advance;
    if id in s.operations {
      var operation := s.operations[id];
      AdvanceFrame(c, s, id, operation.(snapshot := operation.snapshot.(completed := completed)));
    }
  }

  lemma FinishSubscriptions(c: Config, s: Service, id: string, outcome: Outcome)
    ensures SameSubscriptions(s.sessions, Finish(c, s, id, outcome).sessions)
  {
    hide CompleteOperation, Concluded;
    if id in s.operations {
      var operation := s.operations[id];
      CompletionSubscriptions(c, s, id,
                              operation.(snapshot := Concluded(operation.snapshot, outcome), worker := Finished));
    }
  }

  lemma AdmitSubscriptions(s: Service, session: string, id: string, total: nat)
    requires session in s.sessions
    ensures SameSubscriptions(s.sessions, Admit(s, session, id, total).sessions)
  {}

  lemma EvictSubscriptions(s: Service, id: string)
    ensures Evict(s, id).sessions == s.sessions
  {}

  lemma SubmitSubscriptions(c: Config, s: Service, session: string, id: string, total: nat, victim: string,
                            spawned: bool)
    ensures SameSubscriptions(s.sessions, Submit(c, s, session, id, total, victim, spawned).sessions)
  {
    hide CollectFinished, IsOldestEvictable, Admit, Evict;
    var collected := CollectFinished(s);
    H.CollectIsQuiet(s);
    EvictSubscriptions(collected, victim);
    var room := if |s.operations| == c.maxRetained then Evict(collected, victim) else collected;
    if session in room.sessions { AdmitSubscriptions(room, session, id, total); }
  }

  lemma OperationStepOpensNothing(c: Config, s: Service, step: Step)
    requires s.fault.NoFault?
    requires step.SubmitStep? || step.StartStep? || step.ProgressStep? || step.FinishStep? || step.ExitStep? ||
             step.CancelStep?
    ensures NoneOpened(s.sessions, Next(c, s, step).sessions)
  {
    hide Submit, Start, Progress, Finish, Exit, Cancel, NoneOpened, SameSubscriptions;
    match step {
      case SubmitStep(session, id, total, victim, spawned) =>
        SubmitSubscriptions(c, s, session, id, total, victim, spawned);
      case StartStep(id, stopped) => StartSubscriptions(c, s, id, stopped);
      case ProgressStep(id, completed) => ProgressSubscriptions(c, s, id, completed);
      case FinishStep(id, outcome) => FinishSubscriptions(c, s, id, outcome);
      case CancelStep(session, id) => CancelSubscriptions(c, s, session, id);
      case ExitStep(id) => CancelSubscriptions(c, s, "", id);
    }
    SameOpensNothing(s.sessions, Next(c, s, step).sessions);
  }

  lemma CancelSubscriptions(c: Config, s: Service, session: string, id: string)
    requires s.fault.NoFault?
    ensures SameSubscriptions(s.sessions, Cancel(c, s, session, id).sessions)
    ensures SameSubscriptions(s.sessions, Exit(s, id).sessions)
  {
    hide CancelOne;
    CancelOneFrame(c, s, id);
  }

  lemma RemovalOpensNothing(c: Config, s: Service, session: string, ids: seq<string>)
    requires s.fault.NoFault?
    ensures NoneOpened(s.sessions, RemoveBegin(c, s, session, ids).sessions)
  {
    hide CancelAll, Lists, OperationsOf;
    if session in s.sessions {
      CancelAllFrame(c, s.(sessions := s.sessions[session := s.sessions[session].(closing := true)]), ids);
    }
  }

  lemma ShutdownOpensNothing(c: Config, s: Service, owner: Owner, ids: seq<string>)
    requires s.fault.NoFault?
    ensures NoneOpened(s.sessions, ShutdownBegin(c, s, owner, ids).sessions)
  {
    hide CancelAll, Lists, JoinUnlessOwner;
    CancelAllFrame(c, s.(phase := Stopping(owner, false)), ids);
  }

  lemma CallersOpenNothing(c: Config, s: Service, step: Step)
    requires step.EnterStep? || step.WaitStep? || step.PollStep? || step.LeaveStep?
    ensures NoneOpened(s.sessions, Next(c, s, step).sessions)
  {
    hide NoneOpened, Enter, Wait, Poll, Leave;
    match step
    case EnterStep(pin, session) => ParkingOpensNothing(s, pin, session, "");
    case WaitStep(pin, session, id) => ParkingOpensNothing(s, pin, session, id);
    case PollStep(pin, session, id) => ParkingOpensNothing(s, pin, session, id);
    case LeaveStep(pin) => LeavingOpensNothing(s, pin);
  }

  lemma ParkingOpensNothing(s: Service, pin: nat, session: string, id: string)
    ensures NoneOpened(s.sessions, Enter(s, pin, session).sessions)
    ensures NoneOpened(s.sessions, Wait(s, pin, session, id).sessions)
    ensures NoneOpened(s.sessions, Poll(s, pin, session, id).sessions)
  {
    hide NoneOpened, Poll;
    SameOpensNothing(s.sessions, Enter(s, pin, session).sessions);
    SameOpensNothing(s.sessions, Wait(s, pin, session, id).sessions);
    PollingOpensNothing(s, pin, session, id);
  }

  lemma PollingOpensNothing(s: Service, pin: nat, session: string, id: string)
    ensures NoneOpened(s.sessions, Poll(s, pin, session, id).sessions)
  {}

  lemma LeavingOpensNothing(s: Service, pin: nat)
    ensures NoneOpened(s.sessions, Leave(s, pin).sessions)
  {
    hide Drained;
  }

  lemma DrainSubscriptions(c: Config, s: Service)
    ensures DrainBegin(c, s).sessions == DrainTake(s).sessions == ShutdownJoined(s).sessions == s.sessions
  {}

  lemma PublishSubscriptions(c: Config, s: Service, session: string, id: string, item: nat)
    ensures Publish(c, s, session, id, item).sessions == s.sessions
  {
    hide Coalesce, NoRoom;
  }

  lemma SettleSubscriptions(s: Service, ok: bool)
    ensures DrainSettle(s, ok).sessions == s.sessions
  {
    hide DrainSettle;
    H.SettleShape(s, ok);
  }

  lemma OthersOpenNothing(c: Config, s: Service, step: Step)
    requires s.fault.NoFault? && !step.SubscribeStep? && !step.UnsubscribeStep?
    ensures NoneOpened(s.sessions, Next(c, s, step).sessions)
  {
    hide NoneOpened, RemoveBegin, ShutdownBegin, Register, RemoveFinish, ShutdownFinalize, Publish, DrainBegin,
      DrainTake, DrainSettle, ShutdownJoined;
    SameOpensNothing(s.sessions, s.sessions);
    match step
    case SubmitStep(_, _, _, _, _) | StartStep(_, _) | ProgressStep(_, _) | FinishStep(_, _) | ExitStep(_) |
         CancelStep(_, _) =>
      OperationStepOpensNothing(c, s, step);
    case RemoveBeginStep(session, ids) => RemovalOpensNothing(c, s, session, ids);
    case ShutdownBeginStep(owner, ids) => ShutdownOpensNothing(c, s, owner, ids);
    case EnterStep(_, _) | WaitStep(_, _, _) | PollStep(_, _, _) | LeaveStep(_) => CallersOpenNothing(c, s, step);
    case RegisterStep(session) => BoundsOpenNothing(c, s, session);
    case RemoveFinishStep(session) => BoundsOpenNothing(c, s, session);
    case ShutdownFinalizeStep => BoundsOpenNothing(c, s, "");
    case PublishStep(session, id, item) => PublishSubscriptions(c, s, session, id, item);
    case DrainSettleStep(ok) => SettleSubscriptions(s, ok);
    case DrainBeginStep | DrainTakeStep | ShutdownJoinedStep => DrainSubscriptions(c, s);
  }

  lemma BoundsOpenNothing(c: Config, s: Service, session: string)
    ensures NoneOpened(s.sessions, Register(c, s, session).sessions)
    ensures NoneOpened(s.sessions, RemoveFinish(s, session).sessions)
    ensures NoneOpened(s.sessions, ShutdownFinalize(s).sessions)
  {
    hide EraseSubscriptions, ReleaseOf, Drained;
  }

  // ----- the count -----

  /** The count after a step, or None where the code would report an underflow. */
  function Counting(c: Config, s: Service, step: Step, n: nat): Option<nat> {
    match step
    case SubscribeStep(session, id, victim) => Some(if Subscribe(c, s, session, id, victim) != s then n + 1 else n)
    case UnsubscribeStep(session, id) =>
      if !ActiveIn(s.sessions, session, id) then Some(n) else if n == 0 then None else Some(n - 1)
    case _ => Some(n)
  }

  function Counter(c: Config, s: Service, n: nat, steps: seq<Step>): Option<nat>
    decreases |steps|
  {
    if steps == [] || !s.fault.NoFault? then Some(n)
    else
      var next := Counting(c, s, steps[0], n);
      if next.None? then None else Counter(c, Next(c, s, steps[0]), next.value, steps[1..])
  }

  lemma OpenHolds(sessions: map<string, Session>, session: string, id: string)
    ensures (session, id) in Open(sessions) <==> ActiveIn(sessions, session, id)
  {}

  lemma FewerOpen(before: map<string, Session>, after: map<string, Session>)
    requires NoneOpened(before, after)
    ensures Open(after) <= Open(before)
  {
    hide Open, ActiveIn;
    forall x | x in Open(after) ensures x in Open(before) {
      OpenHolds(after, x.0, x.1);
      OpenHolds(before, x.0, x.1);
    }
  }

  lemma SubscribeOpensOne(c: Config, s: Service, session: string, id: string, victim: string)
    ensures var t := Subscribe(c, s, session, id, victim);
            t != s ==> (session, id) !in Open(s.sessions) && Open(t.sessions) == Open(s.sessions) + {(session, id)}
  {
    hide EraseKey, Open;
    var t := Subscribe(c, s, session, id, victim);
    if t != s {
      OpenHolds(s.sessions, session, id);
      forall x ensures x in Open(t.sessions) <==> x in Open(s.sessions) + {(session, id)} {
        OpenHolds(t.sessions, x.0, x.1);
        OpenHolds(s.sessions, x.0, x.1);
      }
    }
  }

  lemma UnsubscribeClosesOne(s: Service, session: string, id: string)
    ensures Open(Unsubscribe(s, session, id).sessions) == Open(s.sessions) - {(session, id)}
  {
    hide Open;
    var t := Unsubscribe(s, session, id);
    forall x ensures x in Open(t.sessions) <==> x in Open(s.sessions) - {(session, id)} {
      OpenHolds(t.sessions, x.0, x.1);
      OpenHolds(s.sessions, x.0, x.1);
    }
  }

  /** The subscriptions a step switches off without being their cancellation. */
  function ClosedSilently(s: Service, t: Service, step: Step): set<(string, string)> {
    Open(s.sessions) - Open(t.sessions) - (if step.UnsubscribeStep? then {(step.session, step.id)} else {})
  }

  lemma SubscribedExcess(c: Config, s: Service, step: Step)
    requires step.SubscribeStep?
    ensures var t := Subscribe(c, s, step.session, step.id, step.victim);
            && Next(c, s, step) == t && |ClosedSilently(s, t, step)| == 0
            && |Open(t.sessions)| == |Open(s.sessions)| + (if t != s then 1 else 0)
  {
    hide Subscribe, Open;
    SubscribeOpensOne(c, s, step.session, step.id, step.victim);
    assert ClosedSilently(s, Next(c, s, step), step) == {};
  }

  lemma UnsubscribedExcess(c: Config, s: Service, step: Step)
    requires step.UnsubscribeStep?
    ensures var t := Next(c, s, step);
            && |ClosedSilently(s, t, step)| == 0
            && |Open(t.sessions)| ==
               |Open(s.sessions)| - (if ActiveIn(s.sessions, step.session, step.id) then 1 else 0)
  {
    hide Unsubscribe, Open, ActiveIn;
    UnsubscribeClosesOne(s, step.session, step.id);
    OpenHolds(s.sessions, step.session, step.id);
    assert ClosedSilently(s, Next(c, s, step), step) == {};
    if !ActiveIn(s.sessions, step.session, step.id) {
      assert Open(s.sessions) - {(step.session, step.id)} == Open(s.sessions);
    }
  }

  lemma OtherExcess(c: Config, s: Service, step: Step)
    requires s.fault.NoFault? && !step.SubscribeStep? && !step.UnsubscribeStep?
    ensures var t := Next(c, s, step); |Open(t.sessions)| == |Open(s.sessions)| - |ClosedSilently(s, t, step)|
  {
    hide Next, Open, NoneOpened;
    OthersOpenNothing(c, s, step);
    var before, after := Open(s.sessions), Open(Next(c, s, step).sessions);
    FewerOpen(s.sessions, Next(c, s, step).sessions);
    assert before == after + (before - after) && before - after - {} == before - after;
  }

  /** The excess of the count over the active subscriptions grows by exactly the ones that were not cancelled. */
  lemma ExcessIsClosed(c: Config, s: Service, step: Step, n: nat)
    requires s.fault.NoFault? && |Open(s.sessions)| <= n
    ensures var t, count := Next(c, s, step), Counting(c, s, step, n);
            && count.Some?
            && count.value - |Open(t.sessions)| == n - |Open(s.sessions)| + |ClosedSilently(s, t, step)|
  {
    hide Open, ActiveIn, Next, ClosedSilently, Subscribe;
    if step.SubscribeStep? {
      SubscribedExcess(c, s, step);
    } else if step.UnsubscribeStep? {
      UnsubscribedExcess(c, s, step);
    } else {
      OtherExcess(c, s, step);
    }
  }

  /** The count never underflows, and it never falls below the number of active subscriptions. */
  lemma {:induction false} CountNeverUnderflows(c: Config, s: Service, n: nat, steps: seq<Step>)
    requires |Open(s.sessions)| <= n
    ensures Counter(c, s, n, steps).Some? && |Open(Run(c, s, steps).sessions)| <= Counter(c, s, n, steps).value
    decreases |steps|
  {
    hide Next, Open, Counting;
    if steps != [] && s.fault.NoFault? {
      ExcessIsClosed(c, s, steps[0], n);
      CountNeverUnderflows(c, Next(c, s, steps[0]), Counting(c, s, steps[0], n).value, steps[1..]);
    }
  }
}
