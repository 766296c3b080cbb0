/**
 The invariant of the whole service over every interleaving of its critical
 sections, and what follows from it.
 */
module OperationHistory {
  import opened Wrappers
  import opened OperationState
  import opened OperationFrames
  import A = OperationAccounting
  import Q = OperationQueue
  import L = OperationLifecycle
  import P = OperationPins

  ghost predicate Admitted(s: Service) {
    && 0 < s.nextSequence <= MAX_SEQUENCE
    && forall id | id in s.operations :: s.operations[id].admission < s.nextAdmission
  }

  ghost predicate Inv(c: Config, s: Service) {
    && ValidConfig(c) && s.fault.NoFault?
    && Admitted(s)
    && A.Accounting(c, s)
    && Q.Queue(c, s)
    && L.Lifecycle(s.phase, s.operations)
    && P.Pinned(s.sessions, s.operations, s.pins)
  }

  /** The only way out of the invariant is the exhaustion of the 64-bit sequence counter. */
  ghost predicate Good(c: Config, s: Service) {
    Inv(c, s) || s.fault.SequenceExhausted?
  }

  // ----- one operation changes -----

  /** A live record and its successor in the same place of its life. */
  predicate LiveChange(before: Operation, after: Operation) {
    && !Terminal(before.snapshot.status)
    && after.snapshot.session == before.snapshot.session
    && after.delivered == before.delivered && after.admission == before.admission
    && after.waiters == before.waiters && after.handle == before.handle
    && !after.snapshot.status.Queued?
    && L.Consistent(after)
  }

  lemma ChangePins(s: Service, id: string, after: Operation)
    requires P.Pinned(s.sessions, s.operations, s.pins) && id in s.operations
    requires after.waiters == s.operations[id].waiters
    requires after.snapshot.session == s.operations[id].snapshot.session
    ensures P.Pinned(s.sessions, s.operations[id := after], s.pins)
  {
    hide P.Pinned;
    P.PinsFrame(s.sessions, s.operations, s.pins, s.sessions, s.operations[id := after]);
  }

  lemma AdvanceKeepsInv(c: Config, s: Service, id: string, operation: Operation)
    requires Inv(c, s) && id in s.operations && LiveChange(s.operations[id], operation)
    requires !Terminal(operation.snapshot.status)
    ensures Good(c, Advance(c, s, id, operation))
  {
    hide A.Accounting, Q.Queue, P.Pinned, L.Lifecycle, Advance, ValidConfig, L.Consistent;
    if s.nextSequence == MAX_SEQUENCE {
      AdvanceExhausted(c, s, id, operation);
    } else {
      LiveMeansOpen(s.phase, s.operations, id);
      var t := Advance(c, s, id, operation);
      assert Q.Sound(c, s) by { AccountingBounded(c, s); }
      AdvanceFrame(c, s, id, operation);
      A.AdvanceKeepsAccounting(c, s, id, operation);
      Q.AdvanceKeepsQueue(c, s, id, operation);
      ChangePins(s, id, t.operations[id]);
      ChangeLifecycle(s, id, operation, t.operations[id]);
      AdvanceTicks(c, s, id, operation);
    }
  }

  lemma AdvanceExhausted(c: Config, s: Service, id: string, operation: Operation)
    requires s.nextSequence == MAX_SEQUENCE
    ensures Advance(c, s, id, operation).fault.SequenceExhausted?
  {}

  lemma LiveMeansOpen(phase: Phase, operations: map<string, Operation>, id: string)
    requires L.Lifecycle(phase, operations) && id in operations && !Terminal(operations[id].snapshot.status)
    ensures !phase.Complete? && !operations[id].worker.Exited?
  {
    assert L.Consistent(operations[id]);
  }

  lemma ChangeLifecycle(s: Service, id: string, changed: Operation, after: Operation)
    requires L.Lifecycle(s.phase, s.operations) && id in s.operations && LiveChange(s.operations[id], changed)
    requires Restamped(changed, after)
    ensures L.Lifecycle(s.phase, s.operations[id := after])
  {
    LiveMeansOpen(s.phase, s.operations, id);
    L.ChangeKeepsLifecycle(s.phase, s.operations, id, after);
  }

  lemma AccountingBounded(c: Config, s: Service)
    requires A.Accounting(c, s)
    ensures A.Bounded(c, s.sessions, s.operations)
  {}

  lemma AdvanceTicks(c: Config, s: Service, id: string, operation: Operation)
    requires s.nextSequence != MAX_SEQUENCE
    ensures Advance(c, s, id, operation).nextSequence == s.nextSequence + 1
  {
    hide Coalesce, NoRoom;
  }

  lemma CompletionFrame(c: Config, s: Service, id: string, ended: Operation)
    requires s.nextSequence != MAX_SEQUENCE && CompleteOperation(c, s, id, ended).fault.NoFault? && s.fault.NoFault?
    ensures var t := CompleteOperation(c, s, id, ended);
            && id in t.operations && t.operations == s.operations[id := t.operations[id]]
            && Restamped(ended, t.operations[id])
            && t.phase == s.phase && t.pins == s.pins && t.nextAdmission == s.nextAdmission
            && t.nextSequence == s.nextSequence + 1
            && t.sessions.Keys == s.sessions.Keys
            && forall session | session in s.sessions ::
                 t.sessions[session] == s.sessions[session].(active := t.sessions[session].active)
  {
    hide QueueOperation, Retire, Counted;
    var numbered := ended.(snapshot := ended.snapshot.(sequence := s.nextSequence));
    var stored := Store(s.(stats := Counted(s.stats, ended.snapshot.status)), id, numbered)
                  .(nextSequence := s.nextSequence + 1);
    var retired := Retire(stored, numbered.snapshot.session);
    RetireFrame(stored, numbered.snapshot.session);
    QueueFrame(c, retired, id, numbered.snapshot);
  }

  lemma RetireFrame(s: Service, session: string)
    ensures var t := Retire(s, session);
            && t == s.(sessions := t.sessions, stats := t.stats, fault := t.fault)
            && t.sessions.Keys == s.sessions.Keys
            && forall other | other in s.sessions ::
                 t.sessions[other] == s.sessions[other].(active := t.sessions[other].active)
  {}

  lemma CompletionKeepsInv(c: Config, s: Service, id: string, ended: Operation)
    requires Inv(c, s) && id in s.operations && LiveChange(s.operations[id], ended)
    requires Terminal(ended.snapshot.status)
    ensures Good(c, CompleteOperation(c, s, id, ended))
  {
    hide A.Accounting, Q.Queue, P.Pinned, L.Lifecycle, CompleteOperation, ValidConfig, L.Consistent;
    if s.nextSequence == MAX_SEQUENCE {
      CompletionExhausted(c, s, id, ended);
    } else {
      LiveMeansOpen(s.phase, s.operations, id);
      var t := CompleteOperation(c, s, id, ended);
      assert Q.Sound(c, s) by { AccountingBounded(c, s); }
      A.CompletionKeepsAccounting(c, s, id, ended);
      Q.CompletionKeepsQueue(c, s, id, ended);
      CompletionFrame(c, s, id, ended);
      P.PinsFrame(s.sessions, s.operations, s.pins, t.sessions, t.operations);
      ChangeLifecycle(s, id, ended, t.operations[id]);
    }
  }

  lemma CompletionExhausted(c: Config, s: Service, id: string, ended: Operation)
    requires s.nextSequence == MAX_SEQUENCE
    ensures CompleteOperation(c, s, id, ended).fault.SequenceExhausted?
  {}

  lemma StartKeepsInv(c: Config, s: Service, id: string, stopped: bool)
    requires Inv(c, s)
    ensures Good(c, Start(c, s, id, stopped))
  {
    hide Advance, CompleteOperation, A.Accounting, Q.Queue, P.Pinned, ValidConfig;
    if id in s.operations && s.operations[id].worker.Spawned? {
      var operation := s.operations[id];
      assert L.Consistent(operation);
      if operation.snapshot.cancelRequested || stopped {
        CompletionKeepsInv(c, s, id, operation.(
          snapshot := operation.snapshot.(status := Cancelled, cancelRequested := true, result := None,
                                          error := Some("operation cancelled before start")),
          worker := Finished));
      } else {
        AdvanceKeepsInv(c, s, id,
                        operation.(snapshot := operation.snapshot.(status := Running), worker := Executing));
      }
    }
  }

  lemma ProgressKeepsInv(c: Config, s: Service, id: string, completed: nat)
    requires Inv(c, s)
    ensures Good(c, Progress(c, s, id, completed))
  {
    hide Advance, A.Accounting, Q.Queue, P.Pinned, ValidConfig;
    if Progress(c, s, id, completed) != s {
      var operation := s.operations[id];
      assert L.Consistent(operation);
      AdvanceKeepsInv(c, s, id, operation.(snapshot := operation.snapshot.(completed := completed)));
    }
  }

  lemma FinishKeepsInv(c: Config, s: Service, id: string, outcome: Outcome)
    requires Inv(c, s)
    ensures Good(c, Finish(c, s, id, outcome))
  {
    hide CompleteOperation, A.Accounting, Q.Queue, P.Pinned, ValidConfig;
    if id in s.operations && s.operations[id].worker.Executing? {
      var operation := s.operations[id];
      assert L.Consistent(operation);
      CompletionKeepsInv(c, s, id,
                         operation.(snapshot := Concluded(operation.snapshot, outcome), worker := Finished));
    }
  }

  lemma CancelOneKeepsInv(c: Config, s: Service, id: string)
    requires Inv(c, s)
    ensures Good(c, CancelOne(c, s, id))
  {
    hide Advance, A.Accounting, Q.Queue, P.Pinned, ValidConfig;
    if CancelOne(c, s, id) != s {
      assert L.Consistent(s.operations[id]);
      AdvanceKeepsInv(c, s, id, RequestCancel(s.operations[id]));
    }
  }

  // ----- frames for the remaining sections -----

  lemma ExitKeepsInv(c: Config, s: Service, id: string)
    requires Inv(c, s)
    ensures Inv(c, Exit(s, id))
  {
    hide A.Accounting, Q.Queue, P.Pinned, ValidConfig;
    var t := Exit(s, id);
    if t != s {
      assert L.Consistent(s.operations[id]);
      A.OperationsFrame(c, s, t.operations);
      Q.QueueFrameOf(c, s, t);
      ChangePins(s, id, t.operations[id]);
      L.ChangeKeepsLifecycle(s.phase, s.operations, id, t.operations[id]);
    }
  }

  /** Sessions change without touching counters, waiters or which subscriptions exist. */
  ghost predicate SessionsAlike(before: map<string, Session>, after: map<string, Session>) {
    && before.Keys == after.Keys
    && forall session | session in before ::
         && after[session].active == before[session].active
         && after[session].waiters == before[session].waiters
         && after[session].subscriptions.Keys == before[session].subscriptions.Keys
         && forall id | id in before[session].subscriptions ::
              after[session].subscriptions[id].waiters == before[session].subscriptions[id].waiters
  }

  lemma SessionsKeepInv(c: Config, s: Service, sessions: map<string, Session>)
    requires Inv(c, s) && SessionsAlike(s.sessions, sessions)
    ensures Inv(c, s.(sessions := sessions))
  {
    hide A.Accounting, Q.Queue, P.Pinned, L.Lifecycle, ValidConfig;
    forall session | session in sessions
      ensures |sessions[session].subscriptions| == |s.sessions[session].subscriptions|
    {
      assert |sessions[session].subscriptions| == |sessions[session].subscriptions.Keys|;
      assert |s.sessions[session].subscriptions| == |s.sessions[session].subscriptions.Keys|;
    }
    A.SessionsFrame(c, s, sessions);
    QueueSessions(c, s, sessions);
    P.PinsFrame(s.sessions, s.operations, s.pins, sessions, s.operations);
  }

  lemma QueueSessions(c: Config, s: Service, sessions: map<string, Session>)
    requires Q.Queue(c, s) && SessionsAlike(s.sessions, sessions)
    ensures Q.Queue(c, s.(sessions := sessions))
  {
    hide Q.Distinct, Q.Tracks, Q.Flight, Q.Logged, Q.Increasing;
  }

  lemma RegisterKeepsInv(c: Config, s: Service, session: string)
    requires Inv(c, s)
    ensures Inv(c, Register(c, s, session))
  {
    hide A.Accounting, Q.Queue, P.Pinned, L.Lifecycle, ValidConfig;
    if Register(c, s, session) != s {
      RegisterAccounting(c, s, session);
      RegisterQueue(c, s, session);
      RegisterPins(s, session);
    }
  }

  lemma RegisterQueue(c: Config, s: Service, session: string)
    requires Q.Queue(c, s) && session !in s.sessions
    ensures Q.Queue(c, s.(sessions := s.sessions[session := Session(0, 0, false, map[])]))
  {
    hide Q.Distinct, Q.Tracks, Q.Flight, Q.Logged, Q.Increasing;
  }

  lemma NothingActiveElsewhere(c: Config, s: Service, session: string)
    requires A.Accounting(c, s) && session !in s.sessions
    ensures |A.ActiveOf(s.operations, session)| == 0
  {
    assert A.ActiveOf(s.operations, session) == {};
  }

  lemma RegisterAccounting(c: Config, s: Service, session: string)
    requires A.Accounting(c, s) && session !in s.sessions && |s.sessions| < c.maxSessions
    ensures A.Accounting(c, s.(sessions := s.sessions[session := Session(0, 0, false, map[])]))
  {
    hide A.ActiveOf, A.ActiveIds, A.Bounded, A.Balanced;
    NothingActiveElsewhere(c, s, session);
    RegisterBalanced(s.sessions, s.operations, s.stats, session);
    RegisterBounded(c, s.sessions, s.operations, session);
  }

  lemma RegisterBalanced(sessions: map<string, Session>, operations: map<string, Operation>, stats: Stats,
                         session: string)
    requires A.Balanced(sessions, operations, stats) && session !in sessions && |A.ActiveOf(operations, session)| == 0
    ensures A.Balanced(sessions[session := Session(0, 0, false, map[])], operations, stats)
  {
    hide A.ActiveOf, A.ActiveIds;
  }

  lemma RegisterBounded(c: Config, sessions: map<string, Session>, operations: map<string, Operation>, session: string)
    requires A.Bounded(c, sessions, operations) && session !in sessions && |sessions| < c.maxSessions
    ensures A.Bounded(c, sessions[session := Session(0, 0, false, map[])], operations)
  {
    assert sessions[session := Session(0, 0, false, map[])].Keys == sessions.Keys + {session};
  }

  lemma RegisterPins(s: Service, session: string)
    requires P.Pinned(s.sessions, s.operations, s.pins) && session !in s.sessions
    ensures P.Pinned(s.sessions[session := Session(0, 0, false, map[])], s.operations, s.pins)
  {
    hide P.PinsIn, P.PinsAt;
    var sessions := s.sessions[session := Session(0, 0, false, map[])];
    forall pin | pin in s.pins
      ensures s.pins[pin].session != session && P.TargetAlive(sessions, s.operations, s.pins[pin])
    {
      assert P.TargetAlive(s.sessions, s.operations, s.pins[pin]);
    }
    P.NobodyIn(s.pins, session);
  }

  // ----- submitting -----

  lemma CollectKeepsLifecycle(s: Service)
    requires L.Lifecycle(s.phase, s.operations)
    ensures L.Lifecycle(s.phase, CollectFinished(s).operations)
  {}

  lemma CollectKeepsInv(c: Config, s: Service)
    requires Inv(c, s)
    ensures Inv(c, CollectFinished(s))
  {
    hide A.Accounting, Q.Queue, P.Pinned, L.Lifecycle, ValidConfig;
    CollectKeepsLifecycle(s);
    var t := CollectFinished(s);
    A.CollectKeepsAccounting(c, s);
    Q.QueueFrameOf(c, s, t);
    P.PinsFrame(s.sessions, s.operations, s.pins, t.sessions, t.operations);
  }

  lemma EvictKeepsInv(c: Config, s: Service, id: string)
    requires Inv(c, s) && IsOldestEvictable(s.operations, id)
    ensures Inv(c, Evict(s, id)) && |Evict(s, id).operations| < c.maxRetained
  {
    hide A.Accounting, Q.Queue, P.Pinned, ValidConfig;
    A.EvictionKeepsAccounting(c, s, id);
    Q.EvictionKeepsQueue(c, s, id);
    P.EvictionKeepsPins(s.sessions, s.operations, s.pins, id);
  }

  lemma AdmitKeepsInv(c: Config, s: Service, session: string, id: string, total: nat)
    requires Inv(c, s) && session in s.sessions && id !in s.operations && s.phase.Serving?
    requires s.sessions[session].active < c.maxTasks && |s.operations| < c.maxRetained && 0 < total
    requires s.nextSequence != MAX_SEQUENCE
    ensures Inv(c, Admit(s, session, id, total))
  {
    hide A.Accounting, Q.Queue, P.Pinned, ValidConfig;
    var t := Admit(s, session, id, total);
    A.AdmissionKeepsAccounting(c, s, session, id, total);
    Q.AdmissionKeepsQueue(c, s, session, id, total);
    P.AdmissionKeepsPins(s.sessions, s.operations, s.pins, id, t.operations[id]);
    P.PinsFrame(s.sessions, t.operations, s.pins, t.sessions, t.operations);
  }

  lemma SkipNumbersKeepsInv(c: Config, s: Service)
    requires Inv(c, s) && s.nextSequence != MAX_SEQUENCE
    ensures Inv(c, s.(nextSequence := s.nextSequence + 1, nextAdmission := s.nextAdmission + 1))
  {
    hide A.Balanced, A.Bounded, Q.Queue, P.Pinned, ValidConfig, L.Lifecycle;
    Q.QueueFrameOf(c, s, s.(nextSequence := s.nextSequence + 1, nextAdmission := s.nextAdmission + 1));
  }

  lemma MakeRoomKeepsInv(c: Config, s: Service, victim: string)
    requires Inv(c, s)
    ensures Inv(c, CollectFinished(s)) && CollectFinished(s) == s.(operations := CollectFinished(s).operations)
    ensures |s.operations| == c.maxRetained && IsOldestEvictable(CollectFinished(s).operations, victim) ==>
              var room := Evict(CollectFinished(s), victim);
              && Inv(c, room) && |room.operations| < c.maxRetained
              && room == s.(operations := room.operations, stats := room.stats)
    ensures |s.operations| != c.maxRetained ==> |CollectFinished(s).operations| < c.maxRetained
  {
    hide Inv, CollectFinished, Evict, IsOldestEvictable;
    var collected := CollectFinished(s);
    CollectKeepsInv(c, s);
    CollectShape(c, s);
    if IsOldestEvictable(collected.operations, victim) {
      EvictKeepsInv(c, collected, victim);
      EvictShape(collected, victim);
    }
  }

  lemma SubmitKeepsInv(c: Config, s: Service, session: string, id: string, total: nat, victim: string, spawned: bool)
    requires Inv(c, s)
    ensures Inv(c, Submit(c, s, session, id, total, victim, spawned))
  {
    hide Inv, CollectFinished, Evict, Admit, IsOldestEvictable;
    MakeRoomKeepsInv(c, s, victim);
    var collected := CollectFinished(s);
    var room := if |s.operations| == c.maxRetained then Evict(collected, victim) else collected;
    if s.phase.Serving? && session in s.sessions && s.sessions[session].active < c.maxTasks && 0 < total &&
       (|s.operations| == c.maxRetained ==> IsOldestEvictable(collected.operations, victim)) &&
       id !in room.operations && room.nextSequence != MAX_SEQUENCE {
      SkipNumbersKeepsInv(c, room);
      AdmitKeepsInv(c, room, session, id, total);
    }
  }

  lemma CollectShape(c: Config, s: Service)
    requires Inv(c, s)
    ensures CollectFinished(s) == s.(operations := CollectFinished(s).operations)
    ensures |CollectFinished(s).operations| == |s.operations| <= c.maxRetained
  {
    hide Q.Queue, P.Pinned, L.Lifecycle, A.Balanced;
    A.CollectKeepsAccounting(c, s);
  }

  lemma EvictShape(s: Service, id: string)
    ensures Evict(s, id) == s.(operations := Evict(s, id).operations, stats := Evict(s, id).stats)
  {}

  // ----- removing sessions -----

  lemma {:induction false} CancelAllKeepsInv(c: Config, s: Service, ids: seq<string>)
    requires Inv(c, s)
    ensures Good(c, CancelAll(c, s, ids))
    decreases |ids|
  {
    hide Inv, CancelOne;
    if ids != [] {
      CancelOneKeepsInv(c, s, ids[0]);
      if Inv(c, CancelOne(c, s, ids[0])) {
        CancelAllKeepsInv(c, CancelOne(c, s, ids[0]), ids[1..]);
      }
    }
  }

  lemma RemoveBeginKeepsInv(c: Config, s: Service, session: string, ids: seq<string>)
    requires Inv(c, s)
    ensures Good(c, RemoveBegin(c, s, session, ids))
  {
    hide Inv, CancelAll, Lists, OperationsOf;
    if session in s.sessions {
      var closing := s.(sessions := s.sessions[session := s.sessions[session].(closing := true)]);
      SessionsKeepInv(c, s, closing.sessions);
      CancelAllKeepsInv(c, closing, ids);
      var cancelled := CancelAll(c, closing, ids);
      if session in cancelled.sessions && Inv(c, cancelled) {
        SessionsKeepInv(c, cancelled, cancelled.sessions[session := Deactivated(cancelled.sessions[session])]);
      }
    }
  }

  lemma NoneActive(c: Config, s: Service, session: string)
    requires A.Accounting(c, s) && session in s.sessions && s.sessions[session].active == 0
    ensures forall id | id in s.operations && s.operations[id].snapshot.session == session ::
              Terminal(s.operations[id].snapshot.status)
  {
    assert A.ActiveOf(s.operations, session) == {};
    assert forall id | id in s.operations && s.operations[id].snapshot.session == session ::
        Terminal(s.operations[id].snapshot.status) || id in A.ActiveOf(s.operations, session);
  }

  lemma ReleasedLifecycle(phase: Phase, operations: map<string, Operation>, session: string)
    requires L.Lifecycle(phase, operations)
    requires forall id | id in operations && operations[id].snapshot.session == session ::
               Terminal(operations[id].snapshot.status)
    ensures L.Lifecycle(phase, map id | id in operations :: ReleaseOf(session, operations[id]))
  {}

  lemma RemoveFinishLifecycle(s: Service, session: string, c: Config)
    requires A.Accounting(c, s) && L.Lifecycle(s.phase, s.operations)
    ensures L.Lifecycle(s.phase, RemoveFinish(s, session).operations)
  {
    hide EraseSubscriptions, A.Accounting, L.Lifecycle;
    if RemoveFinish(s, session) != s {
      NoneActive(c, s, session);
      ReleasedLifecycle(s.phase, s.operations, session);
    }
  }

  lemma RemoveFinishPins(s: Service, session: string)
    requires P.Pinned(s.sessions, s.operations, s.pins)
    ensures var t := RemoveFinish(s, session); P.Pinned(t.sessions, t.operations, t.pins)
  {
    hide P.Pinned, EraseSubscriptions;
    var t := RemoveFinish(s, session);
    if t != s {
      P.RemovalKeepsPins(s.sessions, s.operations, s.pins, session);
      P.PinsFrame(t.sessions, s.operations, s.pins, t.sessions, t.operations);
    }
  }

  lemma RemoveFinishKeepsInv(c: Config, s: Service, session: string)
    requires Inv(c, s)
    ensures Inv(c, RemoveFinish(s, session))
  {
    hide A.Accounting, Q.Queue, P.Pinned, L.Lifecycle, ValidConfig, EraseSubscriptions;
    A.RemoveFinishKeepsAccounting(c, s, session);
    Q.RemoveFinishKeepsQueue(c, s, session);
    RemoveFinishLifecycle(s, session, c);
    RemoveFinishPins(s, session);
  }

  // ----- waiting callers -----

  /** Only wait counters move. */
  lemma WaitersKeepInv(c: Config, s: Service, t: Service)
    requires Inv(c, s) && P.Pinned(t.sessions, t.operations, t.pins)
    requires t == s.(sessions := t.sessions, operations := t.operations, pins := t.pins)
    requires s.sessions.Keys == t.sessions.Keys && s.operations.Keys == t.operations.Keys
    requires forall session | session in s.sessions ::
               && t.sessions[session].active == s.sessions[session].active
               && t.sessions[session].subscriptions.Keys == s.sessions[session].subscriptions.Keys
    requires forall id | id in s.operations ::
               t.operations[id] == s.operations[id].(waiters := t.operations[id].waiters)
    ensures Inv(c, t)
  {
    hide A.Accounting, Q.Queue, P.Pinned, ValidConfig;
    forall session | session in s.sessions
      ensures |t.sessions[session].subscriptions| == |s.sessions[session].subscriptions|
    {
      assert |t.sessions[session].subscriptions| == |t.sessions[session].subscriptions.Keys|;
      assert |s.sessions[session].subscriptions| == |s.sessions[session].subscriptions.Keys|;
    }
    A.SessionsFrame(c, s, t.sessions);
    A.OperationsFrame(c, s.(sessions := t.sessions), t.operations);
    A.BooksFrame(c, s.(sessions := t.sessions, operations := t.operations), t);
    QueueWaiters(c, s, t);
  }

  lemma QueueWaiters(c: Config, s: Service, t: Service)
    requires Q.Queue(c, s)
    requires t == s.(sessions := t.sessions, operations := t.operations, pins := t.pins)
    requires s.sessions.Keys == t.sessions.Keys && s.operations.Keys == t.operations.Keys
    requires forall session | session in s.sessions ::
               t.sessions[session].subscriptions.Keys == s.sessions[session].subscriptions.Keys
    requires forall id | id in s.operations ::
               t.operations[id] == s.operations[id].(waiters := t.operations[id].waiters)
    ensures Q.Queue(c, t)
  {
    hide Q.Queue;
    Q.QueueFrameOf(c, s, t);
  }

  lemma EnterKeepsInv(c: Config, s: Service, pin: nat, session: string)
    requires Inv(c, s)
    ensures Inv(c, Enter(s, pin, session))
  {
    hide A.Accounting, Q.Queue, P.Pinned, L.Lifecycle, ValidConfig;
    P.EnterKeepsPins(s, pin, session);
    if Enter(s, pin, session) != s { WaitersKeepInv(c, s, Enter(s, pin, session)); }
  }

  lemma WaitKeepsInv(c: Config, s: Service, pin: nat, session: string, id: string)
    requires Inv(c, s)
    ensures Inv(c, Wait(s, pin, session, id))
  {
    hide A.Accounting, Q.Queue, P.Pinned, L.Lifecycle, ValidConfig;
    P.WaitKeepsPins(s, pin, session, id);
    if Wait(s, pin, session, id) != s { WaitersKeepInv(c, s, Wait(s, pin, session, id)); }
  }

  lemma PollKeepsInv(c: Config, s: Service, pin: nat, session: string, id: string)
    requires Inv(c, s)
    ensures Inv(c, Poll(s, pin, session, id))
  {
    hide A.Accounting, Q.Queue, P.Pinned, L.Lifecycle, ValidConfig;
    P.PollKeepsPins(s, pin, session, id);
    if Poll(s, pin, session, id) != s { WaitersKeepInv(c, s, Poll(s, pin, session, id)); }
  }

  // ----- finalizing -----

  lemma FinalizeKeepsInv(c: Config, s: Service)
    requires Inv(c, s) && Drained(s)
    requires forall id | id in s.operations :: Terminal(s.operations[id].snapshot.status)
    ensures Inv(c, Finalize(s))
  {
    hide A.Accounting, Q.Queue, P.Pinned, ValidConfig;
    A.FinalizeKeepsAccounting(c, s);
    Q.QueueFrameOf(c, s, Finalize(s));
    P.FinalizeKeepsPins(s.sessions, s.operations, s.pins);
  }

  lemma UnparkedKeepsInv(c: Config, s: Service, pin: nat)
    requires Inv(c, s) && pin in s.pins
    ensures PinHolds(s, s.pins[pin]) && Inv(c, Unparked(s, pin))
  {
    hide A.Accounting, Q.Queue, P.Pinned, L.Lifecycle, ValidConfig;
    P.PinsNeverLost(s, pin);
    P.UnparkedMovesCounters(s, pin);
    var t := Unparked(s, pin);
    P.UnparkKeepsPins(s.sessions, s.operations, s.pins, t.sessions, t.operations, pin);
    WaitersKeepInv(c, s, t);
  }

  lemma UnparkedPhase(s: Service, pin: nat)
    requires pin in s.pins && PinHolds(s, s.pins[pin])
    ensures Unparked(s, pin).phase == s.phase
  {}

  lemma LeaveKeepsInv(c: Config, s: Service, pin: nat)
    requires Inv(c, s)
    ensures Inv(c, Leave(s, pin))
  {
    hide ValidConfig, Admitted, A.Accounting, Q.Queue, P.Pinned, L.Lifecycle, Unparked, PinHolds, Drained;
    if pin in s.pins {
      UnparkedKeepsInv(c, s, pin);
      UnparkedPhase(s, pin);
      var unparked := Unparked(s, pin);
      if s.phase == Stopping(RequestOwner, true) && Drained(unparked) {
        L.JoinedMeansEnded(unparked.phase, unparked.operations);
        FinalizeKeepsInv(c, unparked);
      }
    }
  }

  // ----- subscriptions and draining -----

  lemma SubscribeFits(c: Config, s: Service, session: string, id: string, victim: string)
    requires session in s.sessions && |s.sessions[session].subscriptions| <= c.maxSubscriptions
    ensures var t := Subscribe(c, s, session, id, victim);
            session in t.sessions && |t.sessions[session].subscriptions| <= c.maxSubscriptions
  {
    hide EraseKey;
    var found := s.sessions[session];
    var t := Subscribe(c, s, session, id, victim);
    if t != s {
      if |found.subscriptions| == c.maxSubscriptions {
        assert t.sessions[session].subscriptions.Keys == found.subscriptions.Keys - {victim} + {id};
      } else {
        assert t.sessions[session].subscriptions.Keys == found.subscriptions.Keys + {id};
      }
    }
  }

  lemma SubscribeShape(c: Config, s: Service, session: string, id: string, victim: string)
    ensures var t := Subscribe(c, s, session, id, victim);
            && t == s.(sessions := t.sessions, pending := t.pending, nextAdmission := t.nextAdmission)
            && t.sessions.Keys == s.sessions.Keys
            && s.nextAdmission <= t.nextAdmission
            && (forall other | other in s.sessions :: t.sessions[other].active == s.sessions[other].active)
            && (forall other | other in s.sessions && other != session :: t.sessions[other] == s.sessions[other])
  {
    hide EraseKey;
  }

  lemma SubscribeKeepsAccounting(c: Config, s: Service, session: string, id: string, victim: string)
    requires A.Accounting(c, s)
    ensures A.Accounting(c, Subscribe(c, s, session, id, victim))
  {
    hide A.Balanced, Subscribe;
    var t := Subscribe(c, s, session, id, victim);
    SubscribeShape(c, s, session, id, victim);
    if session in s.sessions { SubscribeFits(c, s, session, id, victim); }
    assert |t.sessions| == |t.sessions.Keys| == |s.sessions.Keys| == |s.sessions|;
    SubscribeBalanced(s, t);
  }

  lemma SubscribeBalanced(s: Service, t: Service)
    requires A.Balanced(s.sessions, s.operations, s.stats)
    requires t.operations == s.operations && t.stats == s.stats && t.sessions.Keys == s.sessions.Keys
    requires forall session | session in s.sessions :: t.sessions[session].active == s.sessions[session].active
    ensures A.Balanced(t.sessions, t.operations, t.stats)
  {
    hide A.ActiveOf, A.ActiveIds;
  }

  lemma SubscribeKeepsInv(c: Config, s: Service, session: string, id: string, victim: string)
    requires Inv(c, s)
    ensures Inv(c, Subscribe(c, s, session, id, victim))
  {
    hide A.Accounting, Q.Queue, P.Pinned, L.Lifecycle, ValidConfig, Subscribe;
    SubscribeShape(c, s, session, id, victim);
    SubscribeKeepsAccounting(c, s, session, id, victim);
    Q.SubscribeKeepsQueue(c, s, session, id, victim);
    P.SubscribeKeepsPins(c, s, session, id, victim);
  }

  lemma UnsubscribeKeepsInv(c: Config, s: Service, session: string, id: string)
    requires Inv(c, s)
    ensures Inv(c, Unsubscribe(s, session, id))
  {
    hide Inv;
    SessionsKeepInv(c, s, Unsubscribe(s, session, id).sessions);
  }

  lemma PublishKeepsInv(c: Config, s: Service, session: string, id: string, item: nat)
    requires Inv(c, s)
    ensures Inv(c, Publish(c, s, session, id, item))
  {
    hide A.Balanced, A.Bounded, Q.Queue, P.Pinned, L.Lifecycle, ValidConfig, Coalesce, NoRoom;
    Q.PublishKeepsQueue(c, s, session, id, item);
  }

  lemma DrainBeginKeepsInv(c: Config, s: Service)
    requires Inv(c, s)
    ensures Inv(c, DrainBegin(c, s))
  {
    hide A.Balanced, A.Bounded, P.Pinned, L.Lifecycle, ValidConfig, Q.Distinct, Q.Tracks, Q.Logged, Q.Increasing,
         Q.SubscriptionsKnown;
  }

  lemma DrainTakeKeepsInv(c: Config, s: Service)
    requires Inv(c, s)
    ensures Inv(c, DrainTake(s))
  {
    hide A.Balanced, A.Bounded, Q.Queue, P.Pinned, L.Lifecycle, ValidConfig;
    Q.DrainTakeKeepsQueue(c, s);
  }

  /** Settling a delivery changes one delivered mark at most. */
  lemma AcknowledgeShape(s: Service, id: string, snapshot: Snapshot)
    ensures var t := Acknowledge(s, id, snapshot);
            && t == s.(operations := t.operations) && t.operations.Keys == s.operations.Keys
            && forall other | other in s.operations ::
                 t.operations[other] == s.operations[other].(delivered := t.operations[other].delivered)
  {}

  /** Only the delivered marks of the records change. */
  ghost predicate OnlyDelivers(s: Service, t: Service) {
    && t == s.(operations := t.operations, pending := t.pending, delivering := t.delivering,
               inFlight := t.inFlight, log := t.log, fault := t.fault)
    && t.operations.Keys == s.operations.Keys
    && forall id | id in s.operations :: t.operations[id] == s.operations[id].(delivered := t.operations[id].delivered)
  }

  lemma DeliveredShape(s: Service, note: Note, i: nat)
    requires i < |s.pending| && note.OperationUpdated?
    ensures OnlyDelivers(s, Delivered(s, note, i))
  {
    hide Without, Acknowledge;
    AcknowledgeShape(s, note.id, note.snapshot);
  }

  lemma SettleShape(s: Service, ok: bool)
    ensures OnlyDelivers(s, DrainSettle(s, ok))
  {
    hide Find, Without, Delivered;
    if s.inFlight.Some? && s.inFlight.value.OperationUpdated? {
      var i := Find(s.pending, KeyOf(s.inFlight.value));
      if i != |s.pending| { DeliveredShape(s.(inFlight := None), s.inFlight.value, i); }
    }
  }

  lemma DrainSettleKeepsInv(c: Config, s: Service, ok: bool)
    requires Inv(c, s)
    ensures Inv(c, DrainSettle(s, ok))
  {
    hide A.Accounting, Q.Queue, P.Pinned, ValidConfig, DrainSettle;
    var t := DrainSettle(s, ok);
    SettleShape(s, ok);
    if ok { Q.SuccessfulDeliveryKeepsQueue(c, s); } else { Q.FailedDeliveryKeepsQueue(c, s); }
    A.OperationsFrame(c, s, t.operations);
    A.BooksFrame(c, s.(operations := t.operations), t);
    P.PinsFrame(s.sessions, s.operations, s.pins, t.sessions, t.operations);
  }

  // ----- shutting down -----

  /** The invariant while the cancellation loop of a shutdown runs under the phase it leaves. */
  lemma ShutdownBeginKeepsInv(c: Config, s: Service, owner: Owner, ids: seq<string>)
    requires Inv(c, s)
    ensures Good(c, ShutdownBegin(c, s, owner, ids))
  {
    hide A.Accounting, Q.Queue, P.Pinned, L.Lifecycle, ValidConfig, CancelAll, Deactivated, Lists;
    var t := ShutdownBegin(c, s, owner, ids);
    if t != s {
      CancelAllKeepsInv(c, s, ids);
      CancelAllFrame(c, s, ids);
      PhaseCommutes(c, s, Stopping(owner, false), ids);
      var cancelled := CancelAll(c, s, ids);
      if cancelled.fault.NoFault? {
        A.ShutdownKeepsAccounting(c, s, owner, ids);
        StoppingInv(c, cancelled, owner, t);
      }
    }
  }

  lemma PhaseCommutesOnce(c: Config, s: Service, phase: Phase, id: string)
    requires s.fault.NoFault?
    ensures CancelOne(c, s.(phase := phase), id) == CancelOne(c, s, id).(phase := phase)
    ensures CancelOne(c, s.(phase := phase), id).fault == CancelOne(c, s, id).fault
  {
    if id in s.operations {
      var operation := RequestCancel(s.operations[id]);
      var snapshot := operation.snapshot.(sequence := s.nextSequence);
      var stored := Store(s, id, operation.(snapshot := snapshot)).(nextSequence := s.nextSequence + 1);
      PhaseCommutesQueue(c, stored, phase, id, snapshot);
    }
    hide QueueOperation;
  }

  lemma PhaseCommutesQueue(c: Config, s: Service, phase: Phase, id: string, snapshot: Snapshot)
    ensures QueueOperation(c, s.(phase := phase), id, snapshot) ==
            QueueOperation(c, s, id, snapshot).(phase := phase)
  {
    hide Coalesce, NoRoom;
  }

  /** The cancellation loop does not look at the phase. */
  lemma {:induction false} PhaseCommutes(c: Config, s: Service, phase: Phase, ids: seq<string>)
    ensures CancelAll(c, s.(phase := phase), ids) == CancelAll(c, s, ids).(phase := phase)
    decreases |ids|
  {
    hide CancelOne;
    if ids != [] && s.fault.NoFault? {
      PhaseCommutesOnce(c, s, phase, ids[0]);
      PhaseCommutes(c, CancelOne(c, s, ids[0]), phase, ids[1..]);
    }
  }

  lemma StoppingInv(c: Config, s: Service, owner: Owner, t: Service)
    requires Inv(c, s) && s.phase.Serving? && A.Accounting(c, t)
    requires t == s.(phase := Stopping(owner, false),
                     operations := map id | id in s.operations :: JoinUnlessOwner(owner, id, s.operations[id]),
                     sessions := map session | session in s.sessions :: Deactivated(s.sessions[session]))
    ensures Inv(c, t)
  {
    hide A.Accounting, Q.Queue, P.Pinned, ValidConfig;
    L.StoppingKeepsLifecycle(s.operations, owner);
    Q.QueueFrameOf(c, s, t);
    P.PinsFrame(s.sessions, s.operations, s.pins, t.sessions, t.operations);
  }

  lemma ShutdownJoinedKeepsInv(c: Config, s: Service)
    requires Inv(c, s)
    ensures Inv(c, ShutdownJoined(s))
  {
    hide A.Balanced, A.Bounded, Q.Queue, P.Pinned, ValidConfig;
    if ShutdownJoined(s) != s { Q.QueueFrameOf(c, s, ShutdownJoined(s)); }
  }

  lemma ShutdownFinalizeKeepsInv(c: Config, s: Service)
    requires Inv(c, s)
    ensures Inv(c, ShutdownFinalize(s))
  {
    if ShutdownFinalize(s) != s {
      L.JoinedMeansEnded(s.phase, s.operations);
      FinalizeKeepsInv(c, s);
    }
    hide Inv;
  }

  // ----- every interleaving -----

  lemma InitialInv(c: Config)
    requires ValidConfig(c)
    ensures Inv(c, INITIAL)
  {
    hide A.Accounting, Q.Queue, P.Pinned;
    InitialAccounting(c);
    InitialQueue(c);
    InitialPins();
  }

  lemma InitialAccounting(c: Config)
    ensures A.Accounting(c, INITIAL)
  {
    assert A.ActiveIds(INITIAL.operations) == {};
  }

  lemma InitialQueue(c: Config)
    ensures Q.Queue(c, INITIAL)
  {}

  lemma InitialPins()
    ensures P.Pinned(INITIAL.sessions, INITIAL.operations, INITIAL.pins)
  {}

  lemma StepKeepsInv(c: Config, s: Service, step: Step)
    requires Inv(c, s)
    ensures Good(c, Next(c, s, step))
  {
    hide Inv, Next;
    match step
    case SubmitStep(_, _, _, _, _) | StartStep(_, _) | ProgressStep(_, _) | FinishStep(_, _) | ExitStep(_) |
         CancelStep(_, _) =>
      OperationStepKeepsInv(c, s, step);
    case RegisterStep(_) | RemoveBeginStep(_, _) | RemoveFinishStep(_) | SubscribeStep(_, _, _) |
         UnsubscribeStep(_, _) | PublishStep(_, _, _) =>
      SessionStepKeepsInv(c, s, step);
    case EnterStep(_, _) | WaitStep(_, _, _) | PollStep(_, _, _) | LeaveStep(_) => CallerStepKeepsInv(c, s, step);
    case _ => ServiceStepKeepsInv(c, s, step);
  }

  lemma OperationStepKeepsInv(c: Config, s: Service, step: Step)
    requires Inv(c, s)
    requires step.SubmitStep? || step.StartStep? || step.ProgressStep? || step.FinishStep? || step.ExitStep? ||
             step.CancelStep?
    ensures Good(c, Next(c, s, step))
  {
    hide Inv, Submit, Start, Progress, Finish, Exit, CancelOne;
    match step
    case SubmitStep(session, id, total, victim, spawned) => SubmitKeepsInv(c, s, session, id, total, victim, spawned);
    case StartStep(id, stopped) => StartKeepsInv(c, s, id, stopped);
    case ProgressStep(id, completed) => ProgressKeepsInv(c, s, id, completed);
    case FinishStep(id, outcome) => FinishKeepsInv(c, s, id, outcome);
    case ExitStep(id) => ExitKeepsInv(c, s, id);
    case CancelStep(session, id) => CancelOneKeepsInv(c, s, id);
  }

  lemma SessionStepKeepsInv(c: Config, s: Service, step: Step)
    requires Inv(c, s)
    requires step.RegisterStep? || step.RemoveBeginStep? || step.RemoveFinishStep? || step.SubscribeStep? ||
             step.UnsubscribeStep? || step.PublishStep?
    ensures Good(c, Next(c, s, step))
  {
    hide Inv, Register, RemoveBegin, RemoveFinish, Subscribe, Unsubscribe, Publish;
    match step
    case RegisterStep(session) => RegisterKeepsInv(c, s, session);
    case RemoveBeginStep(session, ids) => RemoveBeginKeepsInv(c, s, session, ids);
    case RemoveFinishStep(session) => RemoveFinishKeepsInv(c, s, session);
    case SubscribeStep(session, id, victim) => SubscribeKeepsInv(c, s, session, id, victim);
    case UnsubscribeStep(session, id) => UnsubscribeKeepsInv(c, s, session, id);
    case PublishStep(session, id, item) => PublishKeepsInv(c, s, session, id, item);
  }

  lemma CallerStepKeepsInv(c: Config, s: Service, step: Step)
    requires Inv(c, s)
    requires step.EnterStep? || step.WaitStep? || step.PollStep? || step.LeaveStep?
    ensures Good(c, Next(c, s, step))
  {
    hide Inv, Enter, Wait, Poll, Leave;
    match step
    case EnterStep(pin, session) => EnterKeepsInv(c, s, pin, session);
    case WaitStep(pin, session, id) => WaitKeepsInv(c, s, pin, session, id);
    case PollStep(pin, session, id) => PollKeepsInv(c, s, pin, session, id);
    case LeaveStep(pin) => LeaveKeepsInv(c, s, pin);
  }

  lemma ServiceStepKeepsInv(c: Config, s: Service, step: Step)
    requires Inv(c, s)
    requires step.DrainBeginStep? || step.DrainTakeStep? || step.DrainSettleStep? || step.ShutdownBeginStep? ||
             step.ShutdownJoinedStep? || step.ShutdownFinalizeStep?
    ensures Good(c, Next(c, s, step))
  {
    hide Inv, DrainBegin, DrainTake, DrainSettle, ShutdownBegin, ShutdownJoined, ShutdownFinalize;
    match step
    case DrainBeginStep => DrainBeginKeepsInv(c, s);
    case DrainTakeStep => DrainTakeKeepsInv(c, s);
    case DrainSettleStep(ok) => DrainSettleKeepsInv(c, s, ok);
    case ShutdownBeginStep(owner, ids) => ShutdownBeginKeepsInv(c, s, owner, ids);
    case ShutdownJoinedStep => ShutdownJoinedKeepsInv(c, s);
    case ShutdownFinalizeStep => ShutdownFinalizeKeepsInv(c, s);
  }

  lemma {:induction false} RunKeepsInv(c: Config, s: Service, steps: seq<Step>)
    requires Inv(c, s)
    ensures Good(c, Run(c, s, steps))
    decreases |steps|
  {
    hide Inv, Next;
    if steps != [] {
      StepKeepsInv(c, s, steps[0]);
      if Inv(c, Next(c, s, steps[0])) {
        RunKeepsInv(c, Next(c, s, steps[0]), steps[1..]);
      }
    }
  }

  /** In every reachable state the invariant holds, unless 2^64 - 2 sequence numbers were used up. */
  lemma Reachable(c: Config, steps: seq<Step>)
    requires ValidConfig(c)
    ensures Good(c, Run(c, INITIAL, steps))
  {
    InitialInv(c);
    RunKeepsInv(c, INITIAL, steps);
  }

  /** The thrown "lost its queue slot", "exceeded its bound", underflow and inconsistent-pin errors are unreachable. */
  lemma OnlyFault(c: Config, steps: seq<Step>)
    requires ValidConfig(c)
    ensures var fault := Run(c, INITIAL, steps).fault; fault.NoFault? || fault.SequenceExhausted?
  {
    Reachable(c, steps);
  }

  function NotesFor(pending: seq<Note>, id: string): seq<Note> {
    if pending == [] then []
    else if pending[0].OperationUpdated? && pending[0].id == id then [pending[0]] + NotesFor(pending[1..], id)
    else NotesFor(pending[1..], id)
  }

  /** Notes for one operation: none when nothing is owed, else exactly the one with its current snapshot. */
  lemma {:induction false} NotesForOne(pending: seq<Note>, id: string, snapshot: Snapshot, owed: bool)
    requires Q.Distinct(pending)
    requires forall note | note in pending && note.OperationUpdated? && note.id == id ::
               owed && note.snapshot == snapshot
    ensures NotesFor(pending, id) ==
            if OperationUpdated(id, snapshot) in pending then [OperationUpdated(id, snapshot)] else []
  {
    if pending != [] {
      var tail := pending[1..];
      assert forall i | 0 <= i < |tail| :: tail[i] == pending[i + 1];
      assert pending == [pending[0]] + tail;
      assert pending[0] in pending;
      NotesForOne(tail, id, snapshot, owed);
      if pending[0] == OperationUpdated(id, snapshot) {
        assert forall i | 0 <= i < |tail| :: KeyOf(tail[i]) != KeyOf(pending[0]);
      }
    }
  }

  /** A completed shutdown leaves no session and no unfinished operation. */
  lemma CompletedMeansEnded(c: Config, s: Service)
    requires Inv(c, s)
    ensures s.phase.Complete? ==> forall id | id in s.operations :: Terminal(s.operations[id].snapshot.status)
  {
    hide ValidConfig, Admitted, A.Accounting, Q.Queue, P.Pinned;
    forall id | id in s.operations && s.phase.Complete? ensures Terminal(s.operations[id].snapshot.status) {
      assert L.Consistent(s.operations[id]);
    }
  }

  // ----- what every reachable state shows -----

  /** Counts are exact, and no session is gone while it has unfinished operations. */
  lemma CountsAreExact(c: Config, steps: seq<Step>, session: string, id: string)
    requires ValidConfig(c) && Run(c, INITIAL, steps).fault.NoFault?
    ensures var s := Run(c, INITIAL, steps);
            && (session in s.sessions ==> s.sessions[session].active == |A.ActiveOf(s.operations, session)|)
            && s.stats.active == |A.ActiveIds(s.operations)| == A.SumActive(s.sessions, s.sessions.Keys)
            && (id in s.operations && !Terminal(s.operations[id].snapshot.status) ==>
                  s.operations[id].snapshot.session in s.sessions)
  {
    Reachable(c, steps);
    hide Run;
    A.GlobalIsSum(c, Run(c, INITIAL, steps));
  }

  /** Success means full progress and a result; any other end an error and none. */
  lemma EndsAreComplete(c: Config, steps: seq<Step>, id: string)
    requires ValidConfig(c)
    requires var s := Run(c, INITIAL, steps); s.fault.NoFault? && id in s.operations
    ensures var snapshot := Run(c, INITIAL, steps).operations[id].snapshot;
            && snapshot.completed <= snapshot.total
            && (snapshot.status.Succeeded? ==> snapshot.completed == snapshot.total && snapshot.error.None?)
            && (snapshot.result.Some? <==> snapshot.status.Succeeded?)
            && (Terminal(snapshot.status) && !snapshot.status.Succeeded? ==> snapshot.error.Some?)
  {
    Reachable(c, steps);
    var s := Run(c, INITIAL, steps);
    assert L.Consistent(s.operations[id]);
  }

  /**
   With a handler, an operation that left its submitted state either had its latest
   sequence delivered and has nothing queued, or has exactly one queued note, which
   carries its latest snapshot.
   */
  lemma DeliveredOrQueued(c: Config, steps: seq<Step>, id: string)
    requires ValidConfig(c) && c.handler
    requires var s := Run(c, INITIAL, steps);
             s.fault.NoFault? && id in s.operations && !s.operations[id].snapshot.status.Queued?
    ensures var s := Run(c, INITIAL, steps);
            var operation := s.operations[id];
            if operation.delivered == operation.snapshot.sequence then
              NotesFor(s.pending, id) == [] && Delivery(id, operation.snapshot.sequence) in s.log
            else
              NotesFor(s.pending, id) == [OperationUpdated(id, operation.snapshot)]
  {
    Reachable(c, steps);
    hide Run;
    var s := Run(c, INITIAL, steps);
    NotesForOne(s.pending, id, s.operations[id].snapshot, Q.Owed(s.operations[id]));
  }

  /** Successful deliveries of each operation carry strictly increasing sequence numbers. */
  lemma DeliveriesIncrease(c: Config, steps: seq<Step>)
    requires ValidConfig(c) && Run(c, INITIAL, steps).fault.NoFault?
    ensures Q.Increasing(Run(c, INITIAL, steps).log)
  {
    Reachable(c, steps);
  }

  // ----- the session a removal waits for -----

  /** The session is there, unless a completed shutdown erased all of them. */
  predicate Kept(s: Service, session: string) {
    if s.phase.Complete? then s.sessions == map[] else session in s.sessions
  }

  lemma CancellingKeeps(c: Config, s: Service, step: Step, session: string)
    requires Kept(s, session) && s.fault.NoFault? && (step.RemoveBeginStep? || step.ShutdownBeginStep?)
    ensures Kept(Next(c, s, step), session)
  {
    hide CancelAll, Lists, OperationsOf, Deactivated, JoinUnlessOwner;
    match step
    case RemoveBeginStep(removed, ids) =>
      if removed in s.sessions {
        CancelAllFrame(c, s.(sessions := s.sessions[removed := s.sessions[removed].(closing := true)]), ids);
      }
    case ShutdownBeginStep(owner, ids) => CancelAllFrame(c, s.(phase := Stopping(owner, false)), ids);
  }

  lemma SubmitKeeps(c: Config, s: Service, session: string, id: string, total: nat, victim: string, spawned: bool)
    ensures Submit(c, s, session, id, total, victim, spawned).sessions.Keys == s.sessions.Keys
    ensures Submit(c, s, session, id, total, victim, spawned).phase == s.phase
  {
    hide CollectFinished, IsOldestEvictable;
    CollectIsQuiet(s);
  }

  lemma CompletingKeeps(c: Config, s: Service, id: string, operation: Operation)
    ensures CompleteOperation(c, s, id, operation).sessions.Keys == s.sessions.Keys
    ensures CompleteOperation(c, s, id, operation).phase == s.phase
  {
    hide QueueOperation, Counted;
    var snapshot := operation.snapshot.(sequence := s.nextSequence);
    var stored := Store(s.(stats := Counted(s.stats, operation.snapshot.status)), id, operation.(snapshot := snapshot))
                  .(nextSequence := s.nextSequence + 1);
    QueueFrame(c, Retire(stored, snapshot.session), id, snapshot);
  }

  predicate Works(step: Step) {
    step.SubmitStep? || step.StartStep? || step.ProgressStep? || step.FinishStep? || step.ExitStep? ||
    step.CancelStep? || step.PublishStep?
  }

  /** Steps that change one operation or the queue leave the phase and the set of sessions alone. */
  lemma WorkKeeps(c: Config, s: Service, step: Step, session: string)
    requires Kept(s, session) && s.fault.NoFault? && Works(step)
    ensures Kept(Next(c, s, step), session)
  {
    hide Start, Progress, Finish, CancelOne, Submit, Publish;
    match step
    case SubmitStep(owner, id, total, victim, spawned) => SubmitKeeps(c, s, owner, id, total, victim, spawned);
    case StartStep(id, stopped) => StartKeeps(c, s, id, stopped);
    case ProgressStep(id, completed) => ProgressKeeps(c, s, id, completed);
    case FinishStep(id, outcome) => FinishKeeps(c, s, id, outcome);
    case CancelStep(_, id) => CancelOneFrame(c, s, id);
    case PublishStep(owner, id, item) => PublishKeeps(c, s, owner, id, item);
    case ExitStep(_) =>
  }

  lemma StartKeeps(c: Config, s: Service, id: string, stopped: bool)
    requires s.fault.NoFault?
    ensures Start(c, s, id, stopped).sessions.Keys == s.sessions.Keys && Start(c, s, id, stopped).phase == s.phase
  {
    hide Advance, CompleteOperation;
    if id in s.operations {
      var operation := s.operations[id];
      CompletingKeeps(c, s, id, operation.(
        snapshot := operation.snapshot.(status := Cancelled, cancelRequested := true, result := None,
                                        error := Some("operation cancelled before start")),
        worker := Finished));
      AdvanceFrame(c, s, id, operation.(snapshot := operation.snapshot.(status := Running), worker := Executing));
    }
  }

  lemma ProgressKeeps(c: Config, s: Service, id: string, completed: nat)
    requires s.fault.NoFault?
    ensures Progress(c, s, id, completed).sessions == s.sessions && Progress(c, s, id, completed).phase == s.phase
  {
    hide Advance;
    if id in s.operations {
      var operation := s.operations[id];
      AdvanceFrame(c, s, id, operation.(snapshot := operation.snapshot.(completed := completed)));
    }
  }

  lemma FinishKeeps(c: Config, s: Service, id: string, outcome: Outcome)
    ensures Finish(c, s, id, outcome).sessions.Keys == s.sessions.Keys && Finish(c, s, id, outcome).phase == s.phase
  {
    hide CompleteOperation, Concluded;
    if id in s.operations {
      var operation := s.operations[id];
      CompletingKeeps(c, s, id, operation.(snapshot := Concluded(operation.snapshot, outcome), worker := Finished));
    }
  }

  lemma PublishKeeps(c: Config, s: Service, session: string, id: string, item: nat)
    ensures Publish(c, s, session, id, item).sessions == s.sessions && Publish(c, s, session, id, item).phase == s.phase
  {
    hide Coalesce, NoRoom;
  }

  lemma CollectIsQuiet(s: Service)
    ensures CollectFinished(s) == s.(operations := CollectFinished(s).operations)
  {}

  lemma LeavingKeeps(s: Service, pin: nat, session: string)
    requires Kept(s, session)
    ensures Kept(Leave(s, pin), session)
  {}

  lemma CallersKeep(c: Config, s: Service, step: Step, session: string)
    requires Kept(s, session) && s.fault.NoFault? && step != RemoveFinishStep(session)
    requires !Works(step) && !step.RemoveBeginStep? && !step.ShutdownBeginStep?
    ensures Kept(Next(c, s, step), session)
  {
    hide Kept, Register, RemoveFinish, Subscribe, Unsubscribe, Enter, Wait, Poll, Leave, Publish, DrainBegin, DrainTake,
      DrainSettle, ShutdownJoined, ShutdownFinalize;
    match step
    case RegisterStep(other) => RegisteringKeeps(c, s, other, session);
    case RemoveFinishStep(other) => RemovingKeeps(s, other, session);
    case SubscribeStep(other, id, victim) => SubscribingKeeps(c, s, other, id, victim, session);
    case UnsubscribeStep(other, id) => UnsubscribingKeeps(s, other, id, session);
    case EnterStep(pin, other) => ParkingKeeps(s, pin, other, "", session);
    case WaitStep(pin, other, id) => ParkingKeeps(s, pin, other, id, session);
    case PollStep(pin, other, id) => ParkingKeeps(s, pin, other, id, session);
    case LeaveStep(pin) => LeavingKeeps(s, pin, session);
    case PublishStep(other, id, item) => NotifyingKeeps(c, s, other, id, item, true, session);
    case DrainSettleStep(ok) => NotifyingKeeps(c, s, "", "", 0, ok, session);
    case _ => NotifyingKeeps(c, s, "", "", 0, true, session); ClosingKeeps(s, session);
  }

  lemma RegisteringKeeps(c: Config, s: Service, other: string, session: string)
    requires Kept(s, session)
    ensures Kept(Register(c, s, other), session)
  {}

  lemma RemovingKeeps(s: Service, other: string, session: string)
    requires Kept(s, session) && other != session
    ensures Kept(RemoveFinish(s, other), session)
  {
    hide EraseSubscriptions, ReleaseOf;
  }

  lemma SubscribingKeeps(c: Config, s: Service, other: string, id: string, victim: string, session: string)
    requires Kept(s, session)
    ensures Kept(Subscribe(c, s, other, id, victim), session)
  {
    hide EraseKey, IsOldestRetirable;
  }

  lemma UnsubscribingKeeps(s: Service, other: string, id: string, session: string)
    requires Kept(s, session)
    ensures Kept(Unsubscribe(s, other, id), session)
  {}

  lemma ParkingKeeps(s: Service, pin: nat, other: string, id: string, session: string)
    requires Kept(s, session)
    ensures Kept(Enter(s, pin, other), session) && Kept(Wait(s, pin, other, id), session)
    ensures Kept(Poll(s, pin, other, id), session)
  {}

  lemma SameSessionsKeep(s: Service, t: Service, session: string)
    requires Kept(s, session) && t.sessions == s.sessions && t.phase == s.phase
    ensures Kept(t, session)
  {}

  lemma NotifyingKeeps(c: Config, s: Service, other: string, id: string, item: nat, ok: bool, session: string)
    requires Kept(s, session)
    ensures Kept(Publish(c, s, other, id, item), session) && Kept(DrainBegin(c, s), session)
    ensures Kept(DrainTake(s), session) && Kept(DrainSettle(s, ok), session)
  {
    hide Kept, Coalesce, NoRoom, DrainSettle;
    SettleShape(s, ok);
    SameSessionsKeep(s, DrainSettle(s, ok), session);
    SameSessionsKeep(s, Publish(c, s, other, id, item), session);
    SameSessionsKeep(s, DrainBegin(c, s), session);
    SameSessionsKeep(s, DrainTake(s), session);
  }

  lemma ClosingKeeps(s: Service, session: string)
    requires Kept(s, session)
    ensures Kept(ShutdownJoined(s), session) && Kept(ShutdownFinalize(s), session)
  {
    hide Drained;
  }

  /**
   RemoveSession keeps a reference to its session across its wait.  Unless another
   removal of that session finishes meanwhile, the record is still there exactly while
   no shutdown has completed.
   */
  lemma {:induction false} RemovalFindsItsSession(c: Config, s: Service, steps: seq<Step>, session: string)
    requires Kept(s, session) && RemoveFinishStep(session) !in steps
    ensures Kept(Run(c, s, steps), session)
    ensures session in Run(c, s, steps).sessions <==> !Run(c, s, steps).phase.Complete?
    decreases |steps|
  {
    hide Next;
    if steps != [] && s.fault.NoFault? {
      var step := steps[0];
      if step.RemoveBeginStep? || step.ShutdownBeginStep? {
        CancellingKeeps(c, s, step, session);
      } else if Works(step) {
        WorkKeeps(c, s, step, session);
      } else {
        CallersKeep(c, s, step, session);
      }
      RemovalFindsItsSession(c, Next(c, s, step), steps[1..], session);
    }
  }

  // ----- what one operation can do over time -----

  /** Records stay and move forward. */
  ghost predicate Moved(s: Service, t: Service) {
    L.AllEvolve(s.operations, t.operations) && s.nextAdmission <= t.nextAdmission
  }

  lemma AdvanceMoves(c: Config, s: Service, id: string, operation: Operation)
    requires s.fault.NoFault? && id in s.operations && s.operations[id].snapshot.sequence < s.nextSequence
    requires s.nextSequence != MAX_SEQUENCE && operation.admission == s.operations[id].admission
    requires L.Evolves(s.operations[id].snapshot, operation.snapshot) && !Terminal(s.operations[id].snapshot.status)
    ensures Moved(s, Advance(c, s, id, operation))
  {
    AdvanceNumbers(c, s, id, operation);
    AdvanceFrame(c, s, id, operation);
    hide Advance;
  }

  lemma AdvanceNumbers(c: Config, s: Service, id: string, operation: Operation)
    requires s.nextSequence != MAX_SEQUENCE
    ensures id in Advance(c, s, id, operation).operations
    ensures Advance(c, s, id, operation).operations[id].snapshot.sequence == s.nextSequence
  {
    hide Coalesce, NoRoom;
  }

  lemma CompletionMoves(c: Config, s: Service, id: string, ended: Operation)
    requires s.fault.NoFault? && id in s.operations && s.operations[id].snapshot.sequence < s.nextSequence
    requires ended.admission == s.operations[id].admission && CompleteOperation(c, s, id, ended).fault.NoFault?
    requires L.Evolves(s.operations[id].snapshot, ended.snapshot) && !Terminal(s.operations[id].snapshot.status)
    ensures Moved(s, CompleteOperation(c, s, id, ended))
  {
    hide CompleteOperation;
    CompletionNumbers(c, s, id, ended);
    CompletionFrame(c, s, id, ended);
  }

  lemma CompletionNumbers(c: Config, s: Service, id: string, ended: Operation)
    requires CompleteOperation(c, s, id, ended).fault.NoFault?
    ensures s.nextSequence != MAX_SEQUENCE && id in CompleteOperation(c, s, id, ended).operations
    ensures CompleteOperation(c, s, id, ended).operations[id].snapshot.sequence == s.nextSequence
  {
    hide QueueOperation, Retire, Counted;
    var numbered := ended.(snapshot := ended.snapshot.(sequence := s.nextSequence));
    var stored := Store(s.(stats := Counted(s.stats, ended.snapshot.status)), id, numbered)
                  .(nextSequence := s.nextSequence + 1);
    RetireFrame(stored, numbered.snapshot.session);
    QueueFrame(c, Retire(stored, numbered.snapshot.session), id, numbered.snapshot);
  }

  lemma CancelOneMoves(c: Config, s: Service, id: string)
    requires s.fault.NoFault? && CancelOne(c, s, id).fault.NoFault?
    requires id in s.operations ==> s.operations[id].snapshot.sequence < s.nextSequence
    ensures Moved(s, CancelOne(c, s, id))
  {
    hide Advance;
    if CancelOne(c, s, id) != s {
      if s.nextSequence == MAX_SEQUENCE { AdvanceExhausted(c, s, id, RequestCancel(s.operations[id])); }
      else { AdvanceMoves(c, s, id, RequestCancel(s.operations[id])); }
    }
  }

  lemma {:induction false} CancelAllMoves(c: Config, s: Service, ids: seq<string>)
    requires Inv(c, s) && CancelAll(c, s, ids).fault.NoFault?
    ensures Moved(s, CancelAll(c, s, ids))
    decreases |ids|
  {
    hide Inv, CancelOne;
    if ids != [] {
      var t := CancelOne(c, s, ids[0]);
      FaultFree(c, s);
      if ids[0] in s.operations { StampsOf(c, s, ids[0]); }
      CancelOneKeepsInv(c, s, ids[0]);
      if t.fault.NoFault? {
        CancelOneMoves(c, s, ids[0]);
        CancelAllMoves(c, t, ids[1..]);
        MovedTransitive(s, t, CancelAll(c, t, ids[1..]));
      }
    }
  }

  lemma FaultFree(c: Config, s: Service)
    requires Inv(c, s)
    ensures s.fault.NoFault?
  {}

  lemma MovedTransitive(s: Service, t: Service, u: Service)
    requires Moved(s, t) && Moved(t, u)
    ensures Moved(s, u)
  {}

  lemma StampsOf(c: Config, s: Service, id: string)
    requires Inv(c, s) && id in s.operations
    ensures Q.Stamped(s.operations[id], s.nextSequence) && L.Consistent(s.operations[id])
  {
    hide A.Accounting, P.Pinned;
  }

  lemma StartMoves(c: Config, s: Service, id: string, stopped: bool)
    requires Inv(c, s) && Start(c, s, id, stopped).fault.NoFault?
    ensures Moved(s, Start(c, s, id, stopped))
  {
    hide Advance, CompleteOperation, Inv;
    FaultFree(c, s);
    if id in s.operations && s.operations[id].worker.Spawned? {
      StampsOf(c, s, id);
      var operation := s.operations[id];
      if operation.snapshot.cancelRequested || stopped {
        CompletionMoves(c, s, id, operation.(
          snapshot := operation.snapshot.(status := Cancelled, cancelRequested := true, result := None,
                                          error := Some("operation cancelled before start")),
          worker := Finished));
      } else {
        var running := operation.(snapshot := operation.snapshot.(status := Running), worker := Executing);
        if s.nextSequence == MAX_SEQUENCE {
          AdvanceExhausted(c, s, id, running);
        } else {
          AdvanceMoves(c, s, id, running);
        }
      }
    }
  }

  lemma ProgressMoves(c: Config, s: Service, id: string, completed: nat)
    requires Inv(c, s) && Progress(c, s, id, completed).fault.NoFault?
    ensures Moved(s, Progress(c, s, id, completed))
  {
    hide Advance, Inv;
    FaultFree(c, s);
    if Progress(c, s, id, completed) != s {
      StampsOf(c, s, id);
      var further := s.operations[id].(snapshot := s.operations[id].snapshot.(completed := completed));
      if s.nextSequence == MAX_SEQUENCE {
        AdvanceExhausted(c, s, id, further);
      } else {
        AdvanceMoves(c, s, id, further);
      }
    }
  }

  lemma FinishMoves(c: Config, s: Service, id: string, outcome: Outcome)
    requires Inv(c, s) && Finish(c, s, id, outcome).fault.NoFault?
    ensures Moved(s, Finish(c, s, id, outcome))
  {
    hide CompleteOperation, Inv;
    FaultFree(c, s);
    if id in s.operations && s.operations[id].worker.Executing? {
      StampsOf(c, s, id);
      var operation := s.operations[id];
      CompletionMoves(c, s, id,
                      operation.(snapshot := Concluded(operation.snapshot, outcome), worker := Finished));
    }
  }

  lemma RemoveBeginMoves(c: Config, s: Service, session: string, ids: seq<string>)
    requires Inv(c, s) && RemoveBegin(c, s, session, ids).fault.NoFault?
    ensures Moved(s, RemoveBegin(c, s, session, ids))
  {
    hide Inv, CancelAll, Lists, OperationsOf, Deactivated;
    if session in s.sessions {
      var closing := s.(sessions := s.sessions[session := s.sessions[session].(closing := true)]);
      SessionsKeepInv(c, s, closing.sessions);
      if CancelAll(c, closing, ids).fault.NoFault? { CancelAllMoves(c, closing, ids); }
    }
  }

  lemma ShutdownBeginMoves(c: Config, s: Service, owner: Owner, ids: seq<string>)
    requires Inv(c, s) && ShutdownBegin(c, s, owner, ids).fault.NoFault?
    ensures Moved(s, ShutdownBegin(c, s, owner, ids))
  {
    hide Inv, CancelAll, Lists, Deactivated;
    PhaseCommutes(c, s, Stopping(owner, false), ids);
    if CancelAll(c, s, ids).fault.NoFault? { CancelAllMoves(c, s, ids); }
  }

  lemma LeaveMoves(c: Config, s: Service, pin: nat)
    requires Inv(c, s)
    ensures Moved(s, Leave(s, pin))
  {
    hide Inv;
    if pin in s.pins { UnparkedKeepsInv(c, s, pin); }
  }

  lemma SettleMoves(s: Service, ok: bool)
    ensures Moved(s, DrainSettle(s, ok))
  {
    SettleShape(s, ok);
    hide DrainSettle;
  }

  lemma SubscribeMoves(c: Config, s: Service, session: string, id: string, victim: string)
    ensures Moved(s, Subscribe(c, s, session, id, victim))
  {
    SubscribeShape(c, s, session, id, victim);
    hide Subscribe;
  }

  lemma CancelMoves(c: Config, s: Service, session: string, id: string)
    requires Inv(c, s) && Cancel(c, s, session, id).fault.NoFault?
    ensures Moved(s, Cancel(c, s, session, id))
  {
    hide Inv, CancelOne;
    FaultFree(c, s);
    if Cancel(c, s, session, id) != s {
      StampsOf(c, s, id);
      CancelOneMoves(c, s, id);
    }
  }

  /** The sections that never renumber an operation. */
  lemma QuietStepMoves(c: Config, s: Service, step: Step)
    requires step.RegisterStep? || step.RemoveFinishStep? || step.ExitStep? || step.EnterStep? || step.WaitStep? ||
             step.PollStep? || step.UnsubscribeStep? || step.PublishStep? || step.DrainBeginStep? ||
             step.DrainTakeStep? || step.ShutdownJoinedStep? || step.ShutdownFinalizeStep?
    ensures Moved(s, Next(c, s, step))
  {
    hide Moved, Register, RemoveFinish, Exit, Enter, Wait, Poll, Unsubscribe, Publish, DrainBegin, DrainTake,
      ShutdownJoined, ShutdownFinalize;
    match step
    case ExitStep(id) => ExitMoves(s, id);
    case WaitStep(pin, session, id) => WaitMoves(s, pin, session, id);
    case RegisterStep(session) => BookkeepingMoves(c, s, session);
    case RemoveFinishStep(session) => BookkeepingMoves(c, s, session);
    case EnterStep(pin, session) => ParkingMoves(s, pin, session, "");
    case PollStep(pin, session, id) => ParkingMoves(s, pin, session, id);
    case UnsubscribeStep(session, id) => ParkingMoves(s, 0, session, id);
    case PublishStep(session, id, item) => NotifyingMoves(c, s, session, id, item);
    case _ => NotifyingMoves(c, s, "", "", 0); BookkeepingMoves(c, s, "");
  }

  lemma Unmoved(s: Service, t: Service)
    requires t.operations == s.operations && s.nextAdmission == t.nextAdmission
    ensures Moved(s, t)
  {}

  lemma ExitMoves(s: Service, id: string)
    ensures Moved(s, Exit(s, id))
  {}

  lemma WaitMoves(s: Service, pin: nat, session: string, id: string)
    ensures Moved(s, Wait(s, pin, session, id))
  {}

  lemma RemovalMoves(s: Service, session: string)
    ensures Moved(s, RemoveFinish(s, session))
  {
    hide EraseSubscriptions;
  }

  lemma BookkeepingMoves(c: Config, s: Service, session: string)
    ensures Moved(s, Register(c, s, session)) && Moved(s, RemoveFinish(s, session))
    ensures Moved(s, ShutdownJoined(s)) && Moved(s, ShutdownFinalize(s))
  {
    hide Moved, RemoveFinish, Drained;
    Unmoved(s, Register(c, s, session));
    RemovalMoves(s, session);
    Unmoved(s, ShutdownJoined(s));
    Unmoved(s, ShutdownFinalize(s));
  }

  lemma ParkingMoves(s: Service, pin: nat, session: string, id: string)
    ensures Moved(s, Enter(s, pin, session)) && Moved(s, Poll(s, pin, session, id))
    ensures Moved(s, Unsubscribe(s, session, id))
  {
    hide Moved;
    Unmoved(s, Enter(s, pin, session));
    Unmoved(s, Poll(s, pin, session, id));
    Unmoved(s, Unsubscribe(s, session, id));
  }

  lemma NotifyingMoves(c: Config, s: Service, session: string, id: string, item: nat)
    ensures Moved(s, Publish(c, s, session, id, item)) && Moved(s, DrainBegin(c, s)) && Moved(s, DrainTake(s))
  {
    hide Moved, Coalesce, NoRoom;
    Unmoved(s, Publish(c, s, session, id, item));
    Unmoved(s, DrainBegin(c, s));
    Unmoved(s, DrainTake(s));
  }

  /** Every section but the admission of a new operation keeps all records and moves them forward. */
  lemma StepMoves(c: Config, s: Service, step: Step)
    requires Inv(c, s) && Next(c, s, step).fault.NoFault? && !step.SubmitStep?
    ensures Moved(s, Next(c, s, step))
  {
    hide Inv, Moved, Start, Progress, Finish, Cancel, RemoveBegin, ShutdownBegin, Leave, DrainSettle, Subscribe,
         Register, RemoveFinish, Exit, Enter, Wait, Poll, Unsubscribe, Publish, DrainBegin, DrainTake, ShutdownJoined,
         ShutdownFinalize;
    match step
    case StartStep(id, stopped) => StartMoves(c, s, id, stopped);
    case ProgressStep(id, completed) => ProgressMoves(c, s, id, completed);
    case FinishStep(id, outcome) => FinishMoves(c, s, id, outcome);
    case CancelStep(session, id) => CancelMoves(c, s, session, id);
    case RemoveBeginStep(session, ids) => RemoveBeginMoves(c, s, session, ids);
    case ShutdownBeginStep(owner, ids) => ShutdownBeginMoves(c, s, owner, ids);
    case LeaveStep(pin) => LeaveMoves(c, s, pin);
    case DrainSettleStep(ok) => SettleMoves(s, ok);
    case SubscribeStep(session, id, victim) => SubscribeMoves(c, s, session, id, victim);
    case _ => QuietStepMoves(c, s, step);
  }

  /** The same admission seen at two times: its snapshot moved forward.  Other records are newer admissions. */
  ghost predicate Later(s: Service, t: Service) {
    && s.nextAdmission <= t.nextAdmission
    && forall id | id in t.operations ::
         if id in s.operations && s.operations[id].admission == t.operations[id].admission
         then L.Evolves(s.operations[id].snapshot, t.operations[id].snapshot)
         else s.nextAdmission <= t.operations[id].admission
  }

  /** Records that may not be evicted are kept as they are, up to who joins the thread. */
  ghost predicate KeepsUnevictable(before: map<string, Operation>, after: map<string, Operation>) {
    forall id | id in before && !Evictable(before[id]) ::
      id in after && after[id] == before[id].(handle := after[id].handle)
  }

  lemma RoomMoves(s: Service, victim: string)
    requires Admitted(s)
    ensures var collected := CollectFinished(s);
            && Later(s, collected) && KeepsUnevictable(s.operations, collected.operations) && Admitted(collected)
            && (victim in collected.operations && Evictable(collected.operations[victim]) ==>
                  var room := Evict(collected, victim);
                  Later(s, room) && KeepsUnevictable(s.operations, room.operations) && Admitted(room))
  {}

  lemma AdmitMoves(s: Service, room: Service, session: string, id: string, total: nat)
    requires Admitted(s) && Later(s, room) && KeepsUnevictable(s.operations, room.operations)
    requires session in room.sessions && id !in room.operations
    ensures var t := Admit(room, session, id, total); Later(s, t) && KeepsUnevictable(s.operations, t.operations)
  {}

  /** An admission replaces nothing but an evictable record. */
  lemma SubmitMoves(c: Config, s: Service, session: string, id: string, total: nat, victim: string, spawned: bool)
    requires Admitted(s)
    ensures var t := Submit(c, s, session, id, total, victim, spawned);
            Later(s, t) && KeepsUnevictable(s.operations, t.operations)
  {
    hide CollectFinished, Evict, Admit, Admitted;
    RoomMoves(s, victim);
    var collected := CollectFinished(s);
    assert collected.sessions == s.sessions by { CollectSessions(s); }
    var room := if |s.operations| == c.maxRetained then Evict(collected, victim) else collected;
    assert Evict(collected, victim).sessions == s.sessions by { EvictShape(collected, victim); }
    if session in room.sessions && id !in room.operations && Later(s, room) &&
       KeepsUnevictable(s.operations, room.operations)
    {
      AdmitMoves(s, room, session, id, total);
    }
  }

  lemma CollectSessions(s: Service)
    ensures CollectFinished(s).sessions == s.sessions
  {}

  lemma StepLater(c: Config, s: Service, step: Step)
    requires Inv(c, s) && Next(c, s, step).fault.NoFault?
    ensures Later(s, Next(c, s, step))
  {
    hide Inv, Next;
    if step.SubmitStep? {
      InvAdmitted(c, s);
      SubmitMoves(c, s, step.session, step.id, step.total, step.victim, step.spawned);
      SubmitIsNext(c, s, step);
    } else {
      StepMoves(c, s, step);
    }
  }

  lemma SubmitIsNext(c: Config, s: Service, step: Step)
    requires step.SubmitStep?
    ensures Next(c, s, step) == Submit(c, s, step.session, step.id, step.total, step.victim, step.spawned)
  {
    hide Submit;
  }

  lemma LaterTransitive(s: Service, t: Service, u: Service)
    requires Later(s, t) && Later(t, u)
    requires forall id | id in s.operations :: s.operations[id].admission < s.nextAdmission
    ensures Later(s, u)
  {}

  /**
   Over any run: progress of an operation never regresses, and once its snapshot is
   terminal it never changes again for as long as the operation is retained.
   */
  lemma {:induction false} RunLater(c: Config, s: Service, steps: seq<Step>)
    requires Inv(c, s) && Run(c, s, steps).fault.NoFault?
    ensures Later(s, Run(c, s, steps))
    decreases |steps|
  {
    hide Next, A.Accounting, Q.Queue, P.Pinned, L.Lifecycle, ValidConfig;
    if steps != [] {
      var t := Next(c, s, steps[0]);
      StepKeepsInv(c, s, steps[0]);
      if t.fault.NoFault? {
        StepLater(c, s, steps[0]);
        RunLater(c, t, steps[1..]);
        LaterTransitive(s, t, Run(c, t, steps[1..]));
      }
    }
  }

  lemma OnlyEvictionRemoves(c: Config, s: Service, step: Step, id: string)
    requires Inv(c, s) && Next(c, s, step).fault.NoFault? && id in s.operations
    requires id in Next(c, s, step).operations ==>
               Next(c, s, step).operations[id].admission != s.operations[id].admission
    ensures Evictable(s.operations[id])
  {
    hide Next, Inv;
    if step.SubmitStep? {
      assert Admitted(s) by { InvAdmitted(c, s); }
      SubmitMoves(c, s, step.session, step.id, step.total, step.victim, step.spawned);
      SubmitIsNext(c, s, step);
    } else {
      StepMoves(c, s, step);
    }
  }

  lemma InvAdmitted(c: Config, s: Service)
    requires Inv(c, s)
    ensures Admitted(s)
  {}

  /** A record that disappears, or is replaced by a new admission, had ended and its terminal state was delivered. */
  lemma EvictedWasDelivered(c: Config, s: Service, step: Step, id: string)
    requires Inv(c, s) && c.handler && Next(c, s, step).fault.NoFault? && id in s.operations
    requires id in Next(c, s, step).operations ==>
               Next(c, s, step).operations[id].admission != s.operations[id].admission
    ensures Terminal(s.operations[id].snapshot.status) && s.operations[id].waiters == 0
    ensures Delivery(id, s.operations[id].snapshot.sequence) in s.log
  {
    hide Next, A.Accounting, P.Pinned, L.Lifecycle;
    OnlyEvictionRemoves(c, s, step, id);
  }
}
