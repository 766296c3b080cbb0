/**
 What a queued notification or a sequence bump leaves alone.  The other operation
 modules use these frames instead of unfolding the queue.
 */
module OperationFrames {
  import opened OperationState

  /** Same record up to its snapshot's sequence number and the delivered mark. */
  predicate Restamped(before: Operation, after: Operation) {
    after == before.(snapshot := before.snapshot.(sequence := after.snapshot.sequence), delivered := after.delivered)
  }

  predicate Benign(fault: Fault) {
    fault.NoFault? || fault.SequenceExhausted? || fault.QueueOverflow?
  }

  lemma QueueFrame(c: Config, s: Service, id: string, snapshot: Snapshot)
    ensures var t := QueueOperation(c, s, id, snapshot);
            t == s.(operations := t.operations, pending := t.pending, fault := t.fault)
    ensures var t := QueueOperation(c, s, id, snapshot);
            t.operations == s.operations ||
            (id in s.operations &&
             t.operations == s.operations[id := s.operations[id].(delivered := snapshot.sequence)])
    ensures var t := QueueOperation(c, s, id, snapshot); t.fault == s.fault || t.fault == QueueOverflow
  {
    hide Coalesce, NoRoom;
  }

  lemma AdvanceFrame(c: Config, s: Service, id: string, operation: Operation)
    requires s.fault.NoFault?
    ensures var t := Advance(c, s, id, operation);
            t == s.(operations := t.operations, pending := t.pending, nextSequence := t.nextSequence, fault := t.fault)
    ensures var t := Advance(c, s, id, operation);
            id in t.operations && t.operations == s.operations[id := t.operations[id]] &&
            Restamped(operation, t.operations[id])
    ensures Benign(Advance(c, s, id, operation).fault)
  {
    hide QueueOperation;
    if s.nextSequence != MAX_SEQUENCE {
      var snapshot := operation.snapshot.(sequence := s.nextSequence);
      var stored := Store(s, id, operation.(snapshot := snapshot)).(nextSequence := s.nextSequence + 1);
      QueueFrame(c, stored, id, snapshot);
      var t := QueueOperation(c, stored, id, snapshot);
      assert t.operations == s.operations[id := t.operations[id]];
    }
  }

  lemma CancelOneFrame(c: Config, s: Service, id: string)
    requires s.fault.NoFault?
    ensures var t := CancelOne(c, s, id);
            t == s.(operations := t.operations, pending := t.pending, nextSequence := t.nextSequence, fault := t.fault)
    ensures var t := CancelOne(c, s, id);
            t.operations == s.operations ||
            (id in s.operations && id in t.operations && !Terminal(s.operations[id].snapshot.status) &&
             t.operations == s.operations[id := t.operations[id]] &&
             Restamped(RequestCancel(s.operations[id]), t.operations[id]))
    ensures Benign(CancelOne(c, s, id).fault)
  {
    hide Advance;
    if id in s.operations {
      AdvanceFrame(c, s, id, RequestCancel(s.operations[id]));
    }
  }

  /** Each record is as before, or was asked to stop. */
  ghost predicate Asked(before: map<string, Operation>, after: map<string, Operation>) {
    && before.Keys == after.Keys
    && forall id | id in before ::
         || before[id] == after[id]
         || (!Terminal(before[id].snapshot.status) && Restamped(RequestCancel(before[id]), after[id]))
  }

  lemma {:induction false} CancelAllFrame(c: Config, s: Service, ids: seq<string>)
    requires s.fault.NoFault?
    ensures var t := CancelAll(c, s, ids);
            t == s.(operations := t.operations, pending := t.pending, nextSequence := t.nextSequence, fault := t.fault)
    ensures Asked(s.operations, CancelAll(c, s, ids).operations)
    ensures Benign(CancelAll(c, s, ids).fault)
    decreases |ids|
  {
    hide CancelOne;
    if ids != [] {
      CancelOneFrame(c, s, ids[0]);
      var t := CancelOne(c, s, ids[0]);
      assert Asked(s.operations, t.operations);
      if t.fault.NoFault? {
        CancelAllFrame(c, t, ids[1..]);
      }
    }
  }
}

/**
 Who is counted where: a session's active count is the number of its operations
 that have not ended, the global count is the sum over the sessions, and nothing
 submitted is ever lost from the statistics.
 */
module OperationAccounting {
  import opened OperationState
  import opened OperationFrames

  function ActiveOf(operations: map<string, Operation>, session: string): set<string> {
    set id | id in operations && operations[id].snapshot.session == session && !Terminal(operations[id].snapshot.status)
  }

  function ActiveIds(operations: map<string, Operation>): set<string> {
    set id | id in operations && !Terminal(operations[id].snapshot.status)
  }

  ghost predicate Balanced(sessions: map<string, Session>, operations: map<string, Operation>, stats: Stats) {
    && (forall session | session in sessions :: sessions[session].active == |ActiveOf(operations, session)|)
    && (forall id | id in operations && !Terminal(operations[id].snapshot.status) ::
          operations[id].snapshot.session in sessions)
    && stats.active == |ActiveIds(operations)|
    && stats.submitted == stats.active + stats.succeeded + stats.cancelled + stats.failed
    && stats.submitted == |operations| + stats.evicted
  }

  ghost predicate Bounded(c: Config, sessions: map<string, Session>, operations: map<string, Operation>) {
    && |sessions| <= c.maxSessions
    && |operations| <= c.maxRetained
    && forall session | session in sessions ::
         sessions[session].active <= c.maxTasks && |sessions[session].subscriptions| <= c.maxSubscriptions
  }

  ghost predicate Accounting(c: Config, s: Service) {
    Balanced(s.sessions, s.operations, s.stats) && Bounded(c, s.sessions, s.operations)
  }

  // ----- frames -----

  /** The records may differ, but no operation appeared, vanished, changed session or ended. */
  ghost predicate SameLives(before: map<string, Operation>, after: map<string, Operation>) {
    && before.Keys == after.Keys
    && forall id | id in before ::
         && before[id].snapshot.session == after[id].snapshot.session
         && Terminal(before[id].snapshot.status) == Terminal(after[id].snapshot.status)
  }

  lemma SameLivesSameSets(before: map<string, Operation>, after: map<string, Operation>)
    requires SameLives(before, after)
    ensures |before| == |after| && ActiveIds(before) == ActiveIds(after)
    ensures forall session :: ActiveOf(before, session) == ActiveOf(after, session)
  {
    assert |before| == |before.Keys| == |after.Keys| == |after|;
    assert ActiveIds(before) == ActiveIds(after);
    forall session ensures ActiveOf(before, session) == ActiveOf(after, session) {}
  }

  lemma OperationsFrame(c: Config, s: Service, operations: map<string, Operation>)
    requires Accounting(c, s) && SameLives(s.operations, operations)
    ensures Accounting(c, s.(operations := operations))
  {
    hide ActiveOf, ActiveIds;
    SameLivesSameSets(s.operations, operations);
  }

  lemma SessionsFrame(c: Config, s: Service, sessions: map<string, Session>)
    requires Accounting(c, s) && s.sessions.Keys == sessions.Keys
    requires forall session | session in sessions ::
               && sessions[session].active == s.sessions[session].active
               && |sessions[session].subscriptions| <= |s.sessions[session].subscriptions|
    ensures Accounting(c, s.(sessions := sessions))
  {
    hide ActiveOf, ActiveIds;
    assert |s.sessions| == |s.sessions.Keys| == |sessions.Keys| == |sessions|;
  }

  lemma AdvanceKeepsAccounting(c: Config, s: Service, id: string, operation: Operation)
    requires Accounting(c, s) && s.fault.NoFault? && id in s.operations
    requires operation.snapshot.session == s.operations[id].snapshot.session
    requires Terminal(operation.snapshot.status) == Terminal(s.operations[id].snapshot.status)
    ensures Accounting(c, Advance(c, s, id, operation))
  {
    hide Advance, Balanced, Bounded;
    AdvanceFrame(c, s, id, operation);
    OperationsFrame(c, s, Advance(c, s, id, operation).operations);
  }

  lemma CancelAllKeepsAccounting(c: Config, s: Service, ids: seq<string>)
    requires Accounting(c, s) && s.fault.NoFault?
    ensures Accounting(c, CancelAll(c, s, ids))
  {
    hide CancelAll, Balanced, Bounded;
    CancelAllFrame(c, s, ids);
    OperationsFrame(c, s, CancelAll(c, s, ids).operations);
  }

  // ----- ending and admitting -----

  lemma EndingLeavesOneSet(operations: map<string, Operation>, id: string, ended: Operation)
    requires id in operations && !Terminal(operations[id].snapshot.status)
    requires Terminal(ended.snapshot.status) && ended.snapshot.session == operations[id].snapshot.session
    ensures |ActiveIds(operations[id := ended])| == |ActiveIds(operations)| - 1
    ensures |ActiveOf(operations[id := ended], ended.snapshot.session)| ==
            |ActiveOf(operations, ended.snapshot.session)| - 1
    ensures forall session | session != ended.snapshot.session ::
              ActiveOf(operations[id := ended], session) == ActiveOf(operations, session)
    ensures |operations[id := ended]| == |operations|
  {
    assert operations[id := ended].Keys == operations.Keys;
    assert ActiveIds(operations[id := ended]) == ActiveIds(operations) - {id};
    assert ActiveOf(operations[id := ended], ended.snapshot.session) ==
           ActiveOf(operations, ended.snapshot.session) - {id};
    forall session | session != ended.snapshot.session
      ensures ActiveOf(operations[id := ended], session) == ActiveOf(operations, session)
    {}
  }

  /** Both counters drop by one and the books balance again. */
  lemma RetirementBalances(sessions: map<string, Session>, operations: map<string, Operation>, stats: Stats, id: string,
                           ended: Operation)
    requires Balanced(sessions, operations, stats)
    requires id in operations && !Terminal(operations[id].snapshot.status)
    requires Terminal(ended.snapshot.status) && ended.snapshot.session == operations[id].snapshot.session
    ensures var session := ended.snapshot.session;
            && session in sessions && sessions[session].active > 0 && stats.active > 0
            && Balanced(sessions[session := sessions[session].(active := sessions[session].active - 1)],
                        operations[id := ended],
                        Counted(stats, ended.snapshot.status).(active := stats.active - 1))
  {
    hide ActiveOf, ActiveIds;
    EndingLeavesOneSet(operations, id, ended);
    var session := ended.snapshot.session;
    assert sessions[session := sessions[session].(active := sessions[session].active - 1)].Keys == sessions.Keys;
  }

  lemma RetirementStaysBounded(c: Config, s: Service, id: string, ended: Operation)
    requires Bounded(c, s.sessions, s.operations) && id in s.operations
    requires ended.snapshot.session in s.sessions && s.sessions[ended.snapshot.session].active > 0
    ensures var session := ended.snapshot.session;
            Bounded(c, s.sessions[session := s.sessions[session].(active := s.sessions[session].active - 1)],
                    s.operations[id := ended])
  {
    var session := ended.snapshot.session;
    assert s.sessions[session := s.sessions[session].(active := s.sessions[session].active - 1)].Keys ==
           s.sessions.Keys;
    assert s.operations[id := ended].Keys == s.operations.Keys;
  }

  predicate Ends(s: Service, id: string, ended: Operation) {
    && id in s.operations && !Terminal(s.operations[id].snapshot.status)
    && Terminal(ended.snapshot.status) && ended.snapshot.session == s.operations[id].snapshot.session
  }

  lemma RetireBooks(c: Config, s: Service, id: string, ended: Operation)
    requires Accounting(c, s) && s.fault.NoFault? && Ends(s, id, ended)
    ensures var retired := Retire(Store(s.(stats := Counted(s.stats, ended.snapshot.status)), id, ended),
                                  ended.snapshot.session);
            Accounting(c, retired) && retired.fault.NoFault?
  {
    hide Balanced, Bounded;
    RetirementBalances(s.sessions, s.operations, s.stats, id, ended);
    RetirementStaysBounded(c, s, id, ended);
  }

  lemma CompletionKeepsAccounting(c: Config, s: Service, id: string, ended: Operation)
    requires Accounting(c, s) && s.fault.NoFault? && Ends(s, id, ended) && s.nextSequence != MAX_SEQUENCE
    ensures Accounting(c, CompleteOperation(c, s, id, ended)) && Benign(CompleteOperation(c, s, id, ended).fault)
  {
    hide QueueOperation, Accounting, Retire, Counted;
    var numbered := ended.(snapshot := ended.snapshot.(sequence := s.nextSequence));
    var ticked := s.(nextSequence := s.nextSequence + 1);
    assert Accounting(c, ticked) by { BooksFrame(c, s, ticked); }
    RetireBooks(c, ticked, id, numbered);
    var retired := Retire(Store(ticked.(stats := Counted(s.stats, ended.snapshot.status)), id, numbered),
                          ended.snapshot.session);
    QueueFrame(c, retired, id, numbered.snapshot);
    QueueKeepsAccounting(c, retired, id, numbered.snapshot);
  }

  lemma BooksFrame(c: Config, s: Service, t: Service)
    requires Accounting(c, s) && t.sessions == s.sessions && t.operations == s.operations && t.stats == s.stats
    ensures Accounting(c, t)
  {}

  lemma QueueKeepsAccounting(c: Config, s: Service, id: string, snapshot: Snapshot)
    requires Accounting(c, s)
    ensures Accounting(c, QueueOperation(c, s, id, snapshot))
  {
    hide QueueOperation, Accounting;
    QueueFrame(c, s, id, snapshot);
    var t := QueueOperation(c, s, id, snapshot);
    assert Accounting(c, s.(operations := t.operations)) by { OperationsFrame(c, s, t.operations); }
    BooksFrame(c, s.(operations := t.operations), t);
  }

  /**
   Completing an operation keeps the books exactly while sequence numbers last.
   With the counter exhausted the code has already made the record terminal when it
   throws, so the operation stays on both active counts for ever.
   */
  lemma CompletionAccounting(c: Config, s: Service, id: string, ended: Operation)
    requires Accounting(c, s) && s.fault.NoFault? && Ends(s, id, ended)
    ensures Accounting(c, CompleteOperation(c, s, id, ended)) <==> s.nextSequence != MAX_SEQUENCE
  {
    if s.nextSequence == MAX_SEQUENCE {
      hide ActiveOf, ActiveIds, Bounded;
      EndingLeavesOneSet(s.operations, id, ended);
    } else {
      CompletionKeepsAccounting(c, s, id, ended);
    }
  }

  lemma AdmissionSets(operations: map<string, Operation>, id: string, admitted: Operation)
    requires id !in operations && !Terminal(admitted.snapshot.status)
    ensures |ActiveIds(operations[id := admitted])| == |ActiveIds(operations)| + 1
    ensures |operations[id := admitted]| == |operations| + 1
  {
    assert operations[id := admitted].Keys == operations.Keys + {id};
    assert ActiveIds(operations[id := admitted]) == ActiveIds(operations) + {id};
  }

  lemma AdmissionSet(operations: map<string, Operation>, id: string, admitted: Operation, session: string)
    requires id !in operations && !Terminal(admitted.snapshot.status)
    ensures |ActiveOf(operations[id := admitted], session)| ==
            |ActiveOf(operations, session)| + (if session == admitted.snapshot.session then 1 else 0)
  {
    if session == admitted.snapshot.session {
      assert ActiveOf(operations[id := admitted], session) == ActiveOf(operations, session) + {id};
    } else {
      assert ActiveOf(operations[id := admitted], session) == ActiveOf(operations, session);
    }
  }

  lemma AdmissionKeepsAccounting(c: Config, s: Service, session: string, id: string, total: nat)
    requires Accounting(c, s) && session in s.sessions && id !in s.operations
    requires s.sessions[session].active < c.maxTasks && |s.operations| < c.maxRetained
    ensures Accounting(c, Admit(s, session, id, total))
  {
    hide Balanced, Bounded;
    var t := Admit(s, session, id, total);
    AdmissionBalanced(s.sessions, s.operations, s.stats, session, id, t.operations[id]);
    AdmissionBounded(c, s.sessions, s.operations, session, id, t.operations[id]);
  }

  lemma AdmissionBalanced(sessions: map<string, Session>, operations: map<string, Operation>, stats: Stats,
                          session: string, id: string, admitted: Operation)
    requires Balanced(sessions, operations, stats) && session in sessions && id !in operations
    requires !Terminal(admitted.snapshot.status) && admitted.snapshot.session == session
    ensures Balanced(sessions[session := sessions[session].(active := sessions[session].active + 1)],
                     operations[id := admitted], stats.(active := stats.active + 1, submitted := stats.submitted + 1))
  {
    hide ActiveOf, ActiveIds;
    AdmissionSets(operations, id, admitted);
    forall other | other in sessions
      ensures |ActiveOf(operations[id := admitted], other)| ==
              |ActiveOf(operations, other)| + (if other == session then 1 else 0)
    {
      AdmissionSet(operations, id, admitted, other);
    }
  }

  lemma AdmissionBounded(c: Config, sessions: map<string, Session>, operations: map<string, Operation>,
                         session: string, id: string, admitted: Operation)
    requires Bounded(c, sessions, operations) && session in sessions && id !in operations
    requires sessions[session].active < c.maxTasks && |operations| < c.maxRetained
    ensures Bounded(c, sessions[session := sessions[session].(active := sessions[session].active + 1)],
                    operations[id := admitted])
  {
    UpdateSize(sessions, session, sessions[session].(active := sessions[session].active + 1));
    UpdateSize(operations, id, admitted);
  }

  lemma UpdateSize<V>(m: map<string, V>, key: string, value: V)
    ensures |m[key := value]| == |m| + (if key in m then 0 else 1)
  {
    assert m[key := value].Keys == m.Keys + {key};
    assert |m[key := value]| == |m[key := value].Keys| && |m| == |m.Keys|;
  }

  lemma EvictionKeepsAccounting(c: Config, s: Service, id: string)
    requires Accounting(c, s) && IsOldestEvictable(s.operations, id)
    ensures Accounting(c, Evict(s, id)) && |Evict(s, id).operations| < c.maxRetained
    ensures Evict(s, id).sessions == s.sessions
  {
    var t := Evict(s, id);
    assert t.operations.Keys == s.operations.Keys - {id};
    assert ActiveIds(t.operations) == ActiveIds(s.operations);
    forall other ensures ActiveOf(t.operations, other) == ActiveOf(s.operations, other) {}
  }

  lemma CollectKeepsAccounting(c: Config, s: Service)
    requires Accounting(c, s)
    ensures Accounting(c, CollectFinished(s)) && |CollectFinished(s).operations| == |s.operations|
    ensures CollectFinished(s).sessions == s.sessions
  {
    hide Accounting;
    var collected := CollectFinished(s);
    OperationsFrame(c, s, collected.operations);
    assert |collected.operations| == |collected.operations.Keys| == |s.operations.Keys| == |s.operations|;
  }

  // ----- removing sessions and shutting down -----

  lemma DeactivationKeepsSize(session: Session)
    ensures |Deactivated(session).subscriptions| == |session.subscriptions|
    ensures Deactivated(session) == session.(subscriptions := Deactivated(session).subscriptions)
  {
    assert Deactivated(session).subscriptions.Keys == session.subscriptions.Keys;
  }

  /** A session leaves only with no operation running in it. */
  lemma RemoveFinishKeepsAccounting(c: Config, s: Service, session: string)
    requires Accounting(c, s)
    ensures Accounting(c, RemoveFinish(s, session))
  {
    hide EraseSubscriptions, Balanced, Bounded;
    var t := RemoveFinish(s, session);
    if t != s {
      assert SameLives(s.operations, t.operations);
      OperationsFrame(c, s, t.operations);
      LeavingBalanced(s.sessions, t.operations, s.stats, session);
      LeavingBounded(c, s.sessions, t.operations, session);
    }
  }

  lemma LeavingBalanced(sessions: map<string, Session>, operations: map<string, Operation>, stats: Stats,
                        session: string)
    requires Balanced(sessions, operations, stats) && session in sessions && sessions[session].active == 0
    ensures Balanced(sessions - {session}, operations, stats)
  {
    hide ActiveIds;
    assert ActiveOf(operations, session) == {};
    forall id | id in operations && !Terminal(operations[id].snapshot.status)
      ensures operations[id].snapshot.session in sessions - {session}
    {
      assert id !in ActiveOf(operations, session);
    }
  }

  lemma LeavingBounded(c: Config, sessions: map<string, Session>, operations: map<string, Operation>, session: string)
    requires Bounded(c, sessions, operations) && session in sessions
    ensures Bounded(c, sessions - {session}, operations)
  {
    assert (sessions - {session}).Keys == sessions.Keys - {session};
    assert |(sessions - {session}).Keys| <= |sessions.Keys|;
  }

  lemma StoppingKeepsAccounting(c: Config, s: Service, owner: Owner)
    requires Accounting(c, s)
    ensures Accounting(c, s.(
              operations := map id | id in s.operations :: JoinUnlessOwner(owner, id, s.operations[id]),
              sessions := map session | session in s.sessions :: Deactivated(s.sessions[session])))
  {
    hide Accounting, Deactivated;
    var sessions := map session | session in s.sessions :: Deactivated(s.sessions[session]);
    forall session | session in sessions
      ensures sessions[session] == s.sessions[session].(subscriptions := sessions[session].subscriptions)
      ensures |sessions[session].subscriptions| == |s.sessions[session].subscriptions|
    {
      DeactivationKeepsSize(s.sessions[session]);
    }
    SessionsFrame(c, s, sessions);
    var operations := map id | id in s.operations :: JoinUnlessOwner(owner, id, s.operations[id]);
    OperationsFrame(c, s.(sessions := sessions), operations);
  }

  lemma ShutdownKeepsAccounting(c: Config, s: Service, owner: Owner, ids: seq<string>)
    requires Accounting(c, s) && s.fault.NoFault?
    ensures Accounting(c, ShutdownBegin(c, s, owner, ids))
  {
    hide Accounting, CancelAll;
    var begun := s.(phase := Stopping(owner, false));
    assert Accounting(c, begun) by { BooksFrame(c, s, begun); }
    CancelAllKeepsAccounting(c, begun, ids);
    StoppingKeepsAccounting(c, CancelAll(c, begun, ids), owner);
  }

  lemma FinalizeKeepsAccounting(c: Config, s: Service)
    requires Accounting(c, s) && forall id | id in s.operations :: Terminal(s.operations[id].snapshot.status)
    ensures Accounting(c, Finalize(s))
  {}

  // ----- the sum over sessions -----

  ghost function SumActive(sessions: map<string, Session>, names: set<string>): nat
    requires names <= sessions.Keys
  {
    if names == {} then 0
    else var session :| session in names; sessions[session].active + SumActive(sessions, names - {session})
  }

  function ActiveIn(operations: map<string, Operation>, names: set<string>): set<string> {
    set id | id in operations && operations[id].snapshot.session in names && !Terminal(operations[id].snapshot.status)
  }

  lemma {:induction false} SumCountsIds(s: Service, names: set<string>)
    requires names <= s.sessions.Keys
    requires forall session | session in s.sessions ::
               s.sessions[session].active == |ActiveOf(s.operations, session)|
    ensures SumActive(s.sessions, names) == |ActiveIn(s.operations, names)|
  {
    if names == {} {
      assert ActiveIn(s.operations, names) == {};
    } else {
      hide ActiveOf, ActiveIn;
      var session :| session in names &&
                     SumActive(s.sessions, names) ==
                     s.sessions[session].active + SumActive(s.sessions, names - {session});
      SumCountsIds(s, names - {session});
      ActiveInSplits(s.operations, names, session);
    }
  }

  lemma ActiveInSplits(operations: map<string, Operation>, names: set<string>, session: string)
    requires session in names
    ensures |ActiveIn(operations, names)| == |ActiveOf(operations, session)| + |ActiveIn(operations, names - {session})|
  {
    assert ActiveIn(operations, names) == ActiveOf(operations, session) + ActiveIn(operations, names - {session});
    assert ActiveOf(operations, session) !! ActiveIn(operations, names - {session});
  }

  /** The global count is the sum of the session counts. */
  lemma GlobalIsSum(c: Config, s: Service)
    requires Accounting(c, s)
    ensures s.stats.active == SumActive(s.sessions, s.sessions.Keys)
  {
    SumCountsIds(s, s.sessions.Keys);
    assert ActiveIds(s.operations) == ActiveIn(s.operations, s.sessions.Keys);
  }
}
