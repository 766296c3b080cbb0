/**
 Notification delivery: the queue holds exactly one note, carrying the current
 snapshot, for each operation whose latest change has not been delivered, and none
 for any other operation.
 */
module OperationQueue {
  import opened Wrappers
  import opened OperationState
  import opened OperationFrames
  import OperationAccounting

  ghost predicate Distinct(pending: seq<Note>) {
    forall i, j | 0 <= i < j < |pending| :: KeyOf(pending[i]) != KeyOf(pending[j])
  }

  /** Changed since submission, and the change not yet delivered. */
  predicate Owed(operation: Operation) {
    !operation.snapshot.status.Queued? && operation.delivered < operation.snapshot.sequence
  }

  predicate Stamped(operation: Operation, nextSequence: nat) {
    && 0 < operation.snapshot.sequence < nextSequence
    && operation.delivered <= operation.snapshot.sequence
    && (operation.snapshot.status.Queued? ==> operation.delivered == 0)
  }

  ghost predicate Tracks(c: Config, operations: map<string, Operation>, pending: seq<Note>, nextSequence: nat) {
    && (forall id | id in operations :: Stamped(operations[id], nextSequence))
    && (forall note | note in pending && note.OperationUpdated? ::
          note.id in operations && note.snapshot == operations[note.id].snapshot && Owed(operations[note.id]))
    && (forall id | id in operations && Owed(operations[id]) ::
          c.handler && OperationUpdated(id, operations[id].snapshot) in pending)
    && (!c.handler ==> pending == [])
  }

  /** A note being delivered is for an operation that still owes it. */
  ghost predicate Flight(c: Config, operations: map<string, Operation>, delivering: bool, inFlight: Option<Note>) {
    && (delivering ==> c.handler)
    && (inFlight.Some? ==> delivering)
    && (inFlight.Some? && inFlight.value.OperationUpdated? ==>
          var note := inFlight.value;
          && note.id in operations
          && operations[note.id].snapshot.session == note.snapshot.session
          && !operations[note.id].snapshot.status.Queued?
          && operations[note.id].delivered < note.snapshot.sequence <= operations[note.id].snapshot.sequence)
  }

  ghost predicate Logged(c: Config, operations: map<string, Operation>, inFlight: Option<Note>, log: seq<Delivery>,
                         nextSequence: nat) {
    && (forall entry | entry in log ::
          && entry.sequence < nextSequence
          && (entry.id in operations ==>
                && entry.sequence <= operations[entry.id].snapshot.sequence
                && (Owed(operations[entry.id]) ==> entry.sequence < operations[entry.id].snapshot.sequence))
          && (inFlight.Some? && inFlight.value.OperationUpdated? && inFlight.value.id == entry.id ==>
                entry.sequence < inFlight.value.snapshot.sequence))
    && (forall id | id in operations && operations[id].delivered > 0 && c.handler ::
          Delivery(id, operations[id].delivered) in log)
  }

  /** Successful deliveries of one operation strictly advance. */
  ghost predicate Increasing(log: seq<Delivery>) {
    forall i, j | 0 <= i < j < |log| && log[i].id == log[j].id :: log[i].sequence < log[j].sequence
  }

  ghost predicate SubscriptionsKnown(phase: Phase, sessions: map<string, Session>, pending: seq<Note>) {
    !phase.Complete? ==>
      forall note | note in pending && note.SubscriptionUpdated? ::
        note.session in sessions && note.id in sessions[note.session].subscriptions
  }

  ghost predicate Queue(c: Config, s: Service) {
    && Distinct(s.pending)
    && Tracks(c, s.operations, s.pending, s.nextSequence)
    && Flight(c, s.operations, s.delivering, s.inFlight)
    && Logged(c, s.operations, s.inFlight, s.log, s.nextSequence)
    && Increasing(s.log)
    && SubscriptionsKnown(s.phase, s.sessions, s.pending)
  }

  // ----- sequence facts -----

  lemma FindMember(pending: seq<Note>, note: Note)
    requires Distinct(pending) && note in pending
    ensures var i := Find(pending, KeyOf(note)); i < |pending| && pending[i] == note
  {
    var j :| 0 <= j < |pending| && pending[j] == note;
    var i := Find(pending, KeyOf(note));
    assert KeyOf(pending[j]) == KeyOf(note);
  }

  lemma WithoutHolds(pending: seq<Note>, i: nat, note: Note)
    requires Distinct(pending) && i < |pending|
    ensures note in Without(pending, i) <==> note in pending && KeyOf(note) != KeyOf(pending[i])
  {
    var rest := Without(pending, i);
    if note in rest {
      var a :| 0 <= a < |rest| && rest[a] == note;
      assert rest[a] == pending[if a < i then a else a + 1];
    }
    if note in pending && KeyOf(note) != KeyOf(pending[i]) {
      var a :| 0 <= a < |pending| && pending[a] == note;
      assert rest[if a < i then a else a - 1] == note;
    }
  }

  lemma WithoutFacts(pending: seq<Note>, i: nat)
    requires Distinct(pending) && i < |pending|
    ensures Distinct(Without(pending, i))
    ensures forall note :: note in Without(pending, i) <==> note in pending && KeyOf(note) != KeyOf(pending[i])
  {
    var rest := Without(pending, i);
    forall a, b | 0 <= a < b < |rest| ensures KeyOf(rest[a]) != KeyOf(rest[b]) {
      assert rest[a] == pending[if a < i then a else a + 1];
      assert rest[b] == pending[if b < i then b else b + 1];
    }
    forall note ensures note in rest <==> note in pending && KeyOf(note) != KeyOf(pending[i]) {
      WithoutHolds(pending, i, note);
    }
  }

  lemma AppendFacts(pending: seq<Note>, note: Note)
    requires Distinct(pending) && forall other | other in pending :: KeyOf(other) != KeyOf(note)
    ensures Distinct(pending + [note])
    ensures forall other :: other in pending + [note] <==> other in pending || other == note
  {
    assert forall i | 0 <= i < |pending| :: pending[i] in pending;
  }

  lemma ReplaceFacts(pending: seq<Note>, i: nat, note: Note)
    requires Distinct(pending) && i < |pending| && KeyOf(pending[i]) == KeyOf(note)
    ensures Distinct(pending[i := note])
    ensures forall other ::
              other in pending[i := note] <==> (other in pending && KeyOf(other) != KeyOf(note)) || other == note
  {
    var changed := pending[i := note];
    forall other ensures other in changed <==> (other in pending && KeyOf(other) != KeyOf(note)) || other == note {
      if other in pending && KeyOf(other) != KeyOf(note) {
        var a :| 0 <= a < |pending| && pending[a] == other;
        assert changed[a] == other;
      }
      if other in changed && other != note {
        var a :| 0 <= a < |changed| && changed[a] == other;
        assert a != i && pending[a] == other;
      }
      assert changed[i] == note;
    }
  }

  /** A newer note takes the place of the queued one with its key. */
  lemma CoalesceFacts(pending: seq<Note>, note: Note)
    requires Distinct(pending)
    requires note.OperationUpdated? ==>
               forall other | other in pending && KeyOf(other) == KeyOf(note) ::
                 other.OperationUpdated? && other.snapshot.sequence < note.snapshot.sequence
    ensures Distinct(Coalesce(pending, note))
    ensures forall other ::
              other in Coalesce(pending, note) <==> (other in pending && KeyOf(other) != KeyOf(note)) || other == note
  {
    var i := Find(pending, KeyOf(note));
    if i == |pending| {
      forall other | other in pending ensures KeyOf(other) != KeyOf(note) {
        var a :| 0 <= a < |pending| && pending[a] == other;
      }
      AppendFacts(pending, note);
    } else {
      assert pending[i] in pending;
      ReplaceFacts(pending, i, note);
      WithoutFacts(pending, i);
      AppendFacts(Without(pending, i), note);
    }
  }

  // ----- the queue never fills up -----

  ghost function Keys(pending: seq<Note>): set<Key> {
    set i | 0 <= i < |pending| :: KeyOf(pending[i])
  }

  lemma {:induction false} DistinctKeys(pending: seq<Note>)
    requires Distinct(pending)
    ensures |Keys(pending)| == |pending|
  {
    if pending != [] {
      var n := |pending| - 1;
      DistinctKeys(pending[..n]);
      assert forall i | 0 <= i < n :: pending[..n][i] == pending[i];
      assert Keys(pending) == Keys(pending[..n]) + {KeyOf(pending[n])};
      assert KeyOf(pending[n]) !in Keys(pending[..n]);
    }
  }

  ghost function OperationKeys(operations: map<string, Operation>): set<Key> {
    set id | id in operations :: OperationKey(operations[id].snapshot.session, id)
  }

  lemma {:induction false} OperationKeysBound(operations: map<string, Operation>)
    ensures |OperationKeys(operations)| <= |operations|
    decreases |operations|
  {
    if operations != map[] {
      var id :| id in operations;
      var fewer := operations - {id};
      assert fewer.Keys == operations.Keys - {id};
      OperationKeysBound(fewer);
      assert OperationKeys(operations) ==
             OperationKeys(fewer) + {OperationKey(operations[id].snapshot.session, id)};
    }
  }

  ghost function SessionKeys(session: string, subscriptions: set<string>): set<Key> {
    set id | id in subscriptions :: SubscriptionKey(session, id)
  }

  lemma {:induction false} SessionKeysBound(session: string, subscriptions: set<string>)
    ensures |SessionKeys(session, subscriptions)| <= |subscriptions|
  {
    if subscriptions != {} {
      var id :| id in subscriptions;
      SessionKeysBound(session, subscriptions - {id});
      assert SessionKeys(session, subscriptions) ==
             SessionKeys(session, subscriptions - {id}) + {SubscriptionKey(session, id)};
    }
  }

  ghost function SubscriptionKeys(sessions: map<string, Session>): set<Key> {
    set session, id | session in sessions && id in sessions[session].subscriptions :: SubscriptionKey(session, id)
  }

  lemma SubscriptionKeysSplit(sessions: map<string, Session>, session: string)
    requires session in sessions
    ensures SubscriptionKeys(sessions) ==
            SubscriptionKeys(sessions - {session}) + SessionKeys(session, sessions[session].subscriptions.Keys)
  {
    var fewer := sessions - {session};
    forall key | key in SubscriptionKeys(sessions)
      ensures key in SubscriptionKeys(fewer) + SessionKeys(session, sessions[session].subscriptions.Keys)
    {
      assert key == SubscriptionKey(key.session, key.id);
    }
  }

  lemma UnionSize<T>(a: set<T>, b: set<T>)
    ensures |a + b| <= |a| + |b|
  {}

  lemma OneMore(total: nat, part: nat, n: nat, most: nat)
    requires total <= part + most && part <= n * most
    ensures total <= (n + 1) * most
  {
    assert (n + 1) * most == n * most + most;
  }

  lemma {:induction false} SubscriptionKeysBound(sessions: map<string, Session>, most: nat)
    requires forall session | session in sessions :: |sessions[session].subscriptions| <= most
    ensures |SubscriptionKeys(sessions)| <= |sessions| * most
    decreases |sessions|
  {
    if sessions == map[] {
      assert SubscriptionKeys(sessions) == {};
    } else {
      hide SubscriptionKeys, SessionKeys;
      var session :| session in sessions;
      var fewer := sessions - {session};
      assert fewer.Keys == sessions.Keys - {session};
      assert |sessions| == |fewer| + 1;
      SubscriptionKeysBound(fewer, most);
      SessionKeysBound(session, sessions[session].subscriptions.Keys);
      SubscriptionKeysSplit(sessions, session);
      UnionSize(SubscriptionKeys(fewer), SessionKeys(session, sessions[session].subscriptions.Keys));
      OneMore(|SubscriptionKeys(sessions)|, |SubscriptionKeys(fewer)|, |fewer|, most);
    }
  }

  /** Every key a note may carry while the service is not fully shut down. */
  ghost function LiveKeys(sessions: map<string, Session>, operations: map<string, Operation>): set<Key> {
    OperationKeys(operations) + SubscriptionKeys(sessions)
  }

  lemma ScaleMonotone(a: nat, b: nat, factor: nat)
    requires a <= b
    ensures a * factor <= b * factor
  {}

  lemma LiveKeysBound(c: Config, sessions: map<string, Session>, operations: map<string, Operation>)
    requires ValidConfig(c) && OperationAccounting.Bounded(c, sessions, operations)
    ensures |LiveKeys(sessions, operations)| <= c.maxPending
  {
    hide OperationKeys, SubscriptionKeys;
    OperationKeysBound(operations);
    SubscriptionKeysBound(sessions, c.maxSubscriptions);
    ScaleMonotone(|sessions|, c.maxSessions, c.maxSubscriptions);
    UnionSize(OperationKeys(operations), SubscriptionKeys(sessions));
  }

  lemma SubsetSize<T>(a: set<T>, b: set<T>)
    requires a <= b
    ensures |a| <= |b|
  {
    assert b == a + (b - a);
  }

  lemma QueuedKeysLive(c: Config, s: Service)
    requires Tracks(c, s.operations, s.pending, s.nextSequence)
    requires SubscriptionsKnown(s.phase, s.sessions, s.pending) && !s.phase.Complete?
    ensures Keys(s.pending) <= LiveKeys(s.sessions, s.operations)
  {
    forall key | key in Keys(s.pending) ensures key in LiveKeys(s.sessions, s.operations) {
      var i :| 0 <= i < |s.pending| && KeyOf(s.pending[i]) == key;
      assert s.pending[i] in s.pending;
    }
  }

  /** The "queue exceeded its bound" error cannot be reached. */
  lemma QueueHasRoom(c: Config, s: Service, note: Note)
    requires ValidConfig(c) && OperationAccounting.Bounded(c, s.sessions, s.operations)
    requires Distinct(s.pending) && Tracks(c, s.operations, s.pending, s.nextSequence)
    requires SubscriptionsKnown(s.phase, s.sessions, s.pending) && !s.phase.Complete?
    requires KeyOf(note) in LiveKeys(s.sessions, s.operations)
    ensures !NoRoom(c, s.pending, note)
  {
    hide LiveKeys, Tracks, SubscriptionsKnown, OperationAccounting.Bounded, ValidConfig;
    var live := LiveKeys(s.sessions, s.operations);
    QueuedKeysLive(c, s);
    LiveKeysBound(c, s.sessions, s.operations);
    if Find(s.pending, KeyOf(note)) == |s.pending| {
      assert KeyOf(note) !in Keys(s.pending);
      DistinctKeys(s.pending);
      SubsetSize(Keys(s.pending) + {KeyOf(note)}, live);
    }
  }

  // ----- a change to one operation -----

  /** The record of a changed operation under the next sequence number. */
  ghost predicate Renumbered(before: Operation, after: Operation, nextSequence: nat) {
    && after.snapshot.sequence == nextSequence
    && after.snapshot.session == before.snapshot.session
    && after.delivered == before.delivered
    && !after.snapshot.status.Queued?
  }

  lemma RequeueTracks(c: Config, operations: map<string, Operation>, pending: seq<Note>, next: nat, id: string,
                      after: Operation)
    requires c.handler && Distinct(pending) && Tracks(c, operations, pending, next)
    requires id in operations && Renumbered(operations[id], after, next)
    ensures var coalesced := Coalesce(pending, OperationUpdated(id, after.snapshot));
            Distinct(coalesced) && Tracks(c, operations[id := after], coalesced, next + 1)
    ensures forall note | note in Coalesce(pending, OperationUpdated(id, after.snapshot)) &&
              note.SubscriptionUpdated? ::
              note in pending
  {
    hide Coalesce, Distinct;
    CoalesceFacts(pending, OperationUpdated(id, after.snapshot));
  }

  lemma UnqueuedTracks(c: Config, operations: map<string, Operation>, pending: seq<Note>, next: nat, id: string,
                       after: Operation)
    requires !c.handler && Tracks(c, operations, pending, next)
    requires id in operations && Renumbered(operations[id], after, next)
    ensures Tracks(c, operations[id := after.(delivered := next)], pending, next + 1)
  {}

  lemma RequeueFlight(c: Config, s: Service, id: string, after: Operation)
    requires Flight(c, s.operations, s.delivering, s.inFlight) && Tracks(c, s.operations, s.pending, s.nextSequence)
    requires Logged(c, s.operations, s.inFlight, s.log, s.nextSequence)
    requires id in s.operations && Renumbered(s.operations[id], after, s.nextSequence)
    ensures Flight(c, s.operations[id := after], s.delivering, s.inFlight)
    ensures Logged(c, s.operations[id := after], s.inFlight, s.log, s.nextSequence + 1)
    ensures !c.handler ==> Flight(c, s.operations[id := after.(delivered := s.nextSequence)], s.delivering, s.inFlight)
    ensures !c.handler ==>
              Logged(c, s.operations[id := after.(delivered := s.nextSequence)], s.inFlight, s.log, s.nextSequence + 1)
  {}

  lemma RequeueKeepsQueue(c: Config, s: Service, t: Service, id: string, after: Operation)
    requires Queue(c, s) && id in s.operations && Renumbered(s.operations[id], after, s.nextSequence)
    requires t == s.(operations := s.operations[id := after], nextSequence := s.nextSequence + 1,
                     sessions := t.sessions, stats := t.stats)
    requires SubscriptionsKnown(t.phase, t.sessions, t.pending)
    requires !NoRoom(c, t.pending, OperationUpdated(id, after.snapshot))
    ensures Queue(c, QueueOperation(c, t, id, after.snapshot))
    ensures QueueOperation(c, t, id, after.snapshot).fault == t.fault
  {
    hide Coalesce, NoRoom, Distinct, Flight, Logged, Increasing;
    RequeueFlight(c, s, id, after);
    assert after.snapshot.sequence > after.delivered;
    if c.handler {
      RequeueTracks(c, s.operations, s.pending, s.nextSequence, id, after);
    } else {
      UnqueuedTracks(c, s.operations, s.pending, s.nextSequence, id, after);
      assert s.operations[id := after][id := after.(delivered := s.nextSequence)] ==
             s.operations[id := after.(delivered := s.nextSequence)];
    }
  }

  /** What the queue proofs need of the rest of the state. */
  ghost predicate Sound(c: Config, s: Service) {
    && ValidConfig(c) && Queue(c, s) && s.fault.NoFault? && s.nextSequence != MAX_SEQUENCE && !s.phase.Complete?
    && OperationAccounting.Bounded(c, s.sessions, s.operations)
  }

  lemma RoomForOperation(c: Config, s: Service, id: string, snapshot: Snapshot)
    requires Sound(c, s) && id in s.operations && s.operations[id].snapshot.session == snapshot.session
    ensures !NoRoom(c, s.pending, OperationUpdated(id, snapshot))
  {
    hide NoRoom, OperationAccounting.Bounded, ValidConfig;
    assert KeyOf(OperationUpdated(id, snapshot)) in OperationKeys(s.operations);
    QueueHasRoom(c, s, OperationUpdated(id, snapshot));
  }

  lemma AdvanceKeepsQueue(c: Config, s: Service, id: string, operation: Operation)
    requires Sound(c, s) && id in s.operations
    requires Renumbered(s.operations[id], operation.(snapshot := operation.snapshot.(sequence := s.nextSequence)),
                        s.nextSequence)
    ensures Queue(c, Advance(c, s, id, operation)) && Advance(c, s, id, operation).fault.NoFault?
  {
    hide Queue, NoRoom, QueueOperation, OperationAccounting.Bounded, ValidConfig;
    var after := operation.(snapshot := operation.snapshot.(sequence := s.nextSequence));
    RoomForOperation(c, s, id, after.snapshot);
    assert SubscriptionsKnown(s.phase, s.sessions, s.pending) by { QueueParts(c, s); }
    RequeueKeepsQueue(c, s, Store(s, id, after).(nextSequence := s.nextSequence + 1), id, after);
  }

  lemma QueueParts(c: Config, s: Service)
    requires Queue(c, s)
    ensures SubscriptionsKnown(s.phase, s.sessions, s.pending)
    ensures Tracks(c, s.operations, s.pending, s.nextSequence)
  {}

  lemma CompletionKeepsQueue(c: Config, s: Service, id: string, ended: Operation)
    requires Sound(c, s) && OperationAccounting.Accounting(c, s) && OperationAccounting.Ends(s, id, ended)
    requires ended.delivered == s.operations[id].delivered
    ensures Queue(c, CompleteOperation(c, s, id, ended)) && CompleteOperation(c, s, id, ended).fault.NoFault?
  {
    hide Queue, NoRoom, QueueOperation, OperationAccounting.Accounting, OperationAccounting.Bounded, ValidConfig,
      Retire;
    var after := ended.(snapshot := ended.snapshot.(sequence := s.nextSequence));
    RoomForOperation(c, s, id, after.snapshot);
    var ticked := s.(nextSequence := s.nextSequence + 1);
    OperationAccounting.BooksFrame(c, s, ticked);
    OperationAccounting.RetireBooks(c, ticked, id, after);
    var stored := Store(ticked.(stats := Counted(s.stats, ended.snapshot.status)), id, after);
    var retired := Retire(stored, after.snapshot.session);
    RetireShape(stored, after.snapshot.session);
    QueueParts(c, s);
    RequeueKeepsQueue(c, s, retired, id, after);
  }

  lemma RetireShape(s: Service, session: string)
    requires Retire(s, session).fault.NoFault? && s.fault.NoFault?
    ensures var t := Retire(s, session);
            t == s.(sessions := t.sessions, stats := t.stats) && t.sessions.Keys == s.sessions.Keys
    ensures forall other | other in s.sessions ::
              Retire(s, session).sessions[other].subscriptions == s.sessions[other].subscriptions
  {}

  // ----- changes that leave deliveries alone -----

  ghost predicate SameDeliveries(before: map<string, Operation>, after: map<string, Operation>) {
    && before.Keys == after.Keys
    && forall id | id in before ::
         before[id].snapshot == after[id].snapshot && before[id].delivered == after[id].delivered
  }

  ghost predicate SameSubscriptions(before: map<string, Session>, after: map<string, Session>) {
    && before.Keys <= after.Keys
    && forall session | session in before ::
         before[session].subscriptions.Keys <= after[session].subscriptions.Keys
  }

  lemma QueueFrameOf(c: Config, s: Service, t: Service)
    requires Queue(c, s)
    requires SameDeliveries(s.operations, t.operations) && t.pending == s.pending && t.delivering == s.delivering
    requires t.inFlight == s.inFlight && t.nextSequence >= s.nextSequence && t.log == s.log
    requires t.phase.Complete? || (!s.phase.Complete? && SameSubscriptions(s.sessions, t.sessions))
    ensures Queue(c, t)
  {}

  lemma EvictionKeepsQueue(c: Config, s: Service, id: string)
    requires Queue(c, s) && id in s.operations && Evictable(s.operations[id])
    ensures Queue(c, Evict(s, id))
  {}

  lemma AdmissionKeepsQueue(c: Config, s: Service, session: string, id: string, total: nat)
    requires Queue(c, s) && session in s.sessions && id !in s.operations && 0 < s.nextSequence
    ensures Queue(c, Admit(s, session, id, total))
  {
    hide Tracks, Logged, Distinct, Increasing;
    var t := Admit(s, session, id, total);
    assert SameSubscriptions(s.sessions, t.sessions);
    AdmittedTracks(c, s.operations, s.pending, s.nextSequence, id, t.operations[id]);
    AdmittedLog(c, s.operations, s.inFlight, s.log, s.nextSequence, id, t.operations[id]);
  }

  lemma AdmittedTracks(c: Config, operations: map<string, Operation>, pending: seq<Note>, next: nat, id: string,
                       admitted: Operation)
    requires Tracks(c, operations, pending, next) && id !in operations && 0 < next
    requires admitted.snapshot.status.Queued? && admitted.snapshot.sequence == next && admitted.delivered == 0
    ensures Tracks(c, operations[id := admitted], pending, next + 1)
  {}

  lemma AdmittedLog(c: Config, operations: map<string, Operation>, inFlight: Option<Note>, log: seq<Delivery>,
                    next: nat, id: string, admitted: Operation)
    requires Logged(c, operations, inFlight, log, next) && id !in operations
    requires admitted.snapshot.status.Queued? && admitted.snapshot.sequence == next && admitted.delivered == 0
    ensures Logged(c, operations[id := admitted], inFlight, log, next + 1)
  {}

  // ----- subscriptions -----

  lemma PublishKeepsQueue(c: Config, s: Service, session: string, id: string, item: nat)
    requires ValidConfig(c) && Queue(c, s) && s.fault.NoFault?
    requires OperationAccounting.Bounded(c, s.sessions, s.operations)
    ensures Queue(c, Publish(c, s, session, id, item)) && Publish(c, s, session, id, item).fault.NoFault?
  {
    hide Coalesce, NoRoom, Distinct, Tracks, Logged, Flight, Increasing, ValidConfig, OperationAccounting.Bounded;
    if s.phase.Serving? && session in s.sessions && id in s.sessions[session].subscriptions && c.handler {
      var note := SubscriptionUpdated(session, id, item);
      assert KeyOf(note) in SubscriptionKeys(s.sessions);
      QueueHasRoom(c, s, note);
      CoalesceFacts(s.pending, note);
      NotedTracks(c, s.operations, s.pending, Coalesce(s.pending, note), s.nextSequence, note);
    }
  }

  /** A subscription's note leaves the notes of operations as they are. */
  lemma NotedTracks(c: Config, operations: map<string, Operation>, pending: seq<Note>, noted: seq<Note>, next: nat,
                    note: Note)
    requires Tracks(c, operations, pending, next) && c.handler && note.SubscriptionUpdated?
    requires forall other :: other in noted <==> (other in pending && KeyOf(other) != KeyOf(note)) || other == note
    ensures Tracks(c, operations, noted, next)
  {}

  lemma {:induction false} EraseKeyFacts(pending: seq<Note>, key: Key)
    requires Distinct(pending)
    ensures Distinct(EraseKey(pending, key))
    ensures forall note :: note in EraseKey(pending, key) <==> note in pending && KeyOf(note) != key
  {
    if pending != [] {
      var tail := pending[1..];
      EraseKeyFacts(tail, key);
      assert pending == [pending[0]] + tail;
      forall note | note in tail ensures KeyOf(note) != KeyOf(pending[0]) {
        var i :| 0 <= i < |tail| && tail[i] == note;
        assert pending[i + 1] == note;
      }
      var rest := EraseKey(tail, key);
      forall i | 0 <= i < |rest| ensures KeyOf(rest[i]) != KeyOf(pending[0]) { assert rest[i] in rest; }
    }
  }

  lemma {:induction false} EraseSubscriptionsFacts(pending: seq<Note>, session: string)
    requires Distinct(pending)
    ensures Distinct(EraseSubscriptions(pending, session))
    ensures forall note :: note in EraseSubscriptions(pending, session) <==>
              note in pending && !(note.SubscriptionUpdated? && note.session == session)
  {
    if pending != [] {
      var tail := pending[1..];
      EraseSubscriptionsFacts(tail, session);
      assert pending == [pending[0]] + tail;
      forall note | note in tail ensures KeyOf(note) != KeyOf(pending[0]) {
        var i :| 0 <= i < |tail| && tail[i] == note;
        assert pending[i + 1] == note;
      }
      var rest := EraseSubscriptions(tail, session);
      forall i | 0 <= i < |rest| ensures KeyOf(rest[i]) != KeyOf(pending[0]) { assert rest[i] in rest; }
    }
  }

  lemma TracksSubset(c: Config, operations: map<string, Operation>, pending: seq<Note>, kept: seq<Note>, next: nat)
    requires Tracks(c, operations, pending, next)
    requires forall note | note in kept :: note in pending
    requires forall note | note in pending && note.OperationUpdated? :: note in kept
    ensures Tracks(c, operations, kept, next)
  {
    if kept != [] { assert kept[0] in kept; }
  }

  lemma SubscribeKeepsQueue(c: Config, s: Service, session: string, id: string, victim: string)
    requires Queue(c, s)
    ensures Queue(c, Subscribe(c, s, session, id, victim))
  {
    hide EraseKey, Tracks, Flight, Logged, Increasing, Distinct;
    var t := Subscribe(c, s, session, id, victim);
    EraseKeyFacts(s.pending, SubscriptionKey(session, victim));
    TracksSubset(c, s.operations, s.pending, t.pending, s.nextSequence);
  }

  lemma RemoveFinishKeepsQueue(c: Config, s: Service, session: string)
    requires Queue(c, s)
    ensures Queue(c, RemoveFinish(s, session))
  {
    hide EraseSubscriptions, Tracks, Flight, Logged, Increasing, Distinct;
    var t := RemoveFinish(s, session);
    if t != s {
      EraseSubscriptionsFacts(s.pending, session);
      TracksSubset(c, s.operations, s.pending, t.pending, s.nextSequence);
      QueueFrameOf(c, s.(pending := t.pending, sessions := t.sessions), t);
    }
  }

  // ----- draining -----

  lemma DrainTakeKeepsQueue(c: Config, s: Service)
    requires Queue(c, s)
    ensures Queue(c, DrainTake(s))
  {
    if s.delivering && s.inFlight.None? && s.pending != [] {
      assert s.pending[0] in s.pending;
      if s.pending[0].SubscriptionUpdated? {
        var rest := s.pending[1..];
        assert forall i | 0 <= i < |rest| :: rest[i] == s.pending[i + 1];
        assert s.pending == [s.pending[0]] + rest;
        TracksSubset(c, s.operations, s.pending, rest, s.nextSequence);
      }
    }
  }

  /** The in-flight note still has its slot, now holding the operation's current snapshot. */
  lemma SlotKept(c: Config, s: Service)
    requires Queue(c, s) && s.inFlight.Some? && s.inFlight.value.OperationUpdated?
    ensures var note := s.inFlight.value;
            var i := Find(s.pending, KeyOf(note));
            && note.id in s.operations
            && i < |s.pending|
            && s.pending[i] == OperationUpdated(note.id, s.operations[note.id].snapshot)
  {
    hide Logged, Increasing, SubscriptionsKnown;
    var id := s.inFlight.value.id;
    FindMember(s.pending, OperationUpdated(id, s.operations[id].snapshot));
  }

  lemma RetryTracks(c: Config, operations: map<string, Operation>, pending: seq<Note>, next: nat, i: nat)
    requires Distinct(pending) && Tracks(c, operations, pending, next) && i < |pending|
    ensures Distinct(Without(pending, i) + [pending[i]])
    ensures Tracks(c, operations, Without(pending, i) + [pending[i]], next)
    ensures forall note :: note in Without(pending, i) + [pending[i]] <==> note in pending
  {
    hide Without;
    WithoutFacts(pending, i);
    AppendFacts(Without(pending, i), pending[i]);
    forall note | note in pending ensures note in Without(pending, i) + [pending[i]] {
      if KeyOf(note) == KeyOf(pending[i]) {
        FindMember(pending, note);
        FindMember(pending, pending[i]);
      }
    }
    TracksSubset(c, operations, pending, Without(pending, i) + [pending[i]], next);
  }

  lemma LandedLog(c: Config, s: Service)
    requires Logged(c, s.operations, s.inFlight, s.log, s.nextSequence)
    ensures Logged(c, s.operations, None, s.log, s.nextSequence)
  {}

  lemma StampedHere(c: Config, s: Service, id: string)
    requires Tracks(c, s.operations, s.pending, s.nextSequence) && id in s.operations
    ensures Stamped(s.operations[id], s.nextSequence)
  {}

  lemma FailedDeliveryKeepsQueue(c: Config, s: Service)
    requires Queue(c, s)
    ensures Queue(c, DrainSettle(s, false)) && DrainSettle(s, false).fault == s.fault
  {
    hide Tracks, Increasing, Distinct, Without, Find, Logged, Delivered;
    LandedLog(c, s);
    if s.inFlight.Some? && s.inFlight.value.OperationUpdated? {
      SlotKept(c, s);
      var i := Find(s.pending, KeyOf(s.inFlight.value));
      RetryTracks(c, s.operations, s.pending, s.nextSequence, i);
    }
  }

  lemma AcknowledgedIncreasing(c: Config, operations: map<string, Operation>, note: Note, log: seq<Delivery>, next: nat)
    requires Logged(c, operations, Some(note), log, next) && Increasing(log) && note.OperationUpdated?
    ensures Increasing(log + [Delivery(note.id, note.snapshot.sequence)])
  {
    assert forall i | 0 <= i < |log| :: log[i] in log;
  }

  lemma AcknowledgedLog(c: Config, operations: map<string, Operation>, note: Note, log: seq<Delivery>, next: nat)
    requires Logged(c, operations, Some(note), log, next) && note.OperationUpdated?
    requires note.id in operations && Stamped(operations[note.id], next) && !operations[note.id].snapshot.status.Queued?
    requires operations[note.id].delivered < note.snapshot.sequence <= operations[note.id].snapshot.sequence
    ensures Logged(c, operations[note.id := operations[note.id].(delivered := note.snapshot.sequence)], None,
                   log + [Delivery(note.id, note.snapshot.sequence)], next)
  {
    var entry := Delivery(note.id, note.snapshot.sequence);
    var logged := log + [entry];
    var settled := operations[note.id := operations[note.id].(delivered := note.snapshot.sequence)];
    assert logged[|log|] == entry;
    forall id | id in settled && settled[id].delivered > 0 && c.handler
      ensures Delivery(id, settled[id].delivered) in logged
    {
      if id != note.id { assert Delivery(id, operations[id].delivered) in log; }
    }
    forall other | other in logged && other.id in settled
      ensures && other.sequence < next
              && other.sequence <= settled[other.id].snapshot.sequence
              && (Owed(settled[other.id]) ==> other.sequence < settled[other.id].snapshot.sequence)
    {
      assert other in log || other == entry;
    }
  }

  lemma AcknowledgedTracks(c: Config, operations: map<string, Operation>, pending: seq<Note>, next: nat, id: string,
                           sequence: nat)
    requires Tracks(c, operations, pending, next) && id in operations
    requires operations[id].delivered < sequence < operations[id].snapshot.sequence
    requires !operations[id].snapshot.status.Queued?
    ensures Tracks(c, operations[id := operations[id].(delivered := sequence)], pending, next)
  {}

  lemma SettledTracks(c: Config, operations: map<string, Operation>, pending: seq<Note>, next: nat, id: string, i: nat)
    requires Distinct(pending) && Tracks(c, operations, pending, next) && id in operations && i < |pending|
    requires !operations[id].snapshot.status.Queued?
    requires pending[i] == OperationUpdated(id, operations[id].snapshot)
    ensures Distinct(Without(pending, i))
    ensures Tracks(c, operations[id := operations[id].(delivered := operations[id].snapshot.sequence)],
                   Without(pending, i), next)
    ensures forall note | note in Without(pending, i) :: note in pending
  {
    WithoutFacts(pending, i);
    hide Without, Distinct;
    assert pending[i] in pending;
  }

  lemma SuccessfulDeliveryKeepsQueue(c: Config, s: Service)
    requires Queue(c, s)
    ensures Queue(c, DrainSettle(s, true)) && DrainSettle(s, true).fault == s.fault
  {
    hide Tracks, Logged, Increasing, Distinct, Without, Find, Stamped;
    LandedLog(c, s);
    if s.inFlight.Some? && s.inFlight.value.OperationUpdated? {
      var note := s.inFlight.value;
      var id := note.id;
      SlotKept(c, s);
      var i := Find(s.pending, KeyOf(note));
      StampedHere(c, s, id);
      AcknowledgedIncreasing(c, s.operations, note, s.log, s.nextSequence);
      AcknowledgedLog(c, s.operations, note, s.log, s.nextSequence);
      if note.snapshot.sequence == s.operations[id].snapshot.sequence {
        SettledTracks(c, s.operations, s.pending, s.nextSequence, id, i);
      } else {
        AcknowledgedTracks(c, s.operations, s.pending, s.nextSequence, id, note.snapshot.sequence);
      }
    }
  }
}
