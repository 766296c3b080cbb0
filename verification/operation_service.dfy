/**
 The operation service as the object it is: records updated in place under one
 mutex.  Each method is one critical section; it is proved to be the step of the same
 name in `OperationState`, and to keep the invariant of `OperationHistory`.
 */
module OperationService {
  import opened Wrappers
  import opened OperationState
  import H = OperationHistory
  import Shutdown = OperationShutdown

  class Service {
    const config: Config
    var sessions: map<string, Session>
    var operations: map<string, Operation>
    var pending: seq<Note>
    var delivering: bool
    var nextSequence: nat
    var nextAdmission: nat
    var stats: Stats
    var phase: Phase
    var fault: Fault
    ghost var inFlight: Option<Note>       // held by the draining thread
    ghost var pins: map<nat, Pin>          // the callers blocked inside the service
    ghost var log: seq<Delivery>           // what the handler accepted

    ghost function View(): OperationState.Service
      reads this
    {
      OperationState.Service(sessions, operations, pending, delivering, inFlight, nextSequence, nextAdmission, stats,
                             phase, pins, log, fault)
    }

    ghost predicate Valid()
      reads this
    {
      H.Inv(config, View())
    }

    constructor (config: Config)
      requires ValidConfig(config)
      ensures this.config == config && View() == INITIAL && Valid()
    {
      hide H.Inv;
      this.config := config;
      sessions, operations, pending, delivering := map[], map[], [], false;
      nextSequence, nextAdmission, stats, phase, fault := 1, 1, Stats(0, 0, 0, 0, 0, 0), Serving, NoFault;
      inFlight, pins, log := None, map[], [];
      new;
      H.InitialInv(config);
    }

    // ----- private sections -----

    method FindPending(key: Key) returns (i: nat)
      ensures i == Find(pending, key)
    {
      i := 0;
      while i < |pending| && KeyOf(pending[i]) != key
        invariant i <= |pending|
        invariant forall j | 0 <= j < i :: KeyOf(pending[j]) != key
      {
        i := i + 1;
      }
    }

    method Enqueue(note: Note)
      modifies this`pending, this`fault
      ensures View() == Push(config, old(View()), note)
    {
      var i := FindPending(KeyOf(note));
      if i == |pending| && |pending| == config.maxPending {
        fault := QueueOverflow;
      } else if i == |pending| {
        pending := pending + [note];
      } else if note.SubscriptionUpdated? || pending[i].SubscriptionUpdated? {
        pending := pending[i := note];
      } else if note.snapshot.sequence > pending[i].snapshot.sequence {
        pending := pending[..i] + pending[i + 1..] + [note];
      }
    }

    method NotifyOperation(id: string, snapshot: Snapshot)
      modifies this`pending, this`fault, this`operations
      ensures View() == QueueOperation(config, old(View()), id, snapshot)
    {
      if id !in operations || operations[id].snapshot.session != snapshot.session ||
         snapshot.sequence <= operations[id].delivered {
        return;
      }
      if !config.handler {
        operations := operations[id := operations[id].(delivered := snapshot.sequence)];
        return;
      }
      Enqueue(OperationUpdated(id, snapshot));
    }

    method Renumber(id: string, operation: Operation)
      modifies this`pending, this`fault, this`operations, this`nextSequence
      ensures View() == Advance(config, old(View()), id, operation)
    {
      if nextSequence == MAX_SEQUENCE {
        operations := operations[id := operation];
        fault := SequenceExhausted;
      } else {
        var snapshot := operation.snapshot.(sequence := nextSequence);
        nextSequence := nextSequence + 1;
        operations := operations[id := operation.(snapshot := snapshot)];
        NotifyOperation(id, snapshot);
      }
    }

    method Conclude(id: string, ended: Operation)
      requires fault.NoFault?
      modifies this`pending, this`fault, this`operations, this`nextSequence, this`sessions, this`stats
      ensures View() == CompleteOperation(config, old(View()), id, ended)
    {
      hide QueueOperation, Counted, Retire;
      stats := Counted(stats, ended.snapshot.status);
      if nextSequence == MAX_SEQUENCE {
        operations := operations[id := ended];
        fault := SequenceExhausted;
        return;
      }
      var snapshot := ended.snapshot.(sequence := nextSequence);
      nextSequence := nextSequence + 1;
      operations := operations[id := ended.(snapshot := snapshot)];
      RetireFrom(snapshot.session);
      if fault.NoFault? { NotifyOperation(id, snapshot); }
    }

    /** The counts of the session and of the service go down together. */
    method RetireFrom(session: string)
      modifies this`fault, this`sessions, this`stats
      ensures View() == Retire(old(View()), session)
    {
      if session !in sessions {
        fault := UnknownSession;
        return;
      }
      var found := sessions[session];
      if found.active == 0 || stats.active == 0 {
        fault := AccountingUnderflow;
        return;
      }
      sessions := sessions[session := found.(active := found.active - 1)];
      stats := stats.(active := stats.active - 1);
    }

    /** The eviction loop: the evictable record that was admitted first. */
    method OldestEvictable() returns (victim: Option<string>)
      ensures victim.Some? ==> IsOldestEvictable(operations, victim.value)
      ensures victim.None? ==> forall id | id in operations :: !Evictable(operations[id])
    {
      victim := None;
      var rest := operations.Keys;
      while rest != {}
        invariant rest <= operations.Keys
        invariant victim.Some? ==> victim.value in operations && Evictable(operations[victim.value])
        invariant forall id | id in operations && id !in rest && Evictable(operations[id]) ::
                    victim.Some? && operations[victim.value].admission <= operations[id].admission
        decreases rest
      {
        var id :| id in rest;
        rest := rest - {id};
        if Evictable(operations[id]) &&
           (victim.None? || operations[id].admission < operations[victim.value].admission) {
          victim := Some(id);
        }
      }
    }

    /** Lets go of finished workers and, when full, of the oldest evictable record. */
    method MakeRoom() returns (room: bool, ghost victim: string)
      modifies this`operations, this`stats
      ensures room <==> (|old(operations)| == config.maxRetained ==>
                           IsOldestEvictable(CollectFinished(old(View())).operations, victim))
      ensures View() == if room && |old(operations)| == config.maxRetained
                        then Evict(CollectFinished(old(View())), victim) else CollectFinished(old(View()))
      ensures forall id | id in operations :: id in old(operations)
      ensures sessions == old(sessions) && phase == old(phase)
      ensures nextSequence == old(nextSequence) && nextAdmission == old(nextAdmission)
    {
      victim := "";
      var full := |operations| == config.maxRetained;
      operations := map id | id in operations :: ReleaseFinished(operations[id]);
      room := !full;
      if full {
        var oldest := OldestEvictable();
        if oldest.Some? {
          room, victim := true, oldest.value;
          operations := operations - {oldest.value};
          stats := stats.(evicted := stats.evicted + 1);
        }
      }
    }

    method Insert(session: string, id: string, total: nat)
      requires session in sessions
      modifies this`operations, this`sessions, this`stats, this`nextSequence, this`nextAdmission
      ensures View() == Admit(old(View()), session, id, total)
    {
      var snapshot := Snapshot(session, Queued, 0, total, false, None, None, nextSequence);
      operations := operations[id := Operation(snapshot, nextAdmission, 0, 0, Spawned, Held)];
      sessions := sessions[session := sessions[session].(active := sessions[session].active + 1)];
      stats := stats.(active := stats.active + 1, submitted := stats.submitted + 1);
      nextSequence, nextAdmission := nextSequence + 1, nextAdmission + 1;
    }

    method CancelEach(ids: seq<string>)
      modifies this`pending, this`fault, this`operations, this`nextSequence
      ensures View() == CancelAll(config, old(View()), ids)
    {
      var i := 0;
      while i < |ids| && fault.NoFault?
        invariant i <= |ids|
        invariant CancelAll(config, View(), ids[i..]) == CancelAll(config, old(View()), ids)
        invariant unchanged(this`sessions) && unchanged(this`delivering) && unchanged(this`nextAdmission)
        invariant unchanged(this`stats) && unchanged(this`phase)
        invariant unchanged(this`inFlight) && unchanged(this`pins) && unchanged(this`log)
      {
        var id := ids[i];
        ghost var before := View();
        if id in operations && !Terminal(operations[id].snapshot.status) &&
           !operations[id].snapshot.cancelRequested {
          Renumber(id, RequestCancel(operations[id]));
        }
        assert View() == CancelOne(config, before, id);
        assert ids[i..][1..] == ids[i + 1..];
        i := i + 1;
      }
    }

    // ----- public operations -----

    method RegisterSession(session: string) returns (registered: bool)
      requires Valid()
      modifies this
      ensures Valid() && View() == Register(config, old(View()), session)
    {
      hide H.Inv;
      H.RegisterKeepsInv(config, View(), session);
      registered := phase.Serving? && session !in sessions && |sessions| < config.maxSessions;
      if registered {
        sessions := sessions[session := Session(0, 0, false, map[])];
      }
    }

    /** `id` is a fresh identifier; `victim` is whatever the eviction loop chose. */
    method SubmitOperation(session: string, id: string, total: nat, spawned: bool)
      returns (admitted: bool, ghost victim: string)
      requires Valid() && id !in operations
      modifies this
      ensures Valid() && View() == Submit(config, old(View()), session, id, total, victim, spawned)
      ensures admitted <==> id in operations
    {
      hide H.Inv, IsOldestEvictable, CollectFinished, Evict;
      admitted, victim := false, "";
      ghost var before := View();
      if !phase.Serving? || session !in sessions || sessions[session].closing ||
         sessions[session].active >= config.maxTasks || nextAdmission == MAX_SEQUENCE || total == 0 {
        return;
      }
      var room;
      room, victim := MakeRoom();
      H.SubmitKeepsInv(config, before, session, id, total, victim, spawned);
      if !room || nextSequence == MAX_SEQUENCE {
        return;
      }
      if spawned {
        Insert(session, id, total);
        admitted := true;
      } else {
        nextSequence, nextAdmission := nextSequence + 1, nextAdmission + 1;
      }
    }

    method StartOperation(id: string, stopped: bool)
      requires Valid()
      modifies this
      ensures View() == Start(config, old(View()), id, stopped)
      ensures H.Good(config, View())
    {
      hide H.Inv, CompleteOperation, Advance;
      H.StartKeepsInv(config, View(), id, stopped);
      H.FaultFree(config, View());
      if id !in operations || !operations[id].worker.Spawned? {
        return;
      }
      var operation := operations[id];
      if operation.snapshot.cancelRequested || stopped {
        Conclude(id, operation.(
          snapshot := operation.snapshot.(status := Cancelled, cancelRequested := true, result := None,
                                          error := Some("operation cancelled before start")),
          worker := Finished));
      } else {
        Renumber(id, operation.(snapshot := operation.snapshot.(status := Running), worker := Executing));
      }
    }

    method ReportProgress(id: string, completed: nat)
      requires Valid()
      modifies this
      ensures View() == Progress(config, old(View()), id, completed) && H.Good(config, View())
    {
      hide H.Inv, Advance;
      H.ProgressKeepsInv(config, View(), id, completed);
      if id in operations && operations[id].worker.Executing? && !Terminal(operations[id].snapshot.status) &&
         operations[id].snapshot.completed < completed <= operations[id].snapshot.total {
        Renumber(id, operations[id].(snapshot := operations[id].snapshot.(completed := completed)));
      }
    }

    method FinishOperation(id: string, outcome: Outcome)
      requires Valid()
      modifies this
      ensures View() == Finish(config, old(View()), id, outcome) && H.Good(config, View())
    {
      hide H.Inv, CompleteOperation;
      H.FinishKeepsInv(config, View(), id, outcome);
      H.FaultFree(config, View());
      if id in operations && operations[id].worker.Executing? {
        Conclude(id, operations[id].(snapshot := Concluded(operations[id].snapshot, outcome), worker := Finished));
      }
    }

    method WorkerExited(id: string)
      requires Valid()
      modifies this
      ensures View() == Exit(old(View()), id) && Valid()
    {
      hide H.Inv;
      H.ExitKeepsInv(config, View(), id);
      if id in operations && operations[id].worker.Finished? {
        operations := operations[id := operations[id].(worker := Exited)];
      }
    }

    method CancelOperation(session: string, id: string) returns (accepted: bool)
      requires Valid()
      modifies this
      ensures View() == Cancel(config, old(View()), session, id) && H.Good(config, View())
      ensures accepted ==> id in old(operations) && !Terminal(old(operations)[id].snapshot.status)
    {
      hide H.Inv, Advance;
      H.CancelOneKeepsInv(config, View(), id);
      accepted := session in sessions && id in operations && operations[id].snapshot.session == session &&
      !Terminal(operations[id].snapshot.status) && !operations[id].snapshot.cancelRequested;
      if accepted {
        Renumber(id, RequestCancel(operations[id]));
      }
    }

    /** RemoveSession up to its wait; `ids` lists the session's operations in map order. */
    method BeginRemoval(session: string, ids: seq<string>)
      requires Valid() && Lists(ids, OperationsOf(operations, session))
      modifies this
      ensures View() == RemoveBegin(config, old(View()), session, ids) && H.Good(config, View())
    {
      hide H.Inv, CancelAll, Deactivated, Lists, OperationsOf;
      H.RemoveBeginKeepsInv(config, View(), session, ids);
      if session in sessions {
        sessions := sessions[session := sessions[session].(closing := true)];
        CancelEach(ids);
        if fault.NoFault? && session in sessions {
          sessions := sessions[session := Deactivated(sessions[session])];
        }
      }
    }

    /** RemoveSession after its wait, if nothing of the session is active or waiting. */
    method FinishRemoval(session: string) returns (removed: bool)
      requires Valid()
      modifies this
      ensures View() == RemoveFinish(old(View()), session) && Valid()
      ensures removed ==> session !in sessions
    {
      hide H.Inv, EraseSubscriptions;
      H.RemoveFinishKeepsInv(config, View(), session);
      removed := session in sessions && sessions[session].closing && sessions[session].active == 0 &&
      sessions[session].waiters == 0;
      if removed {
        operations := map id | id in operations :: ReleaseOf(session, operations[id]);
        EraseNotesOf(session);
        sessions := sessions - {session};
      }
    }

    method EraseNotesOf(session: string)
      modifies this`pending
      ensures pending == EraseSubscriptions(old(pending), session)
    {
      var kept: seq<Note> := [];
      var i := 0;
      while i < |pending|
        invariant i <= |pending|
        invariant EraseSubscriptions(pending, session) == kept + EraseSubscriptions(pending[i..], session)
      {
        assert pending[i..][1..] == pending[i + 1..];
        if !(pending[i].SubscriptionUpdated? && pending[i].session == session) {
          kept := kept + [pending[i]];
        }
        i := i + 1;
      }
      pending := kept;
    }

    /** Entry of ExecuteSessionRequest; the matching exit is `LeaveWait`. */
    method EnterRequest(ghost pin: nat, session: string)
      requires Valid() && pin !in pins
      modifies this
      ensures View() == Enter(old(View()), pin, session) && Valid()
    {
      hide H.Inv;
      H.EnterKeepsInv(config, View(), pin, session);
      if phase.Serving? && session in sessions && !sessions[session].closing {
        sessions := sessions[session := sessions[session].(waiters := sessions[session].waiters + 1)];
        pins := pins[pin := RequestPin(session)];
      }
    }

    /** Entry of WaitForOperation. */
    method EnterWait(ghost pin: nat, session: string, id: string)
      requires Valid() && pin !in pins
      modifies this
      ensures View() == Wait(old(View()), pin, session, id) && Valid()
    {
      hide H.Inv;
      H.WaitKeepsInv(config, View(), pin, session, id);
      if session in sessions && id in operations && operations[id].snapshot.session == session {
        sessions := sessions[session := sessions[session].(waiters := sessions[session].waiters + 1)];
        operations := operations[id := operations[id].(waiters := operations[id].waiters + 1)];
        pins := pins[pin := OperationPin(session, id)];
      }
    }

    /** A blocked caller returns.  Its records are there: no exception, no dangling reference. */
    method LeaveWait(ghost pin: nat, held: Pin)
      requires Valid() && pin in pins && pins[pin] == held
      modifies this
      ensures View() == Leave(old(View()), pin) && Valid()
      ensures !old(phase).Complete? && phase.Complete? <==>
                held.RequestPin? && old(phase) == Stopping(RequestOwner, true) && old(pins).Keys == {pin}
    {
      hide H.Inv, Drained, Unparked;
      H.LeaveKeepsInv(config, View(), pin);
      H.UnparkedKeepsInv(config, View(), pin);
      H.UnparkedPhase(View(), pin);
      if phase == Stopping(RequestOwner, true) { Shutdown.LeaveCompletes(config, View(), pin); }
      Release(pin, held);
      var drained := AllDrained();
      if held.RequestPin? && phase == Stopping(RequestOwner, true) && drained {
        sessions, phase := map[], Complete;
      }
    }

    /** The counters of a held pin go down. */
    method Release(ghost pin: nat, held: Pin)
      requires pin in pins && pins[pin] == held && PinHolds(View(), held)
      modifies this`sessions, this`operations, this`pins
      ensures View() == Unparked(old(View()), pin)
    {
      var session := held.session;
      var found := sessions[session].(waiters := sessions[session].waiters - 1);
      match held {
        case RequestPin(_) =>
        case OperationPin(_, id) =>
          operations := operations[id := operations[id].(waiters := operations[id].waiters - 1)];
        case SubscriptionPin(_, id) =>
          var subscription := found.subscriptions[id];
          found := found.(
            subscriptions := found.subscriptions[id := subscription.(waiters := subscription.waiters - 1)]);
      }
      sessions, pins := sessions[session := found], pins - {pin};
    }

    method AllDrained() returns (drained: bool)
      ensures drained <==> Drained(View())
    {
      var rest := sessions.Keys;
      while rest != {}
        invariant rest <= sessions.Keys
        invariant forall session | session in sessions && session !in rest :: sessions[session].waiters == 0
        decreases rest
      {
        var session :| session in rest;
        if sessions[session].waiters != 0 {
          return false;
        }
        rest := rest - {session};
      }
      return true;
    }

    method PublishItem(session: string, id: string, item: nat)
      requires Valid()
      modifies this
      ensures View() == Publish(config, old(View()), session, id, item) && Valid()
    {
      hide H.Inv, Push;
      H.PublishKeepsInv(config, View(), session, id, item);
      if phase.Serving? && session in sessions && id in sessions[session].subscriptions &&
         sessions[session].subscriptions[id].active && config.handler {
        Enqueue(SubscriptionUpdated(session, id, item));
      }
    }

    /** The retirement loop: the inactive, unwatched subscription that was created first. */
    method OldestRetirable(subscriptions: map<string, Subscription>) returns (victim: Option<string>)
      ensures victim.Some? ==> IsOldestRetirable(subscriptions, victim.value)
      ensures victim.None? ==> forall id | id in subscriptions :: !Retirable(subscriptions[id])
    {
      victim := None;
      var rest := subscriptions.Keys;
      while rest != {}
        invariant rest <= subscriptions.Keys
        invariant victim.Some? ==> victim.value in subscriptions && Retirable(subscriptions[victim.value])
        invariant forall id | id in subscriptions && id !in rest && Retirable(subscriptions[id]) ::
                    victim.Some? && subscriptions[victim.value].admission <= subscriptions[id].admission
        decreases rest
      {
        var id :| id in rest;
        rest := rest - {id};
        if Retirable(subscriptions[id]) &&
           (victim.None? || subscriptions[id].admission < subscriptions[victim.value].admission) {
          victim := Some(id);
        }
      }
    }

    method EraseNote(key: Key)
      modifies this`pending
      ensures pending == EraseKey(old(pending), key)
    {
      hide EraseKey, KeyOf;
      var notes, kept: seq<Note>, i := pending, [], 0;
      assert notes[0..] == notes && [] + EraseKey(notes, key) == EraseKey(notes, key);
      while i < |notes|
        invariant i <= |notes|
        invariant EraseKey(notes, key) == kept + EraseKey(notes[i..], key)
      {
        EraseNext(notes, i, key);
        ghost var rest := EraseKey(notes[i + 1..], key);
        assert kept + ([notes[i]] + rest) == kept + [notes[i]] + rest && kept + ([] + rest) == kept + rest;
        if KeyOf(notes[i]) != key {
          kept := kept + [notes[i]];
        }
        i := i + 1;
      }
      NothingToErase(key);
      assert notes[|notes|..] == [] && kept + [] == kept;
      pending := kept;
    }

    static lemma EraseNext(notes: seq<Note>, i: nat, key: Key)
      requires i < |notes|
      ensures EraseKey(notes[i..], key)
           == (if KeyOf(notes[i]) != key then [notes[i]] else []) + EraseKey(notes[i + 1..], key)
    {
      assert notes[i..][1..] == notes[i + 1..];
    }

    static lemma NothingToErase(key: Key)
      ensures EraseKey([], key) == []
    {}

    /** CreateSubscription under an unused identifier. */
    method CreateSubscription(session: string, id: string) returns (created: bool, ghost victim: string)
      requires Valid() && (session in sessions ==> id !in sessions[session].subscriptions)
      modifies this
      ensures View() == Subscribe(config, old(View()), session, id, victim) && Valid()
      ensures created <==> View() != old(View())
      ensures created <==>
                && old(phase).Serving? && session in old(sessions) && !old(sessions)[session].closing
                && old(nextAdmission) != MAX_SEQUENCE
                && (|old(sessions)[session].subscriptions| == config.maxSubscriptions ==>
                      exists other | other in old(sessions)[session].subscriptions ::
                        Retirable(old(sessions)[session].subscriptions[other]))
    {
      hide H.Inv, EraseKey;
      created, victim := false, "";
      if !phase.Serving? || session !in sessions || sessions[session].closing || nextAdmission == MAX_SEQUENCE {
        return;
      }
      var found := sessions[session];
      var kept := found.subscriptions;
      if |kept| == config.maxSubscriptions {
        var oldest := OldestRetirable(kept);
        if oldest.None? { return; }
        victim := oldest.value;
        EraseNote(SubscriptionKey(session, oldest.value));
        kept := kept - {oldest.value};
      }
      H.SubscribeKeepsInv(config, old(View()), session, id, victim);
      sessions := sessions[session := found.(subscriptions := kept[id := Subscription(true, 0, nextAdmission)])];
      created, nextAdmission := true, nextAdmission + 1;
    }

    /** Entry of PollSubscription. */
    method EnterPoll(ghost pin: nat, session: string, id: string)
      requires Valid() && pin !in pins
      modifies this
      ensures View() == Poll(old(View()), pin, session, id) && Valid()
    {
      hide H.Inv;
      H.PollKeepsInv(config, View(), pin, session, id);
      if session in sessions && id in sessions[session].subscriptions {
        var found := sessions[session];
        var subscription := found.subscriptions[id];
        sessions := sessions[session := found.(
          waiters := found.waiters + 1,
          subscriptions := found.subscriptions[id := subscription.(waiters := subscription.waiters + 1)])];
        pins := pins[pin := SubscriptionPin(session, id)];
      }
    }

    method CancelSubscription(session: string, id: string)
      requires Valid()
      modifies this
      ensures View() == Unsubscribe(old(View()), session, id) && Valid()
    {
      hide H.Inv;
      H.UnsubscribeKeepsInv(config, View(), session, id);
      if session in sessions && id in sessions[session].subscriptions {
        var found := sessions[session];
        sessions := sessions[session := found.(
          subscriptions := found.subscriptions[id := found.subscriptions[id].(active := false)])];
      }
    }

    // ----- draining -----

    method BeginDrain() returns (mine: bool)
      requires Valid()
      modifies this
      ensures View() == DrainBegin(config, old(View())) && Valid()
    {
      hide H.Inv;
      H.DrainBeginKeepsInv(config, View());
      mine := config.handler && !delivering && pending != [];
      if mine {
        delivering := true;
      }
    }

    /** The next note for the handler, or none when the queue has run dry. */
    method TakeNotification() returns (note: Option<Note>)
      requires Valid() && delivering && inFlight.None?
      modifies this
      ensures View() == DrainTake(old(View())) && Valid() && note == inFlight
    {
      hide H.Inv;
      H.DrainTakeKeepsInv(config, View());
      if pending == [] {
        delivering, note := false, None;
      } else {
        note := Some(pending[0]);
        if pending[0].SubscriptionUpdated? {
          pending := pending[1..];
        }
      }
      inFlight := note;
    }

    method SettleNotification(note: Note, ok: bool)
      requires Valid() && inFlight == Some(note)
      modifies this
      ensures View() == DrainSettle(old(View()), ok) && Valid()
    {
      hide H.Inv, Delivered, Find, KeyOf;
      H.DrainSettleKeepsInv(config, View(), ok);
      inFlight := None;
      if note.SubscriptionUpdated? {
        return;
      }
      var i := FindPending(KeyOf(note));
      if i == |pending| {
        fault, delivering := SlotLost, false;
      } else if !ok {
        pending, delivering := pending[..i] + pending[i + 1..] + [pending[i]], false;
      } else {
        Settle(note, i);
      }
    }

    method Settle(note: Note, i: nat)
      requires i < |pending| && note.OperationUpdated?
      modifies this`operations, this`log, this`pending
      ensures View() == Delivered(old(View()), note, i)
    {
      hide Acknowledge;
      RecordDelivery(note.id, note.snapshot);
      if pending[i].OperationUpdated? && pending[i].snapshot.sequence <= note.snapshot.sequence {
        pending := pending[..i] + pending[i + 1..];
      }
    }

    method RecordDelivery(id: string, snapshot: Snapshot)
      modifies this`operations, this`log
      ensures View() == Acknowledge(old(View()), id, snapshot).(log := old(log) + [Delivery(id, snapshot.sequence)])
    {
      if id in operations && operations[id].snapshot.session == snapshot.session {
        operations := operations[id := operations[id].(delivered := Max(operations[id].delivered, snapshot.sequence))];
      }
      log := log + [Delivery(id, snapshot.sequence)];
    }

    // ----- shutdown -----

    method BeginShutdown(owner: Owner, ids: seq<string>)
      requires Valid() && Lists(ids, operations.Keys)
      modifies this
      ensures View() == ShutdownBegin(config, old(View()), owner, ids) && H.Good(config, View())
    {
      hide H.Inv, CancelAll, Deactivated, Lists, JoinUnlessOwner;
      H.ShutdownBeginKeepsInv(config, View(), owner, ids);
      if phase.Serving? {
        phase := Stopping(owner, false);
        CancelEach(ids);
        if fault.NoFault? {
          operations := map id | id in operations :: JoinUnlessOwner(owner, id, operations[id]);
          sessions := map session | session in sessions :: Deactivated(sessions[session]);
        }
      }
    }

    /** Joining the collected workers returned: each of them has ended. */
    method WorkersJoined()
      requires Valid()
      requires forall id | id in operations && operations[id].handle.Joining? :: operations[id].worker.Exited?
      modifies this
      ensures View() == ShutdownJoined(old(View())) && Valid()
      ensures old(phase).Stopping? ==> phase == Stopping(old(phase).owner, true)
    {
      hide H.Inv;
      H.ShutdownJoinedKeepsInv(config, View());
      if phase.Stopping? {
        phase := Stopping(phase.owner, true);
      }
    }

    /** Finalizes the shutdown once the workers are joined and nobody waits any more. */
    method CompleteShutdown() returns (complete: bool)
      requires Valid()
      modifies this
      ensures View() == ShutdownFinalize(old(View())) && Valid()
      ensures complete <==>
                && old(phase).Stopping? && old(phase).joined && Drained(old(View()))
                && (old(phase).owner.WorkerOwner? && old(phase).owner.id in old(operations) ==>
                      old(operations)[old(phase).owner.id].worker.Exited?)
                && !old(phase).owner.RequestOwner?
      ensures if complete then phase.Complete? else View() == old(View())
      ensures complete ==> sessions == map[] && forall id | id in operations :: Terminal(operations[id].snapshot.status)
    {
      hide H.Inv, Drained;
      H.ShutdownFinalizeKeepsInv(config, View());
      H.CompletedMeansEnded(config, ShutdownFinalize(View()));
      var drained := AllDrained();
      complete := phase.Stopping? && phase.joined && drained &&
                  (phase.owner.External? ||
                   (phase.owner.WorkerOwner? &&
                    (phase.owner.id in operations ==> operations[phase.owner.id].worker.Exited?)));
      if complete {
        sessions, phase := map[], Complete;
      }
    }
  }
}
