/**
 The MCP operation service as a value: the records kept under its one mutex, and
 one function per critical section.  Each section is atomic because the mutex is
 held throughout; the notification handler runs outside the mutex, so a drain is
 split into `DrainTake` and `DrainSettle`.
 */
module OperationState {
  import opened Wrappers

  /** The largest uint64: the counters stop here instead of wrapping. */
  const MAX_SEQUENCE: nat := 0xFFFF_FFFF_FFFF_FFFF

  datatype Status = Queued | Running | Cancelling | Cancelled | Succeeded | Failed

  predicate Terminal(status: Status) {
    status.Cancelled? || status.Succeeded? || status.Failed?
  }

  datatype Snapshot = Snapshot(session: string, status: Status, completed: nat, total: nat, cancelRequested: bool,
                               result: Option<string>, error: Option<string>, sequence: nat)

  /** How far the worker thread of an operation has come. */
  datatype Worker = Spawned | Executing | Finished | Exited

  /** Who owns the thread handle: its record, the shutdown that will join it, or some other joiner. */
  datatype Handle = Held | Joining | Released

  datatype Operation = Operation(snapshot: Snapshot, admission: nat, delivered: nat, waiters: nat,
                                 worker: Worker, handle: Handle)

  datatype Subscription = Subscription(active: bool, waiters: nat, admission: nat)

  datatype Session = Session(active: nat, waiters: nat, closing: bool, subscriptions: map<string, Subscription>)

  datatype Note =
    | OperationUpdated(id: string, snapshot: Snapshot)
    | SubscriptionUpdated(session: string, id: string, item: nat)

  datatype Key = OperationKey(session: string, id: string) | SubscriptionKey(session: string, id: string)

  function KeyOf(note: Note): Key {
    match note
    case OperationUpdated(id, snapshot) => OperationKey(snapshot.session, id)
    case SubscriptionUpdated(session, id, _) => SubscriptionKey(session, id)
  }

  /** A caller blocked inside the service; it keeps its session and its target alive. */
  datatype Pin =
    | RequestPin(session: string)
    | OperationPin(session: string, id: string)
    | SubscriptionPin(session: string, id: string)

  datatype Owner = External | WorkerOwner(id: string) | RequestOwner

  datatype Phase = Serving | Stopping(owner: Owner, joined: bool) | Complete

  /** The logic errors the code can throw out of a critical section. */
  datatype Fault = NoFault | SequenceExhausted | QueueOverflow | SlotLost | UnknownSession | AccountingUnderflow
                 | PinLost

  datatype Stats = Stats(active: nat, submitted: nat, succeeded: nat, cancelled: nat, failed: nat, evicted: nat)

  datatype Config = Config(handler: bool, maxSessions: nat, maxTasks: nat, maxSubscriptions: nat, maxRetained: nat,
                           maxPending: nat)

  /** The queue is sized for one note per retained operation and one per possible subscription. */
  predicate ValidConfig(c: Config) {
    c.maxPending == c.maxRetained + c.maxSessions * c.maxSubscriptions
  }

  datatype Delivery = Delivery(id: string, sequence: nat)

  datatype Service = Service(
    sessions: map<string, Session>,
    operations: map<string, Operation>,
    pending: seq<Note>,
    delivering: bool,
    inFlight: Option<Note>,
    nextSequence: nat,
    nextAdmission: nat,
    stats: Stats,
    phase: Phase,
    pins: map<nat, Pin>,
    log: seq<Delivery>,
    fault: Fault)

  const INITIAL: Service :=
    Service(map[], map[], [], false, None, 1, 1, Stats(0, 0, 0, 0, 0, 0), Serving, map[], [], NoFault)

  // ----- the notification queue -----

  /** Index of the first queued note with this key, or the queue length. */
  function Find(pending: seq<Note>, key: Key): (i: nat)
    ensures i <= |pending|
    ensures i < |pending| ==> KeyOf(pending[i]) == key
    ensures forall j | 0 <= j < i :: KeyOf(pending[j]) != key
  {
    if pending == [] then 0
    else if KeyOf(pending[0]) == key then 0
    else 1 + Find(pending[1..], key)
  }

  function Without(pending: seq<Note>, i: nat): seq<Note>
    requires i < |pending|
  {
    pending[..i] + pending[i + 1..]
  }

  function EraseKey(pending: seq<Note>, key: Key): seq<Note> {
    if pending == [] then []
    else if KeyOf(pending[0]) == key then EraseKey(pending[1..], key)
    else [pending[0]] + EraseKey(pending[1..], key)
  }

  /** A newer note for a queued key replaces it, an operation's also moving to the back; else it is appended. */
  function Coalesce(pending: seq<Note>, note: Note): seq<Note> {
    var i := Find(pending, KeyOf(note));
    if i == |pending| then pending + [note]
    else if note.SubscriptionUpdated? || pending[i].SubscriptionUpdated? then pending[i := note]
    else if note.snapshot.sequence <= pending[i].snapshot.sequence then pending
    else Without(pending, i) + [note]
  }

  predicate NoRoom(c: Config, pending: seq<Note>, note: Note) {
    Find(pending, KeyOf(note)) == |pending| == c.maxPending
  }

  function Push(c: Config, s: Service, note: Note): Service {
    if NoRoom(c, s.pending, note) then s.(fault := QueueOverflow)
    else s.(pending := Coalesce(s.pending, note))
  }

  function QueueOperation(c: Config, s: Service, id: string, snapshot: Snapshot): Service {
    if id !in s.operations || s.operations[id].snapshot.session != snapshot.session ||
       snapshot.sequence <= s.operations[id].delivered then s
    else if !c.handler then
      s.(operations := s.operations[id := s.operations[id].(delivered := snapshot.sequence)])
    else Push(c, s, OperationUpdated(id, snapshot))
  }

  // ----- changing one operation -----

  function Store(s: Service, id: string, operation: Operation): Service {
    s.(operations := s.operations[id := operation])
  }

  /** Stores a changed record under a fresh sequence number and queues its notification. */
  function Advance(c: Config, s: Service, id: string, operation: Operation): Service {
    if s.nextSequence == MAX_SEQUENCE then Store(s, id, operation).(fault := SequenceExhausted)
    else
      var snapshot := operation.snapshot.(sequence := s.nextSequence);
      QueueOperation(c, Store(s, id, operation.(snapshot := snapshot)).(nextSequence := s.nextSequence + 1),
                     id, snapshot)
  }

  function Counted(stats: Stats, status: Status): Stats {
    match status
    case Succeeded => stats.(succeeded := stats.succeeded + 1)
    case Cancelled => stats.(cancelled := stats.cancelled + 1)
    case _ => stats.(failed := stats.failed + 1)
  }

  /** Takes one operation off its session's and the global active count. */
  function Retire(s: Service, session: string): Service {
    if session !in s.sessions then s.(fault := UnknownSession)
    else if s.sessions[session].active == 0 || s.stats.active == 0 then s.(fault := AccountingUnderflow)
    else
      s.(sessions := s.sessions[session := s.sessions[session].(active := s.sessions[session].active - 1)],
         stats := s.stats.(active := s.stats.active - 1))
  }

  /** CompleteLocked followed by the queueing of the terminal notification. */
  function CompleteOperation(c: Config, s: Service, id: string, operation: Operation): Service {
    var counted := s.(stats := Counted(s.stats, operation.snapshot.status));
    if s.nextSequence == MAX_SEQUENCE then Store(counted, id, operation).(fault := SequenceExhausted)
    else
      var snapshot := operation.snapshot.(sequence := s.nextSequence);
      var stored := Store(counted, id, operation.(snapshot := snapshot)).(nextSequence := s.nextSequence + 1);
      var retired := Retire(stored, snapshot.session);
      if retired.fault.NoFault? then QueueOperation(c, retired, id, snapshot) else retired
  }

  // ----- critical sections -----

  function Register(c: Config, s: Service, session: string): Service {
    if !s.phase.Serving? || session in s.sessions || |s.sessions| >= c.maxSessions then s
    else s.(sessions := s.sessions[session := Session(0, 0, false, map[])])
  }

  predicate Evictable(operation: Operation) {
    && Terminal(operation.snapshot.status)
    && operation.waiters == 0
    && operation.delivered >= operation.snapshot.sequence
  }

  /** The victim the eviction loop settles on: evictable, and admitted no later than any other. */
  predicate IsOldestEvictable(operations: map<string, Operation>, id: string) {
    && id in operations && Evictable(operations[id])
    && forall other | other in operations && Evictable(operations[other]) ::
         operations[id].admission <= operations[other].admission
  }

  function ReleaseFinished(operation: Operation): Operation {
    if Terminal(operation.snapshot.status) && operation.worker.Exited? && operation.handle.Held?
    then operation.(handle := Released) else operation
  }

  function CollectFinished(s: Service): Service {
    s.(operations := map id | id in s.operations :: ReleaseFinished(s.operations[id]))
  }

  function Evict(s: Service, id: string): Service {
    s.(operations := s.operations - {id}, stats := s.stats.(evicted := s.stats.evicted + 1))
  }

  function Admit(s: Service, session: string, id: string, total: nat): Service
    requires session in s.sessions
  {
    var snapshot := Snapshot(session, Queued, 0, total, false, None, None, s.nextSequence);
    s.(operations := s.operations[id := Operation(snapshot, s.nextAdmission, 0, 0, Spawned, Held)],
       sessions := s.sessions[session := s.sessions[session].(active := s.sessions[session].active + 1)],
       stats := s.stats.(active := s.stats.active + 1, submitted := s.stats.submitted + 1),
       nextSequence := s.nextSequence + 1,
       nextAdmission := s.nextAdmission + 1)
  }

  /** `spawned` is false when the worker thread could not be started and the admission is undone. */
  function Submit(c: Config, s: Service, session: string, id: string, total: nat, victim: string, spawned: bool)
    : Service
  {
    if !s.phase.Serving? || session !in s.sessions || s.sessions[session].closing ||
       s.sessions[session].active >= c.maxTasks || s.nextAdmission == MAX_SEQUENCE || total == 0 then s
    else
      var collected := CollectFinished(s);
      if |s.operations| == c.maxRetained && !IsOldestEvictable(collected.operations, victim) then collected
      else
        var room := if |s.operations| == c.maxRetained then Evict(collected, victim) else collected;
        if id in room.operations || room.nextSequence == MAX_SEQUENCE then room
        else if spawned then Admit(room, session, id, total)
        else room.(nextSequence := room.nextSequence + 1, nextAdmission := room.nextAdmission + 1)
  }

  /** First critical section of RunOperation. */
  function Start(c: Config, s: Service, id: string, stopped: bool): Service {
    if id !in s.operations || !s.operations[id].worker.Spawned? then s
    else
      var operation := s.operations[id];
      if operation.snapshot.cancelRequested || stopped then
        CompleteOperation(c, s, id, operation.(
          snapshot := operation.snapshot.(status := Cancelled, cancelRequested := true, result := None,
                                          error := Some("operation cancelled before start")),
          worker := Finished))
      else
        Advance(c, s, id, operation.(snapshot := operation.snapshot.(status := Running), worker := Executing))
  }

  /** Only a running executor holds the context that reports progress. */
  function Progress(c: Config, s: Service, id: string, completed: nat): Service {
    if id !in s.operations || !s.operations[id].worker.Executing? || Terminal(s.operations[id].snapshot.status) ||
       completed <= s.operations[id].snapshot.completed || completed > s.operations[id].snapshot.total then s
    else
      var operation := s.operations[id];
      Advance(c, s, id, operation.(snapshot := operation.snapshot.(completed := completed)))
  }

  datatype Outcome = Returned(result: string) | Stopped(message: string) | Threw(message: string)

  function Concluded(snapshot: Snapshot, outcome: Outcome): Snapshot {
    match outcome
    case Returned(result) =>
      snapshot.(status := Succeeded, completed := snapshot.total, result := Some(result), error := None)
    case Stopped(message) =>
      snapshot.(status := Cancelled, cancelRequested := true, result := None, error := Some(message))
    case Threw(message) =>
      snapshot.(status := Failed, result := None, error := Some(message))
  }

  /** Last critical section of RunOperation. */
  function Finish(c: Config, s: Service, id: string, outcome: Outcome): Service {
    if id !in s.operations || !s.operations[id].worker.Executing? then s
    else
      var operation := s.operations[id];
      CompleteOperation(c, s, id, operation.(snapshot := Concluded(operation.snapshot, outcome), worker := Finished))
  }

  function Exit(s: Service, id: string): Service {
    if id !in s.operations || !s.operations[id].worker.Finished? then s
    else Store(s, id, s.operations[id].(worker := Exited))
  }

  function RequestCancel(operation: Operation): Operation {
    operation.(snapshot := operation.snapshot.(status := Cancelling, cancelRequested := true))
  }

  /** Moves one operation to cancelling unless it is terminal or already asked to stop. */
  function CancelOne(c: Config, s: Service, id: string): Service {
    if id !in s.operations || Terminal(s.operations[id].snapshot.status) ||
       s.operations[id].snapshot.cancelRequested then s
    else Advance(c, s, id, RequestCancel(s.operations[id]))
  }

  /** The cancellation loop over the operation map; an exception leaves it early. */
  function CancelAll(c: Config, s: Service, ids: seq<string>): Service
    decreases |ids|
  {
    if ids == [] || !s.fault.NoFault? then s else CancelAll(c, CancelOne(c, s, ids[0]), ids[1..])
  }

  function Cancel(c: Config, s: Service, session: string, id: string): Service {
    if session !in s.sessions || id !in s.operations || s.operations[id].snapshot.session != session then s
    else CancelOne(c, s, id)
  }

  function Deactivated(session: Session): Session {
    session.(subscriptions := map id | id in session.subscriptions :: session.subscriptions[id].(active := false))
  }

  predicate Lists(ids: seq<string>, keys: set<string>) {
    && (forall id | id in ids :: id in keys)
    && (forall id | id in keys :: id in ids)
  }

  function OperationsOf(operations: map<string, Operation>, session: string): set<string> {
    set id | id in operations && operations[id].snapshot.session == session
  }

  /** First critical section of RemoveSession; `ids` lists the session's operations in map order. */
  function RemoveBegin(c: Config, s: Service, session: string, ids: seq<string>): Service {
    if session !in s.sessions || !Lists(ids, OperationsOf(s.operations, session)) then s
    else
      var closing := s.(sessions := s.sessions[session := s.sessions[session].(closing := true)]);
      var cancelled := CancelAll(c, closing, ids);
      if !cancelled.fault.NoFault? || session !in cancelled.sessions then cancelled
      else cancelled.(sessions := cancelled.sessions[session := Deactivated(cancelled.sessions[session])])
  }

  function EraseSubscriptions(pending: seq<Note>, session: string): seq<Note> {
    if pending == [] then []
    else if pending[0].SubscriptionUpdated? && pending[0].session == session then
      EraseSubscriptions(pending[1..], session)
    else [pending[0]] + EraseSubscriptions(pending[1..], session)
  }

  function ReleaseOf(session: string, operation: Operation): Operation {
    if operation.snapshot.session == session && operation.handle.Held? then operation.(handle := Released)
    else operation
  }

  /** Second critical section of RemoveSession, entered once its wait condition holds. */
  function RemoveFinish(s: Service, session: string): Service {
    if session !in s.sessions || !s.sessions[session].closing || s.sessions[session].active != 0 ||
       s.sessions[session].waiters != 0 then s
    else
      s.(operations := map id | id in s.operations :: ReleaseOf(session, s.operations[id]),
         pending := EraseSubscriptions(s.pending, session),
         sessions := s.sessions - {session})
  }

  // ----- waiting callers -----

  function AddWaiter(s: Service, session: string): Service
    requires session in s.sessions
  {
    s.(sessions := s.sessions[session := s.sessions[session].(waiters := s.sessions[session].waiters + 1)])
  }

  function Enter(s: Service, pin: nat, session: string): Service {
    if !s.phase.Serving? || session !in s.sessions || s.sessions[session].closing || pin in s.pins then s
    else AddWaiter(s, session).(pins := s.pins[pin := RequestPin(session)])
  }

  function Wait(s: Service, pin: nat, session: string, id: string): Service {
    if session !in s.sessions || id !in s.operations || s.operations[id].snapshot.session != session || pin in s.pins
    then s
    else
      Store(AddWaiter(s, session), id, s.operations[id].(waiters := s.operations[id].waiters + 1))
      .(pins := s.pins[pin := OperationPin(session, id)])
  }

  function Poll(s: Service, pin: nat, session: string, id: string): Service {
    if session !in s.sessions || id !in s.sessions[session].subscriptions || pin in s.pins then s
    else
      var found := s.sessions[session];
      var subscription := found.subscriptions[id];
      s.(sessions := s.sessions[session := found.(
           waiters := found.waiters + 1,
           subscriptions := found.subscriptions[id := subscription.(waiters := subscription.waiters + 1)])],
         pins := s.pins[pin := SubscriptionPin(session, id)])
  }

  predicate Drained(s: Service) {
    forall session | session in s.sessions :: s.sessions[session].waiters == 0
  }

  function Finalize(s: Service): Service {
    s.(sessions := map[], phase := Complete)
  }

  function DropWaiter(s: Service, session: string): Service
    requires session in s.sessions && s.sessions[session].waiters > 0
  {
    s.(sessions := s.sessions[session := s.sessions[session].(waiters := s.sessions[session].waiters - 1)])
  }

  /** The pinned records are still there to be released; the code dereferences them. */
  predicate PinHolds(s: Service, pin: Pin) {
    && pin.session in s.sessions && s.sessions[pin.session].waiters > 0
    && match pin
       case RequestPin(_) => true
       case OperationPin(session, id) =>
         id in s.operations && s.operations[id].snapshot.session == session && s.operations[id].waiters > 0
       case SubscriptionPin(session, id) =>
         id in s.sessions[session].subscriptions && s.sessions[session].subscriptions[id].waiters > 0
  }

  /** The records after the counters of a held pin were dropped. */
  function Unparked(s: Service, pin: nat): Service
    requires pin in s.pins && PinHolds(s, s.pins[pin])
  {
    var released := s.(pins := s.pins - {pin});
    match s.pins[pin]
    case RequestPin(session) => DropWaiter(released, session)
    case OperationPin(session, id) =>
      Store(DropWaiter(released, session), id, s.operations[id].(waiters := s.operations[id].waiters - 1))
    case SubscriptionPin(session, id) =>
      var found := s.sessions[session];
      var subscription := found.subscriptions[id];
      released.(sessions := s.sessions[session := found.(
        waiters := found.waiters - 1,
        subscriptions := found.subscriptions[id := subscription.(waiters := subscription.waiters - 1)])])
  }

  /** The last request to leave finalizes a shutdown that a request began. */
  function Leave(s: Service, pin: nat): Service {
    if pin !in s.pins then s
    else if !PinHolds(s, s.pins[pin]) then s.(pins := s.pins - {pin}, fault := PinLost)
    else
      var unparked := Unparked(s, pin);
      if s.pins[pin].RequestPin? && s.phase == Stopping(RequestOwner, true) && Drained(unparked) then Finalize(unparked)
      else unparked
  }

  // ----- subscriptions -----

  predicate Retirable(subscription: Subscription) {
    !subscription.active && subscription.waiters == 0
  }

  /** The victim the retirement loop settles on: inactive, unwatched, and created no later than any other such one. */
  predicate IsOldestRetirable(subscriptions: map<string, Subscription>, id: string) {
    && id in subscriptions && Retirable(subscriptions[id])
    && forall other | other in subscriptions && Retirable(subscriptions[other]) ::
         subscriptions[id].admission <= subscriptions[other].admission
  }

  /** A full session gives up its oldest retirable subscription and the queued notification of it. */
  function Subscribe(c: Config, s: Service, session: string, id: string, victim: string): Service {
    if !s.phase.Serving? || session !in s.sessions || s.sessions[session].closing || s.nextAdmission == MAX_SEQUENCE
    then s
    else
      var found := s.sessions[session];
      var full := |found.subscriptions| == c.maxSubscriptions;
      if full && !IsOldestRetirable(found.subscriptions, victim) then s
      else
        var kept := if full then found.subscriptions - {victim} else found.subscriptions;
        var pending := if full then EraseKey(s.pending, SubscriptionKey(session, victim)) else s.pending;
        if id in kept then s
        else
          s.(sessions := s.sessions[session := found.(
               subscriptions := kept[id := Subscription(true, 0, s.nextAdmission)])],
             pending := pending,
             nextAdmission := s.nextAdmission + 1)
  }

  function Unsubscribe(s: Service, session: string, id: string): Service {
    if session !in s.sessions || id !in s.sessions[session].subscriptions then s
    else
      var found := s.sessions[session];
      s.(sessions := s.sessions[session := found.(
           subscriptions := found.subscriptions[id := found.subscriptions[id].(active := false)])])
  }

  function Publish(c: Config, s: Service, session: string, id: string, item: nat): Service {
    if !s.phase.Serving? || session !in s.sessions || id !in s.sessions[session].subscriptions ||
       !s.sessions[session].subscriptions[id].active || !c.handler then s
    else Push(c, s, SubscriptionUpdated(session, id, item))
  }

  // ----- draining the queue -----

  function DrainBegin(c: Config, s: Service): Service {
    if !c.handler || s.delivering || s.pending == [] then s else s.(delivering := true)
  }

  function DrainTake(s: Service): Service {
    if !s.delivering || s.inFlight.Some? then s
    else if s.pending == [] then s.(delivering := false)
    else if s.pending[0].OperationUpdated? then s.(inFlight := Some(s.pending[0]))
    else s.(inFlight := Some(s.pending[0]), pending := s.pending[1..])
  }

  function Max(a: nat, b: nat): nat {
    if a < b then b else a
  }

  function Acknowledge(s: Service, id: string, snapshot: Snapshot): Service {
    if id in s.operations && s.operations[id].snapshot.session == snapshot.session then
      Store(s, id, s.operations[id].(delivered := Max(s.operations[id].delivered, snapshot.sequence)))
    else s
  }

  /** The handler accepted the note, whose slot is `i`; a newer note of the same operation stays queued. */
  function Delivered(s: Service, note: Note, i: nat): Service
    requires i < |s.pending| && note.OperationUpdated?
  {
    var acknowledged :=
      Acknowledge(s, note.id, note.snapshot).(log := s.log + [Delivery(note.id, note.snapshot.sequence)]);
    if s.pending[i].OperationUpdated? && s.pending[i].snapshot.sequence <= note.snapshot.sequence then
      acknowledged.(pending := Without(s.pending, i))
    else acknowledged
  }

  /** The critical section after the handler returned (`ok`) or threw. */
  function DrainSettle(s: Service, ok: bool): Service {
    if s.inFlight.None? then s
    else if s.inFlight.value.SubscriptionUpdated? then s.(inFlight := None)
    else
      var note := s.inFlight.value;
      var settled := s.(inFlight := None);
      var i := Find(s.pending, KeyOf(note));
      if i == |s.pending| then settled.(fault := SlotLost, delivering := false)
      else if !ok then settled.(pending := Without(s.pending, i) + [s.pending[i]], delivering := false)
      else Delivered(settled, note, i)
  }

  // ----- shutdown -----

  function JoinUnlessOwner(owner: Owner, id: string, operation: Operation): Operation {
    if operation.handle.Held? && owner != WorkerOwner(id) then operation.(handle := Joining) else operation
  }

  /** First critical section of Shutdown; `ids` lists the operations in map order. */
  function ShutdownBegin(c: Config, s: Service, owner: Owner, ids: seq<string>): Service {
    if !s.phase.Serving? || !Lists(ids, s.operations.Keys) then s
    else
      var cancelled := CancelAll(c, s.(phase := Stopping(owner, false)), ids);
      if !cancelled.fault.NoFault? then cancelled
      else
        cancelled.(
          operations := map id | id in cancelled.operations :: JoinUnlessOwner(owner, id, cancelled.operations[id]),
          sessions := map session | session in cancelled.sessions :: Deactivated(cancelled.sessions[session]))
  }

  /** Joining returns only after every collected worker thread has ended. */
  function ShutdownJoined(s: Service): Service {
    if s.phase.Stopping? && forall id | id in s.operations && s.operations[id].handle.Joining? ::
                              s.operations[id].worker.Exited?
    then s.(phase := s.phase.(joined := true)) else s
  }

  /** The shutdown owner finalizes: directly, or from its own worker's exit. */
  function ShutdownFinalize(s: Service): Service {
    if s.phase.Stopping? && s.phase.joined && Drained(s) &&
       match s.phase.owner
       case External => true
       case WorkerOwner(id) => id in s.operations ==> s.operations[id].worker.Exited?
       case RequestOwner => false
    then Finalize(s) else s
  }

  // ----- interleavings -----

  datatype Step =
    | RegisterStep(session: string)
    | RemoveBeginStep(session: string, ids: seq<string>)
    | RemoveFinishStep(session: string)
    | SubmitStep(session: string, id: string, total: nat, victim: string, spawned: bool)
    | StartStep(id: string, stopped: bool)
    | ProgressStep(id: string, completed: nat)
    | FinishStep(id: string, outcome: Outcome)
    | ExitStep(id: string)
    | CancelStep(session: string, id: string)
    | EnterStep(pin: nat, session: string)
    | WaitStep(pin: nat, session: string, id: string)
    | PollStep(pin: nat, session: string, id: string)
    | LeaveStep(pin: nat)
    | SubscribeStep(session: string, id: string, victim: string)
    | UnsubscribeStep(session: string, id: string)
    | PublishStep(session: string, id: string, item: nat)
    | DrainBeginStep
    | DrainTakeStep
    | DrainSettleStep(ok: bool)
    | ShutdownBeginStep(owner: Owner, ids: seq<string>)
    | ShutdownJoinedStep
    | ShutdownFinalizeStep

  function Next(c: Config, s: Service, step: Step): Service {
    match step
    case RegisterStep(session) => Register(c, s, session)
    case RemoveBeginStep(session, ids) => RemoveBegin(c, s, session, ids)
    case RemoveFinishStep(session) => RemoveFinish(s, session)
    case SubmitStep(session, id, total, victim, spawned) => Submit(c, s, session, id, total, victim, spawned)
    case StartStep(id, stopped) => Start(c, s, id, stopped)
    case ProgressStep(id, completed) => Progress(c, s, id, completed)
    case FinishStep(id, outcome) => Finish(c, s, id, outcome)
    case ExitStep(id) => Exit(s, id)
    case CancelStep(session, id) => Cancel(c, s, session, id)
    case EnterStep(pin, session) => Enter(s, pin, session)
    case WaitStep(pin, session, id) => Wait(s, pin, session, id)
    case PollStep(pin, session, id) => Poll(s, pin, session, id)
    case LeaveStep(pin) => Leave(s, pin)
    case SubscribeStep(session, id, victim) => Subscribe(c, s, session, id, victim)
    case UnsubscribeStep(session, id) => Unsubscribe(s, session, id)
    case PublishStep(session, id, item) => Publish(c, s, session, id, item)
    case DrainBeginStep => DrainBegin(c, s)
    case DrainTakeStep => DrainTake(s)
    case DrainSettleStep(ok) => DrainSettle(s, ok)
    case ShutdownBeginStep(owner, ids) => ShutdownBegin(c, s, owner, ids)
    case ShutdownJoinedStep => ShutdownJoined(s)
    case ShutdownFinalizeStep => ShutdownFinalize(s)
  }

  /** Every interleaving is a list of steps; a fault ends the run. */
  function Run(c: Config, s: Service, steps: seq<Step>): Service
    decreases |steps|
  {
    if steps == [] || !s.fault.NoFault? then s else Run(c, Next(c, s, steps[0]), steps[1..])
  }
}
