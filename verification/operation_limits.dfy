/**
 Two edges of the operation service: the end of the 64-bit sequence counter, and the
 text form of a notification key.
 */
module OperationLimits {
  import opened Wrappers
  import opened OperationState
  import A = OperationAccounting
  import H = OperationHistory
  import L = OperationLifecycle

  // ----- the counter's end -----

  /** A running operation ends with its books balanced exactly while a sequence number is left. */
  lemma FinishBalances(c: Config, s: Service, id: string, outcome: Outcome)
    requires H.Inv(c, s) && id in s.operations && s.operations[id].worker.Executing?
    ensures A.Accounting(c, Finish(c, s, id, outcome)) <==> s.nextSequence != MAX_SEQUENCE
  {
    hide A.Accounting, CompleteOperation;
    var operation := s.operations[id];
    assert L.Consistent(operation);
    A.CompletionAccounting(c, s, id,
                           operation.(snapshot := Concluded(operation.snapshot, outcome), worker := Finished));
  }

  function LastSnapshot(k: nat): Snapshot {
    Snapshot("s", Running, k, MAX_SEQUENCE, false, None, None, k + 2)
  }

  /** One running operation after its k-th progress report; its newest notification waits when there is a handler. */
  function Busy(c: Config, k: nat): Service {
    Service(map["s" := Session(1, 0, false, map[])],
            map["o" := Operation(LastSnapshot(k), 1, if c.handler then 0 else k + 2, 0, Executing, Held)],
            if c.handler then [OperationUpdated("o", LastSnapshot(k))] else [],
            false, None, k + 3, 2, Stats(1, 1, 0, 0, 0, 0), Serving, map[], [], NoFault)
  }

  function Reports(k: nat, n: nat): seq<Step>
    decreases n
  {
    if n == 0 then [] else [ProgressStep("o", k + 1)] + Reports(k + 1, n - 1)
  }

  lemma ReportStep(c: Config, k: nat)
    requires k + 3 < MAX_SEQUENCE && 0 < c.maxPending
    ensures Next(c, Busy(c, k), ProgressStep("o", k + 1)) == Busy(c, k + 1)
  {
    var s := Busy(c, k);
    assert Busy(c, k + 1).operations == s.operations["o" := Busy(c, k + 1).operations["o"]];
    if c.handler {
      assert Find(s.pending, OperationKey("s", "o")) == 0;
      assert Without(s.pending, 0) + [OperationUpdated("o", LastSnapshot(k + 1))] == Busy(c, k + 1).pending;
    }
  }

  lemma {:induction false} ReportsRun(c: Config, k: nat, n: nat)
    requires k + n + 3 <= MAX_SEQUENCE && 0 < c.maxPending
    ensures Run(c, Busy(c, k), Reports(k, n)) == Busy(c, k + n)
    decreases n
  {
    hide Busy, Next, Run;
    if n == 0 {
      NoStep(c, Busy(c, k));
    } else {
      ReportStep(c, k);
      BusyRuns(c, k);
      FirstStep(c, Busy(c, k), ProgressStep("o", k + 1), Reports(k + 1, n - 1));
      ReportsRun(c, k + 1, n - 1);
    }
  }

  lemma NoStep(c: Config, s: Service)
    ensures Run(c, s, []) == s
  {}

  lemma FirstStep(c: Config, s: Service, step: Step, rest: seq<Step>)
    requires s.fault.NoFault?
    ensures Run(c, s, [step] + rest) == Run(c, Next(c, s, step), rest)
  {
    hide Next;
    assert ([step] + rest)[1..] == rest;
  }

  lemma BusyRuns(c: Config, k: nat)
    ensures Busy(c, k).fault.NoFault?
  {}

  /** A session, an operation and its start. */
  const OPENING: seq<Step> := [RegisterStep("s"), SubmitStep("s", "o", MAX_SEQUENCE, "", true), StartStep("o", false)]

  lemma OpeningRuns(c: Config, rest: seq<Step>)
    requires ValidConfig(c) && 0 < c.maxSessions && 0 < c.maxTasks && 0 < c.maxRetained
    ensures Run(c, INITIAL, OPENING + rest) == Run(c, Busy(c, 0), rest)
  {
    hide Run, Next, Busy;
    var s1, s2 := OpeningStates(c);
    var submit, start := SubmitStep("s", "o", MAX_SEQUENCE, "", true), StartStep("o", false);
    FirstStep(c, INITIAL, RegisterStep("s"), [submit, start] + rest);
    FirstStep(c, s1, submit, [start] + rest);
    FirstStep(c, s2, start, rest);
    assert OPENING + rest == [RegisterStep("s")] + ([submit, start] + rest);
    assert [submit, start] + rest == [submit] + ([start] + rest);
  }

  const REGISTERED: Service := INITIAL.(sessions := map["s" := Session(0, 0, false, map[])])

  lemma OpeningStates(c: Config) returns (s1: Service, s2: Service)
    requires ValidConfig(c) && 0 < c.maxSessions && 0 < c.maxTasks && 0 < c.maxRetained
    ensures s1 == Next(c, INITIAL, RegisterStep("s")) && s1.fault.NoFault?
    ensures s2 == Next(c, s1, SubmitStep("s", "o", MAX_SEQUENCE, "", true)) && s2.fault.NoFault?
    ensures Next(c, s2, StartStep("o", false)) == Busy(c, 0)
  {
    hide Submit, Start, Admit;
    s1 := REGISTERED;
    s2 := Admit(s1, "s", "o", MAX_SEQUENCE);
    Submitted(c);
    Started(c);
  }

  lemma Submitted(c: Config)
    requires 0 < c.maxTasks && 0 < c.maxRetained
    ensures Submit(c, REGISTERED, "s", "o", MAX_SEQUENCE, "", true) == Admit(REGISTERED, "s", "o", MAX_SEQUENCE)
    ensures Admit(REGISTERED, "s", "o", MAX_SEQUENCE).fault.NoFault?
  {
    assert CollectFinished(REGISTERED).operations == map[];
    assert CollectFinished(REGISTERED) == REGISTERED;
  }

  lemma Started(c: Config)
    requires ValidConfig(c) && 0 < c.maxRetained
    ensures Start(c, Admit(REGISTERED, "s", "o", MAX_SEQUENCE), "o", false) == Busy(c, 0)
  {
    var s := Admit(REGISTERED, "s", "o", MAX_SEQUENCE);
    assert Start(c, s, "o", false).operations == Busy(c, 0).operations;
  }

  /**
   A run, in any service that admits an operation, that uses up the counter: the state
   before its end satisfies the whole invariant, and after it the ended operation is
   still on both active counts.
   */
  lemma ExhaustedCounterStrands(c: Config, outcome: Outcome) returns (steps: seq<Step>)
    requires ValidConfig(c) && 0 < c.maxSessions && 0 < c.maxTasks && 0 < c.maxRetained
    ensures H.Inv(c, Run(c, INITIAL, steps)) && Strands(c, Run(c, INITIAL, steps), outcome)
  {
    hide H.Inv, Run, Strands;
    steps := LongRun(c, MAX_SEQUENCE - 3);
    FullCounterStrands(c, MAX_SEQUENCE - 3, outcome);
    BusyRuns(c, MAX_SEQUENCE - 3);
    H.Reachable(c, steps);
  }

  /** Ending the operation runs out of numbers and leaves counts that no unfinished operation accounts for. */
  ghost predicate Strands(c: Config, s: Service, outcome: Outcome) {
    && "o" in s.operations && s.operations["o"].worker.Executing?
    && var ended := Finish(c, s, "o", outcome);
       && ended.fault == SequenceExhausted && A.ActiveIds(ended.operations) == {}
       && "s" in ended.sessions && ended.sessions["s"].active == ended.stats.active == 1
  }

  lemma FullCounterStrands(c: Config, k: nat, outcome: Outcome)
    requires k + 3 == MAX_SEQUENCE
    ensures Strands(c, Busy(c, k), outcome)
  {
    var ended := Finish(c, Busy(c, k), "o", outcome);
    assert ended.operations.Keys == {"o"};
  }

  lemma LongRun(c: Config, n: nat) returns (steps: seq<Step>)
    requires ValidConfig(c) && 0 < c.maxSessions && 0 < c.maxTasks && 0 < c.maxRetained && n + 3 <= MAX_SEQUENCE
    ensures Run(c, INITIAL, steps) == Busy(c, n)
  {
    hide Run, Busy, Reports;
    OpeningRuns(c, Reports(0, n));
    ReportsRun(c, 0, n);
    steps := OPENING + Reports(0, n);
  }

  // ----- a removal and a shutdown -----

  const CLOSING: Service :=
    INITIAL.(sessions := map["s" := Session(0, 0, true, map[])])

  lemma ClosingRuns(c: Config, rest: seq<Step>)
    requires 0 < c.maxSessions
    ensures Run(c, INITIAL, [RegisterStep("s"), RemoveBeginStep("s", [])] + rest) == Run(c, CLOSING, rest)
  {
    hide Run;
    var open := Register(c, INITIAL, "s");
    assert RemoveBegin(c, open, "s", []) == CLOSING by {
      assert OperationsOf(open.operations, "s") == {};
      assert RemoveBegin(c, open, "s", []).sessions == CLOSING.sessions;
    }
    FirstStep(c, INITIAL, RegisterStep("s"), [RemoveBeginStep("s", [])] + rest);
    FirstStep(c, open, RemoveBeginStep("s", []), rest);
    assert [RegisterStep("s"), RemoveBeginStep("s", [])] + rest ==
           [RegisterStep("s")] + ([RemoveBeginStep("s", [])] + rest);
  }

  lemma BeginsWithoutOperations(c: Config, s: Service, owner: Owner)
    requires s.phase.Serving? && s.operations == map[] && s.fault.NoFault?
    ensures ShutdownBegin(c, s, owner, []) == s.(
              phase := Stopping(owner, false),
              sessions := map session | session in s.sessions :: Deactivated(s.sessions[session]))
  {
    hide Deactivated, JoinUnlessOwner, CancelOne;
    var stopping := s.(phase := Stopping(owner, false));
    assert CancelAll(c, stopping, []) == stopping;
    assert (map id | id in s.operations :: JoinUnlessOwner(owner, id, s.operations[id])) == map[];
  }

  lemma ShutdownBegins(c: Config)
    ensures Next(c, CLOSING, ShutdownBeginStep(External, [])) == CLOSING.(phase := Stopping(External, false))
  {
    hide ShutdownBegin, Deactivated;
    BeginsWithoutOperations(c, CLOSING, External);
    NothingToDeactivate();
  }

  lemma ShutdownEnds(c: Config)
    ensures Next(c, CLOSING.(phase := Stopping(External, false)), ShutdownJoinedStep) ==
            CLOSING.(phase := Stopping(External, true))
    ensures Next(c, CLOSING.(phase := Stopping(External, true)), ShutdownFinalizeStep) == INITIAL.(phase := Complete)
  {}

  lemma NothingToDeactivate()
    ensures (map session | session in CLOSING.sessions :: Deactivated(CLOSING.sessions[session])) == CLOSING.sessions
  {}

  lemma ShutdownRuns(c: Config)
    ensures Run(c, CLOSING, [ShutdownBeginStep(External, []), ShutdownJoinedStep, ShutdownFinalizeStep]) ==
            INITIAL.(phase := Complete)
  {
    hide Run, Next;
    var begun, joined := CLOSING.(phase := Stopping(External, false)), CLOSING.(phase := Stopping(External, true));
    ShutdownBegins(c);
    ShutdownEnds(c);
    FirstStep(c, CLOSING, ShutdownBeginStep(External, []), [ShutdownJoinedStep, ShutdownFinalizeStep]);
    FirstStep(c, begun, ShutdownJoinedStep, [ShutdownFinalizeStep]);
    FirstStep(c, joined, ShutdownFinalizeStep, []);
    NoStep(c, INITIAL.(phase := Complete));
    assert [ShutdownBeginStep(External, [])] + [ShutdownJoinedStep, ShutdownFinalizeStep] ==
           [ShutdownBeginStep(External, []), ShutdownJoinedStep, ShutdownFinalizeStep];
    assert [ShutdownJoinedStep] + [ShutdownFinalizeStep] == [ShutdownJoinedStep, ShutdownFinalizeStep];
    assert [ShutdownFinalizeStep] + [] == [ShutdownFinalizeStep];
  }

  /** A removal that still waits when a shutdown completes: the record it refers to is erased. */
  lemma ShutdownErasesWaitedSession(c: Config)
    requires 0 < c.maxSessions
    ensures var removing := [RegisterStep("s"), RemoveBeginStep("s", [])];
            var shutdown := [ShutdownBeginStep(External, []), ShutdownJoinedStep, ShutdownFinalizeStep];
            && Run(c, INITIAL, removing + []) == CLOSING && CLOSING.sessions["s"].closing
            && Run(c, INITIAL, removing + shutdown) == INITIAL.(phase := Complete)
            && "s" !in INITIAL.sessions
  {
    hide Run;
    ClosingRuns(c, []);
    NoStep(c, CLOSING);
    ClosingRuns(c, [ShutdownBeginStep(External, []), ShutdownJoinedStep, ShutdownFinalizeStep]);
    ShutdownRuns(c);
  }

  // ----- notification keys -----

  const OPERATION_UPDATED := "bbp/notifications/operation_updated"
  const SUBSCRIPTION_UPDATED := "bbp/notifications/subscription_updated"

  function Method(key: Key): string {
    if key.OperationKey? then OPERATION_UPDATED else SUBSCRIPTION_UPDATED
  }

  /** NotificationKey: session, method and identifier with NUL characters between them. */
  function KeyText(key: Key): string {
    key.session + "\0" + Method(key) + "\0" + key.id
  }

  /** Equal texts with NUL-free heads have equal heads and tails. */
  lemma SameHead(a: string, b: string, x: string, y: string)
    requires '\0' !in a && '\0' !in b && a + "\0" + x == b + "\0" + y
    ensures a == b && x == y
  {
    var text := a + "\0" + x;
    assert text[|a|] == '\0' && text[|b|] == '\0';
    assert forall i | 0 <= i < |a| :: text[i] == a[i] && a[i] != '\0';
    assert forall i | 0 <= i < |b| :: text[i] == b[i] && b[i] != '\0';
    assert |a| == |b|;
    assert a == text[..|a|] && b == text[..|b|];
    assert x == text[|a| + 1..] && y == text[|b| + 1..];
  }

  lemma MethodsDiffer(a: Key, b: Key)
    ensures '\0' !in Method(a) && '\0' !in Method(b)
    ensures Method(a) == Method(b) <==> a.OperationKey? == b.OperationKey?
  {
    assert OPERATION_UPDATED[18] != SUBSCRIPTION_UPDATED[18];
  }

  /** Sessions without a NUL never share a queue slot by accident. */
  lemma KeysStayApart(a: Key, b: Key)
    requires '\0' !in a.session && '\0' !in b.session
    ensures KeyText(a) == KeyText(b) <==> a == b
  {
    if KeyText(a) == KeyText(b) {
      MethodsDiffer(a, b);
      hide Method;
      assert KeyText(a) == a.session + "\0" + (Method(a) + "\0" + a.id);
      assert KeyText(b) == b.session + "\0" + (Method(b) + "\0" + b.id);
      SameHead(a.session, b.session, Method(a) + "\0" + a.id, Method(b) + "\0" + b.id);
      SameHead(Method(a), Method(b), a.id, b.id);
    }
  }
}
