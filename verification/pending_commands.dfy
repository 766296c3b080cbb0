/**
 Command outcomes find their waiters: submitters, waiters, cancellations, detaches and the
 outcome publisher interleave in any order, one locked section at a time.
 */
module PendingCommands {
  import opened Wrappers

  const CAPACITY: nat := 256

  datatype Outcome = Published(value: string) | Repeated | Unconfirmed

  datatype Entry = Entry(completed: bool, outcome: Option<Outcome>, detached: bool)

  /**
   Where a waiter is between two locked sections: waiting, reporting progress outside
   the lock, requesting cancellation outside the lock, waiting for the owner to settle,
   or unwinding after an exception.
   */
  datatype Phase = Waiting | Reporting | Requesting | Draining | Unwinding

  datatype Fault = Stopping | Full | Duplicate | Lost | Missing | Unexpected

  datatype State = State(
    pending: map<nat, Entry>,
    waiters: map<nat, Phase>,
    next: nat,
    stopping: bool,
    runStopped: bool,
    returned: map<nat, Outcome>,
    faults: set<Fault>)

  const INITIAL: State := State(map[], map[], 0, false, false, map[], {})

  function Fail(s: State, fault: Fault): State {
    s.(faults := s.faults + {fault})
  }

  /** SubmitCommand: push to the queue and remember the sequence. */
  function Submit(s: State): State {
    if s.stopping then Fail(s, Stopping)
    else if |s.pending| >= CAPACITY then Fail(s, Full)
    else if s.next in s.pending then Fail(s.(next := s.next + 1), Duplicate)
    else s.(pending := s.pending[s.next := Entry(false, None, false)],
            waiters := s.waiters[s.next := Waiting],
            next := s.next + 1)
  }

  /** A command of another origin takes a queue sequence. */
  function Elsewhere(s: State): State {
    s.(next := s.next + 1)
  }

  /** The waiter leaves with this outcome. */
  function Return(s: State, q: nat, outcome: Outcome): State {
    s.(waiters := s.waiters - {q}, returned := s.returned[q := outcome])
  }

  /** Taking the outcome of a completed entry erases it; a missing entry or outcome throws. */
  function Take(s: State, q: nat): State {
    if q !in s.pending then Fail(s.(waiters := s.waiters[q := Unwinding]), Lost)
    else if s.pending[q].outcome.None? then Fail(s.(waiters := s.waiters[q := Unwinding]), Missing)
    else Return(s.(pending := s.pending - {q}), q, s.pending[q].outcome.value)
  }

  predicate RunEnded(s: State) {
    s.stopping || s.runStopped
  }

  /** What ends the first wait. */
  predicate StopOrTerminal(s: State, q: nat, cancelled: bool) {
    cancelled || RunEnded(s) || q !in s.pending || s.pending[q].completed
  }

  /** The end of the first wait: a terminal entry is taken, otherwise cancellation is requested. */
  function Wake(s: State, q: nat, cancelled: bool, deadline: bool): State {
    if q !in s.waiters || s.waiters[q] != Waiting || !(StopOrTerminal(s, q, cancelled) || deadline) then s
    else if q !in s.pending || s.pending[q].completed then Take(s, q)
    else if !cancelled && !RunEnded(s) && !deadline then Fail(s.(waiters := s.waiters[q := Unwinding]), Unexpected)
    else s.(waiters := s.waiters[q := Requesting])
  }

  /** A waiter with a progress context leaves and re-enters the lock. */
  function Report(s: State, q: nat): State {
    if q in s.waiters && s.waiters[q] == Waiting then s.(waiters := s.waiters[q := Reporting]) else s
  }

  function Reported(s: State, q: nat, throws: bool): State {
    if q in s.waiters && s.waiters[q] == Reporting
    then s.(waiters := s.waiters[q := if throws then Unwinding else Waiting]) else s
  }

  function Requested(s: State, q: nat): State {
    if q in s.waiters && s.waiters[q] == Requesting then s.(waiters := s.waiters[q := Draining]) else s
  }

  /** The end of the second wait: the owner settled, or its bound passed and the entry is detached. */
  function Drain(s: State, q: nat, expired: bool): State {
    if q !in s.waiters || s.waiters[q] != Draining then s
    else if q !in s.pending || s.pending[q].completed then Take(s, q)
    else if expired then Return(s.(pending := s.pending[q := s.pending[q].(detached := true)]), q, Unconfirmed)
    else s
  }

  /** DetachPendingCommand, called by the waiter that is unwinding. */
  function Detach(s: State, q: nat): State {
    if q !in s.waiters || s.waiters[q] != Unwinding then s
    else
      var left := s.(waiters := s.waiters - {q});
      if q !in s.pending then left
      else if s.pending[q].completed then left.(pending := s.pending - {q})
      else left.(pending := s.pending[q := s.pending[q].(detached := true)])
  }

  /** The pending-map part of RecordCommandOutcome. */
  function Record(s: State, q: nat, value: string): State {
    if q !in s.pending then s
    else if s.pending[q].detached then s.(pending := s.pending - {q})
    else if s.pending[q].completed then s.(pending := s.pending[q := s.pending[q].(outcome := Some(Repeated))])
    else s.(pending := s.pending[q := Entry(true, Some(Published(value)), false)])
  }

  datatype Step =
    | DoSubmit | DoElsewhere | DoStop | DoRunStopped
    | DoWake(q: nat, cancelled: bool, deadline: bool)
    | DoReport(q: nat) | DoReported(q: nat, throws: bool)
    | DoRequested(q: nat) | DoDrain(q: nat, expired: bool) | DoDetach(q: nat)
    | DoRecord(q: nat, value: string)

  function Next(s: State, step: Step): State {
    match step
    case DoSubmit => Submit(s)
    case DoElsewhere => Elsewhere(s)
    case DoStop => s.(stopping := true)
    case DoRunStopped => s.(runStopped := true)
    case DoWake(q, cancelled, deadline) => Wake(s, q, cancelled, deadline)
    case DoReport(q) => Report(s, q)
    case DoReported(q, throws) => Reported(s, q, throws)
    case DoRequested(q) => Requested(s, q)
    case DoDrain(q, expired) => Drain(s, q, expired)
    case DoDetach(q) => Detach(s, q)
    case DoRecord(q, value) => Record(s, q, value)
  }

  function Run(steps: seq<Step>): State {
    if steps == [] then INITIAL else Next(Run(steps[..|steps| - 1]), steps[|steps| - 1])
  }

  // ----- the invariant -----

  /** The entry is owned by its one waiter or detached, and a completed entry has its outcome. */
  ghost predicate Fine(s: State, q: nat) {
    && (q in s.pending ==>
          && (s.pending[q].detached <==> q !in s.waiters)
          && (s.pending[q].completed <==> s.pending[q].outcome.Some?)
          && (s.pending[q].detached ==> !s.pending[q].completed))
    && (q in s.waiters ==> q in s.pending && q !in s.returned)
    && (q in s.pending || q in s.returned ==> q < s.next)
  }

  ghost predicate Inv(s: State) {
    (forall q :: Fine(s, q)) && |s.pending| <= CAPACITY && s.faults <= {Stopping, Full}
  }

  ghost predicate SameAt(s: State, after: State, x: nat) {
    && (x in s.pending <==> x in after.pending) && (x in s.pending ==> s.pending[x] == after.pending[x])
    && (x in s.waiters <==> x in after.waiters) && (x in s.waiters ==> s.waiters[x] == after.waiters[x])
    && (x in s.returned <==> x in after.returned) && (x in s.returned ==> s.returned[x] == after.returned[x])
  }

  /** Only `q` is touched. */
  ghost predicate Touches(s: State, after: State, q: nat) {
    s.next <= after.next && forall x | x != q :: SameAt(s, after, x)
  }

  lemma OthersStayFine(s: State, after: State, q: nat)
    requires Inv(s) && Touches(s, after, q) && Fine(after, q)
    ensures forall x :: Fine(after, x)
  {
    forall x ensures Fine(after, x) {
      assert Fine(s, x);
      if x != q { assert SameAt(s, after, x); }
    }
  }

  lemma SizeSet(a: map<nat, Entry>, q: nat, e: Entry)
    ensures |a[q := e]| == |a| + (if q in a then 0 else 1)
  {
    assert a[q := e].Keys == a.Keys + {q};
    assert |a.Keys| == |a| && |a[q := e].Keys| == |a[q := e]|;
  }

  lemma SizeDrop(a: map<nat, Entry>, q: nat)
    ensures |a - {q}| <= |a|
  {
    assert (a - {q}).Keys == a.Keys - {q};
    assert |a.Keys| == |a| && |(a - {q}).Keys| == |a - {q}|;
  }

  lemma NextIsNew(s: State)
    requires Inv(s)
    ensures s.next !in s.pending && s.next !in s.waiters && s.next !in s.returned
  {
    assert Fine(s, s.next);
  }

  lemma SameMapsStayFine(s: State, after: State)
    requires Inv(s) && after.pending == s.pending && after.waiters == s.waiters && after.returned == s.returned
    requires s.next <= after.next && after.faults <= {Stopping, Full}
    ensures Inv(after)
  {
    forall x ensures Fine(after, x) { assert Fine(s, x); }
  }

  function Admitted(s: State): State {
    s.(pending := s.pending[s.next := Entry(false, None, false)], waiters := s.waiters[s.next := Waiting],
       next := s.next + 1)
  }

  lemma AdmitTouches(s: State)
    ensures Touches(s, Admitted(s), s.next)
  {}

  lemma AdmitKeepsInv(s: State)
    requires Inv(s) && |s.pending| < CAPACITY
    ensures Inv(Admitted(s))
  {
    hide Touches;
    NextIsNew(s);
    SizeSet(s.pending, s.next, Entry(false, None, false));
    assert Fine(Admitted(s), s.next);
    AdmitTouches(s);
    OthersStayFine(s, Admitted(s), s.next);
  }

  lemma SubmitKeepsInv(s: State)
    requires Inv(s)
    ensures Inv(Submit(s)) && Duplicate !in Submit(s).faults
  {
    NextIsNew(s);
    if s.stopping || |s.pending| >= CAPACITY {
      SameMapsStayFine(s, Submit(s));
    } else {
      AdmitKeepsInv(s);
    }
  }

  lemma TakeKeepsInv(s: State, q: nat)
    requires Inv(s) && q in s.waiters && (q in s.pending ==> s.pending[q].completed)
    ensures Inv(Take(s, q)) && q !in Take(s, q).waiters && q !in Take(s, q).pending
    ensures q in s.pending && s.pending[q].outcome.Some?
    ensures Take(s, q).returned == s.returned[q := s.pending[q].outcome.value]
  {
    assert Fine(s, q);
    SizeDrop(s.pending, q);
    OthersStayFine(s, Take(s, q), q);
  }

  lemma WakeKeepsInv(s: State, q: nat, cancelled: bool, deadline: bool)
    requires Inv(s)
    ensures Inv(Wake(s, q, cancelled, deadline))
  {
    assert Fine(s, q);
    if q in s.waiters && s.pending[q].completed {
      TakeKeepsInv(s, q);
    } else {
      OthersStayFine(s, Wake(s, q, cancelled, deadline), q);
    }
  }

  lemma DrainKeepsInv(s: State, q: nat, expired: bool)
    requires Inv(s)
    ensures Inv(Drain(s, q, expired))
  {
    assert Fine(s, q);
    if q in s.waiters && s.pending[q].completed {
      TakeKeepsInv(s, q);
    } else if q in s.waiters {
      SizeSet(s.pending, q, s.pending[q].(detached := true));
      OthersStayFine(s, Drain(s, q, expired), q);
    }
  }

  lemma DetachKeepsInv(s: State, q: nat)
    requires Inv(s)
    ensures Inv(Detach(s, q))
  {
    assert Fine(s, q);
    if q in s.waiters {
      SizeDrop(s.pending, q);
      SizeSet(s.pending, q, s.pending[q].(detached := true));
      OthersStayFine(s, Detach(s, q), q);
    }
  }

  lemma RecordKeepsInv(s: State, q: nat, value: string)
    requires Inv(s)
    ensures Inv(Record(s, q, value))
  {
    assert Fine(s, q);
    if q in s.pending {
      SizeDrop(s.pending, q);
      SizeSet(s.pending, q, s.pending[q].(outcome := Some(Repeated)));
      SizeSet(s.pending, q, Entry(true, Some(Published(value)), false));
      OthersStayFine(s, Record(s, q, value), q);
    }
  }

  lemma MoveKeepsInv(s: State, q: nat, phase: Phase)
    requires Inv(s) && q in s.waiters
    ensures Inv(s.(waiters := s.waiters[q := phase]))
  {
    assert Fine(s, q);
    OthersStayFine(s, s.(waiters := s.waiters[q := phase]), q);
  }

  lemma PhaseKeepsInv(s: State, q: nat, throws: bool)
    requires Inv(s)
    ensures Inv(Report(s, q)) && Inv(Reported(s, q, throws)) && Inv(Requested(s, q))
  {
    hide Inv;
    if q in s.waiters {
      MoveKeepsInv(s, q, Reporting);
      MoveKeepsInv(s, q, if throws then Unwinding else Waiting);
      MoveKeepsInv(s, q, Draining);
    }
  }

  lemma FlagsKeepInv(s: State)
    requires Inv(s)
    ensures Inv(Elsewhere(s)) && Inv(s.(stopping := true)) && Inv(s.(runStopped := true))
  {
    SameMapsStayFine(s, Elsewhere(s));
    SameMapsStayFine(s, s.(stopping := true));
    SameMapsStayFine(s, s.(runStopped := true));
  }

  lemma StepKeepsInv(s: State, step: Step)
    requires Inv(s)
    ensures Inv(Next(s, step))
  {
    hide Inv, Submit, Wake, Drain, Detach, Record, Report, Reported, Requested;
    match step
    case DoSubmit => SubmitKeepsInv(s);
    case DoElsewhere => FlagsKeepInv(s);
    case DoStop => FlagsKeepInv(s);
    case DoRunStopped => FlagsKeepInv(s);
    case DoWake(q, cancelled, deadline) => WakeKeepsInv(s, q, cancelled, deadline);
    case DoReport(q) => PhaseKeepsInv(s, q, false);
    case DoReported(q, throws) => PhaseKeepsInv(s, q, throws);
    case DoRequested(q) => PhaseKeepsInv(s, q, false);
    case DoDrain(q, expired) => DrainKeepsInv(s, q, expired);
    case DoDetach(q) => DetachKeepsInv(s, q);
    case DoRecord(q, value) => RecordKeepsInv(s, q, value);
  }

  /** Over every interleaving: entries are owned or detached, bounded, and no logic error is reached. */
  lemma {:induction false} RunKeepsInv(steps: seq<Step>)
    ensures Inv(Run(steps))
    decreases |steps|
  {
    if steps != [] {
      RunKeepsInv(steps[..|steps| - 1]);
      StepKeepsInv(Run(steps[..|steps| - 1]), steps[|steps| - 1]);
    }
  }

  /** "was lost", "is missing", "duplicate" and "ended unexpectedly" cannot happen. */
  lemma NoLogicError(steps: seq<Step>)
    ensures var faults := Run(steps).faults;
            Lost !in faults && Missing !in faults && Duplicate !in faults && Unexpected !in faults
  {
    RunKeepsInv(steps);
  }

  // ----- who gets what -----

  /** A waiter that has returned keeps its one outcome for good. */
  lemma ReturnsOnce(s: State, step: Step, q: nat)
    requires Inv(s) && q in s.returned
    ensures q in Next(s, step).returned && Next(s, step).returned[q] == s.returned[q]
    ensures q !in Next(s, step).waiters
  {
    hide Next;
    assert Fine(s, q);
    if Aims(s, step, q) { NobodyWaits(s, step, q); } else { Untouched(s, step, q); }
  }

  /** A step of a waiter that is not there does nothing but record an outcome. */
  lemma NobodyWaits(s: State, step: Step, q: nat)
    requires Aims(s, step, q) && q !in s.waiters && q < s.next
    ensures Next(s, step).returned == s.returned && Next(s, step).waiters == s.waiters
  {}

  lemma {:induction false} ReturnsForGood(steps: seq<Step>, later: seq<Step>, q: nat)
    requires q in Run(steps).returned
    ensures q in Run(steps + later).returned && Run(steps + later).returned[q] == Run(steps).returned[q]
    decreases |later|
  {
    hide Next, Inv;
    if later == [] {
      assert steps + later == steps;
    } else {
      var n := |later| - 1;
      ReturnsForGood(steps, later[..n], q);
      RunKeepsInv(steps + later[..n]);
      assert (steps + later)[..|steps + later| - 1] == steps + later[..n];
      ReturnsOnce(Run(steps + later[..n]), later[n], q);
    }
  }

  lemma RunStep(steps: seq<Step>, step: Step)
    ensures Run(steps + [step]) == Next(Run(steps), step)
  {
    assert (steps + [step])[..|steps|] == steps;
  }

  /** The one command a step is about. */
  predicate Aims(s: State, step: Step, q: nat) {
    match step
    case DoSubmit => q == s.next
    case DoElsewhere => false
    case DoStop => false
    case DoRunStopped => false
    case _ => q == step.q
  }

  lemma Untouched(s: State, step: Step, q: nat)
    requires !Aims(s, step, q)
    ensures SameAt(s, Next(s, step), q) && s.next <= Next(s, step).next
  {
    hide Wake, Drain, Detach, Record, SameAt;
    match step
    case DoWake(x, cancelled, deadline) => WakeUntouched(s, x, cancelled, deadline, q);
    case DoDrain(x, expired) => DrainUntouched(s, x, expired, q);
    case DoDetach(x) => DetachUntouched(s, x, q);
    case DoRecord(x, value) => RecordUntouched(s, x, value, q);
    case _ => QuietUntouched(s, step, q);
  }

  lemma TakeUntouched(s: State, x: nat, q: nat)
    requires x != q
    ensures SameAt(s, Take(s, x), q) && Take(s, x).next == s.next
  {}

  lemma WakeUntouched(s: State, x: nat, cancelled: bool, deadline: bool, q: nat)
    requires x != q
    ensures SameAt(s, Wake(s, x, cancelled, deadline), q) && Wake(s, x, cancelled, deadline).next == s.next
  {
    hide Take, StopOrTerminal, RunEnded;
    TakeUntouched(s, x, q);
  }

  lemma DrainUntouched(s: State, x: nat, expired: bool, q: nat)
    requires x != q
    ensures SameAt(s, Drain(s, x, expired), q) && Drain(s, x, expired).next == s.next
  {
    hide Take;
    TakeUntouched(s, x, q);
  }

  lemma DetachUntouched(s: State, x: nat, q: nat)
    requires x != q
    ensures SameAt(s, Detach(s, x), q) && Detach(s, x).next == s.next
  {}

  lemma RecordUntouched(s: State, x: nat, value: string, q: nat)
    requires x != q
    ensures SameAt(s, Record(s, x, value), q) && Record(s, x, value).next == s.next
  {}

  lemma QuietUntouched(s: State, step: Step, q: nat)
    requires !Aims(s, step, q) && !step.DoWake? && !step.DoDrain? && !step.DoDetach? && !step.DoRecord?
    ensures SameAt(s, Next(s, step), q) && s.next <= Next(s, step).next
  {
    hide Wake, Drain, Detach, Record, Report, Reported, Requested, SameAt;
    match step
    case DoReport(x) => PhaseUntouched(s, x, false, q);
    case DoReported(x, throws) => PhaseUntouched(s, x, throws, q);
    case DoRequested(x) => PhaseUntouched(s, x, false, q);
    case _ => SubmitUntouched(s, q);
  }

  lemma PhaseUntouched(s: State, x: nat, throws: bool, q: nat)
    requires x != q
    ensures SameAt(s, Report(s, x), q) && SameAt(s, Reported(s, x, throws), q) && SameAt(s, Requested(s, x), q)
    ensures Report(s, x).next == Reported(s, x, throws).next == Requested(s, x).next == s.next
  {}

  lemma SubmitUntouched(s: State, q: nat)
    ensures q != s.next ==> SameAt(s, Submit(s), q) && s.next <= Submit(s).next
    ensures SameAt(s, Elsewhere(s), q) && SameAt(s, s.(stopping := true), q) && SameAt(s, s.(runStopped := true), q)
  {}

  predicate Records(step: Step, q: nat) {
    step.DoRecord? && step.q == q
  }

  predicate Recorded(steps: seq<Step>, q: nat) {
    exists i | 0 <= i < |steps| :: Records(steps[i], q)
  }

  /** Nobody waits for the command; its entry is left detached until an outcome erased it. */
  ghost predicate Parted(s: State, q: nat, settled: bool) {
    && q < s.next && q !in s.waiters
    && if settled then q !in s.pending else q in s.pending && s.pending[q].detached
  }

  lemma PartedStep(s: State, step: Step, q: nat, settled: bool)
    requires Inv(s) && Parted(s, q, settled)
    ensures Parted(Next(s, step), q, settled || Records(step, q))
  {
    assert Fine(s, q);
    if !Aims(s, step, q) { Untouched(s, step, q); }
  }

  /**
   A command that was detached stays so until its first outcome, whatever else happens,
   and is never pending again after it.
   */
  lemma {:induction false} LateOutcomeErases(steps: seq<Step>, later: seq<Step>, q: nat)
    requires q in Run(steps).pending && Run(steps).pending[q].detached
    ensures var s := Run(steps + later);
            if Recorded(later, q) then q !in s.pending else q in s.pending && s.pending[q].detached
    ensures Parted(Run(steps + later), q, Recorded(later, q))
    decreases |later|
  {
    hide Next, Inv, Run;
    if later == [] {
      assert steps + later == steps;
      RunKeepsInv(steps);
      DetachedIsParted(Run(steps), q);
    } else {
      var n := |later| - 1;
      var front, step := later[..n], later[n];
      LateOutcomeErases(steps, front, q);
      RunKeepsInv(steps + front);
      PartedStep(Run(steps + front), step, q, Recorded(front, q));
      assert steps + later == steps + front + [step];
      RunStep(steps + front, step);
      assert Recorded(later, q) <==> Recorded(front, q) || Records(step, q) by {
        assert forall i | 0 <= i < n :: later[i] == front[i];
      }
    }
  }

  lemma DetachedIsParted(s: State, q: nat)
    requires Inv(s) && q in s.pending && s.pending[q].detached
    ensures Parted(s, q, false)
  {
    assert Fine(s, q);
  }

  // ----- where outcomes come from -----

  /** How often an outcome of the command was published. */
  function Count(steps: seq<Step>, q: nat): nat {
    if steps == [] then 0 else Count(steps[..|steps| - 1], q) + (if Records(steps[|steps| - 1], q) then 1 else 0)
  }

  /** The outcome is one the steps published for this command; "repeated" means there were several. */
  predicate Justified(steps: seq<Step>, q: nat, outcome: Outcome) {
    match outcome
    case Published(value) => DoRecord(q, value) in steps
    case Repeated => Count(steps, q) >= 2
    case Unconfirmed => DoDrain(q, true) in steps
  }

  ghost predicate JustifiedAt(steps: seq<Step>, s: State, q: nat) {
    && (q in s.pending && s.pending[q].outcome.Some? ==>
          && Justified(steps, q, s.pending[q].outcome.value) && !s.pending[q].outcome.value.Unconfirmed?
          && Count(steps, q) >= 1)
    && (q in s.returned ==> Justified(steps, q, s.returned[q]))
  }

  lemma JustifiedGrows(steps: seq<Step>, step: Step, q: nat, outcome: Outcome)
    requires Justified(steps, q, outcome)
    ensures Justified(steps + [step], q, outcome)
  {
    CountStep(steps, step, q);
  }

  lemma CountStep(steps: seq<Step>, step: Step, q: nat)
    ensures Count(steps + [step], q) == Count(steps, q) + (if Records(step, q) then 1 else 0)
  {
    assert (steps + [step])[..|steps|] == steps;
  }

  lemma JustifiedStep(steps: seq<Step>, s: State, step: Step, q: nat)
    requires JustifiedAt(steps, s, q) && Inv(s)
    ensures JustifiedAt(steps + [step], Next(s, step), q)
  {
    hide Justified, Count, Next;
    CountStep(steps, step, q);
    if q in s.pending && s.pending[q].outcome.Some? { JustifiedGrows(steps, step, q, s.pending[q].outcome.value); }
    if q in s.returned { JustifiedGrows(steps, step, q, s.returned[q]); }
    assert Fine(s, q);
    if Aims(s, step, q) {
      NewOutcomes(steps, s, step, q);
      OwnStepJustified(steps + [step], s, step, q);
    } else {
      Untouched(s, step, q);
    }
  }

  lemma OwnStepJustified(steps: seq<Step>, s: State, step: Step, q: nat)
    requires Fine(s, q) && Aims(s, step, q) && JustifiedAt(steps, s, q)
    requires Records(step, q) ==> Justified(steps, q, Published(step.value)) && Count(steps, q) >= 1
    requires step == DoDrain(q, true) ==> Justified(steps, q, Unconfirmed)
    requires Records(step, q) && q in s.pending && s.pending[q].completed ==> Justified(steps, q, Repeated)
    ensures JustifiedAt(steps, Next(s, step), q)
  {
    hide Justified, Count;
  }

  /** What a step adds is justified by that step. */
  lemma NewOutcomes(steps: seq<Step>, s: State, step: Step, q: nat)
    requires JustifiedAt(steps, s, q) && Inv(s)
    ensures step.DoRecord? && step.q == q ==> Justified(steps + [step], q, Published(step.value))
    ensures step.DoDrain? && step.q == q && step.expired ==> Justified(steps + [step], q, Unconfirmed)
    ensures Records(step, q) && q in s.pending && s.pending[q].completed ==> Justified(steps + [step], q, Repeated)
  {
    assert Fine(s, q);
    CountStep(steps, step, q);
    assert (steps + [step])[|steps|] == step;
  }

  /**
   In every run, what a waiter returned was published for its own command, or stands for
   several publications, or for the expiry of its own second wait.
   */
  lemma {:induction false} ReturnedWasPublished(steps: seq<Step>, q: nat)
    ensures q in Run(steps).returned ==> Justified(steps, q, Run(steps).returned[q])
    ensures JustifiedAt(steps, Run(steps), q)
    decreases |steps|
  {
    if steps != [] {
      hide Next, Inv, JustifiedAt, Justified;
      var front, step := steps[..|steps| - 1], steps[|steps| - 1];
      ReturnedWasPublished(front, q);
      RunKeepsInv(front);
      JustifiedStep(front, Run(front), step, q);
      assert steps == front + [step];
      ReturnedJustified(steps, Run(steps), q);
    }
  }

  lemma ReturnedJustified(steps: seq<Step>, s: State, q: nat)
    requires JustifiedAt(steps, s, q)
    ensures q in s.returned ==> Justified(steps, q, s.returned[q])
  {}

  // ----- and where they go -----

  /** The published outcome is with its waiter, or in the entry the waiter is going to take. */
  ghost predicate Delivers(s: State, q: nat, value: string) {
    || (q in s.returned && s.returned[q] == Published(value) && q !in s.waiters && q < s.next)
    || (q in s.waiters && s.waiters[q] != Unwinding && q in s.pending
        && s.pending[q] == Entry(true, Some(Published(value)), false))
  }

  /** An exception of the waiter's progress report, or another outcome of the same command. */
  predicate Disturbs(step: Step, q: nat) {
    Records(step, q) || step == DoReported(q, true)
  }

  lemma DeliversStep(s: State, step: Step, q: nat, value: string)
    requires Inv(s) && Delivers(s, q, value) && !Disturbs(step, q)
    ensures Delivers(Next(s, step), q, value)
  {
    hide Next;
    assert Fine(s, q);
    if Aims(s, step, q) {
      OwnStepDelivers(s, step, q, value);
    } else {
      Untouched(s, step, q);
    }
  }

  lemma OwnStepDelivers(s: State, step: Step, q: nat, value: string)
    requires Fine(s, q) && Aims(s, step, q) && Delivers(s, q, value) && !Disturbs(step, q)
    ensures Delivers(Next(s, step), q, value)
  {}

  /** The waiter's next locked section takes the outcome, whatever woke it. */
  lemma DeliversAtOnce(s: State, q: nat, value: string, cancelled: bool, deadline: bool, expired: bool)
    requires Delivers(s, q, value) && q in s.waiters
    ensures s.waiters[q] == Waiting ==>
              var t := Wake(s, q, cancelled, deadline); q in t.returned && t.returned[q] == Published(value)
    ensures s.waiters[q] == Draining ==>
              var t := Drain(s, q, expired); q in t.returned && t.returned[q] == Published(value)
  {}

  /**
   The first outcome of an owned command belongs to its waiter from then on: in every
   continuation without a second outcome or an exception of the waiter, the waiter has
   returned it or is about to take it.
   */
  lemma {:induction false} OutcomeReachesWaiter(steps: seq<Step>, q: nat, value: string, later: seq<Step>)
    requires var s := Run(steps);
             q in s.waiters && s.waiters[q] != Unwinding && q in s.pending && !s.pending[q].completed
    requires forall i | 0 <= i < |later| :: !Disturbs(later[i], q)
    ensures Delivers(Run(steps + [DoRecord(q, value)] + later), q, value)
    decreases |later|
  {
    hide Next, Inv, Run, Delivers;
    var recorded := steps + [DoRecord(q, value)];
    if later == [] {
      RunKeepsInv(steps);
      RunStep(steps, DoRecord(q, value));
      FirstOutcome(Run(steps), q, value);
      assert recorded + later == recorded;
    } else {
      var n := |later| - 1;
      OutcomeReachesWaiter(steps, q, value, later[..n]);
      RunKeepsInv(recorded + later[..n]);
      DeliversStep(Run(recorded + later[..n]), later[n], q, value);
      assert recorded + later == recorded + later[..n] + [later[n]];
      RunStep(recorded + later[..n], later[n]);
    }
  }

  lemma FirstOutcome(s: State, q: nat, value: string)
    requires Inv(s) && q in s.waiters && s.waiters[q] != Unwinding && q in s.pending && !s.pending[q].completed
    ensures Delivers(Next(s, DoRecord(q, value)), q, value)
  {
    assert Fine(s, q);
  }
}

/** The locked sections of McpLiveApplication that touch its pending commands, over its own fields. */
module CommandCorrelation {
  import opened Wrappers
  import opened PendingCommands

  /** How a locked section of WaitForCommand ends. */
  datatype Waited = Again | Outcome(outcome: PendingCommands.Outcome) | Cancel | Throws(fault: Fault)

  class Correlation {
    var pending: map<nat, Entry>
    var next: nat
    var stopping: bool
    var runStopped: bool
    /** Where each waiting thread is, what left with it, and which errors were raised. */
    ghost var waiters: map<nat, Phase>
    ghost var returned: map<nat, PendingCommands.Outcome>
    ghost var faults: set<Fault>

    constructor ()
      ensures View() == INITIAL && Inv(View())
    {
      pending, next, stopping, runStopped := map[], 0, false, false;
      waiters, returned, faults := map[], map[], {};
    }

    ghost function View(): State
      reads this
    {
      State(pending, waiters, next, stopping, runStopped, returned, faults)
    }

    method SubmitCommand() returns (sequence: Option<nat>)
      requires Inv(View())
      modifies this
      ensures View() == Submit(old(View())) && Inv(View())
      ensures sequence.Some? <==> !old(stopping) && |old(pending)| < CAPACITY
      ensures sequence.Some? ==> sequence.value in pending && sequence.value !in old(pending)
    {
      SubmitKeepsInv(View());
      NextIsNew(View());
      if stopping { faults := faults + {Stopping}; return None; }
      if |pending| >= CAPACITY { faults := faults + {Full}; return None; }
      var pushed := next;
      next := next + 1;
      if pushed in pending { return None; }
      pending := pending[pushed := Entry(false, None, false)];
      waiters := waiters[pushed := Waiting];
      return Some(pushed);
    }

    /** The section after the first wait of WaitForCommand. */
    method EndWait(q: nat, cancelled: bool, deadline: bool) returns (r: Waited)
      requires Inv(View()) && q in waiters && waiters[q] == Waiting
      modifies this
      ensures View() == Wake(old(View()), q, cancelled, deadline) && Inv(View())
      ensures !r.Throws?
      ensures r.Outcome? <==> old(pending)[q].completed
      ensures r.Outcome? ==> Some(r.outcome) == old(pending)[q].outcome && q !in pending
    {
      WakeKeepsInv(View(), q, cancelled, deadline);
      assert Fine(View(), q);
      if !(StopOrTerminalNow(q, cancelled) || deadline) { return Again; }
      if q !in pending { return Throws(Lost); }
      if pending[q].completed {
        r := TakeOutcome(q);
        return;
      }
      if !cancelled && !stopping && !runStopped && !deadline {
        return Throws(Unexpected);
      }
      waiters := waiters[q := Requesting];
      return Cancel;
    }

    predicate StopOrTerminalNow(q: nat, cancelled: bool)
      reads this
    {
      cancelled || stopping || runStopped || q !in pending || pending[q].completed
    }

    method TakeOutcome(q: nat) returns (r: Waited)
      requires Inv(View()) && q in waiters && q in pending && pending[q].completed
      modifies this`pending, this`waiters, this`returned, this`faults
      ensures View() == Take(old(View()), q)
      ensures r.Outcome? && Some(r.outcome) == old(pending)[q].outcome && q !in pending
    {
      assert Fine(View(), q);
      if pending[q].outcome.None? {
        return Throws(Missing);
      }
      var outcome := pending[q].outcome.value;
      pending := pending - {q};
      waiters, returned := waiters - {q}, returned[q := outcome];
      return Outcome(outcome);
    }

    /** A command of another origin took a queue sequence. */
    method PushElsewhere()
      requires Inv(View())
      modifies this
      ensures View() == Elsewhere(old(View())) && Inv(View())
    {
      FlagsKeepInv(View());
      next := next + 1;
    }

    /** The run is asked to stop, or has stopped. */
    method StopRun(stopped: bool)
      requires Inv(View())
      modifies this
      ensures View() == (if stopped then old(View()).(runStopped := true) else old(View()).(stopping := true))
      ensures Inv(View())
    {
      FlagsKeepInv(View());
      if stopped { runStopped := true; } else { stopping := true; }
    }

    /** A waiter leaves the lock to report progress. */
    method BeginReport(q: nat)
      requires Inv(View()) && q in waiters && waiters[q] == Waiting
      modifies this
      ensures View() == Report(old(View()), q) && Inv(View()) && waiters[q] == Reporting
    {
      PhaseKeepsInv(View(), q, false);
      waiters := waiters[q := Reporting];
    }

    /** It comes back, or its report threw. */
    method EndReport(q: nat, throws: bool)
      requires Inv(View()) && q in waiters && waiters[q] == Reporting
      modifies this
      ensures View() == Reported(old(View()), q, throws) && Inv(View())
      ensures waiters[q] == if throws then Unwinding else Waiting
    {
      PhaseKeepsInv(View(), q, throws);
      waiters := waiters[q := if throws then Unwinding else Waiting];
    }

    /** Cancellation was requested outside the lock; the second wait begins. */
    method BeginDrain(q: nat)
      requires Inv(View()) && q in waiters && waiters[q] == Requesting
      modifies this
      ensures View() == Requested(old(View()), q) && Inv(View()) && waiters[q] == Draining
    {
      PhaseKeepsInv(View(), q, false);
      waiters := waiters[q := Draining];
    }

    /** The section after the second wait: the owner settled, or the bound expired. */
    method EndDrain(q: nat, expired: bool) returns (r: Waited)
      requires Inv(View()) && q in waiters && waiters[q] == Draining
      modifies this
      ensures View() == Drain(old(View()), q, expired) && Inv(View())
      ensures !r.Throws?
      ensures old(pending)[q].completed ==> r.Outcome? && Some(r.outcome) == old(pending)[q].outcome
      ensures !old(pending)[q].completed && expired ==> r == Outcome(Unconfirmed) && pending[q].detached
    {
      DrainKeepsInv(View(), q, expired);
      assert Fine(View(), q);
      if q !in pending { return Throws(Lost); }
      if pending[q].completed {
        r := TakeOutcome(q);
        return;
      }
      if !expired { return Again; }
      pending := pending[q := pending[q].(detached := true)];
      waiters, returned := waiters - {q}, returned[q := Unconfirmed];
      return Outcome(Unconfirmed);
    }

    method DetachPendingCommand(q: nat)
      requires Inv(View()) && q in waiters && waiters[q] == Unwinding
      modifies this
      ensures View() == Detach(old(View()), q) && Inv(View())
    {
      DetachKeepsInv(View(), q);
      waiters := waiters - {q};
      if q !in pending { return; }
      if pending[q].completed {
        pending := pending - {q};
      } else {
        pending := pending[q := pending[q].(detached := true)];
      }
    }

    method RecordCommandOutcome(q: nat, value: string)
      requires Inv(View())
      modifies this
      ensures View() == Record(old(View()), q, value) && Inv(View())
    {
      RecordKeepsInv(View(), q, value);
      if q !in pending { return; }
      if pending[q].detached {
        pending := pending - {q};
      } else if pending[q].completed {
        pending := pending[q := pending[q].(outcome := Some(Repeated))];
      } else {
        pending := pending[q := Entry(true, Some(Published(value)), false)];
      }
    }
  }
}
