/**
 Whole-script crash theorems: starting a scope cut anywhere, restoring cut again and
 again, and the two windows in which a directory exists that no state records.
 */
module CgroupCrash {
  import opened Wrappers
  import opened CgroupWorld
  import opened CgroupScope
  import opened CgroupStart

  // ----- starting -----

  datatype Given = Given(name: string, simulator: Identity, controller: Identity, order: seq<nat>)

  /** An original hierarchy in which nothing will be adopted. */
  ghost predicate Clear(c: Config, w0: World) {
    Origin(c, w0) && ResourceChildren(w0) == {}
  }

  /** What the kernel and the random source give a starting scope. */
  ghost predicate GivenFor(w0: World, given: Given) {
    && OwnedControllerName(given.name) && given.name !in ChildrenBefore(w0)
    && Below(given.simulator, w0.root.identity)
    && Below(given.controller, SimulatorIdentity(w0, given)) && given.controller.inode != w0.root.identity.inode
    && Enumerates(given.order, w0.root.procs)
  }

  function SimulatorIdentity(w0: World, given: Given): Identity {
    if w0.simulator.None? then given.simulator else w0.simulator.value.own.identity
  }

  function NamedSimulator(c: Config, w0: World, given: Given): ScopeState {
    NewState(c, w0, given.name).(simulatorIdentity := Some(SimulatorIdentity(w0, given)))
  }

  function NamedController(c: Config, w0: World, given: Given): ScopeState {
    NamedSimulator(c, w0, given).(controllerIdentity := Some(given.controller))
  }

  function PublishScript(c: Config, w0: World, given: Given): seq<Write> {
    [SaveState(NewState(c, w0, given.name))]
    + (if w0.simulator.None?
       then [MakeSimulator(given.simulator), SaveState(NamedSimulator(c, w0, given))] else [])
  }

  function DelegateScript(c: Config, w0: World, given: Given): seq<Write> {
    if !c.move then []
    else [MakeChild(given.name, given.controller), SaveState(NamedController(c, w0, given))]
         + MoveOut(given.order, given.name)
         + [EnableRoot(NewState(c, w0, given.name).rootAdded)]
  }

  /** Publishing and StartCgroupScope as one list of writes. */
  function StartScript(c: Config, w0: World, given: Given): seq<Write> {
    PublishScript(c, w0, given) + DelegateScript(c, w0, given)
    + [EnableSimulator(NewState(c, w0, given.name).simulatorAdded)]
  }

  /** Lawful, and recoverable unless cut between making a directory and recording it. */
  ghost predicate Survives(c: Config, w0: World, w: World) {
    (Recoverable(c, w0, w) || Headless(c, w0, w)) && Lawful(c, w)
  }

  lemma Recorded(c: Config, w0: World, w: World, state: ScopeState)
    requires Running(c, w0, w, state) && w.state == Some(state) && !InUse(state) && !Held(w0, state)
    ensures Survives(c, w0, w) && Mid(c, w0, w)
  {
    assert w == w.(state := Some(state));
  }

  lemma StartSurvives(c: Config, w0: World)
    requires Clear(c, w0)
    ensures Survives(c, w0, w0)
  {}

  /** A directory that was just made holds nothing and enables nothing. */
  lemma MakingIsLawful(c: Config, w: World, write: Write)
    requires Lawful(c, w) && (write.MakeSimulator? || write.MakeChild?)
    ensures Apply(c, w, write).Some? ==> Lawful(c, Apply(c, w, write).value)
  {}

  lemma PublishPoints(c: Config, w0: World, given: Given) returns (end: World)
    requires Clear(c, w0) && GivenFor(w0, given)
    ensures Everywhere(c, w0, PublishScript(c, w0, given), x => Survives(c, w0, x))
    ensures Exec(c, w0, PublishScript(c, w0, given)) == Some(end)
    ensures Running(c, w0, end, NamedSimulator(c, w0, given)) && end.state == Some(NamedSimulator(c, w0, given))
    ensures end.root == w0.root && end.simulator.Some?
    ensures end.simulator.value.own.identity == SimulatorIdentity(w0, given)
    ensures given.name !in end.simulator.value.children
    ensures end.simulator.value.own.procs == (if w0.simulator.Some? then w0.simulator.value.own.procs else {})
  {
    BareIsOrigin(c, w0);
    hide Mid, LoaderAccepts;
    var point := (x: World) => Survives(c, w0, x);
    var state := NewState(c, w0, given.name);
    PublishStep(c, w0, given.name);
    end := w0.(state := Some(state));
    Recorded(c, w0, end, state);
    StartSurvives(c, w0);
    assert Everywhere(c, w0, [], point);
    Extend(c, w0, [], SaveState(state), point);
    assert [] + [SaveState(state)] == [SaveState(state)];
    if w0.simulator.None? {
      hide Exec;
      var identity := given.simulator;
      assert end.(state := Some(state)) == end;
      MakeSimulatorStep(c, w0, end, state, identity);
      MakingIsLawful(c, end, MakeSimulator(identity));
      assert Apply(c, end, MakeSimulator(identity)).value.(simulator := None) == end;
      end := Apply(c, end, MakeSimulator(identity)).value;
      Extend(c, w0, [SaveState(state)], MakeSimulator(identity), point);
      var named := NamedSimulator(c, w0, given);
      end := end.(state := Some(named));
      Recorded(c, w0, end, named);
      Extend(c, w0, [SaveState(state)] + [MakeSimulator(identity)], SaveState(named), point);
      assert [SaveState(state)] + [MakeSimulator(identity)] + [SaveState(named)] == PublishScript(c, w0, given);
    } else {
      assert NamedSimulator(c, w0, given) == state;
      assert PublishScript(c, w0, given) == [SaveState(state)];
    }
  }

  lemma {:induction false} MoveOutPoints(c: Config, w0: World, w: World, done: seq<Write>, from: World,
                                         state: ScopeState, order: seq<nat>) returns (end: World)
    requires Clear(c, w0) && c.move
    requires Everywhere(c, w, done, x => Survives(c, w0, x)) && Exec(c, w, done) == Some(from)
    requires Running(c, w0, from, state) && from.state == Some(state) && !InUse(state) && !Held(w0, state)
    requires ControllerReady(c, from, state) && Enumerates(order, from.root.procs)
    ensures Everywhere(c, w, done + MoveOut(order, state.controllerName), x => Survives(c, w0, x))
    ensures Exec(c, w, done + MoveOut(order, state.controllerName)) == Some(end)
    ensures Running(c, w0, end, state) && end.state == Some(state) && ControllerReady(c, end, state)
    ensures end.root.procs == {} && end.simulator.value.own == from.simulator.value.own
    decreases |order|
  {
    hide Mid, Exec, Origin, Survives;
    var name := state.controllerName;
    if order == [] {
      assert done + MoveOut(order, name) == done;
      end := from;
    } else {
      var pid := order[0];
      MoveOutStep(c, w0, from, state, pid);
      var next := Apply(c, from, MoveToChild(pid, name)).value;
      Recorded(c, w0, next, state);
      Extend(c, w, done, MoveToChild(pid, name), x => Survives(c, w0, x));
      assert order == [pid] + order[1..];
      assert Enumerates(order[1..], next.root.procs) by { DropFirst(order, from.root.procs); }
      end := MoveOutPoints(c, w0, w, done + [MoveToChild(pid, name)], next, state, order[1..]);
      assert done + [MoveToChild(pid, name)] + MoveOut(order[1..], name) == done + MoveOut(order, name);
    }
  }

  lemma ControllerPoints(c: Config, w0: World, given: Given, done: seq<Write>, from: World) returns (end: World)
    requires Clear(c, w0) && GivenFor(w0, given) && c.move
    requires Everywhere(c, w0, done, x => Survives(c, w0, x)) && Exec(c, w0, done) == Some(from)
    requires Running(c, w0, from, NamedSimulator(c, w0, given)) && from.state == Some(NamedSimulator(c, w0, given))
    requires from.root == w0.root && from.simulator.Some? && given.name !in from.simulator.value.children
    requires from.simulator.value.own.identity == SimulatorIdentity(w0, given)
    requires !InUse(NamedSimulator(c, w0, given)) && !Held(w0, NamedSimulator(c, w0, given))
    ensures var writes := done + [MakeChild(given.name, given.controller), SaveState(NamedController(c, w0, given))];
            Everywhere(c, w0, writes, x => Survives(c, w0, x)) && Exec(c, w0, writes) == Some(end)
    ensures Running(c, w0, end, NamedController(c, w0, given)) && end.state == Some(NamedController(c, w0, given))
    ensures end.root == w0.root && ControllerReady(c, end, NamedController(c, w0, given))
    ensures end.simulator.value.own == from.simulator.value.own
  {
    hide Mid, Origin, LoaderAccepts, Exec;
    var point := (x: World) => Survives(c, w0, x);
    var state, named := NamedSimulator(c, w0, given), NamedController(c, w0, given);
    MakeControllerStep(c, w0, from, state, given.controller);
    Recorded(c, w0, from, state);
    MakingIsLawful(c, from, MakeChild(given.name, given.controller));
    MadeIsUndone(c, from, given.name, given.controller);
    end := Apply(c, from, MakeChild(given.name, given.controller)).value;
    Extend(c, w0, done, MakeChild(given.name, given.controller), point);
    end := end.(state := Some(named));
    assert end.(state := Some(named)) == end;
    Recorded(c, w0, end, named);
    Extend(c, w0, done + [MakeChild(given.name, given.controller)], SaveState(named), point);
    assert done + [MakeChild(given.name, given.controller)] + [SaveState(named)]
        == done + [MakeChild(given.name, given.controller), SaveState(named)];
  }

  lemma DelegatePoints(c: Config, w0: World, given: Given, done: seq<Write>, from: World) returns (end: World)
    requires Clear(c, w0) && GivenFor(w0, given) && c.move
    requires Everywhere(c, w0, done, x => Survives(c, w0, x)) && Exec(c, w0, done) == Some(from)
    requires Running(c, w0, from, NamedController(c, w0, given)) && from.state == Some(NamedController(c, w0, given))
    requires from.root == w0.root && ControllerReady(c, from, NamedController(c, w0, given))
    requires !InUse(NamedController(c, w0, given)) && !Held(w0, NamedController(c, w0, given))
    ensures var writes := done + MoveOut(given.order, given.name) + [EnableRoot(NewState(c, w0, given.name).rootAdded)];
            Everywhere(c, w0, writes, x => Survives(c, w0, x)) && Exec(c, w0, writes) == Some(end)
    ensures Running(c, w0, end, NamedController(c, w0, given)) && end.state == Some(NamedController(c, w0, given))
    ensures end.simulator.Some? && end.simulator.value.own == from.simulator.value.own && MANAGED <= end.root.enabled
  {
    hide Mid, Origin, LoaderAccepts, Exec, MoveOut, Survives;
    var point := (x: World) => Survives(c, w0, x);
    var state := NamedController(c, w0, given);
    end := MoveOutPoints(c, w0, w0, done, from, state, given.order);
    EnableRootStep(c, w0, end, state);
    var next := Apply(c, end, EnableRoot(state.rootAdded)).value;
    Recorded(c, w0, next, state);
    Extend(c, w0, done + MoveOut(given.order, given.name), EnableRoot(state.rootAdded), point);
    end := next;
  }

  lemma NothingRuns(c: Config, w0: World, given: Given)
    requires Clear(c, w0)
    ensures !InUse(NamedSimulator(c, w0, given)) && !InUse(NamedController(c, w0, given))
    ensures !Held(w0, NamedSimulator(c, w0, given)) && !Held(w0, NamedController(c, w0, given))
    ensures !c.move ==> MANAGED <= w0.root.enabled
  {}

  lemma EnabledPoints(c: Config, w0: World, given: Given, done: seq<Write>, from: World, state: ScopeState)
    requires Clear(c, w0) && Everywhere(c, w0, done, x => Survives(c, w0, x)) && Exec(c, w0, done) == Some(from)
    requires Running(c, w0, from, state) && from.state == Some(state) && !InUse(state) && !Held(w0, state)
    requires from.simulator.Some? && MANAGED <= from.root.enabled
    requires state.simulatorAdded == {} || from.simulator.value.own.procs == {}
    ensures var writes := done + [EnableSimulator(state.simulatorAdded)];
            && Everywhere(c, w0, writes, x => Survives(c, w0, x)) && Exec(c, w0, writes).Some?
            && var end := Exec(c, w0, writes).value;
               && Mid(c, w0, end) && end.state == Some(state) && end.simulator.Some?
               && MANAGED <= end.simulator.value.own.enabled
  {
    hide Mid, Origin, LoaderAccepts, Exec, Survives;
    EnableSimulatorStep(c, w0, from, state);
    var end := Apply(c, from, EnableSimulator(state.simulatorAdded)).value;
    assert end.(state := Some(state)) == end;
    Recorded(c, w0, end, state);
    Extend(c, w0, done, EnableSimulator(state.simulatorAdded), x => Survives(c, w0, x));
  }

  /**
   A start cut after any number of writes is refused by nobody and leaves a world that
   restores, except right after a mkdir whose identity is not yet recorded.
   */
  lemma StartCrashPoints(c: Config, w0: World, given: Given)
    requires Clear(c, w0) && GivenFor(w0, given)
    requires w0.simulator.Some? ==> w0.simulator.value.own.procs == {} || MANAGED <= w0.simulator.value.own.enabled
    ensures Everywhere(c, w0, StartScript(c, w0, given), x => Survives(c, w0, x))
    ensures var end := Exec(c, w0, StartScript(c, w0, given));
            && end.Some? && Mid(c, w0, end.value) && end.value.simulator.Some?
            && MANAGED <= end.value.simulator.value.own.enabled
  {
    hide Mid, LoaderAccepts, Exec, Everywhere, PublishScript, Survives, Origin;
    NothingRuns(c, w0, given);
    var done, state := PublishScript(c, w0, given), NamedSimulator(c, w0, given);
    var end := PublishPoints(c, w0, given);
    if c.move {
      end := ControllerPoints(c, w0, given, done, end);
      done := done + [MakeChild(given.name, given.controller), SaveState(NamedController(c, w0, given))];
      state := NamedController(c, w0, given);
      end := DelegatePoints(c, w0, given, done, end);
      done := done + MoveOut(given.order, given.name) + [EnableRoot(NewState(c, w0, given.name).rootAdded)];
    }
    assert done == PublishScript(c, w0, given) + DelegateScript(c, w0, given);
    AddedWhenMissing(c, w0, given);
    EnabledPoints(c, w0, given, done, end, state);
  }

  lemma AddedWhenMissing(c: Config, w0: World, given: Given)
    ensures MANAGED <= SimulatorBefore(w0) ==> NewState(c, w0, given.name).simulatorAdded == {}
  {}

  // ----- crashing over and over -----

  /** A restoration that died after some of its writes leaves `next`. */
  ghost predicate Dies(c: Config, w: World, next: World) {
    && w.state.Some?
    && exists order, cut :: Enumerates(order, ControllerProcs(w)) && CutOff(c, w, order, cut, next)
  }

  ghost predicate CutOff(c: Config, w: World, order: seq<nat>, cut: nat, next: World)
    requires w.state.Some?
  {
    cut <= |RestoreScript(w, order)| && Exec(c, w, RestoreScript(w, order)[..cut]) == Some(next)
  }

  lemma DyingKeepsRecoverable(c: Config, w0: World, w: World, next: World)
    requires Origin(c, w0) && Recoverable(c, w0, w) && Dies(c, w, next)
    ensures Recoverable(c, w0, next)
  {
    var order, cut :| Enumerates(order, ControllerProcs(w)) && CutOff(c, w, order, cut, next);
    hide Mid, Exec;
    RestoreCrashPoints(c, w0, w, order);
  }

  /** However often recovery itself dies, the world it leaves can be recovered from. */
  lemma {:induction false} NestedCrashes(c: Config, w0: World, left: seq<World>)
    requires Origin(c, w0) && left != [] && Recoverable(c, w0, left[0])
    requires forall i | 0 <= i < |left| - 1 :: Dies(c, left[i], left[i + 1])
    ensures Recoverable(c, w0, left[|left| - 1])
    decreases |left|
  {
    hide Mid, Origin, Dies;
    if |left| > 1 {
      assert Dies(c, left[0], left[0 + 1]);
      DyingKeepsRecoverable(c, w0, left[0], left[1]);
      var rest := left[1..];
      forall i | 0 <= i < |rest| - 1 ensures Dies(c, rest[i], rest[i + 1]) {
        assert rest[i] == left[i + 1] && rest[i + 1] == left[i + 1 + 1];
      }
      NestedCrashes(c, w0, rest);
    }
  }

  /** The recovery that is finally left alone brings the original hierarchy back. */
  lemma RecoveredAtLast(c: Config, w0: World, left: seq<World>, order: seq<nat>)
    requires Origin(c, w0) && left != [] && Recoverable(c, w0, left[0])
    requires forall i | 0 <= i < |left| - 1 :: Dies(c, left[i], left[i + 1])
    requires var last := left[|left| - 1]; last.state.Some? && Enumerates(order, ControllerProcs(last))
    ensures var last := left[|left| - 1]; Exec(c, last, RestoreScript(last, order)) == Some(w0)
  {
    hide Mid, Exec, Dies;
    NestedCrashes(c, w0, left);
    RestoreCrashPoints(c, w0, left[|left| - 1], order);
  }

  // ----- unrecorded directories -----

  /** A simulator or scope controller without a recorded identity is never adopted. */
  lemma UnrecordedIsRefused(w: World)
    requires w.state.Some? && w.simulator.Some?
    requires var state := w.state.value;
             || state.simulatorIdentity.None?
             || (state.controllerExpected && state.controllerIdentity.None?
                 && state.controllerName in w.simulator.value.children)
    ensures !BindAccepts(w, w.state.value)
  {}

  lemma {:induction false} StrayStays(c: Config, w: World, writes: seq<Write>, name: string)
    requires w.simulator.Some? && name in w.simulator.value.children
    requires forall i | 0 <= i < |writes| :: writes[i] != RemoveChild(name) && writes[i] != KillChild(name)
    ensures var end := Exec(c, w, writes);
            end.Some? ==> end.value.simulator.Some? && name in end.value.simulator.value.children
    decreases |writes|
  {
    if writes != [] {
      StrayStays(c, w, writes[..|writes| - 1], name);
    }
  }

  /**
   Dying between the mkdir of a run and the write that records it leaves a directory
   recovery does not know: restoring is then refused or leaves it behind, so it never
   returns to a hierarchy without it.
   */
  lemma OrphanedRunStays(c: Config, w0: World, w: World, order: seq<nat>, run: string)
    requires w.state.Some? && w.simulator.Some? && run in w.simulator.value.children
    requires run != w.state.value.controllerName && run !in ChildrenBefore(w0)
    ensures Exec(c, w, RestoreScript(w, order)) != Some(w0)
  {
    StrayStays(c, w, RestoreScript(w, order), run);
  }
}
