/**
 Starting and restoring a cgroup scope as scripts of single writes.  A crash may cut
 a script anywhere; what is left on disk is always either back at the original
 hierarchy or recoverable by running the restore script again.
 */
module CgroupScope {
  import opened Wrappers
  import opened CgroupWorld

  // ----- scripts -----

  function Then(c: Config, w: Option<World>, write: Write): Option<World> {
    if w.None? then None else Apply(c, w.value, write)
  }

  /** The world after all writes, or None once the kernel refused one. */
  function Exec(c: Config, w: World, writes: seq<Write>): Option<World> {
    if writes == [] then Some(w) else Then(c, Exec(c, w, writes[..|writes| - 1]), writes[|writes| - 1])
  }

  lemma NoWrites(c: Config, w: World)
    ensures Exec(c, w, []) == Some(w)
  {}

  lemma ExecLast(c: Config, w: World, writes: seq<Write>, last: Write)
    ensures Exec(c, w, writes + [last]) == Then(c, Exec(c, w, writes), last)
  {
    hide Apply;
    assert (writes + [last])[..|writes|] == writes;
  }

  function MoveOut(order: seq<nat>, name: string): seq<Write> {
    seq(|order|, i requires 0 <= i < |order| => MoveToChild(order[i], name))
  }

  function MoveBack(order: seq<nat>, name: string): seq<Write> {
    seq(|order|, i requires 0 <= i < |order| => MoveToRoot(order[i], name))
  }

  ghost predicate Enumerates(order: seq<nat>, procs: set<nat>) {
    && (forall i, j | 0 <= i < j < |order| :: order[i] != order[j])
    && (forall pid :: pid in order <==> pid in procs)
  }

  function ControllerPresent(w: World): bool {
    w.state.Some? && w.simulator.Some? && w.state.value.controllerName in w.simulator.value.children
  }

  function ControllerProcs(w: World): set<nat> {
    if ControllerPresent(w) then w.simulator.value.children[w.state.value.controllerName].procs else {}
  }

  // ----- the recovery invariant -----

  /**
   The scope made the simulator, but something in it will outlive the scope: the
   hierarchy that is left in the end has a simulator that restoration may not remove.
   */
  predicate Held(w0: World, state: ScopeState) {
    w0.simulator.Some? && !state.preexisting
  }

  ghost predicate Plan(c: Config, w0: World, state: ScopeState) {
    && (w0.simulator.Some? ==> state.controllerName !in w0.simulator.value.children)
    && (state.preexisting ==> w0.simulator.Some?)
    && (Held(w0, state) ==> w0.simulator.value.children != map[] && w0.simulator.value.own.procs == {} && !state.ready)
    && state.controllerExpected == c.move
    && state.rootIdentity == Some(w0.root.identity)
    && state.rootBefore == w0.root.enabled
    && state.simulatorBefore == SimulatorBefore(w0)
    && state.rootAdded == MANAGED - state.rootBefore
    && state.simulatorAdded == MANAGED - state.simulatorBefore
    && (w0.simulator.Some? ==> state.simulatorIdentity == Some(w0.simulator.value.own.identity))
  }

  predicate Between(before: set<Controller>, now: set<Controller>, added: set<Controller>) {
    before <= now <= before + added
  }

  function Runs(state: ScopeState): set<string> {
    state.active + (if state.created && state.pending.Some? then {state.pending.value} else {})
  }

  function ChildrenBefore(w0: World): map<string, Directory> {
    if w0.simulator.None? then map[] else w0.simulator.value.children
  }

  /** The children are the original ones, the scope controller and the scope's runs. */
  ghost predicate ChildrenOf(w0: World, state: ScopeState, children: map<string, Directory>) {
    && (forall name | name in ChildrenBefore(w0) :: name in children && children[name] == ChildrenBefore(w0)[name])
    && (forall name | name in children ::
          name in ChildrenBefore(w0) || name == state.controllerName || name in Runs(state))
    && (forall name | name in Runs(state) :: name !in ChildrenBefore(w0) && name != state.controllerName)
    && (state.pending.Some? ==>
          && state.pending.value !in state.active
          && state.pending.value != state.controllerName
          && (!state.created ==> state.pending.value in children ==> state.pending.value in ChildrenBefore(w0)))
    && (state.created && state.pending.Some? && state.pending.value in children ==>
          children[state.pending.value].procs == {})
    && (forall name | name in state.bindings && name in children :: children[name].identity == state.bindings[name])
  }

  ghost predicate SimulatorMid(c: Config, w0: World, w: World, state: ScopeState) {
    match w.simulator
    case None =>
      && w0.simulator.None? && !InUse(state)
      && (state.simulatorIdentity.Some? ==> state.ready)
      && (state.controllerIdentity.Some? ==> state.ready)
    case Some(sim) =>
      && state.simulatorIdentity == Some(sim.own.identity)
      && sim.own.procs == (if w0.simulator.Some? then w0.simulator.value.own.procs else {})
      && Between(state.simulatorBefore, sim.own.enabled, state.simulatorAdded)
      && ChildrenOf(w0, state, sim.children)
      && (if state.controllerName in sim.children then
            && c.move
            && state.controllerIdentity == Some(sim.children[state.controllerName].identity)
            && sim.children[state.controllerName].enabled == {}
          else !InUse(state) || !c.move)
      && (state.controllerIdentity.Some? && !state.ready ==> state.controllerName in sim.children)
  }

  /** Once marked ready, all that remains is removing empty directories and the state. */
  ghost predicate ReadyMid(w: World, state: ScopeState) {
    state.ready ==>
      && w.root.enabled == state.rootBefore
      && ControllerProcs(w) == {}
      && (w.simulator.Some? ==> w.simulator.value.own.enabled == state.simulatorBefore)
  }

  /**
   The "Top-down Constraint" and the "No Internal Process Constraint" of the Linux
   cgroup v2 documentation, as far as the scope's own controllers are concerned.
   */
  ghost predicate Constraints(c: Config, w: World, state: ScopeState) {
    && (w.simulator.Some? ==> w.simulator.value.own.enabled <= w.root.enabled)
    && (c.move && w.root.procs != {} ==> w.root.enabled !! state.rootAdded)
  }

  ghost predicate Mid(c: Config, w0: World, w: World) {
    && w.state.Some?
    && var state := w.state.value;
       && LoaderAccepts(c, state)
       && Plan(c, w0, state)
       && w.available == w0.available
       && w.root.identity == w0.root.identity
       && Between(state.rootBefore, w.root.enabled, state.rootAdded)
       && w.root.procs + ControllerProcs(w) == w0.root.procs
       && w.root.procs !! ControllerProcs(w)
       && SimulatorMid(c, w0, w, state)
       && ReadyMid(w, state)
       && Constraints(c, w, state)
  }

  /** The state on disk, if any, loads, and the kernel's constraints hold of the scope's controllers. */
  ghost predicate Lawful(c: Config, w: World) {
    w.state.Some? ==> LoaderAccepts(c, w.state.value) && Constraints(c, w, w.state.value)
  }

  lemma MidIsLawful(c: Config, w0: World, w: World)
    requires Mid(c, w0, w)
    ensures Lawful(c, w)
  {}

  /** A scope can begin here: no state of an older scope is left. */
  ghost predicate Origin(c: Config, w0: World) {
    KernelValid(c, w0) && CanBegin(c, w0) && w0.state.None?
  }

  /** A simulator or controller was made but its identity was not recorded: every later command refuses it. */
  ghost predicate Headless(c: Config, w0: World, w: World) {
    && w.state.Some? && w.simulator.Some?
    && var state := w.state.value;
       || (state.simulatorIdentity.None? && Mid(c, w0, w.(simulator := None)))
       || (c.move && state.controllerIdentity.None? && state.controllerName in w.simulator.value.children
           && Mid(c, w0, Without(w, state.controllerName)))
  }

  lemma HeadlessIsRefused(c: Config, w0: World, w: World)
    requires Headless(c, w0, w)
    ensures LoaderAccepts(c, w.state.value) && !BindAccepts(w, w.state.value)
  {}

  // ----- recovery is never refused -----

  /** Whatever a cut script leaves, the next command loads it and binds it. */
  lemma MidBinds(c: Config, w0: World, w: World)
    requires Origin(c, w0) && Mid(c, w0, w)
    ensures LoaderAccepts(c, w.state.value) && BindAccepts(w, w.state.value)
  {
    var state := w.state.value;
    assert w0.available * MANAGED == MANAGED;
    assert state.rootAdded == w.available * MANAGED - state.rootBefore;
  }

  // ----- restoring -----

  /** Switching the controllers off, and moving the root's processes home. */
  function QuietScript(w: World, order: seq<nat>): seq<Write>
    requires w.state.Some?
  {
    var state := w.state.value;
    (if w.simulator.Some? then [DisableSimulator(state.simulatorAdded)] else [])
    + [DisableRoot(state.rootAdded)]
    + (if ControllerPresent(w) then MoveBack(order, state.controllerName) else [])
  }

  /** The first half of RestoreCgroupScope: undo controllers and moves, then checkpoint. */
  function UndoScript(w: World, order: seq<nat>): seq<Write>
    requires w.state.Some?
  {
    var state := w.state.value;
    if state.ready then [] else QuietScript(w, order) + [SaveState(state.(ready := true))]
  }

  /** The second half: remove what the scope made, and last its state file. */
  function RemoveScript(w: World): seq<Write>
    requires w.state.Some?
  {
    var state := w.state.value;
    (if ControllerPresent(w) then [RemoveChild(state.controllerName)] else [])
    + (if !state.preexisting && w.simulator.Some? then [RemoveSimulator] else [])
    + [RemoveState]
  }

  function RestoreScript(w: World, order: seq<nat>): seq<Write>
    requires w.state.Some?
  {
    UndoScript(w, order) + RemoveScript(w)
  }

  ghost predicate Idle(w: World) {
    w.state.Some? && !InUse(w.state.value)
  }

  /** Back at the original hierarchy, or recoverable. */
  ghost predicate Recoverable(c: Config, w0: World, w: World) {
    w == w0 || (Mid(c, w0, w) && Idle(w) && !Held(w0, w.state.value))
  }

  lemma DisableSimulatorStep(c: Config, w0: World, w: World)
    requires Origin(c, w0) && Mid(c, w0, w) && Idle(w) && !w.state.value.ready && w.simulator.Some?
    ensures var next := Apply(c, w, DisableSimulator(w.state.value.simulatorAdded));
            && next.Some? && Mid(c, w0, next.value) && next.value.state == w.state
            && next.value == w.(simulator := next.value.simulator) && next.value.simulator.Some?
            && next.value.simulator.value == w.simulator.value.(own := next.value.simulator.value.own)
            && next.value.simulator.value.own.enabled == w.state.value.simulatorBefore
  {
    var state := w.state.value;
    var sim := w.simulator.value;
    forall name | name in sim.children ensures state.simulatorAdded !! sim.children[name].enabled {
      if name in ChildrenBefore(w0) {
        assert sim.children[name].enabled <= SimulatorBefore(w0);
      }
    }
    assert sim.own.enabled - state.simulatorAdded == state.simulatorBefore;
  }

  lemma DisableRootStep(c: Config, w0: World, w: World)
    requires Origin(c, w0) && Mid(c, w0, w) && Idle(w) && !w.state.value.ready
    requires w.simulator.Some? ==> w.simulator.value.own.enabled == w.state.value.simulatorBefore
    ensures var next := Apply(c, w, DisableRoot(w.state.value.rootAdded));
            && next.Some? && Mid(c, w0, next.value)
            && next.value == w.(root := w.root.(enabled := w.state.value.rootBefore))
  {
    var state := w.state.value;
    assert w.simulator.Some? ==> state.simulatorBefore <= state.rootBefore;
    assert w.root.enabled - state.rootAdded == state.rootBefore;
  }

  /** All BBP controllers are off again. */
  ghost predicate Undone(w: World) {
    && w.state.Some?
    && w.root.enabled == w.state.value.rootBefore
    && (w.simulator.Some? ==> w.simulator.value.own.enabled == w.state.value.simulatorBefore)
  }

  /** Moving a process between the root and the controller leaves the rest of the simulator alone. */
  lemma MovedSimulator(c: Config, w0: World, w: World, next: World)
    requires w.state.Some? && next.state == w.state && SimulatorMid(c, w0, w, w.state.value)
    requires w.simulator.Some? && next.simulator.Some?
    requires var name, sim, after := w.state.value.controllerName, w.simulator.value, next.simulator.value;
             && name in sim.children && name in after.children && name !in ChildrenBefore(w0)
             && after == WithChild(sim, name, sim.children[name].(procs := after.children[name].procs))
    ensures SimulatorMid(c, w0, next, w.state.value)
  {}

  lemma MoveBackStep(c: Config, w0: World, w: World, pid: nat)
    requires Origin(c, w0) && Mid(c, w0, w) && Idle(w) && Undone(w) && pid in ControllerProcs(w)
    ensures var next := Apply(c, w, MoveToRoot(pid, w.state.value.controllerName));
            && next.Some? && Mid(c, w0, next.value) && Undone(next.value)
            && next.value.state == w.state && ControllerPresent(next.value)
            && ControllerProcs(next.value) == ControllerProcs(w) - {pid}
  {
    hide LoaderAccepts, SimulatorMid;
    assert w0.root.procs != {};
    ControllerIsNew(c, w0, w);
    var name := w.state.value.controllerName;
    var next := Apply(c, w, MoveToRoot(pid, name)).value;
    assert next.root.procs + ControllerProcs(next) == w0.root.procs;
    MovedSimulator(c, w0, w, next);
  }

  lemma ControllerIsNew(c: Config, w0: World, w: World)
    requires Mid(c, w0, w) && ControllerPresent(w)
    ensures w.state.value.controllerName !in ChildrenBefore(w0)
  {}

  lemma CheckpointStep(c: Config, w0: World, w: World)
    requires Origin(c, w0) && Mid(c, w0, w) && Idle(w) && Undone(w) && ControllerProcs(w) == {}
    requires !Held(w0, w.state.value)
    ensures var next := Apply(c, w, SaveState(w.state.value.(ready := true)));
            && next.Some? && Mid(c, w0, next.value) && Idle(next.value) && next.value.state.value.ready
            && next.value == w.(state := Some(w.state.value.(ready := true)))
  {
    assert forall name | name in w.state.value.bindings :: name in w.state.value.active || w.state.value.created;
    assert w.state.value.bindings == map[];
  }

  lemma RemoveControllerStep(c: Config, w0: World, w: World)
    requires Origin(c, w0) && Mid(c, w0, w) && Idle(w) && w.state.value.ready && ControllerPresent(w)
    ensures var next := Apply(c, w, RemoveChild(w.state.value.controllerName));
            && next.Some? && Mid(c, w0, next.value) && next.value.state == w.state
            && !ControllerPresent(next.value) && next.value.simulator.Some?
  {}

  lemma RemoveSimulatorStep(c: Config, w0: World, w: World)
    requires Origin(c, w0) && Mid(c, w0, w) && Idle(w) && w.state.value.ready && !ControllerPresent(w)
    requires !w.state.value.preexisting && w.simulator.Some?
    ensures var next := Apply(c, w, RemoveSimulator);
            next.Some? && Mid(c, w0, next.value) && next.value == w.(simulator := None)
  {
    assert w.simulator.value.children == map[];
  }

  /** Unlinking the state file commits: the hierarchy is exactly the original one. */
  lemma CommitStep(c: Config, w0: World, w: World)
    requires Origin(c, w0) && Mid(c, w0, w) && Idle(w) && w.state.value.ready && !ControllerPresent(w)
    requires w.simulator.Some? ==> w.state.value.preexisting
    ensures Apply(c, w, RemoveState) == Some(w0)
  {
    if w.simulator.Some? {
      var sim := w.simulator.value;
      assert sim.children == w0.simulator.value.children;
      assert sim.own == w0.simulator.value.own;
    }
    assert w.root == w0.root;
  }

  // ----- cutting a script anywhere -----

  /** Every prefix of the script runs, and leaves a world that satisfies `point`. */
  ghost predicate Everywhere(c: Config, w: World, writes: seq<Write>, point: World -> bool) {
    forall k | 0 <= k <= |writes| :: Exec(c, w, writes[..k]).Some? && point(Exec(c, w, writes[..k]).value)
  }

  lemma Extend(c: Config, w: World, done: seq<Write>, write: Write, point: World -> bool)
    requires Everywhere(c, w, done, point)
    requires var next := Then(c, Exec(c, w, done), write); next.Some? && point(next.value)
    ensures Everywhere(c, w, done + [write], point)
    ensures Exec(c, w, done + [write]) == Then(c, Exec(c, w, done), write)
  {
    var longer := done + [write];
    assert longer[..|longer| - 1] == done;
    forall k | 0 <= k <= |longer|
      ensures Exec(c, w, longer[..k]).Some? && point(Exec(c, w, longer[..k]).value)
    {
      if k == |longer| {
        assert longer[..k] == longer;
      } else {
        assert longer[..k] == done[..k];
      }
    }
  }

  lemma {:induction false} MoveBackPoints(c: Config, w0: World, w: World, done: seq<Write>, from: World,
                                          order: seq<nat>) returns (end: World)
    requires Origin(c, w0) && Everywhere(c, w, done, x => Recoverable(c, w0, x)) && Exec(c, w, done) == Some(from)
    requires Mid(c, w0, from) && Idle(from) && Undone(from) && ControllerPresent(from)
    requires !Held(w0, from.state.value)
    requires Enumerates(order, ControllerProcs(from))
    ensures Everywhere(c, w, done + MoveBack(order, from.state.value.controllerName), x => Recoverable(c, w0, x))
    ensures Exec(c, w, done + MoveBack(order, from.state.value.controllerName)) == Some(end)
    ensures Mid(c, w0, end) && Undone(end) && end.state == from.state && ControllerPresent(end)
    ensures ControllerProcs(end) == {}
    decreases |order|
  {
    hide Mid, Exec, Origin;
    var name := from.state.value.controllerName;
    if order == [] {
      assert done + MoveBack(order, name) == done;
      end := from;
    } else {
      var pid := order[0];
      MoveBackStep(c, w0, from, pid);
      var next := Apply(c, from, MoveToRoot(pid, name)).value;
      Extend(c, w, done, MoveToRoot(pid, name), x => Recoverable(c, w0, x));
      assert order == [pid] + order[1..];
      assert Enumerates(order[1..], ControllerProcs(next)) by { DropFirst(order, ControllerProcs(from)); }
      end := MoveBackPoints(c, w0, w, done + [MoveToRoot(pid, name)], next, order[1..]);
      assert done + [MoveToRoot(pid, name)] + MoveBack(order[1..], name) == done + MoveBack(order, name);
    }
  }

  lemma DropFirst(order: seq<nat>, procs: set<nat>)
    requires Enumerates(order, procs) && order != []
    ensures Enumerates(order[1..], procs - {order[0]})
  {
    var rest := order[1..];
    forall i, j | 0 <= i < j < |rest| ensures rest[i] != rest[j] {
      assert rest[i] == order[i + 1] && rest[j] == order[j + 1];
    }
    forall pid ensures pid in rest <==> pid in procs - {order[0]} {
      assert order == [order[0]] + rest;
      if pid in rest {
        var i :| 0 <= i < |rest| && rest[i] == pid;
        assert order[i + 1] == pid && order[0] != order[i + 1];
      }
    }
  }

  lemma DisablePoints(c: Config, w0: World, w: World) returns (done: seq<Write>, end: World)
    requires Origin(c, w0) && Mid(c, w0, w) && Idle(w) && !w.state.value.ready && !Held(w0, w.state.value)
    ensures done == (if w.simulator.Some? then [DisableSimulator(w.state.value.simulatorAdded)] else [])
                    + [DisableRoot(w.state.value.rootAdded)]
    ensures Everywhere(c, w, done, x => Recoverable(c, w0, x)) && Exec(c, w, done) == Some(end)
    ensures Mid(c, w0, end) && Undone(end) && end.state == w.state
    ensures ControllerPresent(end) == ControllerPresent(w) && ControllerProcs(end) == ControllerProcs(w)
    ensures end.simulator.Some? == w.simulator.Some?
  {
    hide Mid, Origin;
    var point := (x: World) => Recoverable(c, w0, x);
    var state := w.state.value;
    done, end := [], w;
    if w.simulator.Some? {
      DisableSimulatorStep(c, w0, w);
      Extend(c, w, done, DisableSimulator(state.simulatorAdded), point);
      done := [DisableSimulator(state.simulatorAdded)];
      end := Apply(c, w, DisableSimulator(state.simulatorAdded)).value;
    }
    hide Exec;
    DisableRootStep(c, w0, end);
    Extend(c, w, done, DisableRoot(state.rootAdded), point);
    done := done + [DisableRoot(state.rootAdded)];
    end := Apply(c, end, DisableRoot(state.rootAdded)).value;
  }

  lemma QuietPoints(c: Config, w0: World, w: World, order: seq<nat>) returns (end: World)
    requires Origin(c, w0) && Mid(c, w0, w) && Idle(w) && !w.state.value.ready && !Held(w0, w.state.value)
    requires Enumerates(order, ControllerProcs(w))
    ensures Everywhere(c, w, QuietScript(w, order), x => Recoverable(c, w0, x))
    ensures Exec(c, w, QuietScript(w, order)) == Some(end)
    ensures Mid(c, w0, end) && Undone(end) && end.state == w.state && ControllerProcs(end) == {}
    ensures end.simulator.Some? == w.simulator.Some? && ControllerPresent(end) == ControllerPresent(w)
  {
    hide Mid, Origin, Exec, Everywhere;
    var done;
    done, end := DisablePoints(c, w0, w);
    if ControllerPresent(w) {
      end := MoveBackPoints(c, w0, w, done, end, order);
    } else {
      assert QuietScript(w, order) == done;
    }
  }

  lemma UndoPoints(c: Config, w0: World, w: World, order: seq<nat>) returns (end: World)
    requires Origin(c, w0) && Mid(c, w0, w) && Idle(w) && Enumerates(order, ControllerProcs(w))
    requires !Held(w0, w.state.value)
    ensures Everywhere(c, w, UndoScript(w, order), x => Recoverable(c, w0, x))
    ensures Exec(c, w, UndoScript(w, order)) == Some(end)
    ensures Mid(c, w0, end) && Idle(end) && end.state == Some(w.state.value.(ready := true))
    ensures end.simulator.Some? == w.simulator.Some? && ControllerPresent(end) == ControllerPresent(w)
  {
    hide Mid, Origin;
    var point := (x: World) => Recoverable(c, w0, x);
    var state := w.state.value;
    end := w;
    if !state.ready {
      hide Exec;
      end := QuietPoints(c, w0, w, order);
      CheckpointStep(c, w0, end);
      Extend(c, w, QuietScript(w, order), SaveState(state.(ready := true)), point);
      end := Apply(c, end, SaveState(state.(ready := true))).value;
    }
  }

  lemma RemovePoints(c: Config, w0: World, w: World, done: seq<Write>, from: World)
    requires Origin(c, w0) && Everywhere(c, w, done, x => Recoverable(c, w0, x)) && Exec(c, w, done) == Some(from)
    requires Mid(c, w0, from) && Idle(from) && from.state.value.ready && !Held(w0, from.state.value)
    ensures Everywhere(c, w, done + RemoveScript(from), x => Recoverable(c, w0, x))
    ensures Exec(c, w, done + RemoveScript(from)) == Some(w0)
  {
    hide Mid, Origin, Exec;
    var point := (x: World) => Recoverable(c, w0, x);
    var state := from.state.value;
    var writes, end := done, from;
    if ControllerPresent(from) {
      RemoveControllerStep(c, w0, from);
      Extend(c, w, writes, RemoveChild(state.controllerName), point);
      writes := writes + [RemoveChild(state.controllerName)];
      end := Apply(c, from, RemoveChild(state.controllerName)).value;
    }
    if !state.preexisting && from.simulator.Some? {
      RemoveSimulatorStep(c, w0, end);
      Extend(c, w, writes, RemoveSimulator, point);
      writes := writes + [RemoveSimulator];
      end := Apply(c, end, RemoveSimulator).value;
    }
    CommitStep(c, w0, end);
    Extend(c, w, writes, RemoveState, point);
    assert writes + [RemoveState] == done + RemoveScript(from);
  }

  /**
   Restoration from any recoverable world: the kernel refuses none of its writes, a
   crash after any of them leaves a recoverable world, and completed it returns to
   exactly the hierarchy from before the scope began.
   */
  lemma RestoreCrashPoints(c: Config, w0: World, w: World, order: seq<nat>)
    requires Origin(c, w0) && Mid(c, w0, w) && Idle(w) && Enumerates(order, ControllerProcs(w))
    requires !Held(w0, w.state.value)
    ensures Everywhere(c, w, RestoreScript(w, order), x => Recoverable(c, w0, x))
    ensures Exec(c, w, RestoreScript(w, order)) == Some(w0)
  {
    var end := UndoPoints(c, w0, w, order);
    RemovePoints(c, w0, w, UndoScript(w, order), end);
    hide Exec, Mid, Origin;
    assert RemoveScript(end) == RemoveScript(w);
  }

  /** Cut anywhere, a restoration leaves a loadable state and respects the kernel's constraints. */
  lemma RestoreIsLawful(c: Config, w0: World, w: World, order: seq<nat>)
    requires Origin(c, w0) && Mid(c, w0, w) && Idle(w) && Enumerates(order, ControllerProcs(w))
    requires !Held(w0, w.state.value)
    ensures Everywhere(c, w, RestoreScript(w, order), x => Lawful(c, x))
  {
    RestoreCrashPoints(c, w0, w, order);
    hide Exec, Mid;
    var script := RestoreScript(w, order);
    forall k | 0 <= k <= |script|
      ensures Exec(c, w, script[..k]).Some? && Lawful(c, Exec(c, w, script[..k]).value)
    {
      var point := Exec(c, w, script[..k]).value;
      assert Recoverable(c, w0, point);
      if point != w0 { MidIsLawful(c, w0, point); }
    }
  }
}
