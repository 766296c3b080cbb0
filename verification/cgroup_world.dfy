/**
 The part of the cgroup hierarchy the scope protocol owns, the kernel's rules for
 changing it, and the durable scope state with the loader's consistency checks.
 A directory is an opaque identity; every write is one atomic step.
 */
module CgroupWorld {
  import opened Wrappers

  datatype Controller = Cpu | Io | Memory | Pids | Unmanaged(name: string)

  const MANAGED: set<Controller> := {Cpu, Io, Memory, Pids}

  datatype Identity = Identity(device: nat, inode: nat, mount: nat)

  /** `enabled` is cgroup.subtree_control, `procs` is cgroup.procs. */
  datatype Directory = Directory(identity: Identity, enabled: set<Controller>, procs: set<nat>)

  datatype Simulator = Simulator(own: Directory, children: map<string, Directory>)

  datatype ScopeState = ScopeState(
    controllerName: string,
    preexisting: bool,
    controllerExpected: bool,
    ready: bool,
    rootIdentity: Option<Identity>,
    simulatorIdentity: Option<Identity>,
    controllerIdentity: Option<Identity>,
    rootBefore: set<Controller>,
    simulatorBefore: set<Controller>,
    rootAdded: set<Controller>,
    simulatorAdded: set<Controller>,
    active: set<string>,
    bindings: map<string, Identity>,
    pending: Option<string>,
    created: bool)

  datatype World = World(available: set<Controller>, root: Directory, simulator: Option<Simulator>,
                         state: Option<ScopeState>)

  /** `move` is allow_root_process_move: the root is a delegated cgroup whose processes may be moved away. */
  datatype Config = Config(move: bool)

  // ----- kernel -----

  datatype Write =
    | SaveState(state: ScopeState)
    | RemoveState
    | MakeSimulator(identity: Identity)
    | RemoveSimulator
    | MakeChild(name: string, identity: Identity)
    | RemoveChild(name: string)
    | KillChild(name: string)
    | EnableRoot(controllers: set<Controller>)
    | DisableRoot(controllers: set<Controller>)
    | EnableSimulator(controllers: set<Controller>)
    | DisableSimulator(controllers: set<Controller>)
    | EnableChild(name: string, controllers: set<Controller>)
    | MoveToChild(pid: nat, name: string)
    | MoveToRoot(pid: nat, name: string)

  function Empty(identity: Identity): Directory {
    Directory(identity, {}, {})
  }

  function WithChild(sim: Simulator, name: string, child: Directory): Simulator {
    sim.(children := sim.children[name := child])
  }

  function Without(w: World, name: string): World {
    if w.simulator.None? then w
    else w.(simulator := Some(w.simulator.value.(children := w.simulator.value.children - {name})))
  }

  function Children(w: World): set<string> {
    if w.simulator.None? then {} else w.simulator.value.children.Keys
  }

  /**
   The world after a write, or None when the kernel refuses it: a controller needs its
   parent to have it (top-down constraint), cannot be enabled above processes or kept
   below (no internal process constraint), and only an empty directory can be removed.
   `KillChild` is RemoveRunCgroup: it kills what runs in the directory, then removes it.
   An empty controller set is never written.
   */
  function Apply(c: Config, w: World, write: Write): Option<World> {
    match write
    case SaveState(state) => Some(w.(state := Some(state)))
    case RemoveState => if w.state.Some? then Some(w.(state := None)) else None
    case MakeSimulator(identity) =>
      if w.simulator.Some? then None else Some(w.(simulator := Some(Simulator(Empty(identity), map[]))))
    case RemoveSimulator =>
      if w.simulator.Some? && w.simulator.value.children == map[] && w.simulator.value.own.procs == {}
      then Some(w.(simulator := None)) else None
    case MakeChild(name, identity) =>
      if w.simulator.Some? && name !in w.simulator.value.children
      then Some(w.(simulator := Some(WithChild(w.simulator.value, name, Empty(identity))))) else None
    case RemoveChild(name) =>
      if w.simulator.Some? && name in w.simulator.value.children && w.simulator.value.children[name].procs == {}
      then Some(Without(w, name)) else None
    case KillChild(name) =>
      if w.simulator.Some? && name in w.simulator.value.children then Some(Without(w, name)) else None
    case EnableRoot(controllers) =>
      if controllers == {} || (controllers <= w.available && (c.move ==> w.root.procs == {}))
      then Some(w.(root := w.root.(enabled := w.root.enabled + controllers))) else None
    case DisableRoot(controllers) =>
      if controllers == {} || w.simulator.None? || controllers !! w.simulator.value.own.enabled
      then Some(w.(root := w.root.(enabled := w.root.enabled - controllers))) else None
    case EnableSimulator(controllers) =>
      if w.simulator.Some? &&
         (controllers == {} || (controllers <= w.root.enabled && w.simulator.value.own.procs == {}))
      then Some(w.(simulator := Some(w.simulator.value.(
                     own := w.simulator.value.own.(enabled := w.simulator.value.own.enabled + controllers)))))
      else None
    case DisableSimulator(controllers) =>
      if w.simulator.Some? &&
         forall name | name in w.simulator.value.children :: controllers !! w.simulator.value.children[name].enabled
      then Some(w.(simulator := Some(w.simulator.value.(
                     own := w.simulator.value.own.(enabled := w.simulator.value.own.enabled - controllers)))))
      else None
    case EnableChild(name, controllers) =>
      if w.simulator.Some? && name in w.simulator.value.children &&
         (controllers == {} ||
          (controllers <= w.simulator.value.own.enabled && w.simulator.value.children[name].procs == {}))
      then
        var child := w.simulator.value.children[name];
        Some(w.(simulator := Some(WithChild(w.simulator.value, name,
                                            child.(enabled := child.enabled + controllers)))))
      else None
    case MoveToChild(pid, name) =>
      if pid in w.root.procs && w.simulator.Some? && name in w.simulator.value.children &&
         w.simulator.value.children[name].enabled == {}
      then
        var child := w.simulator.value.children[name];
        Some(w.(root := w.root.(procs := w.root.procs - {pid}),
                simulator := Some(WithChild(w.simulator.value, name, child.(procs := child.procs + {pid})))))
      else None
    case MoveToRoot(pid, name) =>
      if w.simulator.Some? && name in w.simulator.value.children && pid in w.simulator.value.children[name].procs &&
         (c.move ==> w.root.enabled == {})
      then
        var child := w.simulator.value.children[name];
        Some(w.(root := w.root.(procs := w.root.procs + {pid}),
                simulator := Some(WithChild(w.simulator.value, name, child.(procs := child.procs - {pid})))))
      else None
  }

  /** What the kernel guarantees of any hierarchy, before the scope exists. */
  ghost predicate KernelValid(c: Config, w: World) {
    && w.root.enabled <= w.available
    && (c.move && w.root.procs != {} ==> w.root.enabled == {})
    && (w.simulator.Some? ==>
          var sim := w.simulator.value;
          && sim.own.enabled <= w.root.enabled
          && (sim.own.procs != {} ==> sim.own.enabled == {})
          && Below(sim.own.identity, w.root.identity)
          && forall name | name in sim.children :: sim.children[name].enabled <= sim.own.enabled)
  }

  /** A directory inside another one: same device and mount, another inode. */
  predicate Below(inner: Identity, outer: Identity) {
    inner.device == outer.device && inner.mount == outer.mount && inner.inode != outer.inode
  }

  // ----- the loader -----

  const CONTROLLER_PREFIX := ".bbp-controller-v1-"

  predicate OwnedControllerName(name: string) {
    CONTROLLER_PREFIX <= name && |name| == |CONTROLLER_PREFIX| + 16
  }

  /** A run's resource name: 32 lower-case hexadecimal digits. */
  predicate ResourceName(name: string) {
    && |name| == 32
    && forall i | 0 <= i < |name| :: '0' <= name[i] <= '9' || 'a' <= name[i] <= 'f'
  }

  /** RequireSafeRunId. */
  predicate SafeRunId(run: string) {
    && 0 < |run| <= 32
    && forall i | 0 <= i < |run| ::
         'a' <= run[i] <= 'z' || 'A' <= run[i] <= 'Z' || '0' <= run[i] <= '9' || run[i] == '-' || run[i] == '_'
  }

  predicate InUse(state: ScopeState) {
    state.active != {} || state.pending.Some?
  }

  /** The consistency checks of LoadCgroupScopeState on a current-version state. */
  predicate LoaderAccepts(c: Config, state: ScopeState) {
    && (forall run | run in state.active :: SafeRunId(run))
    && (if state.pending.Some? then SafeRunId(state.pending.value) else !state.created)
    && (forall name | name in state.bindings ::
          ResourceName(name) && (name in state.active || (state.created && state.pending == Some(name))))
    && OwnedControllerName(state.controllerName)
    && state.rootAdded <= MANAGED && state.simulatorAdded <= MANAGED
    && state.rootBefore !! state.rootAdded && state.simulatorBefore !! state.simulatorAdded
    && (!state.preexisting ==> state.simulatorBefore == {})
    && state.rootIdentity.Some?
    && (state.preexisting ==> state.simulatorIdentity.Some?)
    && (state.controllerIdentity.Some? ==> state.controllerExpected && state.simulatorIdentity.Some?)
    && (!state.controllerExpected ==> state.rootAdded == {})
    && (InUse(state) ==> state.simulatorIdentity.Some?)
    && (InUse(state) && state.controllerExpected ==> state.controllerIdentity.Some?)
    && (state.ready ==> !InUse(state) && state.bindings == map[] && !state.created)
    && (state.simulatorIdentity.Some? ==> Below(state.simulatorIdentity.value, state.rootIdentity.value))
    && (state.controllerIdentity.Some? ==>
          && Below(state.controllerIdentity.value, state.simulatorIdentity.value)
          && state.controllerIdentity.value.inode != state.rootIdentity.value.inode)
  }

  // ----- binding -----

  /** BindCgroupScope and RequireBoundScopeHierarchy accept the hierarchy they find. */
  predicate BindAccepts(w: World, state: ScopeState) {
    && state.rootIdentity == Some(w.root.identity)
    && (w.simulator.Some? ==> state.simulatorIdentity == Some(w.simulator.value.own.identity))
    && (w.simulator.None? ==>
          !state.preexisting && !InUse(state) && (state.simulatorIdentity.Some? ==> state.ready))
    && (!state.controllerExpected ==> state.controllerIdentity.None?)
    && (state.controllerExpected && w.simulator.Some? ==>
          if state.controllerName in w.simulator.value.children
          then state.controllerIdentity == Some(w.simulator.value.children[state.controllerName].identity)
          else !InUse(state) && (state.controllerIdentity.Some? ==> state.ready))
    && state.rootAdded == w.available * MANAGED - state.rootBefore
    && state.simulatorAdded == w.available * MANAGED - state.simulatorBefore
  }

  // ----- a new scope -----

  function ResourceChildren(w: World): set<string> {
    if w.simulator.None? then {}
    else set name | name in w.simulator.value.children && ResourceName(name)
  }

  /** The hierarchy without the resource-named cgroups that are there. */
  function Bare(w: World): World {
    if w.simulator.None? then w
    else w.(simulator := Some(w.simulator.value.(children := w.simulator.value.children - ResourceChildren(w))))
  }

  function SimulatorBefore(w: World): set<Controller> {
    if w.simulator.None? then {} else w.simulator.value.own.enabled
  }

  /** NewCgroupScopeState, once its availability checks passed. */
  function NewState(c: Config, w: World, controllerName: string): ScopeState {
    ScopeState(
      controllerName, w.simulator.Some?, c.move, false, Some(w.root.identity),
      if w.simulator.Some? then Some(w.simulator.value.own.identity) else None, None,
      w.root.enabled, SimulatorBefore(w),
      w.available * MANAGED - w.root.enabled, w.available * MANAGED - SimulatorBefore(w),
      ResourceChildren(w), map[], None, false)
  }

  /** The checks NewCgroupScopeState makes before it publishes anything. */
  predicate CanBegin(c: Config, w: World) {
    MANAGED <= w.available && (!c.move ==> MANAGED <= w.root.enabled)
  }

  /**
   The first published state passes the loader exactly when no resource-named cgroup is
   already under the simulator, or no scope controller is expected: otherwise the scope
   is "in use" before its controller identity is recorded.
   */
  lemma FirstStateLoads(c: Config, w: World, controllerName: string)
    requires KernelValid(c, w) && CanBegin(c, w) && OwnedControllerName(controllerName)
    ensures LoaderAccepts(c, NewState(c, w, controllerName)) <==> ResourceChildren(w) == {} || !c.move
  {
    var state := NewState(c, w, controllerName);
    assert InUse(state) <==> ResourceChildren(w) != {};
    if !c.move {
      assert state.rootAdded == {};
    }
    if w.simulator.None? { assert ResourceChildren(w) == {}; }
  }
}
