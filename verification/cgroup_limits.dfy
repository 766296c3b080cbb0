/**
 Where the scope protocol stops keeping its promise: cgroups of a run's name that were
 there before the scope, and concrete hierarchies in which each refusal happens.
 */
module CgroupLimits {
  import opened Wrappers
  import opened CgroupWorld
  import opened CgroupScope
  import opened CgroupStart
  import opened CgroupCrash

  // ----- announced runs and older directories -----

  /** A started scope without a run, to which one with this name can be added. */
  ghost predicate Addable(c: Config, w0: World, w: World, run: string) {
    && Origin(c, w0) && Mid(c, w0, w) && Idle(w) && !w.state.value.ready && ControllerReady(c, w, w.state.value)
    && SafeRunId(run) && run != w.state.value.controllerName
  }

  function Announced(w: World, run: string): World
    requires w.state.Some?
  {
    w.(state := Some(Pending(w.state.value, run)))
  }

  lemma AnnouncedIsMid(c: Config, w0: World, w: World, run: string)
    requires Addable(c, w0, w, run)
    ensures Apply(c, w, SaveState(Pending(w.state.value, run))) == Some(Announced(w, run))
    ensures Mid(c, w0, Announced(w, run))
    ensures Forgotten(Pending(w.state.value, run), run) == w.state.value
  {
    IdleForgets(c, w0, w, run);
    hide Mid, Origin, LoaderAccepts;
    assert w.(state := Some(w.state.value)) == w;
    PendStep(c, w0, w, w.state.value, run);
  }

  /**
   A preparation that dies between announcing a run and its mkdir, beside a directory of
   that name: removing the run then takes the directory, and what restoration reaches
   afterwards is the original hierarchy without it.
   */
  lemma AnnouncedRunTakesDirectory(c: Config, w0: World, w: World, run: string, order: seq<nat>)
    requires Addable(c, w0, w, run) && run in Children(w0) && !Held(w0, w.state.value)
    requires Enumerates(order, ControllerProcs(w))
    ensures var died, left := Announced(w, run), Without(w, run);
            && Mid(c, w0, died) && Foreign(died, run)
            && Exec(c, died, [KillChild(run), SaveState(w.state.value)]) == Some(left)
            && !Belongs(c, w0, left)
            && Exec(c, left, RestoreScript(left, order)) == Some(Without(w0, run)) && Without(w0, run) != w0
  {
    AnnouncedIsMid(c, w0, w, run);
    OriginalStays(c, w0, w, run);
    hide Mid, Origin, LoaderAccepts, Belongs, ControllerReady;
    var died, left := Announced(w, run), Without(w, run);
    ForeignStep(c, w0, died, run);
    var bare := Without(w0, run);
    ForgetStep(c, bare, Without(died, run), Pending(w.state.value, run), run);
    assert left == Without(died, run).(state := Some(w.state.value));
    if Belongs(c, w0, left) { BelongingKeeps(c, w0, left); }
    TwoWrites(c, died, KillChild(run), SaveState(w.state.value));
    assert ControllerProcs(left) == ControllerProcs(w);
    RestoreCrashPoints(c, bare, left, order);
  }

  // ----- runs made but not recorded -----

  function Made(w: World, run: string, identity: Identity): World
    requires w.simulator.Some?
  {
    w.(simulator := Some(WithChild(w.simulator.value, run, Empty(identity))))
  }

  /**
   A preparation that dies between the mkdir of a run and the write that records it:
   removing the run by name takes exactly its directory, and restoration then ends at
   the original hierarchy.
   */
  lemma UnrecordedRunIsReclaimed(c: Config, w0: World, w: World, run: string, identity: Identity, order: seq<nat>)
    requires Addable(c, w0, w, run) && run !in Children(w) && !Held(w0, w.state.value)
    requires Enumerates(order, ControllerProcs(w))
    ensures var died := Made(Announced(w, run), run, identity);
            && Apply(c, Announced(w, run), MakeChild(run, identity)) == Some(died) && OrphanOf(c, w0, died, run)
            && LoaderAccepts(c, died.state.value) && BindAccepts(died, died.state.value)
            && Exec(c, died, [KillChild(run), SaveState(w.state.value)]) == Some(w)
            && Exec(c, w, RestoreScript(w, order)) == Some(w0)
  {
    hide Mid, Origin, LoaderAccepts, BindAccepts, Exec, RestoreScript;
    AnnouncedIsMid(c, w0, w, run);
    OrphanStep(c, w0, Announced(w, run), run, identity);
    var died := Made(Announced(w, run), run, identity);
    OrphanBinds(c, w0, died);
    ReclaimStep(c, w0, died, run);
    TwoWrites(c, died, KillChild(run), SaveState(w.state.value));
    assert Announced(w, run).(state := Some(w.state.value)) == w;
    RestoreCrashPoints(c, w0, w, order);
  }

  /**
   Recovery instead clears the pending mark and leaves the directory to the hierarchy:
   restoration then ends with it when the simulator was there before, and is refused when
   the scope made the simulator.
   */
  lemma UnrecordedRunIsLeft(c: Config, w0: World, w: World, run: string, identity: Identity, order: seq<nat>)
    requires Addable(c, w0, w, run) && run !in Children(w) && !Held(w0, w.state.value)
    requires Enumerates(order, ControllerProcs(w))
    ensures var died := Made(Announced(w, run), run, identity);
            var kept, left := Made(w, run, identity), Stranded(w0, died, run);
            && Apply(c, died, SaveState(w.state.value)) == Some(kept) && Mid(c, left, kept) && run in Children(left)
            && Exec(c, kept, RestoreScript(kept, order)) == (if w.state.value.preexisting then Some(left) else None)
  {
    hide Mid, Origin, LoaderAccepts, Exec, RestoreScript;
    AnnouncedIsMid(c, w0, w, run);
    OrphanStep(c, w0, Announced(w, run), run, identity);
    var died := Made(Announced(w, run), run, identity);
    StrandStep(c, w0, died, run);
    var kept, left := Made(w, run, identity), Stranded(w0, died, run);
    assert died.(state := Some(w.state.value)) == kept;
    assert ControllerProcs(kept) == ControllerProcs(w);
    if w.state.value.preexisting {
      RestoreCrashPoints(c, left, kept, order);
    } else {
      HeldSimulatorStays(c, kept, run, order);
    }
  }

  /** The kernel does not remove a simulator with something in it. */
  lemma HeldSimulatorStays(c: Config, w: World, run: string, order: seq<nat>)
    requires w.state.Some? && !w.state.value.preexisting && run in Children(w) && run != w.state.value.controllerName
    ensures Exec(c, w, RestoreScript(w, order)).None?
  {
    hide Exec, Apply, UndoScript;
    var state := w.state.value;
    var front := UndoScript(w, order) + (if ControllerPresent(w) then [RemoveChild(state.controllerName)] else []);
    UndoRemovesNothing(w, order, run);
    StrayStays(c, w, front, run);
    var end := Exec(c, w, front);
    if end.Some? { FullSimulatorStays(c, end.value, run); }
    ExecLast(c, w, front, RemoveSimulator);
    ExecLast(c, w, front + [RemoveSimulator], RemoveState);
    assert RestoreScript(w, order) == front + [RemoveSimulator] + [RemoveState];
  }

  lemma FullSimulatorStays(c: Config, w: World, run: string)
    requires run in Children(w)
    ensures Apply(c, w, RemoveSimulator).None?
  {}

  lemma UndoRemovesNothing(w: World, order: seq<nat>, run: string)
    requires w.state.Some?
    ensures forall i | 0 <= i < |UndoScript(w, order)| ::
              UndoScript(w, order)[i] != RemoveChild(run) && UndoScript(w, order)[i] != KillChild(run)
  {}

  lemma OriginalStays(c: Config, w0: World, w: World, run: string)
    requires Mid(c, w0, w) && run in Children(w0)
    ensures run in Children(w)
  {
    assert run in ChildrenBefore(w0);
  }

  lemma IdleForgets(c: Config, w0: World, w: World, run: string)
    requires Mid(c, w0, w) && Idle(w)
    ensures Forgotten(Pending(w.state.value, run), run) == w.state.value
  {
    var state := w.state.value;
    assert state.active - {run} == state.active;
    assert forall name | name in state.bindings :: false;
    assert state.bindings - {run} == state.bindings;
  }

  lemma TwoWrites(c: Config, w: World, first: Write, second: Write)
    ensures Exec(c, w, [first, second]) == Then(c, Apply(c, w, first), second)
  {
    hide Exec, Apply;
    NoWrites(c, w);
    ExecLast(c, w, [], first);
    ExecLast(c, w, [first], second);
    assert [] + [first] == [first] && [first] + [second] == [first, second];
  }

  // ----- adopted runs -----

  /** A hierarchy a scope without a controller can begin in, whatever cgroups it holds. */
  ghost predicate Shared(c: Config, w0: World) {
    Origin(c, w0) && !c.move && w0.simulator.Some? && CanTake(w0)
  }

  /**
   A scope that adopts resource-named cgroups as its runs belongs to the hierarchy
   without them: removing them as runs, then restoring, never brings them back.
   */
  lemma AdoptedRunsBelong(c: Config, w0: World, name: string)
    requires Shared(c, w0) && OwnedControllerName(name) && name !in Children(w0)
    ensures var state := NewState(c, w0, name);
            var end := Exec(c, w0, [SaveState(state), EnableSimulator(state.simulatorAdded)]);
            && state.active == ResourceChildren(w0) && (InUse(state) <==> Bare(w0) != w0)
            && Origin(c, Bare(w0)) && end.Some? && Mid(c, Bare(w0), end.value)
  {
    var state := NewState(c, w0, name);
    BareIsOrigin(c, w0);
    PublishStep(c, w0, name);
    var published := w0.(state := Some(state));
    assert published.(state := Some(state)) == published;
    assert MANAGED <= w0.root.enabled && (MANAGED <= SimulatorBefore(w0) ==> state.simulatorAdded == {});
    hide Mid, LoaderAccepts;
    EnableSimulatorStep(c, Bare(w0), published, state);
    var next := Apply(c, published, EnableSimulator(state.simulatorAdded)).value;
    assert next.(state := Some(state)) == next;
    TwoWrites(c, w0, SaveState(state), EnableSimulator(state.simulatorAdded));
  }

  /**
   Dying before the simulator has its controllers leaves such a scope in use without
   them: later preparations reuse it, and enabling a run's controllers stays refused.
   */
  lemma AdoptedScopeStarves(c: Config, w0: World, name: string, run: string, identity: Identity)
    requires Shared(c, w0) && OwnedControllerName(name) && ResourceChildren(w0) != {} && run !in Children(w0)
    ensures var died := w0.(state := Some(NewState(c, w0, name)));
            && InUse(died.state.value)
            && (MANAGED <= SimulatorBefore(w0) <==>
                  Exec(c, died, [MakeChild(run, identity), EnableChild(run, MANAGED)]).Some?)
  {
    var died := w0.(state := Some(NewState(c, w0, name)));
    TwoWrites(c, died, MakeChild(run, identity), EnableChild(run, MANAGED));
    assert died.state.value.active != {};
    assert Cpu in MANAGED;
  }

  // ----- concrete hierarchies -----

  const SCOPE_NAME := ".bbp-controller-v1-0123456789abcdef"

  const RESOURCE := "0123456789abcdef0123456789abcdef"

  function Dir(inode: nat, enabled: set<Controller>, procs: set<nat>): Directory {
    Directory(Identity(1, inode, 1), enabled, procs)
  }

  /** A simulator cgroup with one child, under a root that may have its controllers enabled. */
  function Host(rootEnabled: set<Controller>, own: Directory, child: string): World {
    World(MANAGED, Dir(1, rootEnabled, {}), Some(Simulator(own, map[child := Dir(3, {}, {})])), None)
  }

  lemma Named()
    ensures OwnedControllerName(SCOPE_NAME) && ResourceName(RESOURCE)
    ensures SafeRunId("old") && !ResourceName("old") && "old" != SCOPE_NAME && RESOURCE != SCOPE_NAME
  {
    assert SCOPE_NAME[..|CONTROLLER_PREFIX|] == CONTROLLER_PREFIX;
    assert SCOPE_NAME[0] == '.';
  }

  /** A resource-named cgroup makes the first state of a delegated scope one the loader refuses. */
  lemma FirstStateRefused()
    ensures var c, w := Config(true), Host({}, Dir(2, {}, {}), RESOURCE);
            KernelValid(c, w) && CanBegin(c, w) && !LoaderAccepts(c, NewState(c, w, SCOPE_NAME))
  {
    Named();
    var w := Host({}, Dir(2, {}, {}), RESOURCE);
    assert RESOURCE in ResourceChildren(w);
    FirstStateLoads(Config(true), w, SCOPE_NAME);
  }

  /** A process in the simulator cgroup makes the kernel refuse the start. */
  lemma StartRefused()
    ensures var c, w := Config(false), Host(MANAGED, Dir(2, {}, {7}), "old");
            var state := NewState(c, w, SCOPE_NAME);
            && Origin(c, w) && !CanTake(w) && Running(c, w, w, state)
            && Exec(c, w, [SaveState(state), EnableSimulator(state.simulatorAdded)]).None?
  {
    Named();
    var c, w := Config(false), Host(MANAGED, Dir(2, {}, {7}), "old");
    var state := NewState(c, w, SCOPE_NAME);
    BareIsOrigin(c, w);
    PublishStep(c, w, SCOPE_NAME);
    assert Cpu in state.simulatorAdded;
    TwoWrites(c, w, SaveState(state), EnableSimulator(state.simulatorAdded));
    assert 7 in w.simulator.value.own.procs;
  }

  const PLAIN: Config := Config(false)

  const QUIET: World := Host(MANAGED, Dir(2, MANAGED, {}), "old")

  function Up(): World {
    QUIET.(state := Some(NewState(PLAIN, QUIET, SCOPE_NAME)))
  }

  /** A scope that was started and has no run. */
  lemma UpIsMid(run: string)
    requires SafeRunId(run)
    ensures var state := NewState(PLAIN, QUIET, SCOPE_NAME);
            Exec(PLAIN, QUIET, [SaveState(state), EnableSimulator(state.simulatorAdded)]) == Some(Up())
    ensures Origin(PLAIN, QUIET) && Addable(PLAIN, QUIET, Up(), run) && MANAGED <= Enabled(Up())
    ensures ControllerProcs(Up()) == {} && Up().state.value.preexisting && !Held(QUIET, Up().state.value)
  {
    Named();
    NotSafe(run);
    NoResource();
    BareIsOrigin(PLAIN, QUIET);
    PublishStep(PLAIN, QUIET, SCOPE_NAME);
    var state := Up().state.value;
    assert state.simulatorAdded == {} && QUIET.simulator.value.own.enabled + {} == MANAGED;
    TwoWrites(PLAIN, QUIET, SaveState(state), EnableSimulator(state.simulatorAdded));
  }

  lemma NoResource()
    ensures Origin(PLAIN, QUIET) && ResourceChildren(QUIET) == {} && SCOPE_NAME !in ChildrenBefore(QUIET)
  {
    Named();
  }

  lemma NotSafe(run: string)
    requires SafeRunId(run)
    ensures run != SCOPE_NAME
  {
    assert SCOPE_NAME[0] == '.' && run[0] != '.';
  }

  /** The directory "old" is lost when a preparation of a run "old" dies before its mkdir and the run is removed. */
  lemma OldDirectoryIsLost()
    ensures Mid(PLAIN, QUIET, Announced(Up(), "old")) && Foreign(Announced(Up(), "old"), "old")
    ensures Exec(PLAIN, Announced(Up(), "old"), [KillChild("old"), SaveState(Up().state.value)]) ==
              Some(Without(Up(), "old"))
    ensures !Belongs(PLAIN, QUIET, Without(Up(), "old"))
  {
    Named();
    UpIsMid("old");
    hide Mid, Origin, LoaderAccepts, SafeRunId, OwnedControllerName, Addable, Belongs;
    assert "old" in Children(QUIET);
    AnnouncedRunTakesDirectory(PLAIN, QUIET, Up(), "old", []);
  }

  const SPOT: Identity := Identity(1, 4, 1)

  /** What a preparation of a run that dies after its mkdir leaves: the directory is reclaimed, or left for good. */
  lemma UnrecordedRun()
    ensures var died := Made(Announced(Up(), RESOURCE), RESOURCE, SPOT);
            && OrphanOf(PLAIN, QUIET, died, RESOURCE)
            && Exec(PLAIN, died, [KillChild(RESOURCE), SaveState(Up().state.value)]) == Some(Up())
            && Exec(PLAIN, Up(), RestoreScript(Up(), [])) == Some(QUIET)
            && var kept := Made(Up(), RESOURCE, SPOT);
               && Apply(PLAIN, died, SaveState(Up().state.value)) == Some(kept)
               && Exec(PLAIN, kept, RestoreScript(kept, [])) == Some(Made(QUIET, RESOURCE, SPOT))
  {
    Named();
    SafeResource();
    UpIsMid(RESOURCE);
    hide Mid, Origin, LoaderAccepts, BindAccepts, SafeRunId, OwnedControllerName, Addable;
    assert RESOURCE !in Children(Up());
    UnrecordedRunIsReclaimed(PLAIN, QUIET, Up(), RESOURCE, SPOT, []);
    UnrecordedRunIsLeft(PLAIN, QUIET, Up(), RESOURCE, SPOT, []);
  }

  // ----- a simulator the scope made -----

  const EMPTY: World := World(MANAGED, Dir(1, MANAGED, {}), None, None)

  function Own(): World {
    var state := NewState(PLAIN, EMPTY, SCOPE_NAME).(simulatorIdentity := Some(Identity(1, 2, 1)));
    World(MANAGED, Dir(1, MANAGED, {}), Some(Simulator(Dir(2, MANAGED, {}), map[])), Some(state))
  }

  lemma OwnIsMid(run: string)
    requires SafeRunId(run)
    ensures Addable(PLAIN, EMPTY, Own(), run) && ControllerProcs(Own()) == {}
    ensures !Own().state.value.preexisting && !Held(EMPTY, Own().state.value)
  {
    Named();
    NotSafe(run);
    BareIsOrigin(PLAIN, EMPTY);
    PublishStep(PLAIN, EMPTY, SCOPE_NAME);
    var state := NewState(PLAIN, EMPTY, SCOPE_NAME);
    hide Mid, LoaderAccepts;
    MakeSimulatorStep(PLAIN, EMPTY, EMPTY, state, Identity(1, 2, 1));
    var made, named := Apply(PLAIN, EMPTY, MakeSimulator(Identity(1, 2, 1))).value, Own().state.value;
    EnableSimulatorStep(PLAIN, EMPTY, made, named);
    var next := Apply(PLAIN, made, EnableSimulator(named.simulatorAdded)).value;
    assert named.simulatorAdded == MANAGED && {} + MANAGED == MANAGED;
    assert next.(state := Some(named)) == Own();
  }

  /** Left in a simulator the scope made, the directory keeps the scope from ever being restored. */
  lemma UnrecordedRunHoldsSimulator()
    ensures var died := Made(Announced(Own(), RESOURCE), RESOURCE, SPOT);
            var kept := Made(Own(), RESOURCE, SPOT);
            && OrphanOf(PLAIN, EMPTY, died, RESOURCE) && Apply(PLAIN, died, SaveState(Own().state.value)) == Some(kept)
            && Exec(PLAIN, kept, RestoreScript(kept, [])).None?
  {
    SafeResource();
    OwnIsMid(RESOURCE);
    hide Mid, Origin, LoaderAccepts, BindAccepts, SafeRunId, OwnedControllerName, Addable;
    assert RESOURCE !in Children(Own());
    UnrecordedRunIsReclaimed(PLAIN, EMPTY, Own(), RESOURCE, SPOT, []);
    UnrecordedRunIsLeft(PLAIN, EMPTY, Own(), RESOURCE, SPOT, []);
  }

  // ----- recovery that is refused -----

  /** A world as `Mid` allows it in which recovery refuses the pending run. */
  ghost predicate Unresumable(c: Config, w0: World, w: World) {
    Origin(c, w0) && Mid(c, w0, w) && !Resumable(w)
  }

  /**
   Two deaths after which every later preparation is refused: with an unbound run's mkdir
   recorded, and between removing a bound pending run and forgetting it.
   */
  lemma DeathsRecoveryRefuses(c: Config, w0: World, w: World, run: string, identity: Identity)
    requires Addable(c, w0, w, run) && run !in Children(w) && ResourceName(run)
    ensures var state := Pending(w.state.value, run);
            && Unresumable(c, w0, Made(w, run, identity).(state := Some(Created(state, run, None))))
            && Unresumable(c, w0, w.(state := Some(Created(state, run, Some(identity)))))
  {
    hide Mid, Origin, LoaderAccepts, SafeRunId, OwnedControllerName, ResourceName;
    AnnouncedIsMid(c, w0, w, run);
    NothingBound(c, w0, w);
    var state, world := Pending(w.state.value, run), Announced(w, run);
    assert world.(state := Some(state)) == world;
    MakeRunStep(c, w0, world, state, run, identity, false);
    MakeRunStep(c, w0, world, state, run, identity, true);
    var made, bound := Made(world, run, identity), Created(state, run, Some(identity));
    DropRunStep(c, w0, made, bound, run);
    MadeIsUndone(c, world, run, identity);
  }

  lemma NothingBound(c: Config, w0: World, w: World)
    requires Mid(c, w0, w) && Idle(w)
    ensures w.state.value.bindings == map[]
  {
    assert forall name | name in w.state.value.bindings :: false;
  }

  lemma RecoveryRefused()
    ensures var state := Pending(Up().state.value, RESOURCE);
            && Unresumable(PLAIN, QUIET, Made(Up(), RESOURCE, SPOT).(state := Some(Created(state, RESOURCE, None))))
            && Unresumable(PLAIN, QUIET, Up().(state := Some(Created(state, RESOURCE, Some(SPOT)))))
  {
    hide Mid, Origin, LoaderAccepts, SafeRunId, OwnedControllerName, ResourceName, Addable, Unresumable;
    Named();
    SafeResource();
    UpIsMid(RESOURCE);
    assert RESOURCE !in Children(Up());
    DeathsRecoveryRefuses(PLAIN, QUIET, Up(), RESOURCE, SPOT);
  }

  lemma SafeResource()
    ensures SafeRunId(RESOURCE)
  {}
}
