/**
 The scope commands as the program runs them: one lock holder changes the hierarchy and
 the state file write by write, any write may fail before or after taking effect, and
 the process may die before any of them.  Every command may follow every other, whatever
 the earlier ones left.
 */
module CgroupHost {
  import opened Wrappers
  import opened CgroupWorld
  import opened CgroupScope
  import opened CgroupStart
  import opened CgroupShift

  datatype Fate = Succeeds | FailsBefore | FailsAfter | Dies

  datatype Outcome = Done | Failed | Crashed

  datatype Command =
    | Prepare(run: string, bound: bool, name: string) | Remove(run: string) | Work(run: string, procs: set<nat>)

  /** Writes that leave the names under the simulator as they are. */
  predicate KeepsNames(write: Write) {
    !write.MakeSimulator? && !write.RemoveSimulator? && !write.MakeChild? && !write.RemoveChild? && !write.KillChild?
  }

  /** The run a state is about to make. */
  function Awaited(state: Option<ScopeState>): set<string> {
    if state.Some? && state.value.pending.Some? then {state.value.pending.value} else {}
  }

  /** The state says this about the simulator, and awaits none but these runs. */
  predicate Heir(state: Option<ScopeState>, preexisting: bool, awaited: set<string>) {
    state.Some? ==> state.value.preexisting == preexisting && Awaited(state) <= awaited
  }

  class Host {
    const config: Config
    /** The hierarchy before any scope, which restoration returns to. */
    ghost var origin: World
    var world: World
    /** What happens to the coming writes; once used up, every write succeeds. */
    var faults: seq<Fate>

    constructor (config: Config, world: World, faults: seq<Fate>)
      requires Origin(config, world)
      ensures Known() && this.config == config && origin == world && this.world == world && this.faults == faults
    {
      this.config, origin, this.world, this.faults := config, world, world, faults;
    }

    /** The invariant of all commands: the world belongs to the hierarchy that is restored in the end. */
    ghost predicate Known()
      reads this
    {
      Origin(config, origin) && Belongs(config, origin, world)
    }

    /** The next command will load and bind what is there. */
    ghost predicate Usable()
      reads this
    {
      && Origin(config, origin)
      && (world == origin || Mid(config, origin, world) || Orphaned(config, origin, world))
    }

    /** The simulator was there before the scope. */
    ghost predicate Firm()
      reads this
    {
      origin.simulator.Some? && (world.state.Some? ==> world.state.value.preexisting)
    }

    /**
     The hierarchy to restore is the given one but for these directories, and a simulator
     that was there before the scope is the same one.
     */
    ghost predicate Traces(origin0: World, firm: bool, stranded: set<string>, lost: set<string>)
      reads this
    {
      Shifted(origin0, origin, stranded, lost) && (firm ==> Firm() && SameSimulator(origin0, origin))
    }

    /** No fault is to come, no preparation was cut short, and there is nothing to adopt. */
    ghost predicate Calm()
      reads this
    {
      && faults == [] && Origin(config, origin) && ResourceChildren(origin) == {}
      && (world == origin || (Mid(config, origin, world) && world.state.value.pending.None?))
    }

    /** These runs are active, and each has its directory. */
    ghost predicate Busy(runs: set<string>)
      reads this
    {
      world.state.Some? && world.state.value.active == Live(world) == runs
    }

    /** Calm, and the scope, if there is one, has a run and will be given up with the last. */
    ghost predicate Orderly()
      reads this
    {
      Calm() && (origin.simulator.Some? ==> Firm()) && (world == origin || (Live(world) != {} && Busy(Live(world))))
    }

    /** Every later command refuses what is there. */
    ghost predicate Refused()
      reads this
    {
      Headless(config, origin, world) || Unloadable(config, origin, world)
    }

    /** One write; the kernel may refuse it. */
    method Perform(write: Write) returns (outcome: Outcome)
      modifies `world, `faults
      ensures outcome.Done? ==> Apply(config, old(world), write) == Some(world)
      ensures outcome.Failed? ==> world == old(world) || Apply(config, old(world), write) == Some(world)
      ensures outcome.Crashed? ==> world == old(world)
      ensures old(faults) == [] ==>
                faults == [] && !outcome.Crashed? && (outcome.Done? <==> Apply(config, old(world), write).Some?)
      ensures old(faults) == [] && outcome.Failed? ==> world == old(world)
      ensures KeepsNames(write) ==> Children(world) == Children(old(world))
      ensures world.state == old(world).state || (write.SaveState? && world.state == Some(write.state))
              || (write.RemoveState? && world.state.None?)
    {
      var fate := Succeeds;
      if faults != [] {
        fate, faults := faults[0], faults[1..];
      }
      var next := Apply(config, world, write);
      NamesKept(config, world, write);
      if !write.SaveState? && !write.RemoveState? && next.Some? { StateKept(config, world, write); }
      match fate
      case Dies => return Crashed;
      case FailsBefore => return Failed;
      case FailsAfter =>
        if next.Some? { world := next.value; }
        return Failed;
      case Succeeds =>
        if next.None? { return Failed; }
        world := next.value;
        return Done;
    }

    // ----- restoring -----

    ghost predicate Movable(outward: bool, state: ScopeState)
      reads this
    {
      && Origin(config, origin) && Mid(config, origin, world)
      && world.state == Some(state) && ControllerPresent(world)
      && (if outward then config.move && !state.ready else !InUse(state) && Undone(world))
    }

    function Source(outward: bool): set<nat>
      reads this
    {
      if outward then world.root.procs else ControllerProcs(world)
    }

    lemma MoveStep(outward: bool, state: ScopeState, pid: nat)
      requires Movable(outward, state) && pid in Source(outward)
      ensures var name := state.controllerName;
              var next := Apply(config, world, if outward then MoveToChild(pid, name) else MoveToRoot(pid, name));
              && next.Some? && Mid(config, origin, next.value)
              && next.value.state == world.state && ControllerPresent(next.value)
              && (!outward ==> Undone(next.value) && ControllerProcs(next.value) == ControllerProcs(world) - {pid})
              && (outward ==> next.value.root == world.root.(procs := world.root.procs - {pid}))
    {
      hide Mid, Origin;
      assert world == world.(state := Some(state));
      if outward {
        MoveOutStep(config, origin, world, state, pid);
        var next := Apply(config, world, MoveToChild(pid, state.controllerName)).value;
        assert next == next.(state := Some(state));
      } else {
        MoveBackStep(config, origin, world, pid);
      }
    }

    /** MoveCgroupProcesses between the root and the scope controller. */
    method MoveProcesses(outward: bool, state: ScopeState) returns (outcome: Outcome)
      requires Movable(outward, state)
      modifies `world, `faults
      ensures Movable(outward, state) && Children(world) == Children(old(world))
      ensures outcome.Done? ==> Source(outward) == {}
      ensures old(faults) == [] ==> faults == [] && outcome.Done?
    {
      hide Mid, Origin, Apply, Undone;
      var attempt := 0;
      while attempt < 20
        invariant 0 <= attempt <= 20
        invariant Movable(outward, state) && Children(world) == Children(old(world))
        invariant old(faults) == [] ==> faults == [] && attempt == 0
      {
        var pids := Source(outward);
        while pids != {}
          invariant Movable(outward, state) && Children(world) == Children(old(world))
          invariant pids <= Source(outward)
          invariant old(faults) == [] ==> faults == [] && pids == Source(outward)
          decreases |pids|
        {
          var pid :| pid in pids;
          var name := state.controllerName;
          MoveStep(outward, state, pid);
          outcome := Perform(if outward then MoveToChild(pid, name) else MoveToRoot(pid, name));
          if !outcome.Done? { return; }
          pids := pids - {pid};
        }
        if Source(outward) == {} { return Done; }
        attempt := attempt + 1;
      }
      outcome := Failed;
    }

    /** The checks RestoreCgroupScope makes before it declares the scope ready for removal. */
    predicate ReadyChecks(state: ScopeState)
      reads this
    {
      && ControllerProcs(world) == {}
      && Preserved(world.root.enabled, state.rootBefore, state.rootAdded)
      && (world.simulator.Some? ==>
            && Preserved(world.simulator.value.own.enabled, state.simulatorBefore, state.simulatorAdded)
            && (!state.preexisting ==>
                  world.simulator.value.own.procs == {} &&
                    world.simulator.value.children.Keys <= {state.controllerName}))
    }

    lemma ReadyChecksPass(state: ScopeState)
      requires Origin(config, origin) && Mid(config, origin, world) && world.state == Some(state) && !InUse(state)
      requires Undone(world) && ControllerProcs(world) == {}
      ensures ReadyChecks(state) <==> !Held(origin, state)
    {
      if Held(origin, state) {
        var name :| name in origin.simulator.value.children;
        assert name in ChildrenBefore(origin) && name in world.simulator.value.children.Keys;
        assert name != state.controllerName;
      }
    }

    /** The first half of RestoreCgroupScope, up to and including the checkpoint. */
    method Quiesce(state: ScopeState) returns (outcome: Outcome)
      requires Origin(config, origin) && Mid(config, origin, world)
      requires world.state == Some(state) && !InUse(state) && !state.ready
      modifies `world, `faults
      ensures Mid(config, origin, world) && Idle(world) && Children(world) == Children(old(world))
      ensures outcome.Done? ==> world.state == Some(state.(ready := true)) && !Held(origin, state)
      ensures Held(origin, state) ==> world.state == old(world).state
      ensures world.state == Some(state) || world.state == Some(state.(ready := true))
      ensures old(faults) == [] ==> faults == [] && !outcome.Crashed? && (outcome.Done? <==> !Held(origin, state))
    {
      hide Mid, Origin, Apply, Held;
      if world.simulator.Some? {
        DisableSimulatorStep(config, origin, world);
        outcome := Perform(DisableSimulator(state.simulatorAdded));
        if !outcome.Done? { return; }
      }
      DisableRootStep(config, origin, world);
      outcome := Perform(DisableRoot(state.rootAdded));
      if !outcome.Done? { return; }
      if ControllerPresent(world) {
        outcome := MoveProcesses(false, state);
        if !outcome.Done? { return; }
      }
      outcome := Checkpoint(state);
    }

    /** With everything put back, the state says so. */
    method Checkpoint(state: ScopeState) returns (outcome: Outcome)
      requires Origin(config, origin) && Mid(config, origin, world) && world.state == Some(state) && !InUse(state)
      requires Undone(world) && ControllerProcs(world) == {}
      modifies `world, `faults
      ensures Mid(config, origin, world) && Idle(world) && Children(world) == Children(old(world))
      ensures outcome.Done? ==> world.state == Some(state.(ready := true)) && !Held(origin, state)
      ensures Held(origin, state) ==> world.state == old(world).state
      ensures world.state == Some(state) || world.state == Some(state.(ready := true))
      ensures old(faults) == [] ==> faults == [] && !outcome.Crashed? && (outcome.Done? <==> !Held(origin, state))
    {
      hide Mid, Origin, Apply, Held;
      ReadyChecksPass(state);
      if !ReadyChecks(state) { return Failed; }
      CheckpointStep(config, origin, world);
      outcome := Perform(SaveState(state.(ready := true)));
    }

    /** The second half: remove the directories the scope made, and commit by removing its state. */
    method Dismantle(state: ScopeState) returns (outcome: Outcome)
      requires Origin(config, origin) && Mid(config, origin, world)
      requires world.state == Some(state) && !InUse(state) && state.ready && !Held(origin, state)
      modifies `world, `faults
      ensures world == origin || (Mid(config, origin, world) && Idle(world))
      ensures outcome.Done? ==> world == origin
      ensures world.state.None? || world.state == Some(state)
      ensures old(faults) == [] ==> faults == [] && outcome.Done?
    {
      hide Mid, Origin, Apply;
      if ControllerPresent(world) {
        RemoveControllerStep(config, origin, world);
        outcome := Perform(RemoveChild(state.controllerName));
        if !outcome.Done? { return; }
      }
      if !state.preexisting && world.simulator.Some? {
        RemoveSimulatorStep(config, origin, world);
        outcome := Perform(RemoveSimulator);
        if !outcome.Done? { return; }
      }
      ReadyChecksPassAgain(state);
      if !ReadyChecks(state) || (state.preexisting && world.simulator.None?) { return Failed; }
      CommitStep(config, origin, world);
      outcome := Perform(RemoveState);
    }

    lemma ReadyChecksPassAgain(state: ScopeState)
      requires Origin(config, origin) && Mid(config, origin, world) && world.state == Some(state) && !InUse(state)
      requires state.ready && !Held(origin, state)
      ensures ReadyChecks(state) && (state.preexisting ==> world.simulator.Some?)
    {
      assert Undone(world);
      ReadyChecksPass(state);
    }

    /**
     RestoreCgroupScope.  Interrupted anywhere, it can be run again; finished, nothing of
     the scope is left.  It is refused while runs remain, while an own simulator holds
     something else, and for a hierarchy that does not match the state.
     */
    method Restore(state: ScopeState) returns (outcome: Outcome)
      requires Known() && world.state == Some(state) && LoaderAccepts(config, state)
      requires Mid(config, origin, world) || !BindAccepts(world, state)
      modifies `world, `faults
      ensures Known()
      ensures InUse(state) || !BindAccepts(old(world), state) ==>
                outcome.Failed? && world == old(world) && faults == old(faults)
      ensures Mid(config, origin, old(world)) ==>
                world == origin || (Mid(config, origin, world) && (Idle(old(world)) ==> Idle(world)))
      ensures outcome.Done? ==> world == origin && !Held(origin, state)
      ensures world.state.None? || world.state == Some(state) || world.state == Some(state.(ready := true))
      ensures Held(origin, state) && Mid(config, origin, old(world)) ==>
                && !outcome.Done? && Mid(config, origin, world) && Children(world) == Children(old(world))
                && world.state == old(world).state
      ensures old(faults) == [] && !InUse(state) && Mid(config, origin, old(world)) ==>
                faults == [] && !outcome.Crashed? && (outcome.Done? <==> !Held(origin, state))
    {
      BoundRunsAreInUse(config, state);
      if Mid(config, origin, world) { MidBinds(config, origin, world); HeldIsNotReady(config, origin, world); }
      AtOriginOrNot();
      hide Mid, Origin, Apply, BindAccepts, LoaderAccepts, Held;
      if InUse(state) || state.bindings != map[] { return Failed; }
      if !BindAccepts(world, state) { return Failed; }
      if !state.ready {
        outcome := Quiesce(state);
        if !outcome.Done? { AtOriginOrNot(); return; }
      }
      assert state.ready ==> state.(ready := true) == state;
      HeldLike(origin, state, state.(ready := true));
      outcome := Dismantle(state.(ready := true));
    }

    lemma AtOriginOrNot()
      requires Origin(config, origin)
      ensures Mid(config, origin, world) ==> world != origin
    {}

    // ----- starting -----

    ghost predicate Scope(state: ScopeState)
      reads this
    {
      Origin(config, origin) && Running(config, origin, world, state)
    }

    /** The memory state describes the hierarchy, or it is one that later commands refuse. */
    ghost predicate Tracked(state: ScopeState)
      reads this
    {
      || Scope(state)
      || (Origin(config, origin) && world.state == Some(state) && Headless(config, origin, world) && !InUse(state))
      || (Origin(config, origin) && world.state == Some(state) && Unloadable(config, origin, world)
          && state.active != {})
    }

    lemma Saved(state: ScopeState)
      requires Scope(state) && world.state == Some(state)
      ensures Mid(config, origin, world)
    {
      assert world == world.(state := Some(state));
    }

    /** Publishing the memory state makes it the durable one. */
    method Save(state: ScopeState) returns (outcome: Outcome)
      requires Scope(state) && Known()
      modifies `world, `faults
      ensures world == old(world) || world == old(world).(state := Some(state))
      ensures Known() && Scope(state)
      ensures outcome.Done? ==> world.state == Some(state) && Mid(config, origin, world)
      ensures old(faults) == [] ==> faults == [] && outcome.Done?
    {
      hide Mid, Origin, Belongs, Apply;
      outcome := Perform(SaveState(state));
      SaveEffect(config, state);
      assert old(world).(state := Some(state)).(state := Some(state)) == old(world).(state := Some(state));
      if world != old(world) { MidBelongs(config, origin, world); }
    }

    method MakeScopeSimulator(state0: ScopeState) returns (outcome: Outcome, state: ScopeState)
      requires Scope(state0) && world.state == Some(state0) && !InUse(state0) && world.simulator.None?
      modifies `world, `faults
      ensures Known() && (!outcome.Crashed? ==> Tracked(state))
      ensures state == state0.(simulatorIdentity := state.simulatorIdentity)
      ensures world.state == Some(state0) || world.state == Some(state)
      ensures outcome.Done? ==>
                && Scope(state) && world.state == Some(state) && world.root == old(world).root
                && world.simulator.Some? && world.simulator.value.own.procs == {}
                && world.simulator.value.children == map[]
      ensures old(faults) == [] ==> faults == [] && outcome.Done?
    {
      state := state0;
      Saved(state);
      assert Below(Identity(world.root.identity.device, world.root.identity.inode + 1, world.root.identity.mount),
                   world.root.identity);
      var identity: Identity :| Below(identity, world.root.identity);
      MakeSimulatorStep(config, origin, world, state, identity);
      UnnamedSimulator(state);
      HeadlessSimulator(config, origin, world, identity);
      hide Mid, Origin, Headless, Belongs;
      MidBelongs(config, origin, world);
      HeadlessBelongs(config, origin, Apply(config, world, MakeSimulator(identity)).value);
      outcome := Perform(MakeSimulator(identity));
      if !outcome.Done? { return; }
      state := state.(simulatorIdentity := Some(identity));
      outcome := Save(state);
    }

    lemma UnnamedSimulator(state: ScopeState)
      requires Scope(state) && world.state == Some(state) && world.simulator.None?
      ensures state.simulatorIdentity.None?
    {}

    /** A scope that adopts resource-named cgroups was published before its controller exists. */
    ghost predicate Adopts(state: ScopeState, w0: World)
      reads this
    {
      && Origin(config, w0) && origin == Bare(w0) && config.move && ResourceChildren(w0) != {}
      && OwnedControllerName(state.controllerName) && state.controllerName !in ChildrenBefore(w0)
      && state == NewState(config, w0, state.controllerName) && world == w0.(state := Some(state))
    }

    method MakeScopeController(state0: ScopeState, ghost w0: World) returns (outcome: Outcome, state: ScopeState)
      requires config.move && world.simulator.Some? && state0.controllerName !in world.simulator.value.children
      requires Adopts(state0, w0) || (Scope(state0) && world.state == Some(state0) && !InUse(state0))
      modifies `world, `faults
      ensures Known() && (!outcome.Crashed? ==> Tracked(state))
      ensures state == state0.(controllerIdentity := state.controllerIdentity)
      ensures world.state == Some(state0) || world.state == Some(state)
      ensures world.root == old(world).root && Children(old(world)) <= Children(world)
      ensures world.simulator.Some? && world.simulator.value.own == old(world).simulator.value.own
      ensures outcome.Done? ==> Scope(state) && world.state == Some(state) && ControllerReady(config, world, state)
      ensures old(faults) == [] ==> faults == [] && outcome.Done?
    {
      state := state0;
      ghost var adopts := Adopts(state, w0);
      var sim, root := world.simulator.value.own.identity, world.root.identity;
      assert var identity := Identity(sim.device, sim.inode + root.inode + 1, sim.mount);
             Below(identity, sim) && identity.inode != root.inode;
      var identity: Identity :| Below(identity, sim) && identity.inode != root.inode;
      ghost var next := Apply(config, world, MakeChild(state.controllerName, identity)).value;
      ControllerMade(state, w0, identity);
      hide Mid, Origin, Headless, Belongs, Unloadable, Adopts, Apply, Running;
      MakeChildEffect(config, world, state.controllerName, identity);
      outcome := Perform(MakeChild(state.controllerName, identity));
      if !outcome.Done? { return; }
      state := state.(controllerIdentity := Some(identity));
      outcome := Save(state);
    }

    /** Before and after the mkdir the world is known; recorded, the new state describes it. */
    lemma ControllerMade(state: ScopeState, w0: World, identity: Identity)
      requires config.move && world.simulator.Some? && state.controllerName !in world.simulator.value.children
      requires Adopts(state, w0) || (Scope(state) && world.state == Some(state) && !InUse(state))
      requires Below(identity, world.simulator.value.own.identity) && identity.inode != world.root.identity.inode
      ensures var next := Apply(config, world, MakeChild(state.controllerName, identity));
              && next.Some? && Origin(config, origin)
              && Belongs(config, origin, world) && Belongs(config, origin, next.value) && Tracked(state)
              && (|| (Headless(config, origin, next.value) && !InUse(state))
                  || (Unloadable(config, origin, next.value) && state.active != {}))
              && Running(config, origin, next.value, state.(controllerIdentity := Some(identity)))
              && ControllerReady(config, next.value, state)
    {
      if Adopts(state, w0) {
        AdoptsMade(state, w0, identity);
      } else {
        Saved(state);
        MakeControllerStep(config, origin, world, state, identity);
        UnnamedController(state);
        HeadlessController(config, origin, world, identity);
      }
    }

    lemma AdoptsMade(state: ScopeState, w0: World, identity: Identity)
      requires Adopts(state, w0)
      requires Below(identity, w0.simulator.value.own.identity) && identity.inode != w0.root.identity.inode
      ensures var next := Apply(config, world, MakeChild(state.controllerName, identity));
              && next.Some? && Origin(config, origin) && state.active != {}
              && Unloadable(config, origin, world) && Unloadable(config, origin, next.value)
              && Running(config, origin, next.value, state.(controllerIdentity := Some(identity)))
              && ControllerReady(config, next.value, state)
    {
      BareIsOrigin(config, w0);
      FirstStateLoads(config, w0, state.controllerName);
      AdoptStep(config, w0, state.controllerName, identity);
      hide Mid, Origin, LoaderAccepts;
      MadeIsUndone(config, w0, state.controllerName, identity);
      MadeIsUndone(config, world, state.controllerName, identity);
      var next := Apply(config, world, MakeChild(state.controllerName, identity)).value;
      assert next == Apply(config, w0, MakeChild(state.controllerName, identity)).value.(state := Some(state));
      assert Without(world.(state := None), state.controllerName) == w0 by {
        assert w0.simulator.value.children - {state.controllerName} == w0.simulator.value.children;
      }
      assert Without(next.(state := None), state.controllerName) == w0;
    }

    lemma UnnamedController(state: ScopeState)
      requires Scope(state) && world.simulator.Some? && state.controllerName !in world.simulator.value.children
      ensures state.controllerIdentity.None?
    {}

    /** Moving the root's processes aside and enabling the controllers above the simulator. */
    method Delegate(state: ScopeState) returns (outcome: Outcome)
      requires Scope(state) && world.state == Some(state) && config.move && ControllerReady(config, world, state)
      modifies `world, `faults
      ensures Scope(state) && world.state == Some(state) && ControllerReady(config, world, state)
      ensures Children(world) == Children(old(world))
      ensures outcome.Done? ==> MANAGED <= world.root.enabled
      ensures old(faults) == [] ==> faults == [] && outcome.Done?
    {
      hide Mid, Origin, Apply;
      Saved(state);
      outcome := MoveProcesses(true, state);
      assert world == world.(state := Some(state));
      if !outcome.Done? { return; }
      EnableRootStep(config, origin, world, state);
      EnableRootKeepsState(config, world, state.rootAdded);
      outcome := Perform(EnableRoot(state.rootAdded));
    }

    /** The simulator of the origin can take controllers: it has all of them, or no process of its own. */
    ghost predicate Startable()
      reads `origin
    {
      CanTake(origin)
    }

    lemma StartableWhen(state: ScopeState)
      requires Scope(state) && world.simulator.Some?
      ensures Startable() <==> state.simulatorAdded == {} || world.simulator.value.own.procs == {}
    {
      assert MANAGED <= state.simulatorBefore <==> state.simulatorAdded == {};
    }

    method EnableScope(state: ScopeState) returns (outcome: Outcome)
      requires Scope(state) && world.state == Some(state) && ControllerReady(config, world, state)
      requires MANAGED <= world.root.enabled
      modifies `world, `faults
      ensures Scope(state) && world.state == Some(state) && ControllerReady(config, world, state)
      ensures Children(world) == Children(old(world))
      ensures outcome.Done? ==> MANAGED <= world.simulator.value.own.enabled
      ensures old(faults) == [] ==> faults == [] && !outcome.Crashed? && (outcome.Done? <==> Startable())
    {
      hide Mid, Origin, Apply, CanTake;
      if !(MANAGED <= world.root.enabled) { return Failed; }
      StartableWhen(state);
      EnableSimulatorStep(config, origin, world, state);
      EnableSimulatorKeepsState(config, world, state.simulatorAdded);
      outcome := Perform(EnableSimulator(state.simulatorAdded));
    }

    /** A new state was published over the untouched hierarchy. */
    ghost predicate Published(state: ScopeState, w0: World)
      reads this
    {
      && Origin(config, w0) && origin == Bare(w0) && world == w0.(state := Some(state))
      && OwnedControllerName(state.controllerName) && state.controllerName !in ChildrenBefore(w0)
      && state == NewState(config, w0, state.controllerName)
    }

    lemma PublishedIsTracked(state: ScopeState, w0: World)
      requires Published(state, w0)
      ensures (ResourceChildren(w0) == {} || !config.move ==> Scope(state)) && Tracked(state) && Known()
      ensures config.move && ResourceChildren(w0) != {} ==> Adopts(state, w0)
      ensures world.simulator.None? ==> !InUse(state) && ResourceChildren(w0) == {}
      ensures ResourceChildren(w0) == {} ==> !InUse(state)
      ensures state.controllerExpected == config.move && (!config.move ==> MANAGED <= world.root.enabled)
      ensures world.simulator.Some? ==> state.controllerName !in world.simulator.value.children
    {
      BareIsOrigin(config, w0);
      if ResourceChildren(w0) == {} || !config.move {
        PublishStep(config, w0, state.controllerName);
        assert world == world.(state := Some(state));
        assert w0.(state := Some(state)) == world;
        MidBelongs(config, origin, world);
      } else {
        AdoptsIsUnloadable(state, w0);
      }
    }

    lemma AdoptsIsUnloadable(state: ScopeState, w0: World)
      requires Adopts(state, w0)
      ensures Unloadable(config, origin, world) && state.active != {}
    {
      var sim, root := w0.simulator.value.own.identity, w0.root.identity;
      AdoptsMade(state, w0, Identity(sim.device, sim.inode + root.inode + 1, sim.mount));
    }

    /** StartCgroupScope on a scope that was just published. */
    method Start(state0: ScopeState, ghost w0: World) returns (outcome: Outcome, state: ScopeState)
      requires Published(state0, w0)
      modifies `world, `faults
      ensures Known() && (!outcome.Crashed? ==> Tracked(state)) && Children(old(world)) <= Children(world)
      ensures state ==
                state0.(simulatorIdentity := state.simulatorIdentity, controllerIdentity := state.controllerIdentity)
      ensures Heir(world.state, state0.preexisting, {})
      ensures outcome.Done? ==>
                && Scope(state) && Mid(config, origin, world) && world.state == Some(state)
                && ControllerReady(config, world, state) && MANAGED <= world.simulator.value.own.enabled
      ensures old(faults) == [] ==>
                && faults == [] && !outcome.Crashed? && (outcome.Done? <==> Startable())
                && Scope(state) && world.state == Some(state)
    {
      state := state0;
      PublishedIsTracked(state, w0);
      hide Mid, Origin, Apply, Running, Headless, Unloadable, Belongs, Adopts, Published, CanTake;
      if world.simulator.None? {
        outcome, state := MakeScopeSimulator(state);
        if !outcome.Done? { return; }
      }
      if state.controllerExpected {
        outcome, state := MakeScopeController(state, w0);
        if !outcome.Done? { return; }
        outcome := Delegate(state);
        if !outcome.Done? { ScopeIsKnown(state); return; }
      } else {
        ControllerUnneeded(state);
      }
      outcome := EnableScope(state);
      Saved(state);
      ScopeIsKnown(state);
    }

    lemma ControllerUnneeded(state: ScopeState)
      requires !config.move && Scope(state) && world.simulator.Some?
      ensures ControllerReady(config, world, state) && MANAGED <= world.root.enabled
    {}

    lemma ScopeIsKnown(state: ScopeState)
      requires Scope(state) && world.state == Some(state)
      ensures Known() && Tracked(state)
    {
      Saved(state);
    }

    // ----- runs -----

    ghost predicate Ready(state: ScopeState)
      reads this
    {
      Scope(state) && world.state == Some(state) && ControllerReady(config, world, state)
    }

    /** A failed attempt left the run's directory behind, and removing it is safe. */
    ghost predicate Removable(state: ScopeState, run: string)
      reads this
    {
      && Known() && Scope(state) && world.simulator.Some?
      && run in world.simulator.value.children && run in Runs(state)
      && Mid(config, origin, Without(world, run))
    }

    lemma RemovableWhenSaved(state: ScopeState, run: string)
      requires Scope(state) && world.state == Some(state) && world.simulator.Some?
      requires run in world.simulator.value.children && run in Runs(state)
      ensures Removable(state, run)
    {
      hide Mid, Origin, Belongs;
      Saved(state);
      MidBelongs(config, origin, world);
      DropRunStep(config, origin, world, state, run);
      assert Apply(config, world, KillChild(run)) == Some(Without(world, run));
      assert Without(world, run) == Without(world, run).(state := Some(state));
    }

    /** mkdir of the run's cgroup, and the state that records it. */
    method MakeRun(state0: ScopeState, run: string, bound: bool)
      returns (outcome: Outcome, state: ScopeState, made: bool)
      requires Ready(state0) && state0.pending == Some(run) && !state0.created && (bound ==> ResourceName(run))
      modifies `world, `faults
      ensures Known() && Children(old(world)) <= Children(world)
      ensures !made ==>
                && state == state0 && world.state == Some(state) && world.simulator.Some?
                && (world == old(world) || OrphanOf(config, origin, world, run))
      ensures state.preexisting == state0.preexisting
      ensures Heir(world.state, state0.preexisting, {run})
      ensures made ==>
                && Removable(state, run) && state.pending == Some(run) && state.created && state.active == state0.active
                && run !in Children(old(world)) && Children(world) == Children(old(world)) + {run}
                && world.simulator.value.own == old(world).simulator.value.own
      ensures outcome.Done? ==> made && Ready(state)
      ensures old(faults) == [] ==>
                && faults == [] && !outcome.Crashed? && made == outcome.Done?
                && (outcome.Done? <==> run !in Children(old(world))) && (!made ==> world == old(world))
    {
      hide Mid, Origin, Apply, OrphanOf, Belongs;
      state, made := state0, false;
      Saved(state);
      MidBelongs(config, origin, world);
      ghost var before := world;
      var identity: Identity := *;
      MakeRunStep(config, origin, world, state, run, identity, bound);
      MakeChildEffect(config, world, run, identity);
      OrphanStep(config, origin, world, run, identity);
      outcome := Perform(MakeChild(run, identity));
      if world != before { OrphanBelongs(config, origin, world, run); }
      if !outcome.Done? { return; }
      made := true;
      state := Created(state, run, if bound then Some(identity) else None);
      assert Without(world, run) == before;
      outcome := Save(state);
      if world.state == Some(state) { RemovableWhenSaved(state, run); }
    }

    /** The controllers must reach the run; a scope that died before it had them cannot give them. */
    method EnableRun(state: ScopeState, run: string) returns (outcome: Outcome)
      requires Ready(state) && state.pending == Some(run) && state.created && run in world.simulator.value.children
      modifies `world, `faults
      ensures Ready(state) && Children(world) == Children(old(world))
      ensures outcome.Done? ==> MANAGED <= world.simulator.value.children[run].enabled
      ensures old(faults) == [] ==>
                && faults == [] && !outcome.Crashed?
                && (outcome.Done? <==> MANAGED <= old(world).simulator.value.own.enabled)
    {
      hide Mid, Origin, Apply;
      if !(MANAGED <= world.simulator.value.own.enabled) { return Failed; }
      var controllers := MANAGED * world.simulator.value.own.enabled;
      assert controllers == MANAGED;
      EnableRunStep(config, origin, world, state, run, controllers);
      EnableChildEffect(config, world, run, controllers);
      outcome := Perform(EnableChild(run, controllers));
    }

    /** The scope is up: what a new run can be added to. */
    ghost predicate Open(state: ScopeState)
      reads this
    {
      && Scope(state) && Mid(config, origin, world) && ControllerReady(config, world, state) && state.pending.None?
      && OwnedControllerName(state.controllerName)
    }

    /** What the rollback of PrepareRunInScope needs to know about a failed attempt. */
    ghost predicate Undoable(state: ScopeState, run: string, attempted: bool, made: bool)
      reads this
    {
      && Known()
      && (state.pending.None? || (attempted && state.pending == Some(run)))
      && (made ==> attempted && Removable(state, run))
      && (attempted && !made ==>
            world.simulator.Some? &&
            (|| (Scope(state) && (run in world.simulator.value.children ==> run !in Runs(state)))
             || (world.state == Some(state) && OrphanOf(config, origin, world, run))))
      && (!attempted ==> Tracked(state))
    }

    /** Writes down that the run is about to be made. */
    method Announce(state0: ScopeState, run: string) returns (outcome: Outcome, state: ScopeState)
      requires Open(state0) && SafeRunId(run) && run !in state0.active
      modifies `world, `faults
      ensures state == Pending(state0, run) && Undoable(state, run, true, false) && Scope(state)
      ensures world == old(world) || world == old(world).(state := Some(state))
      ensures outcome.Done? ==> Ready(state)
      ensures old(faults) == [] ==> faults == [] && outcome.Done?
    {
      NotController(run, state0.controllerName);
      OpenIsKnown(state0);
      hide Mid, Origin, Apply, SafeRunId, Belongs, OrphanOf, OwnedControllerName;
      PendStep(config, origin, world, state0, run);
      state := Pending(state0, run);
      UncreatedRun(state, run);
      outcome := Save(state);
    }

    method AddRun(state0: ScopeState, run: string, bound: bool)
      returns (outcome: Outcome, state: ScopeState, attempted: bool, made: bool)
      requires Open(state0) && SafeRunId(run) && (bound ==> ResourceName(run))
      modifies `world, `faults
      ensures Known() && Children(old(world)) <= Children(world)
      ensures attempted <==> run !in state0.active
      ensures !attempted ==> outcome.Failed? && world == old(world) && faults == old(faults)
      ensures outcome.Failed? && attempted ==> Undoable(state, run, attempted, made)
      ensures state.active - {run} == state0.active - {run} && state.preexisting == state0.preexisting
      ensures world.state == old(world).state || Heir(world.state, state0.preexisting, {run})
      ensures made ==> run !in Children(old(world))
      ensures outcome.Done? ==>
                && Mid(config, origin, world) && world.state == Some(state) && state.active == state0.active + {run}
                && state.pending.None?
                && world.simulator.Some? && run in world.simulator.value.children
                && MANAGED <= world.simulator.value.children[run].enabled
      ensures old(faults) == [] ==>
                && faults == [] && !outcome.Crashed?
                && (outcome.Done? <==>
                      run !in state0.active && run !in Children(old(world)) && MANAGED <= Enabled(old(world)))
                && (outcome.Failed? && attempted ==>
                      Scope(state) && Children(world) == Children(old(world)) + (if made then {run} else {}))
    {
      hide Mid, Origin, Apply, SafeRunId, ResourceName, Belongs, OrphanOf, OwnedControllerName, Running, Headless,
        Unloadable, ControllerReady, Describes, LoaderAccepts, BindAccepts, Stranded, Tracked;
      OpenIsKnown(state0);
      state, attempted, made := state0, false, false;
      if run in state.active { return Failed, state, attempted, made; }
      attempted := true;
      outcome, state := Announce(state, run);
      if !outcome.Done? { return; }
      outcome, state, made := BuildRun(state, run, bound);
    }

    /** Makes an announced run and activates it. */
    method BuildRun(state0: ScopeState, run: string, bound: bool)
      returns (outcome: Outcome, state: ScopeState, made: bool)
      requires Ready(state0) && state0.pending == Some(run) && !state0.created && (bound ==> ResourceName(run))
      requires Undoable(state0, run, true, false)
      modifies `world, `faults
      ensures Known() && Children(old(world)) <= Children(world)
      ensures outcome.Failed? ==> Undoable(state, run, true, made)
      ensures state.active - {run} == state0.active - {run} && state.preexisting == state0.preexisting
      ensures Heir(world.state, state0.preexisting, {run})
      ensures made ==> run !in Children(old(world))
      ensures outcome.Done? ==>
                && Mid(config, origin, world) && world.state == Some(state) && state.active == state0.active + {run}
                && state.pending.None?
                && world.simulator.Some? && run in world.simulator.value.children
                && MANAGED <= world.simulator.value.children[run].enabled
      ensures old(faults) == [] ==>
                && faults == [] && !outcome.Crashed?
                && (outcome.Done? <==> run !in Children(old(world)) && MANAGED <= Enabled(old(world)))
                && (outcome.Failed? ==>
                      Scope(state) && Children(world) == Children(old(world)) + (if made then {run} else {}))
    {
      hide Mid, Origin, Apply, ResourceName, Belongs, OrphanOf, Running, Headless, Unloadable, ControllerReady,
        Describes, LoaderAccepts, BindAccepts, Stranded, Tracked;
      outcome, state, made := MakeRun(state0, run, bound);
      if !outcome.Done? { return; }
      outcome, state := FinishRun(state, run);
    }

    /** Enables the controllers of a recorded run and makes it an active one. */
    method FinishRun(state0: ScopeState, run: string) returns (outcome: Outcome, state: ScopeState)
      requires Ready(state0) && state0.pending == Some(run) && state0.created && run in world.simulator.value.children
      modifies `world, `faults
      ensures Known() && Children(world) == Children(old(world)) && state.preexisting == state0.preexisting
      ensures Heir(world.state, state0.preexisting, {run})
      ensures Removable(state, run) && (state == state0 || state == Active(state0, run))
      ensures outcome.Done? ==>
                && Mid(config, origin, world) && world.state == Some(state) && state == Active(state0, run)
                && MANAGED <= world.simulator.value.children[run].enabled
      ensures old(faults) == [] ==>
                && faults == [] && !outcome.Crashed?
                && (outcome.Done? <==> MANAGED <= old(world).simulator.value.own.enabled)
    {
      hide Mid, Origin, Apply, Belongs;
      state := state0;
      outcome := EnableRun(state, run);
      RemovableWhenSaved(state, run);
      if !outcome.Done? { return; }
      ActivateStep(config, origin, world, state, run);
      state := Active(state, run);
      outcome := Save(state);
      if world.state == Some(state) { RemovableWhenSaved(state, run); }
    }

    lemma OpenIsKnown(state: ScopeState)
      requires Open(state)
      ensures Known() && Tracked(state) && world.simulator.Some?
    {}

    lemma UncreatedRun(state: ScopeState, run: string)
      requires Scope(state) && state.pending == Some(run) && !state.created && world.simulator.Some?
      ensures run !in Runs(state)
    {}

    /**
     Writes a state that no longer has the pending run.  A directory of it that no state
     recorded is from then on part of what outlives the scope.
     */
    method Disown(state: ScopeState, ghost run: string, ghost orphan: bool) returns (outcome: Outcome)
      requires Known()
      requires if orphan then OrphanOf(config, origin, world, run) && state == Forgotten(world.state.value, run)
               else Tracked(state)
      modifies this
      ensures Known() && Children(world) == Children(old(world))
      ensures world == old(world) || world == old(world).(state := Some(state))
      ensures origin == if orphan && world.state == Some(state) then old(Stranded(origin, world, run)) else old(origin)
      ensures outcome.Done? ==> world.state == Some(state) && Tracked(state)
      ensures world.state == Some(state) && (orphan || old(Scope(state))) ==> Mid(config, origin, world)
      ensures old(faults) == [] ==> faults == [] && outcome.Done?
    {
      if orphan { StrandStep(config, origin, world, run); OrphanIsPending(run); }
      hide Mid, Origin, Apply, Belongs, OrphanOf, Headless, Unloadable;
      outcome := Perform(SaveState(state));
      SaveEffect(config, state);
      assert old(world).(state := Some(state)).(state := Some(state)) == old(world).(state := Some(state));
      if world.state == Some(state) && orphan {
        origin := Stranded(origin, world, run);
        assert world == old(world).(state := Some(state));
        MidBelongs(config, origin, world);
      } else if world.state == Some(state) && old(Scope(state)) {
        MidBelongs(config, origin, world);
      }
    }

    lemma OrphanIsPending(run: string)
      requires Origin(config, origin) && OrphanOf(config, origin, world, run)
      ensures world.state.Some? && world.simulator.Some? && run in world.simulator.value.children
      ensures world.state != Some(Forgotten(world.state.value, run)) && !world.state.value.ready
    {}

    /** The catch block of PrepareRunInScope. */
    method Rollback(state0: ScopeState, run: string, attempted: bool, made: bool) returns (outcome: Outcome)
      requires Undoable(state0, run, attempted, made)
      modifies this
      ensures Known()
      ensures origin == old(origin) || (attempted && OrphanOf(config, old(origin), old(world), run)
                                        && origin == Stranded(old(origin), old(world), run))
      ensures world.state == old(world).state || Heir(world.state, state0.preexisting, {})
      ensures Remaining(state0, run, attempted) != {} ==>
                Children(old(world)) - (if made then {run} else {}) <= Children(world)
      ensures old(faults) == [] && old(Scope(state0)) ==>
                && faults == [] && !outcome.Crashed? && origin == old(origin)
                && (if Remaining(state0, run, attempted) == {} && !Held(origin, state0)
                    then outcome.Done? && world == origin
                    else
                      && Mid(config, origin, world)
                      && Children(world) == Children(old(world)) - (if made then {run} else {})
                      && world.state.Some? && world.state.value.active == Remaining(state0, run, attempted)
                      && world.state.value.pending.None?)
    {
      hide Mid, Origin, Apply, LoaderAccepts, Belongs, OrphanOf, Headless, Unloadable, BindAccepts;
      var state := state0;
      ghost var orphan := attempted && !made && world.state == Some(state) && OrphanOf(config, origin, world, run);
      if orphan { OrphanIsUnscoped(state, run); }
      if made {
        DropRunStep(config, origin, world, state, run);
        KillChildEffect(config, world, run);
        MidBelongs(config, origin, Without(world, run));
        outcome := Perform(KillChild(run));
        if !outcome.Done? { return; }
      }
      if attempted {
        if !orphan { ForgetStep(config, origin, world, state, run); }
        state := Forgotten(state, run);
      }
      outcome := Abandon(state, run, orphan);
    }

    /** The scope without the run; restored as well when no other run is left. */
    method Abandon(state: ScopeState, ghost run: string, ghost orphan: bool) returns (outcome: Outcome)
      requires Known() && state.pending.None?
      requires if orphan then OrphanOf(config, origin, world, run) && state == Forgotten(world.state.value, run)
               else Tracked(state)
      modifies this
      ensures Known()
      ensures origin == old(origin) || (orphan && origin == Stranded(old(origin), old(world), run))
      ensures world.state == old(world).state || Heir(world.state, state.preexisting, {})
      ensures state.active != {} ==> Children(world) == Children(old(world))
      ensures old(faults) == [] && !orphan && old(Scope(state)) ==>
                && faults == [] && !outcome.Crashed? && origin == old(origin)
                && (if state.active == {} && !Held(origin, state) then outcome.Done? && world == origin
                    else
                      && Mid(config, origin, world) && Children(world) == Children(old(world))
                      && world.state == Some(state))
    {
      hide Mid, Origin, Apply, LoaderAccepts, Belongs, OrphanOf, Headless, Unloadable, BindAccepts, Stranded;
      outcome := Disown(state, run, orphan);
      if !outcome.Done? { return; }
      if state.active == {} {
        TrackedRestores(state);
        outcome := Restore(state);
      }
    }

    lemma OrphanIsUnscoped(state: ScopeState, run: string)
      requires Origin(config, origin) && OrphanOf(config, origin, world, run) && world.state == Some(state)
      ensures !Scope(state)
    {
      OrphanBinds(config, origin, world);
      if Scope(state) { Saved(state); }
    }

    /** The runs a failed attempt leaves in the state. */
    function Remaining(state: ScopeState, run: string, attempted: bool): set<string> {
      if attempted then state.active - {run} else state.active
    }

    lemma TrackedRestores(state: ScopeState)
      requires Tracked(state) && world.state == Some(state) && state.active == {}
      ensures LoaderAccepts(config, state) && (Mid(config, origin, world) || !BindAccepts(world, state))
      ensures Mid(config, origin, world) <==> Scope(state)
    {
      if Scope(state) {
        Saved(state);
      } else {
        HeadlessIsRefused(config, origin, world);
        if Mid(config, origin, world) { MidBinds(config, origin, world); }
      }
    }

    // ----- commands -----

    /** What restoration returns to once recovery has cleared the pending run. */
    ghost function Settles(): World
      reads this
    {
      SettlesTo(config, origin, world)
    }

    /** RecoverInterruptedCgroupPreparation. */
    method Recover(state0: ScopeState) returns (outcome: Outcome, state: ScopeState)
      requires Usable() && world.state == Some(state0)
      modifies this
      ensures Usable() && world.state.Some? && Settled(old(world)) <= Children(world)
      ensures origin == old(origin) || origin == old(Settles())
      ensures world.state == old(world).state || Heir(world.state, state0.preexisting, {})
      ensures state0.pending.None? ==> world == old(world)
      ensures outcome.Done? ==>
                && origin == old(Settles()) && Mid(config, origin, world)
                && world.state == Some(state) && state.pending.None? && state.preexisting == state0.preexisting
                && Live(world) == Live(old(world)) && Children(world) == Settled(old(world))
                && Enabled(world) == Enabled(old(world))
      ensures old(faults) == [] ==> faults == [] && !outcome.Crashed? && (outcome.Done? <==> Resumable(old(world)))
      ensures old(faults) == [] && !Resumable(old(world)) ==> world == old(world) && origin == old(origin)
    {
      hide Mid, Origin, Apply, Belongs, Orphaned, OrphanOf, Headless, Unloadable, LoaderAccepts, BindAccepts;
      state := state0;
      Loaded(state);
      if state.pending.None? { return Done, state; }
      var run := state.pending.value;
      if !Resumable(world) { return Failed, state; }
      if state.created {
        outcome := DropPending(state, run);
        if !outcome.Done? { return; }
      }
      ghost var orphan := Orphaned(config, origin, world);
      ForgetPending(state, run);
      state := Forgotten(state, run);
      outcome := Disown(state, run, orphan);
      Disowned(state0, run, orphan, old(world));
    }

    /** What a loaded state says about its world. */
    lemma Loaded(state: ScopeState)
      requires Usable() && world.state == Some(state)
      ensures LoaderAccepts(config, state) && BindAccepts(world, state)
      ensures Mid(config, origin, world) != Orphaned(config, origin, world)
      ensures state.pending.Some? ==> !state.ready && world.simulator.Some? && SafeRunId(state.pending.value)
      ensures Orphaned(config, origin, world) ==> state.pending.Some? && !state.created
    {
      assert world != origin by { assert origin.state.None?; }
      if Orphaned(config, origin, world) {
        OrphanBinds(config, origin, world);
      } else {
        MidBinds(config, origin, world);
      }
    }

    /** Removes the directory of a recorded pending run. */
    method DropPending(state: ScopeState, run: string) returns (outcome: Outcome)
      requires Origin(config, origin) && Mid(config, origin, world) && world.state == Some(state)
      requires state.pending == Some(run) && state.created && Resumable(world)
      modifies `world, `faults
      ensures Mid(config, origin, world) && world.state == Some(state)
      ensures world == old(world) || world == Without(old(world), run)
      ensures outcome.Done? ==> run !in Children(world)
      ensures old(faults) == [] ==> faults == [] && outcome.Done?
    {
      PendingRun(state, run);
      hide Mid, Origin, Apply;
      assert world == world.(state := Some(state));
      DropRunStep(config, origin, world, state, run);
      KillChildEffect(config, world, run);
      outcome := Perform(KillChild(run));
      assert world == world.(state := Some(state));
    }

    lemma PendingRun(state: ScopeState, run: string)
      requires Mid(config, origin, world) && world.state == Some(state) && state.pending == Some(run)
      ensures !state.ready && run !in state.active && (state.created <==> run in Runs(state))
      ensures !state.created && run in Children(world) ==> run in Children(origin)
    {}

    /** The pending run can be forgotten now, whether its directory is gone, older or unrecorded. */
    lemma ForgetPending(state: ScopeState, run: string)
      requires Usable() && world.state == Some(state) && state.pending == Some(run)
      requires state.created ==> run !in Children(world)
      ensures Known() && run !in state.active
      ensures Orphaned(config, origin, world) ==> OrphanOf(config, origin, world, run)
      ensures !Orphaned(config, origin, world) ==> Scope(Forgotten(state, run))
    {
      Loaded(state);
      if !Orphaned(config, origin, world) {
        PendingRun(state, run);
        assert world == world.(state := Some(state));
        ForgetStep(config, origin, world, state, run);
      }
    }

    /** Recovery after the state was written, or not. */
    lemma Disowned(state0: ScopeState, run: string, orphan: bool, before: World)
      requires before.state == Some(state0) && state0.pending == Some(run) && before.simulator.Some?
      requires run !in state0.active && world.simulator.Some?
      requires world.state == Some(state0) || world.state == Some(Forgotten(state0, run))
      requires world.(state := None) == before.(state := None) ||
               (state0.created && world.(state := None) == Without(before, run).(state := None))
      requires run in Children(world) ==> !state0.created
      ensures Settled(before) == Children(world) && Enabled(before) == Enabled(world)
      ensures world.state == Some(Forgotten(state0, run)) ==> Live(world) == Live(before)
    {
      assert Forgotten(state0, run).active == state0.active;
    }

    /** Runs whose directory is gone are dropped from the memory state. */
    method Purge(state0: ScopeState) returns (state: ScopeState)
      requires Origin(config, origin) && Mid(config, origin, world) && world.state == Some(state0)
      requires state0.pending.None?
      ensures Describes(config, origin, world, state) && state.pending.None? && state.preexisting == state0.preexisting
      ensures state.active == Live(world)
    {
      hide Mid, Origin, Apply, LoaderAccepts;
      state := state0;
      assert world == world.(state := Some(state));
      var rest := state.active;
      while rest != {}
        invariant rest <= state0.active
        invariant Describes(config, origin, world, state) && state.pending.None?
        invariant state.preexisting == state0.preexisting
        invariant state.active == set run | run in state0.active && (run in rest || run in Children(world))
        decreases |rest|
      {
        var run :| run in rest;
        if run !in Children(world) {
          ForgetStep(config, origin, world, state, run);
          state := Forgotten(state, run);
        }
        rest := rest - {run};
      }
    }

    /** Publishes a new scope and starts it; resource-named cgroups that are there become its runs. */
    method Begin(run: string, name: string) returns (outcome: Outcome, state: ScopeState, published: bool)
      requires Origin(config, origin) && world == origin
      requires OwnedControllerName(name) && name !in Children(origin)
      modifies this
      ensures Known() && Children(old(world)) <= Children(world)
      ensures origin == old(origin) || origin == Bare(old(origin))
      ensures Heir(world.state, old(origin).simulator.Some?, {})
      ensures published ==> state.preexisting == old(origin).simulator.Some?
      ensures published && !outcome.Crashed? ==> Tracked(state) && state.pending.None?
      ensures published ==>
                origin == Bare(old(origin)) && state.active == ResourceChildren(old(origin)) && run !in state.active
      ensures published ==> !Held(origin, state)
      ensures !published ==> !outcome.Done?
      ensures outcome.Done? ==> Open(state) && MANAGED <= Enabled(world)
      ensures old(faults) == [] ==>
                && faults == [] && !outcome.Crashed? && (published <==> run !in ResourceChildren(old(origin)))
                && (published ==>
                      (outcome.Done? <==> CanTake(old(origin))) && Scope(state) && world.state == Some(state))
                && (!published ==> world == origin == old(origin))
    {
      BareIsOrigin(config, origin);
      state, published := NewState(config, world, name), false;
      if !CanBegin(config, world) || run in state.active { return Failed, state, published; }
      ghost var w0 := world;
      assert name !in ChildrenBefore(w0);
      outcome := Perform(SaveState(state));
      if world.state.Some? {
        origin := Bare(origin);
        assert Published(state, w0);
        PublishedIsTracked(state, w0);
      }
      PublishedMeans(state, w0);
      hide Mid, Origin, Apply, Belongs, Orphaned, Headless, Unloadable, Running, Published, Held, CanTake,
        ControllerReady;
      if !outcome.Done? { return; }
      published := true;
      outcome, state := Start(state, w0);
    }

    /** A publication that did not report success may still have taken effect. */
    lemma PublishedMeans(state: ScopeState, w0: World)
      requires Origin(config, w0) && w0.state.None?
      requires (world == w0 && origin == w0) || Published(state, w0)
      ensures Origin(config, origin) && Known() && (world == w0 ==> Usable())
      ensures Published(state, w0) ==>
                !Held(origin, state) && (CanTake(origin) <==> CanTake(w0)) && state.active == ResourceChildren(w0)
    {
      BareIsOrigin(config, w0);
      if Published(state, w0) { PublishedIsTracked(state, w0); }
    }

    /** The scope on disk, loaded, bound and rid of interrupted and vanished runs. */
    method LoadScope() returns (outcome: Outcome, state: ScopeState)
      requires Known() && world.state.Some?
      modifies this
      ensures Known() && (world.state.Some? || world == origin)
      ensures Children(old(Settles())) <= Children(world)
      ensures origin == old(origin) || origin == old(Settles())
      ensures world.state == old(world).state || Heir(world.state, old(world).state.value.preexisting, {})
      ensures old(world).state.value.pending.None? ==> world == old(world)
      ensures outcome.Done? ==>
                && old(Usable()) && origin == old(Settles()) && Mid(config, origin, world)
                && Describes(config, origin, world, state) && state.pending.None?
                && state.preexisting == old(world).state.value.preexisting
                && state.active == Live(old(world)) == Live(world) && Children(world) == Settled(old(world))
                && Enabled(world) == Enabled(old(world)) && world.state.Some? && world.state.value.pending.None?
      ensures old(faults) == [] ==>
                && faults == [] && !outcome.Crashed?
                && (outcome.Done? <==> old(Usable()) && Resumable(old(world)))
                && (!outcome.Done? ==> world == old(world) && origin == old(origin))
    {
      state := world.state.value;
      Loads(state);
      SettledKeeps();
      hide Mid, Origin, Apply, LoaderAccepts, BindAccepts, Belongs, Headless, Unloadable, OrphanOf;
      if !LoaderAccepts(config, state) || !BindAccepts(world, state) { return Failed, state; }
      outcome, state := Recover(state);
      UsableIsKnown();
      if !outcome.Done? { return; }
      state := Purge(state);
    }

    /** A command goes on exactly with a usable world. */
    lemma Loads(state: ScopeState)
      requires Known() && world.state == Some(state)
      ensures LoaderAccepts(config, state) && BindAccepts(world, state) <==> Usable()
      ensures !Usable() <==> Refused()
    {
      if Usable() { Loaded(state); }
      if Headless(config, origin, world) { HeadlessIsRefused(config, origin, world); }
    }

    lemma UsableIsKnown()
      requires Usable()
      ensures Known()
    {}

    lemma SettledKeeps()
      requires Known()
      ensures Children(Settles()) <= Children(world)
      ensures Usable() && world.state.Some? ==> Children(Settles()) <= Settled(world)
    {
      BelongingKeeps(config, origin, world);
      if Usable() && world.state.Some? {
        Loaded(world.state.value);
        if Mid(config, origin, world) { CreatedIsOwn(config, origin, world); }
      }
    }

    /** What opening a scope found, without faults. */
    ghost predicate Idles()
      reads this
    {
      Usable() && Resumable(world) && Live(world) == {}
    }

    /** The scope's own simulator will not be empty when the scope goes. */
    ghost predicate Stuck()
      reads this
    {
      world.state.Some? && Held(Settles(), world.state.value)
    }

    /** Loading the old scope, and restoring it if no run is left; None when a new one is needed. */
    method OpenScope() returns (outcome: Outcome, scope: Option<ScopeState>)
      requires Known()
      modifies this
      ensures Known() && Children(old(Settles())) <= Children(world)
      ensures origin == old(origin) || origin == old(Settles())
      ensures Awaited(world.state) <= Awaited(old(world).state) && (old(Firm()) ==> Firm())
      ensures outcome.Done? && scope.Some? ==>
                && Open(scope.value) && scope.value.active != {} && origin == old(Settles())
                && (old(Firm()) ==> scope.value.preexisting)
                && (Awaited(old(world).state) == {} ==> world == old(world))
      ensures outcome.Done? && scope.None? ==> Origin(config, origin) && world == origin == old(Settles())
      ensures old(faults) == [] ==> faults == [] && !outcome.Crashed?
      ensures old(faults) == [] && !(old(Usable()) && Resumable(old(world))) ==>
                outcome.Failed? && world == old(world) && origin == old(origin)
      ensures old(faults) == [] && old(Usable()) && Resumable(old(world)) && Live(old(world)) != {} ==>
                && outcome.Done? && scope.Some? && scope.value.active == Live(old(world)) == Live(world)
                && world.state.Some? && world.state.value.pending.None? && Mid(config, origin, world)
                && Children(world) == Settled(old(world)) && Enabled(world) == Enabled(old(world))
      ensures old(faults) == [] && old(Idles()) && old(Stuck()) ==>
                && outcome.Failed? && origin == old(Settles()) && Mid(config, origin, world)
                && Children(world) == Settled(old(world)) && Idle(world)
      ensures old(faults) == [] && old(Idles()) && !old(Stuck()) ==> outcome.Done? && scope.None?
    {
      hide Mid, Origin, Apply, Belongs, LoaderAccepts, Orphaned, Headless, Unloadable, Resumable, CanTake,
        OwnedControllerName, Running, ControllerReady;
      Opening();
      scope := None;
      if world.state.None? { return Done, scope; }
      var state;
      outcome, state := LoadScope();
      if !outcome.Done? { return; }
      if state.active != {} {
        InUseIsOpen(state);
        return outcome, Some(state);
      }
      outcome := CloseScope(state);
    }

    /** The facts about the world found that the rest of the command needs. */
    lemma Opening()
      requires Known()
      ensures Children(Settles()) <= Children(world)
      ensures world.state.None? ==> world == origin == Settles() && Usable() && Resumable(world) && Live(world) == {}
      ensures world.state.None? ==> Origin(config, origin) && !Stuck()
    {
      SettledKeeps();
    }

    /** The name of a new controller is none of a run, whether recovery leaves its directory or not. */
    lemma SettlesWithout(name: string)
      requires Known() && OwnedControllerName(name) && name !in Children(origin)
      ensures name !in Children(Settles())
    {
      if Orphaned(config, origin, world) {
        OrphanBinds(config, origin, world);
        NotController(world.state.value.pending.value, name);
        OrphanIdentity(config, origin, world, world.state.value.pending.value);
        StrandedOrigin(config, origin, world, world.state.value.pending.value);
      }
    }

    /** Saves the scope without its vanished runs and restores it. */
    method CloseScope(state: ScopeState) returns (outcome: Outcome)
      requires Origin(config, origin) && Mid(config, origin, world) && Describes(config, origin, world, state)
      requires !InUse(state)
      modifies `world, `faults
      ensures Known() && (outcome.Done? ==> world == origin && Origin(config, origin) && !Held(origin, state))
      ensures Children(origin) <= Children(world)
      ensures world.state == old(world).state || Heir(world.state, state.preexisting, {})
      ensures Held(origin, state) ==> Mid(config, origin, world) && Children(world) == Children(old(world))
      ensures old(faults) == [] ==>
                && faults == [] && !outcome.Crashed? && (outcome.Done? <==> !Held(origin, state))
                && (Held(origin, state) ==> Idle(world))
    {
      DescribedLoads(state);
      hide Mid, Origin, Apply, Belongs, LoaderAccepts, BindAccepts, Held;
      outcome := Perform(SaveState(state));
      SaveEffect(config, state);
      MidBelongs(config, origin, world);
      BelongingKeeps(config, origin, world);
      if !outcome.Done? { return; }
      outcome := Restore(state);
      BelongingKeeps(config, origin, world);
    }

    lemma DescribedLoads(state: ScopeState)
      requires Describes(config, origin, world, state)
      ensures LoaderAccepts(config, state)
    {}

    lemma InUseIsOpen(state: ScopeState)
      requires Origin(config, origin) && Mid(config, origin, world)
      requires Describes(config, origin, world, state) && state.active != {} && state.pending.None?
      ensures Open(state)
    {}

    /** The arguments are ones PrepareRunInScope does not refuse. */
    predicate Acceptable(run: string, bound: bool) {
      SafeRunId(run) && (bound ==> ResourceName(run))
    }

    /**
     PrepareRunInScope, in every world an earlier command may have left.  An unrecorded
     directory of a pending run is left to the hierarchy, and no command but the removal
     of a run its state knows takes a directory away.
     */
    method PrepareRun(run: string, bound: bool, name: string) returns (outcome: Outcome)
      requires Known() && OwnedControllerName(name) && name !in Children(origin)
      modifies this
      ensures Known() && Children(old(Settles())) <= Children(world)
      // what is restored in the end changes only by adoption and by stranding an announced run
      ensures Traces(old(origin), old(Firm()), Awaited(old(world).state) + {run}, {})
      ensures Awaited(world.state) <= Awaited(old(world).state) + {run}
      ensures old(Calm()) ==> Calm() && origin == old(origin)
      ensures outcome.Done? ==>
                && Mid(config, origin, world) && run in world.state.value.active
                && world.simulator.Some? && run in world.simulator.value.children
                && MANAGED <= world.simulator.value.children[run].enabled
      ensures old(faults) == [] ==> faults == [] && !outcome.Crashed?
      // refused untouched: bad arguments, an unloadable or unbindable scope, a run recovery refuses
      ensures old(faults) == [] && !(old(Usable()) && Resumable(old(world)) && Acceptable(run, bound)) ==>
                outcome.Failed? && world == old(world) && origin == old(origin)
      // afterwards the state knows a directory of the hierarchy exactly if a new scope adopted it
      ensures old(faults) == [] && old(Usable()) && Resumable(old(world)) && Acceptable(run, bound) ==>
                KnowsAdopted(old(Settles()))
      // beside live runs: fails exactly for a name recovery leaves taken or missing controllers
      ensures old(faults) == [] && old(Usable()) && Resumable(old(world)) && Acceptable(run, bound)
              && Live(old(world)) != {} ==>
                && origin == old(Settles()) && Usable()
                && (outcome.Done? <==> run !in Settled(old(world)) && MANAGED <= Enabled(old(world)))
                && (outcome.Failed? ==> Live(world) == Live(old(world)) && Children(world) == Settled(old(world)))
                && (outcome.Failed? && old(Busy(Live(world))) && Awaited(old(world).state) == {} ==> Busy(Live(world)))
                && (outcome.Done? ==> Busy(Live(old(world)) + {run}))
      // with no live run and nothing that holds an own simulator: restored first, then begun anew
      ensures old(faults) == [] && old(Idles()) && !old(Stuck()) && Acceptable(run, bound) ==>
                && Usable() && (origin == old(Settles()) || origin == Bare(old(Settles())))
                && (outcome.Done? <==> CanTake(old(Settles())) && run !in Children(old(Settles())))
                && (outcome.Failed? && ResourceChildren(old(Settles())) == {} ==> world == origin == old(Settles()))
                && (outcome.Done? ==> Busy(ResourceChildren(old(Settles())) + {run}))
      // with something in an own simulator: restoration is refused, and the preparation with it
      ensures old(faults) == [] && old(Idles()) && old(Stuck()) && Acceptable(run, bound) ==>
                && outcome.Failed? && origin == old(Settles()) && Mid(config, origin, world) && Idle(world)
                && Children(world) == Settled(old(world))
    {
      hide Mid, Origin, Apply, Belongs, LoaderAccepts, Orphaned, OrphanOf, Headless, Unloadable, Resumable, Held,
        CanTake, OwnedControllerName, SafeRunId, ResourceName, Running, ControllerReady, Bare, Stranded, Traces, Calm,
        Tracked, SettlesTo, KnowsAdopted;
      CalmSettles();
      SettledKeeps();
      SettlesWithout(name);
      ghost var firm := Firm();
      TracesItself(firm, Awaited(world.state) + {run}, {});
      if !SafeRunId(run) || (bound && !ResourceName(run)) { return Failed; }
      var scope;
      outcome, scope := OpenScope();
      ghost var begun, ready := origin, Firm();
      if !outcome.Done? {
        TracesItself(ready, {run}, {});
        if old(faults) == [] && old(Idles()) && old(Stuck()) { Settling(false, run, origin); }
      } else if scope.Some? {
        ready := ready && scope.value.preexisting;
        outcome := Beside(scope.value, run, bound);
      } else {
        outcome := Afresh(run, bound, name);
      }
      TracesRun(old(origin), old(world), begun, firm, ready, run);
    }

    /** The run is added beside the live ones. */
    method Beside(state: ScopeState, run: string, bound: bool) returns (outcome: Outcome)
      requires Open(state) && SafeRunId(run) && (bound ==> ResourceName(run)) && state.active != {}
      modifies this
      ensures Known() && Children(old(origin)) <= Children(world)
      ensures Traces(old(origin), old(Firm()) && state.preexisting, {run}, {})
      ensures Awaited(world.state) <= Awaited(old(world).state) + {run}
      ensures outcome.Done? ==>
                && Mid(config, origin, world) && run in world.state.value.active
                && world.simulator.Some? && run in world.simulator.value.children
                && MANAGED <= world.simulator.value.children[run].enabled
      ensures old(faults) == [] ==> faults == [] && !outcome.Crashed?
      ensures old(faults) == [] && old(world).state.Some? && old(world).state.value.pending.None?
              && state.active == Live(old(world)) ==>
                && origin == old(origin) && Usable() && KnowsAdopted(origin)
                && (ResourceChildren(origin) == {} ==> Calm())
                && (outcome.Done? <==> run !in Children(old(world)) && MANAGED <= Enabled(old(world)))
                && (outcome.Failed? ==> Live(world) == Live(old(world)) && Children(world) == Children(old(world)))
                && (outcome.Failed? && old(Busy(Live(world))) ==> Busy(Live(world)))
                && (outcome.Done? ==> Busy(Live(old(world)) + {run}))
    {
      hide Mid, Origin, Apply, Belongs, LoaderAccepts, Orphaned, OrphanOf, Headless, Unloadable, Held, SafeRunId,
        ResourceName, Running, ControllerReady, OwnedControllerName, Traces, Tracked, Calm, KnowsAdopted;
      assert Live(world) <= Children(world);
      outcome := TryRun(state, run, bound);
      LiveAgain(world, state.active);
      LiveAgain(world, state.active + {run});
      if old(faults) == [] && old(world).state.Some? && old(world).state.value.pending.None? {
        Settling(false, run, origin);
      }
    }

    /** A new scope is begun and the run added to it; if either fails, the scope is undone. */
    method Afresh(run: string, bound: bool, name: string) returns (outcome: Outcome)
      requires Origin(config, origin) && world == origin
      requires OwnedControllerName(name) && name !in Children(origin)
      requires SafeRunId(run) && (bound ==> ResourceName(run))
      modifies this
      ensures Known() && Children(old(origin)) <= Children(world)
      ensures Traces(old(origin), old(Firm()), {run}, {})
      ensures Awaited(world.state) <= {run}
      ensures outcome.Done? ==>
                && Mid(config, origin, world) && run in world.state.value.active
                && world.simulator.Some? && run in world.simulator.value.children
                && MANAGED <= world.simulator.value.children[run].enabled
      ensures old(faults) == [] ==>
                && faults == [] && !outcome.Crashed? && Usable() && KnowsAdopted(old(origin))
                && (origin == old(origin) || origin == Bare(old(origin)))
                && (outcome.Done? <==> CanTake(old(origin)) && run !in Children(old(origin)))
                && (ResourceChildren(old(origin)) == {} ==> origin == old(origin) && Calm())
                && (ResourceChildren(old(origin)) == {} && outcome.Failed? ==> world == origin)
                && (outcome.Done? ==> Busy(ResourceChildren(old(origin)) + {run}))
    {
      hide Mid, Origin, Apply, Belongs, LoaderAccepts, Orphaned, OrphanOf, Headless, Unloadable, Held, SafeRunId,
        ResourceName, Running, ControllerReady, OwnedControllerName, Traces, Tracked, Calm, KnowsAdopted, Bare, CanTake;
      ghost var w0, firm := origin, Firm();
      NoStateYet(config, w0);
      var state, published;
      outcome, state, published := Begin(run, name);
      BareKeeps(w0);
      ghost var begun, ready := origin, Firm();
      if outcome.Done? {
        FreshChildren(state, run, w0);
        ready := ready && state.preexisting;
        outcome := TryRun(state, run, bound);
      } else if outcome.Failed? && published {
        ready := ready && state.preexisting;
        outcome := Retract(state, run);
      } else {
        TracesItself(ready, {run}, {});
      }
      TracesBegun(w0, begun, firm, ready, run);
      LiveAgain(world, ResourceChildren(w0) + {run});
      if old(faults) == [] { Settling(published, run, w0); }
    }

    /** A published scope that did not start is undone; the preparation has failed. */
    method Retract(state: ScopeState, run: string) returns (outcome: Outcome)
      requires Known() && Tracked(state) && state.pending.None?
      modifies this
      ensures Known() && Children(origin) <= Children(world) && !outcome.Done? && origin == old(origin)
      ensures state.active != {} ==> Children(old(world)) <= Children(world)
      ensures Traces(origin, old(Firm()) && state.preexisting, {run}, {})
      ensures Awaited(world.state) <= Awaited(old(world).state)
      ensures old(faults) == [] && old(Scope(state)) ==>
                && faults == [] && outcome.Failed?
                && (if state.active == {} && !Held(origin, state) then world == origin
                    else
                      && Mid(config, origin, world) && Children(world) == Children(old(world))
                      && world.state.Some? && world.state.value.active == state.active
                      && world.state.value.pending.None?)
    {
      hide Mid, Origin, Apply, Belongs, LoaderAccepts, Orphaned, OrphanOf, Headless, Unloadable, Held, Running,
        Stranded, Traces;
      outcome := Rollback(state, run, false, false);
      TracesItself(old(Firm()) && state.preexisting, {run}, {});
      BelongingKeeps(config, origin, world);
      if !outcome.Crashed? { outcome := Failed; }
    }

    lemma Settling(published: bool, run: string, w0: World)
      requires Known() && origin == (if published then Bare(w0) else w0)
      requires || (world == origin && (published ==> ResourceChildren(w0) == {}))
               || (&& Mid(config, origin, world) && world.state.Some? && world.state.value.pending.None?
                   && (published ==> ResourceChildren(w0) <= world.state.value.active))
      ensures Usable() && KnowsAdopted(w0)
      ensures ResourceChildren(w0) == {} ==> origin == w0 && (faults == [] ==> Calm())
    {
      BareKeeps(w0);
      HierarchyIsUnknown(w0, run);
    }

    lemma CalmSettles()
      ensures Settles() == SettlesTo(config, origin, world) && (Firm() ==> origin.simulator.Some?)
      ensures Calm() ==>
                Usable() && Resumable(world) && Settles() == origin && faults == [] && ResourceChildren(origin) == {}
    {}

    /** First one change of the hierarchy, then another. */
    lemma TracesOn(origin0: World, begun: World, firm: bool, stranded: set<string>, lost: set<string>, s: set<string>,
                   l: set<string>)
      requires Shifted(origin0, begun, stranded, lost) && (firm ==> SameSimulator(origin0, begun))
      requires Traces(begun, firm, s, l)
      ensures Traces(origin0, firm, stranded + s, lost + l)
    {
      hide Shifted, Firm;
      ShiftsOn(origin0, begun, origin, stranded, lost, s, l);
    }

    lemma TracesBegun(w0: World, begun: World, firm: bool, ready: bool, run: string)
      requires w0.state.None? && (begun == w0 || begun == Bare(w0))
      requires Traces(begun, ready, {run}, {}) && (firm ==> ready && w0.simulator.Some?)
      ensures Traces(w0, firm, {run}, {})
    {
      hide Mid, Traces;
      TracesRun(w0, w0, begun, firm, ready, run);
      assert Awaited(w0.state) + {run} == {run};
    }

    /** Opening a scope and then adding a run to it. */
    lemma TracesRun(origin0: World, world0: World, begun: World, firm: bool, ready: bool, run: string)
      requires || begun == origin0 || begun == SettlesTo(config, origin0, world0)
               || begun == Bare(SettlesTo(config, origin0, world0))
      requires Traces(begun, ready, {run}, {}) && (firm ==> ready && origin0.simulator.Some?)
      ensures Traces(origin0, firm, Awaited(world0.state) + {run}, {})
    {
      hide Shifted, Firm;
      OpensShifted(config, origin0, world0, begun);
      TracesOn(origin0, begun, firm, Awaited(world0.state), {}, {run}, {});
      var nothing: set<string> := {};
      assert nothing + nothing == nothing;
    }

    lemma TracesItself(firm: bool, stranded: set<string>, lost: set<string>)
      requires firm ==> Firm()
      ensures Traces(origin, firm, stranded, lost)
    {
      Unshifted(origin, stranded, lost);
    }

    /** The state knows exactly those directories of the hierarchy that are no longer part of it. */
    ghost predicate KnowsAdopted(w0: World)
      reads this
    {
      forall name | name in Children(w0) :: Knows(name) <==> name !in Children(origin)
    }

    lemma HierarchyIsUnknown(w0: World, run: string)
      requires Usable() && (world.state.Some? ==> Mid(config, origin, world) && world.state.value.pending.None?)
      requires origin == w0 ||
                 (origin == Bare(w0) && world.state.Some? && ResourceChildren(w0) <= world.state.value.active)
      ensures KnowsAdopted(w0)
    {
      BareKeeps(w0);
      forall name | name in Children(w0) ensures Knows(name) <==> name !in Children(origin) {
        if name in Children(origin) {
          assert name in ChildrenBefore(origin);
          assert world.state.Some? ==> name !in world.state.value.active by {
            if world.state.Some? { HierarchyIsNoRun(config, origin, world, name); }
          }
        }
      }
    }

    /** Adds the run, and undoes the attempt when it fails. */
    method TryRun(state0: ScopeState, run: string, bound: bool) returns (outcome: Outcome)
      requires Open(state0) && SafeRunId(run) && (bound ==> ResourceName(run))
      modifies this
      ensures Known() && Children(old(origin)) <= Children(world)
      ensures Traces(old(origin), old(Firm()) && state0.preexisting, {run}, {})
      ensures Awaited(world.state) <= Awaited(old(world).state) + {run}
      ensures state0.active - {run} != {} ==> Children(old(world)) <= Children(world)
      ensures outcome.Done? ==>
                && Mid(config, origin, world) && run in world.state.value.active
                && world.simulator.Some? && run in world.simulator.value.children
                && MANAGED <= world.simulator.value.children[run].enabled
                && world.state.Some? && world.state.value.active == state0.active + {run}
                && world.state.value.pending.None?
      ensures old(faults) == [] ==>
                && faults == [] && !outcome.Crashed? && origin == old(origin)
                && (outcome.Done? <==>
                      run !in state0.active && run !in Children(old(world)) && MANAGED <= Enabled(old(world)))
                && (run in state0.active ==> world == old(world))
                && (outcome.Failed? && run !in state0.active ==>
                      if state0.active == {} && !Held(origin, state0) then world == origin
                      else
                        && Mid(config, origin, world) && Children(world) == Children(old(world))
                        && world.state.Some? && world.state.value.active == state0.active
                        && world.state.value.pending.None?)
    {
      hide Mid, Origin, Apply, Belongs, LoaderAccepts, Headless, Unloadable, Running, SafeRunId, ResourceName,
        ControllerReady, OrphanOf, OwnedControllerName, Held, Shifted, Stranded;
      Unshifted(origin, {run}, {});
      OpenIsKnown(state0);
      BelongingKeeps(config, origin, world);
      var state, attempted, made;
      outcome, state, attempted, made := AddRun(state0, run, bound);
      if outcome.Failed? && attempted {
        ghost var before := origin;
        HeldLike(origin, state0, state);
        assert Remaining(state, run, attempted) == state0.active - {run};
        ghost var during := world;
        var undone := Rollback(state, run, attempted, made);
        if origin != before { StrandedShifts(config, before, during, run); OrphanHas(before, during, run); }
        if before.simulator.Some? { SimulatorStays(before, state, during, run); }
        StrandedKeeps(before, run);
        if undone.Crashed? { outcome := Crashed; }
      }
      BelongingKeeps(config, origin, world);
    }

    lemma OrphanHas(before: World, w: World, run: string)
      requires OrphanOf(config, before, w, run)
      ensures w.simulator.Some? && run in w.simulator.value.children
    {}

    lemma StrandedKeeps(before: World, run: string)
      requires Known()
      requires origin == before || exists w: World ::
                 w.simulator.Some? && run in w.simulator.value.children && origin == Stranded(before, w, run)
      ensures Children(before) <= Children(world)
    {
      BelongingKeeps(config, origin, world);
    }

    lemma BareKeeps(w0: World)
      ensures Children(w0) == Children(Bare(w0)) + ResourceChildren(w0)
      ensures ResourceChildren(w0) == {} ==> Bare(w0) == w0
      ensures Bare(w0).simulator.Some? <==> w0.simulator.Some?
    {
      if ResourceChildren(w0) == {} && w0.simulator.Some? {
        assert w0.simulator.value.children - ResourceChildren(w0) == w0.simulator.value.children;
      }
    }

    lemma OpenChildren(state: ScopeState, run: string)
      requires Open(state) && SafeRunId(run)
      ensures run in Children(world) ==> run in Children(origin) || run in state.active
      ensures run in Children(origin) ==> run in Children(world)
    {
      NotController(run, state.controllerName);
    }

    /** In a fresh scope the taken names are those of the original hierarchy, adopted or not. */
    lemma FreshChildren(state: ScopeState, run: string, w0: World)
      requires Open(state) && SafeRunId(run) && origin == Bare(w0) && state.active == ResourceChildren(w0)
      requires ResourceChildren(w0) <= Children(world)
      ensures run in Children(world) <==> run in Children(w0)
    {
      OpenChildren(state, run);
      BareKeeps(w0);
    }

    predicate Knows(run: string)
      reads this
    {
      world.state.Some? && (run in world.state.value.active || world.state.value.pending == Some(run))
    }

    /** The run is the only one left. */
    predicate Last(run: string)
      reads this
    {
      && world.state.Some? && world.state.value.active <= {run}
      && (world.state.value.pending.None? || world.state.value.pending == Some(run))
    }

    /** An older directory of the pending run's name. */
    ghost predicate Taken(run: string)
      reads this
    {
      Foreign(world, run) && run in Children(origin)
    }

    /** Impossible for a run with a resource name where the hierarchy has none. */
    lemma ForeignIsNoResource(run: string)
      requires Taken(run) && ResourceChildren(origin) == {}
      ensures !ResourceName(run)
    {
      assert ResourceName(run) ==> run in ResourceChildren(origin);
    }

    lemma KnownRun(state: ScopeState, run: string)
      requires Usable() && world.state == Some(state) && Knows(run)
      ensures !state.ready && world.simulator.Some? && SafeRunId(run)
      ensures run in Children(world) && run in state.bindings ==>
                world.simulator.value.children[run].identity == state.bindings[run]
      ensures run in Children(world) && !Foreign(world, run) && Mid(config, origin, world) ==> run in Runs(state)
      ensures run !in Children(world) ==> run !in Children(origin)
      ensures Orphaned(config, origin, world) && state.pending == Some(run) ==>
                OrphanOf(config, origin, world, run) && run in Children(world) && run !in Children(origin)
      ensures Foreign(world, run) && Mid(config, origin, world) ==> run in Children(origin)
      ensures Foreign(world, run) && !Mid(config, origin, world) ==> OrphanOf(config, origin, world, run)
    {
      Loaded(state);
      if Orphaned(config, origin, world) { OrphanRuns(state, run); }
    }

    lemma OrphanRuns(state: ScopeState, run: string)
      requires Origin(config, origin) && Orphaned(config, origin, world) && world.state == Some(state) && Knows(run)
      ensures !state.ready && world.simulator.Some? && SafeRunId(run)
      ensures run in Children(world) && run in state.bindings ==>
                world.simulator.value.children[run].identity == state.bindings[run]
      ensures run !in Children(world) ==> run !in Children(origin)
    {
      OrphanBinds(config, origin, world);
      MidKeeps(config, origin, Without(world, state.pending.value));
    }

    /** Killing and removing the run's directory, whoever made it. */
    method RemoveDirectory(state: ScopeState, run: string) returns (outcome: Outcome)
      requires Usable() && world.state == Some(state) && Knows(run) && run in Children(world)
      modifies this
      ensures Usable() && world.state == Some(state)
      ensures world == old(world) || world == Without(old(world), run)
      ensures origin ==
              if old(Taken(run)) && run !in Children(world) then Lost(old(origin), state, run) else old(origin)
      ensures Traces(old(origin), old(Firm()), {}, Awaited(Some(state)) * {run})
      ensures old(Calm()) ==> Calm() && origin == old(origin)
      ensures outcome.Done? ==> run !in Children(world)
      ensures old(faults) == [] ==> faults == [] && outcome.Done?
    {
      DirectoryGoes(state, run);
      KillChildEffect(config, world, run);
      TracesDropped(state, run);
      CalmAwaits();
      ghost var taken, firm := Taken(run), Firm();
      hide Mid, Origin, Apply, Orphaned, Shifted, SameSimulator, Calm, ResourceChildren;
      outcome := Perform(KillChild(run));
      if taken && run !in Children(world) {
        origin := Lost(origin, state, run);
        assert Awaited(Some(state)) * {run} == {run};
      } else {
        TracesItself(firm, {}, Awaited(Some(state)) * {run});
      }
      CalmAgain();
    }

    /** Without the directory the world is usable again, for the hierarchy it then belongs to. */
    lemma DirectoryGoes(state: ScopeState, run: string)
      requires Usable() && world.state == Some(state) && Knows(run) && run in Children(world)
      ensures Apply(config, world, KillChild(run)) == Some(Without(world, run)) && run !in Children(Without(world, run))
      ensures var left := if Taken(run) then Lost(origin, state, run) else origin;
              && Origin(config, left) && Without(world, run).state == Some(state)
              && (Mid(config, left, Without(world, run)) || Orphaned(config, left, Without(world, run)))
    {
      KnownRun(state, run);
      Loaded(state);
      hide Mid, Origin;
      if Mid(config, origin, world) {
        if Foreign(world, run) {
          ForeignStep(config, origin, world, run);
        } else {
          assert world == world.(state := Some(state));
          DropRunStep(config, origin, world, state, run);
          assert Without(world, run).(state := Some(state)) == Without(world, run);
        }
      } else if state.pending == Some(run) {
        ReclaimStep(config, origin, world, run);
      } else {
        OrphanDrop(config, origin, world, run);
      }
    }

    lemma GoneStaysGone(run: string)
      requires Mid(config, origin, world) && Idle(world) && SafeRunId(run) && run !in Children(origin)
      ensures run !in Children(world)
    {
      NotController(run, world.state.value.controllerName);
    }

    lemma CalmAwaits()
      ensures Calm() ==> faults == [] && ResourceChildren(origin) == {} && Usable() && Awaited(world.state) == {}
    {}

    lemma CalmAgain()
      ensures faults == [] && ResourceChildren(origin) == {} && Usable() && Awaited(world.state) == {} ==> Calm()
    {}

    /** A run the state does not know is not there; without any the scope is given up. */
    method LeaveScope(state: ScopeState, run: string) returns (outcome: Outcome)
      requires Usable() && world.state == Some(state) && !Knows(run) && run !in Children(world) && SafeRunId(run)
      modifies `world, `faults
      ensures Usable() && run !in Children(world)
      ensures Awaited(world.state) <= Awaited(Some(state)) && (old(Firm()) ==> Firm()) && (old(Calm()) ==> Calm())
      ensures !old(Last(run)) ==> outcome.Done? && world == old(world)
      ensures outcome.Done? && old(Last(run)) ==> world == origin
      ensures old(faults) == [] ==>
                faults == [] && !outcome.Crashed? && (outcome.Done? <==> !(old(Last(run)) && Held(origin, state)))
    {
      Loaded(state);
      UnknownRun(state, run);
      hide Mid, Origin, Apply, LoaderAccepts, BindAccepts, SafeRunId, Belongs, Orphaned, OrphanOf, Held, Calm;
      CalmAwaits();
      outcome := Done;
      if state.active == {} && state.pending.None? {
        outcome := Restore(state);
        if world != origin { GoneStaysGone(run); }
        CalmAgain();
      }
    }

    /** Dropping the run from the state, and the scope with its last run. */
    method ForgetRun(state0: ScopeState, run: string) returns (outcome: Outcome)
      requires Usable() && world.state == Some(state0) && Knows(run) && run !in Children(world)
      modifies `world, `faults
      ensures Usable() && run !in Children(world)
      ensures Awaited(world.state) <= Awaited(Some(state0))
      ensures outcome.Done? && old(Last(run)) ==> world == origin
      ensures outcome.Done? && !old(Last(run)) ==> world.state == Some(Forgotten(state0, run))
      ensures old(faults) == [] ==>
                faults == [] && !outcome.Crashed? && (outcome.Done? <==> !(old(Last(run)) && Held(origin, state0)))
      ensures !old(Last(run)) ==>
                world == old(world) || world == old(world).(state := Some(Forgotten(state0, run)))
      ensures (old(Firm()) ==> Firm()) && (old(Calm()) ==> Calm())
    {
      hide Mid, Origin, Apply, SafeRunId, Orphaned, Held, Calm, ResourceChildren, Forgotten;
      RunForgotten(state0, run);
      CalmAwaits();
      var state := Forgotten(state0, run);
      outcome := Perform(SaveState(state));
      SaveEffect(config, state);
      if !outcome.Done? { return; }
      CalmAgain();
      outcome := LeaveScope(state, run);
    }

    lemma RunForgotten(state0: ScopeState, run: string)
      requires Usable() && world.state == Some(state0) && Knows(run) && run !in Children(world)
      ensures var state := Forgotten(state0, run);
              var next := world.(state := Some(state));
              && (Mid(config, origin, next) || Orphaned(config, origin, next)) && SafeRunId(run)
              && (Held(origin, state) <==> Held(origin, state0))
              && state.preexisting == state0.preexisting && Awaited(Some(state)) <= Awaited(Some(state0))
              && run !in state.active && state.pending != Some(run)
              && (Last(run) <==> state.active <= {run} && (state.pending.None? || state.pending == Some(run)))
    {
      KnownRun(state0, run);
      Loaded(state0);
      ForgetLoads(config, state0, run);
      if Mid(config, origin, world) {
        assert world == world.(state := Some(state0));
        ForgetStep(config, origin, world, state0, run);
      } else {
        OrphanForget(config, origin, world, run);
      }
      assert state0.active - {run} == {} <==> state0.active <= {run};
    }

    /** The run's directory, if it is there and as the state says. */
    method TakeDirectory(state: ScopeState, run: string) returns (outcome: Outcome)
      requires Usable() && world.state == Some(state) && Knows(run)
      modifies this
      ensures Usable() && world.state == Some(state)
      ensures world == old(world) || (old(world).simulator.Some? && world == Without(old(world), run))
      ensures origin ==
              if old(Taken(run)) && run !in Children(world) then Lost(old(origin), state, run) else old(origin)
      ensures Traces(old(origin), old(Firm()), {}, Awaited(Some(state)) * {run})
      ensures old(Calm()) ==> Calm() && origin == old(origin)
      ensures outcome.Done? ==> run !in Children(world)
      ensures old(faults) == [] ==> faults == [] && outcome.Done?
    {
      KnownRun(state, run);
      TracesItself(Firm(), {}, Awaited(Some(state)) * {run});
      hide Mid, Origin, Apply, Orphaned, OrphanOf, SafeRunId, Calm, Traces, Firm, Lost, Without, Usable, Awaited;
      if world.simulator.None? { return Failed; }
      if run !in world.simulator.value.children { return Done; }
      if run in state.bindings && world.simulator.value.children[run].identity != state.bindings[run] {
        return Failed;
      }
      outcome := RemoveDirectory(state, run);
    }

    /** The part of RemoveRunInScope for a run the state knows. */
    method DropRun(state: ScopeState, run: string) returns (outcome: Outcome)
      requires Usable() && world.state == Some(state) && Knows(run)
      modifies this
      ensures Usable()
      ensures origin ==
              if old(Taken(run)) && run !in Children(world) then Lost(old(origin), state, run) else old(origin)
      ensures Traces(old(origin), old(Firm()), {}, Awaited(Some(state)) * {run})
      ensures Awaited(world.state) <= Awaited(Some(state))
      ensures old(Calm()) ==> Calm() && origin == old(origin)
      ensures !old(Last(run)) ==> OnlyDropped(old(world), world, run)
      ensures outcome.Done? ==> run !in Children(world)
      ensures outcome.Done? && old(Last(run)) ==> world == origin
      ensures outcome.Done? && !old(Last(run)) ==> world.state == Some(Forgotten(state, run))
      ensures old(faults) == [] ==>
                && faults == [] && !outcome.Crashed? && run !in Children(world)
                && (outcome.Done? <==> !(old(Last(run)) && Held(origin, state)))
    {
      ghost var firm, lost := Firm(), Awaited(Some(state)) * {run};
      hide Mid, Origin, Apply, Orphaned, OrphanOf, Held, SafeRunId, Shifted, SameSimulator, Calm, Traces, Firm,
        OnlyDropped, Forgotten, Taken, Lost, Without, Usable, Awaited;
      outcome := TakeDirectory(state, run);
      ghost var during := world;
      Dropped(old(world), during, during, run);
      if !outcome.Done? { return; }
      TracesMeans(old(origin), firm, {}, lost);
      outcome := ForgetRun(state, run);
      Dropped(old(world), during, world, run);
      TracesSo(old(origin), firm, {}, lost);
    }

    /** What removing the pending run's older directory does to the hierarchy. */
    lemma TracesDropped(state: ScopeState, run: string)
      requires Usable() && world.state == Some(state)
      ensures Taken(run) ==> state.pending == Some(run)
      ensures Taken(run) ==> Shifted(origin, Lost(origin, state, run), {}, {run})
      ensures Taken(run) && Firm() ==> SameSimulator(origin, Lost(origin, state, run))
    {
      if Taken(run) {
        KnownRun(state, run);
        OrphanHasNot(run);
        LostShifts(config, origin, world, run);
        if Firm() { SimulatorStays(origin, state, world, run); }
      }
    }

    lemma OrphanHasNot(run: string)
      ensures OrphanOf(config, origin, world, run) ==> run !in Children(origin)
    {
      hide Mid;
    }

    /**
     RemoveRunInScope, in every world an earlier command may have left.  It takes the
     directory of a run the state knows: the run's own, recorded or not, or, when the run
     was announced but never made, an older one of its name.  Then, and only then, the
     world no longer belongs to the hierarchy it belonged to before.
     */
    method RemoveRun(run: string) returns (outcome: Outcome)
      requires Known()
      modifies this
      ensures Known() && (old(Usable()) ==> Usable())
      ensures origin == if old(Taken(run) && Usable()) && run !in Children(world)
                        then Lost(old(origin), old(world).state.value, run) else old(origin)
      ensures Traces(old(origin), old(Firm()), {}, Awaited(old(world).state) * {run})
      ensures Awaited(world.state) <= Awaited(old(world).state)
      ensures old(Calm()) ==> Calm() && origin == old(origin)
      ensures Belongs(config, old(origin), world) <==> !(old(Taken(run)) && run !in Children(world))
      ensures !old(Last(run)) ==> OnlyDropped(old(world), world, run)
      // a directory goes only with a run the state knows, and then without faults it does go
      ensures run in Children(old(world)) && !(old(Knows(run)) && old(Usable())) ==>
                outcome.Failed? && world == old(world) && origin == old(origin)
      ensures old(faults) == [] && SafeRunId(run) && old(Knows(run)) && old(Usable()) ==> run !in Children(world)
      ensures outcome.Done? ==> run !in Children(world)
      ensures outcome.Done? && old(Knows(run)) && !old(Last(run)) ==>
                world.state == Some(Forgotten(old(world).state.value, run))
      ensures outcome.Done? && old(Last(run)) ==> world == origin
      ensures old(faults) == [] ==>
                && faults == [] && !outcome.Crashed?
                && (outcome.Done? <==>
                      && SafeRunId(run) && old(Usable()) && (old(Knows(run)) || run !in Children(old(world)))
                      && !(old(Last(run)) && Held(origin, old(world).state.value)))
    {
      ghost var origin0, taken, firm := origin, Taken(run), Firm();
      TracesItself(firm, {}, Awaited(world.state) * {run});
      if !SafeRunId(run) {
        UnsafeIsUnknown(run);
        return Failed;
      }
      if world.state.None? {
        AtOrigin();
        return if run in Children(world) then Failed else Done;
      }
      var state := world.state.value;
      Loads(state);
      if Usable() { Loaded(state); if Knows(run) { KnownRun(state, run); } else { UnknownRun(state, run); } }
      hide Mid, Origin, Apply, LoaderAccepts, BindAccepts, SafeRunId, Belongs, Orphaned, OrphanOf, Headless, Unloadable,
        Held, Traces, Calm;
      if !LoaderAccepts(config, state) || !BindAccepts(world, state) { return Failed; }
      if run !in state.active && state.pending != Some(run) {
        if run in Children(world) || run in state.bindings { return Failed; }
        outcome := LeaveScope(state, run);
        TracesItself(firm, {}, Awaited(Some(state)) * {run});
        UsableIsKnown();
        return;
      }
      outcome := DropRun(state, run);
      UsableIsKnown();
      if taken && run !in Children(world) {
        if Belongs(config, origin0, world) { BelongingKeeps(config, origin0, world); }
      }
    }

    lemma UnsafeIsUnknown(run: string)
      requires Known() && !SafeRunId(run)
      ensures !(Knows(run) && Usable())
    {
      if Knows(run) && Usable() { KnownRun(world.state.value, run); }
    }

    /** Without a state file the hierarchy is the one to restore. */
    lemma AtOrigin()
      requires Known() && world.state.None?
      ensures world == origin && Usable()
    {}

    lemma UnknownRun(state: ScopeState, run: string)
      requires Usable() && world.state == Some(state) && !Knows(run)
      ensures run !in state.bindings && (run !in Children(world) ==> run !in Children(origin))
      ensures !InUse(state) ==> Mid(config, origin, world) && Idle(world)
    {
      Loaded(state);
      SettledKeeps();
    }

    /** Between two commands processes come to and leave an active run. */
    method Populate(run: string, procs: set<nat>)
      requires Known()
      modifies `world
      ensures Known() && (old(Usable()) ==> Usable()) && Children(world) == Children(old(world))
      ensures world == old(world) ||
                (Knows(run) && run in Children(old(world)) && world == Populated(old(world), run, procs))
      ensures world.state == old(world).state && (old(Calm()) ==> Calm())
    {
      if world.state.None? || run !in world.state.value.active || run !in Children(world) { return; }
      var state := world.state.value;
      Loads(state);
      if !LoaderAccepts(config, state) || !BindAccepts(world, state) { return; }
      Loaded(state);
      if Mid(config, origin, world) {
        PopulateStep(config, origin, world, run, procs);
      } else {
        OrphanPopulate(config, origin, world, run, procs);
      }
      hide Mid, Origin, Orphaned, LoaderAccepts, BindAccepts;
      world := Populated(world, run, procs);
      UsableIsKnown();
    }

    /** One command, whatever the earlier ones left. */
    method Issue(command: Command) returns (outcome: Outcome)
      requires Known()
      modifies this
      ensures Known()
      ensures Traces(old(origin), old(Firm()),
                     if command.Prepare? then Awaited(old(world).state) + {command.run} else {},
                     if command.Remove? then Awaited(old(world).state) * {command.run} else {})
      ensures Awaited(world.state) <= Awaited(old(world).state) + if command.Prepare? then {command.run} else {}
      ensures old(Calm()) ==> Calm() && origin == old(origin)
      ensures old(Orderly()) ==> Orderly() && Live(world) == Ongoing([command], [outcome], Live(old(world)))
    {
      hide Mid, Origin, Belongs, OwnedControllerName, Orphaned, OrphanOf, Headless, Unloadable, SafeRunId, Traces, Calm,
        Ongoing, Resumable, Usable, Settles, SettlesTo, KnowsAdopted, ResourceChildren, Forgotten, OnlyDropped;
      ghost var before, firm, awaited, live := world, Firm(), Awaited(world.state), Live(world);
      CalmSettles();
      if Orderly() { OrderlyRun(command.run); }
      match command {
        case Prepare(run, bound, name) =>
          BelongingKeeps(config, origin, world);
          if !OwnedControllerName(name) || name in Children(world) {
            outcome := Failed;
            TracesItself(firm, awaited + {run}, {});
          } else {
            outcome := PrepareRun(run, bound, name);
            TracesMeans(old(origin), firm, awaited + {run}, {});
            var nothing: set<string> := {};
            assert nothing + {run} == {run};
          }
        case Remove(run) =>
          outcome := RemoveRun(run);
          TracesMeans(old(origin), firm, {}, awaited * {run});
          if old(Orderly()) { OrderlyRemoved(before, run); }
        case Work(run, procs) =>
          Populate(run, procs);
          outcome := Done;
          TracesItself(firm, {}, {});
      }
      OneCommand(command, outcome, live);
    }

    lemma OrderlyRun(run: string)
      requires Orderly()
      ensures Usable() && faults == [] && Awaited(world.state) == {}
      ensures world.state.None? ==> world == origin && Live(world) == {}
      ensures world.state.Some? ==> Busy(Live(world)) && !Held(origin, world.state.value)
      ensures Knows(run) ==> SafeRunId(run) && (Last(run) <==> Live(world) <= {run})
      ensures !Knows(run) ==> !Last(run) && run !in Live(world)
      ensures !Knows(run) && world.state.Some? ==> !(Live(world) <= {run})
    {
      hide Mid;
      if Knows(run) { KnownRun(world.state.value, run); }
      if world.state.Some? {
        var other :| other in Live(world);
      }
    }

    lemma OrderlyRemoved(before: World, run: string)
      requires Calm() && (origin.simulator.Some? ==> Firm())
      requires before.state.Some? ==> before.state.value.active == Live(before)
      requires || (world == origin && Live(before) <= {run})
               || (&& OnlyDropped(before, world, run) && (before.state.Some? ==> !(Live(before) <= {run}))
                   && (run !in Live(before)
                       || (run !in Children(world) && world.state == Some(Forgotten(before.state.value, run)))))
      ensures Orderly() && Live(world) == Live(before) - {run}
    {
      hide SimulatorMid, ReadyMid, Constraints, OnlyDropped, Forgotten, ResourceChildren;
      if OnlyDropped(before, world, run) { DroppedLive(before, world, run); }
    }

    /**
     Any commands in any order, under any faults, with processes coming and going.  What is
     restored in the end has the initial root, controllers and processes; of the directories
     under the simulator it lacks the adopted and the lost ones and has the stranded ones
     besides.  Without faults and without anything to adopt it is the initial hierarchy, and
     the host is back there as soon as every run is removed again.
     */
    method Execute(commands: seq<Command>) returns (outcomes: seq<Outcome>)
      requires Known()
      modifies this
      ensures |outcomes| == |commands|
      ensures Known() && Children(origin) <= Children(world) && (world.state.None? ==> world == origin)
      ensures var announced := Prepared(commands) + Awaited(old(world).state);
              && Traces(old(origin), old(Firm()), announced, announced * Removed(commands))
              && Awaited(world.state) <= announced
      ensures old(Calm()) ==> Calm() && origin == old(origin)
      ensures old(Orderly()) ==> Orderly() && Live(world) == Ongoing(commands, outcomes, Live(old(world)))
      ensures old(Orderly()) && Left(commands, Live(old(world))) == {} ==> world == old(origin)
    {
      hide Mid, Origin, Belongs, OwnedControllerName, Orphaned, OrphanOf, Headless, Unloadable, SafeRunId, Traces, Calm,
        Prepared, Removed, Ongoing, Left;
      outcomes := [];
      ghost var announced := Prepared(commands) + Awaited(world.state);
      ghost var lost := announced * Removed(commands);
      TracesItself(Firm(), announced, lost);
      assert commands[..0] == [];
      NoCommand(Live(world));
      for i := 0 to |commands|
        invariant |outcomes| == i
        invariant Known() && Awaited(world.state) <= announced
        invariant Traces(old(origin), old(Firm()), announced, lost)
        invariant old(Calm()) ==> Calm() && origin == old(origin)
        invariant old(Orderly()) ==> Orderly() && Live(world) == Ongoing(commands[..i], outcomes, Live(old(world)))
      {
        ghost var before, firm, awaited, live := origin, Firm(), Awaited(world.state), Live(world);
        TracesMeans(old(origin), old(Firm()), announced, lost);
        var outcome := Issue(commands[i]);
        Names(commands, i);
        TracesMore(old(origin), before, old(Firm()), firm, announced, lost,
                   if commands[i].Prepare? then awaited + {commands[i].run} else {},
                   if commands[i].Remove? then awaited * {commands[i].run} else {});
        OngoingOn(commands, i, outcomes, outcome, Live(old(world)));
        outcomes := outcomes + [outcome];
      }
      BelongingKeeps(config, origin, world);
      assert commands[..|commands|] == commands;
      OngoingIsLeft(commands, outcomes, Live(old(world)));
      if world.state.None? { AtOrigin(); }
    }

    lemma TracesSo(origin0: World, firm: bool, stranded: set<string>, lost: set<string>)
      requires Shifted(origin0, origin, stranded, lost) && (firm ==> Firm() && SameSimulator(origin0, origin))
      ensures Traces(origin0, firm, stranded, lost)
    {}

    lemma TracesMeans(origin0: World, firm: bool, stranded: set<string>, lost: set<string>)
      requires Traces(origin0, firm, stranded, lost)
      ensures Shifted(origin0, origin, stranded, lost) && (firm ==> Firm() && SameSimulator(origin0, origin))
    {}

    /** One more change of the hierarchy, within what was changed already. */
    lemma TracesMore(origin0: World, before: World, firm0: bool, firm: bool, stranded: set<string>, lost: set<string>,
                     s: set<string>, l: set<string>)
      requires Shifted(origin0, before, stranded, lost) && (firm0 ==> firm && SameSimulator(origin0, before))
      requires Traces(before, firm, s, l) && s <= stranded && l <= lost
      ensures Traces(origin0, firm0, stranded, lost)
    {
      hide Shifted, Firm;
      ShiftsOn(origin0, before, origin, stranded, lost, s, l);
      assert stranded + s == stranded && lost + l == lost;
    }
  }

  /** At most the run's directory and its entry in the state are gone. */
  predicate OnlyDropped(before: World, after: World, run: string) {
    && (|| after.state == before.state
        || (before.state.Some? && after.state == Some(Forgotten(before.state.value, run))))
    && (|| after == before.(state := after.state)
        || (before.simulator.Some? && after == Without(before, run).(state := after.state)))
  }

  lemma DroppedLive(before: World, after: World, run: string)
    requires OnlyDropped(before, after, run)
    ensures before.state.None? ==> after.state.None?
    ensures before.state.Some? && before.state.value.active == Live(before) && run !in Live(before) ==>
              after.state.Some? && after.state.value.active == Live(after) == Live(before)
    ensures before.state.Some? && before.state.value.active == Live(before) && run !in Children(after)
            && after.state == Some(Forgotten(before.state.value, run)) ==>
              after.state.value.active == Live(after) == Live(before) - {run}
  {}

  lemma Dropped(before: World, during: World, after: World, run: string)
    requires during == before || (before.simulator.Some? && during == Without(before, run))
    requires during.state == before.state && before.state.Some?
    ensures after == during || after == during.(state := Some(Forgotten(before.state.value, run))) ==>
              OnlyDropped(before, after, run)
  {}

  /** The runs these commands prepare. */
  function Prepared(commands: seq<Command>): set<string> {
    set i | 0 <= i < |commands| && commands[i].Prepare? :: commands[i].run
  }

  /** The runs these commands remove. */
  function Removed(commands: seq<Command>): set<string> {
    set i | 0 <= i < |commands| && commands[i].Remove? :: commands[i].run
  }

  lemma OneCommand(command: Command, outcome: Outcome, live: set<string>)
    ensures Ongoing([command], [outcome], live)
         == if command.Prepare? && outcome.Done? then live + {command.run}
            else if command.Remove? then live - {command.run} else live
  {
    assert [command][..0] == [] && [outcome][..0] == [];
  }

  lemma Names(commands: seq<Command>, i: nat)
    requires i < |commands|
    ensures commands[i].Prepare? ==> commands[i].run in Prepared(commands)
    ensures commands[i].Remove? ==> commands[i].run in Removed(commands)
  {}

  /** The runs that are live after these commands, given which of them succeeded. */
  function Ongoing(commands: seq<Command>, outcomes: seq<Outcome>, live: set<string>): set<string>
    requires |commands| == |outcomes|
  {
    if commands == [] then live
    else
      var n := |commands| - 1;
      var before := Ongoing(commands[..n], outcomes[..n], live);
      match commands[n]
      case Prepare(run, _, _) => if outcomes[n].Done? then before + {run} else before
      case Remove(run) => before - {run}
      case Work(_, _) => before
  }

  /** The runs that these commands prepare, or find, and do not remove afterwards. */
  function Left(commands: seq<Command>, live: set<string>): set<string> {
    if commands == [] then live
    else
      var n := |commands| - 1;
      var before := Left(commands[..n], live);
      match commands[n]
      case Prepare(run, _, _) => before + {run}
      case Remove(run) => before - {run}
      case Work(_, _) => before
  }

  lemma NoCommand(live: set<string>)
    ensures Ongoing([], [], live) == live
  {}

  lemma OngoingOn(commands: seq<Command>, i: nat, outcomes: seq<Outcome>, outcome: Outcome, live: set<string>)
    requires |outcomes| == i < |commands|
    ensures Ongoing(commands[..i + 1], outcomes + [outcome], live)
         == Ongoing([commands[i]], [outcome], Ongoing(commands[..i], outcomes, live))
  {
    assert commands[..i + 1][..i] == commands[..i] && (outcomes + [outcome])[..i] == outcomes;
    assert [commands[i]][..0] == [] && [outcome][..0] == [];
  }

  lemma {:induction false} OngoingIsLeft(commands: seq<Command>, outcomes: seq<Outcome>, live: set<string>)
    requires |commands| == |outcomes|
    ensures Ongoing(commands, outcomes, live) <= Left(commands, live)
  {
    if commands != [] {
      var n := |commands| - 1;
      OngoingIsLeft(commands[..n], outcomes[..n], live);
    }
  }

  /** What restoration returns to once recovery has cleared the pending run. */
  ghost function SettlesTo(c: Config, w0: World, w: World): World {
    if Orphaned(c, w0, w) then Stranded(w0, w, w.state.value.pending.value) else w0
  }

  /** Recovering, and beginning anew after it, strand the pending run at most. */
  lemma OpensShifted(c: Config, w0: World, w: World, next: World)
    requires next == w0 || next == SettlesTo(c, w0, w) || next == Bare(SettlesTo(c, w0, w))
    ensures Shifted(w0, next, Awaited(w.state), {}) && (w0.simulator.Some? ==> SameSimulator(w0, next))
  {
    hide Shifted, Mid, Bare, Stranded;
    Unshifted(w0, Awaited(w.state), {});
    if Orphaned(c, w0, w) { StrandedShifts(c, w0, w, w.state.value.pending.value); }
    var settled := SettlesTo(c, w0, w);
    BareShifts(settled);
    ShiftsOn(w0, settled, Bare(settled), Awaited(w.state), {}, {}, {});
    var nothing: set<string> := {};
    assert Awaited(w.state) + nothing == Awaited(w.state) && nothing + nothing == nothing;
    if w0.simulator.Some? { SettlesSimulator(c, w0, w); }
  }

  lemma SettlesSimulator(c: Config, w0: World, w: World)
    requires w0.simulator.Some?
    ensures SameSimulator(w0, SettlesTo(c, w0, w)) && SameSimulator(w0, Bare(SettlesTo(c, w0, w)))
  {
    hide Mid;
  }

  predicate Preserved(now: set<Controller>, before: set<Controller>, added: set<Controller>) {
    before <= now && now !! added
  }

  lemma NamesKept(c: Config, w: World, write: Write)
    ensures KeepsNames(write) && Apply(c, w, write).Some? ==> Children(Apply(c, w, write).value) == Children(w)
  {}

  lemma StateKept(c: Config, w: World, write: Write)
    requires !write.SaveState? && !write.RemoveState? && Apply(c, w, write).Some?
    ensures Apply(c, w, write).value.state == w.state
  {}

  lemma HeldIsNotReady(c: Config, w0: World, w: World)
    requires Mid(c, w0, w)
    ensures Held(w0, w.state.value) ==> !w.state.value.ready
  {}

  lemma HeldLike(w0: World, a: ScopeState, b: ScopeState)
    requires a.preexisting == b.preexisting
    ensures Held(w0, a) <==> Held(w0, b)
  {}

  lemma BoundRunsAreInUse(c: Config, state: ScopeState)
    requires LoaderAccepts(c, state)
    ensures !InUse(state) ==> state.bindings == map[]
  {
    assert !InUse(state) ==> forall name | name in state.bindings :: false;
  }

  lemma EnableRootKeepsState(c: Config, w: World, controllers: set<Controller>)
    ensures var next := Apply(c, w, EnableRoot(controllers));
            next.Some? ==> next.value.state == w.state && next.value.simulator == w.simulator
  {}

  lemma EnableSimulatorKeepsState(c: Config, w: World, controllers: set<Controller>)
    ensures var next := Apply(c, w, EnableSimulator(controllers));
            next.Some? ==> next.value.state == w.state
  {}

  lemma MakeChildEffect(c: Config, w: World, run: string, identity: Identity)
    ensures var next := Apply(c, w, MakeChild(run, identity));
            next.Some? ==>
              && next.value.state == w.state && next.value.simulator.Some? && w.simulator.Some?
              && next.value.root == w.root && next.value.simulator.value.own == w.simulator.value.own
              && run in next.value.simulator.value.children
              && Without(next.value, run) == w
  {
    var next := Apply(c, w, MakeChild(run, identity));
    if next.Some? {
      assert next.value.simulator.value.children - {run} == w.simulator.value.children;
    }
  }

  lemma EnableChildEffect(c: Config, w: World, run: string, controllers: set<Controller>)
    ensures var next := Apply(c, w, EnableChild(run, controllers));
            next.Some? ==>
              && next.value.state == w.state && next.value.simulator.Some? && w.simulator.Some?
              && next.value.simulator.value.own == w.simulator.value.own
              && run in next.value.simulator.value.children
              && controllers <= next.value.simulator.value.children[run].enabled
  {}

  lemma KillChildEffect(c: Config, w: World, run: string)
    ensures var next := Apply(c, w, KillChild(run));
            next.Some? ==> next.value == Without(w, run) && w.simulator.Some?
  {}

  /** The active runs that still have a directory. */
  function Live(w: World): set<string> {
    if w.state.None? then {} else set run | run in w.state.value.active && run in Children(w)
  }

  lemma NoStateYet(c: Config, w0: World)
    requires Origin(c, w0)
    ensures w0.state.None?
  {}

  lemma LiveAgain(w: World, names: set<string>)
    ensures w.state.Some? && w.state.value.active == names && names <= Children(w) ==> Live(w) == names
  {}

  lemma HierarchyIsNoRun(c: Config, w0: World, w: World, name: string)
    requires Mid(c, w0, w) && name in Children(w0)
    ensures name !in w.state.value.active
  {
    assert name in ChildrenBefore(w0);
  }

  lemma SaveEffect(c: Config, state: ScopeState)
    ensures forall w: World {:trigger Apply(c, w, SaveState(state))} ::
              Apply(c, w, SaveState(state)) == Some(w.(state := Some(state)))
  {}

  lemma NotController(run: string, name: string)
    requires SafeRunId(run) && OwnedControllerName(name)
    ensures run != name
  {
    assert name[0] == CONTROLLER_PREFIX[0];
    assert run[0] != '.';
  }
}
