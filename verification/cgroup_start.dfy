/**
 Every single write of starting a scope and of preparing or removing a run keeps the
 world recoverable.  The protocol changes its in-memory state first and saves it
 later, so the lemmas speak of a memory state that describes the hierarchy, whether or
 not it is the state on disk.
 */
module CgroupStart {
  import opened Wrappers
  import opened CgroupWorld
  import opened CgroupScope

  /** Saving `state` now would leave a recoverable world. */
  ghost predicate Describes(c: Config, w0: World, w: World, state: ScopeState) {
    Mid(c, w0, w.(state := Some(state)))
  }

  /** What a published, not yet restoring scope looks like to its own process. */
  ghost predicate Running(c: Config, w0: World, w: World, state: ScopeState) {
    Describes(c, w0, w, state) && !state.ready
  }

  predicate ControllerReady(c: Config, w: World, state: ScopeState) {
    w.simulator.Some? && (c.move ==> state.controllerName in w.simulator.value.children)
  }

  /** Resource-named cgroups that are there become the new scope's runs: it belongs to the hierarchy without them. */
  lemma BareIsOrigin(c: Config, w0: World)
    requires Origin(c, w0)
    ensures Origin(c, Bare(w0)) && (Bare(w0) == w0 <==> ResourceChildren(w0) == {})
    ensures ResourceChildren(w0) <= Children(w0) && Children(Bare(w0)) == Children(w0) - ResourceChildren(w0)
  {
    if w0.simulator.Some? && ResourceChildren(w0) == {} {
      assert w0.simulator.value.children - ResourceChildren(w0) == w0.simulator.value.children;
    } else if w0.simulator.Some? {
      var name :| name in ResourceChildren(w0);
      assert name in Children(w0) && name !in Children(Bare(w0));
    }
  }

  /** The published state describes the hierarchy, unless it is one the loader refuses. */
  lemma PublishStep(c: Config, w0: World, name: string)
    requires Origin(c, w0) && OwnedControllerName(name) && name !in ChildrenBefore(w0)
    requires ResourceChildren(w0) == {} || !c.move
    ensures Running(c, Bare(w0), w0, NewState(c, w0, name))
    ensures NewState(c, w0, name).active == ResourceChildren(w0)
  {
    var state := NewState(c, w0, name);
    FirstStateLoads(c, w0, name);
    hide LoaderAccepts;
    assert w0.available * MANAGED == MANAGED;
    assert ControllerProcs(w0.(state := Some(state))) == {};
    assert !c.move ==> MANAGED <= w0.root.enabled;
    assert Runs(state) == ResourceChildren(w0);
  }

  /** With a controller expected, recording its identity also makes the adopting state loadable. */
  lemma AdoptStep(c: Config, w0: World, name: string, identity: Identity)
    requires Origin(c, w0) && OwnedControllerName(name) && name !in ChildrenBefore(w0) && c.move && w0.simulator.Some?
    requires Below(identity, w0.simulator.value.own.identity) && identity.inode != w0.root.identity.inode
    ensures var next := Apply(c, w0, MakeChild(name, identity));
            && next.Some?
            && Running(c, Bare(w0), next.value, NewState(c, w0, name).(controllerIdentity := Some(identity)))
            && next.value.root == w0.root && ControllerReady(c, next.value, NewState(c, w0, name))
  {
    var state := NewState(c, w0, name).(controllerIdentity := Some(identity));
    var next := Apply(c, w0, MakeChild(name, identity)).value;
    AdoptLoads(c, w0, name, identity);
    hide LoaderAccepts;
    assert w0.available * MANAGED == MANAGED;
    assert ControllerProcs(next.(state := Some(state))) == {};
    assert Runs(state) == ResourceChildren(w0);
    AdoptChildren(w0, state, next.simulator.value.children, identity);
  }

  lemma AdoptChildren(w0: World, state: ScopeState, children: map<string, Directory>, identity: Identity)
    requires w0.simulator.Some? && children == w0.simulator.value.children[state.controllerName := Empty(identity)]
    requires state.controllerName !in w0.simulator.value.children && OwnedControllerName(state.controllerName)
    requires state.active == ResourceChildren(w0) && state.pending.None? && !state.created && state.bindings == map[]
    ensures ChildrenOf(Bare(w0), state, children)
  {
    assert Runs(state) == ResourceChildren(w0);
  }

  lemma AdoptLoads(c: Config, w0: World, name: string, identity: Identity)
    requires Origin(c, w0) && OwnedControllerName(name) && c.move && w0.simulator.Some?
    requires Below(identity, w0.simulator.value.own.identity) && identity.inode != w0.root.identity.inode
    ensures LoaderAccepts(c, NewState(c, w0, name).(controllerIdentity := Some(identity)))
  {}

  lemma MakeSimulatorStep(c: Config, w0: World, w: World, state: ScopeState, identity: Identity)
    requires Origin(c, w0) && Running(c, w0, w, state) && w.simulator.None? && Below(identity, w.root.identity)
    ensures var next := Apply(c, w, MakeSimulator(identity));
            next.Some? && Running(c, w0, next.value, state.(simulatorIdentity := Some(identity)))
  {
    var next := Apply(c, w, MakeSimulator(identity)).value;
    assert ControllerProcs(next.(state := Some(state))) == {};
  }

  lemma MakeControllerStep(c: Config, w0: World, w: World, state: ScopeState, identity: Identity)
    requires Origin(c, w0) && Running(c, w0, w, state) && c.move && w.simulator.Some?
    requires state.controllerName !in w.simulator.value.children
    requires Below(identity, w.simulator.value.own.identity) && identity.inode != w.root.identity.inode
    ensures var next := Apply(c, w, MakeChild(state.controllerName, identity));
            && next.Some? && Running(c, w0, next.value, state.(controllerIdentity := Some(identity)))
            && next.value.root == w.root && ControllerReady(c, next.value, state)
  {
    hide LoaderAccepts, ChildrenOf;
    MakeControllerLoads(c, w0, w, state, identity);
    var next := Apply(c, w, MakeChild(state.controllerName, identity)).value;
    assert ControllerProcs(next.(state := Some(state))) == {};
    ControllerIsUnbound(c, w0, w, state);
    ControllerChildren(w0, state, w.simulator.value.children, identity);
  }

  lemma ControllerChildren(w0: World, state: ScopeState, children: map<string, Directory>, identity: Identity)
    requires ChildrenOf(w0, state, children) && state.controllerName !in children
    requires state.controllerName !in state.bindings
    ensures ChildrenOf(w0, state.(controllerIdentity := Some(identity)),
                       children[state.controllerName := Empty(identity)])
  {}

  lemma ControllerIsUnbound(c: Config, w0: World, w: World, state: ScopeState)
    requires Describes(c, w0, w, state) && w.simulator.Some?
    ensures state.controllerName !in state.bindings
  {
    assert forall name | name in state.bindings :: name in Runs(state);
  }

  lemma MakeControllerLoads(c: Config, w0: World, w: World, state: ScopeState, identity: Identity)
    requires Running(c, w0, w, state) && c.move && w.simulator.Some?
    requires Below(identity, w.simulator.value.own.identity) && identity.inode != w.root.identity.inode
    ensures LoaderAccepts(c, state.(controllerIdentity := Some(identity)))
  {}

  lemma MoveOutStep(c: Config, w0: World, w: World, state: ScopeState, pid: nat)
    requires Origin(c, w0) && Running(c, w0, w, state) && c.move && ControllerReady(c, w, state)
    requires pid in w.root.procs
    ensures var next := Apply(c, w, MoveToChild(pid, state.controllerName));
            && next.Some? && Running(c, w0, next.value, state) && ControllerReady(c, next.value, state)
            && next.value.root == w.root.(procs := w.root.procs - {pid})
  {
    hide LoaderAccepts, BindAccepts, SimulatorMid;
    RunningSimulator(c, w0, w, state);
    var next := Apply(c, w, MoveToChild(pid, state.controllerName)).value;
    var saved := next.(state := Some(state));
    assert saved.root.procs + ControllerProcs(saved) == w0.root.procs;
    MovedSimulator(c, w0, w.(state := Some(state)), saved);
  }

  lemma RunningSimulator(c: Config, w0: World, w: World, state: ScopeState)
    requires Running(c, w0, w, state) && c.move && ControllerReady(c, w, state)
    ensures w.simulator.value.children[state.controllerName].enabled == {}
    ensures state.controllerName !in ChildrenBefore(w0)
  {}

  lemma EnableRootStep(c: Config, w0: World, w: World, state: ScopeState)
    requires Origin(c, w0) && Running(c, w0, w, state) && c.move && w.root.procs == {}
    ensures var next := Apply(c, w, EnableRoot(state.rootAdded));
            && next.Some? && Running(c, w0, next.value, state) && MANAGED <= next.value.root.enabled
            && next.value.simulator == w.simulator
  {
    hide LoaderAccepts;
    assert state.rootAdded <= w.available;
  }

  /** The one write of a start the kernel may refuse: a pre-existing simulator with processes of its own. */
  lemma EnableSimulatorStep(c: Config, w0: World, w: World, state: ScopeState)
    requires Origin(c, w0) && Running(c, w0, w, state) && w.simulator.Some? && MANAGED <= w.root.enabled
    ensures var next := Apply(c, w, EnableSimulator(state.simulatorAdded));
            && (next.Some? <==> state.simulatorAdded == {} || w.simulator.value.own.procs == {})
            && (next.Some? ==>
                  && Running(c, w0, next.value, state) && next.value.simulator.Some?
                  && next.value.simulator.value.children == w.simulator.value.children
                  && MANAGED <= next.value.simulator.value.own.enabled)
  {
    hide LoaderAccepts;
  }

  // ----- runs -----

  /** Recovery refuses a pending run whose directory was recorded but has since gone, or was never bound. */
  predicate Resumable(w: World) {
    w.state.Some? && w.state.value.pending.Some? && w.state.value.created ==>
      var state := w.state.value;
      && state.pending.value in state.bindings
      && w.simulator.Some? && state.pending.value in w.simulator.value.children
      && w.simulator.value.children[state.pending.value].identity == state.bindings[state.pending.value]
  }

  /** The children recovery leaves: the directory of an interrupted preparation goes. */
  function Settled(w: World): set<string> {
    Children(w) -
    (if w.state.Some? && w.state.value.pending.Some? && w.state.value.created
     then {w.state.value.pending.value} else {})
  }

  function Pending(state: ScopeState, run: string): ScopeState {
    state.(pending := Some(run), created := false)
  }

  function Created(state: ScopeState, run: string, binding: Option<Identity>): ScopeState {
    state.(created := true,
           bindings := if binding.Some? then state.bindings[run := binding.value] else state.bindings)
  }

  function Active(state: ScopeState, run: string): ScopeState {
    state.(active := state.active + {run}, pending := None, created := false)
  }

  function Forgotten(state: ScopeState, run: string): ScopeState {
    var kept := state.(active := state.active - {run}, bindings := state.bindings - {run});
    if state.pending == Some(run) then kept.(pending := None, created := false) else kept
  }

  /** A change of the runs alone, with the children they explain. */
  lemma RunsChange(c: Config, w0: World, w: World, state: ScopeState, after: ScopeState)
    requires Describes(c, w0, w, state) && LoaderAccepts(c, after)
    requires after == state.(active := after.active, bindings := after.bindings, pending := after.pending,
                             created := after.created)
    requires w.simulator.Some? ==> ChildrenOf(w0, after, w.simulator.value.children)
    requires InUse(after) && !InUse(state) ==> w.simulator.Some? && !state.ready && ControllerReady(c, w, state)
    ensures Describes(c, w0, w, after)
  {
    hide LoaderAccepts, ChildrenOf;
    assert ControllerProcs(w.(state := Some(after))) == ControllerProcs(w.(state := Some(state)));
  }

  /** A change of the children alone that leaves the scope controller as it is. */
  lemma ChildrenChange(c: Config, w0: World, w: World, state: ScopeState, after: World)
    requires Describes(c, w0, w, state) && w.simulator.Some? && after.simulator.Some?
    requires after == w.(simulator := Some(w.simulator.value.(children := after.simulator.value.children)))
    requires ChildrenOf(w0, state, after.simulator.value.children)
    requires SameController(state.controllerName, w.simulator.value.children, after.simulator.value.children)
    ensures Describes(c, w0, after, state)
  {
    hide LoaderAccepts, ChildrenOf;
    assert ControllerProcs(after.(state := Some(state))) == ControllerProcs(w.(state := Some(state)));
  }

  predicate SameController(name: string, before: map<string, Directory>, after: map<string, Directory>) {
    (name in before <==> name in after) && (name in before ==> before[name] == after[name])
  }

  lemma ChildrenAre(c: Config, w0: World, w: World, state: ScopeState)
    requires Describes(c, w0, w, state)
    ensures LoaderAccepts(c, state) && (w.simulator.Some? ==> ChildrenOf(w0, state, w.simulator.value.children))
  {}

  lemma PendStep(c: Config, w0: World, w: World, state: ScopeState, run: string)
    requires Origin(c, w0) && Running(c, w0, w, state) && ControllerReady(c, w, state)
    requires state.pending.None? && run !in state.active && run != state.controllerName && SafeRunId(run)
    ensures Running(c, w0, w, Pending(state, run))
  {
    ChildrenAre(c, w0, w, state);
    PendLoads(c, w0, w, state, run);
    hide Mid, LoaderAccepts;
    var next := Pending(state, run);
    assert Runs(next) == Runs(state);
    RunsChange(c, w0, w, state, next);
  }

  lemma PendLoads(c: Config, w0: World, w: World, state: ScopeState, run: string)
    requires Running(c, w0, w, state) && ControllerReady(c, w, state) && state.pending.None? && SafeRunId(run)
    ensures LoaderAccepts(c, Pending(state, run))
  {
    assert forall name | name in state.bindings :: name in state.active;
  }

  lemma MakeRunStep(c: Config, w0: World, w: World, state: ScopeState, run: string, identity: Identity, bound: bool)
    requires Origin(c, w0) && Running(c, w0, w, state) && ControllerReady(c, w, state)
    requires state.pending == Some(run) && !state.created && (bound ==> ResourceName(run))
    ensures var next := Apply(c, w, MakeChild(run, identity));
            && (next.Some? <==> run !in w.simulator.value.children)
            && (next.Some? ==>
                  && Running(c, w0, next.value, Created(state, run, if bound then Some(identity) else None))
                  && ControllerReady(c, next.value, state))
  {
    ChildrenAre(c, w0, w, state);
    hide Mid, LoaderAccepts;
    var after := Created(state, run, if bound then Some(identity) else None);
    MakeRunLoads(c, state, run, if bound then Some(identity) else None);
    BindingsAreActive(c, state);
    if run !in w.simulator.value.children {
      var next := Apply(c, w, MakeChild(run, identity)).value;
      MakeRunChildren(w0, w.simulator.value.children, state, run, identity, bound);
      MadeRunDescribes(c, w0, w, state, after, next, run);
    }
  }

  lemma MadeRunDescribes(c: Config, w0: World, w: World, state: ScopeState, after: ScopeState, next: World, run: string)
    requires Describes(c, w0, w, state) && LoaderAccepts(c, after) && state.pending == Some(run)
    requires after == state.(bindings := after.bindings, created := true)
    requires w.simulator.Some? && next.simulator.Some? && run != state.controllerName
    requires next == w.(simulator := Some(w.simulator.value.(children := next.simulator.value.children)))
    requires ChildrenOf(w0, after, next.simulator.value.children)
    requires SameController(state.controllerName, w.simulator.value.children, next.simulator.value.children)
    ensures Describes(c, w0, next, after)
  {
    hide LoaderAccepts, ChildrenOf;
    assert ControllerProcs(next.(state := Some(after))) == ControllerProcs(w.(state := Some(state)));
  }

  lemma BindingsAreActive(c: Config, state: ScopeState)
    requires LoaderAccepts(c, state) && !state.created
    ensures forall name | name in state.bindings :: name in state.active
  {}

  lemma MakeRunLoads(c: Config, state: ScopeState, run: string, binding: Option<Identity>)
    requires LoaderAccepts(c, state) && state.pending == Some(run) && !state.created && !state.ready
    requires binding.Some? ==> ResourceName(run)
    ensures LoaderAccepts(c, Created(state, run, binding))
  {
    var after := Created(state, run, binding);
    forall name | name in after.bindings
      ensures ResourceName(name) && (name in after.active || (after.created && after.pending == Some(name)))
    {
      assert name in state.bindings || name == run;
    }
  }

  lemma MakeRunChildren(w0: World, children: map<string, Directory>, state: ScopeState, run: string,
                        identity: Identity, bound: bool)
    requires ChildrenOf(w0, state, children) && state.pending == Some(run) && !state.created && run !in children
    requires forall name | name in state.bindings :: name in state.active
    ensures ChildrenOf(w0, Created(state, run, if bound then Some(identity) else None),
                       children[run := Empty(identity)])
  {
    var after := Created(state, run, if bound then Some(identity) else None);
    var made := children[run := Empty(identity)];
    assert Runs(after) == Runs(state) + {run};
    assert run !in ChildrenBefore(w0);
    forall name | name in after.bindings && name in made ensures made[name].identity == after.bindings[name] {
      assert name == run || name in state.bindings;
      if name == run && !bound {
        assert run !in state.active;
      }
    }
  }

  lemma EnableRunStep(c: Config, w0: World, w: World, state: ScopeState, run: string, controllers: set<Controller>)
    requires Origin(c, w0) && Running(c, w0, w, state) && ControllerReady(c, w, state)
    requires state.pending == Some(run) && state.created && run in w.simulator.value.children
    requires controllers <= w.simulator.value.own.enabled
    ensures var next := Apply(c, w, EnableChild(run, controllers));
            && next.Some? && Running(c, w0, next.value, state) && ControllerReady(c, next.value, state)
            && run in next.value.simulator.value.children
  {
    ChildrenAre(c, w0, w, state);
    hide Mid, LoaderAccepts;
    var next := Apply(c, w, EnableChild(run, controllers)).value;
    ChildrenChange(c, w0, w, state, next);
  }

  lemma ActivateStep(c: Config, w0: World, w: World, state: ScopeState, run: string)
    requires Origin(c, w0) && Running(c, w0, w, state) && ControllerReady(c, w, state)
    requires state.pending == Some(run) && state.created
    ensures Running(c, w0, w, Active(state, run))
  {
    ChildrenAre(c, w0, w, state);
    ActiveLoads(c, state, run);
    hide Mid, LoaderAccepts;
    assert Runs(Active(state, run)) == Runs(state);
    RunsChange(c, w0, w, state, Active(state, run));
  }

  lemma ActiveLoads(c: Config, state: ScopeState, run: string)
    requires LoaderAccepts(c, state) && state.pending == Some(run)
    ensures LoaderAccepts(c, Active(state, run))
  {}

  lemma DropRunStep(c: Config, w0: World, w: World, state: ScopeState, run: string)
    requires Origin(c, w0) && Describes(c, w0, w, state) && w.simulator.Some?
    requires run in w.simulator.value.children && run in Runs(state)
    ensures var next := Apply(c, w, KillChild(run));
            && next.Some? && Describes(c, w0, next.value, state)
            && next.value.simulator.Some? && run !in next.value.simulator.value.children
  {
    ChildrenAre(c, w0, w, state);
    hide Mid, LoaderAccepts;
    ChildrenChange(c, w0, w, state, Without(w, run));
  }

  /**
   A directory of the pending run's name that the scope did not make: preparation ended
   before its mkdir, which would have been refused.
   */
  predicate Foreign(w: World, run: string) {
    w.state.Some? && w.state.value.pending == Some(run) && !w.state.value.created && run in Children(w)
  }

  /** The hierarchy left once the directory is gone; nothing holds an own simulator any more when it was the last. */
  function Lost(w0: World, state: ScopeState, run: string): World {
    var bare := Without(w0, run);
    if Held(w0, state) && Children(bare) == {} then bare.(simulator := None) else bare
  }

  /**
   Removing such a run takes the directory that was there before: what is left belongs
   to an original hierarchy without it.
   */
  lemma ForeignStep(c: Config, w0: World, w: World, run: string)
    requires Origin(c, w0) && Mid(c, w0, w) && Foreign(w, run)
    ensures Apply(c, w, KillChild(run)) == Some(Without(w, run))
    ensures Origin(c, Lost(w0, w.state.value, run)) && Mid(c, Lost(w0, w.state.value, run), Without(w, run))
    ensures run in Children(w0) && run !in Children(Lost(w0, w.state.value, run)) && !Belongs(c, w0, Without(w, run))
  {
    hide LoaderAccepts, ChildrenOf, Belongs;
    var bare, next, state := Lost(w0, w.state.value, run), Without(w, run), w.state.value;
    assert run in Children(w0) by { ForeignWasThere(w0, w, run); }
    assert ControllerProcs(next) == ControllerProcs(w) by { ForeignIsNoController(w0, w, run); }
    assert ChildrenOf(bare, state, next.simulator.value.children) by { LostChildren(w0, w, run); }
    if Belongs(c, w0, next) { BelongingKeeps(c, w0, next); }
    OwnSimulatorBegan(c, state);
    assert bare.simulator.Some? && Held(bare, state) ==> Children(bare) != {};
  }

  lemma OwnSimulatorBegan(c: Config, state: ScopeState)
    requires LoaderAccepts(c, state)
    ensures !state.preexisting ==> state.simulatorBefore == {}
  {}

  lemma ForeignWasThere(w0: World, w: World, run: string)
    requires w.simulator.Some? && Foreign(w, run) && ChildrenOf(w0, w.state.value, w.simulator.value.children)
    ensures run in Children(w0)
  {}

  lemma ForeignIsNoController(w0: World, w: World, run: string)
    requires w.simulator.Some? && Foreign(w, run) && ChildrenOf(w0, w.state.value, w.simulator.value.children)
    ensures run != w.state.value.controllerName
  {}

  lemma LostChildren(w0: World, w: World, run: string)
    requires w.simulator.Some? && Foreign(w, run) && ChildrenOf(w0, w.state.value, w.simulator.value.children)
    ensures ChildrenOf(Lost(w0, w.state.value, run), w.state.value, Without(w, run).simulator.value.children)
  {}

  // ----- a run made but not recorded -----

  /** The pending run's own directory is there, but the state does not say so yet. */
  ghost predicate OrphanOf(c: Config, w0: World, w: World, run: string) {
    && w.state.Some? && w.state.value.pending == Some(run) && !w.state.value.created
    && w.simulator.Some? && run in w.simulator.value.children && w.simulator.value.children[run].enabled == {}
    && run !in Children(w0) && Mid(c, w0, Without(w, run))
  }

  ghost predicate Orphaned(c: Config, w0: World, w: World) {
    w.state.Some? && w.state.value.pending.Some? && OrphanOf(c, w0, w, w.state.value.pending.value)
  }

  /** Such a world loads and binds like any other. */
  lemma OrphanBinds(c: Config, w0: World, w: World)
    requires Origin(c, w0) && Orphaned(c, w0, w)
    ensures LoaderAccepts(c, w.state.value) && BindAccepts(w, w.state.value)
    ensures !Mid(c, w0, w) && !w.state.value.ready && SafeRunId(w.state.value.pending.value)
    ensures w.state.value.pending.value !in w.state.value.active
    ensures w.state.value.pending.value !in w.state.value.bindings
  {
    MidBinds(c, w0, Without(w, w.state.value.pending.value));
  }

  /** Making the directory of an announced run. */
  lemma OrphanStep(c: Config, w0: World, w: World, run: string, identity: Identity)
    requires Origin(c, w0) && Mid(c, w0, w) && w.state.value.pending == Some(run) && !w.state.value.created
    ensures var next := Apply(c, w, MakeChild(run, identity));
            next.Some? ==> OrphanOf(c, w0, next.value, run) && Without(next.value, run) == w
  {
    hide LoaderAccepts;
    var next := Apply(c, w, MakeChild(run, identity));
    if next.Some? {
      assert next.value.simulator.value.children - {run} == w.simulator.value.children;
      assert Without(next.value, run) == w;
      assert run in Children(w0) ==> run in ChildrenBefore(w0);
    }
  }

  /** What outlives the scope once its state has forgotten the directory. */
  function Stranded(w0: World, w: World, run: string): World
    requires w.simulator.Some? && run in w.simulator.value.children
  {
    var dir := w.simulator.value.children[run];
    if w0.simulator.Some? then w0.(simulator := Some(WithChild(w0.simulator.value, run, dir)))
    else w0.(simulator := Some(Simulator(Empty(w.simulator.value.own.identity), map[run := dir])))
  }

  /** Forgetting the pending run leaves its directory to the hierarchy. */
  lemma StrandStep(c: Config, w0: World, w: World, run: string)
    requires Origin(c, w0) && OrphanOf(c, w0, w, run)
    ensures var left := Stranded(w0, w, run);
            && Origin(c, left) && Describes(c, left, w, Forgotten(w.state.value, run))
            && Children(left) == Children(w0) + {run}
            && (Held(left, Forgotten(w.state.value, run)) <==> !w.state.value.preexisting)
  {
    OrphanIdentity(c, w0, w, run);
    StrandedOrigin(c, w0, w, run);
    hide Origin, ChildrenOf, LoaderAccepts;
    ForgetLoads(c, w.state.value, run);
    StrandedChildren(w0, w, run);
    StrandedDescribes(c, w0, w, run);
  }

  lemma StrandedOrigin(c: Config, w0: World, w: World, run: string)
    requires Origin(c, w0) && w.simulator.Some? && run in w.simulator.value.children
    requires w.simulator.value.children[run].enabled == {}
    requires Below(w.simulator.value.own.identity, w0.root.identity)
    ensures Origin(c, Stranded(w0, w, run)) && Children(Stranded(w0, w, run)) == Children(w0) + {run}
    ensures Children(Stranded(w0, w, run)) != {} && Stranded(w0, w, run).simulator.value.children != map[]
    ensures SimulatorBefore(Stranded(w0, w, run)) == SimulatorBefore(w0)
  {
    assert run in Stranded(w0, w, run).simulator.value.children;
  }

  lemma StrandedDescribes(c: Config, w0: World, w: World, run: string)
    requires OrphanOf(c, w0, w, run) && LoaderAccepts(c, Forgotten(w.state.value, run))
    requires w.state.value.controllerName != run && !w.state.value.ready
    requires w0.simulator.None? ==> !w.state.value.preexisting
    requires SimulatorBefore(Stranded(w0, w, run)) == SimulatorBefore(w0)
    requires Stranded(w0, w, run).simulator.value.children != map[]
    requires ChildrenOf(Stranded(w0, w, run), Forgotten(w.state.value, run), w.simulator.value.children)
    ensures Describes(c, Stranded(w0, w, run), w, Forgotten(w.state.value, run))
    ensures Held(Stranded(w0, w, run), Forgotten(w.state.value, run)) <==> !w.state.value.preexisting
  {
    hide LoaderAccepts, ChildrenOf;
    var state := Forgotten(w.state.value, run);
    assert ControllerProcs(w.(state := Some(state))) == ControllerProcs(Without(w, run));
  }

  lemma OrphanIdentity(c: Config, w0: World, w: World, run: string)
    requires Origin(c, w0) && OrphanOf(c, w0, w, run)
    ensures Below(w.simulator.value.own.identity, w0.root.identity) && !w.state.value.ready
    ensures w.state.value.controllerName != run
    ensures ChildrenOf(w0, w.state.value, w.simulator.value.children - {run})
    ensures w0.simulator.None? ==> !w.state.value.preexisting
  {}

  lemma StrandedChildren(w0: World, w: World, run: string)
    requires w.simulator.Some? && run in w.simulator.value.children && run !in Children(w0) && w.state.Some?
    requires w.state.value.pending == Some(run) && !w.state.value.created
    requires ChildrenOf(w0, w.state.value, w.simulator.value.children - {run})
    ensures ChildrenOf(Stranded(w0, w, run), Forgotten(w.state.value, run), w.simulator.value.children)
  {
    var state := w.state.value;
    assert Runs(Forgotten(state, run)) == Runs(state) - {run} == Runs(state);
    var children := w.simulator.value.children;
    assert forall name | name in children && name != run :: name in children - {run};
  }

  /** Removing the pending run takes its own directory and nothing else. */
  lemma ReclaimStep(c: Config, w0: World, w: World, run: string)
    requires OrphanOf(c, w0, w, run)
    ensures Apply(c, w, KillChild(run)) == Some(Without(w, run)) && Mid(c, w0, Without(w, run))
  {}

  /** A run without a directory of its own can be forgotten. */
  lemma ForgetStep(c: Config, w0: World, w: World, state: ScopeState, run: string)
    requires Origin(c, w0) && Describes(c, w0, w, state)
    requires w.simulator.Some? && run in w.simulator.value.children ==> run !in Runs(state)
    ensures Describes(c, w0, w, Forgotten(state, run))
    ensures !InUse(state) ==> !InUse(Forgotten(state, run))
  {
    ChildrenAre(c, w0, w, state);
    hide Mid, LoaderAccepts, ChildrenOf;
    ForgetLoads(c, state, run);
    if w.simulator.Some? {
      ForgetChildren(w0, w.simulator.value.children, state, run);
    }
    RunsChange(c, w0, w, state, Forgotten(state, run));
  }

  lemma ForgetChildren(w0: World, children: map<string, Directory>, state: ScopeState, run: string)
    requires ChildrenOf(w0, state, children) && (run in children ==> run !in Runs(state))
    ensures ChildrenOf(w0, Forgotten(state, run), children)
  {
    assert Runs(Forgotten(state, run)) == Runs(state) - {run};
  }

  lemma ForgetLoads(c: Config, state: ScopeState, run: string)
    requires LoaderAccepts(c, state)
    ensures LoaderAccepts(c, Forgotten(state, run))
  {
    assert state.ready ==> Forgotten(state, run) == state by {
      if state.ready { assert state.bindings - {run} == state.bindings; assert state.active - {run} == state.active; }
    }
  }

  // ----- every world a command may leave -----

  /** An adopting state was published before its controller was recorded: the loader refuses it. */
  ghost predicate Unloadable(c: Config, w0: World, w: World) {
    && w.state.Some? && !LoaderAccepts(c, w.state.value) && w.simulator.Some?
    && Bare(Without(w.(state := None), w.state.value.controllerName)) == w0
  }

  /** The world comes from this hierarchy: it is it, is recoverable, or stopped between making and recording. */
  ghost predicate Belongs(c: Config, w0: World, w: World) {
    || w == w0
    || Mid(c, w0, w)
    || Orphaned(c, w0, w)
    || Headless(c, w0, w)
    || Unloadable(c, w0, w)
  }

  /** Nothing of the hierarchy is ever missing. */
  lemma BelongingKeeps(c: Config, w0: World, w: World)
    requires Belongs(c, w0, w)
    ensures Children(w0) <= Children(w)
  {
    if Orphaned(c, w0, w) {
      MidKeeps(c, w0, Without(w, w.state.value.pending.value));
    } else if Headless(c, w0, w) {
      if Mid(c, w0, w.(simulator := None)) {
        MidKeeps(c, w0, w.(simulator := None));
      } else {
        MidKeeps(c, w0, Without(w, w.state.value.controllerName));
      }
    } else if w != w0 && Mid(c, w0, w) {
      MidKeeps(c, w0, w);
    }
  }

  lemma MidKeeps(c: Config, w0: World, w: World)
    requires Mid(c, w0, w)
    ensures Children(w0) <= Children(w)
  {
    assert forall name | name in Children(w0) :: name in ChildrenBefore(w0);
  }

  lemma MidBelongs(c: Config, w0: World, w: World)
    ensures Mid(c, w0, w) ==> Belongs(c, w0, w)
  {}

  lemma HeadlessBelongs(c: Config, w0: World, w: World)
    ensures Headless(c, w0, w) ==> Belongs(c, w0, w)
  {}

  lemma OrphanBelongs(c: Config, w0: World, w: World, run: string)
    ensures OrphanOf(c, w0, w, run) ==> Belongs(c, w0, w) && Orphaned(c, w0, w)
  {}

  lemma HeadlessSimulator(c: Config, w0: World, w: World, identity: Identity)
    requires Mid(c, w0, w) && w.simulator.None? && w.state.value.simulatorIdentity.None?
    ensures Headless(c, w0, Apply(c, w, MakeSimulator(identity)).value)
  {
    assert Apply(c, w, MakeSimulator(identity)).value.(simulator := None) == w;
  }

  lemma HeadlessController(c: Config, w0: World, w: World, identity: Identity)
    requires Mid(c, w0, w) && c.move && w.state.value.controllerIdentity.None? && w.simulator.Some?
    requires w.state.value.controllerName !in w.simulator.value.children
    ensures Headless(c, w0, Apply(c, w, MakeChild(w.state.value.controllerName, identity)).value)
  {
    MadeIsUndone(c, w, w.state.value.controllerName, identity);
  }

  lemma MadeIsUndone(c: Config, w: World, name: string, identity: Identity)
    requires w.simulator.Some? && name !in w.simulator.value.children
    ensures Apply(c, w, MakeChild(name, identity)).Some?
    ensures Without(Apply(c, w, MakeChild(name, identity)).value, name) == w
  {
    var children := w.simulator.value.children;
    assert children[name := Empty(identity)] - {name} == children;
  }

  /** The simulator can take controllers: it has all of them, or no process of its own. */
  predicate CanTake(w0: World) {
    w0.simulator.None? || w0.simulator.value.own.procs == {} || MANAGED <= w0.simulator.value.own.enabled
  }

  /** The controllers the simulator hands down. */
  function Enabled(w: World): set<Controller> {
    if w.simulator.None? then {} else w.simulator.value.own.enabled
  }

  /** A recorded pending run is none of the hierarchy's directories. */
  lemma CreatedIsOwn(c: Config, w0: World, w: World)
    requires Mid(c, w0, w)
    ensures w.state.value.created && w.state.value.pending.Some? ==> w.state.value.pending.value !in Children(w0)
    ensures Children(w0) <= Settled(w)
  {
    MidKeeps(c, w0, w);
    assert w.state.value.created && w.state.value.pending.Some? ==> w.state.value.pending.value in Runs(w.state.value);
  }

  /** Removing another run leaves the unrecorded directory as it is. */
  lemma OrphanDrop(c: Config, w0: World, w: World, run: string)
    requires Origin(c, w0) && Orphaned(c, w0, w) && run in w.state.value.active && run in Children(w)
    ensures Apply(c, w, KillChild(run)) == Some(Without(w, run)) && Orphaned(c, w0, Without(w, run))
  {
    hide Mid, Origin, LoaderAccepts, BindAccepts;
    var state, lost := w.state.value, w.state.value.pending.value;
    OrphanBinds(c, w0, w);
    var small := Without(w, lost);
    assert small == small.(state := Some(state));
    DropRunStep(c, w0, small, state, run);
    assert Without(Without(w, run), lost) == Without(small, run) by {
      assert w.simulator.value.children - {run} - {lost} == w.simulator.value.children - {lost} - {run};
    }
    assert Without(small, run) == Without(small, run).(state := Some(state));
  }

  lemma OrphanForget(c: Config, w0: World, w: World, run: string)
    requires Origin(c, w0) && Orphaned(c, w0, w) && run !in Children(w)
    ensures Orphaned(c, w0, w.(state := Some(Forgotten(w.state.value, run))))
  {
    hide Mid, Origin, LoaderAccepts, BindAccepts;
    var state, lost := w.state.value, w.state.value.pending.value;
    OrphanBinds(c, w0, w);
    var small := Without(w, lost);
    assert small == small.(state := Some(state));
    ForgetStep(c, w0, small, state, run);
    assert Without(w.(state := Some(Forgotten(state, run))), lost) == small.(state := Some(Forgotten(state, run)));
  }

  // ----- processes between the commands -----

  /** The processes in and below a run's directory. */
  function Populated(w: World, run: string, procs: set<nat>): World
    requires w.simulator.Some? && run in w.simulator.value.children
  {
    var dir := w.simulator.value.children[run];
    w.(simulator := Some(WithChild(w.simulator.value, run, dir.(procs := procs))))
  }

  lemma PopulateStep(c: Config, w0: World, w: World, run: string, procs: set<nat>)
    requires Mid(c, w0, w) && run in w.state.value.active && run in Children(w)
    ensures Mid(c, w0, Populated(w, run, procs))
  {
    var state, after := w.state.value, Populated(w, run, procs);
    assert w == w.(state := Some(state));
    ChildrenAre(c, w0, w, state);
    PopulateChildren(w0, state, w.simulator.value.children, run, procs);
    hide Mid, LoaderAccepts;
    ChildrenChange(c, w0, w, state, after);
    assert after == after.(state := Some(state));
  }

  lemma PopulateChildren(w0: World, state: ScopeState, children: map<string, Directory>, run: string, procs: set<nat>)
    requires ChildrenOf(w0, state, children) && run in state.active && run in children
    ensures ChildrenOf(w0, state, children[run := children[run].(procs := procs)]) && run != state.controllerName
  {}

  lemma OrphanPopulate(c: Config, w0: World, w: World, run: string, procs: set<nat>)
    requires Origin(c, w0) && Orphaned(c, w0, w) && run in w.state.value.active && run in Children(w)
    ensures Orphaned(c, w0, Populated(w, run, procs))
  {
    var lost := w.state.value.pending.value;
    OrphanBinds(c, w0, w);
    hide Mid, Origin, LoaderAccepts, BindAccepts;
    PopulateStep(c, w0, Without(w, lost), run, procs);
    var dir := w.simulator.value.children[run].(procs := procs);
    assert Without(Populated(w, run, procs), lost) == Populated(Without(w, lost), run, procs) by {
      assert w.simulator.value.children[run := dir] - {lost} == (w.simulator.value.children - {lost})[run := dir];
    }
  }
}
