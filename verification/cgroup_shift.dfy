/**
 How the hierarchy that restoration returns to may differ from the one the commands began
 with: an adopted, a stranded or a lost directory under the simulator, and nothing else.
 */
module CgroupShift {
  import opened Wrappers
  import opened CgroupWorld
  import opened CgroupScope
  import opened CgroupStart

  function SimulatorProcs(w: World): set<nat> {
    if w.simulator.None? then {} else w.simulator.value.own.procs
  }

  /** The same root, controllers, processes and state file; the simulator's directories may differ. */
  predicate Kin(a: World, b: World) {
    && a.available == b.available && a.root == b.root && a.state == b.state
    && SimulatorBefore(a) == SimulatorBefore(b) && SimulatorProcs(a) == SimulatorProcs(b)
  }

  /** Both hierarchies have this very directory. */
  predicate Shared(a: World, b: World, name: string) {
    name in ChildrenBefore(a) && name in ChildrenBefore(b) && ChildrenBefore(a)[name] == ChildrenBefore(b)[name]
  }

  /**
   Every directory that is new is one of `stranded`; every one that is gone or replaced has
   a resource name, which a new scope adopts, or is one of `lost`.
   */
  ghost predicate Shifted(a: World, b: World, stranded: set<string>, lost: set<string>) {
    && Kin(a, b)
    && (forall name | name in Children(b) :: Shared(a, b, name) || name in stranded)
    && (forall name | name in Children(a) :: Shared(a, b, name) || ResourceName(name) || name in lost)
  }

  lemma Unshifted(a: World, stranded: set<string>, lost: set<string>)
    ensures Shifted(a, a, stranded, lost)
  {}

  lemma ShiftsOn(a: World, b: World, c: World, stranded: set<string>, lost: set<string>, s: set<string>, l: set<string>)
    requires Shifted(a, b, stranded, lost) && Shifted(b, c, s, l)
    ensures Shifted(a, c, stranded + s, lost + l)
  {
    hide Kin;
    KinToo(a, b, c);
    forall name | name in Children(c) ensures Shared(a, c, name) || name in stranded + s {
      assert Shared(b, c, name) || name in s;
    }
    forall name | name in Children(a) ensures Shared(a, c, name) || ResourceName(name) || name in lost + l {
      assert Shared(a, b, name) || ResourceName(name) || name in lost;
    }
  }

  lemma KinToo(a: World, b: World, c: World)
    requires Kin(a, b) && Kin(b, c)
    ensures Kin(a, c)
  {}

  /** A new scope takes the resource-named directories as its runs. */
  lemma BareShifts(a: World)
    ensures Shifted(a, Bare(a), {}, {})
  {}

  /** Clearing the pending mark leaves the unrecorded directory to the hierarchy. */
  lemma StrandedShifts(c: Config, a: World, w: World, run: string)
    requires OrphanOf(c, a, w, run)
    ensures Shifted(a, Stranded(a, w, run), {run}, {})
  {
    hide Mid;
  }

  /** Removing an announced run that was never made takes the older directory of its name. */
  lemma LostShifts(c: Config, a: World, w: World, run: string)
    requires Mid(c, a, w)
    ensures Shifted(a, Lost(a, w.state.value, run), {}, {run})
  {
    hide SimulatorMid, ReadyMid, Constraints;
  }

  // ----- the simulator itself -----

  /** A simulator that was there before the scope, and is the same one in both. */
  predicate SameSimulator(a: World, b: World) {
    a.simulator.Some? && b.simulator.Some? && a.simulator.value.own == b.simulator.value.own
  }

  lemma SimulatorStays(a: World, state: ScopeState, w: World, run: string)
    requires a.simulator.Some?
    ensures SameSimulator(a, Bare(a)) && (state.preexisting ==> SameSimulator(a, Lost(a, state, run)))
    ensures w.simulator.Some? && run in w.simulator.value.children ==> SameSimulator(a, Stranded(a, w, run))
  {}
}
