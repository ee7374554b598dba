/** Handlers of ready entities: callback groups, the per-entity "handler pending" flag and the
    generator that creates handlers (rclpy/executors.py:773-840, 1017-1076 and
    rclpy/callback_groups.py). Handlers run on any number of threads. */
module Handlers {
  import opened Options
  import opened Runs

  type Entity = nat
  type Group = nat

  /** One callback group per entity; a group is mutually exclusive or reentrant. Guard conditions
      are selected by a separate flag, see `Event.Make`. */
  datatype Layout = Layout(group: Entity -> Group, exclusive: Group -> bool, guard: Entity -> bool)

  /** The lock region of beginning_execution on the active entity of an exclusive group. */
  function Begin(active: Option<Entity>, e: Entity): (Option<Entity>, bool) {
    if active.None? then (Some(e), true) else (active, false)
  }

  class MutuallyExclusiveCallbackGroup {
    var active: Option<Entity>
    var entities: set<Entity>

    constructor ()
      ensures active == None && entities == {}
    {
      active, entities := None, {};
    }

    method AddEntity(e: Entity)
      modifies this
      ensures entities == old(entities) + {e} && active == old(active)
    {
      entities := entities + {e};
    }

    method CanExecute(e: Entity) returns (ok: bool)
      requires e in entities
      ensures ok <==> active.None?
    {
      ok := active.None?;
    }

    method BeginningExecution(e: Entity) returns (granted: bool)
      requires e in entities
      modifies this
      ensures (active, granted) == Begin(old(active), e) && entities == old(entities)
    {
      granted := false;
      if active.None? {
        active := Some(e);
        granted := true;
      }
    }

    /** The precondition is the assertion the code makes here; `EndingNeverFails` shows that
        every handler meets it. */
    method EndingExecution(e: Entity)
      requires active == Some(e)
      modifies this
      ensures active == None && entities == old(entities)
    {
      active := None;
    }
  }

  /** `Created`: the task exists, its coroutine has not started. `Granted`: the group admitted
      it, the work is not yet taken. `Taken`: flag cleared; the callback runs or is suspended at
      an await. `Refused`: not admitted, or created after shutdown; flag not yet cleared. */
  datatype Phase = Created | Granted | Taken | Refused | Ended

  datatype Handler = Handler(entity: Entity, phase: Phase, bornShutDown: bool) {
    /** Between a granted beginning_execution and its ending_execution. */
    predicate InGroup() { phase.Granted? || phase.Taken? }

    /** Created, and not yet taken or turned away. */
    predicate Untaken() { phase.Created? || phase.Granted? || phase.Refused? }
  }

  /** `scan` holds the entities of the current wait that are ready and not yet visited, `seen`
      the guard conditions already visited since, `visit` the entity for which the group was found
      free and whose handler is about to be made. */
  datatype State = State(
    flags: set<Entity>, triggered: set<Entity>, active: map<Group, Entity>,
    handlers: seq<Handler>, scan: set<Entity>, seen: set<Entity>, visit: Option<Entity>)

  const INITIAL := State({}, {}, map[], [], {}, {}, None)

  datatype Event =
    /** A wait ends: `ready` were waited on and are ready, `fired` are guard conditions that were
        waited on and fired. Whatever an earlier, abandoned generator had left is forgotten. */
    | Waited(ready: set<Entity>, fired: set<Entity>)
    | Visit(e: Entity)
    | Make(shutDown: bool)
    | Start(h: nat)     // is_shutdown test and beginning_execution
    | Take(h: nat)      // take_from_wait_list and clearing of the flag
    | TurnAway(h: nat)  // clearing of the flag of a refused handler
    | End(h: nat)       // ending_execution, also when the coroutine raises or is closed

  function Holder(s: State, g: Group): Option<Entity> {
    if g in s.active then Some(s.active[g]) else None
  }

  /** Executor.can_execute, the filter for what is waited on. */
  predicate CanExecute(l: Layout, s: State, e: Entity) {
    e !in s.flags && (l.exclusive(l.group(e)) ==> Holder(s, l.group(e)).None?)
  }

  function SetPhase(s: State, h: nat, p: Phase): State
    requires h < |s.handlers|
  {
    s.(handlers := s.handlers[h := s.handlers[h].(phase := p)])
  }

  function StartHandler(l: Layout, s: State, h: nat): State
    requires h < |s.handlers|
  {
    var e := s.handlers[h].entity;
    var g := l.group(e);
    if s.handlers[h].bornShutDown then SetPhase(s, h, Refused)
    else if !l.exclusive(g) then SetPhase(s, h, Granted)
    else
      var (holder, granted) := Begin(Holder(s, g), e);
      if granted then SetPhase(s, h, Granted).(active := s.active[g := holder.value])
      else SetPhase(s, h, Refused)
  }

  function EndHandler(l: Layout, s: State, h: nat): State
    requires h < |s.handlers|
  {
    var g := l.group(s.handlers[h].entity);
    SetPhase(s, h, Ended).(active := if l.exclusive(g) then s.active - {g} else s.active)
  }

  function Step(l: Layout, s: State, e: Event): Option<State> {
    match e
    case Waited(ready, fired) =>
      if (forall x :: x in ready + fired ==> CanExecute(l, s, x)) && (forall x :: x in ready ==> !l.guard(x))
         && (forall x :: x in fired ==> l.guard(x))
      then Some(s.(scan := ready, seen := {}, visit := None, triggered := s.triggered + fired)) else None
    case Visit(x) =>
      if (if l.guard(x) then x in s.triggered && x !in s.seen else x in s.scan) && s.visit.None? then
        var free := l.exclusive(l.group(x)) ==> Holder(s, l.group(x)).None?;
        Some(s.(scan := s.scan - {x}, seen := s.seen + {x}, visit := if free then Some(x) else None))
      else None
    case Make(down) =>
      if s.visit.Some?
      then Some(s.(visit := None, flags := s.flags + {s.visit.value},
                   handlers := s.handlers + [Handler(s.visit.value, Created, down)]))
      else None
    case Start(h) =>
      if h < |s.handlers| && s.handlers[h].phase.Created? then Some(StartHandler(l, s, h)) else None
    case Take(h) =>
      if h < |s.handlers| && s.handlers[h].phase.Granted? then
        var x := s.handlers[h].entity;
        Some(SetPhase(s, h, Taken).(flags := s.flags - {x},
                                    triggered := if l.guard(x) then s.triggered - {x} else s.triggered))
      else None
    case TurnAway(h) =>
      if h < |s.handlers| && s.handlers[h].phase.Refused?
      then Some(SetPhase(s, h, Ended).(flags := s.flags - {s.handlers[h].entity})) else None
    case End(h) =>
      if h < |s.handlers| && s.handlers[h].phase.Taken? then Some(EndHandler(l, s, h)) else None
  }

  function Machine(l: Layout): (State, Event) -> Option<State> {
    (s: State, e: Event) => Step(l, s, e)
  }

  // ----- mutual exclusion -----

  ghost predicate Occupies(l: Layout, s: State, h: nat, g: Group) {
    h < |s.handlers| && s.handlers[h].InGroup() && l.group(s.handlers[h].entity) == g
  }

  /** At most one handler is inside an exclusive group; the group remembers exactly its entity
      and is free exactly when there is none. */
  ghost predicate Exclusive(l: Layout, s: State, g: Group) {
    l.exclusive(g) ==>
      && (forall h: nat, k: nat :: Occupies(l, s, h, g) && Occupies(l, s, k, g) ==> h == k)
      && (g in s.active <==> exists h: nat :: Occupies(l, s, h, g))
      && (forall h: nat :: Occupies(l, s, h, g) ==> g in s.active && s.active[g] == s.handlers[h].entity)
  }

  lemma SetPhaseOccupies(l: Layout, s: State, h: nat, p: Phase, g: Group)
    requires h < |s.handlers|
    ensures forall k: nat :: k != h ==> (Occupies(l, SetPhase(s, h, p), k, g) <==> Occupies(l, s, k, g))
    ensures Occupies(l, SetPhase(s, h, p), h, g)
            <==> (p.Granted? || p.Taken?) && l.group(s.handlers[h].entity) == g
  {
  }

  lemma SamePhasesSameOccupants(l: Layout, s: State, s': State, g: Group)
    requires s'.handlers == s.handlers && s'.active == s.active && Exclusive(l, s, g)
    ensures Exclusive(l, s', g)
  {
    assert forall h: nat :: Occupies(l, s', h, g) <==> Occupies(l, s, h, g);
  }

  lemma StartKeepsExclusion(l: Layout, s: State, h: nat, g: Group)
    requires Exclusive(l, s, g) && h < |s.handlers| && s.handlers[h].phase.Created?
    ensures Exclusive(l, StartHandler(l, s, h), g)
  {
    var s' := StartHandler(l, s, h);
    SetPhaseOccupies(l, s, h, s'.handlers[h].phase, g);
    assert forall k: nat :: Occupies(l, s', k, g) <==> Occupies(l, SetPhase(s, h, s'.handlers[h].phase), k, g);
    if l.exclusive(g) && exists k: nat :: Occupies(l, s, k, g) {
      var k: nat :| Occupies(l, s, k, g);
      assert Occupies(l, s', k, g);
    }
  }

  lemma TakeKeepsExclusion(l: Layout, s: State, h: nat, p: Phase, s': State, g: Group)
    requires Exclusive(l, s, g) && h < |s.handlers|
    requires s.handlers[h].InGroup() == (p.Granted? || p.Taken?)
    requires s'.handlers == SetPhase(s, h, p).handlers && s'.active == s.active
    ensures Exclusive(l, s', g)
  {
    SetPhaseOccupies(l, s, h, p, g);
    assert forall k: nat :: Occupies(l, s', k, g) <==> Occupies(l, SetPhase(s, h, p), k, g);
    assert forall k: nat :: Occupies(l, s', k, g) <==> Occupies(l, s, k, g);
  }

  lemma EndKeepsExclusion(l: Layout, s: State, h: nat, g: Group)
    requires Exclusive(l, s, g) && h < |s.handlers| && s.handlers[h].phase.Taken?
    ensures Exclusive(l, EndHandler(l, s, h), g)
  {
    var s' := EndHandler(l, s, h);
    SetPhaseOccupies(l, s, h, Ended, g);
    assert forall k: nat :: Occupies(l, s', k, g) <==> Occupies(l, SetPhase(s, h, Ended), k, g);
    if l.group(s.handlers[h].entity) == g {
      assert Occupies(l, s, h, g);
    } else if l.exclusive(g) && exists k: nat :: Occupies(l, s, k, g) {
      var k: nat :| Occupies(l, s, k, g);
      assert Occupies(l, s', k, g);
    }
  }

  lemma StepKeepsExclusion(l: Layout, s: State, e: Event, g: Group)
    requires Exclusive(l, s, g) && Step(l, s, e).Some?
    ensures Exclusive(l, Step(l, s, e).value, g)
  {
    var s' := Step(l, s, e).value;
    match e
    case Make(down) =>
      assert forall h: nat :: Occupies(l, s', h, g) <==> Occupies(l, s, h, g);
    case Start(h) => StartKeepsExclusion(l, s, h, g);
    case Take(h) => TakeKeepsExclusion(l, s, h, Taken, s', g);
    case TurnAway(h) => TakeKeepsExclusion(l, s, h, Ended, s', g);
    case End(h) => EndKeepsExclusion(l, s, h, g);
    case _ => SamePhasesSameOccupants(l, s, s', g);
  }

  /** Main result on groups: in every run, for every mutually exclusive group, at most one
      handler lies between its granted beginning and its end, suspended coroutines included,
      and the group is free exactly when none does. */
  lemma MutualExclusion(l: Layout, es: seq<Event>, g: Group)
    requires Exec(Machine(l), INITIAL, es).Some? && l.exclusive(g)
    ensures var s := Exec(Machine(l), INITIAL, es).value;
      && (forall h: nat, k: nat :: Occupies(l, s, h, g) && Occupies(l, s, k, g) ==> h == k)
      && (Holder(s, g).None? <==> forall h: nat :: !Occupies(l, s, h, g))
  {
    var inv := (s: State) => Exclusive(l, s, g);
    forall s, e | inv(s) && Machine(l)(s, e).Some? ensures inv(Machine(l)(s, e).value) {
      StepKeepsExclusion(l, s, e, g);
    }
    InvariantOfRuns(Machine(l), inv, INITIAL, es);
  }

  /** ... so the assertion in ending_execution holds whenever a handler ends. */
  lemma EndingNeverFails(l: Layout, es: seq<Event>, h: nat)
    requires Exec(Machine(l), INITIAL, es).Some?
    requires var s := Exec(Machine(l), INITIAL, es).value;
      h < |s.handlers| && s.handlers[h].InGroup() && l.exclusive(l.group(s.handlers[h].entity))
    ensures var s := Exec(Machine(l), INITIAL, es).value;
      Holder(s, l.group(s.handlers[h].entity)) == Some(s.handlers[h].entity)
  {
    var s := Exec(Machine(l), INITIAL, es).value;
    var g := l.group(s.handlers[h].entity);
    var inv := (s: State) => Exclusive(l, s, g);
    forall s, e | inv(s) && Machine(l)(s, e).Some? ensures inv(Machine(l)(s, e).value) {
      StepKeepsExclusion(l, s, e, g);
    }
    InvariantOfRuns(Machine(l), inv, INITIAL, es);
    assert Occupies(l, s, h, g);
  }

  /** An exclusive group is free when no handler is inside; a reentrant one always. */
  ghost predicate Free(l: Layout, s: State, g: Group) {
    !l.exclusive(g) || forall h: nat :: !Occupies(l, s, h, g)
  }

  /** The generator makes a handler for an entity it visits if and only if the group is free. */
  lemma MadeExactlyIfFree(l: Layout, es: seq<Event>, x: Entity)
    requires Exec(Machine(l), INITIAL, es).Some? && Step(l, Exec(Machine(l), INITIAL, es).value, Visit(x)).Some?
    ensures var s := Exec(Machine(l), INITIAL, es).value;
      Step(l, s, Visit(x)).value.visit == if Free(l, s, l.group(x)) then Some(x) else None
  {
    if l.exclusive(l.group(x)) {
      MutualExclusion(l, es, l.group(x));
    }
  }

  /** A handler that starts is admitted if and only if it was made before shutdown and its group is
      reentrant or has no other handler inside; otherwise it is turned away. */
  lemma AdmittedExactlyIfFree(l: Layout, es: seq<Event>, h: nat)
    requires Exec(Machine(l), INITIAL, es).Some?
    requires var s := Exec(Machine(l), INITIAL, es).value; h < |s.handlers| && s.handlers[h].phase.Created?
    ensures var s := Exec(Machine(l), INITIAL, es).value;
      var g := l.group(s.handlers[h].entity);
      && Step(l, s, Start(h)).Some?
      && Step(l, s, Start(h)).value.handlers[h].phase
         == if !s.handlers[h].bornShutDown && Free(l, s, g) then Granted else Refused
  {
    var s := Exec(Machine(l), INITIAL, es).value;
    var g := l.group(s.handlers[h].entity);
    if l.exclusive(g) {
      MutualExclusion(l, es, g);
    }
  }

  /** The life of the handler of `x`, from the wait that finds it ready to its end. */
  function Service(l: Layout, s: State, x: Entity): seq<Event> {
    var h := |s.handlers|;
    [Waited(if l.guard(x) then {} else {x}, if l.guard(x) then {x} else {}),
     Visit(x), Make(false), Start(h), Take(h), End(h)]
  }

  /** An entity that passes the filter is served when it is ready and nobody interferes: its handler
      is made, admitted and taken, and leaves the flag cleared, the group free and a guard condition
      no longer triggered. */
  lemma ReadyEntityIsServed(l: Layout, s: State, x: Entity)
    requires CanExecute(l, s, x)
    ensures var end := Exec(Machine(l), s, Service(l, s, x));
      && end.Some? && end.value.handlers == s.handlers + [Handler(x, Ended, false)]
      && end.value.flags == s.flags && CanExecute(l, end.value, x)
      && end.value.triggered == s.triggered - if l.guard(x) then {x} else {}
  {
    var m, h := Machine(l), |s.handlers|;
    var es, s1 := HandlerIsMade(l, s, x);
    es, s1 := Grow(m, s, es, s1, Start(h));
    assert s1.handlers == s.handlers + [Handler(x, Granted, false)];
    es, s1 := Grow(m, s, es, s1, Take(h));
    assert s1.handlers == s.handlers + [Handler(x, Taken, false)];
    es, s1 := Grow(m, s, es, s1, End(h));
    assert es == Service(l, s, x);
  }

  lemma HandlerIsMade(l: Layout, s: State, x: Entity) returns (es: seq<Event>, s': State)
    requires CanExecute(l, s, x)
    ensures es == Service(l, s, x)[..3] && Exec(Machine(l), s, es) == Some(s')
    ensures s'.handlers == s.handlers + [Handler(x, Created, false)]
    ensures s'.flags == s.flags + {x} && s'.active == s.active
    ensures s'.triggered == s.triggered + if l.guard(x) then {x} else {}
  {
    var m := Machine(l);
    es, s' := Grow(m, s, [], s, Service(l, s, x)[0]);
    es, s' := Grow(m, s, es, s', Visit(x));
    es, s' := Grow(m, s, es, s', Make(false));
  }

  // ----- the flag -----

  ghost predicate Pending(s: State, h: nat, x: Entity) {
    h < |s.handlers| && s.handlers[h].entity == x && s.handlers[h].Untaken()
  }

  /** At most one handler of `x` is created and not yet taken; the flag says whether there is
      one; and an entity the generator may still visit has none. */
  ghost predicate Flagged(s: State, x: Entity) {
    && (forall h: nat, k: nat :: Pending(s, h, x) && Pending(s, k, x) ==> h == k)
    && (x in s.flags <==> exists h: nat :: Pending(s, h, x))
    && (x in s.scan || s.visit == Some(x) ==> x !in s.flags)
    && (s.visit == Some(x) ==> x !in s.scan)
  }

  lemma PhaseStepKeepsFlag(l: Layout, s: State, e: Event, x: Entity)
    requires e.Start? || e.Take? || e.TurnAway? || e.End?
    requires Flagged(s, x) && Step(l, s, e).Some?
    ensures Flagged(Step(l, s, e).value, x)
  {
    var s' := Step(l, s, e).value;
    var h := e.h;
    assert forall k: nat :: k != h ==> (Pending(s', k, x) <==> Pending(s, k, x));
    if e.Start? || s.handlers[h].entity != x || e.End? {
      assert Pending(s', h, x) <==> Pending(s, h, x);
      if x in s.flags {
        var k: nat :| Pending(s, k, x);
        assert Pending(s', k, x);
      }
    } else {
      assert Pending(s, h, x) && !Pending(s', h, x);
    }
  }

  lemma StepKeepsFlag(l: Layout, s: State, e: Event, x: Entity)
    requires !l.guard(x) && Flagged(s, x) && Step(l, s, e).Some?
    ensures Flagged(Step(l, s, e).value, x)
  {
    var s' := Step(l, s, e).value;
    match e
    case Waited(ready, fired) =>
      assert x in ready ==> x in ready + fired;
      assert forall h: nat :: Pending(s', h, x) <==> Pending(s, h, x);
    case Visit(y) =>
      assert forall h: nat :: Pending(s', h, x) <==> Pending(s, h, x);
    case Make(down) =>
      var n := |s.handlers|;
      assert forall h: nat :: h != n ==> (Pending(s', h, x) <==> Pending(s, h, x));
      assert Pending(s', n, x) <==> s.visit == Some(x);
    case _ => PhaseStepKeepsFlag(l, s, e, x);
  }

  /** Main result on the flag, for timers, subscriptions, clients, services and waitables: in
      every run, across abandoned and resumed generators, at most one handler of the entity is
      created and not yet taken (or turned away), and _executor_event is set exactly then. */
  lemma OneUntakenHandlerPerEntity(l: Layout, es: seq<Event>, x: Entity)
    requires Exec(Machine(l), INITIAL, es).Some? && !l.guard(x)
    ensures var s := Exec(Machine(l), INITIAL, es).value;
      && (forall h: nat, k: nat :: Pending(s, h, x) && Pending(s, k, x) ==> h == k)
      && (x in s.flags <==> exists h: nat :: Pending(s, h, x))
  {
    var inv := (s: State) => Flagged(s, x);
    forall s, e | inv(s) && Machine(l)(s, e).Some? ensures inv(Machine(l)(s, e).value) {
      StepKeepsFlag(l, s, e, x);
    }
    InvariantOfRuns(Machine(l), inv, INITIAL, es);
  }

  /** Guard conditions are the exception: they are selected by _executor_triggered, which stays
      set until a handler is taken, so a second pass makes a second handler while the first is
      waiting for a thread. */
  lemma GuardConditionsCanHaveTwo(l: Layout, x: Entity)
    requires l.guard(x)
    ensures exists s :: Reaches(Machine(l), INITIAL, s) && TwoPending(s, x)
  {
    var m := Machine(l);
    ReachesStart(m, INITIAL);
    ReachesNext(m, INITIAL, INITIAL, Waited({}, {x}));
    var s1 := m(INITIAL, Waited({}, {x})).value;
    assert x in s1.triggered && x !in s1.seen;
    ReachesNext(m, INITIAL, s1, Visit(x));
    var s2 := m(s1, Visit(x)).value;
    ReachesNext(m, INITIAL, s2, Make(false));
    var s3 := m(s2, Make(false)).value;
    ReachesNext(m, INITIAL, s3, Waited({}, {}));
    var s4 := m(s3, Waited({}, {})).value;
    assert x in s4.triggered && x !in s4.seen;
    ReachesNext(m, INITIAL, s4, Visit(x));
    var s5 := m(s4, Visit(x)).value;
    ReachesNext(m, INITIAL, s5, Make(false));
    var s6 := m(s5, Make(false)).value;
    assert Pending(s6, 0, x) && Pending(s6, 1, x);
  }

  /** So the entities that can have two untaken handlers, in some run, are exactly the guard
      conditions. */
  lemma OnlyGuardConditionsCanHaveTwo(l: Layout, x: Entity)
    ensures (exists s :: Reaches(Machine(l), INITIAL, s) && TwoPending(s, x)) <==> l.guard(x)
  {
    if l.guard(x) {
      GuardConditionsCanHaveTwo(l, x);
    } else if s :| Reaches(Machine(l), INITIAL, s) && TwoPending(s, x) {
      var es :| Exec(Machine(l), INITIAL, es) == Some(s);
      OneUntakenHandlerPerEntity(l, es, x);
      assert false;
    }
  }

  ghost predicate TwoPending(s: State, x: Entity) {
    exists h: nat, k: nat :: h != k && Pending(s, h, x) && Pending(s, k, x)
  }
}
