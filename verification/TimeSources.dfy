/** The time source of a node and its agreement with the parameter use_sim_time
    (rclpy/time_source.py with rclpy/node.py:886-896, 1074-1091). */
module TimeSources {
  import opened Options
  import opened Runs
  import opened Parameters
  import opened ParameterStores
  import opened ParameterInvariants
  import opened AtomicSetting
  import opened SettingWithCallbacks
  import opened ParameterDeclaring

  const USE_SIM_TIME := "use_sim_time"

  type Time = int

  class Clock {
    var active: bool
    var override: Time
    const rosTime: bool

    constructor (rosTime: bool)
      ensures this.rosTime == rosTime && !active
    {
      active, override, this.rosTime := false, 0, rosTime;
    }
  }

  /** The first entry for use_sim_time decides: a boolean is followed, anything else refused. */
  function Hook(active: bool, ps: seq<Parameter>): (r: (bool, Verdict))
    ensures r.1.Refused? ==> r.0 == active
  {
    if ps == [] then (active, Accepted)
    else if ps[0].name == USE_SIM_TIME then
      if ps[0].value.Bool? then (ps[0].value.b, Accepted)
      else (active, Refused(Vetoed("use_sim_time parameter set to something besides a bool")))
    else Hook(active, ps[1..])
  }

  const SIM_TIME_DECLARATION := Declaration(USE_SIM_TIME, OfValue(Bool(false)), PLAIN_DESCRIPTOR)

  /** get_parameter raises for a static parameter without a value. */
  predicate Unreadable(s: Store) {
    s.ValueOf(USE_SIM_TIME).NotSet? && USE_SIM_TIME in s.descs && !s.descs[USE_SIM_TIME].dynamicTyping
  }

  /** The node's store once it has a readable use_sim_time, or the error on the way. */
  function EnsureUseSimTime(s: Store, overrides: map<string, Value>, callbacks: seq<OnCallback>, settings: Settings)
    : (Store, Option<Error>)
  {
    var (s', error) :=
      if USE_SIM_TIME in s.params then (s, None)
      else Declare(s, PrepareAll(Prepared([], map[], None), "", [SIM_TIME_DECLARATION], overrides, false), callbacks, settings.test);
    (s', if error.None? && Unreadable(s') then Some(Uninitialized) else error)
  }

  class TimeSource {
    var active: bool
    var lastTime: Time
    var attached: bool
    var subscribed: bool
    var clocks: set<Clock>
    var registered: nat     // how often _on_parameter_event has been added to a node's callbacks

    /** Every attached clock carries the current flag and the last time. */
    ghost predicate Valid() reads this, clocks {
      forall c :: c in clocks ==> c.active == active && c.override == lastTime && c.rosTime
    }

    constructor ()
      ensures Valid() && clocks == {} && !active && !attached && !subscribed && lastTime == 0 && registered == 0
    {
      active, lastTime, attached, subscribed, clocks, registered := false, 0, false, false, {}, 0;
    }

    /** The setter of ros_time_is_active: nothing happens unless the flag changes. */
    method SetActive(enabled: bool)
      requires Valid()
      modifies this`active, this`subscribed, clocks`active
      ensures Valid() && active == enabled
      ensures subscribed == if old(active) == enabled then old(subscribed)
                            else enabled && (old(subscribed) || attached)
    {
      if active == enabled {
        return;
      }
      active := enabled;
      var todo := clocks;
      while todo != {}
        invariant todo <= clocks && active == enabled
        invariant subscribed == old(subscribed)
        invariant forall c :: c in clocks - todo ==> c.active == active
        invariant forall c :: c in clocks ==> c.override == lastTime && c.rosTime
        decreases todo
      {
        var c :| c in todo;
        c.active := enabled;
        todo := todo - {c};
      }
      if enabled {
        if !subscribed && attached {
          subscribed := true;
        }
      } else {
        subscribed := false;
      }
    }

    /** Refuses clocks that do not run on ROS time. */
    method AttachClock(c: Clock) returns (ok: bool)
      requires Valid()
      modifies this`clocks, c`active, c`override
      ensures Valid() && (ok <==> c.rosTime)
      ensures clocks == if ok then old(clocks) + {c} else old(clocks)
    {
      ok := c.rosTime;
      if ok {
        c.override := lastTime;
        c.active := active;
        clocks := clocks + {c};
      }
    }

    method ClockCallback(t: Time)
      requires Valid()
      modifies this`lastTime, clocks`override
      ensures Valid() && lastTime == t
    {
      lastTime := t;
      var todo := clocks;
      while todo != {}
        invariant todo <= clocks && lastTime == t
        invariant forall c :: c in clocks - todo ==> c.override == lastTime
        invariant forall c :: c in clocks ==> c.active == active && c.rosTime
        decreases todo
      {
        var c :| c in todo;
        c.override := t;
        todo := todo - {c};
      }
    }

    method OnParameterEvent(ps: seq<Parameter>) returns (verdict: Verdict)
      requires Valid()
      modifies this`active, this`subscribed, clocks`active
      ensures Valid()
      ensures (active, verdict) == Hook(old(active), ps)
    {
      verdict := Accepted;
      var i := 0;
      while i < |ps|
        invariant 0 <= i <= |ps|
        invariant Valid() && active == old(active) && verdict == Accepted
        invariant Hook(old(active), ps) == Hook(active, ps[i..])
      {
        assert ps[i..][0] == ps[i] && ps[i..][1..] == ps[i + 1..];
        if ps[i].name == USE_SIM_TIME {
          if ps[i].value.Bool? {
            SetActive(ps[i].value.b);
          } else {
            verdict := Refused(Vetoed("use_sim_time parameter set to something besides a bool"));
          }
          return;
        }
        i := i + 1;
      }
    }

    /** Attaching a node, which gets the parameter if it has not got it, and the callback. Errors
        of the declaration, and a static parameter without a value, end the call before the
        callback is registered. Because the setter does nothing when the flag keeps its value,
        attaching with the flag already set does not subscribe again. */
    method AttachNode(node: ParameterStore) returns (error: Option<Error>)
      requires Valid() && node.params.Keys <= node.descs.Keys
      modifies this`active, this`subscribed, this`attached, this`registered, clocks`active
      modifies node`params, node`descs, node`published
      ensures Valid() && attached
      ensures (node.Contents(), error) == EnsureUseSimTime(old(node.Contents()), node.overrides, node.onSet, node.settings)
      ensures registered == old(registered) + (if error.None? then 1 else 0)
      ensures var v := if error.None? then node.Contents().ValueOf(USE_SIM_TIME) else NotSet;
        && active == (if v.Bool? then v.b else old(active))
        && subscribed == if v.Bool? && v.b != old(active) then v.b else !old(attached) && old(subscribed)
    {
      if attached {
        DetachNode();
      }
      attached := true;
      error := None;
      if USE_SIM_TIME !in node.params {
        error := node.DeclareParameters("", [SIM_TIME_DECLARATION], false);
      }
      if error.Some? {
        return;
      }
      var v := node.Contents().ValueOf(USE_SIM_TIME);
      if Unreadable(node.Contents()) {
        return Some(Uninitialized);
      }
      if v.Bool? {
        SetActive(v.b);
      }
      registered := registered + 1;
    }

    method DetachNode()
      requires Valid()
      modifies this`attached, this`subscribed
      ensures Valid() && !attached && !subscribed
    {
      subscribed, attached := false, false;
    }
  }

  // ----- what attaching declares -----

  /** A node that lacks use_sim_time gets it with the override, or else false; this succeeds if and
      only if that value is a boolean and every callback accepts it. A node that has it keeps its
      store. */
  lemma AttachingDeclaresFalseByDefault(s: Store, overrides: map<string, Value>, callbacks: seq<OnCallback>, settings: Settings)
    requires Valid(s, settings.test)
    ensures var (s', error) := EnsureUseSimTime(s, overrides, callbacks, settings);
      if USE_SIM_TIME in s.params then
        s' == s && (error.None? <==> !s.params[USE_SIM_TIME].value.NotSet? || s.descs[USE_SIM_TIME].dynamicTyping)
      else
        var v := if USE_SIM_TIME in overrides then overrides[USE_SIM_TIME] else Bool(false);
        && (error.None? <==> v.Bool? && Unanimous(callbacks, [Parameter(USE_SIM_TIME, v)]))
        && (error.None? ==> s'.ValueOf(USE_SIM_TIME) == v && SameOutside(s, s', {USE_SIM_TIME}))
  {
    if USE_SIM_TIME !in s.params {
      var q := Request("", overrides, false);
      var all, v := q.Preparation([SIM_TIME_DECLARATION]), q.ValueFor(SIM_TIME_DECLARATION);
      SimTimePrepared(q);
      DeclareDoesAsAsked(q, [SIM_TIME_DECLARATION], s, callbacks, settings.test);
      DeclaringSucceedsExactly(s, all.ps, all.ds, callbacks, settings.test);
      assert Declarable(s, all.ps, all.ds, callbacks, settings.test, 0) <==>
        (v.Bool? || v.NotSet?) && Unanimous(callbacks, [Parameter(USE_SIM_TIME, v)]);
      var (s', error) := Declare(s, all, callbacks, settings.test);
      if error.None? {
        assert HoldsDeclared(q, [SIM_TIME_DECLARATION], s', 0);
      }
    }
  }

  lemma SimTimePrepared(q: Request)
    requires q.namespace == "" && !q.ignoreOverride
    ensures var all := q.Preparation([SIM_TIME_DECLARATION]);
      && all.error.None? && all.ps == [Parameter(USE_SIM_TIME, q.ValueFor(SIM_TIME_DECLARATION))]
      && all.ds.Keys == {USE_SIM_TIME} && all.ds[USE_SIM_TIME] == PLAIN_DESCRIPTOR.(typ := BoolType)
      && Names(all.ps) == {USE_SIM_TIME}
    ensures q.NameOf(SIM_TIME_DECLARATION) == USE_SIM_TIME
    ensures q.ValueFor(SIM_TIME_DECLARATION) ==
      if USE_SIM_TIME in q.overrides then q.overrides[USE_SIM_TIME] else Bool(false)
  {
    assert q.NameOf(SIM_TIME_DECLARATION) == USE_SIM_TIME;
    PreparesOne(q, Prepared([], map[], None), SIM_TIME_DECLARATION, []);
    assert [SIM_TIME_DECLARATION] + [] == [SIM_TIME_DECLARATION];
    var all := q.Preparation([SIM_TIME_DECLARATION]);
    NamesCons(all.ps[0], []);
    assert all.ps == [all.ps[0]] + [];
  }

  // ----- agreement with the parameter -----

  /** An on-set callback: one of the user, or that of the time source. */
  datatype Callback = User(judge: OnCallback) | OfTimeSource

  /** The callbacks are asked in order until one refuses; the time source acts when it is asked. */
  function AskInOrder(callbacks: seq<Callback>, active: bool, ps: seq<Parameter>): (bool, Verdict) {
    if callbacks == [] then (active, Accepted)
    else
      var (active', v) := if callbacks[0].User? then (active, callbacks[0].judge(ps)) else Hook(active, ps);
      if v.Refused? then (active', v) else AskInOrder(callbacks[1..], active', ps)
  }

  datatype Node = Node(store: Store, active: bool)

  /** An atomic set on a node with a time source: the callbacks are asked only when the
      descriptors have accepted the list. */
  function SetOnNode(n: Node, settings: Settings, callbacks: seq<Callback>, ps: seq<Parameter>): (Node, Outcome) {
    if (!settings.allowUndeclared && MentionsUndeclared(n.store, ps))
       || ApplyAll(ps, n.store.descs, n.store.params.Keys, true, settings.test).0.Refused?
    then
      var (s', o) := SetAtomically(n.store, settings, ps, Accepted);
      (Node(s', n.active), o)
    else
      var (active', veto) := AskInOrder(callbacks, n.active, ps);
      var (s', o) := SetAtomically(n.store, settings, ps, veto);
      (Node(s', active'), o)
  }

  ghost predicate Agrees(n: Node) {
    USE_SIM_TIME in n.store.params && n.store.params[USE_SIM_TIME].value == Bool(n.active)
  }

  /** The time source is among the callbacks, possibly more than once. */
  ghost predicate Registered(callbacks: seq<Callback>) {
    exists i :: 0 <= i < |callbacks| && callbacks[i].OfTimeSource?
  }

  /** The time source gets its turn before anybody refuses. */
  predicate TakesPart(callbacks: seq<Callback>, ps: seq<Parameter>) {
    callbacks != []
    && (callbacks[0].OfTimeSource? || (callbacks[0].judge(ps).Accepted? && TakesPart(callbacks[1..], ps)))
  }

  /** The value of the first entry for a name. */
  function FirstFor(ps: seq<Parameter>, n: string): Option<Value> {
    if ps == [] then None else if ps[0].name == n then Some(ps[0].value) else FirstFor(ps[1..], n)
  }

  /** The first and the last entry for use_sim_time carry the same value, or there is none. */
  predicate Steady(ps: seq<Parameter>) { FirstFor(ps, USE_SIM_TIME) == LastFor(ps, USE_SIM_TIME) }

  /** `v` is the value of some entry for `n`, or there is none. */
  ghost predicate FromEntry(ps: seq<Parameter>, n: string, v: Option<Value>) {
    match v
    case Some(value) => exists i :: 0 <= i < |ps| && ps[i] == Parameter(n, value)
    case None => forall i :: 0 <= i < |ps| ==> ps[i].name != n
  }

  lemma {:induction false} FirstIsEntry(ps: seq<Parameter>, n: string)
    ensures FromEntry(ps, n, FirstFor(ps, n))
    decreases |ps|
  {
    if ps != [] {
      FirstIsEntry(ps[1..], n);
      if ps[0].name != n && FirstFor(ps, n).Some? {
        var i :| 0 <= i < |ps| - 1 && ps[1..][i] == Parameter(n, FirstFor(ps, n).value);
        assert ps[i + 1] == ps[1..][i];
      } else if ps[0].name != n {
        forall i | 0 <= i < |ps| ensures ps[i].name != n {
          assert i > 0 ==> ps[1..][i - 1] == ps[i];
        }
      } else {
        assert ps[0] == Parameter(n, ps[0].value);
      }
    }
  }

  lemma {:induction false} LastIsEntry(ps: seq<Parameter>, n: string)
    ensures FromEntry(ps, n, LastFor(ps, n))
    decreases |ps|
  {
    if ps != [] {
      var k := |ps| - 1;
      LastIsEntry(ps[..k], n);
      if ps[k].name != n && LastFor(ps, n).Some? {
        var i :| 0 <= i < k && ps[..k][i] == Parameter(n, LastFor(ps, n).value);
        assert ps[i] == ps[..k][i];
      } else if ps[k].name != n {
        forall i | 0 <= i < |ps| ensures ps[i].name != n {
          assert i < k ==> ps[..k][i] == ps[i];
        }
      } else {
        assert ps[k] == Parameter(n, ps[k].value);
      }
    }
  }

  lemma FirstIfLast(ps: seq<Parameter>, n: string)
    ensures FirstFor(ps, n).None? <==> LastFor(ps, n).None?
  {
    FirstIsEntry(ps, n);
    LastIsEntry(ps, n);
  }

  /** The time source follows the first entry. */
  lemma {:induction false} HookFollowsFirst(active: bool, ps: seq<Parameter>)
    ensures var (active', v) := Hook(active, ps);
      match FirstFor(ps, USE_SIM_TIME)
      case None => v.Accepted? && active' == active
      case Some(value) => if value.Bool? then v.Accepted? && active' == value.b else v.Refused? && active' == active
  {
    if ps != [] {
      HookFollowsFirst(active, ps[1..]);
    }
  }

  /** What asking does to the flag, wherever the time source is registered. */
  lemma {:induction false} AskingMovesTheFlag(callbacks: seq<Callback>, active: bool, ps: seq<Parameter>)
    ensures var (active', v) := AskInOrder(callbacks, active, ps);
      && active' == (if TakesPart(callbacks, ps) then Hook(active, ps).0 else active)
      && (v.Accepted? && Registered(callbacks) ==> TakesPart(callbacks, ps) && Hook(active, ps).1.Accepted?)
    decreases |callbacks|
  {
    if callbacks != [] {
      var rest := callbacks[1..];
      var (active1, v) := if callbacks[0].User? then (active, callbacks[0].judge(ps)) else Hook(active, ps);
      AskingMovesTheFlag(rest, active1, ps);
      HookFollowsFirst(active, ps);
      HookFollowsFirst(active1, ps);
      if callbacks[0].User? && Registered(callbacks) {
        var i :| 0 <= i < |callbacks| && callbacks[i].OfTimeSource?;
        assert rest[i - 1].OfTimeSource?;
      }
    }
  }

  /** The list gets as far as the callbacks. */
  predicate ReachesCallbacks(s: Store, settings: Settings, ps: seq<Parameter>) {
    && (settings.allowUndeclared || !MentionsUndeclared(s, ps))
    && ApplyAll(ps, s.descs, s.params.Keys, true, settings.test).0.Accepted?
  }

  /** Main result, one step, for any list and wherever the time source stands among the callbacks:
      an accepted set keeps flag and parameter in agreement if and only if its first and its last
      entry for use_sim_time carry the same value; a set that is not accepted, if and only if the
      time source had not switched the flag before somebody else refused. */
  lemma SetKeepsAgreementExactly(n: Node, settings: Settings, callbacks: seq<Callback>, ps: seq<Parameter>)
    requires Agrees(n) && Registered(callbacks)
    ensures var (n', o) := SetOnNode(n, settings, callbacks, ps);
      Agrees(n') <==>
        if o == Answer(Accepted) then Steady(ps)
        else !(ReachesCallbacks(n.store, settings, ps) && TakesPart(callbacks, ps) && Hook(n.active, ps).0 != n.active)
  {
    var (n', o) := SetOnNode(n, settings, callbacks, ps);
    AskingMovesTheFlag(callbacks, n.active, ps);
    HookFollowsFirst(n.active, ps);
    FirstIfLast(ps, USE_SIM_TIME);
    if o == Answer(Accepted) {
      var ds' := ApplyAll(ps, n.store.descs, n.store.params.Keys, true, settings.test).1;
      var s1 := n.store.(descs := ds');
      assert n'.store == CommitAll(s1, ps, None, false);
      StoreKeepsLast(s1, ps, USE_SIM_TIME);
      assert n'.store.ValueOf(USE_SIM_TIME) == Bool(n'.active) <==> Steady(ps);
    } else {
      assert n'.store.params == n.store.params;
    }
  }

  /** The time source registers first; whoever registers later is inserted in front of it. */
  ghost predicate TimeSourceLast(callbacks: seq<Callback>) {
    && callbacks != [] && callbacks[|callbacks| - 1].OfTimeSource?
    && forall i :: 0 <= i < |callbacks| - 1 ==> callbacks[i].User?
  }

  lemma RegistrationKeepsTimeSourceLast(callbacks: seq<Callback>, judge: OnCallback)
    requires TimeSourceLast(callbacks)
    ensures TimeSourceLast([User(judge)] + callbacks)
  {
  }

  /** The callbacks of a node that has attached its time source before `judges` were registered,
      the last of them first. */
  function AfterRegistering(judges: seq<OnCallback>): seq<Callback> {
    if judges == [] then [OfTimeSource] else [User(judges[0])] + AfterRegistering(judges[1..])
  }

  lemma {:induction false} TimeSourceStaysLast(judges: seq<OnCallback>)
    ensures TimeSourceLast(AfterRegistering(judges))
  {
    if judges != [] {
      TimeSourceStaysLast(judges[1..]);
      RegistrationKeepsTimeSourceLast(AfterRegistering(judges[1..]), judges[0]);
    }
  }

  /** What the time source answers, as a callback among others. */
  function HookAnswer(active: bool): OnCallback { ps => Hook(active, ps).1 }

  lemma {:induction false} AskedLikeOthers(judges: seq<OnCallback>, active: bool, ps: seq<Parameter>)
    ensures AskInOrder(AfterRegistering(judges), active, ps).1 == Ask(judges + [HookAnswer(active)], ps)
    decreases |judges|
  {
    var hook := HookAnswer(active);
    if judges == [] {
      assert [hook][1..] == [] && judges + [hook] == [hook] && [OfTimeSource][1..] == [];
    } else {
      var rest := AfterRegistering(judges[1..]);
      assert AfterRegistering(judges)[0] == User(judges[0]) && AfterRegistering(judges)[1..] == rest;
      assert (judges + [hook])[0] == judges[0] && (judges + [hook])[1..] == judges[1..] + [hook];
      AskedLikeOthers(judges[1..], active, ps);
    }
  }

  /** A set on a node with a time source is a set in which the time source is one more callback: it
      answers the same and leaves the same store. */
  lemma TimeSourceIsOneMoreCallback(n: Node, settings: Settings, judges: seq<OnCallback>, ps: seq<Parameter>)
    ensures var (n', o) := SetOnNode(n, settings, AfterRegistering(judges), ps);
      (n'.store, o) == SetWithCallbacks(n.store, settings, [], judges + [HookAnswer(n.active)], ps)
  {
    AskedLikeOthers(judges, n.active, ps);
  }

  /** Asked last, the time source acts only when nobody else has refused. */
  lemma {:induction false} LastInLine(callbacks: seq<Callback>, active: bool, ps: seq<Parameter>)
    requires TimeSourceLast(callbacks)
    ensures var (active', v) := AskInOrder(callbacks, active, ps);
      && (v.Refused? ==> active' == active)
      && (v.Accepted? ==> Hook(active, ps) == (active', Accepted))
    decreases |callbacks|
  {
    if callbacks[0].User? && callbacks[0].judge(ps).Accepted? {
      LastInLine(callbacks[1..], active, ps);
    }
  }

  /** With the time source asked last, a set that is not accepted changes neither flag nor values, so
      that only an accepted list whose entries for use_sim_time differ ends the agreement. */
  lemma SetKeepsAgreement(n: Node, settings: Settings, callbacks: seq<Callback>, ps: seq<Parameter>)
    requires Agrees(n) && TimeSourceLast(callbacks)
    ensures var (n', o) := SetOnNode(n, settings, callbacks, ps);
      && (Agrees(n') <==> (o == Answer(Accepted) ==> Steady(ps)))
      && (o != Answer(Accepted) ==> n'.active == n.active && n'.store.params == n.store.params)
  {
    assert callbacks[|callbacks| - 1].OfTimeSource?;
    SetKeepsAgreementExactly(n, settings, callbacks, ps);
    LastInLine(callbacks, n.active, ps);
  }

  /** One call of set_parameters_atomically, or one round of set_parameters: the list after the
      pre-set callbacks, and what the callbacks registered so far answer. */
  type Set = (seq<OnCallback>, seq<Parameter>)

  function AfterSet(n: Node, settings: Settings, step: Set): (Node, Outcome) {
    SetOnNode(n, settings, AfterRegistering(step.0), step.1)
  }

  ghost predicate AgreesThroughout(n: Node, settings: Settings, sets: seq<Set>)
    decreases |sets|
  {
    Agrees(n) && (sets != [] ==> AgreesThroughout(AfterSet(n, settings, sets[0]).0, settings, sets[1..]))
  }

  ghost predicate SteadyThroughout(n: Node, settings: Settings, sets: seq<Set>)
    decreases |sets|
  {
    sets != [] ==>
      var (n', o) := AfterSet(n, settings, sets[0]);
      (o == Answer(Accepted) ==> Steady(sets[0].1)) && SteadyThroughout(n', settings, sets[1..])
  }

  /** Main result, all runs: through any sequence of sets, whatever callbacks are registered and
      whatever they answer, ros_time_is_active equals use_sim_time at every point if and only if
      no accepted list starts and ends with different values for it. Lists of distinct names never
      do. */
  lemma {:induction false} AgreementForEver(n: Node, settings: Settings, sets: seq<Set>)
    requires Agrees(n)
    ensures AgreesThroughout(n, settings, sets) <==> SteadyThroughout(n, settings, sets)
    decreases |sets|
  {
    if sets != [] {
      TimeSourceStaysLast(sets[0].0);
      SetKeepsAgreement(n, settings, AfterRegistering(sets[0].0), sets[0].1);
      var n' := AfterSet(n, settings, sets[0]).0;
      if Agrees(n') {
        AgreementForEver(n', settings, sets[1..]);
      }
    }
  }

  lemma DistinctIsSteady(ps: seq<Parameter>)
    requires DistinctNames(ps)
    ensures Steady(ps)
  {
    FirstIsEntry(ps, USE_SIM_TIME);
    LastIsEntry(ps, USE_SIM_TIME);
  }

  /** An accepted list can be unsteady: flag and parameter part without any other callback. */
  lemma RepeatedEntriesBreakAgreement(settings: Settings)
    ensures exists n, ps ::
      && Agrees(n) && SetOnNode(n, settings, [OfTimeSource], ps).1 == Answer(Accepted)
      && !Agrees(SetOnNode(n, settings, [OfTimeSource], ps).0)
  {
    var n := Stored(Bool(false));
    var p, q := Parameter(USE_SIM_TIME, Bool(true)), Parameter(USE_SIM_TIME, Bool(false));
    var ps := [p, q];
    assert ps[1..] == [q] && [q][1..] == [] && [OfTimeSource][1..] == [];
    assert !MentionsUndeclared(n.store, ps);
    ApplyAllIsPointwise(n.store, ps, settings.test);
    assert AskInOrder([OfTimeSource], false, ps) == (true, Accepted);
    assert TimeSourceLast([OfTimeSource]);
    SetKeepsAgreement(n, settings, [OfTimeSource], ps);
    assert FirstFor(ps, USE_SIM_TIME) == Some(Bool(true)) && LastFor(ps, USE_SIM_TIME) == Some(Bool(false));
  }

  /** ... and a late veto does happen. */
  lemma VetoAfterTimeSourceBreaksAgreement(settings: Settings)
    ensures exists n, callbacks, ps ::
      && Agrees(n) && DistinctNames(ps)
      && SetOnNode(n, settings, callbacks, ps).1 != Answer(Accepted)
      && !Agrees(SetOnNode(n, settings, callbacks, ps).0)
  {
    var p := Parameter(USE_SIM_TIME, Bool(true));
    var n := Stored(Bool(false));
    var no: OnCallback := ps => Refused(Vetoed("no"));
    var callbacks := [OfTimeSource, User(no)];
    assert callbacks[1..] == [User(no)];
    assert AskInOrder([User(no)], true, [p]) == (true, Refused(Vetoed("no")));
    assert AskInOrder(callbacks, false, [p]) == (true, Refused(Vetoed("no")));
    var (n', o) := SetOnNode(n, settings, callbacks, [p]);
    assert [p][1..] == [];
    assert ApplyAll([p], n.store.descs, n.store.params.Keys, true, settings.test).0.Accepted?;
    assert !MentionsUndeclared(n.store, [p]);
    assert n'.active && n'.store.params == n.store.params;
    assert o == Answer(Refused(Vetoed("no")));
  }

  /** A node whose use_sim_time is a declared, dynamically typed parameter. */
  function Stored(v: Value): Node {
    Node(Store(map[USE_SIM_TIME := Parameter(USE_SIM_TIME, v)], map[USE_SIM_TIME := DYNAMIC_DESCRIPTOR]), false)
  }

  /** Neither undeclaring nor a new descriptor asks the callbacks: exactly when each of them ends
      the agreement that sets preserve. */
  lemma OtherOperationsBypassTheTimeSource(n: Node, settings: Settings, name: string, d: Descriptor,
                                           alternative: Option<Value>)
    requires Agrees(n) && Valid(n.store, settings.test)
    ensures Agrees(n.(store := Undeclare(n.store, name).0)) <==> name != USE_SIM_TIME || n.store.descs[USE_SIM_TIME].readOnly
    ensures Agrees(n.(store := SetDescriptor(n.store, settings, name, d, alternative).0)) <==>
      || name != USE_SIM_TIME || n.store.descs[USE_SIM_TIME].readOnly
      || Fits(Bool(n.active), d, settings.test)
      || alternative.None? || !Fits(alternative.value, d, settings.test) || alternative.value == Bool(n.active)
  {
    if name == USE_SIM_TIME && !n.store.descs[name].readOnly {
      NewDescriptorPrefersTheCurrentValue(n.store, settings, name, d, alternative);
    }
  }
}
