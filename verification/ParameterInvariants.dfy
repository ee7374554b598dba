/** What every reachable parameter store satisfies, and what no operation can do to a read-only
    parameter. */
module ParameterInvariants {
  import opened Options
  import opened Runs
  import opened Parameters
  import opened ParameterStores

  /** Values and descriptors have the same names, and every value obeys its descriptor. */
  ghost predicate Valid(s: Store, test: DoubleTest) {
    && s.params.Keys == s.descs.Keys
    && forall n :: n in s.params ==> s.params[n].name == n && Complies(s.params[n].value, s.descs[n], test)
  }

  /** Read-only parameters of `s` are in `s'`, with the same value and still read-only. */
  ghost predicate ReadOnlyKept(s: Store, s': Store) {
    forall n :: n in s.params && n in s.descs && s.descs[n].readOnly ==>
      n in s'.params && n in s'.descs && s'.params[n] == s.params[n] && s'.descs[n].readOnly
  }

  /** The descriptors a check has written into differ from before only in the name, and for
      dynamically typed parameters in the type. */
  ghost predicate SameButTags(ds: map<string, Descriptor>, ds': map<string, Descriptor>) {
    && ds'.Keys == ds.Keys
    && forall n :: n in ds ==>
        ds'[n] == ds[n].(name := ds'[n].name, typ := if ds[n].dynamicTyping then ds'[n].typ else ds[n].typ)
  }

  /** Everything ApplyAll guarantees: only tags move, and if it accepts, then every parameter
      with a descriptor obeys it and, when read-only is checked, none is read-only. */
  lemma {:induction false} ApplyAllChecks(ps: seq<Parameter>, ds: map<string, Descriptor>, declared: set<string>,
                                          checkReadOnly: bool, test: DoubleTest)
    ensures var (v, ds') := ApplyAll(ps, ds, declared, checkReadOnly, test);
      && SameButTags(ds, ds')
      && (v.Accepted? ==> forall p :: p in ps && p.name in ds ==>
            Complies(p.value, ds[p.name], test) && !(checkReadOnly && ds[p.name].readOnly))
    decreases |ps|
  {
    if ps != [] {
      var p := ps[0];
      if p.name !in ds {
        ApplyAllChecks(ps[1..], ds, declared, checkReadOnly, test);
      } else {
        CheckAcceptsExactly(p, ds[p.name], p.name in declared, checkReadOnly, test);
        var ds1 := ds[p.name := Tagged(ds[p.name], p, checkReadOnly)];
        assert SameButTags(ds, ds1);
        ApplyAllChecks(ps[1..], ds1, declared, checkReadOnly, test);
        SameTagsSameChecks(ds, ds1, test);
      }
      assert forall q :: q in ps ==> q == p || q in ps[1..];
    }
  }

  /** Tags do not matter for what complies. */
  lemma SameTagsSameChecks(ds: map<string, Descriptor>, ds': map<string, Descriptor>, test: DoubleTest)
    requires SameButTags(ds, ds')
    ensures forall n, v :: n in ds ==> (Complies(v, ds'[n], test) <==> Complies(v, ds[n], test))
    ensures forall n :: n in ds ==> ds'[n].readOnly == ds[n].readOnly
  {
  }

  /** Committing parameters that obey their descriptors keeps the store valid and touches no
      read-only parameter outside the list. */
  lemma {:induction false} CommitAllKeeps(s: Store, ps: seq<Parameter>, given: Option<map<string, Descriptor>>,
                                          allowNotSet: bool, test: DoubleTest)
    requires Valid(s, test)
    requires forall p :: p in ps ==> Complies(p.value, DescriptorFor(s, p, given), test)
    ensures Valid(CommitAll(s, ps, given, allowNotSet), test)
    ensures forall n :: n in s.params && (forall p :: p in ps ==> p.name != n) ==>
      var s' := CommitAll(s, ps, given, allowNotSet);
      n in s'.params && s'.params[n] == s.params[n] && n in s'.descs && s'.descs[n] == s.descs[n]
    decreases |ps|
  {
    if ps != [] {
      var p := ps[0];
      var s1 := CommitOne(s, p, given, allowNotSet);
      assert p in ps;
      assert Valid(s1, test);
      forall q | q in ps[1..] ensures Complies(q.value, DescriptorFor(s1, q, given), test) {
        assert q in ps;
        assert Complies(q.value, DescriptorFor(s, q, given), test);
        assert DescriptorFor(s1, q, given) in {DescriptorFor(s, q, given), DYNAMIC_DESCRIPTOR};
      }
      CommitAllKeeps(s1, ps[1..], given, allowNotSet, test);
      assert forall q :: q in ps[1..] ==> q in ps;
    }
  }

  /** An atomic set against the stored descriptors. */
  lemma SetKeeps(s: Store, ps: seq<Parameter>, veto: Verdict, test: DoubleTest)
    requires Valid(s, test)
    ensures var r := SetCommon(s, ps, None, false, veto, test);
      Valid(r.store, test) && ReadOnlyKept(s, r.store)
  {
    ApplyAllChecks(ps, s.descs, s.params.Keys, true, test);
    var (v, ds') := ApplyAll(ps, s.descs, s.params.Keys, true, test);
    SameTagsSameChecks(s.descs, ds', test);
    var s1 := s.(descs := ds');
    assert Valid(s1, test);
    if v.Accepted? && veto.Accepted? {
      forall p | p in ps ensures Complies(p.value, DescriptorFor(s1, p, None), test) {
      }
      CommitAllKeeps(s1, ps, None, false, test);
    }
  }

  /** Everything `s` has is in `s'` as it was. */
  ghost predicate Extends(s: Store, s': Store) {
    forall n :: n in s.params && n in s.descs ==>
      n in s'.params && n in s'.descs && s'.params[n] == s.params[n] && s'.descs[n] == s.descs[n]
  }

  /** An atomic set of one parameter against a new descriptor. */
  lemma DeclareOneKeeps(s: Store, p: Parameter, ds: map<string, Descriptor>, veto: Verdict, test: DoubleTest)
    requires Valid(s, test) && p.name in ds
    ensures var r := SetCommon(s, [p], Some(ds), true, veto, test);
      && Valid(r.store, test)
      && forall s0 :: Extends(s0, s) && p.name !in s0.params ==> Extends(s0, r.store)
  {
    var (v, ds') := ApplyAll([p], ds, s.params.Keys, false, test);
    ApplyAllChecks([p], ds, s.params.Keys, false, test);
    SameTagsSameChecks(ds, ds', test);
    if v.Accepted? && veto.Accepted? {
      assert p in [p];
      CommitAllKeeps(s, [p], Some(ds'), true, test);
      assert CommitAll(s, [p], Some(ds'), true) == CommitOne(s, p, Some(ds'), true);
    }
  }

  /** The names declared must be new to `s0`, the store before the whole declaration; they may be
      repeated within it. */
  lemma {:induction false} DeclareEachKeeps(s0: Store, s: Store, ps: seq<Parameter>, ds: map<string, Descriptor>,
                                            callbacks: seq<OnCallback>, test: DoubleTest)
    requires Valid(s, test) && Extends(s0, s)
    requires forall p :: p in ps ==> p.name in ds && p.name !in s0.params
    ensures var s' := DeclareEach(s, ps, ds, callbacks, test).0; Valid(s', test) && Extends(s0, s')
    decreases |ps|
  {
    if ps != [] {
      var p := ps[0];
      assert p in ps;
      var veto := Ask(callbacks, [p]);
      var r := SetCommon(s, [p], Some(ds), true, veto, test);
      DeclareOneKeeps(s, p, ds, veto, test);
      if r.verdict.Accepted? {
        ApplyAllChecks([p], ds, s.params.Keys, false, test);
        var ds' := ApplyAll([p], ds, s.params.Keys, false, test).1;
        assert forall q :: q in ps[1..] ==> q in ps;
        DeclareEachKeeps(s0, r.store, ps[1..], ds', callbacks, test);
      }
    }
  }

  lemma {:induction false} PreparedHasDescriptors(soFar: Prepared, namespace: string, decls: seq<Declaration>,
                                                  overrides: map<string, Value>, ignoreOverride: bool)
    requires forall p :: p in soFar.ps ==> p.name in soFar.ds && p.name != ""
    ensures var all := PrepareAll(soFar, namespace, decls, overrides, ignoreOverride);
      forall p :: p in all.ps ==> p.name in all.ds && p.name != ""
    decreases |decls|
  {
    if decls != [] {
      var name := FullName(namespace, decls[0].name);
      if name != "" {
        match Prepare(decls[0], name, overrides, ignoreOverride)
        case None =>
        case Some((p, d)) =>
          var next := Prepared(soFar.ps + [p], soFar.ds[name := d], None);
          PreparedHasDescriptors(next, namespace, decls[1..], overrides, ignoreOverride);
      }
    }
  }

  lemma SetDescriptorKeeps(s: Store, settings: Settings, name: string, d: Descriptor, alternative: Option<Value>)
    requires Valid(s, settings.test)
    ensures var s' := SetDescriptor(s, settings, name, d, alternative).0;
      Valid(s', settings.test) && ReadOnlyKept(s, s')
  {
    if name in s.params {
      var current := s.params[name];
      var other := if alternative.Some? then Parameter(name, alternative.value) else current;
      var d1 := Tagged(d, current, false);
      CheckAcceptsExactly(current, d, true, false, settings.test);
      CheckAcceptsExactly(other, d1, true, false, settings.test);
    }
  }

  // ----- runs -----

  /** An operation of a user of the node; `veto` and `callbacks` are what the on-set callbacks
      answer, which may differ from call to call. A list that a pre-set callback has rewritten
      is just another list. */
  datatype Operation =
    | DoSet(ps: seq<Parameter>, veto: Verdict)
    | DoUndeclare(name: string)
    | DoSetDescriptor(target: string, descriptor: Descriptor, alternative: Option<Value>)
    | DoDeclare(namespace: string, decls: seq<Declaration>, ignoreOverride: bool, callbacks: seq<OnCallback>)

  function Perform(s: Store, settings: Settings, overrides: map<string, Value>, op: Operation): Store {
    match op
    case DoSet(ps, veto) => SetAtomically(s, settings, ps, veto).0
    case DoUndeclare(name) => Undeclare(s, name).0
    case DoSetDescriptor(name, d, alternative) => SetDescriptor(s, settings, name, d, alternative).0
    case DoDeclare(namespace, decls, ignoreOverride, callbacks) =>
      var all := PrepareAll(Prepared([], map[], None), namespace, decls, overrides, ignoreOverride);
      Declare(s, all, callbacks, settings.test).0
  }

  function Machine(settings: Settings, overrides: map<string, Value>): (Store, Operation) -> Option<Store> {
    (s: Store, op: Operation) => Some(Perform(s, settings, overrides, op))
  }

  lemma PerformKeeps(s: Store, settings: Settings, overrides: map<string, Value>, op: Operation)
    requires Valid(s, settings.test)
    ensures Valid(Perform(s, settings, overrides, op), settings.test)
    ensures ReadOnlyKept(s, Perform(s, settings, overrides, op))
  {
    match op
    case DoSet(ps, veto) => SetKeeps(s, ps, veto, settings.test);
    case DoUndeclare(name) =>
    case DoSetDescriptor(name, d, alternative) => SetDescriptorKeeps(s, settings, name, d, alternative);
    case DoDeclare(namespace, decls, ignoreOverride, callbacks) =>
      var all := PrepareAll(Prepared([], map[], None), namespace, decls, overrides, ignoreOverride);
      PreparedHasDescriptors(Prepared([], map[], None), namespace, decls, overrides, ignoreOverride);
      if all.error.None? && !AnyDeclared(s, all.ps) {
        forall p | p in all.ps ensures p.name !in s.params {
          var i :| 0 <= i < |all.ps| && all.ps[i] == p;
        }
        DeclareEachKeeps(s, s, all.ps, all.ds, callbacks, settings.test);
      }
  }

  const EMPTY_STORE := Store(map[], map[])

  lemma {:induction false} AlwaysPossible(s: Store, settings: Settings, overrides: map<string, Value>, ops: seq<Operation>)
    ensures Exec(Machine(settings, overrides), s, ops).Some?
    decreases |ops|
  {
    if ops != [] {
      AlwaysPossible(Perform(s, settings, overrides, ops[0]), settings, overrides, ops[1..]);
    }
  }

  /** Main result: every store reachable by any mixture of operations, whatever the callbacks
      answer, has descriptors for exactly its parameters, and every value is unset or of its
      static type and on its range. */
  lemma EveryReachableStoreIsValid(settings: Settings, overrides: map<string, Value>, ops: seq<Operation>)
    ensures var end := Exec(Machine(settings, overrides), EMPTY_STORE, ops);
      end.Some? && Valid(end.value, settings.test)
  {
    var inv := (s: Store) => Valid(s, settings.test);
    forall s, op | inv(s) && Machine(settings, overrides)(s, op).Some?
      ensures inv(Machine(settings, overrides)(s, op).value)
    {
      PerformKeeps(s, settings, overrides, op);
    }
    InvariantOfRuns(Machine(settings, overrides), inv, EMPTY_STORE, ops);
    AlwaysPossible(EMPTY_STORE, settings, overrides, ops);
  }

  /** Main result: from any reachable store on, a read-only parameter keeps its value and stays
      declared and read-only for ever. */
  lemma {:induction false} ReadOnlyForEver(s: Store, settings: Settings, overrides: map<string, Value>, ops: seq<Operation>)
    requires Valid(s, settings.test)
    ensures var end := Exec(Machine(settings, overrides), s, ops);
      end.Some? && ReadOnlyKept(s, end.value)
    decreases |ops|
  {
    if ops != [] {
      PerformKeeps(s, settings, overrides, ops[0]);
      ReadOnlyForEver(Perform(s, settings, overrides, ops[0]), settings, overrides, ops[1..]);
    }
  }
}
