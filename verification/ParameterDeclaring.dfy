/** What declaring, undeclaring and changing a descriptor do to the store, beyond keeping it
    valid (rclpy/node.py:369-590 and 1372-1424). */
module ParameterDeclaring {
  import opened Options
  import opened Parameters
  import opened ParameterStores
  import opened ParameterInvariants
  import opened AtomicSetting
  import opened SettingWithCallbacks

  // ----- what a declaration turns into -----

  predicate Overridden(name: string, overrides: map<string, Value>, ignoreOverride: bool) {
    !ignoreOverride && name in overrides
  }

  /** A declaration with which the whole call fails: a type and a dynamic descriptor, or no type or
      value for a static one, or a message that no override replaces by a value. */
  ghost predicate Malformed(decl: Declaration, overridden: bool) {
    match decl.given
    case OfType(t) => t.NotSetType? || decl.descriptor.dynamicTyping
    case OfValue(v) => v.NotSet? && !decl.descriptor.dynamicTyping
    case OfMessage(t) => !overridden || (t.NotSetType? && !decl.descriptor.dynamicTyping)
  }

  /** What the caller of declare_parameters and the overrides of the node say. */
  datatype Request = Request(namespace: string, overrides: map<string, Value>, ignoreOverride: bool) {
    function NameOf(decl: Declaration): string {
      (if namespace == "" then "" else namespace + ".") + decl.name
    }

    ghost predicate Fails(decl: Declaration) {
      NameOf(decl) == "" || Malformed(decl, Overridden(NameOf(decl), overrides, ignoreOverride))
    }

    /** The override comes first, then the value given; a type alone gives no value. */
    function ValueFor(decl: Declaration): Value {
      if Overridden(NameOf(decl), overrides, ignoreOverride) then overrides[NameOf(decl)]
      else if decl.given.OfValue? then decl.given.value
      else NotSet
    }

    /** The descriptor given; unless it is dynamic, with the type of what is declared, not of the
        override. */
    function DescriptorOf(decl: Declaration): Descriptor {
      if decl.descriptor.dynamicTyping then decl.descriptor
      else decl.descriptor.(typ := if decl.given.OfValue? then TypeOf(decl.given.value) else decl.given.typ)
    }

    function Preparation(decls: seq<Declaration>): Prepared {
      PrepareAll(Prepared([], map[], None), namespace, decls, overrides, ignoreOverride)
    }
  }

  /** The parameter at `i` is that of the declaration at `i`, which does not fail, and so is its
      descriptor unless the name is repeated. */
  ghost predicate MadeAt(q: Request, ps: seq<Parameter>, ds: map<string, Descriptor>, decls: seq<Declaration>, i: nat)
    requires |ps| == |decls| && i < |decls|
  {
    && !q.Fails(decls[i])
    && ps[i] == Parameter(q.NameOf(decls[i]), q.ValueFor(decls[i]))
    && ps[i].name in ds
    && (LastOfItsName(ps, i, |ps|) ==> ds[ps[i].name] == q.DescriptorOf(decls[i]))
  }

  ghost predicate MadeFrom(q: Request, ps: seq<Parameter>, ds: map<string, Descriptor>, decls: seq<Declaration>) {
    |ps| == |decls| && forall i :: 0 <= i < |decls| ==> MadeAt(q, ps, ds, decls, i)
  }

  lemma MadeFromOneMore(q: Request, ps: seq<Parameter>, ds: map<string, Descriptor>, decls: seq<Declaration>, decl: Declaration)
    requires MadeFrom(q, ps, ds, decls) && !q.Fails(decl)
    ensures var p := Parameter(q.NameOf(decl), q.ValueFor(decl));
      MadeFrom(q, ps + [p], ds[p.name := q.DescriptorOf(decl)], decls + [decl])
  {
    var p, n := Parameter(q.NameOf(decl), q.ValueFor(decl)), |decls|;
    var ps', ds', decls' := ps + [p], ds[p.name := q.DescriptorOf(decl)], decls + [decl];
    forall i | 0 <= i < n + 1 ensures MadeAt(q, ps', ds', decls', i) {
      if i < n {
        assert MadeAt(q, ps, ds, decls, i);
        if LastOfItsName(ps', i, n + 1) {
          assert ps'[n].name != ps'[i].name;
          assert forall j :: i < j < n ==> ps'[j] == ps[j];
          assert LastOfItsName(ps, i, n);
        }
      }
    }
  }

  /** As many declarations are turned into parameters as come before the first that fails; the
      error is that of the one that fails. */
  ghost predicate PreparedAsAsked(q: Request, all: Prepared, decls: seq<Declaration>) {
    && |all.ps| <= |decls|
    && MadeFrom(q, all.ps, all.ds, decls[..|all.ps|])
    && (|all.ps| == |decls| ==> all.error == None)
    && (|all.ps| < |decls| ==> var decl := decls[|all.ps|];
          q.Fails(decl) && all.error == Some(if q.NameOf(decl) == "" then InvalidName else InvalidDeclaration))
  }

  /** One round of the loop. */
  lemma PreparesOne(q: Request, soFar: Prepared, decl: Declaration, rest: seq<Declaration>)
    ensures var p := Parameter(q.NameOf(decl), q.ValueFor(decl));
      PrepareAll(soFar, q.namespace, [decl] + rest, q.overrides, q.ignoreOverride) ==
        if q.Fails(decl) then soFar.(error := Some(if p.name == "" then InvalidName else InvalidDeclaration))
        else PrepareAll(Prepared(soFar.ps + [p], soFar.ds[p.name := q.DescriptorOf(decl)], None),
                        q.namespace, rest, q.overrides, q.ignoreOverride)
  {
    assert FullName(q.namespace, decl.name) == q.NameOf(decl);
    assert ([decl] + rest)[1..] == rest;
  }

  /** The loop ends: nothing is left, or the next declaration fails. */
  lemma PreparesNoMore(q: Request, soFar: Prepared, before: seq<Declaration>, decls: seq<Declaration>)
    requires MadeFrom(q, soFar.ps, soFar.ds, before) && soFar.error == None
    requires decls == [] || q.Fails(decls[0])
    ensures PreparedAsAsked(q, PrepareAll(soFar, q.namespace, decls, q.overrides, q.ignoreOverride), before + decls)
  {
    assert (before + decls)[..|before|] == before;
    if decls != [] {
      PreparesOne(q, soFar, decls[0], decls[1..]);
      assert decls == [decls[0]] + decls[1..] && (before + decls)[|before|] == decls[0];
    } else {
      assert before + decls == before;
    }
  }

  lemma {:induction false} PreparesTheRest(q: Request, soFar: Prepared, before: seq<Declaration>, decls: seq<Declaration>)
    requires MadeFrom(q, soFar.ps, soFar.ds, before) && soFar.error == None
    ensures PreparedAsAsked(q, PrepareAll(soFar, q.namespace, decls, q.overrides, q.ignoreOverride), before + decls)
    decreases |decls|
  {
    if decls == [] || q.Fails(decls[0]) {
      PreparesNoMore(q, soFar, before, decls);
    } else {
      var decl, rest := decls[0], decls[1..];
      var p := Parameter(q.NameOf(decl), q.ValueFor(decl));
      assert decls == [decl] + rest && (before + [decl]) + rest == before + decls;
      PreparesOne(q, soFar, decl, rest);
      MadeFromOneMore(q, soFar.ps, soFar.ds, before, decl);
      PreparesTheRest(q, Prepared(soFar.ps + [p], soFar.ds[p.name := q.DescriptorOf(decl)], None), before + [decl], rest);
    }
  }

  /** Main result on what is declared: each declaration up to the first that fails becomes the
      parameter named by namespace and name, with the override, the value given or none, and with
      the descriptor given; the call fails with the error of the first that fails, if there is
      one. */
  lemma DeclarationsBecomeParameters(q: Request, decls: seq<Declaration>)
    ensures PreparedAsAsked(q, q.Preparation(decls), decls)
  {
    PreparesTheRest(q, Prepared([], map[], None), [], decls);
    assert [] + decls == decls;
  }

  // ----- declaring the list -----

  /** `d'` is `d` as a check may have left it. */
  ghost predicate SameButTag(d: Descriptor, d': Descriptor) {
    d' == d.(name := d'.name, typ := if d.dynamicTyping then d'.typ else d.typ)
  }

  /** `p` is stored, with the descriptor it was declared with. */
  ghost predicate StoredWith(s: Store, p: Parameter, ds: map<string, Descriptor>) {
    && p.name in s.params && s.params[p.name] == p
    && p.name in s.descs && p.name in ds && SameButTag(ds[p.name], s.descs[p.name])
  }

  function Names(ps: seq<Parameter>): set<string> { set i | 0 <= i < |ps| :: ps[i].name }

  /** Names outside `touched` are in `s'` as they are in `s`. */
  ghost predicate SameOutside(s: Store, s': Store, touched: set<string>) {
    forall n :: n in s.params && n in s.descs && n !in touched ==>
      n in s'.params && n in s'.descs && s'.params[n] == s.params[n] && s'.descs[n] == s.descs[n]
  }

  /** `s'` has what `s` has, and of the list exactly its first `k` parameters, for a repeated name
      the last of them. */
  ghost predicate DeclaredUpTo(s: Store, s': Store, ps: seq<Parameter>, ds: map<string, Descriptor>, k: nat) {
    && k <= |ps|
    && s'.params.Keys == s.params.Keys + Names(ps[..k])
    && SameOutside(s, s', Names(ps[..k]))
    && StoredUpTo(s', ps, ds, k)
  }

  /** The outcome of declaring `ps`: it came to the end, or `ps[k]` was refused. */
  ghost predicate StoppedAt(s: Store, outcome: (Store, Option<Error>), ps: seq<Parameter>, ds: map<string, Descriptor>, k: nat) {
    DeclaredUpTo(s, outcome.0, ps, ds, k) && (outcome.1.None? <==> k == |ps|)
  }

  predicate LastOfItsName(ps: seq<Parameter>, i: nat, k: nat)
    requires i < k <= |ps|
  {
    forall j :: i < j < k ==> ps[j].name != ps[i].name
  }

  ghost predicate StoredUpTo(s: Store, ps: seq<Parameter>, ds: map<string, Descriptor>, k: nat)
    requires k <= |ps|
  {
    forall i :: 0 <= i < k && LastOfItsName(ps, i, k) ==> StoredWith(s, ps[i], ds)
  }

  lemma DeclareOne(s: Store, p: Parameter, ds: map<string, Descriptor>, veto: Verdict, test: DoubleTest)
    requires Valid(s, test) && p.name in ds
    ensures var r := SetCommon(s, [p], Some(ds), true, veto, test);
      && Valid(r.store, test)
      && (if r.verdict.Accepted?
          then r.store.params.Keys == s.params.Keys + {p.name} && StoredWith(r.store, p, ds)
               && SameOutside(s, r.store, {p.name})
          else r.store == s)
  {
    DeclareOneKeeps(s, p, ds, veto, test);
    ApplyAllChecks([p], ds, s.params.Keys, false, test);
    var ds' := ApplyAll([p], ds, s.params.Keys, false, test).1;
    assert CommitAll(s, [p], Some(ds'), true) == CommitOne(s, p, Some(ds'), true);
  }

  /** One round of the declaration. */
  lemma DeclareFirst(s: Store, ps: seq<Parameter>, ds: map<string, Descriptor>, callbacks: seq<OnCallback>, test: DoubleTest)
    returns (accepted: bool, s1: Store, ds': map<string, Descriptor>)
    requires ps != [] && Valid(s, test) && ps[0].name in ds
    ensures accepted ==>
      && Valid(s1, test) && SameButTags(ds, ds')
      && s1.params.Keys == s.params.Keys + {ps[0].name} && StoredWith(s1, ps[0], ds) && SameOutside(s, s1, {ps[0].name})
      && DeclareEach(s, ps, ds, callbacks, test) == DeclareEach(s1, ps[1..], ds', callbacks, test)
    ensures accepted <==> Declarable(s, ps, ds, callbacks, test, 0)
    ensures !accepted ==>
      var (s', error) := DeclareEach(s, ps, ds, callbacks, test);
      s' == s && error == Some(if TypeIsWrong(s, ps, ds, callbacks, test, 0) then InvalidType else InvalidValue)
  {
    var p := ps[0];
    DeclareOneExactly(s, ps, ds, callbacks, test);
    var r := SetCommon(s, [p], Some(ds), true, Ask(callbacks, [p]), test);
    DeclareOne(s, p, ds, Ask(callbacks, [p]), test);
    ApplyAllChecks([p], ds, s.params.Keys, false, test);
    accepted, s1, ds' := r.verdict.Accepted?, r.store, ApplyAll([p], ds, s.params.Keys, false, test).1;
  }

  lemma DeclaredNothing(s: Store, ps: seq<Parameter>, ds: map<string, Descriptor>)
    ensures DeclaredUpTo(s, s, ps, ds, 0)
  {
    assert Names(ps[..0]) == {};
  }

  /** The list is declared from the front up to the first parameter that is refused: those before
      it stay declared, with the value and the descriptor they were given (for a repeated name,
      the last of them); all other names are as before; and there is an error if and only if one
      was refused. */
  lemma {:induction false} DeclaringStopsAtTheFirstRefusal(s: Store, ps: seq<Parameter>, ds: map<string, Descriptor>,
                                                           callbacks: seq<OnCallback>, test: DoubleTest)
    requires Valid(s, test) && Names(ps) <= ds.Keys
    ensures exists k: nat :: StoppedAt(s, DeclareEach(s, ps, ds, callbacks, test), ps, ds, k)
    decreases |ps|
  {
    if ps == [] {
      DeclaredNothing(s, ps, ds);
      assert StoppedAt(s, (s, None), ps, ds, 0);
    } else {
      assert ps == [ps[0]] + ps[1..];
      NamesCons(ps[0], ps[1..]);
      var accepted, s1, ds' := DeclareFirst(s, ps, ds, callbacks, test);
      if accepted {
        DeclaringStopsAtTheFirstRefusal(s1, ps[1..], ds', callbacks, test);
        var outcome := DeclareEach(s1, ps[1..], ds', callbacks, test);
        var n: nat :| StoppedAt(s1, outcome, ps[1..], ds', n);
        DeclaredCons(s, s1, outcome, ps, ds, ds', n);
      } else {
        DeclaredNothing(s, ps, ds);
        assert StoppedAt(s, DeclareEach(s, ps, ds, callbacks, test), ps, ds, 0);
      }
    }
  }

  /** Nothing in the descriptor of `ps[i]` speaks against it when those before it are declared: its
      value obeys it, and is there if a static parameter of that name is. */
  ghost predicate Sound(s: Store, ps: seq<Parameter>, ds: map<string, Descriptor>, test: DoubleTest, i: nat)
    requires i < |ps| && ps[i].name in ds
  {
    var p := ps[i];
    && Complies(p.value, ds[p.name], test)
    && (p.value.NotSet? && !ds[p.name].dynamicTyping ==> p.name !in s.params && forall j :: 0 <= j < i ==> ps[j].name != p.name)
  }

  ghost predicate Declarable(s: Store, ps: seq<Parameter>, ds: map<string, Descriptor>, callbacks: seq<OnCallback>,
                             test: DoubleTest, i: nat)
    requires i < |ps| && ps[i].name in ds
  {
    Sound(s, ps, ds, test, i) && Unanimous(callbacks, [ps[i]])
  }

  /** What is wrong is the type: that of the value, or the first callback to refuse says so. */
  ghost predicate TypeIsWrong(s: Store, ps: seq<Parameter>, ds: map<string, Descriptor>, callbacks: seq<OnCallback>,
                              test: DoubleTest, i: nat)
    requires i < |ps| && ps[i].name in ds
  {
    var p, d := ps[i], ds[ps[i].name];
    || (!d.dynamicTyping && !p.value.NotSet? && TypeOf(p.value) != d.typ)
    || (Sound(s, ps, ds, test, i)
        && exists k: nat :: FirstToRefuse(callbacks, [p], k) && SaysWrongType(callbacks[k]([p]).reason))
  }

  /** `ps[i]` is the first that is not declarable, and `error` says why. */
  ghost predicate FailsAt(s: Store, ps: seq<Parameter>, ds: map<string, Descriptor>, callbacks: seq<OnCallback>,
                          test: DoubleTest, i: nat, error: Error)
    requires Names(ps) <= ds.Keys
  {
    && i < |ps|
    && (forall j :: 0 <= j < |ps| ==> ps[j].name in Names(ps))
    && (forall j :: 0 <= j < i ==> Declarable(s, ps, ds, callbacks, test, j))
    && !Declarable(s, ps, ds, callbacks, test, i)
    && error == if TypeIsWrong(s, ps, ds, callbacks, test, i) then InvalidType else InvalidValue
  }

  /** All of the list is declarable. */
  ghost predicate AllDeclarable(s: Store, ps: seq<Parameter>, ds: map<string, Descriptor>, callbacks: seq<OnCallback>,
                                test: DoubleTest)
    requires Names(ps) <= ds.Keys
  {
    && (forall j :: 0 <= j < |ps| ==> ps[j].name in Names(ps))
    && (forall j :: 0 <= j < |ps| ==> Declarable(s, ps, ds, callbacks, test, j))
  }

  lemma DeclareOneExactly(s: Store, ps: seq<Parameter>, ds: map<string, Descriptor>, callbacks: seq<OnCallback>,
                          test: DoubleTest)
    requires ps != [] && ps[0].name in ds
    ensures var v := SetCommon(s, [ps[0]], Some(ds), true, Ask(callbacks, [ps[0]]), test).verdict;
      && (v.Accepted? <==> Declarable(s, ps, ds, callbacks, test, 0))
      && (v.Refused? ==> (SaysWrongType(v.reason) <==> TypeIsWrong(s, ps, ds, callbacks, test, 0)))
  {
    var p, d := ps[0], ds[ps[0].name];
    var declared := p.name in s.params;
    EveryCallbackHasAVeto(callbacks, [p]);
    CheckAcceptsExactly(p, d, declared, false, test);
    assert [p][1..] == [];
    var v := Check(p.value, d, declared, false, test);
    assert ApplyAll([p], ds, s.params.Keys, false, test).0 == v;
    assert Sound(s, ps, ds, test, 0) <==> v.Accepted?;
    if v.Accepted? && Ask(callbacks, [p]).Refused? {
      var k: nat :| FirstToRefuse(callbacks, [p], k) && Ask(callbacks, [p]) == callbacks[k]([p]);
      assert forall k': nat :: FirstToRefuse(callbacks, [p], k') ==> k' == k;
    }
  }

  /** Main result on when a list can be declared: there is no error if and only if each parameter is
      declarable after those before it; otherwise the error is that of the first that is not. */
  lemma {:induction false} DeclaringSucceedsExactly(s: Store, ps: seq<Parameter>, ds: map<string, Descriptor>,
                                                    callbacks: seq<OnCallback>, test: DoubleTest)
    requires Valid(s, test) && Names(ps) <= ds.Keys
    ensures match DeclareEach(s, ps, ds, callbacks, test).1
      case None => AllDeclarable(s, ps, ds, callbacks, test)
      case Some(error) => exists i: nat :: FailsAt(s, ps, ds, callbacks, test, i, error)
    decreases |ps|
  {
    if ps != [] {
      NamesHold(ps);
      assert ps == [ps[0]] + ps[1..];
      NamesCons(ps[0], ps[1..]);
      var accepted, s1, ds' := DeclareFirst(s, ps, ds, callbacks, test);
      if accepted {
        DeclaringSucceedsExactly(s1, ps[1..], ds', callbacks, test);
        DeclaringGoesOn(s, s1, ps, ds, ds', callbacks, test, DeclareEach(s1, ps[1..], ds', callbacks, test).1);
      } else {
        assert FailsAt(s, ps, ds, callbacks, test, 0, DeclareEach(s, ps, ds, callbacks, test).1.value);
      }
    }
  }

  lemma NamesHold(ps: seq<Parameter>)
    ensures forall j :: 0 <= j < |ps| ==> ps[j].name in Names(ps)
  {
  }

  lemma DeclaringGoesOn(s: Store, s1: Store, ps: seq<Parameter>, ds: map<string, Descriptor>, ds': map<string, Descriptor>,
                        callbacks: seq<OnCallback>, test: DoubleTest, error: Option<Error>)
    requires ps != [] && Names(ps) <= ds.Keys && Names(ps[1..]) <= ds.Keys && SameButTags(ds, ds')
    requires s1.params.Keys == s.params.Keys + {ps[0].name} && ps[0].name in ds && Declarable(s, ps, ds, callbacks, test, 0)
    requires match error
      case None => AllDeclarable(s1, ps[1..], ds', callbacks, test)
      case Some(e) => exists i: nat :: FailsAt(s1, ps[1..], ds', callbacks, test, i, e)
    ensures match error
      case None => AllDeclarable(s, ps, ds, callbacks, test)
      case Some(e) => exists i: nat :: FailsAt(s, ps, ds, callbacks, test, i, e)
  {
    var rest := ps[1..];
    NamesHold(ps);
    NamesHold(rest);
    forall i: nat | i < |rest|
      ensures ps[i + 1] == rest[i]
      ensures Declarable(s1, rest, ds', callbacks, test, i) <==> Declarable(s, ps, ds, callbacks, test, i + 1)
      ensures TypeIsWrong(s1, rest, ds', callbacks, test, i) <==> TypeIsWrong(s, ps, ds, callbacks, test, i + 1)
    {
      SoundLater(s, s1, ps, ds, ds', test, i);
    }
    match error
    case None =>
      forall j | 0 <= j < |ps| ensures Declarable(s, ps, ds, callbacks, test, j) {
        if j > 0 {
          assert Declarable(s1, rest, ds', callbacks, test, j - 1);
        }
      }
    case Some(e) =>
      var i: nat :| FailsAt(s1, rest, ds', callbacks, test, i, e);
      forall j | 0 <= j < i + 1 ensures Declarable(s, ps, ds, callbacks, test, j) {
        if j > 0 {
          assert Declarable(s1, rest, ds', callbacks, test, j - 1);
        }
      }
      assert FailsAt(s, ps, ds, callbacks, test, i + 1, e);
  }

  lemma SoundLater(s: Store, s1: Store, ps: seq<Parameter>, ds: map<string, Descriptor>, ds': map<string, Descriptor>,
                   test: DoubleTest, i: nat)
    requires i + 1 < |ps| && ps[i + 1].name in ds && SameButTags(ds, ds')
    requires s1.params.Keys == s.params.Keys + {ps[0].name}
    ensures Sound(s1, ps[1..], ds', test, i) <==> Sound(s, ps, ds, test, i + 1)
  {
    var rest, p := ps[1..], ps[i + 1];
    assert rest[i] == p;
    SameTagsSameChecks(ds, ds', test);
    assert p.name in s1.params <==> p.name in s.params || p.name == ps[0].name;
    assert forall j :: 0 < j < i + 1 ==> ps[j] == rest[j - 1];
  }

  lemma NamesCons(p: Parameter, ps: seq<Parameter>)
    ensures Names([p] + ps) == {p.name} + Names(ps)
  {
    var all := [p] + ps;
    forall i | 0 <= i < |all| ensures all[i].name in {p.name} + Names(ps) {
      if i > 0 {
        assert all[i] == ps[i - 1];
      }
    }
    assert all[0] == p && forall i :: 0 <= i < |ps| ==> ps[i] == all[i + 1];
  }

  lemma NamesOfFirst(ps: seq<Parameter>, n: nat)
    requires n < |ps|
    ensures Names(ps[..n + 1]) == {ps[0].name} + Names(ps[1..][..n])
  {
    NamesCons(ps[0], ps[1..][..n]);
    assert ps[..n + 1] == [ps[0]] + ps[1..][..n];
  }

  lemma DeclaredCons(s: Store, s1: Store, outcome: (Store, Option<Error>), ps: seq<Parameter>, ds: map<string, Descriptor>,
                     ds': map<string, Descriptor>, n: nat)
    requires ps != [] && SameButTags(ds, ds') && s1.params.Keys <= s1.descs.Keys
    requires s1.params.Keys == s.params.Keys + {ps[0].name} && StoredWith(s1, ps[0], ds)
    requires SameOutside(s, s1, {ps[0].name})
    requires StoppedAt(s1, outcome, ps[1..], ds', n)
    ensures StoppedAt(s, outcome, ps, ds, n + 1)
  {
    var s', names := outcome.0, Names(ps[1..][..n]);
    NamesOfFirst(ps, n);
    assert StoredUpTo(s', ps, ds, n + 1) by { StoredCons(s1, s', ps, ds, ds', n); }
    assert SameOutside(s, s', {ps[0].name} + names) by { OutsideTwice(s, s1, s', {ps[0].name}, names); }
  }

  lemma OutsideTwice(s: Store, s1: Store, s': Store, first: set<string>, second: set<string>)
    requires SameOutside(s, s1, first) && SameOutside(s1, s', second)
    ensures SameOutside(s, s', first + second)
  {
  }

  lemma StoredCons(s1: Store, s': Store, ps: seq<Parameter>, ds: map<string, Descriptor>, ds': map<string, Descriptor>, n: nat)
    requires n < |ps| && SameButTags(ds, ds') && StoredWith(s1, ps[0], ds)
    requires SameOutside(s1, s', Names(ps[1..][..n])) && StoredUpTo(s', ps[1..], ds', n)
    ensures StoredUpTo(s', ps, ds, n + 1)
  {
    var rest := ps[1..];
    forall i | 0 <= i < n + 1 && LastOfItsName(ps, i, n + 1) ensures StoredWith(s', ps[i], ds) {
      if i > 0 {
        assert forall j :: i - 1 < j < n ==> rest[j] == ps[j + 1];
        assert rest[i - 1] == ps[i] && LastOfItsName(rest, i - 1, n);
        assert StoredWith(s', rest[i - 1], ds');
      } else {
        forall j | 0 <= j < n ensures rest[..n][j].name != ps[0].name {
          assert rest[..n][j] == ps[j + 1];
        }
      }
    }
  }

  // ----- from the declarations to the store -----

  /** The last declaration of its name is in the store, with its value and descriptor. */
  ghost predicate HoldsDeclared(q: Request, decls: seq<Declaration>, s: Store, i: nat)
    requires i < |decls|
  {
    var decl, n := decls[i], q.NameOf(decls[i]);
    (forall j :: i < j < |decls| ==> q.NameOf(decls[j]) != n) ==>
      && n in s.params && s.params[n] == Parameter(n, q.ValueFor(decl))
      && n in s.descs && SameButTag(q.DescriptorOf(decl), s.descs[n])
  }

  ghost predicate FirstToFail(q: Request, decls: seq<Declaration>, i: nat) {
    i < |decls| && q.Fails(decls[i]) && forall j :: 0 <= j < i ==> !q.Fails(decls[j])
  }

  /** Main result on declare_parameters. If a declaration fails, its error is raised and nothing is
      declared; else if a name is declared already, that is raised and nothing is declared; else
      an error is one about a type or value; and without error every name holds what its last
      declaration asked for, and the other names what they held. */
  lemma DeclareDoesAsAsked(q: Request, decls: seq<Declaration>, s: Store, callbacks: seq<OnCallback>, test: DoubleTest)
    requires Valid(s, test)
    ensures var (s', error) := Declare(s, q.Preparation(decls), callbacks, test);
      && (forall i: nat :: FirstToFail(q, decls, i) ==>
            s' == s && error == Some(if q.NameOf(decls[i]) == "" then InvalidName else InvalidDeclaration))
      && ((forall i :: 0 <= i < |decls| ==> !q.Fails(decls[i])) ==>
            if exists i :: 0 <= i < |decls| && q.NameOf(decls[i]) in s.params then s' == s && error == Some(AlreadyDeclared)
            else error in {None, Some(InvalidType), Some(InvalidValue)})
      && (error.None? ==>
            && (forall i :: 0 <= i < |decls| ==> !q.Fails(decls[i]) && HoldsDeclared(q, decls, s', i))
            && SameOutside(s, s', set decl <- decls :: q.NameOf(decl)))
  {
    var all := q.Preparation(decls);
    FirstFailureIsReported(q, decls);
    if all.error.None? {
      NamedAlike(q, all, decls, s);
      if !AnyDeclared(s, all.ps) {
        DeclaredAsMade(q, all, decls, s, callbacks, test);
      }
    }
  }

  lemma FirstFailureIsReported(q: Request, decls: seq<Declaration>)
    ensures var all := q.Preparation(decls);
      if all.error.None? then MadeFrom(q, all.ps, all.ds, decls) && forall i :: 0 <= i < |decls| ==> !q.Fails(decls[i])
      else exists i: nat :: FirstToFail(q, decls, i)
    ensures forall i: nat :: FirstToFail(q, decls, i) ==>
      q.Preparation(decls).error == Some(if q.NameOf(decls[i]) == "" then InvalidName else InvalidDeclaration)
  {
    var all := q.Preparation(decls);
    DeclarationsBecomeParameters(q, decls);
    var k := |all.ps|;
    forall j | 0 <= j < k ensures !q.Fails(decls[j]) {
      assert MadeAt(q, all.ps, all.ds, decls[..k], j) && decls[..k][j] == decls[j];
    }
    if k == |decls| {
      assert decls[..k] == decls;
    } else {
      assert FirstToFail(q, decls, k);
    }
  }

  lemma DeclaredAsMade(q: Request, all: Prepared, decls: seq<Declaration>, s: Store, callbacks: seq<OnCallback>,
                       test: DoubleTest)
    requires Valid(s, test) && MadeFrom(q, all.ps, all.ds, decls)
    ensures var (s', error) := DeclareEach(s, all.ps, all.ds, callbacks, test);
      && error in {None, Some(InvalidType), Some(InvalidValue)}
      && (error.None? ==>
            && (forall i :: 0 <= i < |decls| ==> HoldsDeclared(q, decls, s', i))
            && SameOutside(s, s', set decl <- decls :: q.NameOf(decl)))
  {
    var (s', error) := DeclareEach(s, all.ps, all.ds, callbacks, test);
    NamedAlike(q, all, decls, s);
    DeclaringSucceedsExactly(s, all.ps, all.ds, callbacks, test);
    if error.None? {
      DeclaringStopsAtTheFirstRefusal(s, all.ps, all.ds, callbacks, test);
      var n: nat :| StoppedAt(s, (s', error), all.ps, all.ds, n);
      assert all.ps[..n] == all.ps;
      DeclaredIsHeld(q, all, decls, s');
    }
  }

  lemma NamedAlike(q: Request, all: Prepared, decls: seq<Declaration>, s: Store)
    requires MadeFrom(q, all.ps, all.ds, decls)
    ensures AnyDeclared(s, all.ps) <==> exists i :: 0 <= i < |decls| && q.NameOf(decls[i]) in s.params
    ensures Names(all.ps) <= all.ds.Keys && Names(all.ps) == set decl <- decls :: q.NameOf(decl)
  {
    forall i | 0 <= i < |decls| ensures all.ps[i].name == q.NameOf(decls[i]) != "" && all.ps[i].name in all.ds {
      assert MadeAt(q, all.ps, all.ds, decls, i);
    }
    forall decl | decl in decls ensures q.NameOf(decl) in Names(all.ps) {
      var i :| 0 <= i < |decls| && decls[i] == decl;
      assert all.ps[i].name == q.NameOf(decl);
    }
  }

  lemma DeclaredIsHeld(q: Request, all: Prepared, decls: seq<Declaration>, s: Store)
    requires MadeFrom(q, all.ps, all.ds, decls) && StoredUpTo(s, all.ps, all.ds, |all.ps|)
    ensures forall i :: 0 <= i < |decls| ==> HoldsDeclared(q, decls, s, i)
  {
    forall i | 0 <= i < |decls| ensures HoldsDeclared(q, decls, s, i) {
      assert MadeAt(q, all.ps, all.ds, decls, i);
      if forall j :: i < j < |decls| ==> q.NameOf(decls[j]) != q.NameOf(decls[i]) {
        forall j | i < j < |decls| ensures all.ps[j].name != all.ps[i].name {
          assert MadeAt(q, all.ps, all.ds, decls, j);
        }
        assert LastOfItsName(all.ps, i, |all.ps|);
        assert StoredWith(s, all.ps[i], all.ds);
      }
    }
  }

  /** Undeclaring a parameter that has just been declared restores the store, unless it was
      declared read-only, and then it cannot be undeclared. */
  lemma UndeclareUndoesDeclare(s: Store, p: Parameter, ds: map<string, Descriptor>, callbacks: seq<OnCallback>,
                               test: DoubleTest)
    requires Valid(s, test) && p.name in ds && p.name !in s.params
    requires DeclareEach(s, [p], ds, callbacks, test).1.None?
    ensures var s' := DeclareEach(s, [p], ds, callbacks, test).0;
      Undeclare(s', p.name) == if ds[p.name].readOnly then (s', Some(Immutable)) else (s, None)
  {
    var r := SetCommon(s, [p], Some(ds), true, Ask(callbacks, [p]), test);
    DeclareOne(s, p, ds, Ask(callbacks, [p]), test);
    assert r.verdict.Accepted?;
    assert [p][1..] == [];
    assert DeclareEach(s, [p], ds, callbacks, test).0 == r.store;
    assert r.store.params - {p.name} == s.params;
    assert r.store.descs - {p.name} == s.descs;
  }

  /** Undeclaring takes out exactly the parameter named, if there is one that may be written; a new
      descriptor needs one too, with a value unless it is dynamically typed; and an operation that
      fails changes nothing. */
  lemma RefusedOperationsSayWhy(s: Store, settings: Settings, name: string, d: Descriptor, alternative: Option<Value>)
    requires Valid(s, settings.test)
    ensures var (s', error) := Undeclare(s, name);
      && (error == Some(NotDeclared) <==> name !in s.params)
      && (error == Some(Immutable) <==> name in s.params && s.descs[name].readOnly)
      && (if error.None? then s'.params.Keys == s.params.Keys - {name} && SameOutside(s, s', {name}) else s' == s)
    ensures var (s', error) := SetDescriptor(s, settings, name, d, alternative);
      && (name !in s.params ==> (error.None? <==> settings.allowUndeclared))
      && (error == Some(NotDeclared) <==> name !in s.params && !settings.allowUndeclared)
      && (error == Some(Immutable) <==> name in s.params && s.descs[name].readOnly)
      && (error == Some(Uninitialized) <==>
            name in s.params && !s.descs[name].readOnly && s.params[name].value.NotSet? && !s.descs[name].dynamicTyping)
      && (error.Some? || name !in s.params ==> s' == s)
      && s'.params.Keys == s.params.Keys && SameOutside(s, s', {name})
  {
  }

  /** A value that can stay under a new descriptor. */
  ghost predicate Fits(v: Value, d: Descriptor, test: DoubleTest) {
    Complies(v, d, test) && (d.dynamicTyping || !v.NotSet?)
  }

  /** For a declared, initialised and writable parameter: a value that fits the new descriptor is
      kept, whatever the alternative; otherwise the alternative is stored if it fits; otherwise
      nothing changes. In the first two cases the descriptor becomes the new one. */
  lemma NewDescriptorPrefersTheCurrentValue(s: Store, settings: Settings, name: string, d: Descriptor,
                                            alternative: Option<Value>)
    requires Valid(s, settings.test) && name in s.params && !s.descs[name].readOnly
    requires s.params[name].value.NotSet? ==> s.descs[name].dynamicTyping
    ensures var (s', error) := SetDescriptor(s, settings, name, d, alternative);
      var current := s.params[name].value;
      var keep := Fits(current, d, settings.test);
      && (error.None? <==> keep || (alternative.Some? && Fits(alternative.value, d, settings.test)))
      && (error.Some? ==> s' == s)
      && (error.None? ==>
            && s'.params == s.params[name := Parameter(name, if keep then current else alternative.value)]
            && name in s'.descs && SameButTag(d, s'.descs[name]) && s'.descs == s.descs[name := s'.descs[name]])
  {
    var p := s.params[name];
    var other := if alternative.Some? then Parameter(name, alternative.value) else p;
    CheckAcceptsExactly(p, d, true, false, settings.test);
    CheckAcceptsExactly(other, Tagged(d, p, false), true, false, settings.test);
  }
}
