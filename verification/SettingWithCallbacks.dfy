/** What the callbacks of a node have to say when parameters are set (rclpy/node.py:840-939). */
module SettingWithCallbacks {
  import opened Options
  import opened Parameters
  import opened ParameterStores
  import opened ParameterInvariants
  import opened AtomicSetting

  ghost predicate Unanimous(callbacks: seq<OnCallback>, ps: seq<Parameter>) {
    forall i :: 0 <= i < |callbacks| ==> callbacks[i](ps).Accepted?
  }

  /** The callback at `i` objects, and none before it. */
  ghost predicate FirstToRefuse(callbacks: seq<OnCallback>, ps: seq<Parameter>, i: nat) {
    i < |callbacks| && callbacks[i](ps).Refused? && forall j :: 0 <= j < i ==> callbacks[j](ps).Accepted?
  }

  /** Every callback has a veto, and the first that objects gives the reason. */
  lemma {:induction false} EveryCallbackHasAVeto(callbacks: seq<OnCallback>, ps: seq<Parameter>)
    ensures Ask(callbacks, ps).Accepted? <==> Unanimous(callbacks, ps)
    ensures Ask(callbacks, ps).Refused? ==>
      exists i: nat :: FirstToRefuse(callbacks, ps, i) && Ask(callbacks, ps) == callbacks[i](ps)
    decreases |callbacks|
  {
    if callbacks != [] {
      var rest := callbacks[1..];
      EveryCallbackHasAVeto(rest, ps);
      if callbacks[0](ps).Refused? {
        assert FirstToRefuse(callbacks, ps, 0);
      } else if Ask(rest, ps).Refused? {
        var i: nat :| FirstToRefuse(rest, ps, i) && Ask(rest, ps) == rest[i](ps);
        assert callbacks[i + 1] == rest[i];
        assert forall j :: 0 < j < |callbacks| ==> callbacks[j] == rest[j - 1];
        assert FirstToRefuse(callbacks, ps, i + 1);
      } else {
        assert forall j :: 0 < j < |callbacks| ==> callbacks[j] == rest[j - 1];
      }
    }
  }

  /** The list that is set: the callers', or what the pre-set callbacks make of it. */
  function ListToSet(pre: seq<PreCallback>, parameters: seq<Parameter>): seq<Parameter> {
    if pre == [] then parameters else Rewritten(pre, parameters)
  }

  ghost predicate FromSomeCallback(pre: seq<PreCallback>, parameters: seq<Parameter>, p: Parameter) {
    exists i :: 0 <= i < |pre| && p in pre[i](parameters)
  }

  /** Every pre-set callback is given the list of the caller, and its own is added to the others. */
  lemma {:induction false} EveryPreSetCallbackContributes(pre: seq<PreCallback>, parameters: seq<Parameter>, p: Parameter)
    ensures p in Rewritten(pre, parameters) <==> FromSomeCallback(pre, parameters, p)
    decreases |pre|
  {
    if pre != [] {
      EveryPreSetCallbackContributes(pre[1..], parameters, p);
      if i :| 0 <= i < |pre| && p in pre[i](parameters) {
        assert i > 0 ==> pre[i] == pre[1..][i - 1];
      }
      if i :| 0 <= i < |pre[1..]| && p in pre[1..][i](parameters) {
        assert pre[1..][i] == pre[i + 1];
      }
    }
  }

  /** The name is known to the node, or need not be; the empty name goes unnoticed. */
  ghost predicate NeedsNoDeclaration(s: Store, settings: Settings, p: Parameter) {
    settings.allowUndeclared || p.name == "" || p.name in s.params
  }

  /** Nothing in the descriptor of the parameter, if it has one, speaks against `p`. */
  ghost predicate Permitted(s: Store, p: Parameter, test: DoubleTest) {
    p.name in s.descs ==>
      var d := s.descs[p.name];
      && !d.readOnly
      && (p.value.NotSet? && p.name in s.params ==> d.dynamicTyping)
      && Complies(p.value, d, test)
  }

  /** The values `s'` are those of `s` with the entries of the list, the last one for each name. */
  ghost predicate TakesOver(s: Store, s': Store, ps: seq<Parameter>) {
    forall n ::
      match LastFor(ps, n)
      case None => s'.ValueOf(n) == s.ValueOf(n) && (n in s'.params <==> n in s.params)
      case Some(v) => s'.ValueOf(n) == v && (n in s'.params <==> !v.NotSet?)
  }

  /** Main result on setting with callbacks, for any list: an undeclared name raises; otherwise the
      list is accepted if and only if it has not been emptied, every entry is permitted and every
      callback agrees; if all is permitted the first callback that objects gives the answer; and
      the values are those of the list after acceptance and the old ones in every other case. */
  lemma SetAnswersExactly(s: Store, settings: Settings, pre: seq<PreCallback>, on: seq<OnCallback>,
                          parameters: seq<Parameter>)
    ensures var ps := ListToSet(pre, parameters);
      var emptied := pre != [] && ps == [];
      var (s', o) := SetWithCallbacks(s, settings, pre, on, parameters);
      var permitted := forall p :: p in ps ==> Permitted(s, p, settings.test);
      && (o.Raised? <==> exists p :: p in ps && !NeedsNoDeclaration(s, settings, p))
      && (o.Raised? ==> o.error.NotDeclared? && s' == s)
      && (emptied ==> o == Answer(Refused(EmptyList)) && s' == s)
      && (o == Answer(Accepted) <==> !emptied && !o.Raised? && permitted && Unanimous(on, ps))
      && (!emptied && !o.Raised? && permitted && !Unanimous(on, ps) ==>
            exists i: nat :: FirstToRefuse(on, ps, i) && o == Answer(on[i](ps)))
      && (o == Answer(Accepted) ==> TakesOver(s, s', ps))
      && (o != Answer(Accepted) ==> s'.params == s.params && SameButTags(s.descs, s'.descs))
  {
    var ps := ListToSet(pre, parameters);
    var veto := Ask(on, ps);
    var r := SetCommon(s, ps, None, false, veto, settings.test);
    EveryCallbackHasAVeto(on, ps);
    RaisesUnlessKnown(s, settings, ps);
    assert forall p :: NeedsNoDeclaration(s, settings, p) <==> Known(s, settings, p);
    PermittedIsAccepted(s, ps, settings.test);
    if r.verdict.Refused? {
      RefusedSetChangesNothing(s, ps, None, false, veto, settings.test);
    } else {
      var s1 := s.(descs := ApplyAll(ps, s.descs, s.params.Keys, true, settings.test).1);
      assert r.store == CommitAll(s1, ps, None, false);
      forall n { StoreKeepsLast(s1, ps, n); }
    }
    assert ps == [] ==> forall p :: p !in ps;
  }

  lemma PermittedIsAccepted(s: Store, ps: seq<Parameter>, test: DoubleTest)
    ensures ApplyAll(ps, s.descs, s.params.Keys, true, test).0.Accepted? <==> forall p :: p in ps ==> Permitted(s, p, test)
  {
    ApplyAllIsPointwise(s, ps, test);
    forall p ensures Permitted(s, p, test) <==> Acceptable(s, p, test) {
      if p.name in s.descs {
        CheckAcceptsExactly(p, s.descs[p.name], p.name in s.params, true, test);
      }
    }
  }

  /** The one-by-one form is the atomic one, callbacks included, on the store that the parameters
      before have left. */
  lemma {:induction false} EachIsSetInTurn(s: Store, settings: Settings, pre: seq<PreCallback>, on: seq<OnCallback>,
                                           ps: seq<Parameter>, i: nat)
    requires i < |SetEach(s, settings, pre, on, ps).1|
    ensures i < |ps|
    ensures var t := SetEach(s, settings, pre, on, ps[..i]).0;
      (SetEach(s, settings, pre, on, ps[..i + 1]).0, SetEach(s, settings, pre, on, ps).1[i])
      == SetWithCallbacks(t, settings, pre, on, [ps[i]])
    decreases i
  {
    SetEachStopsAtTheFirstRaise(s, settings, pre, on, ps);
    var first := ps[..i + 1];
    assert first[0] == ps[0];
    if i == 0 {
      assert first == [ps[0]] && first[1..] == [] && ps[..0] == [];
    } else {
      var s1 := SetWithCallbacks(s, settings, pre, on, [ps[0]]).0;
      assert first[1..] == ps[1..][..i] && ps[..i][0] == ps[0] && ps[..i][1..] == ps[1..][..i - 1];
      EachIsSetInTurn(s1, settings, pre, on, ps[1..], i - 1);
    }
  }

  // ----- descriptors -----

  /** `d` as the last entry for the name leaves it: its name and, if it is dynamic, its type. */
  function TaggedBy(d: Descriptor, n: string, last: Option<Value>): Descriptor {
    match last
    case None => d
    case Some(v) => d.(name := n, typ := if d.dynamicTyping then TypeOf(v) else d.typ)
  }

  lemma {:induction false} RetagAllAppend(ds: map<string, Descriptor>, ps: seq<Parameter>, p: Parameter)
    ensures RetagAll(ds, ps + [p]) == RetagOne(RetagAll(ds, ps), p)
    decreases |ps|
  {
    if ps == [] {
      assert ps + [p] == [p] && [p][1..] == [];
    } else {
      assert (ps + [p])[0] == ps[0] && (ps + [p])[1..] == ps[1..] + [p];
      RetagAllAppend(RetagOne(ds, ps[0]), ps[1..], p);
    }
  }

  lemma {:induction false} LastTagWins(ds: map<string, Descriptor>, ps: seq<Parameter>, n: string)
    requires n in ds && !ds[n].readOnly
    ensures n in RetagAll(ds, ps) && RetagAll(ds, ps)[n] == TaggedBy(ds[n], n, LastFor(ps, n))
    decreases |ps|
  {
    if ps != [] {
      var k := |ps| - 1;
      assert ps == ps[..k] + [ps[k]];
      RetagAllAppend(ds, ps[..k], ps[k]);
      LastTagWins(ds, ps[..k], n);
    }
  }

  lemma {:induction false} CommitKeepsDescriptor(s: Store, ps: seq<Parameter>, n: string)
    requires n in s.descs && !Unsets(ps, n)
    ensures n in CommitAll(s, ps, None, false).descs && CommitAll(s, ps, None, false).descs[n] == s.descs[n]
    decreases |ps|
  {
    if ps != [] {
      assert forall i :: 0 <= i < |ps[1..]| ==> ps[1..][i] == ps[i + 1];
      CommitKeepsDescriptor(CommitOne(s, ps[0], None, false), ps[1..], n);
    }
  }

  /** An accepted set leaves the descriptor of a name it does not unset as it was, except that a
      dynamically typed one has taken the type of the last entry. */
  lemma AcceptedSetTags(s: Store, settings: Settings, ps: seq<Parameter>, veto: Verdict, n: string)
    requires SetAtomically(s, settings, ps, veto).1 == Answer(Accepted)
    requires n in s.descs && Mentions(ps, n) && !Unsets(ps, n)
    ensures var s' := SetAtomically(s, settings, ps, veto).0;
      n in s'.descs && s'.descs[n] == TaggedBy(s.descs[n], n, LastFor(ps, n))
  {
    ApplyAllIsPointwise(s, ps, settings.test);
    PermittedIsAccepted(s, ps, settings.test);
    var i :| 0 <= i < |ps| && ps[i].name == n;
    assert ps[i] in ps && Permitted(s, ps[i], settings.test);
    LastTagWins(s.descs, ps, n);
    CommitKeepsDescriptor(s.(descs := RetagAll(s.descs, ps)), ps, n);
  }
}
