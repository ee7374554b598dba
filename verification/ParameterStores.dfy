/** The parameter store of a node (BaseNode, rclpy/node.py): two dictionaries changed by declare,
    set, set-atomically, undeclare and set_descriptor.

    The functions on `Store` say what each operation does; `ParameterStore` performs the
    operations in place with the loops of the source and is proved against them. Their
    properties are in ParameterInvariants and AtomicSetting. */
module ParameterStores {
  import opened Options
  import opened Parameters

  datatype Store = Store(params: map<string, Parameter>, descs: map<string, Descriptor>) {
    function ValueOf(name: string): Value {
      if name in params then params[name].value else NotSet
    }
  }

  /** The parameter event that is published for one atomic set. */
  datatype Event = Event(added: seq<Parameter>, changed: seq<Parameter>, deleted: seq<Parameter>)

  const NO_EVENT := Event([], [], [])

  type PreCallback = seq<Parameter> -> seq<Parameter>
  type OnCallback = seq<Parameter> -> Verdict

  // ----- checking -----

  /** _apply_descriptors: parameters in order, each against its descriptor if it has one, until
      one is refused. The descriptors come back with what was written into them. */
  function ApplyAll(ps: seq<Parameter>, ds: map<string, Descriptor>, declared: set<string>,
                    checkReadOnly: bool, test: DoubleTest): (Verdict, map<string, Descriptor>)
  {
    if ps == [] then (Accepted, ds)
    else
      var p := ps[0];
      if p.name !in ds then ApplyAll(ps[1..], ds, declared, checkReadOnly, test)
      else
        var d := ds[p.name];
        var ds' := ds[p.name := Tagged(d, p, checkReadOnly)];
        var v := Check(p.value, d, p.name in declared, checkReadOnly, test);
        if v.Refused? then (v, ds') else ApplyAll(ps[1..], ds', declared, checkReadOnly, test)
  }

  /** The on-set callbacks are asked in order until one objects. */
  function Ask(callbacks: seq<OnCallback>, ps: seq<Parameter>): Verdict {
    if callbacks == [] then Accepted
    else if callbacks[0](ps).Refused? then callbacks[0](ps)
    else Ask(callbacks[1..], ps)
  }

  // ----- committing -----

  predicate Deletes(p: Parameter, allowNotSet: bool) { !allowNotSet && p.value.NotSet? }

  const DYNAMIC_DESCRIPTOR := PLAIN_DESCRIPTOR.(dynamicTyping := true)

  /** The descriptor a stored parameter gets: a new one if given, else the one it has, else a
      dynamic one. */
  function DescriptorFor(s: Store, p: Parameter, given: Option<map<string, Descriptor>>): Descriptor {
    if given.Some? && p.name in given.value then given.value[p.name]
    else if p.name in s.descs then s.descs[p.name]
    else DYNAMIC_DESCRIPTOR
  }

  function CommitOne(s: Store, p: Parameter, given: Option<map<string, Descriptor>>, allowNotSet: bool): Store {
    if Deletes(p, allowNotSet) then Store(s.params - {p.name}, s.descs - {p.name})
    else Store(s.params[p.name := p], s.descs[p.name := DescriptorFor(s, p, given)])
  }

  function Announce(s: Store, e: Event, p: Parameter, allowNotSet: bool): Event {
    if Deletes(p, allowNotSet) then e.(deleted := e.deleted + [p])
    else if s.ValueOf(p.name).NotSet? then e.(added := e.added + [p])
    else e.(changed := e.changed + [p])
  }

  function CommitAll(s: Store, ps: seq<Parameter>, given: Option<map<string, Descriptor>>, allowNotSet: bool): Store
    decreases |ps|
  {
    if ps == [] then s else CommitAll(CommitOne(s, ps[0], given, allowNotSet), ps[1..], given, allowNotSet)
  }

  function AnnounceAll(s: Store, e: Event, ps: seq<Parameter>, given: Option<map<string, Descriptor>>,
                       allowNotSet: bool): Event
    decreases |ps|
  {
    if ps == [] then e
    else AnnounceAll(CommitOne(s, ps[0], given, allowNotSet), Announce(s, e, ps[0], allowNotSet),
                     ps[1..], given, allowNotSet)
  }

  datatype Result = Result(store: Store, verdict: Verdict, event: Option<Event>)

  /** _set_parameters_atomically_common, `veto` being the answer of the on-set callbacks. */
  function SetCommon(s: Store, ps: seq<Parameter>, given: Option<map<string, Descriptor>>, allowNotSet: bool,
                     veto: Verdict, test: DoubleTest): Result
  {
    var (v, ds') := ApplyAll(ps, if given.Some? then given.value else s.descs, s.params.Keys, given.None?, test);
    var s1 := if given.Some? then s else s.(descs := ds');
    var given' := if given.Some? then Some(ds') else None;
    if v.Refused? then Result(s1, v, None)
    else if veto.Refused? then Result(s1, veto, None)
    else Result(CommitAll(s1, ps, given', allowNotSet), Accepted, Some(AnnounceAll(s1, NO_EVENT, ps, given', allowNotSet)))
  }

  // ----- the public operations -----

  /** Either an answer, or the exceptions of the source. */
  datatype Outcome = Answer(verdict: Verdict) | Raised(error: Error)

  datatype Error =
    | NotDeclared | AlreadyDeclared | InvalidName | InvalidDeclaration | InvalidType | InvalidValue
    | Immutable | Uninitialized

  /** What does not change while parameters are set. */
  datatype Settings = Settings(allowUndeclared: bool, test: DoubleTest)

  /** The generator passed to any() yields names, so an undeclared empty name goes unnoticed. */
  predicate MentionsUndeclared(s: Store, ps: seq<Parameter>) {
    exists i :: 0 <= i < |ps| && ps[i].name !in s.params && ps[i].name != ""
  }

  function SetAtomically(s: Store, settings: Settings, ps: seq<Parameter>, veto: Verdict): (Store, Outcome) {
    if !settings.allowUndeclared && MentionsUndeclared(s, ps) then (s, Raised(NotDeclared))
    else
      var r := SetCommon(s, ps, None, false, veto, settings.test);
      (r.store, Answer(r.verdict))
  }

  /** set_parameters_atomically on a node with pre-set and on-set callbacks. */
  function SetWithCallbacks(s: Store, settings: Settings, pre: seq<PreCallback>, on: seq<OnCallback>,
                            parameters: seq<Parameter>): (Store, Outcome)
  {
    var ps := if pre == [] then parameters else Rewritten(pre, parameters);
    if pre != [] && ps == [] then (s, Answer(Refused(EmptyList)))
    else SetAtomically(s, settings, ps, Ask(on, ps))
  }

  /** set_parameters: one by one, until one raises. */
  function SetEach(s: Store, settings: Settings, pre: seq<PreCallback>, on: seq<OnCallback>, ps: seq<Parameter>)
    : (Store, seq<Outcome>)
    decreases |ps|
  {
    if ps == [] then (s, [])
    else
      var (s', o) := SetWithCallbacks(s, settings, pre, on, [ps[0]]);
      if o.Raised? then (s', [o])
      else
        var (s'', os) := SetEach(s', settings, pre, on, ps[1..]);
        (s'', [o] + os)
  }

  function Undeclare(s: Store, name: string): (Store, Option<Error>) {
    if name !in s.params then (s, Some(NotDeclared))
    else if name in s.descs && s.descs[name].readOnly then (s, Some(Immutable))
    else (Store(s.params - {name}, s.descs - {name}), None)
  }

  function SetDescriptor(s: Store, settings: Settings, name: string, d: Descriptor, alternative: Option<Value>)
    : (Store, Option<Error>)
  {
    if name !in s.params then (s, if settings.allowUndeclared then None else Some(NotDeclared))
    else if name in s.descs && s.descs[name].readOnly then (s, Some(Immutable))
    else
      var current := s.params[name];
      if current.value.NotSet? && !(name in s.descs && s.descs[name].dynamicTyping) then (s, Some(Uninitialized))
      else
        var other := if alternative.Some? then Parameter(name, alternative.value) else current;
        var d1 := Tagged(d, current, false);
        if Check(current.value, d, true, false, settings.test).Accepted? then
          (Store(s.params[name := current], s.descs[name := d1]), None)
        else if Check(other.value, d1, true, false, settings.test).Accepted? then
          (Store(s.params[name := other], s.descs[name := Tagged(d1, other, false)]), None)
        else (s, Some(InvalidValue))
  }

  /** The second element of a declaration: a type, a value, or a message with a type. */
  datatype Given = OfType(typ: Type) | OfValue(value: Value) | OfMessage(typ: Type)

  datatype Declaration = Declaration(name: string, given: Given, descriptor: Descriptor)

  function FullName(namespace: string, name: string): string {
    if namespace == "" then name else namespace + "." + name
  }

  /** One round of the loop that turns declarations into parameters and descriptors. */
  function Prepare(decl: Declaration, name: string, overrides: map<string, Value>, ignoreOverride: bool)
    : Option<(Parameter, Descriptor)>
  {
    var d := decl.descriptor;
    var overridden := !ignoreOverride && name in overrides;
    match decl.given
    case OfType(t) =>
      if t.NotSetType? || d.dynamicTyping then None
      else Some((Parameter(name, if overridden then overrides[name] else NotSet), d.(typ := t)))
    case OfValue(v) =>
      if !d.dynamicTyping && v.NotSet? then None
      else Some((Parameter(name, if overridden then overrides[name] else v),
                 if d.dynamicTyping then d else d.(typ := TypeOf(v))))
    case OfMessage(t) =>
      if (!d.dynamicTyping && t.NotSetType?) || !overridden then None
      else Some((Parameter(name, overrides[name]), if d.dynamicTyping then d else d.(typ := t)))
  }

  datatype Prepared = Prepared(ps: seq<Parameter>, ds: map<string, Descriptor>, error: Option<Error>)

  function PrepareAll(soFar: Prepared, namespace: string, decls: seq<Declaration>, overrides: map<string, Value>,
                      ignoreOverride: bool): Prepared
    decreases |decls|
  {
    if decls == [] then soFar
    else
      var name := FullName(namespace, decls[0].name);
      if name == "" then soFar.(error := Some(InvalidName))
      else match Prepare(decls[0], name, overrides, ignoreOverride)
        case None => soFar.(error := Some(InvalidDeclaration))
        case Some((p, d)) =>
          PrepareAll(Prepared(soFar.ps + [p], soFar.ds[name := d], None), namespace, decls[1..], overrides, ignoreOverride)
  }

  predicate SaysWrongType(r: Reason) {
    r.WrongType? || (r.Vetoed? && "Wrong parameter type" <= r.text)
  }

  /** _declare_parameter_common: one atomic set for each parameter, until one is refused. */
  function DeclareEach(s: Store, ps: seq<Parameter>, ds: map<string, Descriptor>, callbacks: seq<OnCallback>,
                       test: DoubleTest): (Store, Option<Error>)
    decreases |ps|
  {
    if ps == [] then (s, None)
    else
      var r := SetCommon(s, [ps[0]], Some(ds), true, Ask(callbacks, [ps[0]]), test);
      if r.verdict.Refused? then (r.store, Some(if SaysWrongType(r.verdict.reason) then InvalidType else InvalidValue))
      else DeclareEach(r.store, ps[1..], ApplyAll([ps[0]], ds, s.params.Keys, false, test).1, callbacks, test)
  }

  predicate AnyDeclared(s: Store, ps: seq<Parameter>) {
    exists i :: 0 <= i < |ps| && ps[i].name in s.params && ps[i].name != ""
  }

  function Declare(s: Store, prepared: Prepared, callbacks: seq<OnCallback>, test: DoubleTest): (Store, Option<Error>) {
    if prepared.error.Some? then (s, prepared.error)
    else if AnyDeclared(s, prepared.ps) then (s, Some(AlreadyDeclared))
    else DeclareEach(s, prepared.ps, prepared.ds, callbacks, test)
  }

  // ----- the store in place -----

  function Rewritten(callbacks: seq<PreCallback>, ps: seq<Parameter>): seq<Parameter> {
    if callbacks == [] then [] else callbacks[0](ps) + Rewritten(callbacks[1..], ps)
  }

  lemma {:induction false} RewrittenAppend(callbacks: seq<PreCallback>, c: PreCallback, ps: seq<Parameter>)
    ensures Rewritten(callbacks + [c], ps) == Rewritten(callbacks, ps) + c(ps)
  {
    if callbacks == [] {
      assert callbacks + [c] == [c] && [c][1..] == [];
    } else {
      assert (callbacks + [c])[1..] == callbacks[1..] + [c];
      RewrittenAppend(callbacks[1..], c, ps);
    }
  }

  class ParameterStore {
    var params: map<string, Parameter>
    var descs: map<string, Descriptor>
    var preSet: seq<PreCallback>
    var onSet: seq<OnCallback>
    var published: seq<Event>
    const settings: Settings
    const overrides: map<string, Value>

    function Contents(): Store reads this { Store(params, descs) }

    constructor (settings: Settings, overrides: map<string, Value>)
      ensures Contents() == Store(map[], map[]) && preSet == [] && onSet == [] && published == []
      ensures this.settings == settings && this.overrides == overrides
    {
      params, descs, preSet, onSet, published := map[], map[], [], [], [];
      this.settings, this.overrides := settings, overrides;
    }

    /** Callbacks are inserted at the front: the first one registered is asked last. */
    method AddOnSetCallback(c: OnCallback)
      modifies this`onSet
      ensures onSet == [c] + old(onSet)
    {
      onSet := [c] + onSet;
    }

    method AddPreSetCallback(c: PreCallback)
      modifies this`preSet
      ensures preSet == [c] + old(preSet)
    {
      preSet := [c] + preSet;
    }

    /** Checks against the given descriptors, or against the stored ones, which are written into. */
    method ApplyDescriptors(ps: seq<Parameter>, given: Option<map<string, Descriptor>>)
      returns (verdict: Verdict, written: map<string, Descriptor>)
      modifies this`descs
      ensures (verdict, written) == ApplyAll(ps, if given.Some? then given.value else old(descs),
                                             params.Keys, given.None?, settings.test)
      ensures descs == if given.Some? then old(descs) else written
    {
      written := if given.Some? then given.value else descs;
      var i := 0;
      while i < |ps|
        invariant 0 <= i <= |ps|
        invariant descs == if given.Some? then old(descs) else written
        invariant ApplyAll(ps, if given.Some? then given.value else old(descs), params.Keys, given.None?, settings.test)
                  == ApplyAll(ps[i..], written, params.Keys, given.None?, settings.test)
      {
        var p := ps[i];
        assert ps[i..][1..] == ps[i + 1..];
        if p.name in written {
          var d := written[p.name];
          written := written[p.name := Tagged(d, p, given.None?)];
          if given.None? {
            descs := written;
          }
          verdict := Check(p.value, d, p.name in params, given.None?, settings.test);
          if verdict.Refused? {
            return;
          }
        }
        i := i + 1;
      }
      verdict := Accepted;
    }

    method AskCallbacks(ps: seq<Parameter>) returns (verdict: Verdict)
      ensures verdict == Ask(onSet, ps)
    {
      var i := 0;
      while i < |onSet|
        invariant 0 <= i <= |onSet|
        invariant Ask(onSet, ps) == Ask(onSet[i..], ps)
      {
        verdict := onSet[i](ps);
        if verdict.Refused? {
          return;
        }
        i := i + 1;
      }
      verdict := Accepted;
    }

    method Commit(ps: seq<Parameter>, given: Option<map<string, Descriptor>>, allowNotSet: bool) returns (e: Event)
      modifies this`params, this`descs
      ensures Contents() == CommitAll(old(Contents()), ps, given, allowNotSet)
      ensures e == AnnounceAll(old(Contents()), NO_EVENT, ps, given, allowNotSet)
    {
      e := NO_EVENT;
      var i := 0;
      while i < |ps|
        invariant 0 <= i <= |ps|
        invariant CommitAll(old(Contents()), ps, given, allowNotSet) == CommitAll(Contents(), ps[i..], given, allowNotSet)
        invariant AnnounceAll(old(Contents()), NO_EVENT, ps, given, allowNotSet)
                  == AnnounceAll(Contents(), e, ps[i..], given, allowNotSet)
      {
        var p := ps[i];
        assert ps[i..][0] == p && ps[i..][1..] == ps[i + 1..];
        ghost var before := Contents();
        if !allowNotSet && p.value.NotSet? {
          e := e.(deleted := e.deleted + [p]);
          params := params - {p.name};
          descs := descs - {p.name};
        } else {
          if given.Some? && p.name in given.value {
            descs := descs[p.name := given.value[p.name]];
          } else if p.name !in descs {
            descs := descs[p.name := DYNAMIC_DESCRIPTOR];
          }
          if p.name !in params || params[p.name].value.NotSet? {
            e := e.(added := e.added + [p]);
          } else {
            e := e.(changed := e.changed + [p]);
          }
          params := params[p.name := p];
        }
        assert Contents() == CommitOne(before, p, given, allowNotSet);
        i := i + 1;
      }
    }

    method SetAtomicallyCommon(ps: seq<Parameter>, given: Option<map<string, Descriptor>>, allowNotSet: bool)
      returns (verdict: Verdict, written: map<string, Descriptor>)
      modifies this`params, this`descs, this`published
      ensures var r := SetCommon(old(Contents()), ps, given, allowNotSet, Ask(onSet, ps), settings.test);
        && Contents() == r.store && verdict == r.verdict
        && published == old(published) + (if r.event.Some? then [r.event.value] else [])
      ensures written == ApplyAll(ps, if given.Some? then given.value else old(descs),
                                  old(params).Keys, given.None?, settings.test).1
    {
      verdict, written := ApplyDescriptors(ps, given);
      if verdict.Refused? {
        return;
      }
      verdict := AskCallbacks(ps);
      if verdict.Refused? {
        return;
      }
      var e := Commit(ps, if given.Some? then Some(written) else None, allowNotSet);
      published := published + [e];
    }

    method CallPreSetCallbacks(ps: seq<Parameter>) returns (list: seq<Parameter>)
      ensures list == Rewritten(preSet, ps)
    {
      list := [];
      for i := 0 to |preSet|
        invariant list == Rewritten(preSet[..i], ps)
      {
        RewrittenAppend(preSet[..i], preSet[i], ps);
        assert preSet[..i + 1] == preSet[..i] + [preSet[i]];
        list := list + preSet[i](ps);
      }
      assert preSet[..|preSet|] == preSet;
    }

    method MentionsUndeclaredName(ps: seq<Parameter>) returns (found: bool)
      ensures found <==> MentionsUndeclared(Contents(), ps)
    {
      found := false;
      var i := 0;
      while i < |ps| && !found
        invariant 0 <= i <= |ps|
        invariant found <==> exists j :: 0 <= j < i && ps[j].name !in params && ps[j].name != ""
      {
        found := ps[i].name !in params && ps[i].name != "";
        i := i + 1;
      }
    }

    /** set_parameters_atomically, pre-set callbacks included. */
    method SetParametersAtomically(parameters: seq<Parameter>) returns (o: Outcome)
      modifies this`params, this`descs, this`published
      ensures (Contents(), o) == SetWithCallbacks(old(Contents()), settings, preSet, onSet, parameters)
    {
      var ps := parameters;
      if preSet != [] {
        ps := CallPreSetCallbacks(parameters);
        if ps == [] {
          return Answer(Refused(EmptyList));
        }
      }
      var undeclared := MentionsUndeclaredName(ps);
      if !settings.allowUndeclared && undeclared {
        return Raised(NotDeclared);
      }
      var verdict, written := SetAtomicallyCommon(ps, None, false);
      o := Answer(verdict);
    }

    /** set_parameters. */
    method SetParameters(ps: seq<Parameter>) returns (os: seq<Outcome>)
      modifies this`params, this`descs, this`published
      ensures (Contents(), os) == SetEach(old(Contents()), settings, preSet, onSet, ps)
    {
      os := [];
      var i := 0;
      ghost var rest := SetEach(Contents(), settings, preSet, onSet, ps).1;
      assert ps[0..] == ps && os + rest == rest;
      while i < |ps|
        invariant 0 <= i <= |ps|
        invariant rest == SetEach(Contents(), settings, preSet, onSet, ps[i..]).1
        invariant SetEach(old(Contents()), settings, preSet, onSet, ps)
                  == (SetEach(Contents(), settings, preSet, onSet, ps[i..]).0, os + rest)
      {
        assert ps[i..][0] == ps[i] && ps[i..][1..] == ps[i + 1..];
        ghost var os0 := os;
        var o := SetParametersAtomically([ps[i]]);
        os := os + [o];
        if o.Raised? {
          return;
        }
        rest := SetEach(Contents(), settings, preSet, onSet, ps[i + 1..]).1;
        assert os0 + ([o] + rest) == os + rest;
        i := i + 1;
      }
      assert os + [] == os;
    }

    method UndeclareParameter(name: string) returns (error: Option<Error>)
      requires name in params ==> name in descs
      modifies this`params, this`descs
      ensures (Contents(), error) == Undeclare(old(Contents()), name)
    {
      if name !in params {
        return Some(NotDeclared);
      }
      if descs[name].readOnly {
        return Some(Immutable);
      }
      params, descs := params - {name}, descs - {name};
      error := None;
    }

    method SetNewDescriptor(name: string, descriptor: Descriptor, alternative: Option<Value>) returns (error: Option<Error>)
      requires name in params ==> name in descs
      modifies this`params, this`descs
      ensures (Contents(), error) == SetDescriptor(old(Contents()), settings, name, descriptor, alternative)
    {
      if name !in params {
        return if settings.allowUndeclared then None else Some(NotDeclared);
      }
      if descs[name].readOnly {
        return Some(Immutable);
      }
      var current := params[name];
      if current.value.NotSet? && !descs[name].dynamicTyping {
        return Some(Uninitialized);
      }
      var chosen := current;
      var d := Tagged(descriptor, chosen, false);
      if Check(chosen.value, descriptor, true, false, settings.test).Refused? {
        if alternative.Some? {
          chosen := Parameter(name, alternative.value);
        }
        if Check(chosen.value, d, true, false, settings.test).Refused? {
          return Some(InvalidValue);
        }
        d := Tagged(d, chosen, false);
      }
      params := params[name := chosen];
      descs := descs[name := d];
      error := None;
    }

    method PrepareDeclarations(namespace: string, decls: seq<Declaration>, ignoreOverride: bool) returns (all: Prepared)
      ensures all == PrepareAll(Prepared([], map[], None), namespace, decls, overrides, ignoreOverride)
    {
      all := Prepared([], map[], None);
      var i := 0;
      while i < |decls|
        invariant 0 <= i <= |decls|
        invariant PrepareAll(Prepared([], map[], None), namespace, decls, overrides, ignoreOverride)
                  == PrepareAll(all, namespace, decls[i..], overrides, ignoreOverride)
      {
        assert decls[i..][0] == decls[i] && decls[i..][1..] == decls[i + 1..];
        var name := FullName(namespace, decls[i].name);
        if name == "" {
          return all.(error := Some(InvalidName));
        }
        var one := Prepare(decls[i], name, overrides, ignoreOverride);
        if one.None? {
          return all.(error := Some(InvalidDeclaration));
        }
        all := Prepared(all.ps + [one.value.0], all.ds[name := one.value.1], None);
        i := i + 1;
      }
    }

    method DeclareParameters(namespace: string, decls: seq<Declaration>, ignoreOverride: bool)
      returns (error: Option<Error>)
      modifies this`params, this`descs, this`published
      ensures (Contents(), error) == Declare(old(Contents()),
        PrepareAll(Prepared([], map[], None), namespace, decls, overrides, ignoreOverride), onSet, settings.test)
    {
      var all := PrepareDeclarations(namespace, decls, ignoreOverride);
      if all.error.Some? {
        return all.error;
      }
      if AnyDeclared(Contents(), all.ps) {
        return Some(AlreadyDeclared);
      }
      var ds := all.ds;
      var i := 0;
      while i < |all.ps|
        invariant 0 <= i <= |all.ps|
        invariant onSet == old(onSet)
        invariant DeclareEach(old(Contents()), all.ps, all.ds, onSet, settings.test)
                  == DeclareEach(Contents(), all.ps[i..], ds, onSet, settings.test)
      {
        assert all.ps[i..][0] == all.ps[i] && all.ps[i..][1..] == all.ps[i + 1..];
        var verdict, written := SetAtomicallyCommon([all.ps[i]], Some(ds), true);
        if verdict.Refused? {
          return Some(if SaysWrongType(verdict.reason) then InvalidType else InvalidValue);
        }
        ds := written;
        i := i + 1;
      }
      error := None;
    }
  }
}
