/** Setting parameters atomically: all or nothing, the published event describes exactly what
    changed, and the one-by-one form agrees with it. */
module AtomicSetting {
  import opened Options
  import opened Parameters
  import opened ParameterStores
  import opened ParameterInvariants

  /** Main result: a refused set changes no value, adds or removes no descriptor, and leaves the
      descriptors as they were up to the name and, for dynamic ones, the type they carry. */
  lemma RefusedSetChangesNothing(s: Store, ps: seq<Parameter>, given: Option<map<string, Descriptor>>,
                                 allowNotSet: bool, veto: Verdict, test: DoubleTest)
    requires SetCommon(s, ps, given, allowNotSet, veto, test).verdict.Refused?
    ensures var r := SetCommon(s, ps, given, allowNotSet, veto, test);
      && r.store.params == s.params && SameButTags(s.descs, r.store.descs) && r.event.None?
  {
    ApplyAllChecks(ps, s.descs, s.params.Keys, true, test);
  }

  // ----- the event -----

  ghost predicate DistinctNames(ps: seq<Parameter>) {
    forall i, j :: 0 <= i < j < |ps| ==> ps[i].name != ps[j].name
  }

  /** Parameters that the event must report as new, given the store before. */
  ghost predicate IsNew(s: Store, p: Parameter, allowNotSet: bool) {
    !Deletes(p, allowNotSet) && s.ValueOf(p.name).NotSet?
  }

  lemma {:induction false} AnnounceAllSorts(s: Store, e: Event, ps: seq<Parameter>,
                                            given: Option<map<string, Descriptor>>, allowNotSet: bool, p: Parameter)
    requires DistinctNames(ps)
    ensures var e' := AnnounceAll(s, e, ps, given, allowNotSet);
      && (p in e'.deleted <==> p in e.deleted || (p in ps && Deletes(p, allowNotSet)))
      && (p in e'.added <==> p in e.added || (p in ps && IsNew(s, p, allowNotSet)))
      && (p in e'.changed <==> p in e.changed || (p in ps && !Deletes(p, allowNotSet) && !IsNew(s, p, allowNotSet)))
      && |e'.deleted| + |e'.added| + |e'.changed| == |e.deleted| + |e.added| + |e.changed| + |ps|
    decreases |ps|
  {
    if ps != [] {
      var q := ps[0];
      var s1 := CommitOne(s, q, given, allowNotSet);
      AnnounceAllSorts(s1, Announce(s, e, q, allowNotSet), ps[1..], given, allowNotSet, p);
      assert p in ps <==> p == q || p in ps[1..];
      if p in ps[1..] {
        assert p.name != q.name;
        assert s1.ValueOf(p.name) == s.ValueOf(p.name);
      }
    }
  }

  // ----- effect on one name -----

  lemma {:induction false} CommitAllElsewhere(s: Store, ps: seq<Parameter>, given: Option<map<string, Descriptor>>,
                                              allowNotSet: bool, n: string)
    requires forall p :: p in ps ==> p.name != n
    ensures var s' := CommitAll(s, ps, given, allowNotSet);
      && (n in s'.params <==> n in s.params) && (n in s.params ==> s'.params[n] == s.params[n])
      && (n in s'.descs <==> n in s.descs) && (n in s.descs ==> s'.descs[n] == s.descs[n])
    decreases |ps|
  {
    if ps != [] {
      assert ps[0] in ps && forall p :: p in ps[1..] ==> p in ps;
      CommitAllElsewhere(CommitOne(s, ps[0], given, allowNotSet), ps[1..], given, allowNotSet, n);
    }
  }

  /** What committing distinct names does to the name of one of them. */
  lemma {:induction false} CommitAllAt(s: Store, ps: seq<Parameter>, given: Option<map<string, Descriptor>>,
                                       allowNotSet: bool, p: Parameter)
    requires DistinctNames(ps) && p in ps
    ensures var s' := CommitAll(s, ps, given, allowNotSet);
      if Deletes(p, allowNotSet) then p.name !in s'.params && p.name !in s'.descs
      else
        && p.name in s'.params && s'.params[p.name] == p
        && p.name in s'.descs && s'.descs[p.name] == DescriptorFor(s, p, given)
    decreases |ps|
  {
    var q := ps[0];
    var s1 := CommitOne(s, q, given, allowNotSet);
    if p == q {
      forall r | r in ps[1..] ensures r.name != p.name { }
      CommitAllElsewhere(s1, ps[1..], given, allowNotSet, p.name);
    } else {
      assert p in ps[1..] && p.name != q.name;
      CommitAllAt(s1, ps[1..], given, allowNotSet, p);
    }
  }

  /** What an observer of events does to its copy of the values. */
  function Replay(params: map<string, Parameter>, e: Event): map<string, Parameter> {
    ByName(e.changed, ByName(e.added, params - set i | 0 <= i < |e.deleted| :: e.deleted[i].name))
  }

  function ByName(ps: seq<Parameter>, params: map<string, Parameter>): map<string, Parameter>
    decreases |ps|
  {
    if ps == [] then params else ByName(ps[1..], params[ps[0].name := ps[0]])
  }

  ghost predicate Consistent(ps: seq<Parameter>) {
    forall p, q :: p in ps && q in ps && p.name == q.name ==> p == q
  }

  lemma {:induction false} ByNameLooksUp(ps: seq<Parameter>, params: map<string, Parameter>, n: string)
    requires Consistent(ps)
    ensures forall p :: p in ps && p.name == n ==> n in ByName(ps, params) && ByName(ps, params)[n] == p
    ensures (forall p :: p in ps ==> p.name != n) ==>
      (n in ByName(ps, params) <==> n in params) && (n in params ==> ByName(ps, params)[n] == params[n])
    decreases |ps|
  {
    if ps != [] {
      assert forall p :: p in ps[1..] ==> p in ps;
      assert forall p :: p in ps ==> p == ps[0] || p in ps[1..];
      assert ps[0] in ps;
      ByNameLooksUp(ps[1..], params[ps[0].name := ps[0]], n);
    }
  }

  /** Main result: the event of an accepted set of distinct names sorts the list it was given
      into new, changed and deleted parameters, each in exactly one, as the old store had them;
      and replaying it on the old values gives exactly the new ones. */
  lemma EventDescribesTheChange(s: Store, ps: seq<Parameter>, given: Option<map<string, Descriptor>>,
                                allowNotSet: bool, veto: Verdict, test: DoubleTest)
    requires DistinctNames(ps) && SetCommon(s, ps, given, allowNotSet, veto, test).verdict.Accepted?
    ensures var r := SetCommon(s, ps, given, allowNotSet, veto, test);
      && r.event.Some?
      && (forall p :: p in r.event.value.deleted <==> p in ps && Deletes(p, allowNotSet))
      && (forall p :: p in r.event.value.added <==> p in ps && IsNew(s, p, allowNotSet))
      && (forall p :: p in r.event.value.changed <==> p in ps && !Deletes(p, allowNotSet) && !IsNew(s, p, allowNotSet))
      && |r.event.value.deleted| + |r.event.value.added| + |r.event.value.changed| == |ps|
      && Replay(s.params, r.event.value) == r.store.params
  {
    var r := SetCommon(s, ps, given, allowNotSet, veto, test);
    var e := r.event.value;
    var (v, ds') := ApplyAll(ps, if given.Some? then given.value else s.descs, s.params.Keys, given.None?, test);
    var s1 := if given.Some? then s else s.(descs := ds');
    var given' := if given.Some? then Some(ds') else None;
    forall p
      ensures p in e.deleted <==> p in ps && Deletes(p, allowNotSet)
      ensures p in e.added <==> p in ps && IsNew(s, p, allowNotSet)
      ensures p in e.changed <==> p in ps && !Deletes(p, allowNotSet) && !IsNew(s, p, allowNotSet)
      ensures |e.deleted| + |e.added| + |e.changed| == |ps|
    {
      AnnounceAllSorts(s1, NO_EVENT, ps, given', allowNotSet, p);
      assert s1.ValueOf(p.name) == s.ValueOf(p.name);
    }
    forall n ensures n in Replay(s.params, e) <==> n in r.store.params
             ensures n in r.store.params ==> Replay(s.params, e)[n] == r.store.params[n]
    {
      if p :| p in ps && p.name == n {
        CommitAllAt(s1, ps, given', allowNotSet, p);
      } else {
        CommitAllElsewhere(s1, ps, given', allowNotSet, n);
      }
      ReplayByName(s.params, e, ps, n);
    }
  }

  lemma ReplayByName(params: map<string, Parameter>, e: Event, ps: seq<Parameter>, n: string)
    requires DistinctNames(ps)
    requires forall p :: p in e.deleted || p in e.added || p in e.changed <==> p in ps
    requires forall p :: !(p in e.deleted && (p in e.added || p in e.changed)) && !(p in e.added && p in e.changed)
    ensures forall p :: p in ps && p.name == n ==>
      if p in e.deleted then n !in Replay(params, e) else n in Replay(params, e) && Replay(params, e)[n] == p
    ensures (forall p :: p in ps ==> p.name != n) ==>
      (n in Replay(params, e) <==> n in params) && (n in params ==> Replay(params, e)[n] == params[n])
  {
    var gone := set i | 0 <= i < |e.deleted| :: e.deleted[i].name;
    var kept := params - gone;
    assert Consistent(ps);
    assert Consistent(e.added) && Consistent(e.changed);
    ByNameLooksUp(e.added, kept, n);
    ByNameLooksUp(e.changed, ByName(e.added, kept), n);
    assert n in gone ==> exists p :: p in e.deleted && p.name == n;
    assert forall p :: p in e.deleted ==> p.name in gone;
  }

  // ----- the event of any list -----

  /** The value of the last entry for a name. */
  function LastFor(ps: seq<Parameter>, n: string): Option<Value> {
    if ps == [] then None
    else if ps[|ps| - 1].name == n then Some(ps[|ps| - 1].value)
    else LastFor(ps[..|ps| - 1], n)
  }

  lemma {:induction false} CommitAllAppend(s: Store, ps: seq<Parameter>, p: Parameter)
    ensures CommitAll(s, ps + [p], None, false) == CommitOne(CommitAll(s, ps, None, false), p, None, false)
    decreases |ps|
  {
    if ps == [] {
      assert ps + [p] == [p] && [p][1..] == [];
    } else {
      assert (ps + [p])[0] == ps[0] && (ps + [p])[1..] == ps[1..] + [p];
      CommitAllAppend(CommitOne(s, ps[0], None, false), ps[1..], p);
    }
  }

  /** The store keeps the last entry. */
  lemma {:induction false} StoreKeepsLast(s: Store, ps: seq<Parameter>, n: string)
    ensures var s' := CommitAll(s, ps, None, false);
      match LastFor(ps, n)
      case None => s'.ValueOf(n) == s.ValueOf(n) && (n in s'.params <==> n in s.params)
      case Some(value) => s'.ValueOf(n) == value && (n in s'.params <==> !value.NotSet?)
    decreases |ps|
  {
    if ps != [] {
      var k := |ps| - 1;
      assert ps == ps[..k] + [ps[k]];
      CommitAllAppend(s, ps[..k], ps[k]);
      StoreKeepsLast(s, ps[..k], n);
    }
  }

  lemma {:induction false} AnnounceAllAppend(s: Store, e: Event, ps: seq<Parameter>, p: Parameter)
    ensures AnnounceAll(s, e, ps + [p], None, false)
            == Announce(CommitAll(s, ps, None, false), AnnounceAll(s, e, ps, None, false), p, false)
    decreases |ps|
  {
    if ps == [] {
      assert ps + [p] == [p] && [p][1..] == [];
    } else {
      assert (ps + [p])[0] == ps[0] && (ps + [p])[1..] == ps[1..] + [p];
      AnnounceAllAppend(CommitOne(s, ps[0], None, false), Announce(s, e, ps[0], false), ps[1..], p);
    }
  }

  /** The value that a name has after the list, read off the list and the store before it. */
  function ValueAfter(s: Store, ps: seq<Parameter>, n: string): Value {
    match LastFor(ps, n)
    case None => s.ValueOf(n)
    case Some(value) => value
  }

  datatype Kind = Added | Changed | Deleted

  /** What an entry does, given the entries before it. */
  function KindOf(s: Store, before: seq<Parameter>, p: Parameter): Kind {
    if p.value.NotSet? then Deleted
    else if ValueAfter(s, before, p.name).NotSet? then Added
    else Changed
  }

  /** The entries of one kind, in order. */
  function Entries(s: Store, ps: seq<Parameter>, k: Kind): seq<Parameter>
    decreases |ps|
  {
    if ps == [] then []
    else
      var before, p := ps[..|ps| - 1], ps[|ps| - 1];
      Entries(s, before, k) + if KindOf(s, before, p) == k then [p] else []
  }

  /** For any list the event sorts the entries, each by what it does to the store as the entries
      before it have left it, and keeps their order. */
  lemma {:induction false} EventSortsEveryEntry(s: Store, ps: seq<Parameter>)
    ensures AnnounceAll(s, NO_EVENT, ps, None, false)
            == Event(Entries(s, ps, Added), Entries(s, ps, Changed), Entries(s, ps, Deleted))
    decreases |ps|
  {
    if ps != [] {
      var before, p := ps[..|ps| - 1], ps[|ps| - 1];
      assert ps == before + [p];
      EventSortsEveryEntry(s, before);
      AnnounceAllAppend(s, NO_EVENT, before, p);
      StoreKeepsLast(s, before, p.name);
    }
  }

  predicate Unsets(ps: seq<Parameter>, n: string) {
    exists i :: 0 <= i < |ps| && ps[i].name == n && ps[i].value.NotSet?
  }

  predicate OnlyUnsets(ps: seq<Parameter>, n: string) {
    forall i :: 0 <= i < |ps| && ps[i].name == n ==> ps[i].value.NotSet?
  }

  predicate Mentions(ps: seq<Parameter>, n: string) {
    exists i :: 0 <= i < |ps| && ps[i].name == n
  }

  /** Replaying the event gives `n` the right value: if the last entry for `n` unsets it, then all
      of them do; if it sets it, then the last entry that changed a value it already had, if
      there is one, carries the same value. */
  ghost predicate ReplaysRight(s: Store, ps: seq<Parameter>, n: string) {
    match LastFor(ps, n)
    case None => true
    case Some(last) =>
      if last.NotSet? then OnlyUnsets(ps, n)
      else LastFor(Entries(s, ps, Changed), n).None? || LastFor(Entries(s, ps, Changed), n) == Some(last)
  }

  lemma {:induction false} EntriesForName(s: Store, ps: seq<Parameter>, n: string)
    ensures var added, changed := LastFor(Entries(s, ps, Added), n), LastFor(Entries(s, ps, Changed), n);
      && (added.None? && changed.None? <==> OnlyUnsets(ps, n))
      && (LastFor(ps, n).Some? && !LastFor(ps, n).value.NotSet? ==> changed == LastFor(ps, n) || added == LastFor(ps, n))
      && (Mentions(Entries(s, ps, Deleted), n) <==> Unsets(ps, n))
      && (LastFor(ps, n).None? ==> OnlyUnsets(ps, n) && !Unsets(ps, n))
      && (LastFor(ps, n).Some? && LastFor(ps, n).value.NotSet? ==> Unsets(ps, n))
    decreases |ps|
  {
    if ps != [] {
      var before, p := ps[..|ps| - 1], ps[|ps| - 1];
      EntriesForName(s, before, n);
      OneMoreEntry(before, p, n);
      assert ps == before + [p];
      forall k ensures Entries(s, ps, k) == Entries(s, before, k) + (if KindOf(s, before, p) == k then [p] else []) { }
      OneMoreEntry(Entries(s, before, Deleted), p, n);
      OneMoreEntry(Entries(s, before, Added), p, n);
      OneMoreEntry(Entries(s, before, Changed), p, n);
      assert forall k :: Entries(s, before, k) + [] == Entries(s, before, k);
    }
  }

  lemma OneMoreEntry(ps: seq<Parameter>, p: Parameter, n: string)
    ensures LastFor(ps + [p], n) == if p.name == n then Some(p.value) else LastFor(ps, n)
    ensures Unsets(ps + [p], n) <==> Unsets(ps, n) || (p.name == n && p.value.NotSet?)
    ensures OnlyUnsets(ps + [p], n) <==> OnlyUnsets(ps, n) && (p.name == n ==> p.value.NotSet?)
    ensures Mentions(ps + [p], n) <==> Mentions(ps, n) || p.name == n
  {
    var all := ps + [p];
    assert all[..|ps|] == ps && all[|ps|] == p;
    assert forall i :: 0 <= i < |ps| ==> all[i] == ps[i];
  }

  /** The last entry wins. */
  lemma {:induction false} ByNameKeepsLast(ps: seq<Parameter>, params: map<string, Parameter>, n: string)
    ensures match LastFor(ps, n)
      case None => (n in ByName(ps, params) <==> n in params) && (n in params ==> ByName(ps, params)[n] == params[n])
      case Some(value) => n in ByName(ps, params) && ByName(ps, params)[n] == Parameter(n, value)
    decreases |ps|
  {
    if ps != [] {
      var before, p := ps[..|ps| - 1], ps[|ps| - 1];
      assert ps == before + [p];
      ByNameAppend(before, p, params);
      ByNameKeepsLast(before, params, n);
    }
  }

  lemma {:induction false} ByNameAppend(ps: seq<Parameter>, p: Parameter, params: map<string, Parameter>)
    ensures ByName(ps + [p], params) == ByName(ps, params)[p.name := p]
    decreases |ps|
  {
    if ps == [] {
      assert ps + [p] == [p] && [p][1..] == [];
    } else {
      assert (ps + [p])[0] == ps[0] && (ps + [p])[1..] == ps[1..] + [p];
      ByNameAppend(ps[1..], p, params[ps[0].name := ps[0]]);
    }
  }

  lemma ReplayAt(params: map<string, Parameter>, e: Event, n: string)
    ensures var r, added, changed := Replay(params, e), LastFor(e.added, n), LastFor(e.changed, n);
      if changed.Some? then n in r && r[n] == Parameter(n, changed.value)
      else if added.Some? then n in r && r[n] == Parameter(n, added.value)
      else (n in r <==> n in params && !Mentions(e.deleted, n)) && (n in r ==> r[n] == params[n])
  {
    var gone := set i | 0 <= i < |e.deleted| :: e.deleted[i].name;
    var kept := params - gone;
    assert n in gone <==> Mentions(e.deleted, n);
    ByNameKeepsLast(e.added, kept, n);
    ByNameKeepsLast(e.changed, ByName(e.added, kept), n);
  }

  /** The stored parameter, not only its value. */
  lemma {:induction false} StoredIsLast(s: Store, ps: seq<Parameter>, n: string)
    ensures var s' := CommitAll(s, ps, None, false);
      match LastFor(ps, n)
      case None => (n in s'.params <==> n in s.params) && (n in s.params ==> s'.params[n] == s.params[n])
      case Some(value) => if value.NotSet? then n !in s'.params else n in s'.params && s'.params[n] == Parameter(n, value)
    decreases |ps|
  {
    if ps != [] {
      var k := |ps| - 1;
      assert ps == ps[..k] + [ps[k]];
      CommitAllAppend(s, ps[..k], ps[k]);
      StoredIsLast(s, ps[..k], n);
    }
  }

  ghost predicate SameAt(a: map<string, Parameter>, b: map<string, Parameter>, n: string) {
    (n in a <==> n in b) && (n in a ==> a[n] == b[n])
  }

  lemma SameEverywhere(a: map<string, Parameter>, b: map<string, Parameter>)
    requires forall n :: SameAt(a, b, n)
    ensures a == b
  {
    forall n ensures (n in a <==> n in b) && (n in a ==> a[n] == b[n]) {
      assert SameAt(a, b, n);
    }
  }

  lemma ReplayAgreesAt(s: Store, ps: seq<Parameter>, n: string)
    ensures SameAt(Replay(s.params, AnnounceAll(s, NO_EVENT, ps, None, false)), CommitAll(s, ps, None, false).params, n)
            <==> ReplaysRight(s, ps, n)
  {
    EventSortsEveryEntry(s, ps);
    EntriesForName(s, ps, n);
    ReplayAt(s.params, AnnounceAll(s, NO_EVENT, ps, None, false), n);
    StoredIsLast(s, ps, n);
  }

  /** Main result for any accepted list: replaying its event on the old values gives the new ones if
      and only if it does so name by name, which the list and the store before it decide. */
  lemma ReplayIsRightExactly(s: Store, ps: seq<Parameter>, veto: Verdict, test: DoubleTest)
    requires SetCommon(s, ps, None, false, veto, test).verdict.Accepted?
    ensures var r := SetCommon(s, ps, None, false, veto, test);
      r.event.Some? && (Replay(s.params, r.event.value) == r.store.params <==> forall n :: ReplaysRight(s, ps, n))
  {
    var r := SetCommon(s, ps, None, false, veto, test);
    var s1 := s.(descs := ApplyAll(ps, s.descs, s.params.Keys, true, test).1);
    assert r.store == CommitAll(s1, ps, None, false) && r.event == Some(AnnounceAll(s1, NO_EVENT, ps, None, false));
    forall n ensures SameAt(Replay(s.params, r.event.value), r.store.params, n) <==> ReplaysRight(s, ps, n) {
      ReplayAgreesAt(s1, ps, n);
      OnlyValuesMatter(s, s1, ps, n);
    }
    if forall n :: ReplaysRight(s, ps, n) {
      SameEverywhere(Replay(s.params, r.event.value), r.store.params);
    } else {
      var n :| !ReplaysRight(s, ps, n);
      assert !SameAt(Replay(s.params, r.event.value), r.store.params, n);
    }
  }

  lemma OnlyValuesMatter(s: Store, s1: Store, ps: seq<Parameter>, n: string)
    requires s1.params == s.params
    ensures ReplaysRight(s1, ps, n) <==> ReplaysRight(s, ps, n)
  {
    EntriesSame(s, s1, ps, Changed);
  }

  lemma {:induction false} EntriesSame(s: Store, s1: Store, ps: seq<Parameter>, k: Kind)
    requires s1.params == s.params
    ensures Entries(s1, ps, k) == Entries(s, ps, k)
    decreases |ps|
  {
    if ps != [] {
      EntriesSame(s, s1, ps[..|ps| - 1], k);
    }
  }

  // ----- one by one -----

  /** The check of one parameter alone against the stored descriptors. */
  predicate Acceptable(s: Store, p: Parameter, test: DoubleTest) {
    p.name in s.descs ==> Check(p.value, s.descs[p.name], p.name in s.params, true, test).Accepted?
  }

  function RetagOne(ds: map<string, Descriptor>, p: Parameter): map<string, Descriptor> {
    if p.name in ds then ds[p.name := Tagged(ds[p.name], p, true)] else ds
  }

  function RetagAll(ds: map<string, Descriptor>, ps: seq<Parameter>): map<string, Descriptor>
    decreases |ps|
  {
    if ps == [] then ds else RetagAll(RetagOne(ds, ps[0]), ps[1..])
  }

  function PutOne(s: Store, p: Parameter): Store {
    CommitOne(s.(descs := RetagOne(s.descs, p)), p, None, false)
  }

  function PutAll(s: Store, ps: seq<Parameter>): Store
    decreases |ps|
  {
    if ps == [] then s else PutAll(PutOne(s, ps[0]), ps[1..])
  }

  /** What a check writes does not matter to later ones. */
  lemma CheckIgnoresTags(v: Value, d: Descriptor, p: Parameter, declared: bool, test: DoubleTest)
    ensures Check(v, Tagged(d, p, true), declared, true, test) == Check(v, d, declared, true, test)
  {
  }

  /** Hence the checks of a list do not influence each other. */
  lemma {:induction false} ApplyAllIsPointwise(s: Store, ps: seq<Parameter>, test: DoubleTest)
    ensures var (v, ds') := ApplyAll(ps, s.descs, s.params.Keys, true, test);
      && (v.Accepted? <==> forall p :: p in ps ==> Acceptable(s, p, test))
      && (v.Accepted? ==> ds' == RetagAll(s.descs, ps))
    decreases |ps|
  {
    if ps != [] {
      var p := ps[0];
      assert p in ps;
      var s1 := s.(descs := RetagOne(s.descs, p));
      if Acceptable(s, p, test) {
        ApplyAllIsPointwise(s1, ps[1..], test);
        forall q | q in ps[1..] ensures q in ps && (Acceptable(s1, q, test) <==> Acceptable(s, q, test)) {
          if q.name == p.name && p.name in s.descs {
            CheckIgnoresTags(q.value, s.descs[p.name], p, p.name in s.params, test);
          }
        }
        assert forall q :: q in ps ==> q == p || q in ps[1..];
      }
    }
  }

  lemma {:induction false} RetagAllCommutes(s: Store, p: Parameter, ps: seq<Parameter>)
    requires forall q :: q in ps ==> q.name != p.name
    ensures CommitOne(s.(descs := RetagAll(s.descs, ps)), p, None, false)
            == var s1 := CommitOne(s, p, None, false); s1.(descs := RetagAll(s1.descs, ps))
    decreases |ps|
  {
    if ps != [] {
      var q := ps[0];
      assert q in ps;
      assert forall r :: r in ps[1..] ==> r in ps;
      var s1 := s.(descs := RetagOne(s.descs, q));
      RetagAllCommutes(s1, p, ps[1..]);
      RetagOneCommutes(s, p, q);
    }
  }

  lemma RetagOneCommutes(s: Store, p: Parameter, q: Parameter)
    requires q.name != p.name
    ensures CommitOne(s.(descs := RetagOne(s.descs, q)), p, None, false).descs
            == RetagOne(CommitOne(s, p, None, false).descs, q)
  {
  }

  /** Checking everything first and then committing equals putting one after the other. */
  lemma {:induction false} CommitAfterRetag(s: Store, ps: seq<Parameter>)
    requires DistinctNames(ps)
    ensures CommitAll(s.(descs := RetagAll(s.descs, ps)), ps, None, false) == PutAll(s, ps)
    decreases |ps|
  {
    if ps == [] {
      assert s.(descs := s.descs) == s;
    } else {
      var p := ps[0];
      var s1 := s.(descs := RetagOne(s.descs, p));
      forall q | q in ps[1..] ensures q.name != p.name { }
      RetagAllCommutes(s1, p, ps[1..]);
      assert s1.(descs := RetagAll(s1.descs, ps[1..])) == s.(descs := RetagAll(s.descs, ps));
      CommitAfterRetag(PutOne(s, p), ps[1..]);
    }
  }

  ghost predicate AllAccepted(os: seq<Outcome>) {
    forall i :: 0 <= i < |os| ==> os[i] == Answer(Accepted)
  }

  lemma AllAcceptedCons(o: Outcome, os: seq<Outcome>)
    ensures AllAccepted([o] + os) <==> o == Answer(Accepted) && AllAccepted(os)
  {
    assert forall i :: 0 <= i < |os| ==> ([o] + os)[i + 1] == os[i];
    assert ([o] + os)[0] == o;
  }

  /** Setting `p` does not raise. */
  predicate Known(s: Store, settings: Settings, p: Parameter) {
    settings.allowUndeclared || p.name in s.params || p.name == ""
  }

  lemma RaisesUnlessKnown(s: Store, settings: Settings, ps: seq<Parameter>)
    ensures !settings.allowUndeclared && MentionsUndeclared(s, ps) <==> exists p :: p in ps && !Known(s, settings, p)
  {
    if p :| p in ps && !Known(s, settings, p) {
      var i :| 0 <= i < |ps| && ps[i] == p;
      assert ps[i].name !in s.params && ps[i].name != "";
    }
    if i :| !settings.allowUndeclared && 0 <= i < |ps| && ps[i].name !in s.params && ps[i].name != "" {
      assert ps[i] in ps && !Known(s, settings, ps[i]);
    }
  }

  lemma SetOne(s: Store, settings: Settings, p: Parameter)
    ensures var (s', o) := SetAtomically(s, settings, [p], Accepted);
      && (o.Raised? <==> !Known(s, settings, p))
      && (o == Answer(Accepted) <==> Known(s, settings, p) && Acceptable(s, p, settings.test))
      && (o == Answer(Accepted) ==> s' == PutOne(s, p))
  {
    assert p in [p];
    RaisesUnlessKnown(s, settings, [p]);
    ApplyAllIsPointwise(s, [p], settings.test);
    CommitAfterRetag(s, [p]);
    assert PutAll(s, [p]) == PutOne(s, p);
  }

  /** The one-by-one form makes no attempt after the first parameter that raises, and what was
      set before stays set. */
  lemma {:induction false} SetEachStopsAtTheFirstRaise(s: Store, settings: Settings, pre: seq<PreCallback>,
                                                      on: seq<OnCallback>, ps: seq<Parameter>)
    ensures var (s', os) := SetEach(s, settings, pre, on, ps);
      && |os| <= |ps|
      && (forall i :: 0 <= i < |os| - 1 ==> os[i].Answer?)
      && (if os != [] && os[|os| - 1].Raised? then s' == SetEach(s, settings, pre, on, ps[..|os| - 1]).0 else |os| == |ps|)
    decreases |ps|
  {
    if ps != [] {
      var (s1, o) := SetWithCallbacks(s, settings, pre, on, [ps[0]]);
      if o.Raised? {
        assert ps[..0] == [];
      } else {
        SetEachStopsAtTheFirstRaise(s1, settings, pre, on, ps[1..]);
        var os := SetEach(s1, settings, pre, on, ps[1..]).1;
        assert os != [] ==> ps[..|os|][0] == ps[0] && ps[..|os|][1..] == ps[1..][..|os| - 1];
        assert forall i :: 0 < i < |os| ==> ([o] + os)[i] == os[i - 1];
      }
    }
  }

  /** Setting one after the other, without callbacks. */
  function OneByOne(s: Store, settings: Settings, ps: seq<Parameter>): (Store, seq<Outcome>) {
    SetEach(s, settings, [], [], ps)
  }

  lemma OneByOneCons(s: Store, settings: Settings, p: Parameter, ps: seq<Parameter>)
    ensures var (s1, o) := SetAtomically(s, settings, [p], Accepted);
      && (AllAccepted(OneByOne(s, settings, [p] + ps).1) <==>
            o == Answer(Accepted) && AllAccepted(OneByOne(s1, settings, ps).1))
      && (o == Answer(Accepted) ==> OneByOne(s, settings, [p] + ps).0 == OneByOne(s1, settings, ps).0)
  {
    var (s1, o) := SetAtomically(s, settings, [p], Accepted);
    assert ([p] + ps)[0] == p && ([p] + ps)[1..] == ps;
    assert SetWithCallbacks(s, settings, [], [], [p]) == (s1, o);
    if o.Raised? {
      assert OneByOne(s, settings, [p] + ps).1[0] == o;
    } else {
      AllAcceptedCons(o, OneByOne(s1, settings, ps).1);
    }
  }

  /** The one-by-one form seen from its last parameter. */
  lemma {:induction false} OneByOneAppend(s: Store, settings: Settings, ps: seq<Parameter>, p: Parameter)
    ensures AllAccepted(OneByOne(s, settings, ps).1) ==> OneByOne(s, settings, ps).0 == PutAll(s, ps)
    ensures var t := PutAll(s, ps);
      && (AllAccepted(OneByOne(s, settings, ps + [p]).1) <==>
            AllAccepted(OneByOne(s, settings, ps).1) && Known(t, settings, p) && Acceptable(t, p, settings.test))
      && PutAll(s, ps + [p]) == PutOne(t, p)
    decreases |ps|
  {
    if ps == [] {
      assert ps + [p] == [p] + [];
      SetOne(s, settings, p);
      OneByOneCons(s, settings, p, []);
      assert PutAll(s, [p]) == PutAll(PutOne(s, p), [p][1..]);
    } else {
      var q, rest := ps[0], ps[1..];
      assert ps == [q] + rest && ps + [p] == [q] + (rest + [p]);
      assert (ps + [p])[1..] == rest + [p];
      SetOne(s, settings, q);
      OneByOneCons(s, settings, q, rest);
      OneByOneCons(s, settings, q, rest + [p]);
      OneByOneAppend(PutOne(s, q), settings, rest, p);
    }
  }

  // ----- when the two forms agree -----

  /** What a list has done to a name: nothing or only set it; unset it last; or unset it and then
      set it again, which makes it anew. */
  datatype Status = Original | Absent | Recreated

  function StatusAfter(ps: seq<Parameter>, n: string): Status
    decreases |ps|
  {
    if ps == [] then Original
    else
      var p, before := ps[|ps| - 1], StatusAfter(ps[..|ps| - 1], n);
      if p.name != n then before
      else if p.value.NotSet? then Absent
      else if before.Original? then Original
      else Recreated
  }

  /** No name is listed again after an entry that unsets it. */
  ghost predicate UnsetsLast(ps: seq<Parameter>) {
    forall i, j :: 0 <= i < j < |ps| && ps[i].name == ps[j].name ==> !ps[i].value.NotSet?
  }

  /** Each parameter alone is acceptable to the store as it is. */
  ghost predicate AcceptedAtOnce(s: Store, settings: Settings, ps: seq<Parameter>) {
    forall p :: p in ps ==> Known(s, settings, p) && Acceptable(s, p, settings.test)
  }

  /** Each parameter is acceptable to what the ones before it leave: a name that was unset must be
      one that may be undeclared, and a name made anew takes anything. */
  ghost predicate AcceptedInTurn(s: Store, settings: Settings, ps: seq<Parameter>) {
    forall j :: 0 <= j < |ps| ==> AcceptedAt(s, settings, ps, j)
  }

  predicate AcceptedAt(s: Store, settings: Settings, ps: seq<Parameter>, j: nat)
    requires j < |ps|
  {
    match StatusAfter(ps[..j], ps[j].name)
    case Original => Known(s, settings, ps[j]) && Acceptable(s, ps[j], settings.test)
    case Absent => settings.allowUndeclared || ps[j].name == ""
    case Recreated => true
  }

  /** A descriptor that accepts everything. */
  predicate Lax(d: Descriptor) { d.dynamicTyping && !d.readOnly && d.integerRange.None? && d.doubleRange.None? }

  /** `t` is `s` after `ps`, as far as `n` is concerned. */
  ghost predicate StatusHolds(s: Store, t: Store, settings: Settings, ps: seq<Parameter>, n: string) {
    match StatusAfter(ps, n)
    case Absent => n !in t.params && n !in t.descs
    case Recreated => n in t.params && n in t.descs && Lax(t.descs[n])
    case Original =>
      if forall i :: 0 <= i < |ps| ==> ps[i].name != n then Untouched(s, t, n)
      else s.params.Keys == s.descs.Keys ==> OnlySet(s, t, settings, n)
  }

  ghost predicate Untouched(s: Store, t: Store, n: string) {
    && (n in t.params <==> n in s.params) && (n in t.descs <==> n in s.descs)
    && (n in s.descs ==> t.descs[n] == s.descs[n])
  }

  /** A name that was only ever set has its descriptor up to tags, or a new one. */
  ghost predicate OnlySet(s: Store, t: Store, settings: Settings, n: string) {
    && (n in t.params <==> n in t.descs)
    && (n in s.params ==>
          && n in t.params && n in s.descs
          && t.descs[n] == s.descs[n].(name := t.descs[n].name, typ := t.descs[n].typ)
          && (t.descs[n].typ == s.descs[n].typ || s.descs[n].dynamicTyping))
    && (n !in s.params && n in t.params ==> Lax(t.descs[n]) && (settings.allowUndeclared || n == ""))
  }

  /** Every reachable store has descriptors for exactly its parameters; for distinct names this is
      not needed. */
  ghost predicate Regular(s: Store, ps: seq<Parameter>) {
    s.params.Keys == s.descs.Keys || DistinctNames(ps)
  }

  lemma StatusDecides(s: Store, t: Store, settings: Settings, ps: seq<Parameter>, p: Parameter)
    requires Regular(s, ps + [p]) && StatusHolds(s, t, settings, ps, p.name)
    ensures Known(t, settings, p) && Acceptable(t, p, settings.test) <==>
      match StatusAfter(ps, p.name)
      case Original => Known(s, settings, p) && Acceptable(s, p, settings.test)
      case Absent => settings.allowUndeclared || p.name == ""
      case Recreated => true
  {
    var all := ps + [p];
    if DistinctNames(all) {
      assert forall i :: 0 <= i < |ps| ==> ps[i].name == all[i].name != all[|ps|].name;
    }
  }

  lemma StatusStep(s: Store, t: Store, settings: Settings, ps: seq<Parameter>, p: Parameter, n: string)
    requires StatusHolds(s, t, settings, ps, n)
    requires Known(t, settings, p) && Acceptable(t, p, settings.test)
    ensures StatusHolds(s, PutOne(t, p), settings, ps + [p], n)
  {
    var all := ps + [p];
    assert all[..|ps|] == ps && all[|ps|] == p;
    if p.name != n {
      assert forall i :: 0 <= i < |all| ==> all[i].name == n ==> i < |ps| && ps[i].name == n;
      assert forall i :: 0 <= i < |ps| ==> ps[i] == all[i];
    }
  }

  lemma {:induction false} AcceptedInTurnIsOneByOne(s: Store, settings: Settings, ps: seq<Parameter>)
    requires Regular(s, ps)
    ensures AllAccepted(OneByOne(s, settings, ps).1) <==> AcceptedInTurn(s, settings, ps)
    ensures AcceptedInTurn(s, settings, ps) ==> forall n :: StatusHolds(s, PutAll(s, ps), settings, ps, n)
    decreases |ps|
  {
    if ps != [] {
      var k := |ps| - 1;
      var before, p := ps[..k], ps[k];
      var t := PutAll(s, before);
      assert ps == before + [p];
      AcceptedInTurnIsOneByOne(s, settings, before);
      OneByOneAppend(s, settings, before, p);
      forall j | 0 <= j < k ensures AcceptedAt(s, settings, ps, j) <==> AcceptedAt(s, settings, before, j) {
        assert ps[..j] == before[..j];
      }
      if AcceptedInTurn(s, settings, before) {
        StatusDecides(s, t, settings, before, p);
        if AcceptedAt(s, settings, ps, k) {
          forall n ensures StatusHolds(s, PutAll(s, ps), settings, ps, n) {
            StatusStep(s, t, settings, before, p, n);
          }
        }
      } else {
        var j :| 0 <= j < k && !AcceptedAt(s, settings, before, j);
        assert !AcceptedAt(s, settings, ps, j);
      }
    }
  }

  lemma AcceptedAtOnceIsAtomic(s: Store, settings: Settings, ps: seq<Parameter>)
    ensures SetAtomically(s, settings, ps, Accepted).1 == Answer(Accepted) <==> AcceptedAtOnce(s, settings, ps)
  {
    RaisesUnlessKnown(s, settings, ps);
    ApplyAllIsPointwise(s, ps, settings.test);
    var v := ApplyAll(ps, s.descs, s.params.Keys, true, settings.test).0;
    if forall p :: p in ps ==> Known(s, settings, p) {
      assert SetAtomically(s, settings, ps, Accepted).1 == Answer(v);
    }
  }

  /** Whatever the list, committing it at once and putting it piece by piece differ in tags only. */
  lemma {:induction false} CommitsAgreeUpToTags(a: Store, b: Store, ps: seq<Parameter>)
    requires a.params == b.params && SameButTags(a.descs, b.descs)
    ensures CommitAll(a, ps, None, false).params == PutAll(b, ps).params
    ensures SameButTags(CommitAll(a, ps, None, false).descs, PutAll(b, ps).descs)
    decreases |ps|
  {
    if ps != [] {
      var a1, b1 := CommitOne(a, ps[0], None, false), PutOne(b, ps[0]);
      assert a1.params == b1.params;
      assert SameButTags(a1.descs, b1.descs);
      CommitsAgreeUpToTags(a1, b1, ps[1..]);
    }
  }

  /** Both forms succeed or neither does, and then they leave the same values, and the same
      descriptors up to the tags that checks write. */
  ghost predicate FormsAgree(s: Store, settings: Settings, ps: seq<Parameter>) {
    var (s1, o) := SetAtomically(s, settings, ps, Accepted);
    var (s2, os) := OneByOne(s, settings, ps);
    && (o == Answer(Accepted) <==> AllAccepted(os))
    && (o == Answer(Accepted) ==> s1.params == s2.params && SameButTags(s1.descs, s2.descs))
  }

  /** Main result for any list and store: the exact condition of each form, on the store before the
      call; the two forms agree if and only if these conditions do. */
  lemma FormsAgreeExactly(s: Store, settings: Settings, ps: seq<Parameter>)
    requires Regular(s, ps)
    ensures SetAtomically(s, settings, ps, Accepted).1 == Answer(Accepted) <==> AcceptedAtOnce(s, settings, ps)
    ensures AllAccepted(OneByOne(s, settings, ps).1) <==> AcceptedInTurn(s, settings, ps)
    ensures FormsAgree(s, settings, ps) <==> (AcceptedAtOnce(s, settings, ps) <==> AcceptedInTurn(s, settings, ps))
  {
    AcceptedAtOnceIsAtomic(s, settings, ps);
    AcceptedInTurnIsOneByOne(s, settings, ps);
    if AcceptedAtOnce(s, settings, ps) && AcceptedInTurn(s, settings, ps) {
      ApplyAllChecks(ps, s.descs, s.params.Keys, true, settings.test);
      var ds' := ApplyAll(ps, s.descs, s.params.Keys, true, settings.test).1;
      CommitsAgreeUpToTags(s.(descs := ds'), s, ps);
      OneByOneAppend(s, settings, ps, Parameter("", NotSet));
    }
  }

  /** Nothing is unset before the end of a list exactly if each name is in its original status
      whenever it is listed. */
  lemma {:induction false} OriginalUnlessUnset(ps: seq<Parameter>, n: string)
    ensures StatusAfter(ps, n).Original? <==> forall i :: 0 <= i < |ps| && ps[i].name == n ==> !ps[i].value.NotSet?
    decreases |ps|
  {
    if ps != [] {
      OriginalUnlessUnset(ps[..|ps| - 1], n);
    }
  }

  /** Where a name has been made anew, it was listed before while it was absent. */
  lemma {:induction false} RecreatedWasAbsent(ps: seq<Parameter>, n: string) returns (j: nat)
    requires StatusAfter(ps, n).Recreated?
    ensures j < |ps| && ps[j].name == n && StatusAfter(ps[..j], n).Absent?
    decreases |ps|
  {
    var k := |ps| - 1;
    if ps[k].name == n && StatusAfter(ps[..k], n).Absent? {
      j := k;
    } else {
      j := RecreatedWasAbsent(ps[..k], n);
      assert ps[..k][..j] == ps[..j];
    }
  }

  /** Main result: without callbacks the atomic form agrees with the one-by-one form on every list
      in which no name is listed again after it was unset; for distinct names the descriptors
      are then the same to the last tag. */
  lemma AtomicAgreesWithOneByOne(s: Store, settings: Settings, ps: seq<Parameter>)
    requires UnsetsLast(ps) && Regular(s, ps)
    ensures FormsAgree(s, settings, ps)
    ensures DistinctNames(ps) && AcceptedAtOnce(s, settings, ps) ==>
      SetAtomically(s, settings, ps, Accepted).0 == OneByOne(s, settings, ps).0
  {
    FormsAgreeExactly(s, settings, ps);
    forall j | 0 <= j < |ps|
      ensures AcceptedAt(s, settings, ps, j) <==> Known(s, settings, ps[j]) && Acceptable(s, ps[j], settings.test)
    {
      OriginalUnlessUnset(ps[..j], ps[j].name);
    }
    if AcceptedAtOnce(s, settings, ps) {
      assert forall j :: 0 <= j < |ps| ==> ps[j] in ps;
      assert AcceptedInTurn(s, settings, ps);
      OneByOneAppend(s, settings, ps, Parameter("", NotSet));
      ApplyAllIsPointwise(s, ps, settings.test);
      if DistinctNames(ps) {
        CommitAfterRetag(s, ps);
      }
    } else {
      var p :| p in ps && !(Known(s, settings, p) && Acceptable(s, p, settings.test));
      var j :| 0 <= j < |ps| && ps[j] == p;
      assert !AcceptedAt(s, settings, ps, j);
    }
  }

  /** All names of the list, declared with dynamic typing and nothing else. */
  function AllDeclared(ps: seq<Parameter>): Store {
    var names := set i | 0 <= i < |ps| :: ps[i].name;
    Store(map n | n in names :: Parameter(n, NotSet), map n | n in names :: DYNAMIC_DESCRIPTOR)
  }

  /** ... and on no others: where undeclared parameters are not allowed, the two forms agree on
      every valid store if and only if no name is listed again after it was unset. (The empty
      name is set apart because it is never reported as undeclared.) */
  lemma FormsAgreeEverywhereExactly(settings: Settings, ps: seq<Parameter>)
    requires !settings.allowUndeclared && forall p :: p in ps ==> p.name != ""
    ensures (forall s :: Valid(s, settings.test) ==> FormsAgree(s, settings, ps)) <==> UnsetsLast(ps)
  {
    if UnsetsLast(ps) {
      forall s | Valid(s, settings.test) ensures FormsAgree(s, settings, ps) {
        AtomicAgreesWithOneByOne(s, settings, ps);
      }
    } else {
      var s := AllDeclared(ps);
      assert Valid(s, settings.test);
      FormsAgreeExactly(s, settings, ps);
      forall p | p in ps ensures Known(s, settings, p) && Acceptable(s, p, settings.test) {
        var i :| 0 <= i < |ps| && ps[i] == p;
        assert p.name in s.params && p.name in s.descs;
      }
      assert AcceptedAtOnce(s, settings, ps);
      var j := ListedWhileAbsent(ps);
      assert ps[j] in ps && !AcceptedAt(s, settings, ps, j);
      assert !FormsAgree(s, settings, ps);
    }
  }

  lemma ListedWhileAbsent(ps: seq<Parameter>) returns (j: nat)
    requires !UnsetsLast(ps)
    ensures j < |ps| && StatusAfter(ps[..j], ps[j].name).Absent?
  {
    var i, k :| 0 <= i < k < |ps| && ps[i].name == ps[k].name && ps[i].value.NotSet?;
    OriginalUnlessUnset(ps[..k], ps[k].name);
    assert ps[..k][i] == ps[i];
    if StatusAfter(ps[..k], ps[k].name).Absent? {
      j := k;
    } else {
      j := RecreatedWasAbsent(ps[..k], ps[k].name);
      assert ps[..k][..j] == ps[..j];
    }
  }

  /** Where undeclared parameters are allowed the forms can disagree as well: unsetting a ranged
      dynamic parameter and then setting it out of range is refused atomically, but accepted one
      by one, because the first set drops the descriptor and with it the range. */
  lemma RepeatedNamesCanDisagree(settings: Settings)
    requires settings.allowUndeclared
    ensures exists s, ps ::
      && Valid(s, settings.test)
      && !AcceptedAtOnce(s, settings, ps) && AcceptedInTurn(s, settings, ps) && !FormsAgree(s, settings, ps)
  {
    var d := DYNAMIC_DESCRIPTOR.(integerRange := Some(IntegerRange(0, 10, 1)));
    var p, q := Parameter("a", NotSet), Parameter("a", Integer(50));
    var s := Store(map["a" := p], map["a" := d]);
    var ps := [p, q];
    assert Valid(s, settings.test);
    assert q in ps && !Acceptable(s, q, settings.test);
    assert ps[..0] == [] && ps[..1] == [p];
    assert StatusAfter([p], "a") == Absent && StatusAfter([], "a") == Original;
    assert AcceptedAt(s, settings, ps, 0) && AcceptedAt(s, settings, ps, 1);
    FormsAgreeExactly(s, settings, ps);
  }

  /** Without distinct names a replay does go wrong: a parameter set and then unset in one list is
      reported both as new and as deleted, and the replay ends up with it. */
  lemma ReplayNeedsDistinctNames(settings: Settings)
    requires settings.allowUndeclared
    ensures exists s, ps ::
      && Valid(s, settings.test)
      && var r := SetCommon(s, ps, None, false, Accepted, settings.test);
        r.verdict.Accepted? && r.event.Some? && Replay(s.params, r.event.value) != r.store.params
  {
    var s := EMPTY_STORE;
    var p, q := Parameter("a", Bool(true)), Parameter("a", NotSet);
    var ps := [p, q];
    ApplyAllIsPointwise(s, ps, settings.test);
    ReplayIsRightExactly(s, ps, Accepted, settings.test);
    assert ps[0].name == "a" && !ps[0].value.NotSet? && LastFor(ps, "a") == Some(NotSet);
    assert !ReplaysRight(s, ps, "a");
  }
}
