/** Runs of a state machine. A machine is a partial step function: `next(s, e)` is the
    state after event `e`, or None when `e` cannot happen in `s`. All nondeterminism of the
    modelled program (thread interleaving, middleware, user code) sits in the choice of events. */
module Runs {
  import opened Options

  /** The state reached from `s` by the events `es`, or None when some event is not possible. */
  function Exec<S, E>(next: (S, E) -> Option<S>, s: S, es: seq<E>): Option<S> {
    if es == [] then Some(s)
    else match next(s, es[0])
      case None => None
      case Some(s') => Exec(next, s', es[1..])
  }

  /** An inductive invariant holds at the end of every run, hence at every point of every run. */
  lemma {:induction false} InvariantOfRuns<S(!new), E(!new)>(next: (S, E) -> Option<S>, inv: S -> bool, s: S, es: seq<E>)
    requires inv(s)
    requires forall s, e :: inv(s) && next(s, e).Some? ==> inv(next(s, e).value)
    ensures Exec(next, s, es).Some? ==> inv(Exec(next, s, es).value)
  {
    if es != [] && next(s, es[0]).Some? {
      InvariantOfRuns(next, inv, next(s, es[0]).value, es[1..]);
    }
  }

  lemma ExecCons<S, E>(next: (S, E) -> Option<S>, s: S, e: E, es: seq<E>)
    requires next(s, e).Some?
    ensures Exec(next, s, [e] + es) == Exec(next, next(s, e).value, es)
  {
    assert ([e] + es)[1..] == es;
  }

  /** Two consecutive runs are one run. */
  lemma {:induction false} ExecConcat<S, E>(next: (S, E) -> Option<S>, s: S, es: seq<E>, fs: seq<E>)
    requires Exec(next, s, es).Some?
    ensures Exec(next, s, es + fs) == Exec(next, Exec(next, s, es).value, fs)
  {
    if es == [] {
      assert es + fs == fs;
    } else {
      assert (es + fs)[1..] == es[1..] + fs;
      ExecConcat(next, next(s, es[0]).value, es[1..], fs);
    }
  }

  /** A run with one more step. */
  lemma Grow<S, E>(next: (S, E) -> Option<S>, init: S, es: seq<E>, s: S, e: E) returns (es': seq<E>, s': S)
    requires Exec(next, init, es) == Some(s) && next(s, e).Some?
    ensures es' == es + [e] && next(s, e) == Some(s') && Exec(next, init, es') == Some(s')
  {
    ExecConcat(next, init, es, [e]);
    assert [e][1..] == [];
    es', s' := es + [e], next(s, e).value;
  }

  /** `s` is the end of some run from `init`. */
  ghost predicate Reaches<S(!new), E(!new)>(next: (S, E) -> Option<S>, init: S, s: S) {
    exists es :: Exec(next, init, es) == Some(s)
  }

  lemma ReachesStart<S(!new), E(!new)>(next: (S, E) -> Option<S>, init: S)
    ensures Reaches(next, init, init)
  {
    assert Exec(next, init, []) == Some(init);
  }

  /** One more step of a run. */
  lemma Drive<S(!new), E(!new)>(next: (S, E) -> Option<S>, init: S, s: S, e: E) returns (s': S)
    requires Reaches(next, init, s) && next(s, e).Some?
    ensures next(s, e) == Some(s') && Reaches(next, init, s')
  {
    ReachesNext(next, init, s, e);
    s' := next(s, e).value;
  }

  lemma ReachesNext<S(!new), E(!new)>(next: (S, E) -> Option<S>, init: S, s: S, e: E)
    requires Reaches(next, init, s) && next(s, e).Some?
    ensures Reaches(next, init, next(s, e).value)
  {
    var es :| Exec(next, init, es) == Some(s);
    ExecConcat(next, init, es, [e]);
    assert [e][1..] == [];
    assert Exec(next, init, es + [e]) == next(s, e);
  }
}
