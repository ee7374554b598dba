/** The work tracker that shutdown waits on (_WorkTracker, rclpy/executors.py:90-197).

    `Core` is what its condition variable protects and the functions on it are the lock regions.
    `Tracker` performs them in place; `Next` interleaves any number of threads, with threads
    asleep on the condition variable until they are notified or time out. */
module WorkTracking {
  import opened Options
  import opened Runs

  type Thread = nat

  /** `counts` is _executing_thread_counts, `waiting` is _waiting_threads. */
  datatype Core = Core(counts: map<Thread, nat>, waiting: set<Thread>) {
    /** other_work_drained: every thread with work in flight is committed to finishing. */
    predicate Drained() { counts.Keys <= waiting }

    function Count(t: Thread): nat { if t in counts then counts[t] else 0 }

    function Enter(t: Thread): Core { this.(counts := counts[t := Count(t) + 1]) }

    function Leave(owner: Thread): Core
      requires owner in counts && counts[owner] > 0
    {
      if counts[owner] == 1 then Core(counts - {owner}, waiting - {owner})
      else this.(counts := counts[owner := counts[owner] - 1])
    }

    function Join(t: Thread): Core { this.(waiting := waiting + {t}) }

    /** The finally-block of wait. */
    function Part(t: Thread, added: bool, drained: bool): Core {
      if added && (!drained || t !in counts) then this.(waiting := waiting - {t}) else this
    }
  }

  class Tracker {
    var counts: map<Thread, nat>
    var waiting: set<Thread>

    function Contents(): Core reads this { Core(counts, waiting) }

    constructor ()
      ensures Contents() == Core(map[], {})
    {
      counts, waiting := map[], {};
    }

    method Enter(t: Thread)
      modifies this
      ensures Contents() == old(Contents()).Enter(t)
    {
      counts := counts[t := (if t in counts then counts[t] else 0) + 1];
    }

    /** Ends a context on behalf of the thread that opened it, whichever thread runs this. */
    method Leave(owner: Thread)
      requires owner in counts && counts[owner] > 0
      modifies this
      ensures Contents() == old(Contents()).Leave(owner)
    {
      var count := counts[owner] - 1;
      if count == 0 {
        counts := counts - {owner};
        waiting := waiting - {owner};
      } else {
        counts := counts[owner := count];
      }
    }

    method BeginWait(t: Thread) returns (added: bool)
      modifies this
      ensures added <==> t !in old(waiting)
      ensures Contents() == old(Contents()).Join(t)
    {
      added := t !in waiting;
      if added {
        waiting := waiting + {t};
      }
      assert waiting == old(waiting) + {t};
    }

    method CheckDrained() returns (drained: bool)
      ensures drained <==> Contents().Drained()
    {
      drained := counts.Keys <= waiting;
    }

    method EndWait(t: Thread, added: bool, drained: bool)
      modifies this
      ensures Contents() == old(Contents()).Part(t, added, drained)
    {
      if added && (!drained || t !in counts) {
        waiting := waiting - {t};
      }
    }
  }

  /** A thread inside wait. `asleep`: it has found work and sleeps on the condition variable;
      otherwise it is about to look (again). */
  datatype Frame = Frame(added: bool, asleep: bool)

  /** The last three fields are history. `open` lists the owners of all contexts ever entered, None
      once the context is closed; `outcome` is the answer of the last wait of each thread;
      `committed` holds the threads with open contexts one of whose waits has answered True since
      the first of these contexts was entered. */
  datatype State = State(
    core: Core, inside: map<Thread, Frame>,
    open: seq<Option<Thread>>, outcome: map<Thread, bool>, committed: set<Thread>)

  datatype Event =
    | Enter(t: Thread)
    | Leave(context: nat)   // on any thread, e.g. a coroutine closed by the garbage collector
    | BeginWait(t: Thread)
    | Look(t: Thread)       // evaluates the predicate: returns True or goes to sleep
    | TimeOut(t: Thread)    // evaluates it one last time and returns its value

  const INITIAL := State(Core(map[], {}), map[], [], map[], {})

  /** notify_all. */
  function WakeAll(inside: map<Thread, Frame>): map<Thread, Frame> {
    map t | t in inside :: inside[t].(asleep := false)
  }

  function Return(s: State, t: Thread, drained: bool): State
    requires t in s.inside
  {
    var added := s.inside[t].added;
    var core' := s.core.Part(t, added, drained);
    var rest := s.inside - {t};
    s.(core := core', outcome := s.outcome[t := drained],
       committed := if drained && s.core.Count(t) > 0 then s.committed + {t} else s.committed,
       inside := if added && (!drained || t !in s.core.counts) then WakeAll(rest) else rest)
  }

  function Next(s: State, e: Event): Option<State> {
    match e
    case Enter(t) =>
      if t in s.inside then None
      else Some(s.(core := s.core.Enter(t), open := s.open + [Some(t)]))
    case Leave(i) =>
      if i < |s.open| && s.open[i].Some? && s.core.Count(s.open[i].value) > 0 then
        var t := s.open[i].value;
        Some(s.(core := s.core.Leave(t), open := s.open[i := None], inside := WakeAll(s.inside),
                committed := if s.core.Count(t) == 1 then s.committed - {t} else s.committed))
      else None
    case BeginWait(t) =>
      if t in s.inside then None
      else
        var added := t !in s.core.waiting;
        var inside' := if added then WakeAll(s.inside) else s.inside;
        Some(s.(core := s.core.Join(t), inside := inside'[t := Frame(added, false)]))
    case Look(t) =>
      if t in s.inside && !s.inside[t].asleep then
        if s.core.Drained() then Some(Return(s, t, true))
        else Some(s.(inside := s.inside[t := s.inside[t].(asleep := true)]))
      else None
    case TimeOut(t) =>
      if t in s.inside && s.inside[t].asleep then Some(Return(s, t, s.core.Drained())) else None
  }

  /** Contexts that `t` opened and nobody closed yet. */
  function OpenOf(open: seq<Option<Thread>>, t: Thread): nat {
    if open == [] then 0 else (if open[0] == Some(t) then 1 else 0) + OpenOf(open[1..], t)
  }

  lemma {:induction false} OpenOfAppend(open: seq<Option<Thread>>, o: Option<Thread>, t: Thread)
    ensures OpenOf(open + [o], t) == OpenOf(open, t) + (if o == Some(t) then 1 else 0)
  {
    if open == [] {
      assert open + [o] == [o];
    } else {
      assert (open + [o])[1..] == open[1..] + [o];
      OpenOfAppend(open[1..], o, t);
    }
  }

  lemma {:induction false} OpenOfClose(open: seq<Option<Thread>>, i: nat, t: Thread)
    requires i < |open|
    ensures OpenOf(open[i := None], t) == OpenOf(open, t) - (if open[i] == Some(t) then 1 else 0)
  {
    if i == 0 {
      assert open[0 := None][1..] == open[1..];
    } else {
      assert open[i := None][1..] == open[1..][i - 1 := None];
      OpenOfClose(open[1..], i - 1, t);
    }
  }

  lemma {:induction false} OpenOfPositive(open: seq<Option<Thread>>, i: nat, t: Thread)
    requires i < |open| && open[i] == Some(t)
    ensures OpenOf(open, t) > 0
  {
    if i > 0 {
      OpenOfPositive(open[1..], i - 1, t);
    }
  }

  ghost predicate Inv(s: State) {
    && (forall t :: s.core.Count(t) == OpenOf(s.open, t))
    && (forall t :: t in s.core.counts ==> s.core.counts[t] > 0)
    && (forall t :: t in s.inside && t in s.core.counts ==> t in s.core.waiting)
    && (s.core.Drained() ==> forall t :: t in s.inside ==> !s.inside[t].asleep)
    && (forall t :: WaitsRightly(s, t))
  }

  /** A thread with open contexts is a waiter exactly while it is inside wait or committed; one
      without is a waiter only inside. A wait that joined belongs to a thread not committed before. */
  ghost predicate WaitsRightly(s: State, t: Thread) {
    && (t in s.core.counts ==> (t in s.core.waiting <==> t in s.inside || t in s.committed))
    && (t !in s.core.counts && t in s.core.waiting ==> t in s.inside && s.inside[t].added)
    && (t in s.committed ==> t in s.core.counts)
    && (t in s.inside && s.inside[t].added ==> t !in s.committed)
    && (t in s.inside && !s.inside[t].added && t in s.core.counts ==> t in s.committed)
  }

  lemma StepKeepsWaits(s: State, e: Event, t: Thread)
    requires Inv(s) && Next(s, e).Some?
    ensures WaitsRightly(Next(s, e).value, t)
  {
    assert WaitsRightly(s, t);
  }

  lemma StepKeepsInv(s: State, e: Event)
    requires Inv(s) && Next(s, e).Some?
    ensures Inv(Next(s, e).value)
  {
    var s' := Next(s, e).value;
    forall t ensures s'.core.Count(t) == OpenOf(s'.open, t) {
      match e
      case Enter(u) => OpenOfAppend(s.open, Some(u), t);
      case Leave(i) => OpenOfClose(s.open, i, t);
      case _ =>
    }
    forall t { StepKeepsWaits(s, e, t); }
  }

  lemma ReachableInv(es: seq<Event>)
    requires Exec(Next, INITIAL, es).Some?
    ensures Inv(Exec(Next, INITIAL, es).value)
  {
    forall s, e | Inv(s) && Next(s, e).Some? ensures Inv(Next(s, e).value) { StepKeepsInv(s, e); }
    InvariantOfRuns(Next, Inv, INITIAL, es);
  }

  /** In every run: the count of a thread is the number of its contexts still open, even when
      they are closed by other threads, and it has an entry exactly while there are some, so
      the lookup that closes a context cannot fail; and a waiter is never asleep while the
      condition it waits for holds, i.e. no notification is missing. */
  lemma CountsAreExactAndNoWakeupIsLost(es: seq<Event>)
    requires Exec(Next, INITIAL, es).Some?
    ensures var s := Exec(Next, INITIAL, es).value;
      && (forall t :: s.core.Count(t) == OpenOf(s.open, t) && (t in s.core.counts <==> OpenOf(s.open, t) > 0))
      && (forall i :: 0 <= i < |s.open| && s.open[i].Some? ==> Next(s, Leave(i)).Some?)
      && (s.core.Drained() ==> forall t :: t in s.inside ==> !s.inside[t].asleep)
  {
    ReachableInv(es);
    var s := Exec(Next, INITIAL, es).value;
    forall i | 0 <= i < |s.open| && s.open[i].Some? ensures Next(s, Leave(i)).Some? {
      OpenOfPositive(s.open, i, s.open[i].value);
    }
    forall t ensures t in s.core.counts <==> OpenOf(s.open, t) > 0 {
      assert s.core.Count(t) == OpenOf(s.open, t);
    }
  }

  /** A thread has become committed, and still is, exactly if a wait of it has answered True and
      its contexts have not all been closed. */
  lemma CommittedByASuccessfulWait(s: State, e: Event, t: Thread)
    requires Inv(s) && Next(s, e).Some?
    ensures var s' := Next(s, e).value;
      t in s'.committed <==>
        OpenOf(s'.open, t) > 0 && (t in s.committed || (t in s.inside && t !in s'.inside && s'.outcome[t]))
  {
    StepKeepsInv(s, e);
    assert WaitsRightly(s, t) && WaitsRightly(Next(s, e).value, t);
    assert Next(s, e).value.core.Count(t) == OpenOf(Next(s, e).value.open, t);
  }

  /** The threads that a wait has no need to wait for. */
  predicate Finishing(s: State, t: Thread) { t in s.inside || t in s.committed }

  /** Main result on who counts as waiting: in every run, a thread with open contexts is a waiter
      exactly if it is inside wait or committed to finishing, and a thread without is one only
      while it is inside. So membership is given up by a wait that failed or that no context
      outlives, and by nothing else. */
  lemma WaitersAreFinishing(es: seq<Event>, t: Thread)
    requires Exec(Next, INITIAL, es).Some?
    ensures var s := Exec(Next, INITIAL, es).value;
      && (OpenOf(s.open, t) > 0 ==> (t in s.core.waiting <==> Finishing(s, t)))
      && (OpenOf(s.open, t) == 0 && t in s.core.waiting ==> t in s.inside)
  {
    ReachableInv(es);
    var s := Exec(Next, INITIAL, es).value;
    assert WaitsRightly(s, t) && s.core.Count(t) == OpenOf(s.open, t);
  }

  /** Main result on the answer of a wait: it is True if and only if every thread with open contexts
      is inside wait or committed to finishing; a wait that has joined and fails leaves no waiter
      behind, and one that succeeds leaves one exactly if a context of its thread is still open. */
  lemma WaitAnswersExactly(es: seq<Event>, e: Event)
    requires Exec(Next, INITIAL, es).Some? && (e.Look? || e.TimeOut?)
    requires Next(Exec(Next, INITIAL, es).value, e).Some?
    ensures var s := Exec(Next, INITIAL, es).value;
      var s' := Next(s, e).value;
      var othersFinishing := forall u :: OpenOf(s.open, u) > 0 ==> Finishing(s, u);
      && (e.TimeOut? || othersFinishing ==> e.t !in s'.inside && e.t in s'.outcome)
      && (e.t !in s'.inside ==> (s'.outcome[e.t] <==> othersFinishing))
      && (e.t !in s'.inside && !s'.outcome[e.t] && s.inside[e.t].added ==> e.t !in s'.core.waiting)
      && (e.t !in s'.inside && s'.outcome[e.t] ==> (e.t in s'.core.waiting <==> OpenOf(s.open, e.t) > 0))
  {
    var s := Exec(Next, INITIAL, es).value;
    ReachableInv(es);
    StepKeepsInv(s, e);
    forall u ensures u in s.core.counts <==> OpenOf(s.open, u) > 0 { assert s.core.Count(u) == OpenOf(s.open, u); }
    DrainedIsFinishing(s);
    assert WaitsRightly(s, e.t) && WaitsRightly(Next(s, e).value, e.t);
  }

  lemma DrainedIsFinishing(s: State)
    requires Inv(s)
    ensures s.core.Drained() <==> forall u :: OpenOf(s.open, u) > 0 ==> Finishing(s, u)
  {
    forall u
      ensures u in s.core.counts.Keys <==> OpenOf(s.open, u) > 0
      ensures u in s.core.counts ==> (u in s.core.waiting <==> Finishing(s, u))
    {
      assert s.core.Count(u) == OpenOf(s.open, u) && WaitsRightly(s, u);
    }
  }

  /** Work that starts on a thread which is not committed to finishing. */
  predicate NewWork(s: State, e: Event) { e.Enter? && e.t !in s.core.waiting }

  /** "Drained" survives every step but the start of new work, and only that step ends it. */
  lemma DrainedIsStable(s: State, e: Event)
    requires Inv(s) && Next(s, e).Some? && s.core.Drained()
    ensures Next(s, e).value.core.Drained() <==> !NewWork(s, e)
  {
    var s' := Next(s, e).value;
    if NewWork(s, e) {
      assert e.t in s'.core.counts.Keys && e.t !in s'.core.waiting;
    }
  }

  ghost predicate NoNewWork(s: State, es: seq<Event>)
    decreases |es|
  {
    es == [] || (!NewWork(s, es[0]) && (Next(s, es[0]).Some? ==> NoNewWork(Next(s, es[0]).value, es[1..])))
  }

  /** From a drained state and without new work, every wait that ends answers True, timeouts
      included. */
  lemma {:induction false} DrainedWaitsSucceed(s: State, es: seq<Event>)
    requires Inv(s) && s.core.Drained() && NoNewWork(s, es) && Exec(Next, s, es).Some?
    ensures var s' := Exec(Next, s, es).value;
      && s'.core.Drained()
      && (forall t :: t in s.outcome ==> t in s'.outcome)
      && (forall t :: t in s.inside && t !in s'.inside ==> t in s'.outcome && s'.outcome[t])
      && (forall t :: t in s'.outcome && (t in s.outcome ==> s.outcome[t]) ==> s'.outcome[t])
    decreases |es|
  {
    if es != [] {
      var s1 := Next(s, es[0]).value;
      DrainedIsStable(s, es[0]);
      StepKeepsInv(s, es[0]);
      DrainedWaitsSucceed(s1, es[1..]);
    }
  }

  /** When every thread with work in flight is itself inside wait, the tracker is drained:
      callbacks on several workers that all call shutdown do not block each other. */
  lemma MutualWaitersAreDrained(s: State)
    requires Inv(s)
    requires forall t :: t in s.core.counts ==> t in s.inside
    ensures s.core.Drained()
  {
    forall t | t in s.core.counts.Keys ensures t in s.core.waiting {
      assert t in s.core.counts;
    }
  }

  /** ... and from there all of them can return, one look each, all with True. */
  lemma {:induction false} AllWaitersReturn(s: State, threads: seq<Thread>)
    requires Inv(s) && s.core.Drained()
    requires forall t :: t in threads <==> t in s.inside
    requires forall i, j :: 0 <= i < j < |threads| ==> threads[i] != threads[j]
    ensures var es := seq(|threads|, i requires 0 <= i < |threads| => Look(threads[i]));
      && Exec(Next, s, es).Some?
      && Exec(Next, s, es).value.inside == map[]
      && forall t :: t in threads ==> t in Exec(Next, s, es).value.outcome && Exec(Next, s, es).value.outcome[t]
    decreases |threads|
  {
    var es := seq(|threads|, i requires 0 <= i < |threads| => Look(threads[i]));
    if threads == [] {
      assert s.inside.Keys == {};
    } else {
      var t := threads[0];
      assert t in threads;
      var s1 := Return(s, t, true);
      assert Next(s, Look(t)) == Some(s1);
      DrainedIsStable(s, Look(t));
      StepKeepsInv(s, Look(t));
      assert forall u :: u in threads[1..] <==> u in s1.inside;
      AllWaitersReturn(s1, threads[1..]);
      var fs := seq(|threads[1..]|, i requires 0 <= i < |threads[1..]| => Look(threads[1..][i]));
      assert es[1..] == fs;
      OutcomesStay(s1, fs, t);
    }
  }

  /** Looks by other threads do not touch the answer a thread already has. */
  lemma {:induction false} OutcomesStay(s: State, es: seq<Event>, t: Thread)
    requires t !in s.inside && t in s.outcome
    requires forall e :: e in es ==> e.Look?
    ensures Exec(Next, s, es).Some? ==>
      t in Exec(Next, s, es).value.outcome && Exec(Next, s, es).value.outcome[t] == s.outcome[t]
    decreases |es|
  {
    if es != [] && Next(s, es[0]).Some? {
      assert es[0] in es;
      OutcomesStay(Next(s, es[0]).value, es[1..], t);
    }
  }

  /** Main result: in any reachable state in which all threads with callbacks in flight are inside
      wait (other threads may be waiting too), nobody sleeps, no waiter can be told False, and
      the waiters can leave in any order, each with True, without any further event. */
  lemma ConcurrentWaitersDoNotDeadlock(es: seq<Event>, threads: seq<Thread>)
    requires Exec(Next, INITIAL, es).Some?
    requires var s := Exec(Next, INITIAL, es).value;
      && (forall t :: t in s.core.counts ==> t in s.inside)
      && (forall t :: t in threads <==> t in s.inside)
      && (forall i, j :: 0 <= i < j < |threads| ==> threads[i] != threads[j])
    ensures var s := Exec(Next, INITIAL, es).value;
      var looks := seq(|threads|, i requires 0 <= i < |threads| => Look(threads[i]));
      && (forall t :: t in s.inside ==> !s.inside[t].asleep)
      && Exec(Next, s, looks).Some?
      && Exec(Next, s, looks).value.inside == map[]
      && forall t :: t in threads ==> t in Exec(Next, s, looks).value.outcome && Exec(Next, s, looks).value.outcome[t]
  {
    var s := Exec(Next, INITIAL, es).value;
    ReachableInv(es);
    MutualWaitersAreDrained(s);
    AllWaitersReturn(s, threads);
  }
}
