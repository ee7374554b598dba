/** Which tasks can still run: the other half of what Scheduling shows about the single-threaded
    executor (rclpy/executors.py with rclpy/task.py). */
module SchedulingProgress {
  import opened Options
  import opened Runs
  import opened Scheduling
  import Bags

  /** `t` is a pending task that does not wait for itself. */
  ghost predicate Hopeful(s: State, t: Id) {
    && t in s.tasks && s.IsPending(t)
    && !(t in s.awaits && s.awaits[t] == t)
  }

  ghost predicate Running(s: State, t: Id) { s.spinner == Spinner.Running(t) }

  /** The steps that end a task or make it wait. */
  predicate Touches(s: State, e: Event, t: Id) {
    match e
    case Complete(f) => f == t
    case WriteCancelled(i) => i < |s.completers| && s.completers[i].Cancelling? && s.completers[i].f == t
    case Finish => !s.spinner.Resting? && s.spinner.task == t
    case Await(_) => !s.spinner.Resting? && s.spinner.task == t
    case _ => false
  }

  /** A hopeful task stays so through every other step. */
  lemma HopeStays(s: State, e: Event, t: Id)
    requires Inv(s) && Hopeful(s, t) && Next(s, e).Some? && !Touches(s, e, t)
    ensures Inv(Next(s, e).value) && Hopeful(Next(s, e).value, t)
  {
    StepKeepsInv(s, e);
  }

  /** One more step that leaves `t` hopeful. */
  lemma Go(init: State, s: State, e: Event, t: Id) returns (s': State)
    requires Reaches(Next, init, s) && Inv(s) && Hopeful(s, t) && Next(s, e).Some? && !Touches(s, e, t)
    ensures Next(s, e) == Some(s') && Reaches(Next, init, s') && Inv(s') && Hopeful(s', t)
  {
    HopeStays(s, e, t);
    s' := Drive(Next, init, s, e);
  }

  // ----- the spinner comes to rest -----

  /** What is left of the way to rest, from one place of the spinner to the next. */
  function Distance(sp: Spinner): nat {
    match sp
    case Resting => 0
    case Requeueing(_) => 1
    case Parking(_, _) => 1
    case Suspending(_, _) => 2
    case Running(_) => 2
    case Chosen(_) => 3
    case Popped(_) => 4
  }

  /** The step that lets go of what the spinner holds. */
  function WayToRest(sp: Spinner): Event
    requires !sp.Resting?
  {
    match sp
    case Popped(_) => Examine(true)
    case Chosen(_) => Call
    case Running(_) => YieldNone
    case Suspending(_, _) => Bind
    case Parking(_, _) => Park
    case Requeueing(_) => Requeue
  }

  lemma WayIsOpen(s: State, t: Id)
    requires Inv(s) && Hopeful(s, t) && !s.spinner.Resting? && !Running(s, t)
    ensures var e := WayToRest(s.spinner);
      Next(s, e).Some? && !Touches(s, e, t) && Distance(Next(s, e).value.spinner) < Distance(s.spinner)
  {
    assert Once(s, s.spinner.task) && SpinnerCount(s.spinner, s.spinner.task) == 1;
  }

  /** Whatever the spinner holds, it can let go of it, unless it is about to run `t`. */
  lemma {:induction false} SpinnerRests(init: State, s: State, t: Id) returns (s': State)
    requires Reaches(Next, init, s) && Inv(s) && Hopeful(s, t)
    ensures Reaches(Next, init, s') && Inv(s') && Hopeful(s', t) && (Running(s', t) || s'.spinner.Resting?)
    decreases Distance(s.spinner)
  {
    s' := s;
    if !Running(s, t) && !s.spinner.Resting? {
      WayIsOpen(s, t);
      s' := Go(init, s, WayToRest(s.spinner), t);
      s' := SpinnerRests(init, s', t);
    }
  }

  // ----- the task gets its turn -----

  /** The generator takes the task off the queue and yields it, and the spinner calls it. */
  lemma HeadRuns(init: State, s: State, t: Id) returns (s': State)
    requires Reaches(Next, init, s) && Inv(s) && Hopeful(s, t) && s.spinner.Resting?
    requires s.left > 0 && s.ready != [] && s.ready[0] == t
    ensures Reaches(Next, init, s') && Running(s', t)
  {
    s' := Go(init, s, Pop, t);
    s' := Go(init, s', Examine(true), t);
    s' := Go(init, s', Call, t);
  }

  /** The generator takes another task off the queue, and forgets it or puts it back. */
  lemma HeadMakesWay(init: State, s: State, t: Id) returns (s': State)
    requires Reaches(Next, init, s) && Inv(s) && Hopeful(s, t) && s.spinner.Resting?
    requires s.left > 0 && s.ready != []
    ensures Reaches(Next, init, s') && Inv(s') && Hopeful(s', t) && s'.spinner.Resting?
    ensures s'.left == s.left - 1 && s.ready[1..] <= s'.ready
  {
    s' := Go(init, s, Pop, t);
    s' := Go(init, s', Examine(false), t);
    if s'.spinner.Requeueing? {
      s' := Go(init, s', Requeue, t);
    }
  }

  /** A queued task is reached by the pass of the generator, after those before it. */
  lemma {:induction false} PassReaches(init: State, s: State, t: Id, k: nat) returns (s': State)
    requires Reaches(Next, init, s) && Inv(s) && Hopeful(s, t) && s.spinner.Resting?
    requires k < s.left && k < |s.ready| && s.ready[k] == t
    ensures Reaches(Next, init, s') && Running(s', t)
    decreases k
  {
    if s.ready[0] == t {
      s' := HeadRuns(init, s, t);
    } else {
      s' := HeadMakesWay(init, s, t);
      assert s.ready[1..][k - 1] == t;
      s' := PassReaches(init, s', t, k - 1);
    }
  }

  lemma QueuedTaskRuns(init: State, s: State, t: Id) returns (s': State)
    requires Reaches(Next, init, s) && Inv(s) && Hopeful(s, t) && s.spinner.Resting? && t in s.ready
    ensures Reaches(Next, init, s') && Running(s', t)
  {
    s' := Go(init, s, StartPass, t);
    var k: nat :| k < |s'.ready| && s'.ready[k] == t;
    s' := PassReaches(init, s', t, k);
  }

  // ----- the task comes to the queue -----

  /** A completer that carries the task queues it. */
  lemma {:induction false} CarriedTaskIsQueued(init: State, s: State, t: Id, i: nat) returns (s': State)
    requires Reaches(Next, init, s) && Inv(s) && Hopeful(s, t) && s.spinner.Resting?
    requires i < |s.completers| && s.completers[i].Resuming? && t in s.completers[i].rest
    ensures Reaches(Next, init, s') && Inv(s') && Hopeful(s', t) && s'.spinner.Resting? && t in s'.ready
    decreases |s.completers[i].rest|
  {
    var c := s.completers[i];
    assert CompleterOk(s, c);
    s' := Go(init, s, HandOne(i), t);
    if c.rest[0] == t {
      assert s'.ready[|s.ready|] == t;
    } else {
      s' := CarriedTaskIsQueued(init, s', t, i);
    }
  }

  /** A task parked on another future is carried once that future is complete. */
  lemma ParkedTaskIsQueued(init: State, s: State, t: Id, f: Id) returns (s': State)
    requires Reaches(Next, init, s) && Inv(s) && Hopeful(s, t) && s.spinner.Resting?
    requires f < |s.futs| && t in s.futs[f].callbacks
    ensures Reaches(Next, init, s') && Inv(s') && Hopeful(s', t) && s'.spinner.Resting? && t in s'.ready
  {
    assert FutureOk(s, f) && f != t;
    s' := s;
    if s.IsPending(f) {
      s' := Go(init, s, Complete(f), t);
      assert s'.completers[|s.completers|] == Written(f);
    }
    var i: nat :| i < |s'.completers| && s'.completers[i] == Written(f);
    s' := Go(init, s', Swap(i), t);
    s' := CarriedTaskIsQueued(init, s', t, i);
  }

  lemma TaskIsQueued(init: State, s: State, t: Id) returns (s': State)
    requires Reaches(Next, init, s) && Inv(s) && Hopeful(s, t) && s.spinner.Resting?
    ensures Reaches(Next, init, s') && Inv(s') && Hopeful(s', t) && s'.spinner.Resting? && t in s'.ready
  {
    assert Once(s, t);
    if t in s.ready {
      s' := s;
    } else if t in s.creating {
      s' := Go(init, s, Enqueue(t), t);
      assert s'.ready[|s.ready|] == t;
    } else if TransitCount(s.completers, t) > 0 {
      var i := Bags.WitnessOfTotal(Loads(s.completers), t);
      assert Loads(s.completers)[i] == s.completers[i].Carries();
      s' := CarriedTaskIsQueued(init, s, t, i);
    } else {
      assert multiset(s.ready)[t] == 0;
      var f := Bags.WitnessOfTotal(Parked(s.futs), t);
      assert Parked(s.futs)[f] == multiset(s.futs[f].callbacks);
      s' := ParkedTaskIsQueued(init, s, t, f);
    }
  }

  // ----- the task that cannot -----

  /** It is over, or waits for itself, and does not run now. */
  ghost predicate Lost(s: State, t: Id) {
    && t < |s.futs| && !Running(s, t)
    && (!s.IsPending(t) || (t in s.awaits && s.awaits[t] == t))
  }

  lemma StepKeepsLost(s: State, e: Event, t: Id)
    requires Inv(s) && Lost(s, t) && Next(s, e).Some?
    ensures Lost(Next(s, e).value, t)
  {
  }

  lemma {:induction false} LostForEver(s: State, t: Id, es: seq<Event>)
    requires Inv(s) && Lost(s, t) && Exec(Next, s, es).Some?
    ensures !Running(Exec(Next, s, es).value, t)
    decreases |es|
  {
    if es != [] {
      StepKeepsInv(s, es[0]);
      StepKeepsLost(s, es[0], t);
      LostForEver(Next(s, es[0]).value, t, es[1..]);
    }
  }

  /** Main result on progress: in every reachable state a task has a continuation in which it runs if
      and only if it is running already, or it is pending and does not wait for itself. */
  lemma RunsLaterExactly(es: seq<Event>, t: Id)
    requires Exec(Next, EMPTY, es).Some? && t in Exec(Next, EMPTY, es).value.tasks
    ensures var s := Exec(Next, EMPTY, es).value;
      (exists s' :: Reaches(Next, s, s') && Running(s', t)) <==>
        Running(s, t) || (s.IsPending(t) && !(t in s.awaits && s.awaits[t] == t))
  {
    var s := Exec(Next, EMPTY, es).value;
    ReachableInv(es);
    ReachesStart(Next, s);
    if Running(s, t) {
    } else if Hopeful(s, t) {
      var s' := SpinnerRests(s, s, t);
      if !Running(s', t) {
        s' := TaskIsQueued(s, s', t);
        s' := QueuedTaskRuns(s, s', t);
      }
    } else {
      forall s' | Reaches(Next, s, s') ensures !Running(s', t) {
        var fs :| Exec(Next, s, fs) == Some(s');
        LostForEver(s, t, fs);
      }
    }
  }
}
