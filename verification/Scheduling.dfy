/** The single-threaded executor with any number of tasks and futures, the futures being
    completed or cancelled from any thread (rclpy/executors.py with rclpy/task.py).

    Tasks come from create_task, through the deque, and from _make_handler, which yields the
    handler of a ready entity to the spinner directly. Tasks are futures; both are numbered by
    their index in `futs`. The spinner is the one thread that spins; completers are calls to
    cancel, set_result or set_exception in flight on any thread, including the one with which a
    finished task completes itself. */
module Scheduling {
  import opened Options
  import opened Runs
  import Futures
  import Bags

  type Id = nat

  type Fut = Futures.View<Id>

  function Unset(bound: bool): Fut { Futures.View(Futures.Pending, [], bound) }

  datatype Completer =
    | Cancelling(f: Id)                            // checked, status not yet written
    | Written(f: Id)                               // status written, list not yet swapped
    | Resuming(f: Id, rest: seq<Id>, alive: bool)  // handing over the swapped list
    | Over
  {
    function Carries(): multiset<Id> {
      if Resuming? then multiset(rest) else multiset{}
    }
  }

  datatype Spinner =
    | Resting
    | Popped(task: Id)               // off the deque, not yet looked at
    | Chosen(task: Id)               // yielded by the generator, about to be called
    | Running(task: Id)              // inside coro.send
    | Suspending(task: Id, on: Id)   // the coroutine yielded a future
    | Parking(task: Id, on: Id)      // that future is bound to the executor
    | Requeueing(task: Id)           // about to be appended to the deque

  /** Errors the code can raise or report if its own reasoning is wrong. */
  datatype Fault = PopFromEmptyDeque | TaskNotPending | AwaitedASecondTime | TaskDropped

  datatype State = State(
    futs: seq<Fut>,
    tasks: set<Id>,
    registered: set<Id>,     // keys of _pending_tasks
    creating: set<Id>,       // registered by create_task, not yet appended
    ready: seq<Id>,          // _ready_tasks
    completers: seq<Completer>,
    spinner: Spinner,
    left: nat,               // pops the paused generator pass still intends to make
    awaits: map<Id, Id>,     // future a suspended coroutine is waiting for
    faults: set<Fault>)
  {
    predicate IsPending(f: Id) { f < |futs| && futs[f].IsPending() }
  }

  datatype Event =
    | NewFuture(bound: bool)
    | BindFuture(f: Id)     // a handler associates the future of a client or waitable
    | CreateTask
    | Enqueue(task: Id)
    | BeginCancel(f: Id)
    | WriteCancelled(op: nat)
    | Complete(f: Id)
    | Swap(op: nat)
    | HandOne(op: nat)
    | StartPass
    | MakeHandler           // the generator yields the handler of a ready entity
    | Pop
    | Examine(wanted: bool)
    | Call
    | Finish
    | Await(f: Id)
    | Bind
    | Park
    | YieldNone
    | Requeue

  const EMPTY := State([], {}, {}, {}, [], [], Resting, 0, map[], {})

  function AddFuture(s: State, bound: bool): State {
    s.(futs := s.futs + [Unset(bound)])
  }

  /** _set_executor with the one executor there is. */
  function BindTo(s: State, f: Id): State
    requires f < |s.futs|
  {
    s.(futs := s.futs[f := s.futs[f].Bind()])
  }

  /** Task construction and its entry in _pending_tasks; the append is a later lock region. */
  function AddTask(s: State): State {
    var t := |s.futs|;
    AddFuture(s, true).(tasks := s.tasks + {t}, registered := s.registered + {t}, creating := s.creating + {t})
  }

  /** _make_handler: a task that is entered in _pending_tasks and yielded to the spinner at once,
      without passing through the deque. The generator gets there after its last pop. */
  function YieldHandler(s: State): State {
    var t := |s.futs|;
    AddFuture(s, true).(tasks := s.tasks + {t}, registered := s.registered + {t}, spinner := Chosen(t))
  }

  function AppendCreated(s: State, t: Id): State {
    s.(creating := s.creating - {t}, ready := s.ready + [t])
  }

  function MarkCancelled(s: State, i: nat): State
    requires i < |s.completers| && s.completers[i].Cancelling? && s.completers[i].f < |s.futs|
  {
    var f := s.completers[i].f;
    s.(futs := s.futs[f := s.futs[f].CancelWrite()], completers := s.completers[i := Written(f)])
  }

  function MarkFinished(s: State, f: Id): State
    requires f < |s.futs|
  {
    s.(futs := s.futs[f := s.futs[f].Finish()], completers := s.completers + [Written(f)])
  }

  function SwapList(s: State, i: nat): State
    requires i < |s.completers| && s.completers[i].Written? && s.completers[i].f < |s.futs|
  {
    var f := s.completers[i].f;
    s.(futs := s.futs[f := s.futs[f].Swapped()],
       completers := s.completers[i := Resuming(f, s.futs[f].callbacks, s.futs[f].bound)])
  }

  function ResumeOne(s: State, i: nat): State
    requires i < |s.completers| && s.completers[i].Resuming?
  {
    var c := s.completers[i];
    if c.rest == [] then s.(completers := s.completers[i := Over])
    else
      var s1 := s.(completers := s.completers[i := Resuming(c.f, c.rest[1..], c.alive)]);
      if c.alive then s1.(ready := s1.ready + [c.rest[0]]) else s1.(faults := s1.faults + {TaskDropped})
  }

  /** Start of a generator pass: tasks that are over are forgotten, the deque is measured. */
  function BeginPass(s: State): State {
    s.(registered := (set t | t in s.registered && s.IsPending(t)), left := |s.ready|)
  }

  function PopLeft(s: State): State
    requires s.left > 0
  {
    if s.ready == [] then s.(faults := s.faults + {PopFromEmptyDeque})
    else s.(spinner := Popped(s.ready[0]), ready := s.ready[1..], left := s.left - 1)
  }

  function LookAt(s: State, t: Id, wanted: bool): State {
    if !s.IsPending(t) then s.(spinner := Resting)
    else if t !in s.registered then s.(faults := s.faults + {TaskNotPending})
    else s.(spinner := if wanted then Chosen(t) else Requeueing(t))
  }

  /** Task.__call__ up to coro.send: the coroutine resumes inside the await that suspended it,
      which first checks that the future is no longer pending. */
  function CallTask(s: State, t: Id): State {
    if !s.IsPending(t) then s.(spinner := Resting)
    else
      var s1 := s.(spinner := Running(t), awaits := s.awaits - {t});
      if t in s.awaits && s.IsPending(s.awaits[t]) then s1.(faults := s1.faults + {AwaitedASecondTime}) else s1
  }

  function ParkTask(s: State, t: Id, f: Id): State
    requires f < |s.futs|
  {
    var s1 := s.(spinner := Resting, futs := s.futs[f := s.futs[f].Listen(t)]);
    if s.IsPending(f) then s1
    else if s.futs[f].bound then s1.(ready := s1.ready + [t])
    else s1.(faults := s1.faults + {TaskDropped})
  }

  function Next(s: State, e: Event): Option<State> {
    match e
    case NewFuture(b) => Some(AddFuture(s, b))
    case BindFuture(f) => if f < |s.futs| then Some(BindTo(s, f)) else None
    case CreateTask => Some(AddTask(s))
    case Enqueue(t) => if t in s.creating then Some(AppendCreated(s, t)) else None
    case BeginCancel(f) =>
      if s.IsPending(f) then Some(s.(completers := s.completers + [Cancelling(f)])) else None
    case WriteCancelled(i) =>
      if i < |s.completers| && s.completers[i].Cancelling? && s.completers[i].f < |s.futs|
      then Some(MarkCancelled(s, i)) else None
    case Complete(f) => if f < |s.futs| then Some(MarkFinished(s, f)) else None
    case Swap(i) =>
      if i < |s.completers| && s.completers[i].Written? && s.completers[i].f < |s.futs|
      then Some(SwapList(s, i)) else None
    case HandOne(i) =>
      if i < |s.completers| && s.completers[i].Resuming? then Some(ResumeOne(s, i)) else None
    case StartPass => if s.spinner.Resting? then Some(BeginPass(s)) else None
    case MakeHandler => if s.spinner.Resting? && s.left == 0 then Some(YieldHandler(s)) else None
    case Pop => if s.spinner.Resting? && s.left > 0 then Some(PopLeft(s)) else None
    case Examine(wanted) => if s.spinner.Popped? then Some(LookAt(s, s.spinner.task, wanted)) else None
    case Call => if s.spinner.Chosen? then Some(CallTask(s, s.spinner.task)) else None
    case Finish =>
      if s.spinner.Running? && s.spinner.task < |s.futs|
      then Some(MarkFinished(s, s.spinner.task).(spinner := Resting)) else None
    case Await(f) =>
      if s.spinner.Running? && s.IsPending(f)
      then Some(s.(spinner := Suspending(s.spinner.task, f), awaits := s.awaits[s.spinner.task := f])) else None
    case Bind =>
      if s.spinner.Suspending? && s.spinner.on < |s.futs| then
        var f := s.spinner.on;
        Some(BindTo(s, f).(spinner := Parking(s.spinner.task, f)))
      else None
    case Park =>
      if s.spinner.Parking? && s.spinner.on < |s.futs|
      then Some(ParkTask(s, s.spinner.task, s.spinner.on)) else None
    case YieldNone => if s.spinner.Running? then Some(s.(spinner := Requeueing(s.spinner.task))) else None
    case Requeue =>
      if s.spinner.Requeueing?
      then Some(s.(spinner := Resting, ready := s.ready + [s.spinner.task])) else None
  }

  // ----- places -----

  function Parked(futs: seq<Fut>): seq<multiset<Id>> {
    seq(|futs|, i requires 0 <= i < |futs| => multiset(futs[i].callbacks))
  }

  function Loads(cs: seq<Completer>): seq<multiset<Id>> {
    seq(|cs|, i requires 0 <= i < |cs| => cs[i].Carries())
  }

  function ParkedCount(futs: seq<Fut>, t: Id): nat { Bags.Total(Parked(futs), t) }

  function TransitCount(cs: seq<Completer>, t: Id): nat { Bags.Total(Loads(cs), t) }

  function SpinnerCount(sp: Spinner, t: Id): nat {
    if !sp.Resting? && sp.task == t then 1 else 0
  }

  /** In how many places task `t` is: queued, in the list of a future, carried by a completer,
      held by the spinner, or on its way from create_task to the deque. */
  function Places(s: State, t: Id): nat {
    multiset(s.ready)[t] + ParkedCount(s.futs, t) + TransitCount(s.completers, t)
    + SpinnerCount(s.spinner, t) + (if t in s.creating then 1 else 0)
  }

  lemma ParkedUpdate(futs: seq<Fut>, f: Id, v: Fut, t: Id)
    requires f < |futs|
    ensures ParkedCount(futs[f := v], t) == ParkedCount(futs, t) - multiset(futs[f].callbacks)[t] + multiset(v.callbacks)[t]
  {
    assert Parked(futs[f := v]) == Parked(futs)[f := multiset(v.callbacks)];
    Bags.TotalUpdate(Parked(futs), f, multiset(v.callbacks), t);
  }

  lemma ParkedAppend(futs: seq<Fut>, v: Fut, t: Id)
    requires v.callbacks == []
    ensures ParkedCount(futs + [v], t) == ParkedCount(futs, t)
  {
    assert Parked(futs + [v]) == Parked(futs) + [multiset{}];
    Bags.TotalAppend(Parked(futs), multiset{}, t);
  }

  lemma TransitUpdate(cs: seq<Completer>, i: nat, c: Completer, t: Id)
    requires i < |cs|
    ensures TransitCount(cs[i := c], t) == TransitCount(cs, t) - cs[i].Carries()[t] + c.Carries()[t]
  {
    assert Loads(cs[i := c]) == Loads(cs)[i := c.Carries()];
    Bags.TotalUpdate(Loads(cs), i, c.Carries(), t);
  }

  lemma TransitAppend(cs: seq<Completer>, c: Completer, t: Id)
    requires !c.Resuming?
    ensures TransitCount(cs + [c], t) == TransitCount(cs, t)
  {
    assert Loads(cs + [c]) == Loads(cs) + [multiset{}];
    Bags.TotalAppend(Loads(cs), multiset{}, t);
  }

  // ----- invariant -----

  /** A task is in at most one place, and in one as long as it is pending. */
  ghost predicate Once(s: State, t: Id) {
    && Places(s, t) <= 1
    && (Places(s, t) == 1 ==> t in s.tasks)
    && (t in s.tasks && s.IsPending(t) ==> Places(s, t) == 1)
  }

  /** A listed task is suspended on the future that lists it, which is bound; a completed future
      lists tasks only until the swap of a completer that is still to come. */
  ghost predicate FutureOk(s: State, f: Id)
    requires f < |s.futs|
  {
    var v := s.futs[f];
    && (forall t :: t in v.callbacks ==> t in s.awaits && s.awaits[t] == f)
    && (v.callbacks != [] ==> v.bound)
    && (v.callbacks != [] && !v.IsPending() ==> Written(f) in s.completers)
  }

  ghost predicate CompleterOk(s: State, c: Completer) {
    && (!c.Over? ==> c.f < |s.futs|)
    && (c.Written? || c.Resuming? ==> !s.IsPending(c.f))
    && (c.Resuming? && c.rest != [] ==> c.alive)
    && (c.Resuming? ==> forall t :: t in c.rest ==> t in s.awaits && s.awaits[t] == c.f)
  }

  /** What `t` waits for, if anything, has happened. */
  ghost predicate Awake(s: State, t: Id) {
    t in s.awaits ==> !s.IsPending(s.awaits[t])
  }

  ghost predicate SpinnerOk(s: State) {
    match s.spinner
    case Resting => true
    case Suspending(t, f) => f < |s.futs| && t in s.awaits && s.awaits[t] == f
    case Parking(t, f) => f < |s.futs| && t in s.awaits && s.awaits[t] == f && s.futs[f].bound
    case sp => Awake(s, sp.task)
  }

  ghost predicate QueueOk(s: State) {
    && s.left <= |s.ready|
    && (forall t :: t in s.ready ==> Awake(s, t))
    && (forall t :: t in s.creating ==> t !in s.awaits)
    && (forall t :: t in s.tasks ==> t < |s.futs|)
    && (forall t :: t in s.awaits ==> t in s.tasks && s.awaits[t] < |s.futs|)
    && (forall t :: t in s.tasks && s.IsPending(t) ==> t in s.registered)
    && s.faults == {}
  }

  ghost predicate Inv(s: State) {
    && (forall t :: Once(s, t))
    && (forall f :: 0 <= f < |s.futs| ==> FutureOk(s, f))
    && (forall c :: c in s.completers ==> CompleterOk(s, c))
    && SpinnerOk(s)
    && QueueOk(s)
  }

  /** A task the spinner or create_task holds is nowhere else. */
  lemma HeldNowhereElse(s: State, t: Id)
    requires Once(s, t)
    requires SpinnerCount(s.spinner, t) == 1 || t in s.creating
    ensures t !in s.ready
    ensures forall f :: 0 <= f < |s.futs| ==> t !in s.futs[f].callbacks
    ensures forall c :: c in s.completers && c.Resuming? ==> t !in c.rest
    ensures !(SpinnerCount(s.spinner, t) == 1 && t in s.creating)
  {
    assert multiset(s.ready)[t] == 0;
    forall f | 0 <= f < |s.futs| ensures t !in s.futs[f].callbacks {
      Bags.PartOfTotal(Parked(s.futs), f, t);
      assert Parked(s.futs)[f] == multiset(s.futs[f].callbacks);
    }
    forall c | c in s.completers && c.Resuming? ensures t !in c.rest {
      var i :| 0 <= i < |s.completers| && s.completers[i] == c;
      Bags.PartOfTotal(Loads(s.completers), i, t);
      assert Loads(s.completers)[i] == multiset(c.rest);
    }
  }

  lemma FuturesUntouched(s: State, s': State)
    requires Inv(s) && s'.futs == s.futs && s'.completers == s.completers && s'.awaits == s.awaits
    ensures forall f :: 0 <= f < |s'.futs| ==> FutureOk(s', f)
    ensures forall c :: c in s'.completers ==> CompleterOk(s', c)
    ensures forall t :: Awake(s', t) <==> Awake(s, t)
  {
    assert forall f :: 0 <= f < |s.futs| ==> FutureOk(s, f) ==> FutureOk(s', f);
    assert forall c :: c in s.completers ==> CompleterOk(s, c) ==> CompleterOk(s', c);
  }

  lemma NewFutureKeeps(s: State, bound: bool)
    requires Inv(s)
    ensures Inv(AddFuture(s, bound))
  {
    var s' := AddFuture(s, bound);
    forall t ensures Once(s', t) {
      assert Once(s, t);
      ParkedAppend(s.futs, Unset(bound), t);
    }
    assert forall f :: 0 <= f < |s.futs| ==> s'.futs[f] == s.futs[f] && FutureOk(s, f);
  }

  lemma CreateTaskKeeps(s: State)
    requires Inv(s)
    ensures Inv(AddTask(s))
  {
    var s1, s' := AddFuture(s, true), AddTask(s);
    NewFutureKeeps(s, true);
    var n := |s.futs|;
    forall t ensures Once(s', t) {
      assert Once(s1, t) && (t == n ==> t !in s.tasks);
    }
    assert n !in s.awaits;
    assert forall f :: 0 <= f < |s1.futs| ==> FutureOk(s1, f) ==> FutureOk(s', f);
    assert forall c :: c in s'.completers ==> CompleterOk(s1, c) ==> CompleterOk(s', c);
  }

  lemma MakeHandlerKeeps(s: State)
    requires Inv(s) && s.spinner.Resting?
    ensures Inv(YieldHandler(s))
  {
    var s1, s' := AddFuture(s, true), YieldHandler(s);
    NewFutureKeeps(s, true);
    var n := |s.futs|;
    forall t ensures Once(s', t) {
      assert Once(s1, t) && (t == n ==> t !in s.tasks);
    }
    assert n !in s.awaits;
    assert forall f :: 0 <= f < |s1.futs| ==> FutureOk(s1, f) ==> FutureOk(s', f);
    assert forall c :: c in s'.completers ==> CompleterOk(s1, c) ==> CompleterOk(s', c);
  }

  lemma StillWritten(cs: seq<Completer>, i: nat, c: Completer, f: Id)
    requires i < |cs| && cs[i] != Written(f)
    ensures Written(f) in cs ==> Written(f) in cs[i := c]
  {
    if Written(f) in cs {
      var j :| 0 <= j < |cs| && cs[j] == Written(f);
      assert cs[i := c][j] == Written(f);
    }
  }

  lemma BeginCancelKeeps(s: State, f: Id)
    requires Inv(s) && s.IsPending(f)
    ensures Inv(s.(completers := s.completers + [Cancelling(f)]))
  {
    var s' := s.(completers := s.completers + [Cancelling(f)]);
    forall t ensures Once(s', t) {
      assert Once(s, t);
      TransitAppend(s.completers, Cancelling(f), t);
    }
    assert forall g :: 0 <= g < |s.futs| ==> FutureOk(s, g) ==> FutureOk(s', g);
    assert forall c :: c in s'.completers ==> c == Cancelling(f) || CompleterOk(s, c);
  }

  lemma MarkCancelledKeepsOnce(s: State, i: nat, t: Id)
    requires Once(s, t) && Next(s, WriteCancelled(i)).Some?
    ensures Once(MarkCancelled(s, i), t)
  {
    var s' := MarkCancelled(s, i);
    var f := s.completers[i].f;
    ParkedUpdate(s.futs, f, s'.futs[f], t);
    TransitUpdate(s.completers, i, Written(f), t);
  }

  lemma MarkCancelledKeeps(s: State, i: nat)
    requires Inv(s) && Next(s, WriteCancelled(i)).Some?
    ensures Inv(MarkCancelled(s, i))
  {
    var s' := MarkCancelled(s, i);
    var f := s.completers[i].f;
    forall t ensures Once(s', t) {
      assert Once(s, t);
      MarkCancelledKeepsOnce(s, i, t);
    }
    forall g | 0 <= g < |s.futs| ensures FutureOk(s', g) {
      assert FutureOk(s, g);
      StillWritten(s.completers, i, Written(f), g);
      assert s'.completers[i] == Written(f);
    }
    forall c | c in s'.completers ensures CompleterOk(s', c) {
      assert c == Written(f) || CompleterOk(s, c);
    }
  }

  lemma MarkFinishedKeeps(s: State, f: Id)
    requires Inv(s) && f < |s.futs|
    ensures Inv(MarkFinished(s, f))
  {
    var s' := MarkFinished(s, f);
    forall t ensures Once(s', t) {
      assert Once(s, t);
      ParkedUpdate(s.futs, f, s'.futs[f], t);
      TransitAppend(s.completers, Written(f), t);
    }
    assert s'.completers[|s.completers|] == Written(f);
    forall g | 0 <= g < |s.futs| ensures FutureOk(s', g) {
      assert FutureOk(s, g);
    }
    forall c | c in s'.completers ensures CompleterOk(s', c) {
      assert c == Written(f) || CompleterOk(s, c);
    }
  }

  lemma FinishKeeps(s: State)
    requires Inv(s) && s.spinner.Running? && s.spinner.task < |s.futs|
    ensures Inv(MarkFinished(s, s.spinner.task).(spinner := Resting))
  {
    var t := s.spinner.task;
    var s1 := MarkFinished(s, t);
    var s' := s1.(spinner := Resting);
    MarkFinishedKeeps(s, t);
    forall x ensures Once(s', x) {
      assert Once(s1, x);
      assert !s'.IsPending(t);
    }
    assert forall g :: 0 <= g < |s1.futs| ==> FutureOk(s1, g) ==> FutureOk(s', g);
    assert forall c :: c in s'.completers ==> CompleterOk(s1, c) ==> CompleterOk(s', c);
  }

  lemma SwapKeepsOnce(s: State, i: nat, t: Id)
    requires Once(s, t) && Next(s, Swap(i)).Some?
    ensures Once(SwapList(s, i), t)
  {
    var s' := SwapList(s, i);
    var f := s.completers[i].f;
    ParkedUpdate(s.futs, f, s'.futs[f], t);
    TransitUpdate(s.completers, i, s'.completers[i], t);
  }

  lemma SwapKeeps(s: State, i: nat)
    requires Inv(s) && Next(s, Swap(i)).Some?
    ensures Inv(SwapList(s, i))
  {
    var s' := SwapList(s, i);
    var f := s.completers[i].f;
    assert FutureOk(s, f) && CompleterOk(s, s.completers[i]);
    forall t ensures Once(s', t) {
      assert Once(s, t);
      SwapKeepsOnce(s, i, t);
    }
    forall g | 0 <= g < |s.futs| ensures FutureOk(s', g) {
      assert FutureOk(s, g);
      if g != f {
        StillWritten(s.completers, i, s'.completers[i], g);
      }
    }
    forall c | c in s'.completers ensures CompleterOk(s', c) {
      assert c == s'.completers[i] || CompleterOk(s, c);
    }
  }

  lemma ResumeOneKeepsOnce(s: State, i: nat, t: Id)
    requires Once(s, t) && Next(s, HandOne(i)).Some? && CompleterOk(s, s.completers[i])
    ensures Once(ResumeOne(s, i), t)
  {
    var s' := ResumeOne(s, i);
    var c, c' := s.completers[i], s'.completers[i];
    TransitUpdate(s.completers, i, c', t);
    if c.rest != [] {
      Bags.HeadAndTail(c.rest, t);
      assert TransitCount(s'.completers, t) == TransitCount(s.completers, t) - (if c.rest[0] == t then 1 else 0);
      assert multiset(s'.ready)[t] == multiset(s.ready)[t] + (if c.rest[0] == t then 1 else 0);
      assert Places(s', t) == Places(s, t);
    }
  }

  lemma ResumeOneKeeps(s: State, i: nat)
    requires Inv(s) && Next(s, HandOne(i)).Some?
    ensures Inv(ResumeOne(s, i))
  {
    var s' := ResumeOne(s, i);
    assert CompleterOk(s, s.completers[i]);
    forall t ensures Once(s', t) {
      assert Once(s, t);
      ResumeOneKeepsOnce(s, i, t);
    }
    forall g | 0 <= g < |s.futs| ensures FutureOk(s', g) {
      assert FutureOk(s, g);
      StillWritten(s.completers, i, s'.completers[i], g);
    }
    forall c | c in s'.completers ensures CompleterOk(s', c) {
      assert c == s'.completers[i] || CompleterOk(s, c);
    }
  }

  lemma AppendCreatedKeeps(s: State, t: Id)
    requires Inv(s) && t in s.creating
    ensures Inv(AppendCreated(s, t))
  {
    var s' := AppendCreated(s, t);
    forall x ensures Once(s', x) { assert Once(s, x); }
    FuturesUntouched(s, s');
  }

  lemma BeginPassKeeps(s: State)
    requires Inv(s) && s.spinner.Resting?
    ensures Inv(BeginPass(s))
  {
    var s' := BeginPass(s);
    forall x ensures Once(s', x) { assert Once(s, x); }
    FuturesUntouched(s, s');
  }

  lemma PopKeeps(s: State)
    requires Inv(s) && s.spinner.Resting? && s.left > 0
    ensures Inv(PopLeft(s))
  {
    var s' := PopLeft(s);
    forall x ensures Once(s', x) {
      assert Once(s, x);
      Bags.HeadAndTail(s.ready, x);
    }
    FuturesUntouched(s, s');
    assert s.ready[0] in s.ready;
    assert forall t :: t in s'.ready ==> t in s.ready;
  }

  /** Letting go of a task that is over, or passing it on within the spinner. */
  lemma ExamineKeeps(s: State, wanted: bool)
    requires Inv(s) && s.spinner.Popped?
    ensures Inv(LookAt(s, s.spinner.task, wanted))
  {
    var t := s.spinner.task;
    var s' := LookAt(s, t, wanted);
    assert Once(s, t);
    forall x ensures Once(s', x) { assert Once(s, x); }
    FuturesUntouched(s, s');
  }

  lemma CallKeeps(s: State)
    requires Inv(s) && s.spinner.Chosen?
    ensures Inv(CallTask(s, s.spinner.task))
  {
    var t := s.spinner.task;
    var s' := CallTask(s, t);
    assert Once(s, t);
    HeldNowhereElse(s, t);
    forall x ensures Once(s', x) { assert Once(s, x); }
    forall g | 0 <= g < |s.futs| ensures FutureOk(s', g) { assert FutureOk(s, g); }
    forall c | c in s.completers ensures CompleterOk(s', c) { assert CompleterOk(s, c); }
  }

  lemma AwaitKeeps(s: State, f: Id)
    requires Inv(s) && s.spinner.Running? && s.IsPending(f)
    ensures Inv(Next(s, Await(f)).value)
  {
    var t := s.spinner.task;
    var s' := Next(s, Await(f)).value;
    assert Once(s, t);
    HeldNowhereElse(s, t);
    forall x ensures Once(s', x) { assert Once(s, x); }
    forall g | 0 <= g < |s.futs| ensures FutureOk(s', g) { assert FutureOk(s, g); }
    forall c | c in s.completers ensures CompleterOk(s', c) { assert CompleterOk(s, c); }
  }

  lemma BindToKeeps(s: State, f: Id)
    requires Inv(s) && f < |s.futs|
    ensures Inv(BindTo(s, f))
  {
    var s' := BindTo(s, f);
    forall x ensures Once(s', x) {
      assert Once(s, x);
      ParkedUpdate(s.futs, f, s'.futs[f], x);
    }
    forall g | 0 <= g < |s.futs| ensures FutureOk(s', g) { assert FutureOk(s, g); }
    forall c | c in s.completers ensures CompleterOk(s', c) { assert CompleterOk(s, c); }
  }

  lemma BindKeeps(s: State)
    requires Inv(s) && s.spinner.Suspending?
    ensures Next(s, Bind).Some? && Inv(Next(s, Bind).value)
  {
    var f := s.spinner.on;
    var s' := Next(s, Bind).value;
    forall x ensures Once(s', x) {
      assert Once(s, x);
      ParkedUpdate(s.futs, f, s'.futs[f], x);
    }
    forall g | 0 <= g < |s.futs| ensures FutureOk(s', g) { assert FutureOk(s, g); }
    forall c | c in s.completers ensures CompleterOk(s', c) { assert CompleterOk(s, c); }
  }

  lemma ParkKeepsOnce(s: State, x: Id)
    requires Once(s, x) && s.spinner.Parking? && s.spinner.on < |s.futs| && s.futs[s.spinner.on].bound
    ensures Once(ParkTask(s, s.spinner.task, s.spinner.on), x)
  {
    var t, f := s.spinner.task, s.spinner.on;
    var s' := ParkTask(s, t, f);
    ParkedUpdate(s.futs, f, s'.futs[f], x);
    if s.IsPending(f) {
      assert ParkedCount(s'.futs, x) == ParkedCount(s.futs, x) + SpinnerCount(s.spinner, x);
      assert Places(s', x) == Places(s, x);
    } else {
      assert s'.ready == s.ready + [t];
      assert multiset(s'.ready)[x] == multiset(s.ready)[x] + SpinnerCount(s.spinner, x);
      assert Places(s', x) == Places(s, x);
    }
    assert s'.IsPending(x) == s.IsPending(x);
  }

  lemma ParkKeeps(s: State)
    requires Inv(s) && s.spinner.Parking?
    ensures Inv(ParkTask(s, s.spinner.task, s.spinner.on))
  {
    var t, f := s.spinner.task, s.spinner.on;
    var s' := ParkTask(s, t, f);
    forall x ensures Once(s', x) {
      assert Once(s, x);
      ParkKeepsOnce(s, x);
    }
    forall g | 0 <= g < |s.futs| ensures FutureOk(s', g) { assert FutureOk(s, g); }
    forall c | c in s.completers ensures CompleterOk(s', c) { assert CompleterOk(s, c); }
  }

  lemma YieldKeeps(s: State)
    requires Inv(s) && s.spinner.Running?
    ensures Inv(Next(s, YieldNone).value)
  {
    var s' := Next(s, YieldNone).value;
    forall x ensures Once(s', x) { assert Once(s, x); }
    FuturesUntouched(s, s');
  }

  lemma RequeueKeepsOnce(s: State, x: Id)
    requires Once(s, x) && s.spinner.Requeueing?
    ensures Once(Next(s, Requeue).value, x)
  {
    var s' := Next(s, Requeue).value;
    assert multiset(s'.ready)[x] == multiset(s.ready)[x] + SpinnerCount(s.spinner, x);
    assert Places(s', x) == Places(s, x);
  }

  lemma RequeueKeeps(s: State)
    requires Inv(s) && s.spinner.Requeueing?
    ensures Inv(Next(s, Requeue).value)
  {
    var s' := Next(s, Requeue).value;
    forall x ensures Once(s', x) {
      assert Once(s, x);
      RequeueKeepsOnce(s, x);
    }
    FuturesUntouched(s, s');
    assert QueueOk(s') by {
      assert Awake(s, s.spinner.task);
    }
  }

  lemma StepKeepsInv(s: State, e: Event)
    requires Inv(s) && Next(s, e).Some?
    ensures Inv(Next(s, e).value)
  {
    match e
    case NewFuture(b) => NewFutureKeeps(s, b);
    case BindFuture(f) => BindToKeeps(s, f);
    case CreateTask => CreateTaskKeeps(s);
    case Enqueue(t) => AppendCreatedKeeps(s, t);
    case BeginCancel(f) => BeginCancelKeeps(s, f);
    case WriteCancelled(i) => MarkCancelledKeeps(s, i);
    case Complete(f) => MarkFinishedKeeps(s, f);
    case Swap(i) => SwapKeeps(s, i);
    case HandOne(i) => ResumeOneKeeps(s, i);
    case StartPass => BeginPassKeeps(s);
    case MakeHandler => MakeHandlerKeeps(s);
    case Pop => PopKeeps(s);
    case Examine(wanted) => ExamineKeeps(s, wanted);
    case Call => CallKeeps(s);
    case Finish => FinishKeeps(s);
    case Await(f) => AwaitKeeps(s, f);
    case Bind => BindKeeps(s);
    case Park => ParkKeeps(s);
    case YieldNone => YieldKeeps(s);
    case Requeue => RequeueKeeps(s);
  }

  lemma ReachableInv(es: seq<Event>)
    requires Exec(Next, EMPTY, es).Some?
    ensures Inv(Exec(Next, EMPTY, es).value)
  {
    forall t ensures Once(EMPTY, t) {
      Bags.TotalOfNone(Parked([]), t);
      Bags.TotalOfNone(Loads([]), t);
    }
    assert Inv(EMPTY);
    forall s, e | Inv(s) && Next(s, e).Some? ensures Inv(Next(s, e).value) { StepKeepsInv(s, e); }
    InvariantOfRuns(Next, Inv, EMPTY, es);
  }

  /** Main result, for every run: a pending task is in exactly one place (counting multiplicity
      within each list), a task that is over in at most one, and none of the errors that would
      betray a lost, doubled or prematurely resumed task has occurred. */
  lemma EveryPendingTaskIsInOnePlace(es: seq<Event>)
    requires Exec(Next, EMPTY, es).Some?
    ensures var s := Exec(Next, EMPTY, es).value;
      && (forall t :: t in s.tasks && s.IsPending(t) ==> Places(s, t) == 1)
      && (forall t :: Places(s, t) <= 1)
      && s.faults == {}
  {
    ReachableInv(es);
    var s := Exec(Next, EMPTY, es).value;
    forall t ensures Places(s, t) <= 1 && (t in s.tasks && s.IsPending(t) ==> Places(s, t) == 1) {
      assert Once(s, t);
    }
  }

  /** No task is left behind: a task listed by a completed future is about to be swapped out by
      a completer, and will then be queued, the future's executor being known. */
  lemma NoTaskIsStranded(es: seq<Event>, f: Id, t: Id)
    requires Exec(Next, EMPTY, es).Some?
    requires var s := Exec(Next, EMPTY, es).value;
      f < |s.futs| && t in s.futs[f].callbacks && !s.IsPending(f)
    ensures var s := Exec(Next, EMPTY, es).value;
      s.futs[f].bound && exists i :: 0 <= i < |s.completers| && s.completers[i] == Written(f)
  {
    ReachableInv(es);
    assert FutureOk(Exec(Next, EMPTY, es).value, f);
  }

  function HandOvers(i: nat, n: nat): seq<Event> {
    if n == 0 then [] else [HandOne(i)] + HandOvers(i, n - 1)
  }

  lemma {:induction false} HandOversQueueTheRest(s: State, i: nat)
    requires i < |s.completers| && s.completers[i].Resuming? && s.completers[i].alive
    ensures var c := s.completers[i];
      Exec(Next, s, HandOvers(i, |c.rest|))
      == Some(s.(ready := s.ready + c.rest, completers := s.completers[i := c.(rest := [])]))
    decreases |s.completers[i].rest|
  {
    var c := s.completers[i];
    if c.rest == [] {
      assert s.completers[i := c.(rest := [])] == s.completers;
      assert s.ready + c.rest == s.ready;
    } else {
      var s1 := ResumeOne(s, i);
      ExecCons(Next, s, HandOne(i), HandOvers(i, |c.rest| - 1));
      HandOversQueueTheRest(s1, i);
      assert s1.ready + c.rest[1..] == s.ready + c.rest;
      assert s1.completers[i := c.(rest := [])] == s.completers[i := c.(rest := [])];
    }
  }

  /** The completer that is due moves every task suspended on its future to the back of the
      deque, in the order in which they were suspended, whatever was queued before. */
  lemma CompletionQueuesWaitersInOrder(es: seq<Event>, i: nat, f: Id)
    requires Exec(Next, EMPTY, es).Some?
    requires var s := Exec(Next, EMPTY, es).value;
      i < |s.completers| && s.completers[i] == Written(f) && f < |s.futs| && s.futs[f].callbacks != []
    ensures var s := Exec(Next, EMPTY, es).value;
      var due := [Swap(i)] + HandOvers(i, |s.futs[f].callbacks|);
      && Exec(Next, s, due).Some?
      && Exec(Next, s, due).value.ready == s.ready + s.futs[f].callbacks
      && Exec(Next, s, due).value.futs == s.futs[f := s.futs[f].(callbacks := [])]
  {
    var s := Exec(Next, EMPTY, es).value;
    ReachableInv(es);
    assert FutureOk(s, f);
    ExecCons(Next, s, Swap(i), HandOvers(i, |s.futs[f].callbacks|));
    HandOversQueueTheRest(SwapList(s, i), i);
  }

  /** When nobody is in the middle of anything, a pending task is queued exactly once, or parked
      exactly once on a future that is itself still pending. */
  lemma QuietTasksAreQueuedOrWaiting(es: seq<Event>, t: Id)
    requires Exec(Next, EMPTY, es).Some?
    requires var s := Exec(Next, EMPTY, es).value;
      && t in s.tasks && s.IsPending(t) && s.spinner.Resting? && s.creating == {}
      && (forall c :: c in s.completers ==> c.Over?)
    ensures var s := Exec(Next, EMPTY, es).value;
      || (multiset(s.ready)[t] == 1 && forall f :: 0 <= f < |s.futs| ==> t !in s.futs[f].callbacks)
      || (t !in s.ready && t in s.awaits && s.IsPending(s.awaits[t])
          && multiset(s.futs[s.awaits[t]].callbacks)[t] == 1
          && forall f :: 0 <= f < |s.futs| && f != s.awaits[t] ==> t !in s.futs[f].callbacks)
  {
    var s := Exec(Next, EMPTY, es).value;
    ReachableInv(es);
    assert Once(s, t);
    forall i | 0 <= i < |s.completers| ensures t !in Loads(s.completers)[i] {
      assert s.completers[i] in s.completers;
    }
    Bags.TotalOfNone(Loads(s.completers), t);
    forall f | 0 <= f < |s.futs| ensures multiset(s.futs[f].callbacks)[t] <= ParkedCount(s.futs, t) {
      Bags.PartOfTotal(Parked(s.futs), f, t);
      assert Parked(s.futs)[f] == multiset(s.futs[f].callbacks);
    }
    if t in s.ready {
      assert multiset(s.ready)[t] == 1 && ParkedCount(s.futs, t) == 0;
    } else {
      assert ParkedCount(s.futs, t) == 1;
      var f := Bags.WitnessOfTotal(Parked(s.futs), t);
      assert FutureOk(s, f);
      assert t in s.futs[f].callbacks && s.awaits[t] == f;
      assert !Written(f).Over? && Written(f) !in s.completers;
      assert s.IsPending(f);
      assert multiset(s.futs[f].callbacks)[t] == 1;
      forall g | 0 <= g < |s.futs| && g != f ensures t !in s.futs[g].callbacks {
        assert FutureOk(s, g);
      }
    }
  }
}
