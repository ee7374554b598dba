/** Running one task (Task.__call__ and _execute_coroutine_step, rclpy/task.py:321-385) when any
    number of worker threads may call it. The tests at the start of a call are separate reads;
    only the last of them, taking the task lock, is atomic with what follows. */
module TaskCalls {
  import opened Options
  import opened Runs

  type Thread = nat

  /** How the handler behaves when it is given control: its coroutine yields a future or None,
      it ends (with a result or an exception of its own), or resuming it is an error of the
      caller, e.g. because it yielded something else. */
  datatype Outcome = Suspends | Ends | Misbehaves

  /** The fields of a task, `lock` being its task lock. The functions are its atomic changes. */
  datatype Core = Core(pending: bool, executing: bool, lock: Option<Thread>, handler: bool) {
    function TryLock(t: Thread): Core { if lock.None? then this.(lock := Some(t)) else this }

    function Begin(): Core { this.(executing := true) }

    function SetDone(): Core { this.(pending := false) }

    function DropHandler(): Core { this.(handler := false) }

    function Reset(): Core { this.(executing := false) }

    function Release(): Core { this.(lock := None) }

    predicate Callable() { pending && !executing && lock.None? }

    /** What a call does that nothing disturbs. */
    function Called(outcome: Outcome): Core {
      if !Callable() then this
      else match outcome
        case Suspends => this
        case Ends => this.(pending := false, handler := false)
        case Misbehaves => this.(executing := true)
    }
  }

  class Task {
    var pending: bool
    var executing: bool
    var lock: Option<Thread>
    var handler: bool

    function Contents(): Core reads this { Core(pending, executing, lock, handler) }

    constructor ()
      ensures Contents() == Core(true, false, None, true)
    {
      pending, executing, lock, handler := true, false, None, true;
    }

    /** Non-blocking acquisition of the task lock. */
    method TryLock(t: Thread) returns (got: bool)
      modifies this`lock
      ensures got <==> old(lock).None?
      ensures Contents() == old(Contents()).TryLock(t)
    {
      got := lock.None?;
      if got {
        lock := Some(t);
      }
    }

    method CompleteTask()
      modifies this`handler
      ensures Contents() == old(Contents()).DropHandler()
    {
      handler := false;
    }

    /** __call__ as one thread performs it while no other interferes. A step that misbehaves
        leaves `executing` set, because nothing resets it on that path. */
    method Call(t: Thread, outcome: Outcome) returns (ran: bool)
      modifies this
      ensures ran <==> old(Contents()).Callable()
      ensures Contents() == old(Contents()).Called(outcome)
      ensures !ran ==> Contents() == old(Contents())
      ensures ran ==> lock.None? && (executing <==> outcome.Misbehaves?) && (pending <==> !outcome.Ends?)
      ensures ran && old(handler) ==> (handler <==> !outcome.Ends?)
    {
      if !pending || executing {
        return false;
      }
      var got := TryLock(t);
      if !got {
        return false;
      }
      executing := true;
      match outcome {
        case Misbehaves =>
        case Suspends =>
          executing := false;
        case Ends =>
          pending := false;
          CompleteTask();
          executing := false;
      }
      lock := None;
      ran := true;
    }
  }

  /** Where a thread inside a call is. `SawPending`, `SawIdle`: past the first, the second test.
      `Locked`: holds the lock. `Stepping`: the handler has control. `Closing`: the result is
      set, the handler not yet dropped. `Unwinding`: about to reset `executing`. */
  datatype Phase = Entered | SawPending | SawIdle | Locked | Stepping | Closing | Unwinding | Releasing {
    predicate HoldsLock() { Locked? || InStep() || Releasing? }

    predicate InStep() { Stepping? || Closing? || Unwinding? }

    /** The call may still give control to the handler, or is giving it. */
    predicate Carries() { Entered? || SawPending? || SawIdle? || Locked? || Stepping? }
  }

  /** `parked` says that the coroutine has been suspended by its last step. `due` counts the calls
      owed to the task: one from its creation, and one for each suspension, when the future it
      waits for completes or in the next spin. `ignored` counts calls of the pending task that
      returned without giving it control. */
  datatype State = State(core: Core, inside: map<Thread, Phase>, parked: bool, due: nat, ignored: nat)
  {
    predicate At(t: Thread, p: Phase) { t in inside && inside[t] == p }

    function Move(t: Thread, p: Phase): State { this.(inside := inside[t := p]) }

    function Leave(t: Thread): State { this.(inside := inside - {t}) }

    function Ignore(t: Thread): State { Leave(t).(ignored := ignored + 1) }
  }

  const INITIAL := State(Core(true, false, None, true), map[], false, 1, 0)

  datatype Event =
    | Offer                // somebody arranges one more call than the task is owed
    | Call(t: Thread)
    | TestPending(t: Thread)
    | TestExecuting(t: Thread)
    | TryLock(t: Thread)
    | TestAgain(t: Thread)
    | Suspend(t: Thread)
    | End(t: Thread)
    | Drop(t: Thread)
    | Misbehave(t: Thread)
    | Reset(t: Thread)
    | Release(t: Thread)
    | Complete             // another thread cancels the task or sets its result

  function Next(s: State, e: Event): Option<State> {
    match e
    case Offer => Some(s.(due := s.due + 1))
    case Call(t) => if t in s.inside || s.due == 0 then None else Some(s.Move(t, Entered).(due := s.due - 1))
    case TestPending(t) =>
      if s.At(t, Entered) then Some(if s.core.pending then s.Move(t, SawPending) else s.Leave(t)) else None
    case TestExecuting(t) =>
      if s.At(t, SawPending) then Some(if s.core.executing then s.Ignore(t) else s.Move(t, SawIdle)) else None
    case TryLock(t) =>
      if s.At(t, SawIdle)
      then Some(if s.core.lock.Some? then s.Ignore(t) else s.Move(t, Locked).(core := s.core.TryLock(t)))
      else None
    case TestAgain(t) =>
      if s.At(t, Locked)
      then Some(if s.core.pending then s.Move(t, Stepping).(core := s.core.Begin(), parked := false)
                else s.Move(t, Releasing))
      else None
    case Suspend(t) =>
      if s.At(t, Stepping) then Some(s.Move(t, Unwinding).(parked := true, due := s.due + 1)) else None
    case End(t) => if s.At(t, Stepping) then Some(s.Move(t, Closing).(core := s.core.SetDone())) else None
    case Drop(t) => if s.At(t, Closing) then Some(s.Move(t, Unwinding).(core := s.core.DropHandler())) else None
    case Misbehave(t) => if s.At(t, Stepping) then Some(s.Move(t, Releasing)) else None
    case Reset(t) => if s.At(t, Unwinding) then Some(s.Move(t, Releasing).(core := s.core.Reset())) else None
    case Release(t) => if s.At(t, Releasing) then Some(s.Leave(t).(core := s.core.Release())) else None
    case Complete => Some(s.(core := s.core.SetDone()))
  }

  // ----- one call, undisturbed -----

  /** What a thread inside the handler does until it returns from the call. */
  function Steps(t: Thread, outcome: Outcome): seq<Event> {
    match outcome
    case Suspends => [Suspend(t), Reset(t), Release(t)]
    case Ends => [End(t), Drop(t), Reset(t), Release(t)]
    case Misbehaves => [Misbehave(t), Release(t)]
  }

  /** The steps of a whole call of a task with these fields, by a thread that nobody disturbs. */
  function Undisturbed(core: Core, t: Thread, outcome: Outcome): seq<Event> {
    if !core.pending then [Call(t), TestPending(t)]
    else if core.executing then [Call(t), TestPending(t), TestExecuting(t)]
    else if core.lock.Some? then [Call(t), TestPending(t), TestExecuting(t), TryLock(t)]
    else [Call(t), TestPending(t), TestExecuting(t), TryLock(t), TestAgain(t)] + Steps(t, outcome)
  }

  /** Main result on a single call: what `Call` does in one piece is what the machine does step by
      step when nobody interferes. The call runs to its end, leaves nobody inside, and the fields
      as `Called` says; it is owed one call more exactly if the step has suspended the task. */
  lemma UndisturbedCall(s: State, t: Thread, outcome: Outcome)
    requires s.inside == map[] && s.due > 0
    ensures var end := Exec(Next, s, Undisturbed(s.core, t, outcome));
      && end.Some? && end.value.inside == map[] && end.value.core == s.core.Called(outcome)
      && (s.core.Callable() ==>
            && end.value.ignored == s.ignored
            && end.value.due == (if outcome.Suspends? then s.due else s.due - 1)
            && end.value.parked == outcome.Suspends?)
      && (!s.core.Callable() ==>
            && end.value.ignored == s.ignored + (if s.core.pending then 1 else 0)
            && end.value.due == s.due - 1 && end.value.parked == s.parked)
  {
    if s.core.Callable() {
      var es, s' := Admitted(s, t);
      ExecConcat(Next, s, es, Steps(t, outcome));
      assert es + Steps(t, outcome) == Undisturbed(s.core, t, outcome);
      match outcome {
        case Suspends => var rest, end := SuspendingStep(s', t);
        case Ends => var rest, end := EndingStep(s', t);
        case Misbehaves => var rest, end := MisbehavingStep(s', t);
      }
    } else {
      var es, s' := TurnedAway(s, t, outcome);
    }
  }

  lemma Admitted(s: State, t: Thread) returns (es: seq<Event>, s': State)
    requires s.inside == map[] && s.due > 0 && s.core.Callable()
    ensures es == [Call(t), TestPending(t), TestExecuting(t), TryLock(t), TestAgain(t)]
    ensures Exec(Next, s, es) == Some(s')
    ensures s' == s.(core := s.core.TryLock(t).Begin(), inside := map[t := Stepping], parked := false, due := s.due - 1)
  {
    es, s' := Grow(Next, s, [], s, Call(t));
    es, s' := Grow(Next, s, es, s', TestPending(t));
    es, s' := Grow(Next, s, es, s', TestExecuting(t));
    es, s' := Grow(Next, s, es, s', TryLock(t));
    es, s' := Grow(Next, s, es, s', TestAgain(t));
    assert s'.inside == map[t := Stepping];
  }

  lemma TurnedAway(s: State, t: Thread, outcome: Outcome) returns (es: seq<Event>, s': State)
    requires s.inside == map[] && s.due > 0 && !s.core.Callable()
    ensures es == Undisturbed(s.core, t, outcome) && Exec(Next, s, es) == Some(s')
    ensures s' == s.(due := s.due - 1, ignored := s.ignored + if s.core.pending then 1 else 0)
  {
    es, s' := Grow(Next, s, [], s, Call(t));
    assert s'.inside == map[t := Entered];
    es, s' := Grow(Next, s, es, s', TestPending(t));
    if s.core.pending {
      assert s'.inside == map[t := SawPending];
      es, s' := Grow(Next, s, es, s', TestExecuting(t));
      if !s.core.executing {
        assert s'.inside == map[t := SawIdle];
        es, s' := Grow(Next, s, es, s', TryLock(t));
      }
    }
    assert s'.inside == map[];
  }

  lemma Unwound(s0: State, es: seq<Event>, s: State, t: Thread) returns (es': seq<Event>, s': State)
    requires Exec(Next, s0, es) == Some(s) && s.inside == map[t := Unwinding]
    ensures es' == es + [Reset(t), Release(t)] && Exec(Next, s0, es') == Some(s')
    ensures s' == s.(inside := map[], core := s.core.Reset().Release())
  {
    es', s' := Grow(Next, s0, es, s, Reset(t));
    es', s' := Grow(Next, s0, es', s', Release(t));
    assert s'.inside == map[];
  }

  lemma SuspendingStep(s: State, t: Thread) returns (es: seq<Event>, s': State)
    requires s.inside == map[t := Stepping]
    ensures es == Steps(t, Suspends) && Exec(Next, s, es) == Some(s')
    ensures s' == s.(inside := map[], core := s.core.Reset().Release(), parked := true, due := s.due + 1)
  {
    es, s' := Grow(Next, s, [], s, Suspend(t));
    assert s'.inside == map[t := Unwinding];
    es, s' := Unwound(s, es, s', t);
  }

  lemma EndingStep(s: State, t: Thread) returns (es: seq<Event>, s': State)
    requires s.inside == map[t := Stepping]
    ensures es == Steps(t, Ends) && Exec(Next, s, es) == Some(s')
    ensures s' == s.(inside := map[], core := s.core.SetDone().DropHandler().Reset().Release())
  {
    es, s' := Grow(Next, s, [], s, End(t));
    es, s' := Grow(Next, s, es, s', Drop(t));
    assert s'.inside == map[t := Unwinding];
    es, s' := Unwound(s, es, s', t);
  }

  lemma MisbehavingStep(s: State, t: Thread) returns (es: seq<Event>, s': State)
    requires s.inside == map[t := Stepping]
    ensures es == Steps(t, Misbehaves) && Exec(Next, s, es) == Some(s')
    ensures s' == s.(inside := map[], core := s.core.Release())
  {
    es, s' := Grow(Next, s, [], s, Misbehave(t));
    es, s' := Grow(Next, s, es, s', Release(t));
    assert s'.inside == map[];
  }

  // ----- no overlap -----

  ghost predicate LockOk(s: State, t: Thread) {
    s.core.lock == Some(t) <==> t in s.inside && s.inside[t].HoldsLock()
  }

  ghost predicate LockInv(s: State) { forall t: Thread :: LockOk(s, t) }

  ghost predicate HandlerInv(s: State) {
    && (s.core.pending ==> s.core.handler)
    && (forall t: Thread :: s.At(t, Stepping) ==> s.core.handler)
    && (forall t: Thread :: s.At(t, Closing) ==> !s.core.pending)
  }

  ghost predicate Inv(s: State) { LockInv(s) && HandlerInv(s) }

  lemma StepKeepsLock(s: State, e: Event, t: Thread)
    requires LockOk(s, t) && (!e.Complete? && !e.Offer? ==> LockOk(s, e.t)) && Next(s, e).Some?
    ensures LockOk(Next(s, e).value, t)
  {
  }

  lemma StepKeepsHandler(s: State, e: Event)
    requires Inv(s) && Next(s, e).Some?
    ensures HandlerInv(Next(s, e).value)
  {
    var s' := Next(s, e).value;
    if e.Drop? {
      assert LockOk(s, e.t);
      assert forall u: Thread :: s'.At(u, Stepping) ==> s.At(u, Stepping) && LockOk(s, u);
    } else if !e.Complete? && !e.Offer? {
      assert s'.core.handler == s.core.handler && (s'.core.pending ==> s.core.pending);
      forall u: Thread
        ensures s'.At(u, Stepping) ==> s'.core.handler
        ensures s'.At(u, Closing) ==> !s'.core.pending
      {
        if u != e.t {
          assert s'.At(u, Stepping) ==> s.At(u, Stepping);
          assert s'.At(u, Closing) ==> s.At(u, Closing);
        }
      }
    } else {
      assert forall u: Thread, p :: s'.At(u, p) <==> s.At(u, p);
    }
  }

  lemma StepKeepsInv(s: State, e: Event)
    requires Inv(s) && Next(s, e).Some?
    ensures Inv(Next(s, e).value)
  {
    forall t: Thread ensures LockOk(Next(s, e).value, t) { StepKeepsLock(s, e, t); }
    StepKeepsHandler(s, e);
  }

  /** Main result, for every interleaving: the steps of one task never overlap, whatever reads
      the unlocked tests made; and a thread that gives control to the handler finds it there, so
      the assertion about the handler never fails, even when the task is completed meanwhile. */
  lemma StepsNeverOverlap(es: seq<Event>)
    requires Exec(Next, INITIAL, es).Some?
    ensures var s := Exec(Next, INITIAL, es).value;
      && (forall t, u :: t in s.inside && u in s.inside && s.inside[t].InStep() && s.inside[u].InStep() ==> t == u)
      && (forall t :: s.At(t, Stepping) ==> s.core.handler)
      && (!s.core.handler ==> !s.core.pending)
  {
    forall s, e | Inv(s) && Next(s, e).Some? ensures Inv(Next(s, e).value) { StepKeepsInv(s, e); }
    InvariantOfRuns(Next, Inv, INITIAL, es);
    var s := Exec(Next, INITIAL, es).value;
    forall t, u | t in s.inside && u in s.inside && s.inside[t].InStep() && s.inside[u].InStep() ensures t == u {
      assert LockOk(s, t) && LockOk(s, u);
    }
  }

  // ----- ignored calls -----

  ghost predicate SomeoneInStep(s: State) {
    exists t: Thread :: t in s.inside && s.inside[t].InStep()
  }

  /** As long as no step misbehaves, `executing` says that a thread is in a step. */
  ghost predicate ExecutingOk(s: State) { s.core.executing <==> SomeoneInStep(s) }

  lemma StepKeepsExecuting(s: State, e: Event)
    requires Inv(s) && ExecutingOk(s) && !e.Misbehave? && Next(s, e).Some?
    ensures ExecutingOk(Next(s, e).value)
  {
    var s' := Next(s, e).value;
    if e.Complete? || e.Offer? {
      assert s'.inside == s.inside;
    } else {
      var t := e.t;
      if u: Thread :| u in s.inside && s.inside[u].InStep() && u != t {
        assert LockOk(s, t) && LockOk(s, u);
        assert u in s'.inside && s'.inside[u] == s.inside[u];
      } else {
        assert SomeoneInStep(s) ==> t in s.inside && s.inside[t].InStep();
        assert SomeoneInStep(s') <==> t in s'.inside && s'.inside[t].InStep() by {
          assert forall u: Thread :: u != t && u in s'.inside ==> u in s.inside && s'.inside[u] == s.inside[u];
        }
      }
    }
  }

  /** A call makes its test while another thread is in the way. */
  ghost predicate Collides(s: State, e: Event) {
    || (e.TestExecuting? && exists u: Thread :: u != e.t && u in s.inside && s.inside[u].InStep())
    || (e.TryLock? && exists u: Thread :: u != e.t && u in s.inside && s.inside[u].HoldsLock())
  }

  lemma IgnoredExactlyOnCollision(s: State, e: Event)
    requires Inv(s) && ExecutingOk(s) && Next(s, e).Some?
    requires s.core.lock.Some? ==> s.core.lock.value in s.inside
    ensures Next(s, e).value.ignored == s.ignored + (if Collides(s, e) then 1 else 0)
  {
    if e.TryLock? && s.core.lock.Some? {
      assert LockOk(s, s.core.lock.value) && LockOk(s, e.t);
    } else if e.TryLock? {
      forall u: Thread | u in s.inside ensures !s.inside[u].HoldsLock() { assert LockOk(s, u); }
    }
  }

  ghost predicate NoCollision(s: State, es: seq<Event>)
    decreases |es|
  {
    es == [] || (!Collides(s, es[0]) && (Next(s, es[0]).Some? ==> NoCollision(Next(s, es[0]).value, es[1..])))
  }

  /** The runs in which no step misbehaves. */
  function Tame(s: State, e: Event): Option<State> {
    if e.Misbehave? then None else Next(s, e)
  }

  /** Main result on ignored calls: in every run, calls of the pending task go unheeded if and only
      if some call tests `executing` while another thread is in a step, or tries the lock while
      another thread holds it. */
  lemma CallsAreIgnoredExactlyOnCollision(es: seq<Event>)
    requires Exec(Tame, INITIAL, es).Some?
    ensures Exec(Tame, INITIAL, es).value.ignored == 0 <==> NoCollision(INITIAL, es)
  {
    IgnoredSoFar(INITIAL, es);
  }

  lemma {:induction false} IgnoredSoFar(s: State, es: seq<Event>)
    requires Inv(s) && ExecutingOk(s) && Exec(Tame, s, es).Some?
    ensures Exec(Tame, s, es).value.ignored >= s.ignored
    ensures Exec(Tame, s, es).value.ignored == s.ignored <==> NoCollision(s, es)
    decreases |es|
  {
    if es != [] {
      if s.core.lock.Some? {
        assert LockOk(s, s.core.lock.value);
      }
      IgnoredExactlyOnCollision(s, es[0]);
      StepKeepsInv(s, es[0]);
      StepKeepsExecuting(s, es[0]);
      IgnoredSoFar(Next(s, es[0]).value, es[1..]);
    }
  }

  /** Only `t` calls the task. */
  predicate SoleCaller(es: seq<Event>, t: Thread) {
    forall i :: 0 <= i < |es| && es[i].Call? ==> es[i].t == t
  }

  /** Hence with the single-threaded executor no call of the pending task is ever ignored, however
      other threads complete or cancel it in between. */
  lemma SoleCallerIsNeverIgnored(t: Thread, es: seq<Event>)
    requires SoleCaller(es, t) && Exec(Tame, INITIAL, es).Some?
    ensures Exec(Tame, INITIAL, es).value.ignored == 0
  {
    SoleCallerNeverCollides(INITIAL, t, es);
    CallsAreIgnoredExactlyOnCollision(es);
  }

  lemma {:induction false} SoleCallerNeverCollides(s: State, t: Thread, es: seq<Event>)
    requires s.inside.Keys <= {t} && SoleCaller(es, t) && Exec(Tame, s, es).Some?
    ensures NoCollision(s, es)
    decreases |es|
  {
    if es != [] {
      assert forall u: Thread :: u in s.inside ==> u in s.inside.Keys;
      SoleCallerNeverCollides(Next(s, es[0]).value, t, es[1..]);
    }
  }

  // ----- what an ignored call costs -----

  ghost predicate Carried(s: State, t: Thread) { t in s.inside && s.inside[t].Carries() }

  /** A pending task has one chance to go on: one call owed to it, or one thread bringing it
      control; or it has lost that chance to an ignored call. */
  ghost predicate ChanceInv(s: State) {
    s.core.pending ==>
      && (forall t: Thread, u: Thread :: Carried(s, t) && Carried(s, u) ==> t == u)
      && (forall t: Thread :: Carried(s, t) ==> s.due == 0 && s.ignored == 0)
      && (s.due > 0 ==> s.due == 1 && s.ignored == 0)
      && ((forall t: Thread :: !Carried(s, t)) && s.due == 0 ==> s.ignored == 1)
  }

  /** The runs in which no step misbehaves and nobody calls the task more often than it is owed. */
  function AsOwed(s: State, e: Event): Option<State> {
    if e.Offer? then None else Tame(s, e)
  }

  lemma StepKeepsChance(s: State, e: Event)
    requires ChanceInv(s) && AsOwed(s, e).Some?
    ensures ChanceInv(AsOwed(s, e).value)
  {
    var s' := Next(s, e).value;
    if s'.core.pending && !e.Complete? {
      var t := e.t;
      assert forall u: Thread :: u != t ==> (Carried(s', u) <==> Carried(s, u));
      if Carried(s, t) || e.Call? {
        assert forall u: Thread :: u != t ==> !Carried(s', u);
        assert Carried(s', t) || (s'.due == 0 && s'.ignored == 1) || (s'.due == 1 && s'.ignored == 0);
      } else {
        assert !Carried(s', t) && s'.due == s.due && s'.ignored == s.ignored;
      }
    }
  }

  /** A pending task that nobody is calling and nobody will call. */
  predicate Stranded(s: State) { s.core.pending && s.inside == map[] && s.due == 0 }

  /** Main result on what is lost: as long as the task is pending at most one of its calls has been
      ignored, and when nobody is inside it is stranded if and only if one has. */
  lemma StrandedExactlyByAnIgnoredCall(es: seq<Event>)
    requires Exec(AsOwed, INITIAL, es).Some?
    ensures var s := Exec(AsOwed, INITIAL, es).value;
      s.core.pending ==> s.ignored <= 1 && (s.inside == map[] ==> (Stranded(s) <==> s.ignored == 1))
  {
    forall s, e | ChanceInv(s) && AsOwed(s, e).Some? ensures ChanceInv(AsOwed(s, e).value) { StepKeepsChance(s, e); }
    InvariantOfRuns(AsOwed, ChanceInv, INITIAL, es);
    var s := Exec(AsOwed, INITIAL, es).value;
    if s.core.pending && s.ignored > 0 {
      assert forall t: Thread :: !Carried(s, t);
    }
  }

  /** ... and then for good: nobody ever enters it again. */
  lemma StrandedForEver(s: State, es: seq<Event>)
    requires Stranded(s) && Exec(AsOwed, s, es).Some?
    ensures Exec(AsOwed, s, es).value.inside == map[] && Exec(AsOwed, s, es).value.due == 0
  {
    var inv := (s: State) => s.inside == map[] && s.due == 0;
    InvariantOfRuns(AsOwed, inv, s, es);
  }

  /** It happens with two workers. The one that suspends the task has not reset `executing` when
      the other, which was handed the task because its future has completed, looks: the one call
      owed to the suspended task is ignored, and it is stranded. */
  lemma ResumeCanBeIgnored()
    ensures exists s :: Reaches(AsOwed, INITIAL, s) && s.parked && s.ignored == 1 && Stranded(s)
  {
    var s := FirstStepSuspends();
    s := SecondCallIsIgnored(s);
    s := Drive(AsOwed, INITIAL, s, Reset(0));
    s := Drive(AsOwed, INITIAL, s, Release(0));
    assert s.inside == map[];
  }

  /** Thread 0 has run the task up to its first suspension. */
  lemma FirstStepSuspends() returns (s: State)
    ensures Reaches(AsOwed, INITIAL, s)
    ensures s == State(Core(true, true, Some(0), true), map[0 := Unwinding], true, 1, 0)
  {
    s := PassesTests();
    s := Drive(AsOwed, INITIAL, s, TryLock(0));
    s := Drive(AsOwed, INITIAL, s, TestAgain(0));
    s := Drive(AsOwed, INITIAL, s, Suspend(0));
    assert s.inside == map[0 := Unwinding];
  }

  lemma PassesTests() returns (s: State)
    ensures Reaches(AsOwed, INITIAL, s)
    ensures s == State(Core(true, false, None, true), map[0 := SawIdle], false, 0, 0)
  {
    ReachesStart(AsOwed, INITIAL);
    s := Drive(AsOwed, INITIAL, INITIAL, Call(0));
    s := Drive(AsOwed, INITIAL, s, TestPending(0));
    s := Drive(AsOwed, INITIAL, s, TestExecuting(0));
    assert s.inside == map[0 := SawIdle];
  }

  lemma SecondCallIsIgnored(s: State) returns (s': State)
    requires Reaches(AsOwed, INITIAL, s)
    requires s.core.pending && s.core.executing && s.inside == map[0 := Unwinding] && s.due == 1
    ensures Reaches(AsOwed, INITIAL, s') && s' == s.(due := 0, ignored := s.ignored + 1)
  {
    s' := Drive(AsOwed, INITIAL, s, Call(1));
    s' := Drive(AsOwed, INITIAL, s', TestPending(1));
    assert s'.inside == map[0 := Unwinding, 1 := SawPending];
    s' := Drive(AsOwed, INITIAL, s', TestExecuting(1));
    assert s'.inside == s.inside;
  }

  // ----- after a step that misbehaved -----

  /** `executing` is set although nobody is in a step, or about to be. */
  ghost predicate Wedged(s: State) {
    && s.core.executing && s.core.lock.None?
    && forall t :: t in s.inside ==> s.inside[t].Entered? || s.inside[t].SawPending?
  }

  /** A task on which `executing` was left set while nobody is past the tests never runs again,
      however often it is called, even while it is pending. */
  lemma {:induction false} WedgedForEver(s: State, es: seq<Event>)
    requires Wedged(s) && Exec(Next, s, es).Some?
    ensures Wedged(Exec(Next, s, es).value)
    decreases |es|
  {
    if es != [] {
      WedgedForEver(Next(s, es[0]).value, es[1..]);
    }
  }

  /** A step that misbehaves leaves the task in that state, as pending as it was, if and only if no
      other thread is already past the test of `executing`. */
  lemma MisbehaviourWedges(s: State, t: Thread)
    requires LockInv(s) && s.At(t, Stepping) && s.core.executing
    ensures var end := Exec(Next, s, [Misbehave(t), Release(t)]);
      && end.Some? && end.value.core.pending == s.core.pending
      && (Wedged(end.value) <==> forall u: Thread :: !s.At(u, SawIdle))
  {
    var s1 := s.Move(t, Releasing);
    ExecCons(Next, s, Misbehave(t), [Release(t)]);
    ExecCons(Next, s1, Release(t), []);
    assert [Misbehave(t)] + [Release(t)] == [Misbehave(t), Release(t)] && [Release(t)] + [] == [Release(t)];
    var s2 := s1.Leave(t).(core := s.core.Release());
    assert Next(s, Misbehave(t)) == Some(s1) && Next(s1, Release(t)) == Some(s2);
    assert Exec(Next, s, [Misbehave(t), Release(t)]) == Some(s2);
    assert LockOk(s, t);
    forall u: Thread | u in s2.inside
      ensures u in s.inside && s2.inside[u] == s.inside[u] && !s.inside[u].HoldsLock()
    {
      assert LockOk(s, u) && LockOk(s, t) && u != t;
    }
    if u: Thread :| s.At(u, SawIdle) {
      assert u in s2.inside && s2.inside[u].SawIdle?;
    } else {
      forall u: Thread | u in s2.inside ensures s2.inside[u].Entered? || s2.inside[u].SawPending? {
        assert !s.At(u, SawIdle);
      }
      assert Wedged(s2);
    }
  }
}
