/** Spinning against concurrent shutdown calls (rclpy/executors.py:318-331, 386-455, 512-520,
    584-594, 842-1087 and 1101-1112). Any number of threads spin and shut down; the wait for
    callbacks to drain is that of WorkTracking. */
module Shutdown {
  import opened Options
  import opened Runs
  import WorkTracking

  type Thread = WorkTracking.Thread

  /** Where _cb_iter is suspended: nowhere (there is none, it has ended, or it is running), at the
      yield of a task of the ready queue, or at the yield of the handler of an entity. */
  datatype Pause = Nowhere | AtTask | AtEntity

  /** `spinner` is _is_spinning with _spinning_thread, `guards` says that the guard conditions
      exist. */
  datatype Control = Control(spinner: Option<Thread>, isShutdown: bool, guards: bool, pause: Pause) {
    function Enter(t: Thread): Control { if spinner.None? then this.(spinner := Some(t)) else this }

    function Exit(): Control { this.(spinner := None) }

    function MarkShutdown(): Control { this.(isShutdown := true) }

    /** Whether `t` need not, or no longer, wait for the spinning thread. */
    predicate SpinnerGone(t: Thread) { spinner == Some(t) || spinner.None? }

    function DestroyGuards(): Control { this.(guards := false) }

    function DropGenerator(): Control { this.(pause := Nowhere) }
  }

  class Executor {
    var spinner: Option<Thread>
    var isShutdown: bool
    var guards: bool
    var pause: Pause

    function Contents(): Control reads this { Control(spinner, isShutdown, guards, pause) }

    constructor ()
      ensures Contents() == Control(None, false, true, Nowhere)
    {
      spinner, isShutdown, guards, pause := None, false, true, Nowhere;
    }

    /** False stands for the RuntimeError of a second spin. */
    method EnterSpin(t: Thread) returns (entered: bool)
      modifies this
      ensures entered <==> old(spinner).None?
      ensures Contents() == old(Contents()).Enter(t)
    {
      entered := spinner.None?;
      if entered {
        spinner := Some(t);
      }
    }

    method ExitSpin()
      modifies this
      ensures Contents() == old(Contents()).Exit()
    {
      spinner := None;
    }

    method MarkShutdown() returns (initiated: bool)
      modifies this
      ensures initiated <==> !old(isShutdown)
      ensures Contents() == old(Contents()).MarkShutdown()
    {
      initiated := !isShutdown;
      if initiated {
        isShutdown := true;
      }
    }

    method DestroyGuards() returns (destroyed: bool)
      modifies this
      ensures destroyed <==> old(guards)
      ensures Contents() == old(Contents()).DestroyGuards()
    {
      destroyed := guards;
      if guards {
        guards := false;
      }
    }

    method DropGenerator()
      modifies this
      ensures Contents() == old(Contents()).DropGenerator()
    {
      pause := Nowhere;
    }
  }

  /** Where the spinning thread is. `Testing`: before the loop condition of spin. `Fetching`:
      about to advance the generator. `Waiting`: the pass has collected the guards, if there are
      any, and waits. `Calling`: running what the generator yielded. */
  datatype Phase = Out | Testing | Fetching | Waiting | Calling | Leaving

  /** Progress of a shutdown call. */
  datatype Call = Flagged | Draining(added: bool) | Drained | Cleared | Destroyed | Answered(success: bool)

  /** `looping` tells spin and spin_until_future_complete, which test _is_shutdown before every
      pass, from spin_once. `holding` says that the guards were there when the present wait began.
      The last five fields are history: which threads' present or latest
      shutdown calls came back from their wait with a drained tracker, whether any call has got
      past its check for the spinner, how often the guards were destroyed and whether the call
      that did so had drained, and whether the present spin was entered after shutdown had been
      called. */
  datatype State = State(
    control: Control, core: WorkTracking.Core,
    phase: Phase, looping: bool, holding: bool, calls: map<Thread, Call>,
    drains: set<Thread>, cleared: bool, destructions: nat, drainedFirst: bool, late: bool)

  datatype Event =
    | EnterSpin(t: Thread, looping: bool)
    | Test
    | FreshPass(work: bool)   // a generator starts at the head of its loop
    | ResumePass(work: bool)  // the generator continues where it was paused
    | Woken(work: bool)       // the wait is over
    | GiveUp                  // time is up, or the condition of the caller holds
    | CallbackDone
    | Quit                    // the future is done, the context is gone, or a callback has raised
    | ExitSpin
    | WorkStarts(t: Thread)     // track_callback on any thread
    | WorkEnds(t: Thread)
    | CallShutdown(t: Thread)
    | BeginDrain(t: Thread)
    | EndDrain(t: Thread)
    | CheckSpinner(t: Thread)
    | GiveUpOnSpinner(t: Thread)
    | Destroy(t: Thread)
    | Finish(t: Thread)

  const INITIAL := State(
    Control(None, false, true, Nowhere), WorkTracking.Core(map[], {}), Out, true, false, map[], {}, false, 0, false, false)

  predicate At(s: State, t: Thread, c: Call) { t in s.calls && s.calls[t] == c }

  /** A thread inside shutdown does nothing else. */
  predicate Busy(s: State, t: Thread) { t in s.calls && !s.calls[t].Answered? }

  predicate SpinnerAt(s: State, p: Phase) {
    s.phase == p && s.control.spinner.Some? && !Busy(s, s.control.spinner.value)
  }

  /** What the spinning thread itself changes between entering and leaving. */
  datatype Spinning = Spinning(phase: Phase, pause: Pause, holding: bool)

  /** After a pass that raised or yielded nothing more: back to the loop, or out of spin_once. */
  function AfterPass(s: State): Phase { if s.looping then Testing else Leaving }

  function MoveOn(s: State, p: Phase): Spinning { Spinning(p, s.control.pause, s.holding) }

  function Yield(s: State, at: Pause): Spinning { Spinning(Calling, at, s.holding) }

  function BeginWait(s: State): Spinning { Spinning(Waiting, Nowhere, s.control.guards) }

  /** The generator has ended. */
  function Ended(s: State, p: Phase): Spinning { Spinning(p, Nowhere, s.holding) }

  /** Where each step of the spinning thread is taken. */
  predicate CanStep(s: State, e: Event) {
    match e
    case Test => SpinnerAt(s, Testing)
    case FreshPass(_) => SpinnerAt(s, Fetching)
    case ResumePass(_) => SpinnerAt(s, Fetching) && !s.control.pause.Nowhere?
    case Woken(_) => SpinnerAt(s, Waiting)
    case GiveUp => SpinnerAt(s, Waiting) || (SpinnerAt(s, Fetching) && !s.control.pause.AtTask?)
    case CallbackDone => SpinnerAt(s, Calling)
    case Quit => SpinnerAt(s, Testing) || SpinnerAt(s, Waiting) || SpinnerAt(s, Calling)
    case _ => false
  }

  function Step(s: State, e: Event): Spinning
    requires CanStep(s, e)
  {
    match e
    case Test => MoveOn(s, if s.control.isShutdown then Leaving else Fetching)
    case FreshPass(work) =>
      if s.control.isShutdown then Ended(s, AfterPass(s))
      else if work then Yield(s, AtTask)
      else BeginWait(s)
    case ResumePass(work) =>
      if work then Yield(s, s.control.pause)
      else if s.control.pause.AtTask? then BeginWait(s)
      else Ended(s, if s.control.isShutdown then AfterPass(s) else Fetching)
    case Woken(work) =>
      if s.control.isShutdown then Ended(s, AfterPass(s))
      else if work then Yield(s, AtEntity)
      else MoveOn(s, Fetching)
    case GiveUp => Ended(s, AfterPass(s))
    case CallbackDone => MoveOn(s, AfterPass(s))
    case Quit => if s.phase.Waiting? then Ended(s, Leaving) else MoveOn(s, Leaving)
  }

  predicate ByShutdown(e: Event) {
    e.CallShutdown? || e.BeginDrain? || e.EndDrain? || e.CheckSpinner? || e.GiveUpOnSpinner? || e.Destroy? || e.Finish?
  }

  function Next(s: State, e: Event): Option<State> {
    if CanStep(s, e) then
      var spin := Step(s, e);
      Some(s.(phase := spin.phase, holding := spin.holding, control := s.control.(pause := spin.pause)))
    else if ByShutdown(e) then ShutdownStep(s, e)
    else match e
      case EnterSpin(t, loop) =>
        if s.control.spinner.None? && !Busy(s, t)
        then Some(s.(control := s.control.Enter(t), phase := if loop then Testing else Fetching,
                     looping := loop, late := s.control.isShutdown))
        else None
      case ExitSpin =>
        if SpinnerAt(s, Leaving) then Some(s.(control := s.control.Exit(), phase := Out)) else None
      case WorkStarts(t) => if Busy(s, t) then None else Some(s.(core := s.core.Enter(t)))
      case WorkEnds(t) =>
        if s.core.Count(t) > 0 then Some(s.(core := s.core.Leave(t))) else None
      case _ => None
  }

  /** The steps of a shutdown call. */
  function ShutdownStep(s: State, e: Event): Option<State>
    requires ByShutdown(e)
  {
    match e
    case CallShutdown(t) =>
      if Busy(s, t) || (s.control.spinner == Some(t) && !s.phase.Calling?) then None
      else Some(s.(control := s.control.MarkShutdown(), calls := s.calls[t := Flagged], drains := s.drains - {t}))
    case BeginDrain(t) =>
      if At(s, t, Flagged)
      then Some(s.(core := s.core.Join(t), calls := s.calls[t := Draining(t !in s.core.waiting)])) else None
    case EndDrain(t) =>
      if t in s.calls && s.calls[t].Draining? then
        var drained := s.core.Drained();
        Some(s.(core := s.core.Part(t, s.calls[t].added, drained),
                calls := s.calls[t := if drained then Drained else Answered(false)],
                drains := if drained then s.drains + {t} else s.drains))
      else None
    case CheckSpinner(t) =>
      if At(s, t, Drained) && s.control.SpinnerGone(t)
      then Some(s.(calls := s.calls[t := Cleared], cleared := true)) else None
    case GiveUpOnSpinner(t) =>
      if At(s, t, Drained) && !s.control.SpinnerGone(t)
      then Some(s.(calls := s.calls[t := Answered(false)])) else None
    case Destroy(t) =>
      if At(s, t, Cleared)
      then Some(s.(control := s.control.DestroyGuards(), calls := s.calls[t := Destroyed],
                   destructions := s.destructions + (if s.control.guards then 1 else 0),
                   drainedFirst := if s.control.guards then t in s.drains else s.drainedFirst))
      else None
    case Finish(t) =>
      if At(s, t, Destroyed)
      then Some(s.(control := s.control.DropGenerator(), calls := s.calls[t := Answered(true)])) else None
  }

  /** Between its flag test and the end of its wait a spin may use the guard conditions. */
  predicate InPass(s: State) { s.phase.Fetching? || s.phase.Waiting? }

  ghost predicate SpinInv(s: State) {
    && (s.phase.Out? <==> s.control.spinner.None?)
    && (forall t: Thread :: Busy(s, t) && s.control.spinner == Some(t) ==> s.phase.Calling?)
    && (s.calls != map[] || s.cleared ==> s.control.isShutdown)
    && (s.phase.Waiting? ==> s.control.pause.Nowhere? && (s.control.guards ==> s.holding))
  }

  ghost predicate GuardInv(s: State) {
    && (forall t: Thread :: At(s, t, Drained) || At(s, t, Cleared) ==> t in s.drains)
    && (forall t: Thread :: At(s, t, Cleared) || At(s, t, Destroyed) ==> s.cleared)
    && (forall t: Thread :: At(s, t, Destroyed) || At(s, t, Answered(true)) ==> !s.control.guards)
    && s.destructions == (if s.control.guards then 0 else 1)
    && (!s.control.guards ==> s.cleared && s.drainedFirst)
  }

  ghost predicate Inv(s: State) { SpinInv(s) && GuardInv(s) }

  lemma StepKeepsInv(s: State, e: Event)
    requires Inv(s) && Next(s, e).Some?
    ensures Inv(Next(s, e).value)
  {
    StepKeepsSpin(s, e);
    StepKeepsGuard(s, e);
  }

  /** What spinning and working leave alone. */
  lemma SpinningFrame(s: State, e: Event)
    requires !ByShutdown(e) && Next(s, e).Some?
    ensures var s' := Next(s, e).value;
      && s'.calls == s.calls && s'.drains == s.drains && s'.cleared == s.cleared
      && s'.destructions == s.destructions && s'.drainedFirst == s.drainedFirst
      && s'.control.guards == s.control.guards && s'.control.isShutdown == s.control.isShutdown
  {
  }

  /** What a shutdown call leaves alone. */
  lemma ShutdownFrame(s: State, e: Event)
    requires ByShutdown(e) && Next(s, e).Some?
    ensures var s' := Next(s, e).value;
      && s'.phase == s.phase && s'.holding == s.holding && s'.control.spinner == s.control.spinner
      && (s'.control.pause == s.control.pause || s'.control.pause.Nowhere?)
      && (s'.control.guards ==> s.control.guards)
      && (s.control.isShutdown || e.CallShutdown? ==> s'.control.isShutdown)
      && s'.calls.Keys == s.calls.Keys + {e.t}
      && (s.cleared || e.CheckSpinner? <==> s'.cleared)
      && forall t: Thread :: t != e.t && t in s.calls ==> t in s'.calls && s'.calls[t] == s.calls[t]
  {
    match e
    case EndDrain(t) =>
    case Destroy(t) =>
    case _ =>
  }

  lemma StepKeepsSpin(s: State, e: Event)
    requires SpinInv(s) && Next(s, e).Some?
    ensures SpinInv(Next(s, e).value)
  {
    var s' := Next(s, e).value;
    if ByShutdown(e) {
      ShutdownFrame(s, e);
      assert e.t in s'.calls;
      CallKeepsSpin(s, e);
    } else {
      SpinningFrame(s, e);
      SpinningKeepsSpin(s, e);
    }
  }

  lemma CallKeepsSpin(s: State, e: Event)
    requires ByShutdown(e) && SpinInv(s) && Next(s, e).Some?
    ensures SpinInv(Next(s, e).value)
  {
    var s' := Next(s, e).value;
    ShutdownFrame(s, e);
    assert s.calls != map[] || e.CallShutdown? by {
      assert e.CallShutdown? || e.t in s.calls;
    }
    assert s.control.spinner == Some(e.t) ==> s.phase.Calling? by {
      assert e.CallShutdown? || Busy(s, e.t);
    }
    assert forall t: Thread :: t != e.t ==> (Busy(s', t) <==> Busy(s, t));
  }

  lemma SpinningKeepsSpin(s: State, e: Event)
    requires !ByShutdown(e) && SpinInv(s) && Next(s, e).Some?
    ensures SpinInv(Next(s, e).value)
  {
    var s' := Next(s, e).value;
    SpinningFrame(s, e);
    assert forall t: Thread :: Busy(s', t) <==> Busy(s, t);
    if CanStep(s, e) {
      StepFacts(s, e);
    }
  }

  lemma StepFacts(s: State, e: Event)
    requires CanStep(s, e)
    ensures s.control.spinner.Some? && !Busy(s, s.control.spinner.value)
    ensures var spin := Step(s, e);
      && !spin.phase.Out?
      && (spin.phase.Waiting? ==> spin.pause.Nowhere? && spin.holding == s.control.guards)
      && (s.control.isShutdown ==>
            && (spin.pause.AtTask? ==> s.control.pause.AtTask?)
            && (spin.phase.Waiting? ==> s.control.pause.AtTask?))
  {
  }

  lemma StepKeepsGuard(s: State, e: Event)
    requires GuardInv(s) && Next(s, e).Some?
    ensures GuardInv(Next(s, e).value)
  {
    if ByShutdown(e) {
      CallKeepsGuard(s, e);
    } else {
      SpinningFrame(s, e);
      GuardInvFramed(s, Next(s, e).value);
    }
  }

  lemma GuardInvFramed(s: State, s': State)
    requires GuardInv(s) && s'.calls == s.calls && s'.drains == s.drains && s'.cleared == s.cleared
    requires s'.destructions == s.destructions && s'.drainedFirst == s.drainedFirst
    requires s'.control.guards == s.control.guards
    ensures GuardInv(s')
  {
    assert forall t: Thread, c :: At(s', t, c) <==> At(s, t, c);
  }

  lemma CallKeepsGuard(s: State, e: Event)
    requires ByShutdown(e) && GuardInv(s) && Next(s, e).Some?
    ensures GuardInv(Next(s, e).value)
  {
    var s' := Next(s, e).value;
    assert forall t: Thread, c :: t != e.t ==> (At(s', t, c) <==> At(s, t, c));
  }

  /** At most one thread spins (`spinner` is an option and only its owner's steps are possible);
      the guards are destroyed at most once, only with the flag set and only by a call whose own
      wait came back with a drained tracker. */
  lemma GuardsDestroyedOnceAfterDrain(es: seq<Event>)
    requires Exec(Next, INITIAL, es).Some?
    ensures var s := Exec(Next, INITIAL, es).value;
      && s.destructions <= 1
      && (s.control.guards <==> s.destructions == 0)
      && (!s.control.guards ==> s.control.isShutdown && s.drainedFirst)
      && (forall t: Thread :: At(s, t, Answered(true)) ==> !s.control.guards)
  {
    forall s, e | Inv(s) && Next(s, e).Some? ensures Inv(Next(s, e).value) { StepKeepsInv(s, e); }
    InvariantOfRuns(Next, Inv, INITIAL, es);
  }

  /** The flag is set exactly if somebody has called shutdown. */
  ghost predicate FlagInv(s: State) { s.control.isShutdown <==> s.calls != map[] }

  lemma StepKeepsFlag(s: State, e: Event)
    requires FlagInv(s) && Next(s, e).Some?
    ensures FlagInv(Next(s, e).value)
  {
    if ByShutdown(e) {
      ShutdownFrame(s, e);
      assert e.t in Next(s, e).value.calls;
      assert e.CallShutdown? || e.t in s.calls;
    } else {
      SpinningFrame(s, e);
    }
  }

  /** A looping spin goes on for another pass, at its test and after a callback, until somebody has
      called shutdown, and leaves after that; spin_once leaves after its callback. */
  lemma SpinGoesOnUntilShutdown(es: seq<Event>)
    requires Exec(Next, INITIAL, es).Some?
    ensures var s := Exec(Next, INITIAL, es).value;
      var onward := if s.calls == map[] then Fetching else Leaving;
      && (SpinnerAt(s, Testing) ==> Next(s, Test).Some? && Next(s, Test).value.phase == onward)
      && (SpinnerAt(s, Calling) && s.looping ==>
            Exec(Next, s, [CallbackDone, Test]).Some? && Exec(Next, s, [CallbackDone, Test]).value.phase == onward)
      && (SpinnerAt(s, Calling) && !s.looping ==>
            Next(s, CallbackDone).Some? && Next(s, CallbackDone).value.phase == Leaving)
  {
    forall s, e | FlagInv(s) && Next(s, e).Some? ensures FlagInv(Next(s, e).value) { StepKeepsFlag(s, e); }
    InvariantOfRuns(Next, FlagInv, INITIAL, es);
    var s := Exec(Next, INITIAL, es).value;
    if SpinnerAt(s, Calling) && s.looping {
      var fs, s' := Grow(Next, s, [], s, CallbackDone);
      fs, s' := Grow(Next, s, fs, s', Test);
      assert fs == [CallbackDone, Test];
    }
  }

  // ----- one shutdown call, undisturbed -----

  /** Some other thread works and is not committed to finishing. */
  ghost predicate OthersWork(s: State, t: Thread) {
    exists u :: u in s.core.counts && u != t && u !in s.core.waiting
  }

  /** What is left to do after the wait. */
  function AfterDrain(control: Control, t: Thread): seq<Event> {
    if control.SpinnerGone(t) then [CheckSpinner(t), Destroy(t), Finish(t)] else [GiveUpOnSpinner(t)]
  }

  /** A shutdown call that nobody disturbs succeeds if and only if no other thread has work in
      flight that it must wait for and no other thread spins; only then does it destroy the guards
      and drop the generator; and it sets the flag in any case. */
  lemma UndisturbedShutdown(s: State, t: Thread)
    requires !Busy(s, t) && (s.control.spinner == Some(t) ==> s.phase.Calling?)
    ensures var drained := !OthersWork(s, t);
      var end := Exec(Next, s, [CallShutdown(t), BeginDrain(t), EndDrain(t)] + if drained then AfterDrain(s.control, t) else []);
      var success := drained && s.control.SpinnerGone(t);
      && end.Some? && At(end.value, t, Answered(success))
      && end.value.control == s.control.(isShutdown := true, guards := !success && s.control.guards,
                                         pause := if success then Nowhere else s.control.pause)
  {
    var es, s' := DrainAnswers(s, t);
    if OthersWork(s, t) {
      assert es + [] == es;
    } else {
      ExecConcat(Next, s, es, AfterDrain(s.control, t));
      var rest, end := AfterDrainAnswers(s', t);
    }
  }

  lemma DrainAnswers(s: State, t: Thread) returns (es: seq<Event>, s': State)
    requires !Busy(s, t) && (s.control.spinner == Some(t) ==> s.phase.Calling?)
    ensures es == [CallShutdown(t), BeginDrain(t), EndDrain(t)] && Exec(Next, s, es) == Some(s')
    ensures At(s', t, if OthersWork(s, t) then Answered(false) else Drained)
    ensures s'.control == s.control.MarkShutdown()
  {
    es, s' := DrainBegins(s, t);
    JoinedIsDrained(s, t);
    es, s' := Grow(Next, s, es, s', EndDrain(t));
  }

  lemma DrainBegins(s: State, t: Thread) returns (es: seq<Event>, s': State)
    requires !Busy(s, t) && (s.control.spinner == Some(t) ==> s.phase.Calling?)
    ensures es == [CallShutdown(t), BeginDrain(t)] && Exec(Next, s, es) == Some(s')
    ensures s'.core == s.core.Join(t) && At(s', t, Draining(t !in s.core.waiting))
    ensures s'.control == s.control.MarkShutdown()
  {
    es, s' := Grow(Next, s, [], s, CallShutdown(t));
    es, s' := Grow(Next, s, es, s', BeginDrain(t));
  }

  lemma JoinedIsDrained(s: State, t: Thread)
    ensures s.core.Join(t).Drained() <==> !OthersWork(s, t)
  {
    var core := s.core.Join(t);
    if u :| u in core.counts.Keys && u !in core.waiting {
      assert u in s.core.counts && u != t && u !in s.core.waiting;
    }
    if u :| u in s.core.counts && u != t && u !in s.core.waiting {
      assert u in core.counts.Keys && u !in core.waiting;
    }
  }

  lemma AfterDrainAnswers(s: State, t: Thread) returns (es: seq<Event>, s': State)
    requires At(s, t, Drained)
    ensures es == AfterDrain(s.control, t) && Exec(Next, s, es) == Some(s')
    ensures var success := s.control.SpinnerGone(t);
      && At(s', t, Answered(success))
      && s'.control == s.control.(guards := !success && s.control.guards,
                                  pause := if success then Nowhere else s.control.pause)
  {
    if s.control.SpinnerGone(t) {
      es, s' := GuardsGo(s, t);
      es, s' := Grow(Next, s, es, s', Finish(t));
    } else {
      es, s' := Grow(Next, s, [], s, GiveUpOnSpinner(t));
    }
  }

  lemma GuardsGo(s: State, t: Thread) returns (es: seq<Event>, s': State)
    requires At(s, t, Drained) && s.control.SpinnerGone(t)
    ensures es == [CheckSpinner(t), Destroy(t)] && Exec(Next, s, es) == Some(s')
    ensures At(s', t, Destroyed) && s'.control == s.control.DestroyGuards()
  {
    es, s' := Grow(Next, s, [], s, CheckSpinner(t));
    es, s' := Grow(Next, s, es, s', Destroy(t));
  }

  /** Only spin and spin_until_future_complete are used, not spin_once. */
  ghost predicate LoopsOnly(es: seq<Event>) {
    forall e :: e in es && e.EnterSpin? ==> e.looping
  }

  ghost predicate SafeInv(s: State) {
    && Inv(s)
    && s.looping
    && (s.cleared ==> !InPass(s))
    && (s.late ==> s.control.isShutdown && !InPass(s) && !s.phase.Calling?)
  }

  lemma StepKeepsSafe(s: State, e: Event)
    requires SafeInv(s) && Next(s, e).Some? && (e.EnterSpin? ==> e.looping)
    ensures SafeInv(Next(s, e).value)
  {
    StepKeepsInv(s, e);
  }

  lemma {:induction false} RunKeepsSafe(s: State, es: seq<Event>)
    requires SafeInv(s) && LoopsOnly(es) && Exec(Next, s, es).Some?
    ensures SafeInv(Exec(Next, s, es).value)
    decreases |es|
  {
    if es != [] {
      assert es[0] in es;
      StepKeepsSafe(s, es[0]);
      RunKeepsSafe(Next(s, es[0]).value, es[1..]);
    }
  }

  /** Main result: in every run of any number of spins and shutdowns, from the moment a shutdown
      call has checked for the spinner until forever, no thread is inside a pass, so nobody can
      be using the guards when they are destroyed or look for them afterwards; and a spin that
      is entered after shutdown was called never starts a pass. */
  lemma NobodyUsesDestroyedGuards(es: seq<Event>)
    requires LoopsOnly(es) && Exec(Next, INITIAL, es).Some?
    ensures var s := Exec(Next, INITIAL, es).value;
      && (forall t: Thread :: At(s, t, Cleared) || At(s, t, Destroyed) ==> !InPass(s))
      && (!s.control.guards ==> !InPass(s))
      && (s.late ==> !InPass(s) && !s.phase.Calling?)
  {
    RunKeepsSafe(INITIAL, es);
  }

  // ----- spin_once -----

  /** The spinning thread has itself called shutdown, from its callback, and has got so far that
      it will finish the call, which drops the paused generator, before it does anything else. */
  predicate Committed(s: State) {
    && s.control.spinner.Some?
    && var t := s.control.spinner.value; At(s, t, Drained) || At(s, t, Cleared) || At(s, t, Destroyed)
  }

  /** A pass waits, having collected the guards. */
  predicate OnGuards(s: State) { s.phase.Waiting? && s.holding }

  /** What a caller can see before it spins: the guards are still there, and a generator is paused
      at a task of the ready queue, which nobody will drop. */
  predicate AtRisk(s: State) { s.control.pause.AtTask? && s.control.guards && !Committed(s) }

  /** Some continuation has a pass waiting on the guards. */
  ghost predicate WaitsLater(s: State) {
    exists es :: Exec(Next, s, es).Some? && OnGuards(Exec(Next, s, es).value)
  }

  lemma StepKeepsSafety(s: State, e: Event)
    requires Inv(s) && s.cleared && !OnGuards(s) && !AtRisk(s) && Next(s, e).Some?
    ensures var s' := Next(s, e).value; s'.cleared && !OnGuards(s') && !AtRisk(s')
  {
    if ByShutdown(e) {
      CallKeepsSafety(s, e);
    } else {
      SpinningKeepsSafety(s, e);
    }
  }

  lemma CallKeepsSafety(s: State, e: Event)
    requires ByShutdown(e) && s.cleared && !OnGuards(s) && !AtRisk(s) && Next(s, e).Some?
    ensures var s' := Next(s, e).value; s'.cleared && !OnGuards(s') && !AtRisk(s')
  {
    ShutdownFrame(s, e);
    if Committed(s) && e.t == s.control.spinner.value {
      assert e.CheckSpinner? || e.Destroy? || e.Finish?;
    }
  }

  lemma SpinningKeepsSafety(s: State, e: Event)
    requires !ByShutdown(e) && SpinInv(s) && s.cleared && !OnGuards(s) && !AtRisk(s) && Next(s, e).Some?
    ensures var s' := Next(s, e).value; s'.cleared && !OnGuards(s') && !AtRisk(s')
  {
    var s' := Next(s, e).value;
    SpinningFrame(s, e);
    assert s.control.isShutdown;
    if CanStep(s, e) {
      StepFacts(s, e);
      assert !Committed(s);
    }
  }

  lemma {:induction false} SafeForEver(s: State, es: seq<Event>)
    requires Inv(s) && s.cleared && !OnGuards(s) && !AtRisk(s) && Exec(Next, s, es).Some?
    ensures !OnGuards(Exec(Next, s, es).value)
    decreases |es|
  {
    if es != [] {
      StepKeepsInv(s, es[0]);
      StepKeepsSafety(s, es[0]);
      SafeForEver(Next(s, es[0]).value, es[1..]);
    }
  }

  /** Main result for all ways of spinning: in every reachable state after a shutdown call has
      checked for the spinner, a pass waits on the guards now or in some continuation if and only
      if one waits already, or the guards are still there and a generator is paused at a task of
      the ready queue that nobody is about to drop. */
  lemma WaitsLaterExactlyIfPausedAtTask(es: seq<Event>)
    requires Exec(Next, INITIAL, es).Some? && Exec(Next, INITIAL, es).value.cleared
    ensures var s := Exec(Next, INITIAL, es).value; WaitsLater(s) <==> OnGuards(s) || AtRisk(s)
  {
    forall s, e | Inv(s) && Next(s, e).Some? ensures Inv(Next(s, e).value) { StepKeepsInv(s, e); }
    InvariantOfRuns(Next, Inv, INITIAL, es);
    var s := Exec(Next, INITIAL, es).value;
    if OnGuards(s) {
      assert Exec(Next, s, []) == Some(s);
    } else if AtRisk(s) {
      PausedGeneratorCanWait(s);
    } else {
      forall fs | Exec(Next, s, fs).Some? ensures !OnGuards(Exec(Next, s, fs).value) { SafeForEver(s, fs); }
    }
  }

  /** Destroying the guards ends the danger for every pass that has not begun to wait; and a shutdown
      that has finished leaves no generator paused. */
  lemma FinishedShutdownIsSafe(es: seq<Event>, t: Thread)
    requires Exec(Next, INITIAL, es).Some?
    requires At(Exec(Next, INITIAL, es).value, t, Destroyed)
    ensures var s := Exec(Next, INITIAL, es).value; WaitsLater(s) ==> OnGuards(s)
    ensures var s := Next(Exec(Next, INITIAL, es).value, Finish(t)).value;
      s.control.pause.Nowhere? && (WaitsLater(s) ==> OnGuards(s))
  {
    forall s, e | Inv(s) && Next(s, e).Some? ensures Inv(Next(s, e).value) { StepKeepsInv(s, e); }
    InvariantOfRuns(Next, Inv, INITIAL, es);
    var s := Exec(Next, INITIAL, es).value;
    StepKeepsInv(s, Finish(t));
    NotLater(s);
    NotLater(Next(s, Finish(t)).value);
  }

  lemma NotLater(s: State)
    requires Inv(s) && s.cleared && !AtRisk(s)
    ensures WaitsLater(s) ==> OnGuards(s)
  {
    if !OnGuards(s) {
      forall es | Exec(Next, s, es).Some? ensures !OnGuards(Exec(Next, s, es).value) { SafeForEver(s, es); }
    }
  }

  lemma WaitsAfterStep(s: State, e: Event)
    requires Next(s, e).Some? && WaitsLater(Next(s, e).value)
    ensures WaitsLater(s)
  {
    var es :| Exec(Next, Next(s, e).value, es).Some? && OnGuards(Exec(Next, Next(s, e).value, es).value);
    ExecCons(Next, s, e, es);
    assert OnGuards(Exec(Next, s, [e] + es).value);
  }

  lemma {:induction false} UnusedThread(ts: set<Thread>) returns (t: Thread)
    ensures forall u: Thread :: u in ts ==> u < t
    decreases |ts|
  {
    if ts == {} {
      t := 0;
    } else {
      var u: Thread :| u in ts;
      t := UnusedThread(ts - {u});
      t := if u < t then t else u + 1;
      assert forall v: Thread :: v in ts ==> v == u || v in ts - {u};
    }
  }

  /** From every phase the paused generator can be taken up again, the guards being there. */
  lemma PausedGeneratorCanWait(s: State)
    requires Inv(s) && s.cleared && AtRisk(s)
    ensures WaitsLater(s)
  {
    if s.control.spinner.Some? && Busy(s, s.control.spinner.value) {
      BusySpinnerCanWait(s);
    } else {
      match s.phase
      case Out => RestingCanWait(s);
      case Fetching => FetchingCanWait(s);
      case Leaving => LeavingCanWait(s);
      case Testing => TestingCanWait(s);
      case Calling => CallingCanWait(s);
    }
  }

  lemma FetchingCanWait(s: State)
    requires s.control.pause.AtTask? && s.control.guards && SpinnerAt(s, Fetching)
    ensures WaitsLater(s)
  {
    var s' := Next(s, ResumePass(false)).value;
    assert Exec(Next, s', []) == Some(s');
    WaitsAfterStep(s, ResumePass(false));
  }

  lemma RestingCanWait(s: State)
    requires s.control.pause.AtTask? && s.control.guards && s.control.spinner.None?
    ensures WaitsLater(s)
  {
    var t := UnusedThread(s.calls.Keys);
    assert t !in s.calls;
    FetchingCanWait(Next(s, EnterSpin(t, false)).value);
    WaitsAfterStep(s, EnterSpin(t, false));
  }

  lemma LeavingCanWait(s: State)
    requires s.control.pause.AtTask? && s.control.guards && SpinnerAt(s, Leaving)
    ensures WaitsLater(s)
  {
    RestingCanWait(Next(s, ExitSpin).value);
    WaitsAfterStep(s, ExitSpin);
  }

  lemma TestingCanWait(s: State)
    requires s.control.pause.AtTask? && s.control.guards && s.control.isShutdown && SpinnerAt(s, Testing)
    ensures WaitsLater(s)
  {
    LeavingCanWait(Next(s, Test).value);
    WaitsAfterStep(s, Test);
  }

  lemma CallingCanWait(s: State)
    requires s.control.pause.AtTask? && s.control.guards && s.control.isShutdown && SpinnerAt(s, Calling)
    ensures WaitsLater(s)
  {
    var s' := Next(s, CallbackDone).value;
    if s.looping {
      TestingCanWait(s');
    } else {
      LeavingCanWait(s');
    }
    WaitsAfterStep(s, CallbackDone);
  }

  /** The spinner is inside a shutdown call of its own, not yet past the drain: other work can
      start, so that the call gives up and the callback returns. */
  lemma BusySpinnerCanWait(s: State)
    requires Inv(s) && s.cleared && AtRisk(s) && s.control.spinner.Some? && Busy(s, s.control.spinner.value)
    ensures WaitsLater(s)
  {
    var t := s.control.spinner.value;
    if At(s, t, Flagged) {
      var s' := Next(s, BeginDrain(t)).value;
      StepKeepsInv(s, BeginDrain(t));
      DrainingSpinnerCanWait(s', t);
      WaitsAfterStep(s, BeginDrain(t));
    } else {
      DrainingSpinnerCanWait(s, t);
    }
  }

  lemma DrainingSpinnerCanWait(s: State, t: Thread)
    requires Inv(s) && s.control.isShutdown && s.control.pause.AtTask? && s.control.guards
    requires s.control.spinner == Some(t) && t in s.calls && s.calls[t].Draining?
    ensures WaitsLater(s)
  {
    var u := UnusedThread(s.calls.Keys + s.core.waiting);
    assert u !in s.calls.Keys + s.core.waiting;
    var s1 := Next(s, WorkStarts(u)).value;
    assert u in s1.core.counts.Keys && u !in s1.core.waiting;
    var s2 := Next(s1, EndDrain(t)).value;
    assert s.phase.Calling? && SpinnerAt(s2, Calling);
    CallingCanWait(s2);
    WaitsAfterStep(s1, EndDrain(t));
    WaitsAfterStep(s, WorkStarts(u));
  }

  /** The risk is real, because spin_once advances a paused generator without looking at the flag:
      a pass paused by an earlier spin_once is taken up again between the spinner check of
      shutdown and the destruction, and waits on guards that are then destroyed. */
  lemma SpinOnceCanWaitOnDestroyedGuards()
    ensures exists s :: Reaches(Next, INITIAL, s) && OnGuards(s) && !s.control.guards
  {
    ReachesStart(Next, INITIAL);
    var s1 := Spun(INITIAL, 0);
    var s2 := PassedCheck(s1, 1);
    var s3 := TakenUpAgain(s2, 0);
    var s4 := Drive(Next, INITIAL, s3, Destroy(1));
  }

  /** A spin_once of thread `t` that resumes the paused generator and waits. */
  lemma TakenUpAgain(s: State, t: Thread) returns (s': State)
    requires Reaches(Next, INITIAL, s) && s.control.spinner.None? && !Busy(s, t)
    requires s.control.pause.AtTask? && s.control.guards
    ensures Reaches(Next, INITIAL, s') && OnGuards(s') && s'.calls == s.calls && s'.control.guards
  {
    s' := Drive(Next, INITIAL, s, EnterSpin(t, false));
    s' := Drive(Next, INITIAL, s', ResumePass(false));
  }

  /** A spin_once of thread `t` that leaves the generator paused at a task. */
  lemma Spun(s: State, t: Thread) returns (s': State)
    requires Reaches(Next, INITIAL, s) && s.control == INITIAL.control && s.calls == map[]
    ensures Reaches(Next, INITIAL, s')
    ensures s' == s.(control := s.control.(pause := AtTask), phase := Out, looping := false, late := false)
  {
    s' := Drive(Next, INITIAL, s, EnterSpin(t, false));
    s' := Drive(Next, INITIAL, s', FreshPass(true));
    s' := Drive(Next, INITIAL, s', CallbackDone);
    s' := Drive(Next, INITIAL, s', ExitSpin);
  }

  /** A shutdown call of thread `t` up to its check for the spinner. */
  lemma PassedCheck(s: State, t: Thread) returns (s': State)
    requires Reaches(Next, INITIAL, s) && s.calls == map[] && s.control.spinner.None? && s.core == INITIAL.core
    ensures Reaches(Next, INITIAL, s')
    ensures s'.control == s.control.MarkShutdown() && s'.phase == s.phase && s'.calls == map[t := Cleared]
  {
    s' := PassedDrain(s, t);
    s' := Drive(Next, INITIAL, s', CheckSpinner(t));
    assert s'.calls == map[t := Cleared];
  }

  lemma PassedDrain(s: State, t: Thread) returns (s': State)
    requires Reaches(Next, INITIAL, s) && s.calls == map[] && s.control.spinner.None? && s.core == INITIAL.core
    ensures Reaches(Next, INITIAL, s')
    ensures s'.control == s.control.MarkShutdown() && s'.phase == s.phase && s'.calls == map[t := Drained]
  {
    var s1 := Drive(Next, INITIAL, s, CallShutdown(t));
    assert s1.calls == map[t := Flagged];
    var s2 := Drive(Next, INITIAL, s1, BeginDrain(t));
    assert s2.core.Drained() && s2.calls == map[t := Draining(true)];
    s' := Drive(Next, INITIAL, s2, EndDrain(t));
    assert s'.calls == map[t := Drained];
  }

  /** A pass paused at the handler of an entity is no such risk: after a spin_once that found no task,
      waited and ran one handler, the generator is paused, but a later pass that resumes it fetches
      anew or ends instead of waiting. */
  lemma PausedAtEntityNeverWaits(s: State, t: Thread)
    requires s.control.spinner.None? && !Busy(s, t) && !s.control.isShutdown
    ensures var end := Exec(Next, s, [EnterSpin(t, false), FreshPass(false), Woken(true), CallbackDone, ExitSpin]);
      && end.Some? && end.value.phase.Out? && end.value.control == s.control.(pause := AtEntity) && !AtRisk(end.value)
    ensures forall s1 :: SpinnerAt(s1, Fetching) && s1.control.pause.AtEntity? ==>
      Next(s1, ResumePass(false)).Some? && !Next(s1, ResumePass(false)).value.phase.Waiting?
  {
    var es, s' := RanOneHandler(s, t);
    es, s' := Grow(Next, s, es, s', CallbackDone);
    es, s' := Grow(Next, s, es, s', ExitSpin);
    assert es == [EnterSpin(t, false), FreshPass(false), Woken(true), CallbackDone, ExitSpin];
  }

  lemma RanOneHandler(s: State, t: Thread) returns (es: seq<Event>, s': State)
    requires s.control.spinner.None? && !Busy(s, t) && !s.control.isShutdown
    ensures es == [EnterSpin(t, false), FreshPass(false), Woken(true)] && Exec(Next, s, es) == Some(s')
    ensures s'.phase.Calling? && !s'.looping && s'.calls == s.calls
    ensures s'.control == s.control.(spinner := Some(t), pause := AtEntity)
  {
    es, s' := Grow(Next, s, [], s, EnterSpin(t, false));
    es, s' := Grow(Next, s, es, s', FreshPass(false));
    es, s' := Grow(Next, s, es, s', Woken(true));
  }
}
