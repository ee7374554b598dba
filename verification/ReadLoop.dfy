/** The asyncio read loop of AsyncSubscription and AsyncService (rclpy/experimental): take until
    nothing is left, clear the event, wait for it. Messages arrive, and are announced, on a
    thread of the middleware; the announcement only schedules `event.set` on the loop.

    The loop runs one piece of code at a time: a scheduled set can run only while the reader is
    suspended. The middleware thread can act between any two steps. */
module ReadLoop {
  import opened Options
  import opened Runs

  type Message = nat

  /** `SawNothing`: the take came back empty, the event is not yet cleared. `Cleared`: about to
      wait. `Parked`: suspended in wait; `woken` once a set has completed its waiter.
      `Handling`: awaiting the callback of a message (non-concurrent mode only). */
  datatype Phase =
    | Unstarted
    | Taking
    | SawNothing
    | Cleared
    | Parked(woken: bool)
    | Handling(message: Message)
    | Gone

  datatype Reader = Reader(phase: Phase, event: bool) {
    /** The reader is not in the middle of a piece of loop code. */
    predicate Suspended() { phase.Unstarted? || phase.Parked? || phase.Handling? || phase.Gone? }

    function Took(m: Message, concurrent: bool): Reader {
      this.(phase := if concurrent then Taking else Handling(m))
    }

    function FoundNothing(): Reader { this.(phase := SawNothing) }

    function Clear(): Reader { Reader(Cleared, false) }

    /** asyncio.Event.wait: suspends only when the event is not set. */
    function Wait(): Reader { this.(phase := if event then Taking else Parked(false)) }

    /** asyncio.Event.set, run by the loop. */
    function Set(): Reader { Reader(if phase.Parked? then Parked(true) else phase, true) }

    function Resume(): Reader { this.(phase := Taking) }

    function Stop(): Reader { this.(phase := Gone) }
  }

  /** The loop of _messages and _requests, one method for each piece between two suspension
      points or foreign steps. */
  class AsyncReader {
    var phase: Phase
    var event: bool
    const concurrent: bool

    function Contents(): Reader reads this { Reader(phase, event) }

    constructor (concurrent: bool)
      ensures Contents() == Reader(Unstarted, false) && this.concurrent == concurrent
    {
      phase, event, this.concurrent := Unstarted, false, concurrent;
    }

    method Start()
      modifies this
      ensures Contents() == old(Contents()).Resume()
    {
      phase := Taking;
    }

    /** One iteration of the loop body up to the point where the middleware may interfere. */
    method TakeOne(queue: seq<Message>) returns (rest: seq<Message>, taken: Option<Message>)
      modifies this
      ensures queue == [] ==> taken == None && rest == [] && Contents() == old(Contents()).FoundNothing()
      ensures queue != [] ==> taken == Some(queue[0]) && [queue[0]] + rest == queue
                              && Contents() == old(Contents()).Took(queue[0], concurrent)
    {
      if queue == [] {
        rest, taken := [], None;
        phase := SawNothing;
      } else {
        rest, taken := queue[1..], Some(queue[0]);
        phase := if concurrent then Taking else Handling(queue[0]);
      }
    }

    method ClearEvent()
      modifies this
      ensures Contents() == old(Contents()).Clear()
    {
      phase, event := Cleared, false;
    }

    method WaitForEvent()
      modifies this
      ensures Contents() == old(Contents()).Wait()
    {
      phase := if event then Taking else Parked(false);
    }

    method SetEvent()
      modifies this
      ensures Contents() == old(Contents()).Set()
    {
      event := true;
      if phase.Parked? {
        phase := Parked(true);
      }
    }
  }

  /** `announced`: arrivals whose notification is in flight on the middleware thread;
      `scheduled`: sets waiting in the loop; `listening`: the listener is installed. `arrived` and
      `taken` are logs in order, `ended` the positions in `taken` whose callback has ended. */
  datatype State = State(
    reader: Reader, queue: seq<Message>, listening: bool, announced: nat, scheduled: nat,
    arrived: seq<Message>, taken: seq<Message>, ended: set<nat>)
  {
    predicate Running(i: nat) { i < |taken| && i !in ended }
  }

  datatype Event =
    | Start
    | Arrive(m: Message)
    | Notify          // call_soon_threadsafe on the middleware thread
    | RunSet          // the loop runs a scheduled set
    | Resume
    | Take
    | Clear
    | Wait
    | Finish(i: nat)  // the callback of taken[i] ends
    | Destroy

  const INITIAL := State(Reader(Unstarted, false), [], false, 0, 0, [], [], {})

  function Step(concurrent: bool, s: State, e: Event): Option<State> {
    var r := s.reader;
    match e
    case Start =>
      if r.phase.Unstarted? then Some(s.(reader := r.Resume(), listening := true)) else None
    case Arrive(m) =>
      Some(s.(queue := s.queue + [m], arrived := s.arrived + [m],
              announced := if s.listening then s.announced + 1 else s.announced))
    case Notify =>
      if s.announced > 0 then Some(s.(announced := s.announced - 1, scheduled := s.scheduled + 1)) else None
    case RunSet =>
      if s.scheduled > 0 && r.Suspended()
      then Some(s.(scheduled := s.scheduled - 1, reader := r.Set())) else None
    case Resume =>
      if r.phase == Parked(true) then Some(s.(reader := r.Resume())) else None
    case Take =>
      if !r.phase.Taking? then None
      else if s.queue == [] then Some(s.(reader := r.FoundNothing()))
      else
        var m := s.queue[0];
        Some(s.(reader := r.Took(m, concurrent), queue := s.queue[1..], taken := s.taken + [m]))
    case Clear => if r.phase.SawNothing? then Some(s.(reader := r.Clear())) else None
    case Wait => if r.phase.Cleared? then Some(s.(reader := r.Wait())) else None
    case Finish(i) =>
      if s.Running(i) && r.Suspended()
      then Some(s.(ended := s.ended + {i},
                   reader := if r.phase.Handling? && i == |s.taken| - 1 then r.Resume() else r))
      else None
    case Destroy =>
      if r.Suspended() then Some(s.(reader := r.Stop(), listening := false)) else None
  }

  function Machine(concurrent: bool): (State, Event) -> Option<State> {
    (s: State, e: Event) => Step(concurrent, s, e)
  }

  ghost predicate WakeInv(s: State) {
    var p := s.reader.phase;
    && (!p.Unstarted? && !p.Gone? ==> s.listening)
    && ((p.SawNothing? || p.Cleared? || p == Parked(false)) && s.queue != [] ==> s.announced + s.scheduled > 0)
    && (p == Parked(true) ==> s.reader.event)
    && (p.Cleared? ==> !s.reader.event)
  }

  ghost predicate OrderInv(concurrent: bool, s: State) {
    var p := s.reader.phase;
    && s.arrived == s.taken + s.queue
    && (forall i :: i in s.ended ==> i < |s.taken|)
    && (concurrent ==> !p.Handling?)
    && (p.Handling? ==> s.taken != [] && s.taken[|s.taken| - 1] == p.message)
    && (!concurrent && !p.Gone? ==> forall i: nat :: s.Running(i) <==> p.Handling? && i == |s.taken| - 1)
  }

  ghost predicate Inv(concurrent: bool, s: State) { WakeInv(s) && OrderInv(concurrent, s) }

  lemma StepKeepsWake(concurrent: bool, s: State, e: Event)
    requires WakeInv(s) && Step(concurrent, s, e).Some?
    ensures WakeInv(Step(concurrent, s, e).value)
  {
  }

  lemma StepKeepsOrder(concurrent: bool, s: State, e: Event)
    requires OrderInv(concurrent, s) && Step(concurrent, s, e).Some?
    ensures OrderInv(concurrent, Step(concurrent, s, e).value)
  {
    var s' := Step(concurrent, s, e).value;
    match e
    case Arrive(m) =>
      assert s.taken + (s.queue + [m]) == s.taken + s.queue + [m];
      assert forall i: nat :: s'.Running(i) <==> s.Running(i);
    case Take =>
      if s.queue != [] {
        assert s'.taken + s'.queue == s.taken + s.queue;
        assert forall i: nat :: s'.Running(i) <==> s.Running(i) || i == |s.taken|;
      } else {
        assert forall i: nat :: s'.Running(i) <==> s.Running(i);
      }
    case Finish(k) =>
      assert forall i: nat :: s'.Running(i) <==> s.Running(i) && i != k;
    case _ =>
      assert forall i: nat :: s'.Running(i) <==> s.Running(i);
  }

  lemma ReachableInv(concurrent: bool, es: seq<Event>)
    requires Exec(Machine(concurrent), INITIAL, es).Some?
    ensures Inv(concurrent, Exec(Machine(concurrent), INITIAL, es).value)
  {
    var inv := (s: State) => Inv(concurrent, s);
    forall s, e | inv(s) && Machine(concurrent)(s, e).Some? ensures inv(Machine(concurrent)(s, e).value) {
      StepKeepsWake(concurrent, s, e);
      StepKeepsOrder(concurrent, s, e);
    }
    InvariantOfRuns(Machine(concurrent), inv, INITIAL, es);
  }

  /** Messages are taken in arrival order, each exactly once. With concurrency the reader awaits no
      callback; without it at most one
      callback runs, the one of the message last taken, all earlier ones having ended; and the
      next message is not taken before it ends. */
  lemma TakenInOrderOnce(concurrent: bool, es: seq<Event>)
    requires Exec(Machine(concurrent), INITIAL, es).Some?
    ensures var s := Exec(Machine(concurrent), INITIAL, es).value;
      && s.taken + s.queue == s.arrived
      && (concurrent ==> !s.reader.phase.Handling?)
      && (!concurrent && !s.reader.phase.Gone? ==>
            && (forall i: nat :: s.Running(i) ==> i == |s.taken| - 1 && s.reader.phase == Handling(s.taken[i]))
            && (s.reader.phase.Taking? ==> forall i: nat :: i < |s.taken| ==> i in s.ended))
  {
    ReachableInv(concurrent, es);
    var s := Exec(Machine(concurrent), INITIAL, es).value;
    if !concurrent && s.reader.phase.Taking? {
      forall i: nat | i < |s.taken| ensures i in s.ended { assert !s.Running(i); }
    }
  }

  /** No wakeup is lost: a parked reader with messages waiting has its event set, a set scheduled
      or a notification in flight. */
  lemma NoLostWakeup(concurrent: bool, es: seq<Event>)
    requires Exec(Machine(concurrent), INITIAL, es).Some?
    ensures var s := Exec(Machine(concurrent), INITIAL, es).value;
      s.reader.phase.Parked? && s.queue != [] ==> s.reader.event || s.scheduled > 0 || s.announced > 0
  {
    ReachableInv(concurrent, es);
  }

  /** What remains to happen before a parked reader takes the next message. */
  function Due(s: State): seq<Event> {
    if s.reader.phase == Parked(true) then [Resume, Take]
    else if s.scheduled > 0 then [RunSet, Resume, Take]
    else [Notify, RunSet, Resume, Take]
  }

  lemma ParkedReaderTakes(concurrent: bool, s: State)
    requires WakeInv(s) && s.reader.phase.Parked? && s.queue != []
    ensures Exec(Machine(concurrent), s, Due(s)).Some?
    ensures Exec(Machine(concurrent), s, Due(s)).value.taken == s.taken + [s.queue[0]]
  {
    var m := Machine(concurrent);
    if s.reader.phase == Parked(true) {
      WokenReaderTakes(concurrent, s);
    } else {
      var s1 := if s.scheduled > 0 then s else m(s, Notify).value;
      var s2 := m(s1, RunSet).value;
      WokenReaderTakes(concurrent, s2);
      ExecCons(m, s1, RunSet, [Resume, Take]);
      assert [RunSet] + [Resume, Take] == [RunSet, Resume, Take];
      if s.scheduled == 0 {
        ExecCons(m, s, Notify, [RunSet, Resume, Take]);
        assert [Notify] + [RunSet, Resume, Take] == [Notify, RunSet, Resume, Take];
      }
    }
  }

  /** ... and what is pending suffices: without any further arrival the oldest message is taken. */
  lemma ParkedReaderGetsTheMessage(concurrent: bool, es: seq<Event>)
    requires Exec(Machine(concurrent), INITIAL, es).Some?
    requires var s := Exec(Machine(concurrent), INITIAL, es).value; s.reader.phase.Parked? && s.queue != []
    ensures var s := Exec(Machine(concurrent), INITIAL, es).value;
      && Exec(Machine(concurrent), s, Due(s)).Some?
      && Exec(Machine(concurrent), s, Due(s)).value.taken == s.taken + [s.queue[0]]
  {
    ReachableInv(concurrent, es);
    ParkedReaderTakes(concurrent, Exec(Machine(concurrent), INITIAL, es).value);
  }

  /** What a reader does itself until it is about to take, or is parked. */
  function OwnSteps(s: State): seq<Event> {
    match s.reader.phase
    case Unstarted => [Start]
    case SawNothing => [Clear, Wait]
    case Cleared => [Wait]
    case Handling(_) => if s.taken == [] then [] else [Finish(|s.taken| - 1)]
    case _ => []
  }

  /** All that remains to happen before the next message is taken, none of it an arrival. */
  function DueFrom(s: State): seq<Event> {
    match s.reader.phase
    case SawNothing => OwnSteps(s) + Due(s.(reader := Reader(Parked(false), false)))
    case Cleared => OwnSteps(s) + Due(s.(reader := Reader(Parked(false), false)))
    case Parked(_) => Due(s)
    case _ => OwnSteps(s) + [Take]
  }

  /** Main result on progress: wherever the reader is, as long as it has not been destroyed, what is
      already under way makes it take the oldest message waiting, once the callback it may be
      awaiting ends. */
  lemma NextMessageIsTaken(concurrent: bool, es: seq<Event>)
    requires Exec(Machine(concurrent), INITIAL, es).Some?
    requires var s := Exec(Machine(concurrent), INITIAL, es).value; !s.reader.phase.Gone? && s.queue != []
    ensures var s := Exec(Machine(concurrent), INITIAL, es).value;
      && Exec(Machine(concurrent), s, DueFrom(s)).Some?
      && Exec(Machine(concurrent), s, DueFrom(s)).value.taken == s.taken + [s.queue[0]]
  {
    ReachableInv(concurrent, es);
    var m := Machine(concurrent);
    var s := Exec(m, INITIAL, es).value;
    if s.reader.phase.Parked? {
      ParkedReaderTakes(concurrent, s);
    } else {
      var s' := AboutToTake(concurrent, s);
      ExecConcat(m, s, OwnSteps(s), DueFrom(s)[|OwnSteps(s)|..]);
      assert DueFrom(s) == OwnSteps(s) + DueFrom(s)[|OwnSteps(s)|..];
      if s'.reader.phase.Parked? {
        ParkedReaderTakes(concurrent, s');
      } else {
        var taking, end := Grow(m, s', [], s', Take);
        assert taking == [Take];
      }
    }
  }

  lemma AboutToTake(concurrent: bool, s: State) returns (s': State)
    requires Inv(concurrent, s) && s.queue != [] && !s.reader.phase.Gone? && !s.reader.phase.Parked?
    ensures Exec(Machine(concurrent), s, OwnSteps(s)) == Some(s')
    ensures s'.taken == s.taken && s'.queue == s.queue && WakeInv(s')
    ensures if s.reader.phase.SawNothing? || s.reader.phase.Cleared? then s' == s.(reader := Reader(Parked(false), false))
            else s'.reader.phase.Taking?
  {
    var m, es := Machine(concurrent), [];
    s' := s;
    match s.reader.phase
    case Unstarted =>
      es, s' := Grow(m, s, es, s', Start);
    case SawNothing =>
      es, s' := Grow(m, s, es, s', Clear);
      es, s' := Grow(m, s, es, s', Wait);
    case Cleared =>
      es, s' := Grow(m, s, es, s', Wait);
    case Handling(_) =>
      assert s.Running(|s.taken| - 1);
      es, s' := Grow(m, s, es, s', Finish(|s.taken| - 1));
    case _ =>
  }

  lemma WokenReaderTakes(concurrent: bool, s: State)
    requires s.reader.phase == Parked(true) && s.queue != []
    ensures Exec(Machine(concurrent), s, [Resume, Take]).Some?
    ensures Exec(Machine(concurrent), s, [Resume, Take]).value.taken == s.taken + [s.queue[0]]
  {
    var m := Machine(concurrent);
    var s1 := m(s, Resume).value;
    ExecCons(m, s, Resume, [Take]);
    assert [Resume] + [Take] == [Resume, Take];
    ExecCons(m, s1, Take, []);
    assert [Take] + [] == [Take];
  }
}
