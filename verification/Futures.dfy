/** One future, completed and listened to by any number of threads (rclpy/task.py).

    `View` is the part of a future that its lock protects. The functions on views are the lock
    regions and the one unlocked write; `Future` performs them in place and `Next` interleaves
    them. Threads are represented by operations (`Op`): each call in flight is one of them, so
    a thread that completes a future from inside a callback simply owns two. */
module Futures {
  import opened Lists
  import opened Options
  import opened Runs
  import Bags

  datatype Status = Pending | Cancelled | Finished

  /** `callbacks` holds done-callbacks and suspended tasks in registration order; `bound` says
      that the executor reference resolves. */
  datatype View<E> = View(status: Status, callbacks: seq<E>, bound: bool) {
    predicate IsPending() { status == Pending }

    /** Locked part of set_result and set_exception: no check of the present status. */
    function Finish(): View<E> { this.(status := Finished) }

    /** The unlocked status write of cancel, made some time after its locked check. */
    function CancelWrite(): View<E> { this.(status := Cancelled) }

    /** Locked part of _schedule_or_invoke_done_callbacks: the list is swapped for a new one. */
    function Swapped(): View<E> { this.(callbacks := []) }

    /** Locked part of add_done_callback and _add_waiting_task: listed only while pending. */
    function Listen(e: E): View<E> {
      if IsPending() then this.(callbacks := callbacks + [e]) else this
    }

    function Bind(): View<E> { this.(bound := true) }

    function Unbind(): View<E> { this.(bound := false) }
  }

  /** The two things a future's list can hold: a done-callback or a task suspended on it. */
  datatype Entry = Callback(id: nat) | Waiter(task: nat)

  function Waiters(s: seq<Entry>): seq<Entry> {
    if s == [] then [] else (if s[0].Waiter? then [s[0]] else []) + Waiters(s[1..])
  }

  function Callbacks(s: seq<Entry>): seq<Entry> {
    if s == [] then [] else (if s[0].Callback? then [s[0]] else []) + Callbacks(s[1..])
  }

  lemma {:induction false} WaitersAppend(s: seq<Entry>, e: Entry)
    ensures Waiters(s + [e]) == Waiters(s) + Waiters([e])
    ensures Callbacks(s + [e]) == Callbacks(s) + Callbacks([e])
  {
    if s == [] {
      assert s + [e] == [e];
    } else {
      var t := s + [e];
      assert t[0] == s[0] && t[1..] == s[1..] + [e];
      WaitersAppend(s[1..], e);
      assert Waiters(t) == Waiters([s[0]]) + Waiters(t[1..]);
      assert Callbacks(t) == Callbacks([s[0]]) + Callbacks(t[1..]);
    }
  }

  lemma {:induction false} EntriesSplit(s: seq<Entry>)
    ensures multiset(s) == multiset(Waiters(s)) + multiset(Callbacks(s))
  {
    if s != [] {
      assert s == [s[0]] + s[1..];
      EntriesSplit(s[1..]);
    }
  }

  /** The future itself: every method below is one atomic step of the class in task.py. */
  class Future<V> {
    var state: Status
    var callbacks: seq<Entry>
    var bound: bool
    var result: Option<V>
    var raised: bool

    function Visible(): View<Entry> reads this {
      View(state, callbacks, bound)
    }

    constructor (executor: bool)
      ensures Visible() == View(Pending, [], executor) && result == None && !raised
    {
      state, callbacks, bound := Pending, [], executor;
      result, raised := None, false;
    }

    /** The locked check of cancel: whether the unlocked write shall follow. */
    method CancelCheck() returns (proceed: bool)
      ensures proceed <==> Visible().IsPending()
    {
      proceed := state == Pending;
    }

    method CancelWrite()
      modifies this
      ensures Visible() == old(Visible()).CancelWrite() && state == Cancelled
      ensures callbacks == old(callbacks) && bound == old(bound) && result == old(result) && raised == old(raised)
    {
      state := Cancelled;
    }

    method SetResult(v: V)
      modifies this
      ensures Visible() == old(Visible()).Finish() && state == Finished
      ensures callbacks == old(callbacks) && bound == old(bound) && result == Some(v) && raised == old(raised)
    {
      result := Some(v);
      state := Finished;
    }

    method SetException()
      modifies this
      ensures Visible() == old(Visible()).Finish() && state == Finished
      ensures callbacks == old(callbacks) && bound == old(bound) && result == old(result) && raised
    {
      raised := true;
      state := Finished;
    }

    method TakeCallbacks() returns (taken: seq<Entry>, alive: bool)
      modifies this
      ensures taken == old(callbacks) && alive == old(bound)
      ensures Visible() == old(Visible()).Swapped() && callbacks == []
      ensures state == old(state) && bound == old(bound) && result == old(result) && raised == old(raised)
    {
      taken, alive := callbacks, bound;
      callbacks := [];
    }

    /** The loop that disposes of the taken list, outside the lock. With an executor every entry
        is queued there in order; without one the callbacks run here and tasks are dropped. */
    static method HandOver(taken: seq<Entry>, alive: bool)
      returns (queued: seq<Entry>, called: seq<Entry>, dropped: seq<Entry>)
      ensures multiset(taken) == multiset(queued) + multiset(called) + multiset(dropped)
      ensures alive ==> queued == taken
      ensures !alive ==> queued == [] && called == Callbacks(taken) && dropped == Waiters(taken)
    {
      queued, called, dropped := [], [], [];
      for i := 0 to |taken|
        invariant alive ==> queued == taken[..i] && called == [] && dropped == []
        invariant !alive ==> queued == [] && called == Callbacks(taken[..i]) && dropped == Waiters(taken[..i])
      {
        assert taken[..i + 1] == taken[..i] + [taken[i]];
        WaitersAppend(taken[..i], taken[i]);
        if alive {
          queued := queued + [taken[i]];
        } else if taken[i].Waiter? {
          dropped := dropped + [taken[i]];
        } else {
          called := called + [taken[i]];
        }
      }
      assert taken[..|taken|] == taken;
      EntriesSplit(taken);
    }

    /** Registers `e` (add_done_callback, _add_waiting_task). `late` says that the future was
        already complete, so that the caller hands `e` over at once instead of listing it;
        `skipped` that a unique callback was listed already. */
    method Listen(e: Entry, unique: bool) returns (skipped: bool, late: bool)
      modifies this
      ensures skipped <==> unique && e in old(callbacks)
      ensures late <==> !skipped && !old(Visible()).IsPending()
      ensures Visible() == if skipped then old(Visible()) else old(Visible()).Listen(e)
      ensures result == old(result) && raised == old(raised)
    {
      skipped, late := false, false;
      if unique && e in callbacks {
        skipped := true;
      } else if state != Pending {
        late := true;
      } else {
        callbacks := callbacks + [e];
      }
    }

    method Remove(e: Entry) returns (found: bool)
      modifies this
      ensures found <==> e in old(callbacks)
      ensures Visible() == old(Visible()).(callbacks := RemoveFirst(old(callbacks), e))
      ensures result == old(result) && raised == old(raised)
    {
      found := e in callbacks;
      RemoveFirstRemovesOne(callbacks, e);
      if found {
        callbacks := RemoveFirst(callbacks, e);
      }
    }

    method SetExecutor(executor: bool)
      modifies this
      ensures Visible() == if executor then old(Visible()).Bind() else old(Visible()).Unbind()
      ensures bound == executor && state == old(state) && callbacks == old(callbacks)
      ensures result == old(result) && raised == old(raised)
    {
      bound := executor;
    }
  }

  /** A call in flight. `Checked`: cancel has seen the future pending and released the lock.
      `Wrote`: the status is written, the list not yet swapped. `Handing`: the swapped list is
      being disposed of. `Calling`: a late callback is about to be called directly. */
  datatype Op =
    | Checked
    | Wrote
    | Handing(rest: seq<Entry>, alive: bool)
    | Calling(entry: Entry)
    | Returned
  {
    function Carries(): multiset<Entry> {
      match this
      case Handing(rest, _) => multiset(rest)
      case Calling(e) => multiset{e}
      case _ => multiset{}
    }
  }

  /** `added`, `removed`, `queued`, `called` and `dropped` count, since the future was created,
      registrations that took effect and what became of them: taken back, handed to the
      executor, called directly, or discarded for want of an executor. */
  datatype State = State(
    fut: View<Entry>, ops: seq<Op>,
    added: multiset<Entry>, removed: multiset<Entry>,
    queued: multiset<Entry>, called: multiset<Entry>, dropped: multiset<Entry>)

  datatype Event =
    | BeginCancel
    | WriteCancelled(op: nat)
    | Complete                        // set_result or set_exception up to the end of its lock region
    | Swap(op: nat)
    | HandOne(op: nat)
    | Add(entry: Entry, unique: bool) // add_done_callback, or _add_waiting_task with unique false
    | CallLate(op: nat)
    | Remove(entry: Entry)
    | SetExecutor(bound: bool)

  function Fresh(bound: bool): State {
    State(View(Pending, [], bound), [], multiset{}, multiset{}, multiset{}, multiset{}, multiset{})
  }

  /** Where an entry goes when it is handed over. */
  function Deliver(s: State, e: Entry, alive: bool): State {
    if alive then s.(queued := s.queued + multiset{e})
    else if e.Waiter? then s.(dropped := s.dropped + multiset{e})
    else s.(called := s.called + multiset{e})
  }

  /** add_done_callback and _add_waiting_task, decided in one lock region. */
  function Register(s: State, e: Entry): State {
    var s1 := s.(added := s.added + multiset{e}, fut := s.fut.Listen(e));
    if s.fut.IsPending() then s1
    else if s.fut.bound || e.Waiter? then Deliver(s1, e, s.fut.bound)
    else s1.(ops := s1.ops + [Calling(e)])
  }

  function Next(s: State, e: Event): Option<State> {
    match e
    case BeginCancel =>
      if s.fut.IsPending() then Some(s.(ops := s.ops + [Checked])) else Some(s)
    case WriteCancelled(i) =>
      if i < |s.ops| && s.ops[i] == Checked
      then Some(s.(fut := s.fut.CancelWrite(), ops := s.ops[i := Wrote])) else None
    case Complete =>
      Some(s.(fut := s.fut.Finish(), ops := s.ops + [Wrote]))
    case Swap(i) =>
      if i < |s.ops| && s.ops[i] == Wrote
      then Some(s.(fut := s.fut.Swapped(), ops := s.ops[i := Handing(s.fut.callbacks, s.fut.bound)]))
      else None
    case HandOne(i) =>
      if i < |s.ops| && s.ops[i].Handing? then
        var op := s.ops[i];
        if op.rest == [] then Some(s.(ops := s.ops[i := Returned]))
        else Some(Deliver(s.(ops := s.ops[i := op.(rest := op.rest[1..])]), op.rest[0], op.alive))
      else None
    case Add(entry, unique) =>
      if unique && entry in s.fut.callbacks then Some(s) else Some(Register(s, entry))
    case CallLate(i) =>
      if i < |s.ops| && s.ops[i].Calling?
      then Some(s.(ops := s.ops[i := Returned], called := s.called + multiset{s.ops[i].entry}))
      else None
    case Remove(entry) =>
      if entry in s.fut.callbacks
      then Some(s.(fut := s.fut.(callbacks := RemoveFirst(s.fut.callbacks, entry)), removed := s.removed + multiset{entry}))
      else Some(s)
    case SetExecutor(b) =>
      Some(s.(fut := if b then s.fut.Bind() else s.fut.Unbind()))
  }

  function Loads(ops: seq<Op>): seq<multiset<Entry>> {
    seq(|ops|, i requires 0 <= i < |ops| => ops[i].Carries())
  }

  /** How often `e` is held by calls in flight. */
  function InTransit(ops: seq<Op>, e: Entry): nat { Bags.Total(Loads(ops), e) }

  lemma InTransitUpdate(ops: seq<Op>, i: nat, op: Op, e: Entry)
    requires i < |ops|
    ensures InTransit(ops[i := op], e) == InTransit(ops, e) - ops[i].Carries()[e] + op.Carries()[e]
  {
    assert Loads(ops[i := op]) == Loads(ops)[i := op.Carries()];
    Bags.TotalUpdate(Loads(ops), i, op.Carries(), e);
  }

  lemma InTransitAppend(ops: seq<Op>, op: Op, e: Entry)
    ensures InTransit(ops + [op], e) == InTransit(ops, e) + op.Carries()[e]
  {
    assert Loads(ops + [op]) == Loads(ops) + [op.Carries()];
    Bags.TotalAppend(Loads(ops), op.Carries(), e);
  }

  /** How many registrations of `e` there are, over all places where one can be. */
  function Placed(s: State, e: Entry): nat {
    multiset(s.fut.callbacks)[e] + InTransit(s.ops, e) + s.removed[e] + s.queued[e] + s.called[e] + s.dropped[e]
  }

  ghost predicate Balanced(s: State, x: Entry) { s.added[x] == Placed(s, x) }

  ghost predicate Conserved(s: State) { forall e :: Balanced(s, e) }

  ghost predicate Swept(s: State) {
    && (!s.fut.IsPending() && s.fut.callbacks != [] ==> Wrote in s.ops)
    && (Wrote in s.ops ==> !s.fut.IsPending())
    && (forall e :: e in s.dropped ==> e.Waiter?)
  }

  ghost predicate Inv(s: State) { Conserved(s) && Swept(s) }

  lemma StepConserves(s: State, e: Event, x: Entry)
    requires Balanced(s, x) && Next(s, e).Some?
    ensures Balanced(Next(s, e).value, x)
  {
    match e
    case HandOne(i) => HandOneConserves(s, i, x);
    case Add(entry, unique) => RegisterConserves(s, entry, x);
    case Remove(entry) => RemoveFirstRemovesOne(s.fut.callbacks, entry);
    case SetExecutor(b) =>
    case _ => CallConserves(s, e, x);
  }

  lemma CallConserves(s: State, e: Event, x: Entry)
    requires e.BeginCancel? || e.WriteCancelled? || e.Complete? || e.Swap? || e.CallLate?
    requires Balanced(s, x) && Next(s, e).Some?
    ensures Balanced(Next(s, e).value, x)
  {
    var s' := Next(s, e).value;
    match e
    case BeginCancel =>
      if s.fut.IsPending() { OpBegins(s, s', Checked, x); }
    case WriteCancelled(i) =>
      OpMoves(s, s', i, Wrote, x);
    case Complete =>
      OpBegins(s, s', Wrote, x);
    case Swap(i) =>
      OpMoves(s, s', i, Handing(s.fut.callbacks, s.fut.bound), x);
    case CallLate(i) =>
      OpMoves(s, s', i, Returned, x);
  }

  lemma OpBegins(s: State, s': State, op: Op, x: Entry)
    requires Balanced(s, x) && op.Carries() == multiset{}
    requires s' == s.(fut := s'.fut, ops := s.ops + [op]) && s'.fut.callbacks == s.fut.callbacks
    ensures Balanced(s', x)
  {
    InTransitAppend(s.ops, op, x);
  }

  lemma OpMoves(s: State, s': State, i: nat, op: Op, x: Entry)
    requires Balanced(s, x) && i < |s.ops|
    requires s' == s.(fut := s'.fut, ops := s.ops[i := op], called := s'.called)
    requires multiset(s'.fut.callbacks)[x] + op.Carries()[x] + s'.called[x]
          == multiset(s.fut.callbacks)[x] + s.ops[i].Carries()[x] + s.called[x]
    ensures Balanced(s', x)
  {
    InTransitUpdate(s.ops, i, op, x);
  }

  lemma DeliverPlaces(s: State, e: Entry, alive: bool, x: Entry)
    ensures Placed(Deliver(s, e, alive), x) == Placed(s, x) + (if e == x then 1 else 0)
    ensures Deliver(s, e, alive).added == s.added
  {
    if alive {
    } else if e.Waiter? {
    } else {
    }
  }

  lemma HandOneConserves(s: State, i: nat, x: Entry)
    requires Balanced(s, x) && Next(s, HandOne(i)).Some?
    ensures Balanced(Next(s, HandOne(i)).value, x)
  {
    var op := s.ops[i];
    if op.rest == [] {
      InTransitUpdate(s.ops, i, Returned, x);
    } else {
      var op' := Handing(op.rest[1..], op.alive);
      var s1 := s.(ops := s.ops[i := op']);
      Bags.HeadAndTail(op.rest, x);
      InTransitUpdate(s.ops, i, op', x);
      assert Placed(s1, x) == Placed(s, x) - (if op.rest[0] == x then 1 else 0);
      DeliverPlaces(s1, op.rest[0], op.alive, x);
      assert Next(s, HandOne(i)).value == Deliver(s1, op.rest[0], op.alive);
    }
  }

  lemma RegisterConserves(s: State, e: Entry, x: Entry)
    requires Balanced(s, x)
    ensures Balanced(Register(s, e), x)
  {
    var s1 := s.(added := s.added + multiset{e}, fut := s.fut.Listen(e));
    if s.fut.IsPending() {
      assert Placed(s1, x) == Placed(s, x) + multiset{e}[x];
    } else if s.fut.bound || e.Waiter? {
      DeliverPlaces(s1, e, s.fut.bound, x);
    } else {
      InTransitAppend(s1.ops, Calling(e), x);
    }
  }

  lemma StepSweeps(s: State, e: Event)
    requires Swept(s) && Next(s, e).Some?
    ensures Swept(Next(s, e).value)
  {
    var s' := Next(s, e).value;
    match e
    case BeginCancel | Complete | WriteCancelled(_) =>
      StatusSweeps(s, e);
    case HandOne(i) =>
      WroteElsewhere(s.ops, i, s'.ops[i]);
      assert Swept(s');
    case CallLate(i) =>
      WroteElsewhere(s.ops, i, Returned);
      assert Swept(s');
    case Add(entry, unique) =>
      assert Swept(s');
    case _ =>
      assert Swept(s');
  }

  lemma StatusSweeps(s: State, e: Event)
    requires e.BeginCancel? || e.Complete? || e.WriteCancelled?
    requires Swept(s) && Next(s, e).Some?
    ensures Swept(Next(s, e).value)
  {
    var s' := Next(s, e).value;
    if e.Complete? {
      assert s'.ops[|s.ops|] == Wrote;
    } else if e.WriteCancelled? {
      assert s'.ops[e.op] == Wrote;
    }
  }

  lemma WroteElsewhere(ops: seq<Op>, i: nat, op: Op)
    requires i < |ops| && ops[i] != Wrote && op != Wrote
    ensures Wrote in ops[i := op] <==> Wrote in ops
  {
    if Wrote in ops {
      var j :| 0 <= j < |ops| && ops[j] == Wrote;
      assert ops[i := op][j] == Wrote;
    }
  }

  lemma StepKeepsInv(s: State, e: Event)
    requires Inv(s) && Next(s, e).Some?
    ensures Inv(Next(s, e).value)
  {
    forall x ensures Balanced(Next(s, e).value, x) { StepConserves(s, e, x); }
    StepSweeps(s, e);
  }

  /** Main result, at every point of every interleaving: a registration is in exactly one of
      six places, so each is handed over at most once and none is lost; a completed future
      keeps a callback listed only while some call is between its status write and its swap;
      and nothing but a task without executor is ever discarded. */
  lemma CallbacksAreConserved(bound: bool, es: seq<Event>)
    requires Exec(Next, Fresh(bound), es).Some?
    ensures var s := Exec(Next, Fresh(bound), es).value;
      && (forall e :: Balanced(s, e) && s.queued[e] + s.called[e] + s.dropped[e] <= s.added[e])
      && (!s.fut.IsPending() && Wrote !in s.ops ==> s.fut.callbacks == [])
      && (forall id :: s.dropped[Callback(id)] == 0)
  {
    forall s, e | Inv(s) && Next(s, e).Some? ensures Inv(Next(s, e).value) { StepKeepsInv(s, e); }
    InvariantOfRuns(Next, Inv, Fresh(bound), es);
  }

  /** Once the future is complete and every call has returned, each registration that was not
      taken back has been handed over exactly once: registered callbacks cannot be forgotten,
      whether they were added before, during or after the completion. */
  lemma CompletionDeliversEverything(bound: bool, es: seq<Event>)
    requires Exec(Next, Fresh(bound), es).Some?
    ensures var s := Exec(Next, Fresh(bound), es).value;
      !s.fut.IsPending() && (forall op :: op in s.ops ==> op == Returned) ==>
        forall id ::
          && Balanced(s, Callback(id))
          && s.queued[Callback(id)] + s.called[Callback(id)] + s.removed[Callback(id)] == s.added[Callback(id)]
  {
    CallbacksAreConserved(bound, es);
    var s := Exec(Next, Fresh(bound), es).value;
    if !s.fut.IsPending() && (forall op :: op in s.ops ==> op == Returned) {
      forall id { QuietIsDelivered(s, id); }
    }
  }

  lemma QuietIsDelivered(s: State, id: nat)
    requires Balanced(s, Callback(id)) && (!s.fut.IsPending() && Wrote !in s.ops ==> s.fut.callbacks == [])
    requires s.dropped[Callback(id)] == 0
    requires !s.fut.IsPending() && forall op :: op in s.ops ==> op == Returned
    ensures s.queued[Callback(id)] + s.called[Callback(id)] + s.removed[Callback(id)] == s.added[Callback(id)]
  {
    forall i | 0 <= i < |s.ops| ensures Callback(id) !in Loads(s.ops)[i] {
      assert s.ops[i] in s.ops;
    }
    Bags.TotalOfNone(Loads(s.ops), Callback(id));
  }

  /** The runs in which the executor reference resolves, or does not, from beginning to end. */
  function Constant(s: State, e: Event): Option<State> {
    if e.SetExecutor? then None else Next(s, e)
  }

  /** A call in flight hands over to the executor exactly if there is one. */
  predicate OpFits(op: Op, bound: bool) { (op.Handing? ==> op.alive == bound) && (op.Calling? ==> !bound) }

  ghost predicate OpsFit(ops: seq<Op>, bound: bool) {
    forall i :: 0 <= i < |ops| ==> OpFits(ops[i], bound)
  }

  predicate PlacesFit(s: State, bound: bool) {
    if bound then s.called == multiset{} && s.dropped == multiset{} else s.queued == multiset{}
  }

  ghost predicate HandsOver(s: State, bound: bool) {
    s.fut.bound == bound && OpsFit(s.ops, bound) && PlacesFit(s, bound)
  }

  lemma StepFitsOp(s: State, e: Event, bound: bool, i: nat)
    requires s.fut.bound == bound && Constant(s, e).Some? && i < |Constant(s, e).value.ops|
    requires i < |s.ops| ==> OpFits(s.ops[i], bound)
    ensures OpFits(Constant(s, e).value.ops[i], bound)
  {
    var ops := Constant(s, e).value.ops;
    match e
    case HandOne(j) =>
      var op := s.ops[j];
      assert ops == s.ops[j := if op.rest == [] then Returned else op.(rest := op.rest[1..])];
    case Add(entry, unique) =>
      assert ops == s.ops || (!bound && ops == s.ops + [Calling(entry)]);
    case BeginCancel =>
      assert ops == s.ops || ops == s.ops + [Checked];
    case CallLate(j) =>
      assert ops == s.ops[j := Returned];
    case _ =>
  }

  lemma StepFillsPlaces(s: State, e: Event, bound: bool)
    requires HandsOver(s, bound) && Constant(s, e).Some?
    ensures Constant(s, e).value.fut.bound == bound && PlacesFit(Constant(s, e).value, bound)
  {
    if e.HandOne? || e.CallLate? {
      assert OpFits(s.ops[e.op], bound);
    }
  }

  /** Main result on where callbacks run: with an executor all of them are queued there, none is called
      by the completing or registering thread and no task is dropped; without one none is queued. */
  lemma ExecutorDecidesThePlace(bound: bool, es: seq<Event>)
    requires Exec(Constant, Fresh(bound), es).Some?
    ensures var s := Exec(Constant, Fresh(bound), es).value;
      if bound then s.called == multiset{} && s.dropped == multiset{} else s.queued == multiset{}
  {
    var inv := (s: State) => HandsOver(s, bound);
    forall s, e | inv(s) && Constant(s, e).Some? ensures inv(Constant(s, e).value) {
      forall i | 0 <= i < |Constant(s, e).value.ops| { StepFitsOp(s, e, bound, i); }
      StepFillsPlaces(s, e, bound);
    }
    InvariantOfRuns(Constant, inv, Fresh(bound), es);
  }

  /** The absorbing fact is "not pending": the status may still change afterwards. */
  lemma {:induction false} CompletionIsForever(s: State, es: seq<Event>)
    requires !s.fut.IsPending()
    ensures Exec(Next, s, es).Some? ==> !Exec(Next, s, es).value.fut.IsPending()
    decreases |es|
  {
    if es != [] && Next(s, es[0]).Some? {
      CompletionIsForever(Next(s, es[0]).value, es[1..]);
    }
  }

  /** ... and it does: a result set between the check and the write of cancel, which can happen,
      is overwritten by Cancelled, and a later result turns Cancelled into Finished again. */
  lemma TerminalStatusCanChange(s: State, i: nat)
    requires i < |s.ops| && s.ops[i] == Checked && s.fut.status == Finished
    ensures Next(s, WriteCancelled(i)).Some? && Next(s, WriteCancelled(i)).value.fut.status == Cancelled
    ensures Next(Next(s, WriteCancelled(i)).value, Complete).value.fut.status == Finished
    ensures exists r: State :: Reaches(Next, Fresh(true), r) && |r.ops| > 0 && r.ops[0] == Checked && r.fut.status == Finished
  {
    var s0 := Fresh(true);
    var s1 := Next(s0, BeginCancel).value;
    ReachesStart(Next, s0);
    ReachesNext(Next, s0, s0, BeginCancel);
    ReachesNext(Next, s0, s1, Complete);
    assert Next(s1, Complete).value.ops[0] == Checked;
  }

  lemma {:induction false} FinishedStays(s: State, es: seq<Event>)
    requires s.fut.status == Finished && Checked !in s.ops
    ensures Exec(Next, s, es).Some? ==> Exec(Next, s, es).value.fut.status == Finished
    decreases |es|
  {
    if es != [] && Next(s, es[0]).Some? {
      var s' := Next(s, es[0]).value;
      assert Checked !in s'.ops && s'.fut.status == Finished by { FinishedStep(s, es[0]); }
      FinishedStays(s', es[1..]);
    }
  }

  lemma FinishedStep(s: State, e: Event)
    requires s.fut.status == Finished && Checked !in s.ops && Next(s, e).Some?
    ensures Next(s, e).value.fut.status == Finished && Checked !in Next(s, e).value.ops
  {
    var s' := Next(s, e).value;
    forall i | 0 <= i < |s'.ops| ensures s'.ops[i] != Checked {
      if i < |s.ops| {
        assert s.ops[i] in s.ops;
      }
    }
  }

  /** When a terminal status is final: Finished exactly if no cancel sits between its check and its
      write, Cancelled never. */
  lemma TerminalStatusIsFinalExactly(s: State)
    requires !s.fut.IsPending()
    ensures (forall es :: Exec(Next, s, es).Some? ==> Exec(Next, s, es).value.fut.status == s.fut.status)
            <==> s.fut.status == Finished && Checked !in s.ops
  {
    if s.fut.status == Cancelled {
      OneStep(s, Complete);
    } else if Checked in s.ops {
      var i :| 0 <= i < |s.ops| && s.ops[i] == Checked;
      OneStep(s, WriteCancelled(i));
    } else {
      forall es { FinishedStays(s, es); }
    }
  }

  lemma OneStep(s: State, e: Event)
    requires Next(s, e).Some?
    ensures Exec(Next, s, [e]) == Next(s, e)
  {
    assert [e][1..] == [];
  }

  /** A callback that is only ever registered with `unique` is listed at most once, however
      often it is registered: repeated spins on one future do not accumulate wake-ups. */
  lemma {:induction false} UniqueNeverAccumulates(s: State, cb: Entry, es: seq<Event>)
    requires multiset(s.fut.callbacks)[cb] <= 1
    requires forall e :: e in es && e.Add? && e.entry == cb ==> e.unique
    ensures Exec(Next, s, es).Some? ==> multiset(Exec(Next, s, es).value.fut.callbacks)[cb] <= 1
    decreases |es|
  {
    if es != [] && Next(s, es[0]).Some? {
      assert es[0] in es;
      StepKeepsUnique(s, cb, es[0]);
      UniqueNeverAccumulates(Next(s, es[0]).value, cb, es[1..]);
    }
  }

  /** How one step can change the list. */
  predicate ListChange(list: seq<Entry>, list': seq<Entry>, e: Event) {
    || list' == list || list' == []
    || (e.Remove? && list' == RemoveFirst(list, e.entry))
    || (e.Add? && !(e.unique && e.entry in list) && list' == list + [e.entry])
  }

  lemma StepChangesList(s: State, e: Event)
    requires Next(s, e).Some?
    ensures ListChange(s.fut.callbacks, Next(s, e).value.fut.callbacks, e)
  {
  }

  lemma StepKeepsUnique(s: State, cb: Entry, e: Event)
    requires multiset(s.fut.callbacks)[cb] <= 1
    requires e.Add? && e.entry == cb ==> e.unique
    ensures Next(s, e).Some? ==> multiset(Next(s, e).value.fut.callbacks)[cb] <= 1
  {
    if Next(s, e).Some? {
      StepChangesList(s, e);
      ListChangeKeepsUnique(s.fut.callbacks, Next(s, e).value.fut.callbacks, cb, e);
    }
  }

  lemma ListChangeKeepsUnique(list: seq<Entry>, list': seq<Entry>, cb: Entry, e: Event)
    requires multiset(list)[cb] <= 1 && ListChange(list, list', e)
    requires e.Add? && e.entry == cb ==> e.unique
    ensures multiset(list')[cb] <= 1
  {
    if e.Remove? {
      RemoveFirstRemovesOne(list, e.entry);
    }
  }
}
