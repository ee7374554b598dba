/** One pass of the generator over the ready queue (rclpy/executors.py:875-898), with other
    threads appending tasks whenever the generator is suspended. Scheduling shows that the
    queue and the pending tasks fit together; here the pass itself is the loop of the source,
    and what it does with each queued task is stated in order. */
module ReadyQueues {

  type Task = nat

  /** What happens around the loop: `over(i, t)` says that `t` is done or cancelled when round `i`
      looks at it, `mine(t)` that its node is among those to use, `arrivals(i)` what other threads
      append during round `i`: tasks that `created(i)` has just entered as pending, and tasks that
      are resumed, which append no entry. */
  datatype Surroundings = Surroundings(
    over: (nat, Task) -> bool, mine: Task -> bool, arrivals: nat -> seq<Task>, created: nat -> set<Task>)

  datatype Fate = Dropped | Yielded | Requeued

  function FateOf(w: Surroundings, i: nat, t: Task): Fate {
    if w.over(i, t) then Dropped else if w.mine(t) then Yielded else Requeued
  }

  /** The tasks of `q`, looked at from round `i` on, that meet fate `f`, in queue order. */
  function WithFate(w: Surroundings, q: seq<Task>, i: nat, f: Fate): seq<Task> {
    if q == [] then []
    else (if FateOf(w, i, q[0]) == f then [q[0]] else []) + WithFate(w, q[1..], i + 1, f)
  }

  /** What the rounds from `i` on leave at the end of the queue. */
  function Appended(w: Surroundings, q: seq<Task>, i: nat): seq<Task> {
    if q == [] then []
    else (if FateOf(w, i, q[0]).Requeued? then [q[0]] else []) + w.arrivals(i) + Appended(w, q[1..], i + 1)
  }

  /** What is put back comes in the order of the queue, when nobody else appends. */
  lemma {:induction false} PutBackInOrder(w: Surroundings, q: seq<Task>, i: nat)
    requires forall k: nat :: w.arrivals(k) == []
    ensures Appended(w, q, i) == WithFate(w, q, i, Requeued)
  {
    if q != [] {
      PutBackInOrder(w, q[1..], i + 1);
    }
  }

  function Arrived(w: Surroundings, i: nat, n: nat): seq<Task>
    decreases n
  {
    if n == 0 then [] else w.arrivals(i) + Arrived(w, i + 1, n - 1)
  }

  /** The tasks created in the rounds before `i`. */
  function CreatedBefore(w: Surroundings, i: nat): set<Task> {
    if i == 0 then {} else CreatedBefore(w, i - 1) + w.created(i - 1)
  }

  /** `picked` consists of the tasks of `q` at the positions `at`, in the order of the queue. */
  ghost predicate PickedAt(q: seq<Task>, picked: seq<Task>, at: seq<nat>) {
    && |at| == |picked|
    && (forall j, k :: 0 <= j < k < |at| ==> at[j] < at[k])
    && (forall j :: 0 <= j < |at| ==> at[j] < |q| && picked[j] == q[at[j]])
  }

  /** `picked` is what `q` has at the positions for which `ok` holds, no more and no less, in order. */
  ghost predicate Picks(q: seq<Task>, picked: seq<Task>, ok: nat -> bool) {
    exists at :: PickedAt(q, picked, at) && forall k: nat :: k in at <==> k < |q| && ok(k)
  }

  /** The positions of the tasks that meet fate `f`. */
  function FateAt(w: Surroundings, q: seq<Task>, i: nat, f: Fate): (at: seq<nat>)
    decreases |q|
  {
    if q == [] then []
    else FateAt(w, q[..|q| - 1], i, f) + if FateOf(w, i + |q| - 1, q[|q| - 1]) == f then [|q| - 1] else []
  }

  lemma {:induction false} WithFateAppend(w: Surroundings, q: seq<Task>, i: nat, f: Fate, t: Task)
    ensures WithFate(w, q + [t], i, f) == WithFate(w, q, i, f) + if FateOf(w, i + |q|, t) == f then [t] else []
    decreases |q|
  {
    if q == [] {
      assert q + [t] == [t] && [t][1..] == [];
    } else {
      assert (q + [t])[0] == q[0] && (q + [t])[1..] == q[1..] + [t];
      WithFateAppend(w, q[1..], i + 1, f, t);
    }
  }

  lemma PickedOneMore(q: seq<Task>, t: Task, picked: seq<Task>, at: seq<nat>)
    requires PickedAt(q, picked, at)
    ensures PickedAt(q + [t], picked, at) && PickedAt(q + [t], picked + [t], at + [|q|])
    ensures forall k: nat :: k in at ==> k < |q|
  {
  }

  lemma {:induction false} FateAtPicks(w: Surroundings, q: seq<Task>, i: nat, f: Fate)
    ensures PickedAt(q, WithFate(w, q, i, f), FateAt(w, q, i, f))
    ensures forall k: nat :: k in FateAt(w, q, i, f) <==> k < |q| && FateOf(w, i + k, q[k]) == f
    decreases |q|
  {
    if q != [] {
      var n := |q| - 1;
      var rest, t := q[..n], q[n];
      assert q == rest + [t];
      FateAtPicks(w, rest, i, f);
      WithFateAppend(w, rest, i, f, t);
      PickedOneMore(rest, t, WithFate(w, rest, i, f), FateAt(w, rest, i, f));
      assert WithFate(w, rest, i, f) + [] == WithFate(w, rest, i, f);
    }
  }

  /** Main result on which tasks a pass yields: exactly those that are alive and of the nodes to use
      when their round comes; those that are over then are dropped, and the others put back; each
      in the order of the queue. */
  lemma FatesAreExact(w: Surroundings, q: seq<Task>)
    ensures Picks(q, WithFate(w, q, 0, Dropped), (k: nat) => k < |q| && w.over(k, q[k]))
    ensures Picks(q, WithFate(w, q, 0, Yielded), (k: nat) => k < |q| && !w.over(k, q[k]) && w.mine(q[k]))
    ensures Picks(q, WithFate(w, q, 0, Requeued), (k: nat) => k < |q| && !w.over(k, q[k]) && !w.mine(q[k]))
  {
    forall f { FateAtPicks(w, q, 0, f); }
    assert forall f :: PickedAt(q, WithFate(w, q, 0, f), FateAt(w, q, 0, f));
  }

  /** Only tasks that are known, new or over are appended. */
  ghost predicate ArrivalsKnown(w: Surroundings, pending: set<Task>, over: set<Task>) {
    forall i: nat, t :: t in w.arrivals(i) ==> t in pending + CreatedBefore(w, i + 1) + over
  }

  /** Every queued task is known or over. */
  ghost predicate QueueKnown(ready: seq<Task>, pending: set<Task>, over: set<Task>) {
    forall t :: t in ready ==> t in pending || t in over
  }

  class ReadyQueue {
    var ready: seq<Task>
    var pending: set<Task>

    constructor ()
      ensures ready == [] && pending == {}
    {
      ready, pending := [], {};
    }

    method CreateTask(t: Task)
      modifies this
      ensures pending == old(pending) + {t} && ready == old(ready) + [t]
    {
      pending := pending + {t};
      CallTaskInNextSpin(t);
    }

    method CallTaskInNextSpin(t: Task)
      modifies this`ready
      ensures ready == old(ready) + [t]
    {
      ready := ready + [t];
    }

    /** The body of the loop, together with what other threads do while it lasts. The lookup in
        `pending` succeeds. */
    method Round(w: Surroundings, i: nat, ghost overAtStart: set<Task>) returns (chosen: seq<Task>)
      requires ready != [] && QueueKnown(ready, pending, overAtStart)
      requires forall t :: t in overAtStart ==> w.over(i, t)
      requires QueueKnown(w.arrivals(i), pending + w.created(i), overAtStart)
      modifies this
      ensures (chosen, ready) == Turn(w, old(ready), i)
      ensures chosen == if !w.over(i, old(ready[0])) && w.mine(old(ready[0])) then [old(ready[0])] else []
      ensures pending == old(pending) + w.created(i) && QueueKnown(ready, pending, overAtStart)
    {
      var t := ready[0];
      assert t in ready;
      ready := ready[1..];
      chosen := [];
      if !w.over(i, t) {
        assert t in pending;
        if w.mine(t) {
          chosen := [t];
        } else {
          ready := ready + [t];
        }
      }
      pending := pending + w.created(i);
      ready := ready + w.arrivals(i);
    }

    /** One pass. Tasks that are over at the start are forgotten first; a task that is over stays
        over, so every task that is looked up is still there, and the queue, to which others only
        append, is never popped empty. Every queued task is dropped, yielded or appended again,
        exactly one of these, and the selected ones come in queue order. */
    method Pass(w: Surroundings, overAtStart: set<Task>) returns (selected: seq<Task>)
      requires QueueKnown(ready, pending, overAtStart) && ArrivalsKnown(w, pending, overAtStart)
      requires forall i, t :: t in overAtStart ==> w.over(i, t)
      modifies this
      ensures selected == WithFate(w, old(ready), 0, Yielded)
      ensures var q := old(ready);
        Picks(q, selected, (k: nat) => k < |q| && !w.over(k, q[k]) && w.mine(q[k]))
      ensures ready == Appended(w, old(ready), 0)
      ensures pending == old(pending) - overAtStart + CreatedBefore(w, |old(ready)|)
      ensures QueueKnown(ready, pending, overAtStart)
    {
      pending := pending - overAtStart;
      var count := |ready|;
      selected := [];
      ghost var kept, all := pending, Rounds(w, ready, 0, count);
      assert selected + all.0 == all.0;
      for i := 0 to count
        invariant count - i <= |ready| && LeadsTo(w, ready, i, count - i, selected, all)
        invariant pending == kept + CreatedBefore(w, i) && QueueKnown(ready, pending, overAtStart)
      {
        LeadsOn(w, ready, i, count - i, selected, all);
        assert QueueKnown(w.arrivals(i), pending + w.created(i), overAtStart);
        ghost var turn := Turn(w, ready, i);
        var chosen := Round(w, i, overAtStart);
        selected := selected + chosen;
        assert (chosen, ready) == turn;
      }
      assert old(ready) + [] == old(ready);
      RoundsByFate(w, old(ready), [], 0);
      FatesAreExact(w, old(ready));
    }
  }

  /** One round: what is selected, and the deque afterwards. */
  function Turn(w: Surroundings, ready: seq<Task>, i: nat): (seq<Task>, seq<Task>)
    requires ready != []
  {
    var t := ready[0];
    match FateOf(w, i, t)
    case Dropped => ([], ready[1..] + w.arrivals(i))
    case Yielded => ([t], ready[1..] + w.arrivals(i))
    case Requeued => ([], ready[1..] + [t] + w.arrivals(i))
  }

  /** `n` rounds on the deque as it changes: what is selected, and the deque afterwards. */
  function Rounds(w: Surroundings, ready: seq<Task>, i: nat, n: nat): (seq<Task>, seq<Task>)
    requires n <= |ready|
    decreases n
  {
    if n == 0 then ([], ready)
    else
      var (chosen, next) := Turn(w, ready, i);
      var (selected, end) := Rounds(w, next, i + 1, n - 1);
      (chosen + selected, end)
  }

  /** `n` more rounds, after `selected` has been selected, end in `all`. */
  ghost predicate LeadsTo(w: Surroundings, ready: seq<Task>, i: nat, n: nat, selected: seq<Task>, all: (seq<Task>, seq<Task>))
    requires n <= |ready|
  {
    var (more, end) := Rounds(w, ready, i, n);
    (selected + more, end) == all
  }

  lemma LeadsOn(w: Surroundings, ready: seq<Task>, i: nat, n: nat, selected: seq<Task>, all: (seq<Task>, seq<Task>))
    requires 0 < n <= |ready| && LeadsTo(w, ready, i, n, selected, all)
    ensures var (chosen, next) := Turn(w, ready, i);
      n - 1 <= |next| && LeadsTo(w, next, i + 1, n - 1, selected + chosen, all)
  {
    var (chosen, next) := Turn(w, ready, i);
    var (more, end) := Rounds(w, next, i + 1, n - 1);
    assert selected + (chosen + more) == (selected + chosen) + more;
  }

  lemma {:induction false} RoundsByFate(w: Surroundings, q: seq<Task>, tail: seq<Task>, i: nat)
    ensures Rounds(w, q + tail, i, |q|) == (WithFate(w, q, i, Yielded), tail + Appended(w, q, i))
    decreases |q|
  {
    if q == [] {
      assert q + tail == tail && tail + [] == tail;
    } else {
      var t, rest := q[0], q[1..];
      var back: seq<Task> := if FateOf(w, i, t).Requeued? then [t] else [];
      var more := back + w.arrivals(i);
      assert (q + tail)[0] == t && (q + tail)[1..] == rest + tail;
      assert Turn(w, q + tail, i).1 == rest + (tail + more);
      RoundsByFate(w, rest, tail + more, i + 1);
      assert (tail + more) + Appended(w, rest, i + 1) == tail + Appended(w, q, i);
    }
  }

  function Count(q: seq<Task>, t: Task): nat {
    if q == [] then 0 else (if q[0] == t then 1 else 0) + Count(q[1..], t)
  }

  lemma {:induction false} CountConcat(a: seq<Task>, b: seq<Task>, t: Task)
    ensures Count(a + b, t) == Count(a, t) + Count(b, t)
  {
    if a == [] {
      assert a + b == b;
    } else {
      assert (a + b)[1..] == a[1..] + b;
      CountConcat(a[1..], b, t);
    }
  }

  /** The three fates share out the queue, and afterwards the queue holds exactly what was put
      back and what arrived: no task is lost, none is treated twice. */
  lemma {:induction false} PassAccountsForEveryTask(w: Surroundings, q: seq<Task>, i: nat, t: Task)
    ensures Count(q, t) == Count(WithFate(w, q, i, Dropped), t) + Count(WithFate(w, q, i, Yielded), t)
                           + Count(WithFate(w, q, i, Requeued), t)
    ensures Count(Appended(w, q, i), t) == Count(WithFate(w, q, i, Requeued), t) + Count(Arrived(w, i, |q|), t)
    decreases |q|
  {
    if q != [] {
      PassAccountsForEveryTask(w, q[1..], i + 1, t);
      var back := if FateOf(w, i, q[0]).Requeued? then [q[0]] else [];
      CountConcat(back + w.arrivals(i), Appended(w, q[1..], i + 1), t);
      CountConcat(back, w.arrivals(i), t);
      CountConcat(w.arrivals(i), Arrived(w, i + 1, |q| - 1), t);
      forall f { FateCount(w, q, i, f, t); }
    }
  }

  lemma FateCount(w: Surroundings, q: seq<Task>, i: nat, f: Fate, t: Task)
    requires q != []
    ensures Count(WithFate(w, q, i, f), t)
            == (if FateOf(w, i, q[0]) == f && q[0] == t then 1 else 0) + Count(WithFate(w, q[1..], i + 1, f), t)
  {
    var head := if FateOf(w, i, q[0]) == f then [q[0]] else [];
    CountConcat(head, WithFate(w, q[1..], i + 1, f), t);
  }
}
