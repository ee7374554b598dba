/** The action server's answers to get-result requests (rclpy/action/server.py). A tracked goal
    owns a result future; a request is answered by a callback of that future, run directly or
    through the executor. The machine below puts the goals on top of the futures of
    rclpy/task.py, whose calls in flight interleave with everything else. */
module ActionServers {
  import opened Lists
  import opened Options
  import opened Runs
  import Bags
  import F = Futures

  type Uuid = nat
  type Header = nat

  /** A goal ever accepted: its result future, the requests registered on that future, and the
      answers sent by callbacks the executor has run. */
  datatype Record = Record(fut: F.State, asked: multiset<Header>, ran: multiset<Header>) {
    /** How many answers have been sent to requests with header `h` about this goal. */
    function Answers(h: Header): nat { fut.called[F.Callback(h)] + ran[h] }

    /** _execute_get_result_request for a tracked goal. */
    function Ask(h: Header): Record {
      this.(fut := F.Register(fut, F.Callback(h)), asked := asked + multiset{h})
    }

    /** Complete: every call on the future has returned and the executor has run what it was given. */
    ghost predicate Settled() {
      && !fut.fut.IsPending()
      && (forall op :: op in fut.ops ==> op == F.Returned)
      && (forall h :: ran[h] == fut.queued[F.Callback(h)])
    }
  }

  /** `tracked` stands for both dictionaries of the server, which have the same keys (see the
      class below); `requests` and `unknown` count all get-result requests taken and those
      answered at once with status UNKNOWN. */
  datatype Server = Server(
    records: seq<Record>, tracked: map<Uuid, nat>, requests: multiset<Header>, unknown: multiset<Header>)

  datatype Event =
    | Accept(u: Uuid)
    | Request(u: Uuid, h: Header)
    | SetResult(u: Uuid)           // succeed, abort, canceled with a response, or the execute callback returning
    | OnFuture(i: nat, e: F.Event) // a call on the future of record i takes its next step
    | RunQueued(i: nat, h: Header) // the executor runs a callback it was handed
    | Expire(u: Uuid)

  function Start(): Server { Server([], map[], multiset{}, multiset{}) }

  predicate FutureStep(e: F.Event) { e.Swap? || e.HandOne? || e.CallLate? || e.SetExecutor? }

  function Next(s: Server, e: Event): Option<Server> {
    match e
    case Accept(u) =>
      Some(s.(records := s.records + [Record(F.Fresh(false), multiset{}, multiset{})],
              tracked := s.tracked[u := |s.records|]))
    case Request(u, h) =>
      var s1 := s.(requests := s.requests + multiset{h});
      if u in s.tracked && s.tracked[u] < |s.records|
      then Some(s1.(records := s.records[s.tracked[u] := s.records[s.tracked[u]].Ask(h)]))
      else Some(s1.(unknown := s.unknown + multiset{h}))
    case SetResult(u) =>
      if u in s.tracked && s.tracked[u] < |s.records| then Some(Update(s, s.tracked[u], F.Complete)) else Some(s)
    case OnFuture(i, e) =>
      if i < |s.records| && FutureStep(e) && F.Next(s.records[i].fut, e).Some? then Some(Update(s, i, e)) else None
    case RunQueued(i, h) =>
      if i < |s.records| && s.records[i].ran[h] < s.records[i].fut.queued[F.Callback(h)]
      then Some(s.(records := s.records[i := s.records[i].(ran := s.records[i].ran + multiset{h})])) else None
    case Expire(u) =>
      Some(s.(tracked := s.tracked - {u}))
  }

  function Update(s: Server, i: nat, e: F.Event): Server
    requires i < |s.records| && F.Next(s.records[i].fut, e).Some?
  {
    s.(records := s.records[i := s.records[i].(fut := F.Next(s.records[i].fut, e).value)])
  }

  // ----- the dictionaries, in place -----

  /** What stays of a set of goals when `expired` are gone. */
  function Without(keys: set<Uuid>, expired: seq<Uuid>): set<Uuid> {
    set u <- keys | u !in expired
  }

  ghost predicate IsResult<V>(results: map<Uuid, F.Future<V>>, f: F.Future<V>) {
    exists u :: u in results && results[u] == f
  }

  /** No two goals share a future, and the executor is told of exactly the result futures and the
      orphans, each once. */
  ghost predicate Consistent<V>(results: map<Uuid, F.Future<V>>, futures: seq<F.Future<V>>, orphans: set<F.Future<V>>) {
    && (forall u, v :: u in results && v in results && u != v ==> results[u] != results[v])
    && NoDuplicates(futures)
    && (forall i :: 0 <= i < |futures| ==> (futures[i] in orphans <==> !IsResult(results, futures[i])))
    && (forall u :: u in results ==> results[u] in futures)
    && (forall f :: f in orphans ==> f in futures)
  }

  lemma EnterKeeps<V>(results: map<Uuid, F.Future<V>>, futures: seq<F.Future<V>>, orphans: set<F.Future<V>>,
                      u: Uuid, f: F.Future<V>)
    requires Consistent(results, futures, orphans) && f !in futures
    ensures Consistent(results[u := f], futures + [f], orphans + if u in results then {results[u]} else {})
  {
    var results', futures' := results[u := f], futures + [f];
    var orphans' := orphans + if u in results then {results[u]} else {};
    forall i | 0 <= i < |futures'| ensures futures'[i] in orphans' <==> !IsResult(results', futures'[i]) {
      if i < |futures| {
        assert futures'[i] == futures[i];
        if v :| v in results && v != u && results[v] == futures[i] {
          assert v in results' && results'[v] == futures[i];
        }
        if v :| v in results' && results'[v] == futures[i] {
          assert v != u && v in results && results[v] == futures[i];
        }
      } else {
        assert u in results' && results'[u] == futures'[i];
      }
    }
    forall v | v in results' ensures results'[v] in futures' {
      if v == u {
        assert futures'[|futures|] == f;
      } else {
        assert results[v] in futures;
      }
    }
  }

  lemma LeaveKeeps<V>(results: map<Uuid, F.Future<V>>, futures: seq<F.Future<V>>, orphans: set<F.Future<V>>, u: Uuid)
    requires Consistent(results, futures, orphans) && u in results
    ensures Consistent(results - {u}, RemoveFirst(futures, results[u]), orphans)
  {
    var futures', results' := RemoveFirst(futures, results[u]), results - {u};
    RemoveFirstOfDistinct(futures, results[u]);
    var k :| 0 <= k < |futures| && futures[k] == results[u];
    assert IsResult(results, futures[k]) && results[u] !in orphans;
    forall i | 0 <= i < |futures'| ensures futures'[i] in orphans <==> !IsResult(results', futures'[i]) {
      RemoveFirstOfDistinctAt(futures, results[u], i);
      var j :| 0 <= j < |futures| && futures[j] == futures'[i];
      assert futures[j] in orphans <==> !IsResult(results, futures[j]);
      if v :| v in results && results[v] == futures'[i] {
        assert v in results' && results'[v] == futures'[i];
      }
    }
  }

  /** `V` is the response that a result future holds. The goal handles themselves belong to rcl;
      of their dictionary only the keys matter here. `orphans` are result futures whose entry has
      been overwritten, by a goal with the UUID of one that rcl has forgotten and the server has
      not; nobody removes them from the executor's list. */
  class ActionServer<V> {
    var goalHandles: set<Uuid>
    var resultFutures: map<Uuid, F.Future<V>>
    var futures: seq<F.Future<V>>
    ghost var orphans: set<F.Future<V>>

    ghost predicate Valid() reads this {
      goalHandles == resultFutures.Keys && Consistent(resultFutures, futures, orphans)
    }

    constructor ()
      ensures Valid() && goalHandles == {} && orphans == {}
    {
      goalHandles, resultFutures, futures, orphans := {}, map[], [], {};
    }

    /** The end of a goal request; `created` says that rcl made a handle. */
    method AcceptGoal(u: Uuid, created: bool)
      requires Valid()
      modifies this
      ensures Valid()
      ensures !created ==> goalHandles == old(goalHandles) && resultFutures == old(resultFutures)
      ensures !created ==> futures == old(futures) && orphans == old(orphans)
      ensures created ==>
        && goalHandles == old(goalHandles) + {u} && u in resultFutures && fresh(resultFutures[u])
        && resultFutures == old(resultFutures)[u := resultFutures[u]] && futures == old(futures) + [resultFutures[u]]
        && resultFutures[u].Visible() == F.View(F.Pending, [], false)
        && orphans == old(orphans) + (if u in old(resultFutures) then {old(resultFutures)[u]} else {})
    {
      if created {
        var f := new F.Future<V>(false);
        EnterKeeps(resultFutures, futures, orphans, u, f);
        orphans := orphans + if u in resultFutures then {resultFutures[u]} else {};
        goalHandles := goalHandles + {u};
        resultFutures := resultFutures[u := f];
        futures := futures + [f];
      }
    }

    /** Setting the result of a goal, as often as the user and the execute callback do so. False
        stands for the KeyError about a goal that has expired. */
    method SetResult(u: Uuid, response: V) returns (found: bool)
      requires Valid()
      modifies if u in resultFutures then {resultFutures[u]} else {}
      ensures found <==> u in resultFutures
      ensures found ==> resultFutures[u].Visible() == old(resultFutures[u].Visible()).Finish()
      ensures found ==> resultFutures[u].result == Some(response)
    {
      found := u in resultFutures;
      if found {
        resultFutures[u].SetResult(response);
      }
    }

    /** A get-result request: answered UNKNOWN when the goal is not tracked, otherwise left to a
        callback of the result future, which runs at once (`late`) if the result is there. */
    method ExecuteGetResultRequest(u: Uuid, h: Header) returns (unknown: bool, late: bool)
      requires Valid()
      modifies if u in resultFutures then {resultFutures[u]} else {}
      ensures unknown <==> u !in goalHandles
      ensures !unknown ==> (late <==> !old(resultFutures[u].Visible()).IsPending())
      ensures !unknown ==> resultFutures[u].Visible() == old(resultFutures[u].Visible()).Listen(F.Callback(h))
      ensures !unknown ==> resultFutures[u].result == old(resultFutures[u].result)
    {
      unknown, late := u !in goalHandles, false;
      if !unknown {
        var skipped: bool;
        skipped, late := resultFutures[u].Listen(F.Callback(h), false);
      }
    }

    /** Every goal named is forgotten, with its future; false stands for the KeyError about one
        that is not tracked (or named twice), at which the loop stops. */
    method ExecuteExpireGoals(expired: seq<Uuid>) returns (ok: bool)
      requires Valid()
      modifies this
      ensures Valid()
      ensures ok <==> NoDuplicates(expired) && forall u <- expired :: u in old(goalHandles)
      ensures ok ==> goalHandles == Without(old(goalHandles), expired)
      ensures orphans == old(orphans)
      ensures goalHandles <= old(goalHandles) && forall u <- goalHandles :: resultFutures[u] == old(resultFutures)[u]
    {
      for i := 0 to |expired|
        invariant Valid() && orphans == old(orphans)
        invariant NoDuplicates(expired[..i]) && forall u <- expired[..i] :: u in old(goalHandles)
        invariant goalHandles == Without(old(goalHandles), expired[..i])
        invariant goalHandles <= old(goalHandles) && forall u <- goalHandles :: resultFutures[u] == old(resultFutures)[u]
      {
        var u := expired[i];
        assert expired[..i + 1] == expired[..i] + [u];
        if u !in goalHandles {
          assert u in expired[..i] || u !in old(goalHandles);
          return false;
        }
        assert u !in expired[..i];
        Forget(u);
      }
      assert expired[..|expired|] == expired;
      ok := true;
    }

    method Forget(u: Uuid)
      requires Valid() && u in goalHandles
      modifies this
      ensures Valid() && goalHandles == old(goalHandles) - {u} && resultFutures == old(resultFutures) - {u}
      ensures orphans == old(orphans)
    {
      LeaveKeeps(resultFutures, futures, orphans, u);
      goalHandles := goalHandles - {u};
      futures := RemoveFirst(futures, resultFutures[u]);
      resultFutures := resultFutures - {u};
    }
  }

  // ----- one goal -----

  /** Every request registered is one registration on the future, none is ever taken back, and
      the executor has run no more callbacks than it was handed. */
  ghost predicate Ledger(r: Record) {
    forall h ::
      && r.fut.added[F.Callback(h)] == r.asked[h]
      && r.fut.removed[F.Callback(h)] == 0
      && r.ran[h] <= r.fut.queued[F.Callback(h)]
  }

  /** Nothing has been handed over while the result is not there. */
  ghost predicate Untouched(r: Record) {
    r.fut.fut.IsPending() ==> r.fut.ops == [] && r.fut.queued == multiset{} && r.fut.called == multiset{}
  }

  /** Nobody cancels a result future while the server lives. */
  ghost predicate NeverCancelled(r: Record) { F.Checked !in r.fut.ops }

  ghost predicate RecordOk(r: Record) { F.Inv(r.fut) && Ledger(r) && Untouched(r) && NeverCancelled(r) }

  lemma StartsOk()
    ensures RecordOk(Record(F.Fresh(false), multiset{}, multiset{}))
  {
  }

  lemma AskKeeps(r: Record, h: Header)
    requires RecordOk(r)
    ensures RecordOk(r.Ask(h))
  {
    F.StepKeepsInv(r.fut, F.Add(F.Callback(h), false));
  }

  /** What a step of the future does to the counts that the ledger speaks of. */
  lemma FutureStepCounts(f: F.State, e: F.Event, h: Header)
    requires (FutureStep(e) || e.Complete?) && F.Next(f, e).Some?
    ensures var f' := F.Next(f, e).value;
      && f'.added == f.added && f'.removed == f.removed
      && f.queued[F.Callback(h)] <= f'.queued[F.Callback(h)]
      && (f'.fut.IsPending() ==> f.fut.IsPending() && (f.ops == [] ==> f' == f.(fut := f'.fut)))
  {
  }

  lemma FutureStepKeeps(r: Record, e: F.Event)
    requires RecordOk(r) && (FutureStep(e) || e.Complete?) && F.Next(r.fut, e).Some?
    ensures RecordOk(r.(fut := F.Next(r.fut, e).value))
  {
    F.StepKeepsInv(r.fut, e);
    forall h { FutureStepCounts(r.fut, e, h); }
    FutureStepCounts(r.fut, e, 0);
    FutureStepStartsNoCancel(r.fut, e);
  }

  lemma FutureStepStartsNoCancel(f: F.State, e: F.Event)
    requires (FutureStep(e) || e.Complete?) && F.Checked !in f.ops && F.Next(f, e).Some?
    ensures F.Checked !in F.Next(f, e).value.ops
  {
    var ops, ops' := f.ops, F.Next(f, e).value.ops;
    forall k | 0 <= k < |ops'| ensures ops'[k] != F.Checked {
      if k < |ops| {
        assert ops[k] in ops;
      }
    }
  }

  /** A goal never sends more answers than it was asked for; once settled, as many. */
  lemma AnswersBounded(r: Record, h: Header)
    requires RecordOk(r)
    ensures r.Answers(h) <= r.asked[h]
    ensures r.Settled() ==> r.Answers(h) == r.asked[h]
  {
    assert F.Balanced(r.fut, F.Callback(h));
    if r.Settled() {
      F.QuietIsDelivered(r.fut, h);
    }
  }

  // ----- all goals -----

  function Asked(rs: seq<Record>): seq<multiset<Header>> {
    seq(|rs|, i requires 0 <= i < |rs| => rs[i].asked)
  }

  function TotalAnswers(rs: seq<Record>, h: Header): nat {
    if rs == [] then 0 else rs[0].Answers(h) + TotalAnswers(rs[1..], h)
  }

  ghost predicate Inv(s: Server) {
    && (forall i :: 0 <= i < |s.records| ==> RecordOk(s.records[i]))
    && (forall h :: s.requests[h] == s.unknown[h] + Bags.Total(Asked(s.records), h))
  }

  lemma UpdateKeepsInv(s: Server, i: nat, r: Record)
    requires Inv(s) && i < |s.records| && RecordOk(r) && r.asked == s.records[i].asked
    ensures Inv(s.(records := s.records[i := r]))
  {
    assert Asked(s.records[i := r]) == Asked(s.records);
  }

  lemma StepKeepsInv(s: Server, e: Event)
    requires Inv(s) && Next(s, e).Some?
    ensures Inv(Next(s, e).value)
  {
    match e
    case Accept(u) =>
      AcceptKeepsInv(s, u);
    case Request(u, h) =>
      RequestKeepsInv(s, u, h);
    case SetResult(u) =>
      if u in s.tracked && s.tracked[u] < |s.records| {
        var i := s.tracked[u];
        FutureStepKeeps(s.records[i], F.Complete);
        UpdateKeepsInv(s, i, s.records[i].(fut := F.Next(s.records[i].fut, F.Complete).value));
      }
    case OnFuture(i, e) =>
      FutureStepKeeps(s.records[i], e);
      UpdateKeepsInv(s, i, s.records[i].(fut := F.Next(s.records[i].fut, e).value));
    case RunQueued(i, h) =>
      UpdateKeepsInv(s, i, s.records[i].(ran := s.records[i].ran + multiset{h}));
    case Expire(u) =>
  }

  lemma AcceptKeepsInv(s: Server, u: Uuid)
    requires Inv(s)
    ensures Inv(Next(s, Accept(u)).value)
  {
    var blank := Record(F.Fresh(false), multiset{}, multiset{});
    StartsOk();
    assert Asked(s.records + [blank]) == Asked(s.records) + [multiset{}];
    forall h ensures Bags.Total(Asked(s.records + [blank]), h) == Bags.Total(Asked(s.records), h) {
      Bags.TotalAppend(Asked(s.records), multiset{}, h);
    }
  }

  lemma RequestKeepsInv(s: Server, u: Uuid, h: Header)
    requires Inv(s)
    ensures Inv(Next(s, Request(u, h)).value)
  {
    if u in s.tracked && s.tracked[u] < |s.records| {
      var i := s.tracked[u];
      AskKeeps(s.records[i], h);
      var rs := s.records[i := s.records[i].Ask(h)];
      forall x ensures Bags.Total(Asked(rs), x) == Bags.Total(Asked(s.records), x) + multiset{h}[x] {
        AskCounts(s.records, i, h, x);
      }
    }
  }

  lemma AskCounts(rs: seq<Record>, i: nat, h: Header, x: Header)
    requires i < |rs|
    ensures Bags.Total(Asked(rs[i := rs[i].Ask(h)]), x) == Bags.Total(Asked(rs), x) + multiset{h}[x]
  {
    assert Asked(rs[i := rs[i].Ask(h)]) == Asked(rs)[i := rs[i].asked + multiset{h}];
    Bags.TotalUpdate(Asked(rs), i, rs[i].asked + multiset{h}, x);
  }

  lemma {:induction false} TotalAnswersBounded(rs: seq<Record>, h: Header)
    requires forall i :: 0 <= i < |rs| ==> RecordOk(rs[i])
    ensures TotalAnswers(rs, h) <= Bags.Total(Asked(rs), h)
    ensures (forall i :: 0 <= i < |rs| ==> rs[i].Settled()) ==> TotalAnswers(rs, h) == Bags.Total(Asked(rs), h)
  {
    if rs != [] {
      AnswersBounded(rs[0], h);
      assert Asked(rs)[1..] == Asked(rs[1..]);
      TotalAnswersBounded(rs[1..], h);
    }
  }

  // ----- main results -----

  /** In every run, no get-result request is answered twice: not per goal, and not over all goals
      and the immediate UNKNOWN answers together, although results are set repeatedly, requests
      race with completion and the executor may run callbacks long after the goal expired. */
  lemma RequestsAnsweredAtMostOnce(es: seq<Event>)
    requires Exec(Next, Start(), es).Some?
    ensures var s := Exec(Next, Start(), es).value;
      forall h :: (forall i :: 0 <= i < |s.records| ==> s.records[i].Answers(h) <= s.records[i].asked[h])
               && s.unknown[h] + TotalAnswers(s.records, h) <= s.requests[h]
  {
    RunKeepsInv(es);
    var s := Exec(Next, Start(), es).value;
    forall h ensures s.unknown[h] + TotalAnswers(s.records, h) <= s.requests[h] {
      TotalAnswersBounded(s.records, h);
    }
    forall h, i: nat | i < |s.records| ensures s.records[i].Answers(h) <= s.records[i].asked[h] {
      AnswersBounded(s.records[i], h);
    }
  }

  /** ... and once a goal has its result, no call on its future is in flight and the executor has
      run what it was handed, each of its requests has been answered, exactly once. When this
      is so of all goals, the server has answered exactly what it was asked. */
  lemma SettledGoalsAnswerEveryRequest(es: seq<Event>)
    requires Exec(Next, Start(), es).Some?
    ensures var s := Exec(Next, Start(), es).value;
      && (forall i, h :: 0 <= i < |s.records| && s.records[i].Settled() ==> s.records[i].Answers(h) == s.records[i].asked[h])
      && ((forall i :: 0 <= i < |s.records| ==> s.records[i].Settled()) ==>
            forall h :: s.unknown[h] + TotalAnswers(s.records, h) == s.requests[h])
  {
    RunKeepsInv(es);
    var s := Exec(Next, Start(), es).value;
    forall i: nat, h | i < |s.records| && s.records[i].Settled() ensures s.records[i].Answers(h) == s.records[i].asked[h] {
      AnswersBounded(s.records[i], h);
    }
    if forall i :: 0 <= i < |s.records| ==> s.records[i].Settled() {
      forall h ensures s.unknown[h] + TotalAnswers(s.records, h) == s.requests[h] {
        TotalAnswersBounded(s.records, h);
      }
    }
  }

  lemma RunKeepsInv(es: seq<Event>)
    requires Exec(Next, Start(), es).Some?
    ensures Inv(Exec(Next, Start(), es).value)
  {
    forall s, e | Inv(s) && Next(s, e).Some? ensures Inv(Next(s, e).value) { StepKeepsInv(s, e); }
    InvariantOfRuns(Next, Inv, Start(), es);
  }

  // ----- what is not guaranteed -----

  /** Record `i` waits for a result that nobody can set any more. */
  ghost predicate Abandoned(s: Server, i: nat) {
    && i < |s.records| && RecordOk(s.records[i]) && s.records[i].fut.fut.IsPending()
    && (forall u :: u in s.tracked ==> s.tracked[u] != i)
  }

  /** A goal that expires before its result is set leaves its requests unanswered for ever:
      setting the result then fails to find the future. */
  lemma {:induction false} AbandonedGoalsNeverAnswer(s: Server, i: nat, es: seq<Event>)
    requires Abandoned(s, i) && Exec(Next, s, es).Some?
    ensures var s' := Exec(Next, s, es).value;
      Abandoned(s', i) && s'.records[i].asked == s.records[i].asked && forall h :: s'.records[i].Answers(h) == 0
    decreases |es|
  {
    if es != [] {
      AbandonedStays(s, i, es[0]);
      AbandonedGoalsNeverAnswer(Next(s, es[0]).value, i, es[1..]);
    }
  }

  lemma AbandonedStays(s: Server, i: nat, e: Event)
    requires Abandoned(s, i) && Next(s, e).Some?
    ensures Abandoned(Next(s, e).value, i) && Next(s, e).value.records[i].asked == s.records[i].asked
  {
    var s' := Next(s, e).value;
    if e.OnFuture? && e.i == i {
      FutureStepKeeps(s.records[i], e.e);
      FutureStepCounts(s.records[i].fut, e.e, 0);
      assert e.e.SetExecutor?;
    } else {
      assert s'.records[i] == s.records[i];
      if e.Accept? {
        assert Abandoned(s', i);
      } else {
        assert forall u :: u in s'.tracked ==> u in s.tracked && s'.tracked[u] == s.tracked[u];
      }
    }
  }

  // ----- what remains possible -----

  /** How many steps the calls in flight still have to take. */
  function OpWork(op: F.Op): nat {
    match op
    case Wrote => 2
    case Handing(rest, _) => |rest| + 1
    case Calling(_) => 1
    case _ => 0
  }

  function OpsWork(ops: seq<F.Op>): nat {
    if ops == [] then 0 else OpWork(ops[0]) + OpsWork(ops[1..])
  }

  lemma {:induction false} OpsWorkUpdate(ops: seq<F.Op>, i: nat, op: F.Op)
    requires i < |ops|
    ensures OpsWork(ops[i := op]) == OpsWork(ops) - OpWork(ops[i]) + OpWork(op)
  {
    if i == 0 {
      assert ops[0 := op][1..] == ops[1..];
    } else {
      assert ops[i := op][1..] == ops[1..][i - 1 := op];
      OpsWorkUpdate(ops[1..], i - 1, op);
    }
  }

  function Work(f: F.State): nat { |f.fut.callbacks| + OpsWork(f.ops) }

  /** The next step of a call in flight. */
  function NextStep(op: F.Op, i: nat): F.Event {
    match op
    case Wrote => F.Swap(i)
    case Handing(_, _) => F.HandOne(i)
    case _ => F.CallLate(i)
  }

  lemma NextStepIsLessWork(f: F.State, i: nat)
    requires i < |f.ops| && f.ops[i] != F.Returned && f.ops[i] != F.Checked && !f.fut.IsPending()
    ensures var e := NextStep(f.ops[i], i);
      && FutureStep(e) && F.Next(f, e).Some?
      && Work(F.Next(f, e).value) < Work(f) && !F.Next(f, e).value.fut.IsPending()
  {
    var f' := F.Next(f, NextStep(f.ops[i], i)).value;
    OpsWorkUpdate(f.ops, i, f'.ops[i]);
  }

  ghost predicate Quiet(f: F.State) { !f.fut.IsPending() && forall op :: op in f.ops ==> op == F.Returned }

  /** The calls in flight on a completed result future can all return. */
  lemma {:induction false} CallsCanReturn(init: Server, s: Server, i: nat) returns (t: Server)
    requires Reaches(Next, init, s) && i < |s.records| && RecordOk(s.records[i]) && !s.records[i].fut.fut.IsPending()
    ensures Reaches(Next, init, t) && i < |t.records| && RecordOk(t.records[i]) && Quiet(t.records[i].fut)
    decreases Work(s.records[i].fut)
  {
    var f := s.records[i].fut;
    if Quiet(f) {
      t := s;
    } else {
      var op :| op in f.ops && op != F.Returned;
      var j: nat :| j < |f.ops| && f.ops[j] == op;
      NextStepIsLessWork(f, j);
      FutureStepKeeps(s.records[i], NextStep(op, j));
      t := Drive(Next, init, s, OnFuture(i, NextStep(op, j)));
      t := CallsCanReturn(init, t, i);
    }
  }

  lemma OneLess(a: multiset<Header>, b: multiset<Header>, h: Header)
    requires b[h] < a[h]
    ensures |a - (b + multiset{h})| < |a - b|
  {
    assert a - (b + multiset{h}) == (a - b) - multiset{h};
  }

  /** ... and then the executor can run all it was handed. */
  lemma {:induction false} QueueCanDrain(init: Server, s: Server, i: nat) returns (t: Server)
    requires Reaches(Next, init, s) && i < |s.records| && RecordOk(s.records[i]) && Quiet(s.records[i].fut)
    ensures Reaches(Next, init, t) && i < |t.records| && RecordOk(t.records[i]) && t.records[i].Settled()
    decreases |s.records[i].asked - s.records[i].ran|
  {
    var r := s.records[i];
    if h :| r.ran[h] < r.fut.queued[F.Callback(h)] {
      assert r.ran[h] < r.asked[h] by {
        assert F.Balanced(r.fut, F.Callback(h));
      }
      OneLess(r.asked, r.ran, h);
      t := Drive(Next, init, s, RunQueued(i, h));
      t := QueueCanDrain(init, t, i);
    } else {
      t := s;
    }
  }

  /** All requests made about record `i` have been answered. */
  ghost predicate AllAnswered(s: Server, i: nat) {
    i < |s.records| && forall h :: s.records[i].Answers(h) == s.records[i].asked[h]
  }

  /** Somebody can still set the result of record `i`. */
  ghost predicate Tracked(s: Server, i: nat) { exists u :: u in s.tracked && s.tracked[u] == i }

  /** Main result on which requests can be answered: in every reachable state a goal has a
      continuation in which all its requests are answered if and only if its result is set, or it
      is still tracked, or nobody has asked. */
  lemma AnswerableExactly(es: seq<Event>, i: nat)
    requires Exec(Next, Start(), es).Some? && i < |Exec(Next, Start(), es).value.records|
    ensures var s := Exec(Next, Start(), es).value;
      (exists t :: Reaches(Next, s, t) && AllAnswered(t, i)) <==>
        !s.records[i].fut.fut.IsPending() || Tracked(s, i) || s.records[i].asked == multiset{}
  {
    RunKeepsInv(es);
    var s := Exec(Next, Start(), es).value;
    var r := s.records[i];
    ReachesStart(Next, s);
    if !r.fut.fut.IsPending() {
      var t := CompletedCanAnswer(s, s, i);
    } else if u :| u in s.tracked && s.tracked[u] == i {
      FutureStepKeeps(r, F.Complete);
      var t := Drive(Next, s, s, SetResult(u));
      t := CompletedCanAnswer(s, t, i);
    } else if r.asked == multiset{} {
      forall h { AnswersBounded(r, h); }
      assert AllAnswered(s, i);
    } else {
      var h :| h in r.asked;
      forall t | Reaches(Next, s, t) ensures !AllAnswered(t, i) {
        var fs :| Exec(Next, s, fs) == Some(t);
        AbandonedGoalsNeverAnswer(s, i, fs);
        assert t.records[i].Answers(h) == 0;
      }
    }
  }

  lemma CompletedCanAnswer(init: Server, s: Server, i: nat) returns (t: Server)
    requires Reaches(Next, init, s) && i < |s.records| && RecordOk(s.records[i]) && !s.records[i].fut.fut.IsPending()
    ensures Reaches(Next, init, t) && AllAnswered(t, i)
  {
    t := CallsCanReturn(init, s, i);
    t := QueueCanDrain(init, t, i);
    forall h { AnswersBounded(t.records[i], h); }
  }

  /** Abandoned requests do occur: accept, ask, expire. */
  lemma GoalsCanBeAbandoned(u: Uuid, h: Header)
    ensures exists s: Server :: Reaches(Next, Start(), s) && Abandoned(s, 0) && s.records[0].asked[h] == 1
  {
    var s0 := Start();
    var s1 := Next(s0, Accept(u)).value;
    var s2 := Next(s1, Request(u, h)).value;
    var s3 := Next(s2, Expire(u)).value;
    ReachesStart(Next, s0);
    ReachesNext(Next, s0, s0, Accept(u));
    ReachesNext(Next, s0, s1, Request(u, h));
    ReachesNext(Next, s0, s2, Expire(u));
    StartsOk();
    AskKeeps(s1.records[0], h);
  }
}
