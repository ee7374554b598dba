/** Bookkeeping of the action client (rclpy/action/client.py): requests pending by sequence
    number, the goal each belongs to, and the futures the executor knows about. Each method is
    one step; sequence numbers and responses come from the middleware and are arbitrary. */
module ActionClients {
  import opened Lists
  import opened Options
  import opened Runs

  type Future = nat
  type Uuid = nat
  type Sequence = nat
  type FeedbackCallback = nat

  datatype Kind = Goal | Cancel | Result

  /** The last three fields are history: how many futures were made, for which request each was
      made, and for which response each was completed. */
  datatype Client = Client(
    goals: map<Sequence, Future>, goalIds: map<Sequence, Uuid>,
    cancels: map<Sequence, Future>,
    results: map<Sequence, Future>, resultIds: map<Sequence, Uuid>,
    futures: seq<Future>, feedback: map<Uuid, FeedbackCallback>, handles: set<Uuid>,
    made: nat, sent: map<Future, (Kind, Sequence)>, delivered: map<Future, (Kind, Sequence)>)
  {
    function Pending(k: Kind): map<Sequence, Future> {
      match k
      case Goal => goals
      case Cancel => cancels
      case Result => results
    }

    function WithPending(k: Kind, m: map<Sequence, Future>): Client {
      match k
      case Goal => this.(goals := m)
      case Cancel => this.(cancels := m)
      case Result => this.(results := m)
    }

    /** A request is sent: its future is made, entered and announced to the executor. */
    function Send(k: Kind, n: Sequence): Client {
      WithPending(k, Pending(k)[n := made]).(futures := futures + [made], made := made + 1, sent := sent[made := (k, n)])
    }

    function SendGoal(n: Sequence, id: Uuid, callback: Option<FeedbackCallback>): Client {
      var c := Send(Goal, n);
      c.(goalIds := c.goalIds[n := id],
         feedback := if callback.Some? then c.feedback[id := callback.value] else c.feedback)
    }

    function SendResult(n: Sequence, id: Uuid): Client {
      var c := Send(Result, n);
      c.(resultIds := c.resultIds[n := id])
    }

    /** The entry `n`, holding future `f`, is taken out of the pending requests. */
    function Forget(k: Kind, n: Sequence, f: Future): Client {
      WithPending(k, Pending(k) - {n}).(futures := RemoveFirst(futures, f))
    }

    function ForgetGoal(n: Sequence, f: Future): Client {
      var c := Forget(Goal, n, f);
      c.(goalIds := c.goalIds - {n})
    }

    function ForgetResult(n: Sequence, f: Future): Client {
      var c := Forget(Result, n, f);
      if n in resultIds then c.(resultIds := c.resultIds - {n}, feedback := c.feedback - {resultIds[n]}) else c
    }

    /** The sequence number under which `f` is pending, looked up in the history. */
    function RequestOf(k: Kind, f: Future): Option<Sequence> {
      if f in sent && sent[f].0 == k && sent[f].1 in Pending(k) && Pending(k)[sent[f].1] == f
      then Some(sent[f].1) else None
    }

    function RemoveGoal(f: Future): Client {
      var n := RequestOf(Goal, f);
      if n.Some? then ForgetGoal(n.value, f) else this
    }

    function RemoveCancel(f: Future): Client {
      var n := RequestOf(Cancel, f);
      if n.Some? then Forget(Cancel, n.value, f) else this
    }

    function RemoveResult(f: Future): Client {
      var n := RequestOf(Result, f);
      if n.Some? then ForgetResult(n.value, f) else this
    }

    function Deliver(k: Kind, n: Sequence): Client
      requires n in Pending(k)
    {
      this.(delivered := delivered[Pending(k)[n] := (k, n)])
    }
  }

  /** `f` is the future of a request still pending. */
  ghost predicate InPlay(c: Client, f: Future) {
    f in c.sent && var (k, n) := c.sent[f]; n in c.Pending(k) && c.Pending(k)[n] == f
  }

  /** Every future entered was made for the request it is entered under. */
  ghost predicate Entered(pending: map<Sequence, Future>, k: Kind, sent: map<Future, (Kind, Sequence)>) {
    forall n :: n in pending ==> pending[n] in sent && sent[pending[n]] == (k, n)
  }

  ghost predicate FuturesOk(c: Client) {
    NoDuplicates(c.futures) && forall f :: f in c.futures <==> InPlay(c, f)
  }

  ghost predicate SentOk(c: Client) {
    && Entered(c.goals, Goal, c.sent) && Entered(c.cancels, Cancel, c.sent) && Entered(c.results, Result, c.sent)
    && (forall f :: f in c.sent ==> f < c.made)
  }

  ghost predicate DeliveredOk(c: Client) {
    forall f :: f in c.delivered ==> f in c.sent && c.delivered[f] == c.sent[f]
  }

  /** The two pairs of maps have the same keys; every pending future was made for the request it
      is entered under; the executor's list holds exactly the pending futures, each once; and a
      future is only ever completed by the response to its own request. */
  ghost predicate Inv(c: Client) {
    && c.goals.Keys == c.goalIds.Keys && c.results.Keys == c.resultIds.Keys
    && SentOk(c) && FuturesOk(c) && DeliveredOk(c)
  }

  class ActionClient {
    var goals: map<Sequence, Future>
    var goalIds: map<Sequence, Uuid>
    var cancels: map<Sequence, Future>
    var results: map<Sequence, Future>
    var resultIds: map<Sequence, Uuid>
    var futures: seq<Future>
    var feedback: map<Uuid, FeedbackCallback>
    var handles: set<Uuid>
    var made: nat
    ghost var sent: map<Future, (Kind, Sequence)>
    ghost var delivered: map<Future, (Kind, Sequence)>

    ghost function Contents(): Client reads this {
      Client(goals, goalIds, cancels, results, resultIds, futures, feedback, handles, made, sent, delivered)
    }

    ghost predicate Valid() reads this { Inv(Contents()) }

    constructor ()
      ensures Valid() && futures == []
    {
      goals, goalIds, cancels, results, resultIds := map[], map[], map[], map[], map[];
      futures, feedback, handles, made := [], map[], {}, 0;
      sent, delivered := map[], map[];
    }

    /** None stands for the RuntimeError about a conflicting sequence number. */
    method SendGoalAsync(n: Sequence, id: Uuid, callback: Option<FeedbackCallback>) returns (f: Option<Future>)
      requires Valid()
      modifies this
      ensures Valid()
      ensures n in old(goals) ==> f == None && Contents() == old(Contents())
      ensures n !in old(goals) ==> f == Some(old(made)) && Contents() == old(Contents()).SendGoal(n, id, callback)
    {
      if n in goals {
        return None;
      }
      ghost var c := Contents();
      f := Some(made);
      goals, goalIds, sent := goals[n := made], goalIds[n := id], sent[made := (Goal, n)];
      futures, made := futures + [made], made + 1;
      if callback.Some? {
        feedback := feedback[id := callback.value];
      }
      assert Contents() == c.SendGoal(n, id, callback);
      SendGoalKeeps(c, n, id, callback);
    }

    method CancelGoalAsync(n: Sequence) returns (f: Option<Future>)
      requires Valid()
      modifies this
      ensures Valid()
      ensures n in old(cancels) ==> f == None && Contents() == old(Contents())
      ensures n !in old(cancels) ==> f == Some(old(made)) && Contents() == old(Contents()).Send(Cancel, n)
    {
      if n in cancels {
        return None;
      }
      SendKeeps(Contents(), Cancel, n);
      f := Some(made);
      cancels, sent := cancels[n := made], sent[made := (Cancel, n)];
      futures, made := futures + [made], made + 1;
    }

    method GetResultAsync(n: Sequence, id: Uuid) returns (f: Option<Future>)
      requires Valid()
      modifies this
      ensures Valid()
      ensures n in old(results) ==> f == None && Contents() == old(Contents())
      ensures n !in old(results) ==> f == Some(old(made)) && Contents() == old(Contents()).SendResult(n, id)
    {
      if n in results {
        return None;
      }
      ghost var c := Contents();
      f := Some(made);
      results, resultIds, sent := results[n := made], resultIds[n := id], sent[made := (Result, n)];
      futures, made := futures + [made], made + 1;
      assert Contents() == c.SendResult(n, id);
      SendResultKeeps(c, n, id);
    }

    /** The search of _remove_pending_request through a copy of the entries. */
    static method FindRequest(f: Future, pending: map<Sequence, Future>) returns (n: Option<Sequence>)
      ensures n.Some? ==> n.value in pending && pending[n.value] == f
      ensures n.None? ==> forall m <- pending.Keys :: pending[m] != f
    {
      var todo := pending.Items;
      while todo != {}
        invariant todo <= pending.Items
        invariant forall m <- pending.Keys :: (m, pending[m]) in todo || pending[m] != f
        decreases |todo|
      {
        var entry :| entry in todo;
        if entry.1 == f {
          return Some(entry.0);
        }
        todo := todo - {entry};
      }
      n := None;
    }

    method RemovePendingGoalRequest(f: Future)
      requires Valid()
      modifies this
      ensures Valid()
      ensures Contents() == old(Contents()).RemoveGoal(f)
    {
      var n := FindRequest(f, goals);
      if n.Some? {
        ForgetGoalKeeps(Contents(), n.value, f);
        goals := goals - {n.value};
        futures := RemoveFirst(futures, f);
        goalIds := goalIds - {n.value};
      }
    }

    method RemovePendingCancelRequest(f: Future)
      requires Valid()
      modifies this
      ensures Valid()
      ensures Contents() == old(Contents()).RemoveCancel(f)
    {
      var n := FindRequest(f, cancels);
      if n.Some? {
        ForgetKeeps(Contents(), Cancel, n.value, f);
        cancels := cancels - {n.value};
        futures := RemoveFirst(futures, f);
      }
    }

    method RemovePendingResultRequest(f: Future)
      requires Valid()
      modifies this
      ensures Valid()
      ensures Contents() == old(Contents()).RemoveResult(f)
    {
      var n := FindRequest(f, results);
      if n.Some? {
        ForgetResultKeeps(Contents(), n.value, f);
        var id := resultIds[n.value];
        results := results - {n.value};
        futures := RemoveFirst(futures, f);
        resultIds := resultIds - {n.value};
        feedback := feedback - {id};
      }
    }

    /** The goal with this identifier has ended, or nobody holds its handle any more. */
    method TakeStatus(ended: Uuid)
      requires Valid()
      modifies this
      ensures Valid()
      ensures Contents() == old(Contents()).(handles := old(handles) - {ended})
    {
      SamePending(Contents(), Contents().(handles := handles - {ended}));
      handles := handles - {ended};
    }

    /** A goal response: the lookup of the pending future succeeds because the sequence number is
        known; an unknown one is ignored. False stands for the RuntimeError about two goals
        accepted with one ID, raised before the future is completed. */
    method TakeGoalResponse(n: Sequence, accepted: bool) returns (ok: bool)
      requires Valid()
      modifies this
      ensures Valid()
      ensures ok <==> !(n in old(goalIds) && accepted && old(goalIds)[n] in old(handles))
      ensures if !ok || n !in old(goals) then Contents() == old(Contents())
              else Contents() == old(Contents()).Deliver(Goal, n).(
                handles := if accepted then old(handles) + {old(goalIds)[n]} else old(handles))
    {
      ok := true;
      if n in goalIds {
        DeliverKeeps(Contents(), Goal, n);
        SamePending(Contents().Deliver(Goal, n), Contents().Deliver(Goal, n).(handles := handles + {goalIds[n]}));
        if accepted {
          if goalIds[n] in handles {
            return false;
          }
          handles := handles + {goalIds[n]};
        }
        assert n in goals;
        delivered := delivered[goals[n] := (Goal, n)];
      }
    }

    method TakeCancelResponse(n: Sequence)
      requires Valid()
      modifies this
      ensures Valid()
      ensures Contents() == if n in old(cancels) then old(Contents()).Deliver(Cancel, n) else old(Contents())
    {
      if n in cancels {
        DeliverKeeps(Contents(), Cancel, n);
        delivered := delivered[cancels[n] := (Cancel, n)];
      }
    }

    method TakeResultResponse(n: Sequence)
      requires Valid()
      modifies this
      ensures Valid()
      ensures Contents() == if n in old(results) then old(Contents()).Deliver(Result, n) else old(Contents())
    {
      if n in results {
        DeliverKeeps(Contents(), Result, n);
        delivered := delivered[results[n] := (Result, n)];
      }
    }
  }

  // ----- runs -----

  datatype Event =
    | SendGoal(n: Sequence, id: Uuid, callback: Option<FeedbackCallback>)
    | SendCancel(n: Sequence)
    | SendResult(n: Sequence, id: Uuid)
    | Remove(k: Kind, f: Future)              // the done-callbacks of the futures
    | TakeGoal(n: Sequence, accepted: bool)
    | TakeCancel(n: Sequence)
    | TakeResult(n: Sequence)
    | TakeStatus(ended: Uuid)

  /** A client just made. */
  function Start(): Client {
    Client(map[], map[], map[], map[], map[], [], map[], {}, 0, map[], map[])
  }

  /** Each event is one method of the class; a call that raises changes nothing. */
  function Next(c: Client, e: Event): Option<Client> {
    Some(match e
      case SendGoal(n, id, callback) => if n in c.goals then c else c.SendGoal(n, id, callback)
      case SendCancel(n) => if n in c.cancels then c else c.Send(Cancel, n)
      case SendResult(n, id) => if n in c.results then c else c.SendResult(n, id)
      case Remove(Goal, f) => c.RemoveGoal(f)
      case Remove(Cancel, f) => c.RemoveCancel(f)
      case Remove(Result, f) => c.RemoveResult(f)
      case TakeGoal(n, accepted) =>
        if n !in c.goalIds || n !in c.goals || (accepted && c.goalIds[n] in c.handles) then c
        else c.Deliver(Goal, n).(handles := if accepted then c.handles + {c.goalIds[n]} else c.handles)
      case TakeCancel(n) => if n in c.cancels then c.Deliver(Cancel, n) else c
      case TakeResult(n) => if n in c.results then c.Deliver(Result, n) else c
      case TakeStatus(id) => c.(handles := c.handles - {id}))
  }

  lemma StepKeepsInv(c: Client, e: Event)
    requires Inv(c)
    ensures Inv(Next(c, e).value)
  {
    match e
    case SendGoal(n, id, callback) => if n !in c.goals { SendGoalKeeps(c, n, id, callback); }
    case SendCancel(n) => if n !in c.cancels { SendKeeps(c, Cancel, n); }
    case SendResult(n, id) => if n !in c.results { SendResultKeeps(c, n, id); }
    case Remove(k, f) => RemoveKeeps(c, k, f);
    case TakeGoal(n, accepted) =>
      if n in c.goals && !(accepted && c.goalIds[n] in c.handles) {
        DeliverKeeps(c, Goal, n);
        SamePending(c.Deliver(Goal, n), Next(c, e).value);
      }
    case TakeCancel(n) => if n in c.cancels { DeliverKeeps(c, Cancel, n); }
    case TakeResult(n) => if n in c.results { DeliverKeeps(c, Result, n); }
    case TakeStatus(id) => SamePending(c, Next(c, e).value);
  }

  lemma RemoveKeeps(c: Client, k: Kind, f: Future)
    requires Inv(c)
    ensures Inv(Next(c, Remove(k, f)).value)
  {
    var n := c.RequestOf(k, f);
    if n.Some? {
      match k
      case Goal => ForgetGoalKeeps(c, n.value, f);
      case Cancel => ForgetKeeps(c, Cancel, n.value, f);
      case Result => ForgetResultKeeps(c, n.value, f);
    }
  }

  /** Main result, for every run: the maps of pending goals and results have the keys of their
      goal identifiers, so no lookup fails; the futures the executor knows are exactly the
      pending ones, each listed once, so no removal fails; and whatever arrives, in whatever
      order and however often, a response completes only the future made for its own request. */
  lemma ResponsesReachTheirOwnRequest(es: seq<Event>)
    requires Exec(Next, Start(), es).Some?
    ensures var c := Exec(Next, Start(), es).value;
      && c.goals.Keys == c.goalIds.Keys && c.results.Keys == c.resultIds.Keys
      && NoDuplicates(c.futures)
      && (forall f :: f in c.futures <==> f in c.goals.Values || f in c.cancels.Values || f in c.results.Values)
      && (forall f :: f in c.delivered ==> f in c.sent && c.delivered[f] == c.sent[f])
  {
    forall c, e | Inv(c) && Next(c, e).Some? ensures Inv(Next(c, e).value) { StepKeepsInv(c, e); }
    InvariantOfRuns(Next, Inv, Start(), es);
    var c := Exec(Next, Start(), es).value;
    forall f ensures f in c.futures <==> f in c.goals.Values || f in c.cancels.Values || f in c.results.Values {
      PendingValues(c, f);
    }
  }

  lemma PendingValues(c: Client, f: Future)
    requires SentOk(c)
    ensures InPlay(c, f) <==> f in c.goals.Values || f in c.cancels.Values || f in c.results.Values
  {
    if InPlay(c, f) {
      var (k, n) := c.sent[f];
      assert f == c.Pending(k)[n] && f in c.Pending(k).Values;
    }
    if k: Kind :| f in c.Pending(k).Values {
      var n: Sequence :| n in c.Pending(k) && c.Pending(k)[n] == f;
      assert c.sent[f] == (k, n);
    }
    assert c.goals == c.Pending(Goal) && c.cancels == c.Pending(Cancel) && c.results == c.Pending(Result);
  }

  // ----- steps keep the invariant -----

  /** What the invariant says of futures does not look at the goal identifiers. */
  lemma SamePending(c: Client, d: Client)
    requires c.goals == d.goals && c.cancels == d.cancels && c.results == d.results
    requires c.made == d.made && c.sent == d.sent && c.futures == d.futures && c.delivered == d.delivered
    ensures SentOk(c) ==> SentOk(d)
    ensures FuturesOk(c) ==> FuturesOk(d)
    ensures DeliveredOk(c) ==> DeliveredOk(d)
  {
    if FuturesOk(c) {
      forall f ensures InPlay(c, f) <==> InPlay(d, f) {}
    }
  }

  lemma SendKeepsFutures(c: Client, k: Kind, n: Sequence)
    requires SentOk(c) && FuturesOk(c) && n !in c.Pending(k)
    ensures FuturesOk(c.Send(k, n))
  {
    var c' := c.Send(k, n);
    assert c.made !in c.sent && !InPlay(c, c.made);
    forall f ensures f in c'.futures <==> InPlay(c', f) {
      if f in c.sent {
        assert InPlay(c', f) <==> InPlay(c, f);
      }
    }
  }

  /** The common part of sending any request, and all of sending a cancel request. */
  lemma SendKeeps(c: Client, k: Kind, n: Sequence)
    requires Inv(c) && n !in c.Pending(k)
    ensures SentOk(c.Send(k, n)) && FuturesOk(c.Send(k, n)) && DeliveredOk(c.Send(k, n))
    ensures k.Cancel? ==> Inv(c.Send(k, n))
  {
    SendKeepsFutures(c, k, n);
  }

  lemma SendGoalKeeps(c: Client, n: Sequence, id: Uuid, callback: Option<FeedbackCallback>)
    requires Inv(c) && n !in c.goals
    ensures Inv(c.SendGoal(n, id, callback))
  {
    SendKeeps(c, Goal, n);
    SamePending(c.Send(Goal, n), c.SendGoal(n, id, callback));
  }

  lemma SendResultKeeps(c: Client, n: Sequence, id: Uuid)
    requires Inv(c) && n !in c.results
    ensures Inv(c.SendResult(n, id))
  {
    SendKeeps(c, Result, n);
    SamePending(c.Send(Result, n), c.SendResult(n, id));
  }

  lemma ForgetKeepsFutures(c: Client, k: Kind, n: Sequence, f: Future)
    requires SentOk(c) && FuturesOk(c) && n in c.Pending(k) && c.Pending(k)[n] == f
    ensures f in c.futures && f in c.sent && c.sent[f] == (k, n)
    ensures FuturesOk(c.Forget(k, n, f))
  {
    var c' := c.Forget(k, n, f);
    assert Entered(c.Pending(k), k, c.sent);
    assert InPlay(c, f);
    RemoveFirstOfDistinct(c.futures, f);
    forall g ensures g in c'.futures <==> InPlay(c', g) {
      if g in c.sent && g != f {
        assert InPlay(c', g) <==> InPlay(c, g);
      }
    }
  }

  /** Taking out an entry: the future is in the executor's list, so its removal cannot fail. */
  lemma ForgetKeeps(c: Client, k: Kind, n: Sequence, f: Future)
    requires Inv(c) && n in c.Pending(k) && c.Pending(k)[n] == f
    ensures f in c.futures && f in c.sent && c.sent[f] == (k, n)
    ensures var c' := c.Forget(k, n, f); SentOk(c') && FuturesOk(c') && DeliveredOk(c')
    ensures k.Cancel? ==> Inv(c.Forget(k, n, f))
  {
    ForgetKeepsFutures(c, k, n, f);
  }

  lemma ForgetGoalKeeps(c: Client, n: Sequence, f: Future)
    requires Inv(c) && n in c.goals && c.goals[n] == f
    ensures Inv(c.ForgetGoal(n, f)) && f in c.futures && f in c.sent && c.sent[f] == (Goal, n)
  {
    ForgetKeeps(c, Goal, n, f);
    SamePending(c.Forget(Goal, n, f), c.ForgetGoal(n, f));
  }

  lemma ForgetResultKeeps(c: Client, n: Sequence, f: Future)
    requires Inv(c) && n in c.results && c.results[n] == f
    ensures Inv(c.ForgetResult(n, f)) && f in c.futures && f in c.sent && c.sent[f] == (Result, n) && n in c.resultIds
  {
    ForgetKeeps(c, Result, n, f);
    SamePending(c.Forget(Result, n, f), c.ForgetResult(n, f));
  }

  lemma DeliverKeeps(c: Client, k: Kind, n: Sequence)
    requires Inv(c) && n in c.Pending(k)
    ensures Inv(c.Deliver(k, n))
  {
    var d := c.Deliver(k, n);
    assert Entered(c.Pending(k), k, c.sent);
    assert FuturesOk(d) by {
      forall f ensures InPlay(c, f) <==> InPlay(d, f) {}
    }
  }

  // ----- what each step does -----

  /** `d` is `c` but for what is pending: the entry `n` of kind `k`, its goal identifier and its
      future are gone, with a result request also the feedback callback of its goal. */
  ghost predicate WithoutRequest(c: Client, d: Client, k: Kind, n: Sequence, f: Future) {
    && d.goals == (if k.Goal? then c.goals - {n} else c.goals)
    && d.goalIds == (if k.Goal? then c.goalIds - {n} else c.goalIds)
    && d.cancels == (if k.Cancel? then c.cancels - {n} else c.cancels)
    && d.results == (if k.Result? then c.results - {n} else c.results)
    && d.resultIds == (if k.Result? then c.resultIds - {n} else c.resultIds)
    && (forall g :: g in d.futures <==> g in c.futures && g != f)
    && d.feedback == (if k.Result? && n in c.resultIds then c.feedback - {c.resultIds[n]} else c.feedback)
    && d.handles == c.handles && d.made == c.made && d.sent == c.sent && d.delivered == c.delivered
  }

  /** Main result on removal: the done-callback of a future takes out the request of its kind that
      the future is pending for, and all that belongs to it, and nothing else; if there is none it
      does nothing. */
  lemma RemovalIsExact(c: Client, k: Kind, f: Future)
    requires Inv(c)
    ensures var d := Next(c, Remove(k, f)).value;
      && (forall n :: n in c.Pending(k) && c.Pending(k)[n] == f ==> WithoutRequest(c, d, k, n, f))
      && ((forall n :: n in c.Pending(k) ==> c.Pending(k)[n] != f) ==> d == c)
  {
    forall n | n in c.Pending(k) && c.Pending(k)[n] == f
      ensures WithoutRequest(c, Next(c, Remove(k, f)).value, k, n, f)
    {
      RequestIsFound(c, k, n, f);
      RemovedAsForgotten(c, k, n, f);
    }
  }

  lemma RequestIsFound(c: Client, k: Kind, n: Sequence, f: Future)
    requires Inv(c) && n in c.Pending(k) && c.Pending(k)[n] == f
    ensures c.RequestOf(k, f) == Some(n)
    ensures forall g :: g in RemoveFirst(c.futures, f) <==> g in c.futures && g != f
  {
    assert Entered(c.Pending(k), k, c.sent);
    RemoveFirstOfDistinct(c.futures, f);
  }

  lemma RemovedAsForgotten(c: Client, k: Kind, n: Sequence, f: Future)
    requires c.RequestOf(k, f) == Some(n)
    requires forall g :: g in RemoveFirst(c.futures, f) <==> g in c.futures && g != f
    ensures WithoutRequest(c, Next(c, Remove(k, f)).value, k, n, f)
  {
    match k
    case Goal =>
    case Cancel =>
    case Result =>
  }

  /** A goal request answered at once. */
  function Accepted(c: Client, n: Sequence, id: Uuid, callback: Option<FeedbackCallback>): Client {
    Next(Next(c, SendGoal(n, id, callback)).value, TakeGoal(n, true)).value
  }

  /** Main result on the goal identifiers: the request for goal `id`, answered at once, is taken for
      the acceptance of `id` and no other, and completes the future made for it. */
  lemma AcceptanceIsForItsGoal(c: Client, n: Sequence, id: Uuid, callback: Option<FeedbackCallback>)
    requires n !in c.goals && id !in c.handles
    ensures var d := Accepted(c, n, id, callback);
      && d.goals == c.goals[n := c.made] && d.goalIds == c.goalIds[n := id] && d.futures == c.futures + [c.made]
      && d.handles == c.handles + {id} && d.delivered == c.delivered[c.made := (Goal, n)]
      && d.cancels == c.cancels && d.results == c.results && d.resultIds == c.resultIds
      && d.feedback == match callback case None => c.feedback case Some(f) => c.feedback[id := f]
  {
  }

  /** ... and when that future calls back, nothing pending is left of the request. */
  lemma AcceptedRequestLeavesNoTrace(c: Client, n: Sequence, id: Uuid, callback: Option<FeedbackCallback>)
    requires Inv(c) && n !in c.goals && id !in c.handles
    ensures var d := Next(Accepted(c, n, id, callback), Remove(Goal, c.made)).value;
      && d.goals == c.goals && d.goalIds == c.goalIds && d.cancels == c.cancels
      && d.results == c.results && d.resultIds == c.resultIds
      && (forall g :: g in d.futures <==> g in c.futures)
      && d.handles == c.handles + {id}
  {
    AcceptanceIsForItsGoal(c, n, id, callback);
    StepKeepsInv(c, SendGoal(n, id, callback));
    StepKeepsInv(Next(c, SendGoal(n, id, callback)).value, TakeGoal(n, true));
    GoalRemoved(c, Accepted(c, n, id, callback), n, id);
  }

  lemma GoalRemoved(c: Client, c2: Client, n: Sequence, id: Uuid)
    requires Inv(c) && Inv(c2) && n !in c.goals
    requires c2.goals == c.goals[n := c.made] && c2.goalIds == c.goalIds[n := id] && c2.futures == c.futures + [c.made]
    ensures var d := Next(c2, Remove(Goal, c.made)).value;
      && d.goals == c.goals && d.goalIds == c.goalIds && d.cancels == c2.cancels
      && d.results == c2.results && d.resultIds == c2.resultIds
      && (forall g :: g in d.futures <==> g in c.futures)
      && d.handles == c2.handles
  {
    RequestRemoved(c, c2, Goal, n);
    assert c2.goals - {n} == c.goals && c2.goalIds - {n} == c.goalIds;
  }

  /** A new request is removed when its future calls back. */
  lemma RequestRemoved(c: Client, c2: Client, k: Kind, n: Sequence)
    requires Inv(c) && Inv(c2) && c2.futures == c.futures + [c.made]
    requires n in c2.Pending(k) && c2.Pending(k)[n] == c.made
    ensures var d := Next(c2, Remove(k, c.made)).value;
      WithoutRequest(c2, d, k, n, c.made) && forall g :: g in d.futures <==> g in c.futures
  {
    RemovalIsExact(c2, k, c.made);
    assert !InPlay(c, c.made);
  }

  /** A result request answered at once. */
  function ResultTaken(c: Client, n: Sequence, id: Uuid): Client {
    Next(Next(c, SendResult(n, id)).value, TakeResult(n)).value
  }

  /** The same for a result request: its answer completes the future made for it, and when that
      calls back, the request is removed with the feedback callback of the goal it was sent for. */
  lemma ResultIsForItsGoal(c: Client, n: Sequence, id: Uuid)
    requires Inv(c) && n !in c.results
    ensures var c2 := ResultTaken(c, n, id);
      c2.results == c.results[n := c.made] && c2.delivered == c.delivered[c.made := (Result, n)]
    ensures var d := Next(ResultTaken(c, n, id), Remove(Result, c.made)).value;
      && d.goals == c.goals && d.goalIds == c.goalIds && d.cancels == c.cancels
      && d.results == c.results && d.resultIds == c.resultIds
      && (forall g :: g in d.futures <==> g in c.futures)
      && d.handles == c.handles && d.feedback == c.feedback - {id}
  {
    ResultIsTaken(c, n, id);
    StepKeepsInv(c, SendResult(n, id));
    StepKeepsInv(Next(c, SendResult(n, id)).value, TakeResult(n));
    ResultRemoved(c, ResultTaken(c, n, id), n, id);
  }

  lemma ResultRemoved(c: Client, c2: Client, n: Sequence, id: Uuid)
    requires Inv(c) && Inv(c2) && n !in c.results
    requires c2.results == c.results[n := c.made] && c2.resultIds == c.resultIds[n := id] && c2.futures == c.futures + [c.made]
    ensures var d := Next(c2, Remove(Result, c.made)).value;
      && d.goals == c2.goals && d.goalIds == c2.goalIds && d.cancels == c2.cancels
      && d.results == c.results && d.resultIds == c.resultIds
      && (forall g :: g in d.futures <==> g in c.futures)
      && d.handles == c2.handles && d.feedback == c2.feedback - {id}
  {
    RequestRemoved(c, c2, Result, n);
    assert c2.results - {n} == c.results && c2.resultIds - {n} == c.resultIds;
  }

  lemma ResultIsTaken(c: Client, n: Sequence, id: Uuid)
    requires n !in c.results
    ensures var d := ResultTaken(c, n, id);
      && d.results == c.results[n := c.made] && d.resultIds == c.resultIds[n := id] && d.futures == c.futures + [c.made]
      && d.goals == c.goals && d.goalIds == c.goalIds && d.cancels == c.cancels && d.handles == c.handles
      && d.delivered == c.delivered[c.made := (Result, n)] && d.feedback == c.feedback
  {
  }
}
