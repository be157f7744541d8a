/** What the queue's counters and items tell about the calls so far: which counter counts what, when an
    item is handed out again after a failure, and which priority it has. */
module QueueHistory {
  import opened Backoff
  import opened QueueSpec

  // ---------- counters ----------

  /** An `Enqueue` that makes a new item. */
  predicate Inserts<I(==)>(q: Queue<I>, c: Call<I>) { c.CallEnqueue? && c.name !in q.byName }

  /** A `Requeue` that puts its item back. */
  predicate Retries<I(==)>(q: Queue<I>, c: Call<I>) { c.CallRequeue? && c.id in q.held && !GivesUp(q, c) }

  datatype Tally = Tally(inserts: nat, takes: nat, retries: nat)

  /** How often each of these happened in a run. */
  ghost function Tallied<I>(q: Queue<I>, calls: seq<Call<I>>, r: Queue<I>): Tally
    requires Runs(q, calls, r)
    decreases |calls|
  {
    if |calls| == 0 then Tally(0, 0, 0)
    else
      var c, rest := calls[0], Tallied(After(q, calls[0]), calls[1..], r);
      Tally(rest.inserts + (if Inserts(q, c) then 1 else 0), rest.takes + (if c.CallDequeue? then 1 else 0),
            rest.retries + (if Retries(q, c) then 1 else 0))
  }

  lemma CountersStep<I>(q: Queue<I>, c: Call<I>)
    requires Legal(q, c)
    ensures var m, m' := q.metrics, After(q, c).metrics;
            && m'.enqueueCount == m.enqueueCount + (if Inserts(q, c) then 1 else 0)
            && m'.dequeueCount == m.dequeueCount + (if c.CallDequeue? then 1 else 0)
            && m'.retryCount == m.retryCount + (if Retries(q, c) then 1 else 0)
  {
  }

  /** Each counter counts its own kind of call: new items, items handed out, items put back. */
  lemma {:induction false} CountersTell<I>(q: Queue<I>, calls: seq<Call<I>>, r: Queue<I>)
    requires Runs(q, calls, r)
    ensures var tally := Tallied(q, calls, r);
            && r.metrics.enqueueCount == q.metrics.enqueueCount + tally.inserts
            && r.metrics.dequeueCount == q.metrics.dequeueCount + tally.takes
            && r.metrics.retryCount == q.metrics.retryCount + tally.retries
    decreases |calls|
  {
    if |calls| > 0 {
      CountersStep(q, calls[0]);
      CountersTell(After(q, calls[0]), calls[1..], r);
    }
  }

  // ---------- backoff ----------

  ghost predicate Leaves<I>(c: Call<I>, i: I) { c.CallDequeue? && c.id == i }

  /** A queued item that is not taken stays queued with its budget and due time; only its priority may be
      raised. */
  lemma {:induction false} StaysQueued<I>(q: Queue<I>, calls: seq<Call<I>>, r: Queue<I>, i: I)
    requires Inv(q) && Runs(q, calls, r) && i in q.queued && forall c | c in calls :: !Leaves(c, i)
    ensures i in r.queued && r.queued[i] == q.queued[i].(priority := r.queued[i].priority)
    ensures r.queued[i].priority >= q.queued[i].priority
    decreases |calls|
  {
    if |calls| > 0 {
      assert !Leaves(calls[0], i);
      AfterKeepsInv(q, calls[0]);
      StaysOne(q, calls[0], i);
      StaysQueued(After(q, calls[0]), calls[1..], r, i);
    }
  }

  lemma StaysOne<I>(q: Queue<I>, c: Call<I>, i: I)
    requires Inv(q) && Legal(q, c) && i in q.queued && !Leaves(c, i)
    ensures var q' := After(q, c);
            && i in q'.queued && q'.queued[i] == q.queued[i].(priority := q'.queued[i].priority)
            && q'.queued[i].priority >= q.queued[i].priority
  {
  }

  /** A retried item is not handed out before its backoff has passed: after a failure at time `t` the next
      `Dequeue` that returns it comes at least the delay later. */
  lemma BackoffIsRespected<I>(q: Queue<I>, i: I, t: int, calls: seq<Call<I>>, r: Queue<I>, now: int)
    requires Inv(q) && Legal(q, CallRequeue(i, t)) && RequeueVerdict(q.cfg, q.held[i].budget).Retry?
    requires Runs(After(q, CallRequeue(i, t)), calls, r) && forall c | c in calls :: !Leaves(c, i)
    requires Legal(r, CallDequeue(i, now))
    ensures now >= t + RequeueVerdict(q.cfg, q.held[i].budget).delay
    ensures var item := After(r, CallDequeue(i, now)).held[i];
            && item.name == q.held[i].name && item.enqueuedAt == q.held[i].enqueuedAt
            && item.budget == RequeueVerdict(q.cfg, q.held[i].budget).next
  {
    AfterKeepsInv(q, CallRequeue(i, t));
    StaysQueued(After(q, CallRequeue(i, t)), calls, r, i);
  }

  /** A new item starts with a full budget, the priority of its call, and due at the time of it. */
  lemma NewItem<I>(q: Queue<I>, c: Call<I>)
    requires Legal(q, c) && Inserts(q, c)
    ensures After(q, c).queued == q.queued[c.id := Item(c.name, c.priority, Budget(0, 0), c.t0, c.t1)]
    ensures After(q, c).byName == q.byName[c.name := c.id]
  {
  }

  /** A failure takes the item out of its worker's hands, and back into the queue exactly if its cycles are
      not used up. */
  lemma FailQueuesIff<I>(q: Queue<I>, i: I, now: int)
    requires Inv(q) && i in q.held
    ensures i !in Fail(q, i, now).held
    ensures i in Fail(q, i, now).queued <==> !(q.cfg.maxCycles > 0 && q.held[i].budget.cycle >= q.cfg.maxCycles)
  {
    if !WorkerPauses(q.cfg, q.held[i].budget) { WorkerNeverGivesUp(q.cfg, q.held[i].budget); }
  }

  // ---------- priorities ----------

  /** The priority an item has after further calls: the highest that its name was enqueued with. */
  function Highest<I(==)>(calls: seq<Call<I>>, n: NamespacedName, p: int): int
    decreases |calls|
  {
    if |calls| == 0 then p
    else
      var c := calls[0];
      Highest(calls[1..], n, if c.CallEnqueue? && c.name == n && c.priority > p then c.priority else p)
  }

  /** While single flight lasts, a queued item has the highest priority its name was enqueued with since. */
  lemma {:induction false} PriorityIsHighest<I>(q: Queue<I>, calls: seq<Call<I>>, r: Queue<I>, i: I)
    requires Inv(q) && Runs(q, calls, r) && AlwaysSingleFlight(q, calls, r)
    requires i in q.queued && forall c | c in calls :: !Leaves(c, i)
    ensures i in r.queued && r.queued[i].priority == Highest(calls, q.queued[i].name, q.queued[i].priority)
    decreases |calls|
  {
    if |calls| > 0 {
      assert !Leaves(calls[0], i);
      AfterKeepsInv(q, calls[0]);
      StaysOne(q, calls[0], i);
      RaisedOne(q, calls[0], i);
      PriorityIsHighest(After(q, calls[0]), calls[1..], r, i);
    }
  }

  lemma RaisedOne<I>(q: Queue<I>, c: Call<I>, i: I)
    requires Inv(q) && SingleFlight(q) && Legal(q, c) && i in q.queued && !Leaves(c, i)
    ensures i in After(q, c).queued
    ensures After(q, c).queued[i].priority
            == if c.CallEnqueue? && c.name == q.queued[i].name && c.priority > q.queued[i].priority
               then c.priority else q.queued[i].priority
  {
  }
}
