/** The work queue as a value: what each call does to the set of queued items, the set of items
    held by workers, the name index used for deduplication and the metrics.

    The representation (a binary heap of item pointers) is in module WorkQueue, whose class is
    proved to refine these functions. `I` identifies an item: an object reference there, a number
    in the protocol model. */
module QueueSpec {
  import opened Backoff
  import opened Common

  datatype NamespacedName = NamespacedName(namespace: string, name: string)

  datatype Item = Item(
    name: NamespacedName,
    priority: int,
    budget: Budget,
    enqueuedAt: int,
    scheduledAt: int)

  datatype Metrics = Metrics(
    enqueueCount: int,
    dequeueCount: int,
    retryCount: int,
    currentDepth: int,
    processingItems: int)

  datatype Queue<I> = Queue(
    cfg: Config,
    queued: map<I, Item>,
    held: map<I, Item>,
    byName: map<NamespacedName, I>,
    metrics: Metrics)

  /** `Less`: higher priority first, then the earlier scheduled time. */
  predicate Precedes(a: Item, b: Item) {
    if a.priority != b.priority then a.priority > b.priority else a.scheduledAt < b.scheduledAt
  }

  predicate Due(item: Item, now: int) { item.scheduledAt <= now }

  /** `i` is queued and no queued item precedes it. */
  ghost predicate IsHead<I>(q: Queue<I>, i: I) {
    i in q.queued && forall j | j in q.queued :: !Precedes(q.queued[j], q.queued[i])
  }

  // ---------- the calls ----------

  function Empty<I(==)>(cfg: Config): Queue<I> {
    Queue(cfg, map[], map[], map[], Metrics(0, 0, 0, 0, 0))
  }

  /** Every name the index knows is the name of a queued item. This is what makes the stored heap
      position of an indexed item valid when `Enqueue` re-sorts it. */
  ghost predicate Indexed<I>(q: Queue<I>) {
    forall n | n in q.byName :: q.byName[n] in q.queued && q.queued[q.byName[n]].name == n
  }

  /** Put an item under identity `id` into the queue and the index. */
  ghost function Insert<I>(q: Queue<I>, id: I, item: Item, metrics: Metrics): Queue<I> {
    Queue(q.cfg, q.queued[id := item], q.held, q.byName[item.name := id], metrics)
  }

  /** Raise the priority of the queued item `i`. */
  ghost function Raise<I>(q: Queue<I>, i: I, priority: int): Queue<I>
    requires i in q.queued
  {
    q.(queued := q.queued[i := q.queued[i].(priority := priority)])
  }

  ghost function Enqueue<I>(q: Queue<I>, n: NamespacedName, priority: int, t0: int, t1: int, id: I): Queue<I> {
    var m := q.metrics;
    if n in q.byName then
      if q.byName[n] in q.queued && priority > q.queued[q.byName[n]].priority
      then Raise(q, q.byName[n], priority) else q
    else
      var item := Item(n, priority, Budget(0, 0), t0, t1);
      Insert(q, id, item, m.(enqueueCount := m.enqueueCount + 1, currentDepth := |q.queued[id := item]|))
  }

  ghost function Dequeue<I>(q: Queue<I>, i: I): Queue<I>
    requires i in q.queued
  {
    var m := q.metrics;
    Queue(q.cfg, q.queued - {i}, q.held[i := q.queued[i]], q.byName - {q.queued[i].name},
          m.(dequeueCount := m.dequeueCount + 1, currentDepth := |q.queued - {i}|,
             processingItems := m.processingItems + 1))
  }

  /** Take item `i` away from its worker, lowering the in-progress gauge by `n`. */
  ghost function Release<I>(q: Queue<I>, i: I, n: nat): Queue<I> {
    q.(held := q.held - {i}, metrics := q.metrics.(processingItems := q.metrics.processingItems - n))
  }

  ghost function Requeue<I>(q: Queue<I>, i: I, now: int): Queue<I>
    requires i in q.held
  {
    match RequeueVerdict(q.cfg, q.held[i].budget)
    case GiveUp => Release(q, i, 2)
    case Retry(next, delay) =>
      var item := q.held[i].(budget := next, scheduledAt := now + delay);
      var m := Release(q, i, 1).metrics;
      Insert(Release(q, i, 1), i, item,
             m.(retryCount := m.retryCount + 1, currentDepth := |q.queued[i := item]|))
  }

  ghost function Done<I>(q: Queue<I>, i: I): Queue<I>
    requires i in q.held
  {
    Release(q, i, 1)
  }

  /** What the worker does with an item whose processing failed: `Done` after pausing the template
      when the budget is used up, otherwise `Requeue`. */
  ghost function Fail<I>(q: Queue<I>, i: I, now: int): Queue<I>
    requires i in q.held
  {
    if WorkerPauses(q.cfg, q.held[i].budget) then Done(q, i) else Requeue(q, i, now)
  }

  // ---------- what every call keeps ----------

  /** Queue invariant: nothing is queued and held at once, the index points into the queue, and the
      counters balance. */
  ghost predicate Inv<I>(q: Queue<I>) {
    && q.queued.Keys !! q.held.Keys
    && Indexed(q)
    && q.metrics.currentDepth == |q.queued|
    && q.metrics.enqueueCount + q.metrics.retryCount == q.metrics.dequeueCount + |q.queued|
  }

  /** One item per name: index and queue are in bijection, and no held name is queued or held twice. */
  ghost predicate SingleFlight<I>(q: Queue<I>) {
    && (forall i | i in q.queued :: q.queued[i].name in q.byName && q.byName[q.queued[i].name] == i)
    && (forall i | i in q.held :: q.held[i].name !in q.byName)
    && (forall i, j | i in q.held && j in q.held && q.held[i].name == q.held[j].name :: i == j)
  }

  predicate Holds<I(==)>(q: Queue<I>, n: NamespacedName) {
    exists i | i in q.held :: q.held[i].name == n
  }

  predicate Contains<I(==)>(q: Queue<I>, n: NamespacedName) { n in q.byName }

  /** Some queued item carries the name, whether or not the index knows it. */
  predicate InHeap<I(==)>(q: Queue<I>, n: NamespacedName) {
    exists i | i in q.queued :: q.queued[i].name == n
  }

  lemma RemoveOne<K, V>(m: map<K, V>, k: K)
    requires k in m
    ensures |m - {k}| == |m| - 1
  {
    assert (m - {k}).Keys == m.Keys - {k};
  }

  lemma InsertKeepsInv<I>(q: Queue<I>, id: I, item: Item, m: Metrics)
    requires Inv(q) && id !in q.queued && id !in q.held
    requires m.currentDepth == |q.queued| + 1
    requires m.enqueueCount + m.retryCount == m.dequeueCount + |q.queued| + 1
    ensures Inv(Insert(q, id, item, m))
  {
    assert q.queued[id := item].Keys == q.queued.Keys + {id};
  }

  lemma RaiseKeepsInv<I>(q: Queue<I>, i: I, priority: int)
    requires Inv(q) && i in q.queued
    ensures Inv(Raise(q, i, priority))
  {
    assert Raise(q, i, priority).queued.Keys == q.queued.Keys;
  }

  lemma EnqueueKeepsInv<I>(q: Queue<I>, n: NamespacedName, priority: int, t0: int, t1: int, id: I)
    requires Inv(q) && id !in q.queued && id !in q.held
    ensures Inv(Enqueue(q, n, priority, t0, t1, id))
  {
    if n in q.byName {
      RaiseKeepsInv(q, q.byName[n], priority);
    } else {
      var item := Item(n, priority, Budget(0, 0), t0, t1);
      InsertKeepsInv(q, id, item, Enqueue(q, n, priority, t0, t1, id).metrics);
    }
  }

  lemma DequeueKeepsInv<I>(q: Queue<I>, i: I)
    requires Inv(q) && i in q.queued
    ensures Inv(Dequeue(q, i))
  {
    RemoveOne(q.queued, i);
  }

  lemma ReleaseKeepsInv<I>(q: Queue<I>, i: I, n: nat)
    requires Inv(q) && i in q.held
    ensures Inv(Release(q, i, n))
  {
  }

  lemma RequeueKeepsInv<I>(q: Queue<I>, i: I, now: int)
    requires Inv(q) && i in q.held
    ensures Inv(Requeue(q, i, now))
  {
    match RequeueVerdict(q.cfg, q.held[i].budget)
    case GiveUp =>
    case Retry(next, delay) =>
      var item := q.held[i].(budget := next, scheduledAt := now + delay);
      InsertKeepsInv(Release(q, i, 1), i, item, Requeue(q, i, now).metrics);
  }

  // ---------- runs ----------

  /** One queue call with its clock readings; `id` names the item a call creates or refers to. */
  datatype Call<I> =
    | CallEnqueue(name: NamespacedName, priority: int, t0: int, t1: int, id: I)
    | CallDequeue(id: I, now: int)
    | CallDone(id: I)
    | CallRequeue(id: I, now: int)

  /** What callers and the clock owe a call: new identities are unused, `Dequeue` returns a due head,
      and `Done` and `Requeue` get an item that was dequeued and not handed back yet. */
  ghost predicate Legal<I>(q: Queue<I>, c: Call<I>) {
    match c
    case CallEnqueue(_, _, _, _, id) => id !in q.queued && id !in q.held
    case CallDequeue(id, now) => IsHead(q, id) && Due(q.queued[id], now)
    case CallDone(id) => id in q.held
    case CallRequeue(id, _) => id in q.held
  }

  ghost function After<I>(q: Queue<I>, c: Call<I>): Queue<I>
    requires Legal(q, c)
  {
    match c
    case CallEnqueue(n, p, t0, t1, id) => Enqueue(q, n, p, t0, t1, id)
    case CallDequeue(id, _) => Dequeue(q, id)
    case CallDone(id) => Done(q, id)
    case CallRequeue(id, now) => Requeue(q, id, now)
  }

  lemma AfterKeepsInv<I>(q: Queue<I>, c: Call<I>)
    requires Inv(q) && Legal(q, c)
    ensures Inv(After(q, c))
  {
    match c
    case CallEnqueue(n, p, t0, t1, id) => EnqueueKeepsInv(q, n, p, t0, t1, id);
    case CallDequeue(id, _) => DequeueKeepsInv(q, id);
    case CallDone(id) =>
    case CallRequeue(id, now) => RequeueKeepsInv(q, id, now);
  }

  /** `calls` is a legal run that takes queue `q` to queue `r`. */
  ghost predicate Runs<I>(q: Queue<I>, calls: seq<Call<I>>, r: Queue<I>)
    decreases |calls|
  {
    if |calls| == 0 then r == q
    else Legal(q, calls[0]) && Runs(After(q, calls[0]), calls[1..], r)
  }

  /** The invariant holds after every legal run from the empty queue. */
  lemma {:induction false} RunKeepsInv<I>(q: Queue<I>, calls: seq<Call<I>>, r: Queue<I>)
    requires Inv(q) && Runs(q, calls, r)
    ensures Inv(r)
    decreases |calls|
  {
    if |calls| > 0 {
      AfterKeepsInv(q, calls[0]);
      RunKeepsInv(After(q, calls[0]), calls[1..], r);
    }
  }

  predicate GivesUp<I(==)>(q: Queue<I>, c: Call<I>) {
    c.CallRequeue? && c.id in q.held && RequeueVerdict(q.cfg, q.held[c.id].budget).GiveUp?
  }

  /** Number of calls of a run in which `Requeue` drops its item. */
  ghost function GiveUps<I>(q: Queue<I>, calls: seq<Call<I>>, r: Queue<I>): nat
    requires Runs(q, calls, r)
    decreases |calls|
  {
    if |calls| == 0 then 0
    else (if GivesUp(q, calls[0]) then 1 else 0) + GiveUps(After(q, calls[0]), calls[1..], r)
  }

  lemma ReleaseBalance<I>(q: Queue<I>, i: I, n: nat)
    requires i in q.held
    ensures var q' := Release(q, i, n);
            q'.metrics.processingItems - |q'.held| == q.metrics.processingItems - |q.held| - n + 1
  {
    RemoveOne(q.held, i);
  }

  lemma ProcessingStep<I>(q: Queue<I>, c: Call<I>)
    requires Inv(q) && Legal(q, c)
    ensures var q' := After(q, c);
            q'.metrics.processingItems - |q'.held|
            == q.metrics.processingItems - |q.held| - (if GivesUp(q, c) then 1 else 0)
  {
    match c
    case CallEnqueue(n, p, t0, t1, id) =>
    case CallDequeue(id, _) =>
      assert id !in q.held;
    case CallDone(id) =>
      ReleaseBalance(q, id, 1);
    case CallRequeue(id, now) =>
      ReleaseBalance(q, id, 1);
      ReleaseBalance(q, id, 2);
  }

  /** Exact balance of the in-progress gauge: it counts the held items less one for each give-up,
      which decrements it twice. */
  lemma {:induction false} ProcessingBalance<I>(q: Queue<I>, calls: seq<Call<I>>, r: Queue<I>)
    requires Inv(q) && Runs(q, calls, r)
    ensures r.metrics.processingItems - |r.held|
            == q.metrics.processingItems - |q.held| - GiveUps(q, calls, r)
    decreases |calls|
  {
    if |calls| > 0 {
      AfterKeepsInv(q, calls[0]);
      ProcessingStep(q, calls[0]);
      ProcessingBalance(After(q, calls[0]), calls[1..], r);
    }
  }

  /** The worker's discipline: `Requeue` is called only on items whose budget is not used up. */
  ghost predicate WorkerDriven<I>(q: Queue<I>, calls: seq<Call<I>>, r: Queue<I>)
    requires Runs(q, calls, r)
    decreases |calls|
  {
    |calls| > 0 ==>
      && (calls[0].CallRequeue? ==> !WorkerPauses(q.cfg, q.held[calls[0].id].budget))
      && WorkerDriven(After(q, calls[0]), calls[1..], r)
  }

  lemma {:induction false} WorkerDrivenNeverGivesUp<I>(q: Queue<I>, calls: seq<Call<I>>, r: Queue<I>)
    requires Runs(q, calls, r) && WorkerDriven(q, calls, r)
    ensures GiveUps(q, calls, r) == 0
    decreases |calls|
  {
    if |calls| > 0 {
      if calls[0].CallRequeue? { WorkerNeverGivesUp(q.cfg, q.held[calls[0].id].budget); }
      WorkerDrivenNeverGivesUp(After(q, calls[0]), calls[1..], r);
    }
  }

  /** Metrics conservation over whole worker-driven runs. */
  lemma MetricsConservation<I>(cfg: Config, calls: seq<Call<I>>, r: Queue<I>)
    requires Runs(Empty<I>(cfg), calls, r) && WorkerDriven(Empty<I>(cfg), calls, r)
    ensures r.metrics.enqueueCount + r.metrics.retryCount == r.metrics.dequeueCount + |r.queued|
    ensures r.metrics.currentDepth == |r.queued|
    ensures r.metrics.processingItems == |r.held| >= 0
  {
    RunKeepsInv(Empty<I>(cfg), calls, r);
    ProcessingBalance(Empty<I>(cfg), calls, r);
    WorkerDrivenNeverGivesUp(Empty<I>(cfg), calls, r);
  }

  /** A direct `Requeue` of a spent item leaves the gauge one too low. */
  lemma GiveUpMiscounts<I>(q: Queue<I>, i: I, now: int)
    requires Inv(q) && i in q.held && q.metrics.processingItems == |q.held|
    requires RequeueVerdict(q.cfg, q.held[i].budget).GiveUp?
    ensures var q' := Requeue(q, i, now); q'.metrics.processingItems == |q'.held| - 1
  {
    RemoveOne(q.held, i);
  }

  // ---------- single flight ----------

  /** No `Enqueue` of the run uses a name that a worker holds at that moment. */
  ghost predicate NoEnqueueWhileHeld<I>(q: Queue<I>, calls: seq<Call<I>>, r: Queue<I>)
    requires Runs(q, calls, r)
    decreases |calls|
  {
    |calls| > 0 ==>
      && (calls[0].CallEnqueue? ==> !Holds(q, calls[0].name))
      && NoEnqueueWhileHeld(After(q, calls[0]), calls[1..], r)
  }

  lemma InsertKeepsSingleFlight<I>(q: Queue<I>, id: I, item: Item, metrics: Metrics)
    requires SingleFlight(q) && id !in q.queued && item.name !in q.byName && !Holds(q, item.name)
    ensures SingleFlight(Insert(q, id, item, metrics))
  {
  }

  lemma DequeueKeepsSingleFlight<I>(q: Queue<I>, i: I)
    requires Inv(q) && SingleFlight(q) && i in q.queued
    ensures SingleFlight(Dequeue(q, i))
  {
  }

  lemma ReleaseKeepsSingleFlight<I>(q: Queue<I>, i: I, n: nat)
    requires SingleFlight(q) && i in q.held
    ensures SingleFlight(Release(q, i, n)) && !Holds(Release(q, i, n), q.held[i].name)
  {
  }

  lemma RequeueKeepsSingleFlight<I>(q: Queue<I>, i: I, now: int)
    requires Inv(q) && SingleFlight(q) && i in q.held
    ensures SingleFlight(Requeue(q, i, now))
  {
    match RequeueVerdict(q.cfg, q.held[i].budget)
    case GiveUp => ReleaseKeepsSingleFlight(q, i, 2);
    case Retry(next, delay) =>
      ReleaseKeepsSingleFlight(q, i, 1);
      var item := q.held[i].(budget := next, scheduledAt := now + delay);
      InsertKeepsSingleFlight(Release(q, i, 1), i, item, Requeue(q, i, now).metrics);
  }

  /** A call ends single flight if and only if it enqueues a name that a worker holds. */
  lemma SingleFlightStep<I>(q: Queue<I>, c: Call<I>)
    requires Inv(q) && Legal(q, c) && SingleFlight(q)
    ensures SingleFlight(After(q, c)) <==> !(c.CallEnqueue? && Holds(q, c.name))
  {
    match c
    case CallEnqueue(n, p, t0, t1, id) =>
      if Holds(q, n) {
        EnqueueHeldBreaks(q, n, p, t0, t1, id);
      } else if n !in q.byName {
        InsertKeepsSingleFlight(q, id, Item(n, p, Budget(0, 0), t0, t1), After(q, c).metrics);
      }
    case CallDequeue(id, _) => DequeueKeepsSingleFlight(q, id);
    case CallDone(id) => ReleaseKeepsSingleFlight(q, id, 1);
    case CallRequeue(id, now) => RequeueKeepsSingleFlight(q, id, now);
  }

  lemma EnqueueHeldBreaks<I>(q: Queue<I>, n: NamespacedName, p: int, t0: int, t1: int, id: I)
    requires SingleFlight(q) && Holds(q, n)
    ensures !SingleFlight(Enqueue(q, n, p, t0, t1, id))
  {
    var i :| i in q.held && q.held[i].name == n;
    var q' := Enqueue(q, n, p, t0, t1, id);
    assert i in q'.held && q'.held[i].name in q'.byName;
  }

  /** Every state that the run goes through has single flight. */
  ghost predicate AlwaysSingleFlight<I>(q: Queue<I>, calls: seq<Call<I>>, r: Queue<I>)
    requires Runs(q, calls, r)
    decreases |calls|
  {
    SingleFlight(q) && (|calls| > 0 ==> AlwaysSingleFlight(After(q, calls[0]), calls[1..], r))
  }

  /** Index and queue stay in bijection and every name queued or held at most once, in every state of
      the run, if and only if no `Enqueue` of the run uses a held name. */
  lemma {:induction false} SingleFlightRun<I>(q: Queue<I>, calls: seq<Call<I>>, r: Queue<I>)
    requires Inv(q) && Runs(q, calls, r) && SingleFlight(q)
    ensures AlwaysSingleFlight(q, calls, r) <==> NoEnqueueWhileHeld(q, calls, r)
    ensures AlwaysSingleFlight(q, calls, r) ==> SingleFlight(r)
    decreases |calls|
  {
    if |calls| > 0 {
      AfterKeepsInv(q, calls[0]);
      SingleFlightStep(q, calls[0]);
      if SingleFlight(After(q, calls[0])) {
        SingleFlightRun(After(q, calls[0]), calls[1..], r);
      }
    }
  }

  /** What comes of it: an `Enqueue` of a held name and a `Requeue` put two items with one name into
      the queue, one of them unknown to the index. */
  lemma TwoItemsOneName<I>(q: Queue<I>, i: I, p: int, id: I, t0: int, t1: int, now: int)
    requires Inv(q) && i in q.held && q.held[i].name !in q.byName
    requires id !in q.queued && id !in q.held
    requires RequeueVerdict(q.cfg, q.held[i].budget).Retry?
    ensures var n := q.held[i].name;
            var enqueued := Enqueue(q, n, p, t0, t1, id);
            var r := Requeue(enqueued, i, now);
            id in r.queued && i in r.queued && id != i
            && r.queued[id].name == r.queued[i].name == n && r.byName[n] == i && !SingleFlight(r)
  {
    var n := q.held[i].name;
    var r := Requeue(Enqueue(q, n, p, t0, t1, id), i, now);
    assert id in r.queued && r.queued[id].name == n && r.byName[n] == i;
  }

  // ---------- waiting ----------

  ghost predicate UniformPriority<I>(q: Queue<I>, p: int) {
    && (forall i | i in q.queued :: q.queued[i].priority == p)
    && (forall i | i in q.held :: q.held[i].priority == p)
  }

  /** Every `Enqueue` of the run passes priority `p`. */
  predicate AllEnqueuesAt<I(==)>(calls: seq<Call<I>>, p: int) {
    forall k | 0 <= k < |calls| && calls[k].CallEnqueue? :: calls[k].priority == p
  }

  lemma UniformPriorityStep<I>(q: Queue<I>, c: Call<I>, p: int)
    requires Inv(q) && Legal(q, c) && UniformPriority(q, p)
    requires c.CallEnqueue? ==> c.priority == p
    ensures UniformPriority(After(q, c), p)
  {
    match c
    case CallEnqueue(n, _, t0, t1, id) =>
    case CallDequeue(id, _) =>
    case CallDone(id) =>
    case CallRequeue(id, now) =>
      match RequeueVerdict(q.cfg, q.held[id].budget)
      case GiveUp =>
      case Retry(next, delay) =>
  }

  lemma {:induction false} UniformPriorityRun<I>(q: Queue<I>, calls: seq<Call<I>>, r: Queue<I>, p: int)
    requires Inv(q) && Runs(q, calls, r) && UniformPriority(q, p) && AllEnqueuesAt(calls, p)
    ensures UniformPriority(r, p)
    decreases |calls|
  {
    if |calls| > 0 {
      AfterKeepsInv(q, calls[0]);
      UniformPriorityStep(q, calls[0], p);
      UniformPriorityRun(After(q, calls[0]), calls[1..], r, p);
    }
  }

  /** With one priority, a head that is not due means that nothing queued is due: `Dequeue` waits
      exactly when there is nothing to hand out. */
  lemma WaitsOnlyIfNothingDue<I>(cfg: Config, calls: seq<Call<I>>, r: Queue<I>, p: int, head: I, now: int)
    requires Runs(Empty<I>(cfg), calls, r) && AllEnqueuesAt(calls, p)
    requires IsHead(r, head)
    ensures Due(r.queued[head], now) <==> exists i | i in r.queued :: Due(r.queued[i], now)
  {
    UniformPriorityRun(Empty<I>(cfg), calls, r, p);
    if !Due(r.queued[head], now) { HeldBackIff(r, head, now); }
  }

  /** In any queue, a head that is not due holds back a due item if and only if a due item of strictly
      lower priority is queued; due items of its own priority there are none. */
  lemma HeldBackIff<I>(q: Queue<I>, head: I, now: int)
    requires IsHead(q, head) && !Due(q.queued[head], now)
    ensures (exists i | i in q.queued :: Due(q.queued[i], now))
            <==> (exists i | i in q.queued :: Due(q.queued[i], now) && q.queued[i].priority < q.queued[head].priority)
    ensures forall i | i in q.queued && Due(q.queued[i], now) :: q.queued[i].priority < q.queued[head].priority
  {
    forall i | i in q.queued && Due(q.queued[i], now)
      ensures q.queued[i].priority < q.queued[head].priority
    {
      assert !Precedes(q.queued[i], q.queued[head]);
    }
  }

  /** With mixed priorities a run can end with a delayed high-priority head that makes `Dequeue` wait
      although another item is due. */
  lemma MixedPriorityCanWait(now: int) returns (calls: seq<Call<nat>>, r: Queue<nat>)
    ensures Runs(Empty<nat>(Config(5, SECOND, 300 * SECOND, 3)), calls, r)
    ensures IsHead(r, 0) && !Due(r.queued[0], now)
    ensures 1 in r.queued && Due(r.queued[1], now)
  {
    var a := CallEnqueue(NamespacedName("ns", "a"), 1, now, now, 0);
    var b := CallEnqueue(NamespacedName("ns", "b"), 0, now, now, 1);
    var q0 := Empty<nat>(Config(5, SECOND, 300 * SECOND, 3));
    var q1 := After(q0, a);
    var q2 := After(q1, CallDequeue(0, now));
    assert RequeueVerdict(q2.cfg, q2.held[0].budget) == Retry(Budget(1, 0), SECOND);
    var q3 := After(q2, CallRequeue(0, now));
    r := After(q3, b);
    calls := [a, CallDequeue(0, now), CallRequeue(0, now), b];
    assert Runs(q3, [b], r);
    assert calls[3..] == [b] && calls[2..][1..] == calls[3..] && calls[1..][1..] == calls[2..];
    assert Runs(q2, calls[2..], r);
    assert Runs(q1, calls[1..], r);
  }
}
