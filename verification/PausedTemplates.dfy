/** Single flight and the pause: in runs that never enqueue a name while a worker holds it, every name
    is queued or held at most once; a paused template then stays out of the queue until a Reconcile
    reads the resume annotation, unless one that read an older version is still about to enqueue it, and
    comes back with a full retry budget. */
module PausedTemplates {
  import opened Backoff
  import opened Protocol
  import opened StrandedTemplates
  import Q = QueueSpec

  /** Every name occurs at most once among the queued and the held items. */
  ghost predicate AtMostOnce(q: Q.Queue<nat>) {
    && (forall i, j | i in q.queued && j in q.queued && q.queued[i].name == q.queued[j].name :: i == j)
    && (forall i, j | i in q.held && j in q.held && q.held[i].name == q.held[j].name :: i == j)
    && (forall i, j | i in q.queued && j in q.held :: q.queued[i].name != q.held[j].name)
  }

  lemma OncePerName(q: Q.Queue<nat>)
    requires Q.SingleFlight(q)
    ensures AtMostOnce(q)
  {
  }

  lemma SingleFlightCall(s: State, l: Step)
    requires Book(s) && Enabled(s, l) && Q.SingleFlight(s.q) && CallsQueue(l)
    ensures Q.SingleFlight(Next(s, l).q) <==> !EnqueuesHeld(s, l)
  {
    match l
    case CtrlEnqueue(n, id, t0, t1) =>
      Q.SingleFlightStep(s.q, Q.CallEnqueue(n, 0, t0, t1, id));
    case WorkerTake(w, item, now) =>
      Q.SingleFlightStep(s.q, Q.CallDequeue(item, now));
    case WorkerFail(w, now) =>
      Q.SingleFlightStep(s.q, Q.CallRequeue(s.workers[w].item, now));
    case WorkerDone(w) =>
      Q.SingleFlightStep(s.q, Q.CallDone(s.workers[w].item));
  }

  /** A step ends single flight if and only if it enqueues a name that a worker holds. */
  lemma SingleFlightStep(s: State, l: Step)
    requires Book(s) && Enabled(s, l) && Q.SingleFlight(s.q)
    ensures Q.SingleFlight(Next(s, l).q) <==> !EnqueuesHeld(s, l)
  {
    if CallsQueue(l) { SingleFlightCall(s, l); } else { QueueFrame(s, l); }
  }

  predicate EnqueuesHeld(s: State, l: Step) { l.CtrlEnqueue? && Q.Holds(s.q, l.n) }

  ghost predicate AlwaysSingleFlight(trace: seq<State>) { forall s | s in trace :: Q.SingleFlight(s.q) }

  lemma OneMoreState(trace: seq<State>, i: nat)
    requires i < |trace|
    ensures AlwaysSingleFlight(trace[..i + 1]) <==> AlwaysSingleFlight(trace[..i]) && Q.SingleFlight(trace[i].q)
  {
    assert trace[..i + 1] == trace[..i] + [trace[i]];
    assert trace[i] in trace[..i + 1];
  }

  lemma PathSingleFlightIff(trace: seq<State>, ls: seq<Step>, k: nat)
    requires IsPath(trace, ls) && Book(trace[0]) && 0 < k < |trace| && Q.SingleFlight(trace[k - 1].q)
    ensures Q.SingleFlight(trace[k].q) <==> !EnqueuesHeld(trace[k - 1], ls[k - 1])
  {
    assert Book(trace[k - 1]) by { PathKeepsBook(trace, ls, k - 1); }
    PathStep(trace, ls, k);
    SingleFlightStep(trace[k - 1], ls[k - 1]);
  }

  /** Single flight over whole runs of controller and workers, from every start that has it: it holds in
      every state of a run if and only if no step of it enqueues a held name. */
  lemma SingleFlightRun(trace: seq<State>, ls: seq<Step>, k: nat)
    requires IsPath(trace, ls) && Book(trace[0]) && Q.SingleFlight(trace[0].q) && k < |trace|
    ensures AlwaysSingleFlight(trace[..k + 1]) <==> forall j | 0 <= j < k :: !EnqueuesHeld(trace[j], ls[j])
    ensures AlwaysSingleFlight(trace[..k + 1]) ==> Q.SingleFlight(trace[k].q) && AtMostOnce(trace[k].q)
  {
    var i := 0;
    while i < k
      invariant i <= k
      invariant AlwaysSingleFlight(trace[..i + 1]) <==> forall j | 0 <= j < i :: !EnqueuesHeld(trace[j], ls[j])
    {
      i := i + 1;
      OneMoreState(trace, i - 1);
      OneMoreState(trace, i);
      if Q.SingleFlight(trace[i - 1].q) { PathSingleFlightIff(trace, ls, i); }
    }
    assert trace[k] in trace[..k + 1];
    if Q.SingleFlight(trace[k].q) { OncePerName(trace[k].q); }
  }

  // ---------- the pause ----------

  /** Neither queued nor held. */
  ghost predicate Untouched(q: Q.Queue<nat>, n: Name) { !Q.InHeap(q, n) && !Q.Holds(q, n) }

  /** The template is paused and out of the queue and of all hands. */
  ghost predicate Parked(s: State, n: Name) {
    n in s.objs && s.objs[n].phase == Paused && Untouched(s.q, n)
  }

  /** Parked, and no Reconcile in flight is going to enqueue it. */
  ghost predicate Quiet(s: State, n: Name) { Parked(s, n) && !ReconPending(s, n) }

  /** A step that neither deletes `n` nor lets Reconcile read a version of it that it reacts to: not one
      with the resume annotation, and not an old one. Reads of other templates may be as stale as they
      like, and so may reads of `n` to which there is nothing to do. */
  predicate Calm(l: Step, n: Name) {
    && l != UserDelete(n)
    && (l.CtrlGet? && l.n == n && l.read.Found? ==> !Reacts(Decide(l.read.template)))
  }

  /** A fresh read of a paused template is calm unless it finds the resume annotation. */
  lemma FreshReadIsCalm(s: State, n: Name, more: bool)
    requires n in s.objs && s.objs[n].phase == Paused
    ensures Calm(CtrlGet(n, Found(s.objs[n]), more), n) <==> !s.objs[n].resume
  {
  }

  lemma EnqueueUntouched(q: Q.Queue<nat>, m: Name, t0: int, t1: int, id: nat, n: Name)
    requires Untouched(q, n) && m != n
    ensures Untouched(Q.Enqueue(q, m, 0, t0, t1, id), n)
  {
  }

  lemma DequeueUntouched(q: Q.Queue<nat>, i: nat, n: Name)
    requires Untouched(q, n) && i in q.queued
    ensures Untouched(Q.Dequeue(q, i), n)
  {
    assert q.queued[i].name != n;
  }

  lemma RequeueUntouched(q: Q.Queue<nat>, i: nat, now: int, n: Name)
    requires Untouched(q, n) && i in q.held
    ensures Untouched(Q.Requeue(q, i, now), n)
  {
    assert q.held[i].name != n;
  }

  lemma UntouchedCall(s: State, l: Step, n: Name)
    requires Book(s) && Enabled(s, l) && Untouched(s.q, n) && CallsQueue(l) && !(l.CtrlEnqueue? && l.n == n)
    ensures Untouched(Next(s, l).q, n)
  {
    match l
    case CtrlEnqueue(m, id, t0, t1) => EnqueueUntouched(s.q, m, t0, t1, id, n);
    case WorkerTake(w, item, now) => DequeueUntouched(s.q, item, n);
    case WorkerFail(w, now) => RequeueUntouched(s.q, s.workers[w].item, now, n);
    case WorkerDone(w) =>
  }

  lemma QuietCall(s: State, l: Step, n: Name)
    requires Book(s) && Enabled(s, l) && Quiet(s, n) && CallsQueue(l)
    ensures Quiet(Next(s, l), n)
  {
    UntouchedCall(s, l, n);
    CallFrame(s, l);
  }

  lemma QuietWorker(s: State, l: Step, n: Name)
    requires Book(s) && Enabled(s, l) && Quiet(s, n) && WorkerMoves(l)
    ensures Quiet(Next(s, l), n)
  {
    WorkerFrame(s, l);
    assert s.workers[l.w].name != n;
  }

  lemma QuietUser(s: State, l: Step, n: Name)
    requires Enabled(s, l) && Quiet(s, n) && l != UserDelete(n)
    requires UserMoves(l) || l.CtrlReapply?
    ensures Quiet(Next(s, l), n)
  {
    QueueFrame(s, l);
  }

  lemma QuietGet(s: State, m: Name, read: Read, more: bool, n: Name)
    requires Quiet(s, n) && Calm(CtrlGet(m, read, more), n)
    ensures Quiet(NextGet(s, m, read, more), n)
  {
    var s' := NextGet(s, m, read, more);
    assert s'.q == s.q && s'.objs == s.objs;
  }

  /** A Reconcile of `n` still in flight read a Completed version, so its write cannot land. */
  lemma QuietWrite(s: State, m: Name, outcome: Outcome, n: Name)
    requires Book(s) && Quiet(s, n) && Enabled(s, CtrlWrite(m, outcome))
    ensures Quiet(NextWrite(s, m, outcome), n)
  {
    WriteFrame(s, m, outcome);
    var s' := NextWrite(s, m, outcome);
    if m == n { assert n !in s'.recs; }
  }

  lemma QuietStep(s: State, l: Step, n: Name)
    requires Book(s) && Enabled(s, l) && Quiet(s, n) && Calm(l, n)
    ensures Quiet(Next(s, l), n)
  {
    if CallsQueue(l) {
      QuietCall(s, l, n);
    } else if UserMoves(l) || l.CtrlReapply? {
      QuietUser(s, l, n);
    } else if l.CtrlGet? {
      QuietGet(s, l.n, l.read, l.more, n);
    } else if l.CtrlWrite? {
      QuietWrite(s, l.n, l.outcome, n);
    } else {
      QuietWorker(s, l, n);
    }
  }

  /** A path from `s` of calm steps. */
  ghost predicate CalmPath(s: State, trace: seq<State>, ls: seq<Step>, n: Name) {
    IsPath(trace, ls) && trace[0] == s && forall j {:trigger Calm(ls[j], n)} | 0 <= j < |ls| :: Calm(ls[j], n)
  }

  /** However things go on, the template stays paused and out as long as they are calm. */
  ghost predicate StaysParked(s: State, n: Name) {
    forall trace, ls | CalmPath(s, trace, ls, n) :: Parked(trace[|ls|], n)
  }

  ghost predicate QuietBook(s: State, n: Name) { Book(s) && Quiet(s, n) }

  lemma QuietPath(s: State, trace: seq<State>, ls: seq<Step>, n: Name, k: nat)
    requires QuietBook(s, n) && CalmPath(s, trace, ls, n) && k < |trace|
    ensures QuietBook(trace[k], n)
  {
    var i := 0;
    while i < k
      invariant i <= k && QuietBook(trace[i], n)
    {
      i := i + 1;
      QuietNext(s, trace, ls, n, i);
    }
  }

  lemma QuietNext(s: State, trace: seq<State>, ls: seq<Step>, n: Name, k: nat)
    requires CalmPath(s, trace, ls, n) && 0 < k < |trace| && QuietBook(trace[k - 1], n)
    ensures QuietBook(trace[k], n)
  {
    PathStep(trace, ls, k);
    assert Calm(ls[k - 1], n);
    StepKeepsBook(trace[k - 1], ls[k - 1]);
    QuietStep(trace[k - 1], ls[k - 1], n);
  }

  lemma FreshId(ids: set<nat>) returns (id: nat)
    ensures id !in ids
  {
    id := 0;
    var below: set<nat> := {};
    while id in ids
      invariant below <= ids && (forall i | i in below :: i < id) && |below| == id
      decreases |ids| - |below|
    {
      below := below + {id};
      SubsetSize(below, ids);
      id := id + 1;
    }
  }

  lemma SubsetSize(a: set<nat>, b: set<nat>)
    requires a <= b
    ensures |a| <= |b|
  {
    assert b == a + (b - a);
  }

  lemma OneStep(s: State, l: Step, n: Name)
    requires Enabled(s, l) && Calm(l, n) && !Parked(Next(s, l), n)
    ensures !StaysParked(s, n)
  {
    var trace, ls := [s, Next(s, l)], [l];
    assert CalmPath(s, trace, ls, n);
  }

  /** Whether something stays parked does not depend on a first calm step. */
  lemma StepBack(s: State, l: Step, n: Name)
    requires Enabled(s, l) && Calm(l, n) && !StaysParked(Next(s, l), n)
    ensures !StaysParked(s, n)
  {
    var trace, ls :| CalmPath(Next(s, l), trace, ls, n) && !Parked(trace[|ls|], n);
    var trace', ls' := [s] + trace, [l] + ls;
    Prepend(s, l, trace, ls);
    forall k | 0 <= k < |ls'|
      ensures Calm(ls'[k], n)
    {
      if k > 0 { assert Calm(ls[k - 1], n) && ls'[k] == ls[k - 1]; }
    }
    assert CalmPath(s, trace', ls', n);
    assert trace'[|ls'|] == trace[|ls|];
  }

  lemma EnqueueUnparks(s: State, n: Name)
    requires Book(s) && Parked(s, n) && n in s.recs && s.recs[n] == WillEnqueue
    ensures !StaysParked(s, n)
  {
    var id := FreshId(s.q.queued.Keys + s.q.held.Keys);
    var l := CtrlEnqueue(n, id, 0, 0);
    EnqueueCovers(s.q, n, 0, 0, id, n);
    OneStep(s, l, n);
  }

  /** A pending Reconcile brings the template back: it stores phase Queued, or, when its write conflicts,
      it enqueues all the same. */
  lemma PendingUnparks(s: State, n: Name)
    requires Book(s) && Parked(s, n) && ReconPending(s, n)
    ensures !StaysParked(s, n)
  {
    if s.recs[n].WillEnqueue? {
      EnqueueUnparks(s, n);
    } else if Decide(s.recs[n].snap).QueueLatest? || s.objs[n].rv == s.recs[n].snap.rv {
      OneStep(s, CtrlWrite(n, Outcome.Written), n);
    } else {
      var l := CtrlWrite(n, Outcome.Conflict);
      StepKeepsBook(s, l);
      assert Next(s, l) == s.(recs := s.recs[n := WillEnqueue]);
      EnqueueUnparks(Next(s, l), n);
      StepBack(s, l, n);
    }
  }

  /** The exact condition: a parked template stays parked over every calm continuation if and only if no
      Reconcile in flight is going to enqueue it. */
  lemma PausedStaysOutIff(s: State, n: Name)
    requires Book(s) && Parked(s, n)
    ensures StaysParked(s, n) <==> !ReconPending(s, n)
  {
    if ReconPending(s, n) {
      PendingUnparks(s, n);
    } else {
      forall trace, ls | CalmPath(s, trace, ls, n)
        ensures Parked(trace[|ls|], n)
      {
        QuietPath(s, trace, ls, n, |ls|);
      }
    }
  }

  /** Over whole runs: when a worker leaves a template paused, in a run that enqueued no held name, the
      template is parked, and it stays so as long as things are calm if and only if no Reconcile that read
      an older version is still going to enqueue it. */
  lemma PauseHoldsIff(trace: seq<State>, ls: seq<Step>, k: nat, w: nat, n: Name)
    requires IsPath(trace, ls) && Book(trace[0]) && Q.SingleFlight(trace[0].q) && k < |ls|
    requires forall j | 0 <= j < k :: !EnqueuesHeld(trace[j], ls[j])
    requires ls[k] == WorkerDone(w) && w in trace[k].workers && trace[k].workers[w].name == n
    requires n in trace[k].objs && trace[k].objs[n].phase == Paused
    ensures Parked(trace[k + 1], n)
    ensures StaysParked(trace[k + 1], n) <==> !ReconPending(trace[k], n)
  {
    PathKeepsBook(trace, ls, k);
    SingleFlightRun(trace, ls, k);
    PathStep(trace, ls, k + 1);
    PauseParks(trace[k], w);
    StepKeepsBook(trace[k], ls[k]);
    PausedStaysOutIff(trace[k + 1], n);
  }

  lemma PauseParks(s: State, w: nat)
    requires Book(s) && Q.SingleFlight(s.q) && Enabled(s, WorkerDone(w))
    requires var n := s.workers[w].name; n in s.objs && s.objs[n].phase == Paused
    ensures Parked(Next(s, WorkerDone(w)), s.workers[w].name)
    ensures ReconPending(Next(s, WorkerDone(w)), s.workers[w].name) <==> ReconPending(s, s.workers[w].name)
  {
    var n := s.workers[w].name;
    var s' := Next(s, WorkerDone(w));
    assert s'.q.queued == s.q.queued && s'.q.held == s.q.held - {s.workers[w].item};
    assert n !in s.q.byName;
  }

  // ---------- the resume ----------

  /** A Reconcile that read the template paused with its resume annotation is on its way to Enqueue. */
  predicate Resuming(s: State, n: Name) {
    n in s.recs && (s.recs[n].Deciding? ==> Decide(s.recs[n].snap).MarkQueued?)
  }

  /** The Reconcile's own write neither lands nor conflicts: it starts over from a new request. */
  predicate StartsOver(l: Step, n: Name) {
    l.CtrlWrite? && l.n == n && !l.outcome.Written? && !l.outcome.Conflict?
  }

  lemma ResumingStep(s: State, l: Step, n: Name)
    requires Enabled(s, l) && Resuming(s, n) && !Enqueues(l, n) && !StartsOver(l, n)
    ensures Resuming(Next(s, l), n)
  {
    if l.CtrlWrite? { WriteFrame(s, l.n, l.outcome); }
  }

  predicate Enqueues(l: Step, n: Name) { l.CtrlEnqueue? && l.n == n }

  /** Whatever interleaves, the Reconcile that saw the annotation stays on its way until it enqueues. */
  lemma ResumingPath(trace: seq<State>, ls: seq<Step>, n: Name, more: bool, k: nat)
    requires IsPath(trace, ls) && 0 < k < |trace| && n in trace[0].objs
    requires trace[0].objs[n].phase == Paused && trace[0].objs[n].resume
    requires ls[0] == CtrlGet(n, Found(trace[0].objs[n]), more)
    requires forall j | 0 < j < k :: !Enqueues(ls[j], n) && !StartsOver(ls[j], n)
    ensures Resuming(trace[k], n)
  {
    PathStep(trace, ls, 1);
    var i := 1;
    while i < k
      invariant 1 <= i <= k && Resuming(trace[i], n)
    {
      i := i + 1;
      PathStep(trace, ls, i);
      ResumingStep(trace[i - 1], ls[i - 1], n);
    }
  }

  lemma UntouchedStep(s: State, l: Step, n: Name)
    requires Book(s) && Enabled(s, l) && Untouched(s.q, n) && !Enqueues(l, n)
    ensures Untouched(Next(s, l).q, n)
  {
    if CallsQueue(l) { UntouchedCall(s, l, n); } else { QueueFrame(s, l); }
  }

  /** Nothing but an Enqueue of its own brings a parked template back into the queue. */
  lemma UntouchedPath(trace: seq<State>, ls: seq<Step>, n: Name, k: nat)
    requires IsPath(trace, ls) && Book(trace[0]) && Untouched(trace[0].q, n) && k < |trace|
    requires forall j | 0 <= j < k :: !Enqueues(ls[j], n)
    ensures Untouched(trace[k].q, n)
  {
    var i := 0;
    while i < k
      invariant i <= k && Untouched(trace[i].q, n)
    {
      PathKeepsBook(trace, ls, i);
      i := i + 1;
      PathStep(trace, ls, i);
      UntouchedStep(trace[i - 1], ls[i - 1], n);
    }
  }

  /** The step gives item `id` back to the queue after a failure. */
  predicate Requeues(s: State, l: Step, id: nat) {
    && l.WorkerFail? && l.w in s.workers && s.workers[l.w].item == id
    && id in s.q.held && !WorkerPauses(s.q.cfg, s.q.held[id].budget)
  }

  /** The step drops item `id`: its processing is over. */
  predicate Drops(s: State, l: Step, id: nat) {
    l.WorkerDone? && l.w in s.workers && s.workers[l.w].item == id
  }

  /** Failures after which item `id` was given back, between steps `a` and `b`. */
  ghost function Failures(trace: seq<State>, ls: seq<Step>, id: nat, a: nat, b: nat): nat
    requires |trace| == |ls| + 1 && a <= b <= |ls|
    decreases b
  {
    if a == b then 0
    else Failures(trace, ls, id, a, b - 1) + if Requeues(trace[b - 1], ls[b - 1], id) then 1 else 0
  }

  /** The item is queued or held under the name `n` with this budget. */
  predicate HasBudget(q: Q.Queue<nat>, id: nat, n: Name, b: Budget) {
    || (id in q.queued && q.queued[id].name == n && q.queued[id].budget == b)
    || (id in q.held && q.held[id].name == n && q.held[id].budget == b)
  }

  lemma BudgetStep(s: State, l: Step, id: nat, n: Name, b: Budget)
    requires Book(s) && Enabled(s, l) && HasBudget(s.q, id, n, b) && !Drops(s, l, id)
    ensures Next(s, l).q.cfg == s.q.cfg
    ensures if Requeues(s, l, id)
            then !WorkerPauses(s.q.cfg, b) && RequeueVerdict(s.q.cfg, b).Retry?
                 && HasBudget(Next(s, l).q, id, n, RequeueVerdict(s.q.cfg, b).next)
            else HasBudget(Next(s, l).q, id, n, b)
  {
    if CallsQueue(l) { BudgetCall(s, l, id, n, b); } else { QueueFrame(s, l); }
  }

  lemma BudgetCall(s: State, l: Step, id: nat, n: Name, b: Budget)
    requires Book(s) && Enabled(s, l) && HasBudget(s.q, id, n, b) && !Drops(s, l, id) && CallsQueue(l)
    ensures Next(s, l).q.cfg == s.q.cfg
    ensures if Requeues(s, l, id)
            then !WorkerPauses(s.q.cfg, b) && RequeueVerdict(s.q.cfg, b).Retry?
                 && HasBudget(Next(s, l).q, id, n, RequeueVerdict(s.q.cfg, b).next)
            else HasBudget(Next(s, l).q, id, n, b)
  {
    match l
    case CtrlEnqueue(m, unused, t0, t1) => EnqueueBudget(s.q, m, t0, t1, unused, id, n, b);
    case WorkerTake(w, item, now) => DequeueBudget(s.q, item, id, n, b);
    case WorkerFail(w, now) =>
      if !WorkerPauses(s.q.cfg, s.q.held[s.workers[w].item].budget) {
        RequeueBudget(s.q, s.workers[w].item, now, id, n, b);
      }
    case WorkerDone(w) =>
  }

  lemma EnqueueBudget(q: Q.Queue<nat>, m: Name, t0: int, t1: int, unused: nat, id: nat, n: Name, b: Budget)
    requires unused !in q.queued && unused !in q.held && HasBudget(q, id, n, b)
    ensures HasBudget(Q.Enqueue(q, m, 0, t0, t1, unused), id, n, b)
  {
  }

  lemma DequeueBudget(q: Q.Queue<nat>, i: nat, id: nat, n: Name, b: Budget)
    requires Q.Inv(q) && i in q.queued && HasBudget(q, id, n, b)
    ensures HasBudget(Q.Dequeue(q, i), id, n, b)
  {
  }

  lemma RequeueBudget(q: Q.Queue<nat>, i: nat, now: int, id: nat, n: Name, b: Budget)
    requires Q.Inv(q) && i in q.held && HasBudget(q, id, n, b) && !WorkerPauses(q.cfg, q.held[i].budget)
    ensures i != id ==> HasBudget(Q.Requeue(q, i, now), id, n, b)
    ensures i == id ==> RequeueVerdict(q.cfg, b).Retry?
                        && HasBudget(Q.Requeue(q, i, now), id, n, RequeueVerdict(q.cfg, b).next)
  {
    WorkerNeverGivesUp(q.cfg, q.held[i].budget);
  }

  /** The failures of an item are counted in full: as long as it is not dropped, its budget is that of
      a fresh item after as many requeues, and there are never more than the configuration grants. */
  lemma BudgetPath(trace: seq<State>, ls: seq<Step>, id: nat, n: Name, a: nat, b: nat)
    requires IsPath(trace, ls) && Book(trace[0]) && a <= b < |trace|
    requires HasBudget(trace[a].q, id, n, Budget(0, 0))
    requires forall j | a <= j < b :: !Drops(trace[j], ls[j], id)
    ensures Counted(trace[b].q, trace[a].q.cfg, id, n, Failures(trace, ls, id, a, b))
    ensures Grants(trace[a].q.cfg, Failures(trace, ls, id, a, b))
  {
    var cfg := trace[a].q.cfg;
    CycleLengthPositive(cfg);
    var i, f := a, 0;
    while i < b
      invariant a <= i <= b && f == Failures(trace, ls, id, a, i)
      invariant Counted(trace[i].q, cfg, id, n, f) && Grants(cfg, f)
    {
      i := i + 1;
      CountedNext(trace, ls, id, n, cfg, f, i);
      if Requeues(trace[i - 1], ls[i - 1], id) {
        GrantsMore(cfg, f);
        f := f + 1;
      }
    }
  }

  /** The item has the budget of a fresh one after `f` requeues. */
  ghost predicate Counted(q: Q.Queue<nat>, cfg: Config, id: nat, n: Name, f: nat) {
    q.cfg == cfg && HasBudget(q, id, n, AfterRequeues(cfg, f))
  }

  /** The configuration grants `f` failures. */
  predicate Grants(cfg: Config, f: nat) { cfg.maxCycles > 0 ==> f <= cfg.maxCycles * CycleLength(cfg) }

  lemma GrantsMore(cfg: Config, f: nat)
    requires Grants(cfg, f) && !WorkerPauses(cfg, AfterRequeues(cfg, f))
    ensures Grants(cfg, f + 1)
  {
    AfterRequeuesSpent(cfg, f);
  }

  lemma CountedNext(trace: seq<State>, ls: seq<Step>, id: nat, n: Name, cfg: Config, f: nat, k: nat)
    requires IsPath(trace, ls) && Book(trace[0]) && 0 < k < |trace|
    requires Counted(trace[k - 1].q, cfg, id, n, f) && !Drops(trace[k - 1], ls[k - 1], id)
    ensures if Requeues(trace[k - 1], ls[k - 1], id)
            then Counted(trace[k].q, cfg, id, n, f + 1) && !WorkerPauses(cfg, AfterRequeues(cfg, f))
            else Counted(trace[k].q, cfg, id, n, f)
  {
    PathKeepsBook(trace, ls, k - 1);
    PathStep(trace, ls, k);
    BudgetStep(trace[k - 1], ls[k - 1], id, n, AfterRequeues(cfg, f));
  }

  lemma CycleLengthPositive(cfg: Config)
    ensures cfg.maxCycles > 0 ==> 0 <= cfg.maxCycles * CycleLength(cfg)
  {
  }

  /** Resuming gives the whole retry budget, whatever interleaves: on any path from a parked template, the
      first Enqueue of it creates a fresh item, and that item is paused again exactly when it has failed
      and been given back `maxCycles * CycleLength` times since, and not one time fewer. */
  lemma ResumeHasFullBudget(trace: seq<State>, ls: seq<Step>, n: Name, k: nat, m: nat)
    requires IsPath(trace, ls) && Book(trace[0]) && Parked(trace[0], n) && k < m < |trace|
    requires Enqueues(ls[k], n) && forall j | 0 <= j < k :: !Enqueues(ls[j], n)
    requires forall j | k < j < m :: !Drops(trace[j], ls[j], ls[k].id)
    ensures var cfg, id, f := trace[k].q.cfg, ls[k].id, Failures(trace, ls, ls[k].id, k + 1, m);
            && id in trace[k + 1].q.queued && trace[k + 1].q.queued[id].name == n
            && trace[k + 1].q.queued[id].budget == Budget(0, 0)
            && HasBudget(trace[m].q, id, n, AfterRequeues(cfg, f))
            && (cfg.maxCycles > 0 ==>
                  (WorkerPauses(cfg, AfterRequeues(cfg, f)) <==> f == cfg.maxCycles * CycleLength(cfg)))
  {
    UntouchedPath(trace, ls, n, k);
    PathKeepsBook(trace, ls, k);
    PathStep(trace, ls, k + 1);
    assert n !in trace[k].q.byName;
    BudgetPath(trace, ls, ls[k].id, n, k + 1, m);
    AfterRequeuesSpent(trace[k].q.cfg, Failures(trace, ls, ls[k].id, k + 1, m));
  }
}
