/** What the steps of the protocol add up to: a whole Reconcile, a whole turn of a worker, the way of a
    template from an edit to its completion, and the end of an item whose template is gone. */
module ProtocolRounds {
  import opened Backoff
  import opened Protocol
  import opened StrandedTemplates
  import opened LostEdits
  import opened GuardsNeeded
  import Q = QueueSpec

  // ---------- the item of a deleted template ----------

  /** Worker `w` holds `item` of template `n` and has not found the template, or has not looked yet. */
  predicate Idles(s: State, w: nat, item: nat, n: Name) {
    w in s.workers && (s.workers[w] == Task(item, n, Taken) || s.workers[w] == Task(item, n, Ended))
  }

  /** The same, and the item still carries its record `job`. */
  predicate Kept(s: State, w: nat, item: nat, n: Name, job: Q.Item) {
    Idles(s, w, item, n) && item in s.q.held && s.q.held[item] == job
  }

  lemma KeptCall(s: State, l: Step, w: nat, item: nat, n: Name, job: Q.Item)
    requires Crew(s.q.held, s.workers) && item !in s.q.queued
    requires Enabled(s, l) && Kept(s, w, item, n, job) && CallsQueue(l) && l != WorkerDone(w)
    ensures Kept(Next(s, l), w, item, n, job)
  {
    if l.WorkerFail? || l.WorkerDone? { KeptBeside(s, l, w, item, n, job); } else { KeptTake(s, l, w, item, n, job); }
  }

  /** An item is queued, or a free worker takes one. */
  lemma KeptTake(s: State, l: Step, w: nat, item: nat, n: Name, job: Q.Item)
    requires Enabled(s, l) && Kept(s, w, item, n, job) && item !in s.q.queued && (l.CtrlEnqueue? || l.WorkerTake?)
    ensures Kept(Next(s, l), w, item, n, job)
  {
  }

  /** Another worker hands its own item back. */
  lemma KeptBeside(s: State, l: Step, w: nat, item: nat, n: Name, job: Q.Item)
    requires Crew(s.q.held, s.workers) && Enabled(s, l) && Kept(s, w, item, n, job)
    requires (l.WorkerFail? || l.WorkerDone?) && l.w != w
    ensures Kept(Next(s, l), w, item, n, job)
  {
    assert s.workers[l.w].item != item;
    if l.WorkerFail? { KeptBesideFailure(s, l.w, l.now, w, item, n, job); }
  }

  lemma KeptBesideFailure(s: State, v: nat, now: int, w: nat, item: nat, n: Name, job: Q.Item)
    requires Enabled(s, WorkerFail(v, now)) && Kept(s, w, item, n, job) && v != w && s.workers[v].item != item
    ensures Kept(Next(s, WorkerFail(v, now)), w, item, n, job)
  {
    RequeueKeepsHeld(s.q, s.workers[v].item, now, item);
  }

  lemma RequeueKeepsHeld(q: Q.Queue<nat>, i: nat, now: int, j: nat)
    requires i in q.held && j in q.held && j != i
    ensures var q' := Q.Requeue(q, i, now); j in q'.held && q'.held[j] == q.held[j]
  {
  }

  lemma IdlesMove(s: State, l: Step, w: nat, item: nat, n: Name)
    requires Enabled(s, l) && Idles(s, w, item, n) && WorkerMoves(l) && n !in s.objs && l != WorkerGet(w, false)
    ensures Idles(Next(s, l), w, item, n)
  {
    if l.w == w {
      assert l == WorkerGet(w, true) && s.workers[w].stage == Taken;
      assert Next(s, l) == Advance(s, w, Ended);
    } else {
      MovesOne(s, l);
    }
  }

  lemma MovesOne(s: State, l: Step)
    requires Enabled(s, l) && WorkerMoves(l)
    ensures forall v | v in s.workers && v != l.w :: v in Next(s, l).workers && Next(s, l).workers[v] == s.workers[v]
  {
  }

  lemma KeptStep(s: State, l: Step, w: nat, item: nat, n: Name, job: Q.Item)
    requires Crew(s.q.held, s.workers) && item !in s.q.queued
    requires Enabled(s, l) && Kept(s, w, item, n, job) && n !in s.objs
    requires l != WorkerGet(w, false) && l != WorkerDone(w)
    ensures Kept(Next(s, l), w, item, n, job)
  {
    if CallsQueue(l) {
      KeptCall(s, l, w, item, n, job);
    } else {
      QueueFrame(s, l);
      if WorkerMoves(l) { IdlesMove(s, l, w, item, n); } else { NoWorkerMoves(s, l); }
    }
  }

  lemma NoWorkerMoves(s: State, l: Step)
    requires Enabled(s, l) && !CallsQueue(l) && !WorkerMoves(l)
    ensures Next(s, l).workers == s.workers
  {
    if l.CtrlGet? {
      GetFrame(s, l.n, l.read, l.more);
    } else if l.CtrlWrite? {
      WriteFrame(s, l.n, l.outcome);
    }
  }

  lemma KeptNext(trace: seq<State>, ls: seq<Step>, j: nat, w: nat, item: nat, n: Name, job: Q.Item)
    requires IsPath(trace, ls) && Book(trace[0]) && j < |ls| && Kept(trace[j], w, item, n, job)
    requires n !in trace[j].objs && ls[j] != WorkerGet(w, false) && ls[j] != WorkerDone(w)
    ensures Kept(trace[j + 1], w, item, n, job)
  {
    HoldsItem(trace, ls, j, w);
    PathStep(trace, ls, j + 1);
    KeptStep(trace[j], ls[j], w, item, n, job);
  }

  /** A worker's item is held and not queued. */
  lemma HoldsItem(trace: seq<State>, ls: seq<Step>, k: nat, w: nat)
    requires IsPath(trace, ls) && Book(trace[0]) && k < |trace| && w in trace[k].workers
    ensures Crew(trace[k].q.held, trace[k].workers)
    ensures trace[k].workers[w].item in trace[k].q.held && trace[k].workers[w].item !in trace[k].q.queued
  {
    PathKeepsBook(trace, ls, k);
  }

  /** While a template does not exist, an item of it that a worker has taken stays in that worker's hands
      as it is, charged nothing, unless a fetch fails. */
  lemma GoneItemStays(trace: seq<State>, ls: seq<Step>, i: nat, k: nat, w: nat, item: nat, n: Name)
    requires IsPath(trace, ls) && Book(trace[0]) && i <= k < |trace| && Idles(trace[i], w, item, n)
    requires forall j | i <= j < k :: n !in trace[j].objs && ls[j] != WorkerGet(w, false) && ls[j] != WorkerDone(w)
    ensures item in trace[i].q.held && Kept(trace[k], w, item, n, trace[i].q.held[item])
  {
    HoldsItem(trace, ls, i, w);
    var job, j := trace[i].q.held[item], i;
    while j < k
      invariant i <= j <= k && Kept(trace[j], w, item, n, job)
    {
      KeptNext(trace, ls, j, w, item, n, job);
      j := j + 1;
    }
  }

  /** So the worker's last step drops it: it is neither held nor queued any more. */
  lemma GoneItemIsDropped(trace: seq<State>, ls: seq<Step>, i: nat, k: nat, w: nat, item: nat, n: Name)
    requires IsPath(trace, ls) && Book(trace[0]) && i <= k < |ls| && Idles(trace[i], w, item, n)
    requires forall j | i <= j < k :: n !in trace[j].objs && ls[j] != WorkerGet(w, false) && ls[j] != WorkerDone(w)
    requires ls[k] == WorkerDone(w)
    ensures item !in trace[k].q.queued && item !in trace[k + 1].q.queued && item !in trace[k + 1].q.held
  {
    GoneItemStays(trace, ls, i, k, w, item, n);
    HoldsItem(trace, ls, k, w);
    PathStep(trace, ls, k + 1);
    DoneDrops(trace[k], w);
  }

  lemma DoneDrops(s: State, w: nat)
    requires Enabled(s, WorkerDone(w))
    ensures var q := Next(s, WorkerDone(w)).q; q.queued == s.q.queued && q.held == s.q.held - {s.workers[w].item}
  {
  }

  // ---------- paths that are put together ----------

  /** The steps `ls` lead from `s` to `s'`. */
  ghost predicate Leads(s: State, ls: seq<Step>, s': State) {
    exists trace :: IsPath(trace, ls) && trace[0] == s && trace[|ls|] == s'
  }

  lemma LeadsNowhere(s: State)
    ensures Leads(s, [], s)
  {
    var trace, ls: seq<Step> := [s], [];
    assert IsPath(trace, ls) && trace[|ls|] == s;
  }

  lemma LeadsOn(s: State, ls: seq<Step>, s': State, l: Step)
    requires Leads(s, ls, s') && Enabled(s', l)
    ensures Leads(s, ls + [l], Next(s', l))
  {
    var trace :| IsPath(trace, ls) && trace[0] == s && trace[|ls|] == s';
    var trace', ls' := trace + [Next(s', l)], ls + [l];
    forall k | 0 <= k < |ls'|
      ensures Enabled(trace'[k], ls'[k]) && trace'[k + 1] == Next(trace'[k], ls'[k])
    {
      if k < |ls| {
        assert trace'[k] == trace[k] && ls'[k] == ls[k] && trace'[k + 1] == trace[k + 1];
        assert Enabled(trace[k], ls[k]);
      }
    }
    assert IsPath(trace', ls') && trace'[0] == s && trace'[|ls'|] == Next(s', l);
  }

  lemma LeadsThrough(s: State, ls: seq<Step>, s': State, ls': seq<Step>, s'': State)
    requires Leads(s, ls, s') && Leads(s', ls', s'')
    ensures Leads(s, ls + ls', s'')
  {
    var a :| IsPath(a, ls) && a[0] == s && a[|ls|] == s';
    var b :| IsPath(b, ls') && b[0] == s' && b[|ls'|] == s'';
    var trace, all := a + b[1..], ls + ls';
    forall k | 0 <= k < |all|
      ensures Enabled(trace[k], all[k]) && trace[k + 1] == Next(trace[k], all[k])
    {
      if k < |ls| {
        assert trace[k] == a[k] && all[k] == ls[k] && trace[k + 1] == a[k + 1];
        assert Enabled(a[k], ls[k]);
      } else {
        var j := k - |ls|;
        assert trace[k] == b[j] && all[k] == ls'[j] && trace[k + 1] == b[j + 1];
        assert Enabled(b[j], ls'[j]);
      }
    }
    assert IsPath(trace, all) && trace[0] == s && trace[|all|] == s'';
  }

  // ---------- a whole Reconcile ----------

  /** The template is to be processed: it is new or on its way, a user resumes it, or its spec is not the
      one that its status records. */
  predicate WantsWork(t: Template) {
    || t.phase == New || t.phase == Queued || t.phase == Processing
    || (t.phase == Paused && t.resume)
    || ((t.phase == Completed || t.phase == Failed) && t.hash != NoHash && t.hash != HashOf(t.spec))
  }

  /** The status that Reconcile leaves: Queued if there is work, with the hash of the spec where the
      status recorded another one; a Completed template without a hash gets one. */
  function Attended(t: Template): Template {
    t.(phase := if WantsWork(t) && t.phase != Processing then Queued else t.phase,
       hash := if t.phase == Completed || (t.phase == Failed && WantsWork(t)) then HashOf(t.spec) else t.hash)
  }

  /** Reconcile writes a status. */
  predicate Touches(t: Template) {
    t.phase == New || t.phase == Completed || ((t.phase == Paused || t.phase == Failed) && WantsWork(t))
  }

  /** The cluster after an undisturbed Reconcile: the template is enqueued exactly if it is to be
      processed, and otherwise the queue is left alone. */
  ghost function Reconciled(s: State, n: Name, id: nat, t0: int, t1: int): State
    requires n in s.objs
  {
    var t := s.objs[n];
    var s0 := s.(events := s.events - {n});
    var s1 := if Touches(t) then Put(s0, n, Attended(t)) else s0;
    if WantsWork(t) then s1.(q := Q.Enqueue(s.q, n, 0, t0, t1, id))
    else if t.phase == Completed then s1.(timers := s.timers + {n})
    else s1
  }

  /** After the read, and after the write if there is one. */
  ghost function Fetched(s: State, n: Name): State
    requires n in s.objs
  {
    var t := s.objs[n];
    var s0 := s.(events := s.events - {n});
    if Touches(t) then s0.(recs := s.recs[n := Deciding(t)])
    else if WantsWork(t) then s0.(recs := s.recs[n := WillEnqueue])
    else s0
  }

  ghost function Marked(s: State, n: Name): State
    requires n in s.objs
  {
    var t := s.objs[n];
    var s0 := s.(events := s.events - {n});
    if !Touches(t) then Fetched(s, n)
    else if WantsWork(t) then Put(s0, n, Attended(t)).(recs := s.recs[n := WillEnqueue])
    else Put(s0, n, Attended(t)).(timers := s.timers + {n})
  }

  lemma ReadLeads(s: State, n: Name)
    requires n in s.events && n !in s.recs && n in s.objs && s.objs[n].rv < s.nextRv
    ensures Leads(s, [CtrlGet(n, Found(s.objs[n]), false)], Fetched(s, n))
  {
    var l := CtrlGet(n, Found(s.objs[n]), false);
    assert Next(s, l) == Fetched(s, n);
    LeadsNowhere(s);
    LeadsOn(s, [], s, l);
    assert [] + [l] == [l];
  }

  lemma WriteLeads(s: State, n: Name)
    requires n !in s.recs && n in s.objs
    ensures Leads(Fetched(s, n), if Touches(s.objs[n]) then [CtrlWrite(n, Outcome.Written)] else [], Marked(s, n))
  {
    LeadsNowhere(Fetched(s, n));
    if Touches(s.objs[n]) {
      var l, s' := CtrlWrite(n, Outcome.Written), Fetched(s, n);
      WriteLands(s, n);
      LeadsOn(s', [], s', l);
      assert [] + [l] == [l];
    }
  }

  lemma WriteLands(s: State, n: Name)
    requires n !in s.recs && n in s.objs && Touches(s.objs[n])
    ensures Enabled(Fetched(s, n), CtrlWrite(n, Outcome.Written))
    ensures Next(Fetched(s, n), CtrlWrite(n, Outcome.Written)) == Marked(s, n)
  {
    var t := s.objs[n];
    assert s.recs[n := Deciding(t)] - {n} == s.recs;
    assert s.recs[n := Deciding(t)][n := WillEnqueue] == s.recs[n := WillEnqueue];
  }

  lemma CallLeads(s: State, n: Name, id: nat, t0: int, t1: int)
    requires n !in s.recs && n in s.objs && id !in s.q.queued && id !in s.q.held
    ensures Leads(Marked(s, n), if WantsWork(s.objs[n]) then [CtrlEnqueue(n, id, t0, t1)] else [],
                  Reconciled(s, n, id, t0, t1))
  {
    LeadsNowhere(Marked(s, n));
    if WantsWork(s.objs[n]) {
      var l, s' := CtrlEnqueue(n, id, t0, t1), Marked(s, n);
      assert s.recs[n := WillEnqueue] - {n} == s.recs;
      assert Next(s', l) == Reconciled(s, n, id, t0, t1);
      LeadsOn(s', [], s', l);
      assert [] + [l] == [l];
    }
  }

  /** An undisturbed Reconcile of a stored template, with a fresh read and a write that lands. */
  lemma ReconcileRound(s: State, n: Name, id: nat, t0: int, t1: int) returns (ls: seq<Step>)
    requires n in s.events && n !in s.recs && n in s.objs && s.objs[n].rv < s.nextRv
    requires id !in s.q.queued && id !in s.q.held
    ensures Leads(s, ls, Reconciled(s, n, id, t0, t1))
  {
    var t := s.objs[n];
    var read := [CtrlGet(n, Found(t), false)];
    var write := if Touches(t) then [CtrlWrite(n, Outcome.Written)] else [];
    var call := if WantsWork(t) then [CtrlEnqueue(n, id, t0, t1)] else [];
    ReadLeads(s, n);
    WriteLeads(s, n);
    LeadsThrough(s, read, Fetched(s, n), write, Marked(s, n));
    CallLeads(s, n, id, t0, t1);
    LeadsThrough(s, read + write, Marked(s, n), call, Reconciled(s, n, id, t0, t1));
    ls := read + write + call;
  }

  /** A status write of Reconcile that does not land changes no object. A conflict still lets Reconcile
      enqueue the template, unless it is new; every other failure repeats the request. */
  lemma FailedWrite(s: State, n: Name, outcome: Outcome)
    requires n in s.recs && s.recs[n].Deciding? && !outcome.Written? && Enabled(s, CtrlWrite(n, outcome))
    ensures var t, s' := s.recs[n].snap, Next(s, CtrlWrite(n, outcome));
            && s'.objs == s.objs && s'.q == s.q
            && (WantsWork(t) && NeedsWrite(Decide(t)) ==>
                  if outcome.Conflict? && t.phase != New
                  then s'.recs == s.recs[n := WillEnqueue] && s'.events == s.events
                  else s'.recs == s.recs - {n} && s'.events == s.events + {n})
            && (!WantsWork(t) ==>
                  s'.recs == s.recs - {n} && s'.events == s.events && s'.timers == s.timers + {n})
  {
  }

  /** A template that is Completed and up to date is reconciled again and again: its timer fires, Reconcile
      finds nothing to do and arms the timer again. */
  lemma PeriodicRound(s: State, n: Name, id: nat) returns (ls: seq<Step>, s': State)
    requires n in s.timers && n !in s.events && n !in s.recs && n in s.objs && s.objs[n].rv < s.nextRv
    requires s.objs[n].phase == Completed && s.objs[n].hash == HashOf(s.objs[n].spec)
    requires id !in s.q.queued && id !in s.q.held
    ensures Leads(s, [TimerFires(n)] + ls, s')
    ensures s' == s.(objs := s'.objs, nextRv := s.nextRv + 1)
    ensures s'.objs == s.objs[n := s.objs[n].(rv := s.nextRv)]
  {
    var s1 := Next(s, TimerFires(n));
    LeadsNowhere(s);
    LeadsOn(s, [], s, TimerFires(n));
    ls := ReconcileRound(s1, n, id, 0, 0);
    s' := Reconciled(s1, n, id, 0, 0);
    assert [] + [TimerFires(n)] == [TimerFires(n)];
    LeadsThrough(s, [TimerFires(n)], s1, ls, s');
    assert s'.events == s.events && s'.timers == s.timers;
  }

  // ---------- a whole turn of a worker ----------

  /** Worker `w` has just taken its item, and the template exists. */
  predicate Sets(s: State, w: nat) {
    Busy(s, w) && s.workers[w].stage == Taken && s.workers[w].name in s.objs
  }

  /** The steps of a worker until it applies the spec, without and with a refused template. */
  function Opening(w: nat): seq<Step> { [WorkerGet(w, true), WorkerStart(w, true, "")] }

  ghost function Begun(s: State, w: nat): State
    requires w in s.workers && s.workers[w].name in s.objs
  {
    Started(Advance(s, w, Ready), w)
  }

  lemma OpeningLeads(s: State, w: nat)
    requires Sets(s, w)
    ensures Leads(s, Opening(w), Begun(s, w))
  {
    var s1 := Advance(s, w, Ready);
    LeadsNowhere(s);
    assert Next(s, WorkerGet(w, true)) == s1;
    LeadsOn(s, [], s, WorkerGet(w, true));
    assert Next(s1, WorkerStart(w, true, "")) == Begun(s, w);
    LeadsOn(s, [] + [WorkerGet(w, true)], s1, WorkerStart(w, true, ""));
    assert [] + [WorkerGet(w, true)] + [WorkerStart(w, true, "")] == Opening(w);
  }

  /** The cluster once worker `w` has processed its template: Completed, with the hash of the spec that was
      stored when it began and that is applied now, and without the item. */
  ghost function Processed(s: State, w: nat): State
    requires w in s.workers && s.workers[w].name in s.objs
  {
    var n := s.workers[w].name;
    var t := s.objs[n];
    s.(objs := s.objs[n := t.(phase := Completed, hash := HashOf(t.spec), rv := s.nextRv + 1)],
       nextRv := s.nextRv + 2, applied := s.applied[n := t.spec], workers := s.workers - {w},
       q := Q.Release(s.q, s.workers[w].item, 1))
  }

  lemma ClosingLeads(s: State, w: nat)
    requires Busy(s, w) && s.workers[w].name in s.objs && s.workers[w].stage.Applying?
    ensures Leads(s, [WorkerLoopDone(w), WorkerComplete(w, true), WorkerDone(w)],
                  Leave(CompletedBy(Looped(s, w), w), w, Q.Release(s.q, s.workers[w].item, 1)))
  {
    var s1 := Looped(s, w);
    var s2 := CompletedBy(s1, w);
    LeadsNowhere(s);
    assert Next(s, WorkerLoopDone(w)) == s1;
    LeadsOn(s, [], s, WorkerLoopDone(w));
    assert Next(s1, WorkerComplete(w, true)) == s2;
    LeadsOn(s, [] + [WorkerLoopDone(w)], s1, WorkerComplete(w, true));
    LeadsOn(s, [] + [WorkerLoopDone(w)] + [WorkerComplete(w, true)], s2, WorkerDone(w));
    assert [] + [WorkerLoopDone(w)] + [WorkerComplete(w, true)] + [WorkerDone(w)]
           == [WorkerLoopDone(w), WorkerComplete(w, true), WorkerDone(w)];
  }

  /** A turn in which everything works. */
  lemma WorkerTurn(s: State, w: nat) returns (ls: seq<Step>)
    requires Sets(s, w)
    ensures Leads(s, ls, Processed(s, w))
  {
    var s1 := Begun(s, w);
    OpeningLeads(s, w);
    ClosingLeads(s1, w);
    var s2 := Leave(CompletedBy(Looped(s1, w), w), w, Q.Release(s1.q, s1.workers[w].item, 1));
    ls := Opening(w) + [WorkerLoopDone(w), WorkerComplete(w, true), WorkerDone(w)];
    LeadsThrough(s, Opening(w), s1, [WorkerLoopDone(w), WorkerComplete(w, true), WorkerDone(w)], s2);
    TurnEnds(s, w);
  }

  lemma TurnEnds(s: State, w: nat)
    requires w in s.workers && s.workers[w].name in s.objs
    ensures var s1 := Begun(s, w);
            Leave(CompletedBy(Looped(s1, w), w), w, Q.Release(s1.q, s1.workers[w].item, 1)) == Processed(s, w)
  {
    var n := s.workers[w].name;
    var s1 := Begun(s, w);
    var s2 := Leave(CompletedBy(Looped(s1, w), w), w, Q.Release(s1.q, s1.workers[w].item, 1));
    assert s2.workers == s.workers - {w};
    assert s2.objs == Processed(s, w).objs;
  }

  /** The cluster after a turn in which an apply failed: Failed and queued again, charged for it; or
      Paused and out of the queue, if the budget is used up. */
  ghost function Failing(s: State, w: nat, now: int): State
    requires Busy(s, w) && s.workers[w].name in s.objs
  {
    var t, item := s.objs[s.workers[w].name], s.workers[w].item;
    if WorkerPauses(s.q.cfg, s.q.held[item].budget)
    then Left(s, w, t.(phase := Paused, rv := s.nextRv + 2), 3, Q.Release(s.q, item, 1))
    else Left(s, w, t.(phase := Failed, rv := s.nextRv + 1), 2, Q.Requeue(s.q, item, now))
  }

  /** Worker `w` has written its object `k` times, the last time as `t`, and has gone; the queue is `q`. */
  ghost function Left(s: State, w: nat, t: Template, k: nat, q: Q.Queue<nat>): State
    requires w in s.workers
  {
    s.(objs := s.objs[s.workers[w].name := t], nextRv := s.nextRv + k, workers := s.workers - {w}, q := q)
  }

  /** The object of worker `w` has got another phase. */
  ghost function Phased(s: State, w: nat, phase: Phase, stage: Stage): State
    requires w in s.workers && s.workers[w].name in s.objs
  {
    Advance(Put(s, s.workers[w].name, s.objs[s.workers[w].name].(phase := phase)), w, stage)
  }

  lemma FailureLeads(s: State, w: nat, now: int) returns (ls: seq<Step>)
    requires Busy(s, w) && s.workers[w].name in s.objs && s.workers[w].stage.Applying?
    ensures var s1, item := Phased(s, w, Failed, Erred), s.workers[w].item;
            Leads(s, ls, if WorkerPauses(s.q.cfg, s.q.held[item].budget)
                         then Leave(Phased(s1, w, Paused, Ended), w, Q.Release(s.q, item, 1))
                         else Leave(s1, w, Q.Requeue(s.q, item, now)))
  {
    var s1 := Phased(s, w, Failed, Erred);
    LeadsNowhere(s);
    assert Next(s, WorkerHardFail(w, true)) == s1;
    LeadsOn(s, [], s, WorkerHardFail(w, true));
    ls := [] + [WorkerHardFail(w, true)];
    LeadsOn(s, ls, s1, WorkerFail(w, now));
    ls := ls + [WorkerFail(w, now)];
    if WorkerPauses(s.q.cfg, s.q.held[s.workers[w].item].budget) {
      var more := PauseLeads(s1, w);
      LeadsThrough(s, ls, Advance(s1, w, Pausing), more,
                   Leave(Phased(s1, w, Paused, Ended), w, Q.Release(s.q, s.workers[w].item, 1)));
      ls := ls + more;
    }
  }

  lemma PauseLeads(s: State, w: nat) returns (ls: seq<Step>)
    requires Busy(s, w) && s.workers[w].name in s.objs
    ensures Leads(Advance(s, w, Pausing), ls,
                  Leave(Phased(s, w, Paused, Ended), w, Q.Release(s.q, s.workers[w].item, 1)))
  {
    var s1, s2 := Advance(s, w, Pausing), Phased(s, w, Paused, Ended);
    LeadsNowhere(s1);
    assert Next(s1, WorkerPause(w, true)) == s2 by {
      assert s1.workers[w := s1.workers[w].(stage := Ended)] == s.workers[w := s.workers[w].(stage := Ended)];
    }
    LeadsOn(s1, [], s1, WorkerPause(w, true));
    LeadsOn(s1, [] + [WorkerPause(w, true)], s2, WorkerDone(w));
    ls := [] + [WorkerPause(w, true)] + [WorkerDone(w)];
  }

  /** A turn in which an apply fails while the status writes land. */
  lemma FailingTurn(s: State, w: nat, now: int) returns (ls: seq<Step>)
    requires Sets(s, w)
    ensures Leads(s, ls, Failing(s, w, now))
  {
    var s1 := Begun(s, w);
    OpeningLeads(s, w);
    var more := FailureLeads(s1, w, now);
    if WorkerPauses(s.q.cfg, s.q.held[s.workers[w].item].budget) {
      SpentEnd(s, w, Q.Release(s.q, s.workers[w].item, 1));
    } else {
      RetryEnd(s, w, Q.Requeue(s.q, s.workers[w].item, now));
    }
    LeadsThrough(s, Opening(w), s1, more, Failing(s, w, now));
    ls := Opening(w) + more;
  }

  lemma SpentEnd(s: State, w: nat, q: Q.Queue<nat>)
    requires w in s.workers && s.workers[w].name in s.objs
    ensures Leave(Phased(Phased(Begun(s, w), w, Failed, Erred), w, Paused, Ended), w, q)
            == Left(s, w, s.objs[s.workers[w].name].(phase := Paused, rv := s.nextRv + 2), 3, q)
  {
    BegunAhead(s, w);
    var t, s1 := s.objs[s.workers[w].name].(phase := Processing, rv := s.nextRv), Phased(Begun(s, w), w, Failed, Erred);
    AheadPhase(s, Begun(s, w), w, t, 1, Failed, Erred);
    AheadPhase(s, s1, w, t.(phase := Failed, rv := s.nextRv + 1), 2, Paused, Ended);
    AheadLeaves(s, Phased(s1, w, Paused, Ended), w, t.(phase := Paused, rv := s.nextRv + 2), 3, q);
  }

  lemma RetryEnd(s: State, w: nat, q: Q.Queue<nat>)
    requires w in s.workers && s.workers[w].name in s.objs
    ensures Leave(Phased(Begun(s, w), w, Failed, Erred), w, q)
            == Left(s, w, s.objs[s.workers[w].name].(phase := Failed, rv := s.nextRv + 1), 2, q)
  {
    BegunAhead(s, w);
    var t := s.objs[s.workers[w].name].(phase := Processing, rv := s.nextRv);
    AheadPhase(s, Begun(s, w), w, t, 1, Failed, Erred);
    AheadLeaves(s, Phased(Begun(s, w), w, Failed, Erred), w, t.(phase := Failed, rv := s.nextRv + 1), 2, q);
  }

  lemma BegunAhead(s: State, w: nat)
    requires w in s.workers && s.workers[w].name in s.objs
    ensures Ahead(s, Begun(s, w), w, s.objs[s.workers[w].name].(phase := Processing, rv := s.nextRv), 1)
  {
    assert Begun(s, w).workers - {w} == s.workers - {w};
  }

  lemma AheadLeaves(s: State, s': State, w: nat, t: Template, k: nat, q: Q.Queue<nat>)
    requires w in s.workers && Ahead(s, s', w, t, k)
    ensures Leave(s', w, q) == Left(s, w, t, k, q)
  {
  }

  /** Worker `w` has written its object `k` times, the last time as `t`, and changed nothing else. */
  ghost predicate Ahead(s: State, s': State, w: nat, t: Template, k: nat)
    requires w in s.workers
  {
    var n := s.workers[w].name;
    && s' == s.(objs := s.objs[n := t], nextRv := s.nextRv + k, workers := s'.workers)
    && w in s'.workers && s'.workers[w].name == n && s'.workers - {w} == s.workers - {w}
  }

  lemma AheadPhase(s: State, s': State, w: nat, t: Template, k: nat, phase: Phase, stage: Stage)
    requires w in s.workers && Ahead(s, s', w, t, k)
    ensures Ahead(s, Phased(s', w, phase, stage), w, t.(phase := phase, rv := s.nextRv + k), k + 1)
  {
    var s'' := Phased(s', w, phase, stage);
    assert s''.workers - {w} == s'.workers - {w};
    assert s''.objs == s.objs[s.workers[w].name := t.(phase := phase, rv := s.nextRv + k)];
  }

  /** A fetch that fails, and a failure or a completion whose status write is lost, count as failures too:
      the object stays as it is, and the worker's next step gives the item back, charged, or turns to
      pausing the template if the budget is used up. */
  lemma BareFailure(s: State, w: nat, l: Step, now: int)
    requires l == WorkerGet(w, false) || l == WorkerHardFail(w, false) || l == WorkerComplete(w, false)
    requires Enabled(s, l)
    ensures Leads(s, [l, WorkerFail(w, now)],
                  if WorkerPauses(s.q.cfg, s.q.held[s.workers[w].item].budget) then Advance(s, w, Pausing)
                  else Leave(s, w, Q.Requeue(s.q, s.workers[w].item, now)))
  {
    var s1 := Advance(s, w, Erred);
    assert Next(s, l) == s1;
    LeadsNowhere(s);
    LeadsOn(s, [], s, l);
    LeadsOn(s, [] + [l], s1, WorkerFail(w, now));
    assert [] + [l] + [WorkerFail(w, now)] == [l, WorkerFail(w, now)];
    ErredFails(s, w, now);
  }

  lemma ErredFails(s: State, w: nat, now: int)
    requires Busy(s, w)
    ensures Enabled(Advance(s, w, Erred), WorkerFail(w, now))
    ensures Next(Advance(s, w, Erred), WorkerFail(w, now))
            == if WorkerPauses(s.q.cfg, s.q.held[s.workers[w].item].budget) then Advance(s, w, Pausing)
               else Leave(s, w, Q.Requeue(s.q, s.workers[w].item, now))
  {
    var s1 := Advance(s, w, Erred);
    assert s1.workers[w := s1.workers[w].(stage := Pausing)] == s.workers[w := s.workers[w].(stage := Pausing)];
    assert s1.workers - {w} == s.workers - {w};
  }

  // ---------- from an edit to its completion ----------

  lemma EditLeads(s: State, n: Name, spec: Spec)
    requires n in s.objs
    ensures Leads(s, [UserEdit(n, spec, false)], EditedTo(s, n, spec))
  {
    LeadsNowhere(s);
    LeadsOn(s, [], s, UserEdit(n, spec, false));
    assert [] + [UserEdit(n, spec, false)] == [UserEdit(n, spec, false)];
  }

  /** The only queued item is taken by a free worker once it is due. */
  lemma TakeLeads(s: State, w: nat, item: nat)
    requires w !in s.workers && item in s.q.queued && forall i | i in s.q.queued :: i == item
    ensures Leads(s, [WorkerTake(w, item, s.q.queued[item].scheduledAt)], Took(s, w, item))
  {
    var l := WorkerTake(w, item, s.q.queued[item].scheduledAt);
    assert Q.IsHead(s.q, item);
    LeadsNowhere(s);
    LeadsOn(s, [], s, l);
    assert [] + [l] == [l];
  }

  /** An edit of a template at rest while the queue is empty. */
  ghost predicate Editable(s: State, n: Name, spec: Spec, w: nat, id: nat) {
    && n in s.objs && AtRest(s, n) && s.objs[n].rv < s.nextRv && s.q.queued == map[] && s.q.byName == map[]
    && w !in s.workers && id !in s.q.held && WantsWork(s.objs[n].(spec := spec, resume := false))
  }

  /** What Reconcile makes of the edit: one item for the template, and nothing else is going on about it. */
  ghost predicate Waiting(s: State, n: Name, spec: Spec, w: nat, id: nat) {
    && n in s.objs && s.objs[n].spec == spec && n !in s.events && n !in s.recs
    && (forall i | i in s.q.queued :: i == id) && id in s.q.queued && s.q.queued[id].name == n && id !in s.q.held
    && w !in s.workers && (forall v | v in s.workers :: s.workers[v].name != n)
  }

  lemma EditWaits(s: State, n: Name, spec: Spec, w: nat, id: nat, now: int)
    requires Editable(s, n, spec, w, id)
    ensures var s1 := EditedTo(s, n, spec);
            && n in s1.events && n !in s1.recs && s1.objs[n].rv < s1.nextRv && s1.q == s.q
            && Waiting(Reconciled(s1, n, id, now, now), n, spec, w, id)
  {
    var s1 := EditedTo(s, n, spec);
    assert WantsWork(s1.objs[n]);
    assert Q.Enqueue(s.q, n, 0, now, now, id).queued.Keys == {id};
  }

  /** The template is Completed and at rest, with this spec stored, recorded and applied. */
  ghost predicate Fulfilled(s: State, n: Name, spec: Spec) {
    && n in s.objs && s.objs[n].phase == Completed && s.objs[n].spec == spec && s.objs[n].hash == HashOf(spec)
    && n in s.applied && s.applied[n] == spec && AtRest(s, n)
  }

  lemma TookSets(s: State, n: Name, spec: Spec, w: nat, id: nat)
    requires Waiting(s, n, spec, w, id)
    ensures var s' := Took(s, w, id);
            && Sets(s', w) && s'.workers[w].name == n && s'.objs == s.objs && s'.events == s.events
            && s'.recs == s.recs && s'.q.queued == map[]
            && (forall v | v in s'.workers && v != w :: s'.workers[v].name != n)
  {
    assert s.q.queued - {id} == map[];
  }

  lemma TurnFulfils(s: State, n: Name, w: nat)
    requires Sets(s, w) && s.workers[w].name == n && n !in s.events && n !in s.recs && s.q.queued == map[]
    requires forall v | v in s.workers && v != w :: s.workers[v].name != n
    ensures Fulfilled(Processed(s, w), n, s.objs[n].spec)
  {
  }

  /** Reconcile queues the edit. */
  lemma EditIsQueued(s: State, n: Name, spec: Spec, w: nat, id: nat, now: int) returns (ls: seq<Step>, s': State)
    requires Editable(s, n, spec, w, id)
    ensures Leads(s, [UserEdit(n, spec, false)] + ls, s') && Waiting(s', n, spec, w, id)
  {
    var s1 := EditedTo(s, n, spec);
    EditLeads(s, n, spec);
    EditWaits(s, n, spec, w, id, now);
    ls := ReconcileRound(s1, n, id, now, now);
    s' := Reconciled(s1, n, id, now, now);
    LeadsThrough(s, [UserEdit(n, spec, false)], s1, ls, s');
  }

  /** A worker takes it and processes it. */
  lemma WaitingIsProcessed(s: State, n: Name, spec: Spec, w: nat, id: nat) returns (ls: seq<Step>, s': State)
    requires Waiting(s, n, spec, w, id)
    ensures Leads(s, ls, s') && Fulfilled(s', n, spec)
  {
    var s1 := Took(s, w, id);
    var take := [WorkerTake(w, id, s.q.queued[id].scheduledAt)];
    TakeLeads(s, w, id);
    TookSets(s, n, spec, w, id);
    var turn := WorkerTurn(s1, w);
    s' := Processed(s1, w);
    LeadsThrough(s, take, s1, turn, s');
    TurnFulfils(s1, n, w);
    ls := take + turn;
  }

  /** An edit to which there is anything to do is processed: a path leads from it to a Completed template
      at rest that has the new spec applied and its hash recorded. */
  lemma EditIsProcessed(s: State, n: Name, spec: Spec, w: nat, id: nat, now: int) returns (ls: seq<Step>, s': State)
    requires Editable(s, n, spec, w, id)
    ensures Leads(s, [UserEdit(n, spec, false)] + ls, s') && Fulfilled(s', n, spec)
  {
    var round, s1 := EditIsQueued(s, n, spec, w, id, now);
    var turn;
    turn, s' := WaitingIsProcessed(s1, n, spec, w, id);
    LeadsThrough(s, [UserEdit(n, spec, false)] + round, s1, turn, s');
    ls := round + turn;
    assert [UserEdit(n, spec, false)] + round + turn == [UserEdit(n, spec, false)] + ls;
  }
}
