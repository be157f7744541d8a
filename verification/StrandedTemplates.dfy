/** No stranded template: in every interleaving, a template whose phase promises further work is
    queued, in the hands of a worker, or inside a Reconcile that is about to enqueue it. */
module StrandedTemplates {
  import opened Backoff
  import opened Protocol
  import Q = QueueSpec

  predicate PromisesWork(p: Phase) { p == Queued || p == Processing || p == Failed }

  /** A worker is on `n` and its last status write is still to come. */
  predicate Active(s: State, n: Name) {
    exists w | w in s.workers :: s.workers[w].name == n && s.workers[w].stage != Ended
  }

  predicate Covered(s: State, n: Name) {
    || Q.InHeap(s.q, n)
    || Active(s, n)
    || (n in s.recs && s.recs[n] == WillEnqueue)
  }

  ghost predicate NoStranded(s: State) {
    forall n | n in s.objs && PromisesWork(s.objs[n].phase) :: Covered(s, n)
  }

  /** A pause that ends with its status write lost although the object exists. */
  predicate LosesPause(s: State, l: Step) {
    l.WorkerPause? && !l.ok && l.w in s.workers && s.workers[l.w].name in s.objs
  }

  // ---------- queue calls and coverage ----------

  lemma EnqueueCovers(q: Q.Queue<nat>, n: Name, t0: int, t1: int, id: nat, m: Name)
    requires Q.Inv(q) && id !in q.queued && (m == n || Q.InHeap(q, m))
    ensures Q.InHeap(Q.Enqueue(q, n, 0, t0, t1, id), m)
  {
    var q' := Q.Enqueue(q, n, 0, t0, t1, id);
    if m == n {
      assert q'.byName[n] in q'.queued && q'.queued[q'.byName[n]].name == n;
    } else {
      var i :| i in q.queued && q.queued[i].name == m;
      assert i in q'.queued && q'.queued[i].name == m;
    }
  }

  lemma DequeueCovers(q: Q.Queue<nat>, i: nat, m: Name)
    requires i in q.queued && Q.InHeap(q, m) && q.queued[i].name != m
    ensures Q.InHeap(Q.Dequeue(q, i), m)
  {
    var j :| j in q.queued && q.queued[j].name == m;
    assert j in Q.Dequeue(q, i).queued && Q.Dequeue(q, i).queued[j].name == m;
  }

  lemma RequeueCovers(q: Q.Queue<nat>, i: nat, now: int, m: Name)
    requires Q.Inv(q) && i in q.held && !WorkerPauses(q.cfg, q.held[i].budget)
    requires m == q.held[i].name || Q.InHeap(q, m)
    ensures Q.InHeap(Q.Requeue(q, i, now), m)
  {
    WorkerNeverGivesUp(q.cfg, q.held[i].budget);
    var q' := Q.Requeue(q, i, now);
    if m == q.held[i].name {
      assert i in q'.queued && q'.queued[i].name == m;
    } else {
      var j :| j in q.queued && q.queued[j].name == m;
      assert j in q'.queued && q'.queued[j].name == m;
    }
  }

  /** A worker that stays at work keeps its template covered, and other workers keep theirs. */
  lemma AdvanceCovers(s: State, w: nat, stage: Stage, n: Name)
    requires w in s.workers && Covered(s, n) && (stage != Ended || n != s.workers[w].name)
    ensures Covered(Advance(s, w, stage), n)
  {
    var s' := Advance(s, w, stage);
    if Active(s, n) {
      var v :| v in s.workers && s.workers[v].name == n && s.workers[v].stage != Ended;
      assert v in s'.workers && s'.workers[v].name == n && (v == w ==> n == s.workers[w].name);
    }
  }

  lemma AdvanceActive(s: State, w: nat, stage: Stage)
    requires w in s.workers && stage != Ended
    ensures Covered(Advance(s, w, stage), s.workers[w].name)
  {
    var s' := Advance(s, w, stage);
    assert w in s'.workers && s'.workers[w].name == s.workers[w].name && s'.workers[w].stage != Ended;
  }

  /** Writing an object does not change who covers what. */
  lemma PutCovers(s: State, n: Name, t: Template, m: Name)
    ensures Covered(Put(s, n, t), m) <==> Covered(s, m)
  {
    assert Put(s, n, t).workers == s.workers;
  }

  // ---------- steps ----------

  /** A worker that finishes a step still at work: its status write may promise more work. */
  lemma WorkingStep(s: State, w: nat, ok: bool, phase: Phase, stage: Stage)
    requires NoStranded(s) && w in s.workers && Writable(s, w, ok) && stage != Ended
    ensures NoStranded(Advance(SetPhase(s, w, ok, phase), w, stage))
  {
    var s0 := SetPhase(s, w, ok, phase);
    var s' := Advance(s0, w, stage);
    forall n | n in s'.objs && PromisesWork(s'.objs[n].phase)
      ensures Covered(s', n)
    {
      if n == s.workers[w].name {
        AdvanceActive(s0, w, stage);
      } else {
        if ok { PutCovers(s, s.workers[w].name, s.objs[s.workers[w].name].(phase := phase), n); }
        AdvanceCovers(s0, w, stage, n);
      }
    }
  }

  /** A worker that makes its last write leaves behind a phase that promises nothing. */
  lemma LastWrite(s: State, w: nat, t: Template)
    requires NoStranded(s) && w in s.workers && !PromisesWork(t.phase)
    ensures NoStranded(Advance(Put(s, s.workers[w].name, t), w, Ended))
  {
    var n0 := s.workers[w].name;
    var s0 := Put(s, n0, t);
    var s' := Advance(s0, w, Ended);
    forall n | n in s'.objs && PromisesWork(s'.objs[n].phase)
      ensures Covered(s', n)
    {
      PutCovers(s, n0, t, n);
      AdvanceCovers(s0, w, Ended, n);
    }
  }

  /** A worker whose template is gone has nothing to leave behind. */
  lemma NothingLeft(s: State, w: nat)
    requires NoStranded(s) && w in s.workers && s.workers[w].name !in s.objs
    ensures NoStranded(Advance(s, w, Ended))
  {
    var s' := Advance(s, w, Ended);
    forall n | n in s'.objs && PromisesWork(s'.objs[n].phase)
      ensures Covered(s', n)
    {
      AdvanceCovers(s, w, Ended, n);
    }
  }

  /** Handing the item back: requeued items cover their template, finished workers covered nothing. */
  lemma Leaving(s: State, w: nat, now: int)
    requires Book(s) && NoStranded(s) && Busy(s, w)
    ensures s.workers[w].stage == Ended ==> NoStranded(Leave(s, w, Q.Done(s.q, s.workers[w].item)))
    ensures !WorkerPauses(s.q.cfg, s.q.held[s.workers[w].item].budget) ==>
              NoStranded(Leave(s, w, Q.Requeue(s.q, s.workers[w].item, now)))
  {
    var item := s.workers[w].item;
    if s.workers[w].stage == Ended {
      StillActive(s, w, Q.Done(s.q, item));
    }
    if !WorkerPauses(s.q.cfg, s.q.held[item].budget) {
      var s' := Leave(s, w, Q.Requeue(s.q, item, now));
      forall n | n in s'.objs && PromisesWork(s'.objs[n].phase)
        ensures Covered(s', n)
      {
        if n == s.workers[w].name || Q.InHeap(s.q, n) {
          RequeueCovers(s.q, item, now, n);
        } else {
          OthersActive(s, w, s'.q, n);
        }
      }
    }
  }

  lemma OthersActive(s: State, w: nat, q: Q.Queue<nat>, n: Name)
    requires w in s.workers && Covered(s, n) && !Q.InHeap(s.q, n)
    requires n != s.workers[w].name || s.workers[w].stage == Ended
    ensures Covered(Leave(s, w, q), n)
  {
    var s' := Leave(s, w, q);
    if Active(s, n) {
      var v :| v in s.workers && s.workers[v].name == n && s.workers[v].stage != Ended;
      assert v in s'.workers && s'.workers[v] == s.workers[v];
    }
  }

  lemma StillActive(s: State, w: nat, q: Q.Queue<nat>)
    requires NoStranded(s) && w in s.workers && s.workers[w].stage == Ended && q.queued == s.q.queued
    ensures NoStranded(Leave(s, w, q))
  {
    var s' := Leave(s, w, q);
    forall n | n in s'.objs && PromisesWork(s'.objs[n].phase)
      ensures Covered(s', n)
    {
      if !Q.InHeap(s.q, n) { OthersActive(s, w, q, n); }
    }
  }

  lemma Taking(s: State, w: nat, item: nat)
    requires NoStranded(s) && w !in s.workers && item in s.q.queued
    ensures NoStranded(s.(q := Q.Dequeue(s.q, item),
                          workers := s.workers[w := Task(item, s.q.queued[item].name, Taken)]))
  {
    var task := Task(item, s.q.queued[item].name, Taken);
    var s' := s.(q := Q.Dequeue(s.q, item), workers := s.workers[w := task]);
    forall n | n in s'.objs && PromisesWork(s'.objs[n].phase)
      ensures Covered(s', n)
    {
      if n == task.name {
        assert w in s'.workers && s'.workers[w] == task;
      } else if Q.InHeap(s.q, n) {
        DequeueCovers(s.q, item, n);
      } else if Active(s, n) {
        var v :| v in s.workers && s.workers[v].name == n && s.workers[v].stage != Ended;
        assert v in s'.workers && s'.workers[v] == s.workers[v];
      }
    }
  }

  lemma Enqueueing(s: State, n: Name, id: nat, t0: int, t1: int)
    requires Book(s) && NoStranded(s) && id !in s.q.queued
    ensures NoStranded(s.(q := Q.Enqueue(s.q, n, 0, t0, t1, id), recs := s.recs - {n}))
  {
    var s' := s.(q := Q.Enqueue(s.q, n, 0, t0, t1, id), recs := s.recs - {n});
    forall m | m in s'.objs && PromisesWork(s'.objs[m].phase)
      ensures Covered(s', m)
    {
      if m == n || Q.InHeap(s.q, m) {
        EnqueueCovers(s.q, n, t0, t1, id, m);
      } else if Active(s, m) {
        assert s'.workers == s.workers;
      }
    }
  }

  lemma GetStep(s: State, n: Name, read: Read, more: bool)
    requires NoStranded(s) && n !in s.recs
    ensures NoStranded(NextGet(s, n, read, more))
  {
    var s' := NextGet(s, n, read, more);
    GetFrame(s, n, read, more);
    forall m | m in s'.objs && PromisesWork(s'.objs[m].phase)
      ensures Covered(s', m)
    {
      assert Covered(s, m);
    }
  }

  /** A controller write uncovers nothing: a Reconcile about to write did not cover its template. */
  lemma WriteCovers(s: State, n: Name, outcome: Outcome, m: Name)
    requires Enabled(s, CtrlWrite(n, outcome)) && Covered(s, m)
    ensures Covered(NextWrite(s, n, outcome), m)
  {
    WriteFrame(s, n, outcome);
  }

  lemma WriteStep(s: State, n: Name, outcome: Outcome)
    requires Book(s) && NoStranded(s) && Enabled(s, CtrlWrite(n, outcome))
    ensures NoStranded(NextWrite(s, n, outcome))
  {
    var s' := NextWrite(s, n, outcome);
    forall m | m in s'.objs && PromisesWork(s'.objs[m].phase)
      ensures Covered(s', m)
    {
      if m == n && outcome.Written? {
        WrittenChanges(s, n);
      } else {
        WriteFrame(s, n, outcome);
        WriteCovers(s, n, outcome, m);
      }
    }
  }

  lemma UserStep(s: State, l: Step)
    requires NoStranded(s) && Enabled(s, l) && (UserMoves(l) || l.CtrlReapply?)
    ensures NoStranded(Next(s, l))
  {
    var s' := Next(s, l);
    assert s'.workers == s.workers && s'.q == s.q && s'.recs == s.recs;
    forall n | n in s'.objs && PromisesWork(s'.objs[n].phase)
      ensures Covered(s', n)
    {
      assert Covered(s, n);
    }
  }

  lemma MovingStep(s: State, l: Step)
    requires NoStranded(s) && Enabled(s, l) && (l.WorkerGet? || l.WorkerLoopDone?)
    ensures NoStranded(Next(s, l))
  {
    var stage := Next(s, l).workers[l.w].stage;
    if stage == Ended { NothingLeft(s, l.w); } else { WorkingStep(s, l.w, false, New, stage); }
  }

  lemma WritingStep(s: State, l: Step)
    requires NoStranded(s) && Enabled(s, l) && (l.WorkerStart? || l.WorkerReject? || l.WorkerHardFail?)
    ensures NoStranded(Next(s, l))
  {
    var stage := Next(s, l).workers[l.w].stage;
    match l
    case WorkerStart(w, ok, _) => WorkingStep(s, w, ok, Processing, stage);
    case WorkerReject(w, ok, _) => WorkingStep(s, w, ok, Failed, stage);
    case WorkerHardFail(w, ok) => WorkingStep(s, w, ok, Failed, Erred);
  }

  lemma LastStep(s: State, l: Step)
    requires Book(s) && NoStranded(s) && Enabled(s, l) && !LosesPause(s, l)
    requires l.WorkerComplete? || l.WorkerFail? || l.WorkerPause? || l.WorkerDone?
    ensures NoStranded(Next(s, l))
  {
    match l
    case WorkerComplete(w, ok) =>
      if ok {
        LastWrite(s, w, s.objs[s.workers[w].name].(phase := Completed, hash := HashOf(s.workers[w].stage.read)));
      } else {
        WorkingStep(s, w, false, New, Erred);
      }
    case WorkerFail(w, now) =>
      WorkingStep(s, w, false, New, Pausing);
      Leaving(s, w, now);
    case WorkerPause(w, ok) =>
      if ok { LastWrite(s, w, s.objs[s.workers[w].name].(phase := Paused)); } else { NothingLeft(s, w); }
    case WorkerDone(w) => Leaving(s, w, 0);
  }

  /** Every step except a lost pause keeps all templates covered. */
  lemma StepKeeps(s: State, l: Step)
    requires Book(s) && NoStranded(s) && Enabled(s, l) && !LosesPause(s, l)
    ensures NoStranded(Next(s, l))
  {
    if UserMoves(l) || l.CtrlReapply? {
      UserStep(s, l);
    } else if l.CtrlGet? {
      GetStep(s, l.n, l.read, l.more);
    } else if l.CtrlWrite? {
      WriteStep(s, l.n, l.outcome);
    } else if l.CtrlEnqueue? {
      Enqueueing(s, l.n, l.id, l.t0, l.t1);
    } else if l.WorkerTake? {
      Taking(s, l.w, l.item);
    } else if l.WorkerComplete? || l.WorkerFail? || l.WorkerPause? || l.WorkerDone? {
      LastStep(s, l);
    } else if l.WorkerGet? || l.WorkerLoopDone? {
      MovingStep(s, l);
    } else if !l.WorkerSkip? {
      WritingStep(s, l);
    }
  }

  /** A worker other than `w` is on `n` and its last status write is still to come. */
  predicate OtherActive(s: State, w: nat, n: Name) {
    exists v | v in s.workers :: v != w && s.workers[v].name == n && s.workers[v].stage != Ended
  }

  /** A lost pause of a template whose phase promises work, with nothing else to cover it: no queued
      item, no other worker at work, no Reconcile about to enqueue. */
  predicate Strands(s: State, l: Step) {
    LosesPause(s, l) &&
    var n := s.workers[l.w].name;
    && PromisesWork(s.objs[n].phase)
    && !Q.InHeap(s.q, n) && !OtherActive(s, l.w, n) && !(n in s.recs && s.recs[n] == WillEnqueue)
  }

  lemma LostPause(s: State, w: nat)
    requires NoStranded(s) && w in s.workers && s.workers[w].name in s.objs
    ensures NoStranded(Advance(s, w, Ended)) <==> !Strands(s, WorkerPause(w, false))
  {
    var s' := Advance(s, w, Ended);
    var n := s.workers[w].name;
    if Strands(s, WorkerPause(w, false)) {
      assert !Covered(s', n);
    } else {
      forall m | m in s'.objs && PromisesWork(s'.objs[m].phase)
        ensures Covered(s', m)
      {
        if m != n {
          AdvanceCovers(s, w, Ended, m);
        } else if OtherActive(s, w, n) {
          var v :| v in s.workers && v != w && s.workers[v].name == n && s.workers[v].stage != Ended;
          assert v in s'.workers && s'.workers[v] == s.workers[v];
        }
      }
    }
  }

  /** The exact step: a step leaves a template stranded if and only if it loses the pause of a template
      that nothing else covers. */
  lemma StepStrandsIff(s: State, l: Step)
    requires Book(s) && NoStranded(s) && Enabled(s, l)
    ensures NoStranded(Next(s, l)) <==> !Strands(s, l)
  {
    if LosesPause(s, l) { LostPause(s, l.w); } else { StepKeeps(s, l); }
  }

  lemma PathStrandsIff(trace: seq<State>, ls: seq<Step>, k: nat)
    requires IsPath(trace, ls) && Book(trace[0]) && 0 < k < |trace| && NoStranded(trace[k - 1])
    ensures NoStranded(trace[k]) <==> !Strands(trace[k - 1], ls[k - 1])
  {
    assert Book(trace[k - 1]) by { PathKeepsBook(trace, ls, k - 1); }
    PathStep(trace, ls, k);
    NextStrandsIff(trace[k - 1], ls[k - 1], trace[k]);
  }

  lemma NextStrandsIff(s: State, l: Step, s': State)
    requires Book(s) && NoStranded(s) && Enabled(s, l) && s' == Next(s, l)
    ensures NoStranded(s') <==> !Strands(s, l)
  {
    StepStrandsIff(s, l);
  }

  ghost predicate NeverStranded(trace: seq<State>) { forall s | s in trace :: NoStranded(s) }

  /** Safety over whole runs, from every start without stranded templates: no state of a run strands a
      template if and only if no step of it loses a pause that way, whatever the interleaving, however
      stale the controller's reads and whichever of its writes and of the workers' other writes fail. */
  lemma NoStrandedRunIff(trace: seq<State>, ls: seq<Step>, k: nat)
    requires IsPath(trace, ls) && Book(trace[0]) && NoStranded(trace[0]) && k < |trace|
    ensures NeverStranded(trace[..k + 1]) <==> forall j | 0 <= j < k :: !Strands(trace[j], ls[j])
  {
    var i := 0;
    while i < k
      invariant i <= k
      invariant NeverStranded(trace[..i + 1]) <==> forall j | 0 <= j < i :: !Strands(trace[j], ls[j])
    {
      i := i + 1;
      assert trace[..i + 1] == trace[..i] + [trace[i]] && trace[i - 1] in trace[..i];
      if NoStranded(trace[i - 1]) { PathStrandsIff(trace, ls, i); }
    }
  }
}
