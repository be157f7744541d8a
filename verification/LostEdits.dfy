/** No lost spec edit: whenever a template rests in phase Completed, the spec that was applied last is the
    spec that is stored, also when it was edited while an older version was being processed.

    This needs five guards on the steps (`Guard`); module ProtocolExamples has a run for each of them that
    keeps the other four and loses an edit, and module GuardsNeeded says when breaking one does. */
module LostEdits {
  import opened Backoff
  import opened Protocol
  import opened StrandedTemplates
  import PausedTemplates
  import Q = QueueSpec

  // ---------- the guards ----------

  /** An edit of a template in one of these phases makes Reconcile enqueue it. */
  predicate Watched(p: Phase) { p == New || p == Queued || p == Processing }

  /** The worker has fetched its template for good and applies `spec`, or has just done so. */
  predicate Applies(stage: Stage, spec: Spec) {
    match stage
    case Applying(todo, _) => todo == spec
    case Finishing(read) => read == spec
    case _ => false
  }

  datatype Guard =
    | Alone      // no worker takes an item while another one is at work on its template
    | Noticed    // Reconcile will react to an edit under a worker's hands
    | Current    // a refusal finds the spec that is being applied
    | Written    // the first status write lands or is not needed, and so is a pause
    | Settled    // a drift pass applies what is applied already, or what a worker will apply over

  /** A queued item or a Reconcile about to enqueue: a worker will fetch the template after every worker
      now on it is through. */
  predicate Lasting(s: State, n: Name) {
    Q.InHeap(s.q, n) || (n in s.recs && s.recs[n] == WillEnqueue)
  }

  ghost predicate Keeps(g: Guard, s: State, l: Step) {
    match g
    case Alone =>
      l.WorkerTake? && l.item in s.q.queued ==>
        forall w | w in s.workers && s.workers[w].name == s.q.queued[l.item].name :: s.workers[w].stage == Ended
    case Noticed =>
      l.UserEdit? && l.n in s.objs && s.objs[l.n].phase == Failed && !Lasting(s, l.n) ==>
        forall w, todo | w in s.workers && s.workers[w].name == l.n && Applies(s.workers[w].stage, todo) ::
          l.spec == todo || Decide(s.objs[l.n].(spec := l.spec)).MarkQueued?
    case Current =>
      l.WorkerReject? && l.w in s.workers && s.workers[l.w].stage.Applying? && !Lasting(s, s.workers[l.w].name) ==>
        var n := s.workers[l.w].name;
        s.workers[l.w].stage.todo == if l.ok && n in s.objs then s.objs[n].spec else l.seen
    case Written =>
      (l.WorkerStart? || l.WorkerPause?) && !l.ok && l.w in s.workers && s.workers[l.w].name in s.objs ==>
        var n := s.workers[l.w].name;
        Lasting(s, n) || Unneeded(s, l, n)
    case Settled =>
      l.CtrlReapply? && l.n in s.recs && s.recs[l.n].Deciding? && !Lasting(s, l.n) ==>
        Harmless(s, l.n, s.recs[l.n].snap.spec)
  }

  /** Every worker on the template is through with it. */
  predicate Rests(s: State, n: Name) {
    forall w | w in s.workers && s.workers[w].name == n :: s.workers[w].stage == Ended
  }

  /** Applying `spec` now changes nothing, or will not be the last time. */
  ghost predicate Harmless(s: State, n: Name, spec: Spec) {
    && (forall w | w in s.workers && s.workers[w].name == n && s.workers[w].stage.Finishing? ::
          s.workers[w].stage.read == spec)
    && (n in s.objs && s.objs[n].phase == Completed && Rests(s, n) ==> n in s.applied && s.applied[n] == spec)
  }

  /** The status write of this step is lost without harm. */
  predicate Unneeded(s: State, l: Step, n: Name)
    requires n in s.objs
  {
    var t := s.objs[n];
    && (l.WorkerStart? ==>
          t.spec == l.seen && t.phase != Paused && (t.phase == Completed ==> t.hash == HashOf(t.spec)))
    && (l.WorkerPause? && t.phase == Completed ==>
          n in s.applied && s.applied[n] == t.spec && t.hash == HashOf(t.spec))
  }

  ghost predicate Guarded(s: State, l: Step) { forall g :: Keeps(g, s, l) }

  // ---------- the invariant ----------

  /** The worker will fetch its template again, give its item back, or pause it. */
  predicate Looking(stage: Stage) { stage.Taken? || stage.Ready? || stage.Erred? || stage.Pausing? }

  predicate Rereads(s: State, n: Name) {
    exists w | w in s.workers :: s.workers[w].name == n && Looking(s.workers[w].stage)
  }

  /** A worker will fetch the template again, come what may of requests and reads. */
  predicate Strong(s: State, n: Name) { Lasting(s, n) || Rereads(s, n) }

  /** Something is on its way that will make a worker look at the stored spec of `n` again. */
  predicate Pending(s: State, n: Name) {
    n in s.events || Q.InHeap(s.q, n) || ReconPending(s, n) || Rereads(s, n)
  }

  /** While `spec` is being applied, Reconcile would react to an edit, and one since the last fetch is
      still pending. */
  ghost predicate InProgress(s: State, n: Name, spec: Spec) {
    n in s.objs ==>
      var t := s.objs[n];
      && (|| Watched(t.phase)
          || (t.phase == Failed && (t.spec == spec || Decide(t).MarkQueued?))
          || (t.phase == Completed && t.hash == HashOf(spec)))
      && (t.spec == spec || Pending(s, n))
  }

  ghost predicate TaskSound(s: State, w: nat)
    requires w in s.workers
  {
    var n := s.workers[w].name;
    match s.workers[w].stage
    case Applying(todo, read) => Lasting(s, n) || (todo == read && InProgress(s, n, todo))
    case Finishing(read) => Lasting(s, n) || (n in s.applied && s.applied[n] == read && InProgress(s, n, read))
    case _ => true
  }

  /** A worker is applying the template. */
  predicate Worked(s: State, n: Name) {
    exists w | w in s.workers :: s.workers[w].name == n && AtWork(s.workers[w].stage)
  }

  predicate AtWork(stage: Stage) { stage.Applying? || stage.Finishing? }

  /** A Completed template records the hash of what was applied, and a newer spec is pending, unless a
      worker will fetch it again anyway or is applying it. */
  ghost predicate DoneSound(s: State, n: Name)
    requires n in s.objs
  {
    s.objs[n].phase == Completed && !Strong(s, n) && !Worked(s, n) ==>
      && n in s.applied && s.objs[n].hash == HashOf(s.applied[n])
      && (s.objs[n].spec == s.applied[n] || Pending(s, n))
  }

  /** At most one worker per template is still at work. */
  ghost predicate OnePerName(workers: map<nat, Task>) {
    forall w, v | w in workers && v in workers && workers[w].name == workers[v].name
                  && workers[w].stage != Ended && workers[v].stage != Ended :: w == v
  }

  ghost predicate Sound(s: State) {
    && OnePerName(s.workers)
    && (forall w | w in s.workers :: TaskSound(s, w))
    && (forall n | n in s.objs :: DoneSound(s, n))
  }

  /** Nothing about `n` is waiting or under way. */
  ghost predicate AtRest(s: State, n: Name) {
    && n !in s.events && n !in s.recs
    && !Q.InHeap(s.q, n)
    && (forall w | w in s.workers :: s.workers[w].name != n)
  }

  // ---------- steps that concern one template ----------

  /** Nothing about `m` changed, except that more may be pending. */
  ghost predicate SameFor(s: State, s': State, m: Name) {
    && (m in s'.objs <==> m in s.objs) && (m in s.objs ==> s'.objs[m] == s.objs[m])
    && (m in s'.applied <==> m in s.applied) && (m in s.applied ==> s'.applied[m] == s.applied[m])
    && (Pending(s, m) ==> Pending(s', m)) && (Lasting(s, m) ==> Lasting(s', m)) && (Strong(s, m) ==> Strong(s', m))
    && (Worked(s, m) ==> Worked(s', m))
  }

  lemma SameKeeps(s: State, s': State, m: Name)
    requires SameFor(s, s', m)
    ensures forall spec | InProgress(s, m, spec) :: InProgress(s', m, spec)
    ensures m in s.objs && DoneSound(s, m) ==> DoneSound(s', m)
  {
  }

  /** A step that concerns only `n` keeps edits from getting lost if it does so for `n`. */
  lemma LocalStep(s: State, s': State, n: Name)
    requires Sound(s) && OnePerName(s'.workers)
    requires forall m | m != n :: SameFor(s, s', m)
    requires forall w | w in s'.workers :: s'.workers[w].name == n || (w in s.workers && s'.workers[w] == s.workers[w])
    requires forall w | w in s'.workers && s'.workers[w].name == n :: TaskSound(s', w)
    requires n in s'.objs ==> DoneSound(s', n)
    ensures Sound(s')
  {
    forall w | w in s'.workers && s'.workers[w].name != n
      ensures TaskSound(s', w)
    {
      assert TaskSound(s, w);
      SameKeeps(s, s', s.workers[w].name);
    }
    forall m | m in s'.objs && m != n
      ensures DoneSound(s', m)
    {
      assert SameFor(s, s', m) && DoneSound(s, m);
      SameKeeps(s, s', m);
    }
  }

  /** Only requests changed, and nothing pending was lost. */
  lemma RequestsStep(s: State, s': State)
    requires Sound(s) && s'.workers == s.workers
    requires forall m :: SameFor(s, s', m)
    ensures Sound(s')
  {
    forall w | w in s'.workers
      ensures TaskSound(s', w)
    {
      assert TaskSound(s, w);
      SameKeeps(s, s', s.workers[w].name);
    }
    forall m | m in s'.objs
      ensures DoneSound(s', m)
    {
      assert SameFor(s, s', m) && DoneSound(s, m);
    }
  }

  /** Other workers keep applying their templates. */
  lemma WorkedOthers(s: State, s': State, w: nat, m: Name)
    requires w in s.workers && s.workers[w].name != m
    requires s'.workers - {w} == s.workers - {w}
    ensures Worked(s, m) ==> Worked(s', m)
  {
    if Worked(s, m) {
      var v :| v in s.workers && s.workers[v].name == m && AtWork(s.workers[v].stage);
      assert v in s.workers - {w} && v in s'.workers - {w};
      assert (s.workers - {w})[v] == s.workers[v] && (s'.workers - {w})[v] == s'.workers[v];
    }
  }

  /** Other workers keep looking at their templates. */
  lemma RereadsOthers(s: State, s': State, w: nat, m: Name)
    requires w in s.workers && s.workers[w].name != m
    requires s'.workers - {w} == s.workers - {w} && Rereads(s, m)
    ensures Rereads(s', m)
  {
    var v :| v in s.workers && s.workers[v].name == m && Looking(s.workers[v].stage);
    assert v in s.workers - {w} && v in s'.workers - {w};
    assert (s.workers - {w})[v] == s.workers[v] && (s'.workers - {w})[v] == s'.workers[v];
  }

  // ---------- users and requests ----------

  lemma UserKeeps(s: State, l: Step)
    requires Sound(s) && Enabled(s, l) && Keeps(Noticed, s, l)
    requires UserMoves(l)
    ensures Sound(Next(s, l))
  {
    var s' := Next(s, l);
    UserFrame(s, l);
    forall w | w in s'.workers && s'.workers[w].name == l.n
      ensures TaskSound(s', w)
    {
      assert TaskSound(s, w);
      if l.UserEdit? && !Lasting(s, l.n) { EditNoticed(s, l.n, l.spec, l.resume, w); }
    }
    if l.n in s'.objs && l.n in s.objs { assert DoneSound(s, l.n); }
    LocalStep(s, s', l.n);
  }

  lemma UserFrame(s: State, l: Step)
    requires Enabled(s, l) && UserMoves(l)
    ensures var s' := Next(s, l);
            && s'.workers == s.workers && s'.applied == s.applied && Pending(s', l.n)
            && (Lasting(s', l.n) <==> Lasting(s, l.n)) && (Strong(s', l.n) <==> Strong(s, l.n))
            && forall m | m != l.n :: SameFor(s, s', m)
  {
    var s' := Next(s, l);
    assert s'.workers == s.workers && s'.q == s.q && s'.recs == s.recs;
  }

  lemma EditNoticed(s: State, n: Name, spec: Spec, resume: bool, w: nat)
    requires Sound(s) && n in s.objs && w in s.workers && s.workers[w].name == n && !Lasting(s, n)
    requires Keeps(Noticed, s, UserEdit(n, spec, resume))
    ensures forall todo | Applies(s.workers[w].stage, todo) ::
              InProgress(Next(s, UserEdit(n, spec, resume)), n, todo)
  {
    assert TaskSound(s, w);
    assert Pending(Next(s, UserEdit(n, spec, resume)), n);
  }

  /** Workers apply the stored spec of `n`, and a Completed `n` has it applied: no request is needed. */
  ghost predicate Steady(s: State, n: Name) {
    n in s.objs ==>
      && (forall w, todo | w in s.workers && s.workers[w].name == n && Applies(s.workers[w].stage, todo) ::
            todo == s.objs[n].spec)
      && (s.objs[n].phase == Completed && !Worked(s, n) ==> n in s.applied && s.applied[n] == s.objs[n].spec)
  }

  /** No request is needed, or a worker will fetch the template anyway. */
  ghost predicate Fine(s: State, n: Name) { Steady(s, n) || Strong(s, n) }

  /** The request may be dropped after this read: another one is on its way, Reconcile reacts to what it
      found, or nothing is needed. */
  ghost predicate GoodRead(s: State, n: Name, read: Read, more: bool) {
    more || (read.Found? && Reacts(Decide(read.template))) || Fine(s, n)
  }

  /** What is pending and lasting after the read. */
  lemma GetPending(s: State, n: Name, read: Read, more: bool)
    requires n in s.events && n !in s.recs
    ensures var s' := NextGet(s, n, read, more);
            && s'.workers == s.workers && s'.q == s.q && s'.objs == s.objs && s'.applied == s.applied
            && (Lasting(s, n) ==> Lasting(s', n)) && (Strong(s, n) ==> Strong(s', n) && Pending(s', n))
            && (more || (read.Found? && Reacts(Decide(read.template))) ==> Pending(s', n))
            && forall m | m != n :: SameFor(s, s', m)
  {
    GetFrame(s, n, read, more);
  }

  lemma GetKeeps(s: State, n: Name, read: Read, more: bool)
    requires Sound(s) && n in s.events && n !in s.recs && GoodRead(s, n, read, more)
    ensures Sound(NextGet(s, n, read, more))
  {
    var s' := NextGet(s, n, read, more);
    GetPending(s, n, read, more);
    forall w | w in s'.workers && s'.workers[w].name == n
      ensures TaskSound(s', w)
    {
      if !Pending(s', n) { SteadyTask(s, s', n, w); } else { assert TaskSound(s, w); }
    }
    if n in s'.objs { assert DoneSound(s, n); }
    LocalStep(s, s', n);
  }

  /** A steady template needs no request. */
  lemma SteadyTask(s: State, s': State, n: Name, w: nat)
    requires w in s.workers && s.workers[w].name == n && TaskSound(s, w) && Steady(s, n) && !Lasting(s, n)
    requires s'.workers == s.workers && s'.objs == s.objs && s'.applied == s.applied
    ensures TaskSound(s', w)
  {
    var stage := s.workers[w].stage;
    if stage.Applying? {
      assert Applies(stage, stage.todo);
    } else if stage.Finishing? {
      assert Applies(stage, stage.read);
    }
  }

  lemma ReapplyKeeps(s: State, n: Name)
    requires Sound(s) && Enabled(s, CtrlReapply(n)) && Keeps(Settled, s, CtrlReapply(n))
    ensures Sound(Next(s, CtrlReapply(n)))
  {
    var s' := s.(applied := s.applied[n := s.recs[n].snap.spec]);
    forall w | w in s'.workers && s'.workers[w].name == n
      ensures TaskSound(s', w)
    {
      assert TaskSound(s, w);
    }
    if n in s.objs {
      assert DoneSound(s, n);
      if !Strong(s, n) && !Worked(s, n) { NobodyRests(s, n); }
    }
    LocalStep(s, s', n);
  }

  lemma NobodyRests(s: State, n: Name)
    requires !Rereads(s, n) && !Worked(s, n)
    ensures Rests(s, n)
  {
    forall w | w in s.workers && s.workers[w].name == n
      ensures s.workers[w].stage == Ended
    {
      assert !Looking(s.workers[w].stage) && !AtWork(s.workers[w].stage);
    }
  }

  /** A controller write loses nothing that is pending or lasting. */
  lemma WriteKeepsPending(s: State, n: Name, outcome: Outcome, m: Name)
    requires Enabled(s, CtrlWrite(n, outcome))
    ensures var s' := NextWrite(s, n, outcome);
            && (Pending(s, m) ==> Pending(s', m)) && (Lasting(s, m) ==> Lasting(s', m))
            && (Strong(s, m) ==> Strong(s', m))
  {
    WriteFrame(s, n, outcome);
  }

  /** A controller write that lands leaves the spec alone and either queues the template or only
      refreshes a Completed status. */
  lemma WriteChanges(s: State, n: Name)
    requires Book(s) && Sound(s) && Enabled(s, CtrlWrite(n, Outcome.Written))
    ensures Refreshed(s, s.objs[n], NextWrite(s, n, Outcome.Written).objs[n], n)
  {
    WrittenChanges(s, n);
    if s.objs[n].phase == Completed && s.objs[n].hash == NoHash { UnrecordedIsStrong(s, n); }
  }

  lemma UnrecordedIsStrong(s: State, n: Name)
    requires Sound(s) && n in s.objs && s.objs[n].phase == Completed && s.objs[n].hash == NoHash
    ensures Strong(s, n)
  {
    assert DoneSound(s, n);
    if Worked(s, n) {
      var w :| w in s.workers && s.workers[w].name == n && AtWork(s.workers[w].stage);
      assert TaskSound(s, w);
    }
  }

  predicate Refreshed(s: State, t: Template, t': Template, n: Name) {
    && t'.spec == t.spec
    && (t'.phase == Queued || (t'.phase == t.phase == Completed && (t'.hash == t.hash || Strong(s, n))))
  }

  lemma WriteKeeps(s: State, n: Name, outcome: Outcome)
    requires Book(s) && Sound(s) && Enabled(s, CtrlWrite(n, outcome))
    ensures Sound(NextWrite(s, n, outcome))
  {
    var s' := NextWrite(s, n, outcome);
    WriteFrame(s, n, outcome);
    forall m | m != n || !outcome.Written?
      ensures SameFor(s, s', m)
    {
      WriteKeepsPending(s, n, outcome, m);
    }
    if outcome.Written? {
      WriteKeepsPending(s, n, outcome, n);
      WriteChanges(s, n);
      ReplacedKeeps(s, s', n);
    } else {
      RequestsStep(s, s');
    }
  }

  /** Only the status of `n` was replaced, that way, and nothing pending was lost. */
  lemma ReplacedKeeps(s: State, s': State, n: Name)
    requires Sound(s) && s'.workers == s.workers && s'.applied == s.applied && n in s.objs && n in s'.objs
    requires Refreshed(s, s.objs[n], s'.objs[n], n)
    requires forall m | m != n :: SameFor(s, s', m)
    requires Pending(s, n) ==> Pending(s', n)
    requires (Lasting(s, n) ==> Lasting(s', n)) && (Strong(s, n) ==> Strong(s', n))
    ensures Sound(s')
  {
    assert DoneSound(s, n);
    forall w | w in s'.workers && s'.workers[w].name == n
      ensures TaskSound(s', w)
    {
      assert TaskSound(s, w);
    }
    LocalStep(s, s', n);
  }

  lemma EnqueueKeeps(s: State, n: Name, id: nat, t0: int, t1: int)
    requires Book(s) && Sound(s) && id !in s.q.queued
    ensures Sound(s.(q := Q.Enqueue(s.q, n, 0, t0, t1, id), recs := s.recs - {n}))
  {
    var s' := s.(q := Q.Enqueue(s.q, n, 0, t0, t1, id), recs := s.recs - {n});
    forall m
      ensures SameFor(s, s', m)
    {
      EnqueueSame(s, n, id, t0, t1, m);
    }
    RequestsStep(s, s');
  }

  lemma EnqueueSame(s: State, n: Name, id: nat, t0: int, t1: int, m: Name)
    requires Q.Inv(s.q) && id !in s.q.queued
    ensures SameFor(s, s.(q := Q.Enqueue(s.q, n, 0, t0, t1, id), recs := s.recs - {n}), m)
  {
    var q := Q.Enqueue(s.q, n, 0, t0, t1, id);
    if m == n || Q.InHeap(s.q, m) { EnqueueCovers(s.q, n, t0, t1, id, m); }
    HeapSame(s, q, n, m);
  }

  lemma HeapSame(s: State, q: Q.Queue<nat>, n: Name, m: Name)
    requires m == n || Q.InHeap(s.q, m) ==> Q.InHeap(q, m)
    ensures SameFor(s, s.(q := q, recs := s.recs - {n}), m)
  {
  }

  // ---------- workers ----------

  /** The cluster after worker `w` has taken the item. */
  ghost function Took(s: State, w: nat, item: nat): State
    requires item in s.q.queued
  {
    s.(q := Q.Dequeue(s.q, item), workers := s.workers[w := Task(item, s.q.queued[item].name, Taken)])
  }

  lemma TakeSame(s: State, w: nat, item: nat, m: Name)
    requires w !in s.workers && item in s.q.queued && m != s.q.queued[item].name
    ensures SameFor(s, Took(s, w, item), m)
  {
    var s' := Took(s, w, item);
    if Q.InHeap(s.q, m) { DequeueCovers(s.q, item, m); }
    forall v | v in s.workers
      ensures v in s'.workers && s'.workers[v] == s.workers[v]
    {
    }
  }

  lemma TakeKeeps(s: State, w: nat, item: nat)
    requires Sound(s) && w !in s.workers && item in s.q.queued
    requires forall v | v in s.workers && s.workers[v].name == s.q.queued[item].name :: s.workers[v].stage == Ended
    ensures Sound(Took(s, w, item))
  {
    var n := s.q.queued[item].name;
    var s' := Took(s, w, item);
    assert w in s'.workers && s'.workers[w].name == n && Looking(s'.workers[w].stage);
    forall m | m != n
      ensures SameFor(s, s', m)
    {
      TakeSame(s, w, item, m);
    }
    LocalStep(s, s', n);
  }

  /** Worker `w` went on to another stage; of the objects and applied specs only its own changed, and no
      request was lost. */
  ghost predicate Moved(s: State, s': State, w: nat, stage: Stage)
    requires w in s.workers
  {
    var n := s.workers[w].name;
    && s'.workers == s.workers[w := s.workers[w].(stage := stage)]
    && s'.q == s.q && s'.recs == s.recs && s'.events == s.events
    && s'.objs.Keys == s.objs.Keys && (forall m | m in s.objs && m != n :: s'.objs[m] == s.objs[m])
    && (forall m | m != n ::
          (m in s'.applied <==> m in s.applied) && (m in s.applied ==> s'.applied[m] == s.applied[m]))
  }

  lemma MoveKeeps(s: State, s': State, w: nat, stage: Stage)
    requires Sound(s) && w in s.workers && s.workers[w].stage != Ended && Moved(s, s', w, stage)
    requires TaskSound(s', w)
    requires s.workers[w].name in s'.objs ==> DoneSound(s', s.workers[w].name)
    ensures Sound(s')
  {
    var n := s.workers[w].name;
    forall m | m != n
      ensures SameFor(s, s', m)
    {
      if Rereads(s, m) { RereadsOthers(s, s', w, m); }
      WorkedOthers(s, s', w, m);
    }
    LocalStep(s, s', n);
  }

  /** The worker will look again, or its object is gone. */
  lemma LookKeeps(s: State, w: nat, stage: Stage)
    requires Sound(s) && w in s.workers && s.workers[w].stage != Ended
    requires Looking(stage) || (stage == Ended && s.workers[w].name !in s.objs)
    ensures Sound(Advance(s, w, stage))
  {
    var s' := Advance(s, w, stage);
    assert Looking(stage) ==>
             w in s'.workers && s'.workers[w].name == s.workers[w].name && Looking(s'.workers[w].stage);
    MoveKeeps(s, s', w, stage);
  }

  /** A status write takes the template out of Completed, and the worker moves on. */
  lemma PhaseKeeps(s: State, w: nat, phase: Phase, stage: Stage)
    requires Sound(s) && w in s.workers && s.workers[w].stage != Ended && s.workers[w].name in s.objs
    requires phase != Completed && !stage.Finishing?
    requires stage.Applying? ==>
               || Lasting(s, s.workers[w].name)
               || var spec := s.objs[s.workers[w].name].spec;
                  stage == Applying(spec, spec) && (Watched(phase) || phase == Failed)
    ensures Sound(Advance(SetPhase(s, w, true, phase), w, stage))
  {
    MoveKeeps(s, Advance(SetPhase(s, w, true, phase), w, stage), w, stage);
  }

  lemma StartKeeps(s: State, w: nat, ok: bool, seen: Spec)
    requires Sound(s) && Enabled(s, WorkerStart(w, ok, seen)) && Keeps(Guard.Written, s, WorkerStart(w, ok, seen))
    ensures Sound(Next(s, WorkerStart(w, ok, seen)))
  {
    if ok {
      var spec := s.objs[s.workers[w].name].spec;
      PhaseKeeps(s, w, Processing, Applying(spec, spec));
    } else {
      MoveKeeps(s, Advance(s, w, Applying(seen, seen)), w, Applying(seen, seen));
    }
  }

  lemma RejectKeeps(s: State, w: nat, ok: bool, seen: Spec)
    requires Sound(s) && Enabled(s, WorkerReject(w, ok, seen)) && Keeps(Current, s, WorkerReject(w, ok, seen))
    ensures Sound(Next(s, WorkerReject(w, ok, seen)))
  {
    assert TaskSound(s, w);
    var todo, n := s.workers[w].stage.todo, s.workers[w].name;
    if ok {
      PhaseKeeps(s, w, Failed, Applying(todo, s.objs[n].spec));
    } else {
      var s' := Advance(s, w, Applying(todo, seen));
      if n in s.objs { assert DoneSound(s, n); }
      if Pending(s, n) { StillPending(s, s', w, Applying(todo, seen)); }
      MoveKeeps(s, s', w, Applying(todo, seen));
    }
  }

  /** A worker that was not looking loses no request of its template by going on: it is alone on it. */
  lemma StillPending(s: State, s': State, w: nat, stage: Stage)
    requires OnePerName(s.workers) && w in s.workers && Moved(s, s', w, stage)
    requires s.workers[w].stage != Ended && !Looking(s.workers[w].stage)
    requires Pending(s, s.workers[w].name)
    ensures Pending(s', s.workers[w].name)
  {
    assert !Rereads(s, s.workers[w].name);
  }

  lemma LoopDoneKeeps(s: State, w: nat)
    requires Sound(s) && Enabled(s, WorkerLoopDone(w))
    ensures Sound(Next(s, WorkerLoopDone(w)))
  {
    assert TaskSound(s, w);
    var s' := Next(s, WorkerLoopDone(w));
    var stage := s'.workers[w].stage;
    if Pending(s, s.workers[w].name) { StillPending(s, s', w, stage); }
    MoveKeeps(s, s', w, stage);
  }

  lemma CompleteKeeps(s: State, w: nat)
    requires Sound(s) && Enabled(s, WorkerComplete(w, true))
    ensures Sound(Next(s, WorkerComplete(w, true)))
  {
    assert TaskSound(s, w);
    var s' := Next(s, WorkerComplete(w, true));
    if Pending(s, s.workers[w].name) { StillPending(s, s', w, Ended); }
    MoveKeeps(s, s', w, Ended);
  }

  lemma PauseKeeps(s: State, w: nat, ok: bool)
    requires Sound(s) && Enabled(s, WorkerPause(w, ok)) && Keeps(Guard.Written, s, WorkerPause(w, ok))
    ensures Sound(Next(s, WorkerPause(w, ok)))
  {
    if ok {
      PhaseKeeps(s, w, Paused, Ended);
    } else {
      MoveKeeps(s, Next(s, WorkerPause(w, ok)), w, Ended);
    }
  }

  lemma LeaveSame(s: State, w: nat, q: Q.Queue<nat>, m: Name)
    requires w in s.workers && (Q.InHeap(s.q, m) ==> Q.InHeap(q, m)) && !AtWork(s.workers[w].stage)
    requires s.workers[w].stage == Ended || s.workers[w].name != m || Q.InHeap(q, m)
    ensures SameFor(s, Leave(s, w, q), m)
  {
    var s' := Leave(s, w, q);
    forall v | v in s.workers && v != w
      ensures v in s'.workers && s'.workers[v] == s.workers[v]
    {
    }
  }

  /** Worker `w` leaves; what was pending still is. */
  lemma LeaveKeeps(s: State, w: nat, q: Q.Queue<nat>)
    requires Sound(s) && w in s.workers
    requires forall m | Q.InHeap(s.q, m) :: Q.InHeap(q, m)
    requires s.workers[w].stage == Ended || (s.workers[w].stage == Erred && Q.InHeap(q, s.workers[w].name))
    ensures Sound(Leave(s, w, q))
  {
    var s' := Leave(s, w, q);
    forall m
      ensures SameFor(s, s', m)
    {
      LeaveSame(s, w, q, m);
    }
    forall v | v in s'.workers
      ensures TaskSound(s', v)
    {
      assert s'.workers[v] == s.workers[v] && TaskSound(s, v);
      SameKeeps(s, s', s.workers[v].name);
    }
    forall m | m in s'.objs
      ensures DoneSound(s', m)
    {
      assert SameFor(s, s', m) && DoneSound(s, m);
    }
  }

  lemma FailKeeps(s: State, w: nat, now: int)
    requires Book(s) && Sound(s) && Enabled(s, WorkerFail(w, now))
    ensures Sound(Next(s, WorkerFail(w, now)))
  {
    var item := s.workers[w].item;
    if WorkerPauses(s.q.cfg, s.q.held[item].budget) {
      LookKeeps(s, w, Pausing);
    } else {
      var q := Q.Requeue(s.q, item, now);
      forall m | m == s.workers[w].name || Q.InHeap(s.q, m)
        ensures Q.InHeap(q, m)
      {
        RequeueCovers(s.q, item, now, m);
      }
      LeaveKeeps(s, w, q);
    }
  }

  lemma WritingKeeps(s: State, l: Step)
    requires Sound(s) && Enabled(s, l) && Guarded(s, l)
    requires l.WorkerStart? || l.WorkerReject? || l.WorkerHardFail? || l.WorkerComplete? || l.WorkerPause?
    ensures Sound(Next(s, l))
  {
    match l
    case WorkerStart(w, ok, seen) => StartKeeps(s, w, ok, seen);
    case WorkerReject(w, ok, seen) => RejectKeeps(s, w, ok, seen);
    case WorkerHardFail(w, ok) =>
      if ok { PhaseKeeps(s, w, Failed, Erred); } else { LookKeeps(s, w, Erred); }
    case WorkerComplete(w, ok) =>
      if ok { CompleteKeeps(s, w); } else { LookKeeps(s, w, Erred); }
    case WorkerPause(w, ok) => PauseKeeps(s, w, ok);
  }

  lemma WorkerKeeps(s: State, l: Step)
    requires Book(s) && Sound(s) && Enabled(s, l) && Guarded(s, l)
    requires l.WorkerTake? || l.WorkerGet? || l.WorkerLoopDone? || l.WorkerFail? || l.WorkerDone?
    ensures Sound(Next(s, l))
  {
    match l
    case WorkerTake(w, item, _) =>
      assert Keeps(Alone, s, l);
      TakeKeeps(s, w, item);
    case WorkerGet(w, ok) =>
      LookKeeps(s, w, if !ok then Erred else if s.workers[w].name in s.objs then Ready else Ended);
    case WorkerLoopDone(w) => LoopDoneKeeps(s, w);
    case WorkerFail(w, now) => FailKeeps(s, w, now);
    case WorkerDone(w) => LeaveKeeps(s, w, Q.Done(s.q, s.workers[w].item));
  }

  /** Every guarded step keeps edits from getting lost, whatever the number of workers. */
  lemma StepKeepsSound(s: State, l: Step)
    requires Book(s) && Sound(s) && Enabled(s, l) && Guarded(s, l)
    requires l.CtrlGet? ==> GoodRead(s, l.n, l.read, l.more)
    ensures Sound(Next(s, l))
  {
    if UserMoves(l) {
      UserKeeps(s, l);
    } else if l.CtrlGet? {
      GetKeeps(s, l.n, l.read, l.more);
    } else if l.CtrlWrite? {
      WriteKeeps(s, l.n, l.outcome);
    } else if l.CtrlReapply? {
      ReapplyKeeps(s, l.n);
    } else if l.CtrlEnqueue? {
      EnqueueKeeps(s, l.n, l.id, l.t0, l.t1);
    } else if l.WorkerTake? || l.WorkerGet? || l.WorkerLoopDone? || l.WorkerFail? || l.WorkerDone? {
      WorkerKeeps(s, l);
    } else if !l.WorkerSkip? {
      WritingKeeps(s, l);
    }
  }

  // ---------- reads that lag behind ----------

  predicate Changes(l: Step, n: Name) { (l.UserCreate? || l.UserEdit? || l.UserDelete?) && l.n == n }

  function Lookup(s: State, n: Name): Read { if n in s.objs then Found(s.objs[n]) else NotFound }

  /** The Reconcile that reads at step `k` gets the object as it was at step `i`, and no user has changed
      it since; its status may be older than the stored one. */
  ghost predicate ReadsFrom(trace: seq<State>, ls: seq<Step>, k: nat, i: nat)
    requires |trace| == |ls| + 1 && k < |ls|
  {
    && i <= k && ls[k].CtrlGet? && ls[k].read == Lookup(trace[i], ls[k].n)
    && forall j | i <= j < k :: !Changes(ls[j], ls[k].n)
  }

  /** What a watch guarantees: a Reconcile whose read has not seen the last change by a user is not the
      last one, since the event of that change is still to come. */
  ghost predicate SeesEdits(trace: seq<State>, ls: seq<Step>, k: nat)
    requires |trace| == |ls| + 1 && k < |ls|
  {
    ls[k].CtrlGet? && !ls[k].more ==> exists i: nat :: ReadsFrom(trace, ls, k, i)
  }

  /** A template to which Reconcile would not react is fine. */
  lemma FineIfIdle(s: State, n: Name)
    requires Sound(s) && (n in s.objs ==> !Reacts(Decide(s.objs[n])))
    ensures Fine(s, n)
  {
    if n in s.objs && !Strong(s, n) {
      assert DoneSound(s, n);
      forall w, todo | w in s.workers && s.workers[w].name == n && Applies(s.workers[w].stage, todo)
        ensures todo == s.objs[n].spec
      {
        assert TaskSound(s, w);
      }
    }
  }

  lemma SteadyWrite(s: State, m: Name, outcome: Outcome, n: Name)
    requires Book(s) && Enabled(s, CtrlWrite(m, outcome)) && Steady(s, n)
    ensures Steady(NextWrite(s, m, outcome), n)
  {
    if m == n && outcome.Written? { WrittenChanges(s, n); }
    WriteFrame(s, m, outcome);
    SteadyStatus(s, NextWrite(s, m, outcome), n);
  }

  /** Nothing but the status of `n` changed, and it did not become Completed. */
  lemma SteadyStatus(s: State, s': State, n: Name)
    requires Steady(s, n) && s'.workers == s.workers && s'.applied == s.applied && s'.objs.Keys == s.objs.Keys
    requires n in s.objs ==> s'.objs[n].spec == s.objs[n].spec
    requires n in s.objs && s'.objs[n].phase == Completed ==> s.objs[n].phase == Completed
    ensures Steady(s', n)
  {
  }

  /** Worker `w`, not on `n`, went on. */
  lemma FineElsewhere(s: State, s': State, w: nat, stage: Stage, n: Name)
    requires w in s.workers && Moved(s, s', w, stage) && Fine(s, n) && s.workers[w].name != n
    ensures Fine(s', n)
  {
    if Rereads(s, n) { RereadsOthers(s, s', w, n); }
    WorkedOthers(s, s', w, n);
    if Steady(s, n) && n in s'.objs {
      forall v, todo | v in s'.workers && s'.workers[v].name == n && Applies(s'.workers[v].stage, todo)
        ensures todo == s'.objs[n].spec
      {
        assert v != w && s'.workers[v] == s.workers[v];
      }
    }
  }

  /** Worker `w`, alone at work on `n`, went on: it will look again, or applies the stored spec or none. */
  lemma FineHere(s: State, s': State, w: nat, stage: Stage, n: Name)
    requires OnePerName(s.workers) && w in s.workers && s.workers[w].stage != Ended && Moved(s, s', w, stage)
    requires s.workers[w].name == n
    requires Looking(stage) || Lasting(s, n) || n !in s'.objs ||
             (&& (forall todo | Applies(stage, todo) :: todo == s'.objs[n].spec)
              && (s'.objs[n].phase == Completed && !AtWork(stage) ==>
                    n in s'.applied && s'.applied[n] == s'.objs[n].spec))
    ensures Fine(s', n)
  {
    if Looking(stage) {
      assert w in s'.workers && s'.workers[w].name == n && Looking(s'.workers[w].stage);
    } else if !Lasting(s, n) && n in s'.objs {
      assert forall v | v in s'.workers && v != w && s'.workers[v].name == n :: s'.workers[v].stage == Ended;
      assert AtWork(stage) ==> w in s'.workers && s'.workers[w].name == n && AtWork(s'.workers[w].stage);
    }
  }

  /** A worker that applies its template is fine only if it applies the stored spec, or by what lasts. */
  lemma FineApplies(s: State, w: nat, todo: Spec)
    requires Sound(s) && w in s.workers && s.workers[w].stage != Ended && Applies(s.workers[w].stage, todo)
    requires Fine(s, s.workers[w].name) && !Lasting(s, s.workers[w].name) && s.workers[w].name in s.objs
    ensures todo == s.objs[s.workers[w].name].spec
    ensures s.workers[w].stage.Finishing? ==>
              s.workers[w].name in s.applied && s.applied[s.workers[w].name] == todo
  {
    assert TaskSound(s, w);
    assert !Rereads(s, s.workers[w].name);
  }

  lemma FineStart(s: State, w: nat, ok: bool, seen: Spec, n: Name)
    requires Sound(s) && Enabled(s, WorkerStart(w, ok, seen)) && Keeps(Guard.Written, s, WorkerStart(w, ok, seen))
    requires Fine(s, n)
    ensures Fine(Next(s, WorkerStart(w, ok, seen)), n)
  {
    var s' := Next(s, WorkerStart(w, ok, seen));
    var stage := s'.workers[w].stage;
    if s.workers[w].name == n { FineHere(s, s', w, stage, n); } else { FineElsewhere(s, s', w, stage, n); }
  }

  lemma FinePause(s: State, w: nat, ok: bool, n: Name)
    requires Sound(s) && Enabled(s, WorkerPause(w, ok)) && Keeps(Guard.Written, s, WorkerPause(w, ok)) && Fine(s, n)
    ensures Fine(Next(s, WorkerPause(w, ok)), n)
  {
    var s' := Next(s, WorkerPause(w, ok));
    if s.workers[w].name == n { FineHere(s, s', w, Ended, n); } else { FineElsewhere(s, s', w, Ended, n); }
  }

  lemma FineReject(s: State, w: nat, ok: bool, seen: Spec, n: Name)
    requires Sound(s) && Enabled(s, WorkerReject(w, ok, seen)) && Fine(s, n)
    ensures Fine(Next(s, WorkerReject(w, ok, seen)), n)
  {
    var s' := Next(s, WorkerReject(w, ok, seen));
    var stage := s'.workers[w].stage;
    if s.workers[w].name != n {
      FineElsewhere(s, s', w, stage, n);
    } else {
      if n in s.objs && !Lasting(s, n) { FineApplies(s, w, s.workers[w].stage.todo); }
      FineHere(s, s', w, stage, n);
    }
  }

  lemma FineHardFail(s: State, w: nat, ok: bool, n: Name)
    requires Sound(s) && Enabled(s, WorkerHardFail(w, ok)) && Fine(s, n)
    ensures Fine(Next(s, WorkerHardFail(w, ok)), n)
  {
    var s' := Next(s, WorkerHardFail(w, ok));
    if s.workers[w].name == n { FineHere(s, s', w, Erred, n); } else { FineElsewhere(s, s', w, Erred, n); }
  }

  lemma FineFinish(s: State, l: Step, n: Name)
    requires Sound(s) && Enabled(s, l) && Fine(s, n) && (l.WorkerLoopDone? || l.WorkerComplete?)
    ensures Fine(Next(s, l), n)
  {
    var s' := Next(s, l);
    var stage := s.workers[l.w].stage;
    if s.workers[l.w].name != n {
      FineElsewhere(s, s', l.w, s'.workers[l.w].stage, n);
    } else {
      if !Lasting(s, n) {
        if stage.Applying? { ReadIsTodo(s, l.w); }
        if n in s.objs { FineApplies(s, l.w, stage.read); }
      }
      FineHere(s, s', l.w, s'.workers[l.w].stage, n);
    }
  }

  lemma ReadIsTodo(s: State, w: nat)
    requires Sound(s) && w in s.workers && s.workers[w].stage.Applying? && !Lasting(s, s.workers[w].name)
    ensures s.workers[w].stage.read == s.workers[w].stage.todo
  {
    assert TaskSound(s, w);
  }

  lemma WorkedCall(s: State, l: Step, n: Name)
    requires Enabled(s, l) && CallsQueue(l) && Worked(s, n)
    ensures Worked(Next(s, l), n)
  {
    var v :| v in s.workers && s.workers[v].name == n && AtWork(s.workers[v].stage);
    assert v in Next(s, l).workers && Next(s, l).workers[v] == s.workers[v];
  }

  lemma SteadyCall(s: State, l: Step, n: Name)
    requires Enabled(s, l) && Steady(s, n) && CallsQueue(l)
    ensures Steady(Next(s, l), n)
  {
    var s' := Next(s, l);
    CallFrame(s, l);
    if Worked(s, n) { WorkedCall(s, l, n); }
    forall v, todo | v in s'.workers && s'.workers[v].name == n && Applies(s'.workers[v].stage, todo)
      ensures v in s.workers && s.workers[v].name == n && Applies(s.workers[v].stage, todo)
    {
    }
  }

  lemma StrongTake(s: State, w: nat, item: nat, now: int, n: Name)
    requires Enabled(s, WorkerTake(w, item, now)) && Strong(s, n)
    ensures Strong(Next(s, WorkerTake(w, item, now)), n)
  {
    var s' := Next(s, WorkerTake(w, item, now));
    if s.q.queued[item].name == n {
      assert w in s'.workers && s'.workers[w].name == n && Looking(s'.workers[w].stage);
    } else if Q.InHeap(s.q, n) {
      DequeueCovers(s.q, item, n);
    } else if Rereads(s, n) {
      var v :| v in s.workers && s.workers[v].name == n && Looking(s.workers[v].stage);
      assert v in s'.workers && s'.workers[v] == s.workers[v];
    }
  }

  lemma StrongLeave(s: State, w: nat, q: Q.Queue<nat>, n: Name)
    requires w in s.workers && Strong(s, n) && (Q.InHeap(s.q, n) ==> Q.InHeap(q, n))
    requires s.workers[w].stage == Ended || s.workers[w].name != n || Q.InHeap(q, n)
    ensures Strong(Leave(s, w, q), n)
  {
    var s' := Leave(s, w, q);
    if !Q.InHeap(q, n) && Rereads(s, n) {
      var v :| v in s.workers && s.workers[v].name == n && Looking(s.workers[v].stage);
      assert v != w && v in s'.workers && s'.workers[v] == s.workers[v];
    }
  }

  lemma StrongFail(s: State, w: nat, now: int, n: Name)
    requires Book(s) && Enabled(s, WorkerFail(w, now)) && Strong(s, n)
    ensures Strong(Next(s, WorkerFail(w, now)), n)
  {
    var s', item := Next(s, WorkerFail(w, now)), s.workers[w].item;
    if !WorkerPauses(s.q.cfg, s.q.held[item].budget) {
      if n == s.workers[w].name || Q.InHeap(s.q, n) { RequeueCovers(s.q, item, now, n); }
      StrongLeave(s, w, Q.Requeue(s.q, item, now), n);
    } else if Rereads(s, n) {
      var v :| v in s.workers && s.workers[v].name == n && Looking(s.workers[v].stage);
      assert v in s'.workers && s'.workers[v].name == n && Looking(s'.workers[v].stage);
    }
  }

  lemma StrongCall(s: State, l: Step, n: Name)
    requires Book(s) && Enabled(s, l) && Strong(s, n) && CallsQueue(l)
    ensures Strong(Next(s, l), n)
  {
    match l
    case CtrlEnqueue(m, id, t0, t1) => EnqueueSame(s, m, id, t0, t1, n);
    case WorkerTake(w, item, now) => StrongTake(s, w, item, now, n);
    case WorkerFail(w, now) => StrongFail(s, w, now, n);
    case WorkerDone(w) => StrongLeave(s, w, Q.Done(s.q, s.workers[w].item), n);
  }

  lemma FineOther(s: State, l: Step, n: Name)
    requires Enabled(s, l) && Fine(s, n) && !Changes(l, n)
    requires UserMoves(l) || l.CtrlGet? || l.WorkerSkip?
    ensures Fine(Next(s, l), n)
  {
    var s' := Next(s, l);
    assert s'.workers == s.workers && s'.applied == s.applied && s'.q == s.q;
    assert (n in s'.objs <==> n in s.objs) && (n in s.objs ==> s'.objs[n] == s.objs[n]);
    assert Lasting(s, n) ==> Lasting(s', n);
  }

  lemma FineReapply(s: State, m: Name, n: Name)
    requires Enabled(s, CtrlReapply(m)) && Keeps(Settled, s, CtrlReapply(m)) && Fine(s, n)
    ensures Fine(Next(s, CtrlReapply(m)), n)
  {
    var s' := s.(applied := s.applied[m := s.recs[m].snap.spec]);
    assert Strong(s', n) <==> Strong(s, n);
    assert Worked(s', n) <==> Worked(s, n);
    if m == n && !Strong(s, n) && !Worked(s, n) { NobodyRests(s, n); }
  }

  lemma FineWorker(s: State, l: Step, n: Name)
    requires Sound(s) && Enabled(s, l) && Keeps(Guard.Written, s, l) && Fine(s, n) && WorkerMoves(l) && !l.WorkerSkip?
    ensures Fine(Next(s, l), n)
  {
    if l.WorkerStart? {
      FineStart(s, l.w, l.ok, l.seen, n);
    } else if l.WorkerPause? {
      FinePause(s, l.w, l.ok, n);
    } else if l.WorkerGet? {
      FineGet(s, l.w, l.ok, n);
    } else if l.WorkerReject? {
      FineReject(s, l.w, l.ok, l.seen, n);
    } else if l.WorkerHardFail? {
      FineHardFail(s, l.w, l.ok, n);
    } else {
      FineFinish(s, l, n);
    }
  }

  lemma FineGet(s: State, w: nat, ok: bool, n: Name)
    requires Sound(s) && Enabled(s, WorkerGet(w, ok)) && Fine(s, n)
    ensures Fine(Next(s, WorkerGet(w, ok)), n)
  {
    var s' := Next(s, WorkerGet(w, ok));
    var stage := s'.workers[w].stage;
    if s.workers[w].name == n { FineHere(s, s', w, stage, n); } else { FineElsewhere(s, s', w, stage, n); }
  }

  /** A template that is fine stays so until a user changes it. */
  lemma FineStep(s: State, l: Step, n: Name)
    requires Book(s) && Sound(s) && Enabled(s, l) && Guarded(s, l) && Fine(s, n) && !Changes(l, n)
    ensures Fine(Next(s, l), n)
  {
    if CallsQueue(l) {
      if Steady(s, n) { SteadyCall(s, l, n); } else { StrongCall(s, l, n); }
    } else if l.CtrlWrite? {
      if Steady(s, n) { SteadyWrite(s, l.n, l.outcome, n); } else { WriteKeepsPending(s, l.n, l.outcome, n); }
    } else if WorkerMoves(l) && !l.WorkerSkip? {
      FineWorker(s, l, n);
    } else if l.CtrlReapply? {
      FineReapply(s, l.n, n);
    } else {
      FineOther(s, l, n);
    }
  }

  // ---------- runs ----------

  /** Up to step `k` the guards are kept and the controller sees edits. */
  ghost predicate Careful(trace: seq<State>, ls: seq<Step>, k: nat)
    requires |trace| == |ls| + 1 && k <= |ls|
  {
    forall j | 0 <= j < k :: Guarded(trace[j], ls[j]) && SeesEdits(trace, ls, j)
  }

  ghost predicate SoundTo(trace: seq<State>, k: nat)
    requires k < |trace|
  {
    forall j | 0 <= j <= k :: Sound(trace[j])
  }

  lemma FineNext(trace: seq<State>, ls: seq<Step>, j: nat, k: nat, n: Name)
    requires IsPath(trace, ls) && Book(trace[0]) && j < k < |trace| && Careful(trace, ls, k) && SoundTo(trace, k)
    requires Fine(trace[j], n) && !Changes(ls[j], n)
    ensures Fine(trace[j + 1], n)
  {
    PathKeepsBook(trace, ls, j);
    PathStep(trace, ls, j + 1);
    assert Guarded(trace[j], ls[j]) && Sound(trace[j]);
    FineStep(trace[j], ls[j], n);
  }

  lemma FineSince(trace: seq<State>, ls: seq<Step>, i: nat, k: nat, n: Name)
    requires IsPath(trace, ls) && Book(trace[0]) && i <= k < |trace| && Fine(trace[i], n)
    requires Careful(trace, ls, k) && SoundTo(trace, k)
    requires forall j | i <= j < k :: !Changes(ls[j], n)
    ensures Fine(trace[k], n)
  {
    forall j | i <= j < k && Fine(trace[j], n)
      ensures Fine(trace[j + 1], n)
    {
      FineNext(trace, ls, j, k, n);
    }
    FineAlong(trace, i, k, n);
  }

  lemma {:induction false} FineAlong(trace: seq<State>, i: nat, k: nat, n: Name)
    requires i <= k < |trace| && Fine(trace[i], n)
    requires forall j | i <= j < k && Fine(trace[j], n) :: Fine(trace[j + 1], n)
    ensures Fine(trace[k], n)
    decreases k
  {
    if i < k { FineAlong(trace, i, k - 1, n); }
  }

  /** A read that has seen the last edit is good, however old the status it found. */
  lemma EditsSeenIsGood(trace: seq<State>, ls: seq<Step>, k: nat)
    requires IsPath(trace, ls) && Book(trace[0]) && k < |ls| && ls[k].CtrlGet? && SeesEdits(trace, ls, k)
    requires Careful(trace, ls, k) && SoundTo(trace, k)
    ensures GoodRead(trace[k], ls[k].n, ls[k].read, ls[k].more)
  {
    var n := ls[k].n;
    if !ls[k].more && !(ls[k].read.Found? && Reacts(Decide(ls[k].read.template))) {
      var i: nat :| ReadsFrom(trace, ls, k, i);
      FineIfIdle(trace[i], n);
      FineSince(trace, ls, i, k, n);
    }
  }

  lemma SoundNext(trace: seq<State>, ls: seq<Step>, k: nat)
    requires IsPath(trace, ls) && Book(trace[0]) && k < |ls| && Careful(trace, ls, k + 1)
    requires SoundTo(trace, k)
    ensures Sound(trace[k + 1])
  {
    PathKeepsBook(trace, ls, k);
    PathStep(trace, ls, k + 1);
    assert Guarded(trace[k], ls[k]) && SeesEdits(trace, ls, k);
    if ls[k].CtrlGet? { EditsSeenIsGood(trace, ls, k); }
    StepKeepsSound(trace[k], ls[k]);
  }

  lemma RunKeepsSound(trace: seq<State>, ls: seq<Step>, k: nat)
    requires IsPath(trace, ls) && Book(trace[0]) && Sound(trace[0]) && k < |trace| && Careful(trace, ls, k)
    ensures Sound(trace[k])
  {
    var i := 0;
    while i < k
      invariant i <= k && SoundTo(trace, i)
    {
      SoundNext(trace, ls, i);
      i := i + 1;
    }
  }

  /** A Completed template at rest has its stored spec applied. */
  ghost predicate NothingLost(s: State, n: Name) {
    n in s.objs && s.objs[n].phase == Completed && AtRest(s, n) ==> n in s.applied && s.applied[n] == s.objs[n].spec
  }

  /** No lost edit over whole runs, with any number of workers, from every sound start. */
  lemma NoLostEdit(trace: seq<State>, ls: seq<Step>, k: nat, n: Name)
    requires IsPath(trace, ls) && Book(trace[0]) && Sound(trace[0]) && k < |trace| && Careful(trace, ls, k)
    ensures NothingLost(trace[k], n)
  {
    RunKeepsSound(trace, ls, k);
    if n in trace[k].objs { assert DoneSound(trace[k], n); }
  }

  /** A process starts with whatever objects exist, each announced by the first list, and nothing in
      flight; that is a sound start if Completed objects record the hash of what was applied. */
  function Startup(cfg: Config, objs: map<Name, Template>, applied: map<Name, Spec>, nextRv: nat): State {
    State(objs, Q.Queue(cfg, map[], map[], map[], Q.Metrics(0, 0, 0, 0, 0)), map[], map[], objs.Keys, {},
          applied, nextRv)
  }

  lemma StartupIsSound(cfg: Config, objs: map<Name, Template>, applied: map<Name, Spec>, nextRv: nat)
    requires forall n | n in objs :: objs[n].rv < nextRv
    requires forall n | n in objs && objs[n].phase == Completed :: n in applied && objs[n].hash == HashOf(applied[n])
    ensures Book(Startup(cfg, objs, applied, nextRv)) && Sound(Startup(cfg, objs, applied, nextRv))
    ensures NoStranded(Startup(cfg, objs, applied, nextRv)) <==> forall n | n in objs :: !PromisesWork(objs[n].phase)
  {
    var s := Startup(cfg, objs, applied, nextRv);
    forall n | n in objs
      ensures Pending(s, n) && !Covered(s, n)
    {
    }
  }

  /** Up to step `k` every guard except possibly `g` is kept and the controller sees edits. */
  ghost predicate CarefulBut(g: Guard, trace: seq<State>, ls: seq<Step>, k: nat)
    requires |trace| == |ls| + 1 && k <= |ls|
  {
    forall j | 0 <= j < k :: KeepsBut(g, trace[j], ls[j]) && SeesEdits(trace, ls, j)
  }

  ghost predicate KeepsBut(g: Guard, s: State, l: Step) { forall h | h != g :: Keeps(h, s, l) }

  lemma AloneCompletes(trace: seq<State>, ls: seq<Step>, k: nat)
    requires |trace| == |ls| + 1 && k <= |ls| && CarefulBut(Alone, trace, ls, k)
    requires forall j | 0 <= j < k :: Keeps(Alone, trace[j], ls[j])
    ensures Careful(trace, ls, k)
  {
    forall j | 0 <= j < k
      ensures Guarded(trace[j], ls[j])
    {
      assert KeepsBut(Alone, trace[j], ls[j]);
    }
  }

  lemma AloneIfSingleFlight(s: State, l: Step)
    requires Book(s) && Q.SingleFlight(s.q)
    ensures Keeps(Alone, s, l)
  {
    if l.WorkerTake? && l.item in s.q.queued {
      forall w | w in s.workers
        ensures s.workers[w].name != s.q.queued[l.item].name
      {
        assert s.q.held[s.workers[w].item].name == s.workers[w].name;
      }
    }
  }

  /** Several workers are no danger in runs that enqueue no name while a worker holds it. */
  lemma SingleFlightLosesNoEdit(trace: seq<State>, ls: seq<Step>, k: nat, n: Name)
    requires IsPath(trace, ls) && Book(trace[0]) && Sound(trace[0]) && Q.SingleFlight(trace[0].q)
    requires k < |trace| && CarefulBut(Alone, trace, ls, k)
    requires forall j | 0 <= j < k :: !PausedTemplates.EnqueuesHeld(trace[j], ls[j])
    ensures NothingLost(trace[k], n)
  {
    forall j | 0 <= j < k
      ensures Keeps(Alone, trace[j], ls[j])
    {
      PathKeepsBook(trace, ls, j);
      PausedTemplates.SingleFlightRun(trace, ls, j);
      AloneIfSingleFlight(trace[j], ls[j]);
    }
    AloneCompletes(trace, ls, k);
    NoLostEdit(trace, ls, k, n);
  }

  lemma OnlyWorker(trace: seq<State>, ls: seq<Step>, k: nat, w: nat)
    requires IsPath(trace, ls) && trace[0].workers.Keys <= {w} && k < |trace|
    requires forall j | 0 <= j < k && ls[j].WorkerTake? :: ls[j].w == w
    ensures trace[k].workers.Keys <= {w}
  {
    var i := 0;
    while i < k
      invariant i <= k && trace[i].workers.Keys <= {w}
    {
      i := i + 1;
      PathStep(trace, ls, i);
      WorkersFrame(trace[i - 1], ls[i - 1]);
    }
  }

  lemma WorkersFrame(s: State, l: Step)
    requires Enabled(s, l)
    ensures Next(s, l).workers.Keys <= s.workers.Keys + if l.WorkerTake? then {l.w} else {}
  {
  }

  /** A single worker is no danger either. */
  lemma OneWorkerLosesNoEdit(trace: seq<State>, ls: seq<Step>, k: nat, w: nat, n: Name)
    requires IsPath(trace, ls) && Book(trace[0]) && Sound(trace[0]) && trace[0].workers.Keys <= {w}
    requires k < |trace| && CarefulBut(Alone, trace, ls, k)
    requires forall j | 0 <= j < k && ls[j].WorkerTake? :: ls[j].w == w
    ensures NothingLost(trace[k], n)
  {
    forall j | 0 <= j < k
      ensures Keeps(Alone, trace[j], ls[j])
    {
      OnlyWorker(trace, ls, j, w);
      PathStep(trace, ls, j + 1);
    }
    AloneCompletes(trace, ls, k);
    NoLostEdit(trace, ls, k, n);
  }

  /** One worker, no refusals, and status writes that land whenever the object exists; a drift pass
      applies what is applied already or will be applied over. */
  ghost predicate Orderly(s: State, l: Step, w: nat) {
    && (l.WorkerTake? ==> l.w == w) && !l.WorkerReject?
    && ((l.WorkerStart? || l.WorkerPause?) && l.w in s.workers && s.workers[l.w].name in s.objs ==> l.ok)
    && Keeps(Settled, s, l)
  }

  /** A worker that applies its template never finds it Failed. */
  ghost predicate NeverFailed(s: State) {
    forall v | v in s.workers && AtWork(s.workers[v].stage) && s.workers[v].name in s.objs ::
      s.objs[s.workers[v].name].phase != Failed
  }

  lemma OrderlyCtrl(s: State, l: Step)
    requires Book(s) && Enabled(s, l) && NeverFailed(s)
    requires UserMoves(l) || l.CtrlGet? || l.CtrlWrite? || l.CtrlReapply?
    ensures NeverFailed(Next(s, l))
  {
    if l.CtrlWrite? {
      WriteFrame(s, l.n, l.outcome);
      if l.outcome.Written? { WrittenChanges(s, l.n); }
    } else if l.CtrlGet? {
      GetFrame(s, l.n, l.read, l.more);
    } else {
      assert Next(s, l).workers == s.workers;
    }
  }

  lemma OrderlyWorker(s: State, l: Step, w: nat)
    requires Enabled(s, l) && NeverFailed(s) && s.workers.Keys <= {w} && Orderly(s, l, w)
    requires WorkerMoves(l) || CallsQueue(l)
    ensures NeverFailed(Next(s, l))
  {
  }

  lemma OrderlyStep(s: State, l: Step, w: nat)
    requires Book(s) && Enabled(s, l) && NeverFailed(s) && s.workers.Keys <= {w} && Orderly(s, l, w)
    ensures NeverFailed(Next(s, l)) && Guarded(s, l)
  {
    if WorkerMoves(l) || CallsQueue(l) { OrderlyWorker(s, l, w); } else { OrderlyCtrl(s, l); }
  }

  /** One worker without refusals and without lost writes loses no edit, whatever users, controller and
      watch do: from every sound start without workers. */
  lemma OrderlyRunLosesNoEdit(trace: seq<State>, ls: seq<Step>, k: nat, w: nat, n: Name)
    requires IsPath(trace, ls) && Book(trace[0]) && Sound(trace[0]) && trace[0].workers == map[] && k < |trace|
    requires forall j | 0 <= j < k :: Orderly(trace[j], ls[j], w) && SeesEdits(trace, ls, j)
    ensures NothingLost(trace[k], n)
  {
    var i := 0;
    while i < k
      invariant i <= k && NeverFailed(trace[i]) && forall j | 0 <= j < i :: Guarded(trace[j], ls[j])
    {
      OrderlyNext(trace, ls, i, w);
      i := i + 1;
    }
    NoLostEdit(trace, ls, k, n);
  }

  lemma OrderlyNext(trace: seq<State>, ls: seq<Step>, i: nat, w: nat)
    requires IsPath(trace, ls) && Book(trace[0]) && trace[0].workers == map[] && i < |ls| && NeverFailed(trace[i])
    requires forall j | 0 <= j <= i :: Orderly(trace[j], ls[j], w)
    ensures NeverFailed(trace[i + 1]) && Guarded(trace[i], ls[i])
  {
    PathKeepsBook(trace, ls, i);
    PathStep(trace, ls, i + 1);
    OnlyWorker(trace, ls, i, w);
    OrderlyStep(trace[i], ls[i], w);
  }
}
