/** Concrete runs of the phase protocol that show why the assumptions of the safety theorems are
    needed: for each guard of module LostEdits a run that keeps all the others and loses an edit, a run
    in which a lost pause strands a template, and one in which a pending Reconcile queues a paused one. */
module ProtocolExamples {
  import opened Common
  import opened Backoff
  import opened Protocol
  import opened StrandedTemplates
  import opened LostEdits
  import opened PausedTemplates
  import Q = QueueSpec

  const N: Name := Q.NamespacedName("team", "web")

  function Job(b: Budget, at: int): Q.Item { Q.Item(N, 0, b, 0, at) }

  /** A state in which `N` is the only template, up to counters and versions. */
  datatype View = View(
    spec: Spec, phase: Phase, hash: Hash,
    queued: map<nat, Q.Item>, held: map<nat, Q.Item>, byName: map<Name, nat>,
    workers: map<nat, Task>, recs: map<Name, Recon>, events: set<Name>, applied: map<Name, Spec>)

  ghost predicate Looks(s: State, v: View, cfg: Config) {
    && N in s.objs && !s.objs[N].resume && s.objs[N].rv < s.nextRv
    && s.objs[N].spec == v.spec && s.objs[N].phase == v.phase && s.objs[N].hash == v.hash
    && s.q.cfg == cfg && s.q.queued == v.queued && s.q.held == v.held && s.q.byName == v.byName
    && s.workers == v.workers && s.recs == v.recs && s.events == v.events && s.applied == v.applied
  }

  /** A run that may break the guard `broken` only, and that, if `apart`, never enqueues anything while
      a worker holds an item. */
  datatype Run = Run(cfg: Config, broken: Guard, apart: bool, trace: seq<State>, ls: seq<Step>)

  ghost predicate Apart(trace: seq<State>, ls: seq<Step>) {
    |trace| == |ls| + 1 && forall k | 0 <= k < |ls| && ls[k].CtrlEnqueue? :: trace[k].q.held == map[]
  }

  /** The run ends in a state that looks like `v`. */
  ghost predicate Reaches(r: Run, v: View) {
    && IsRun(r.cfg, r.trace, r.ls) && Looks(r.trace[|r.ls|], v, r.cfg)
    && CarefulBut(r.broken, r.trace, r.ls, |r.ls|) && (r.apart ==> Apart(r.trace, r.ls))
  }

  predicate SameKind(r: Run, r': Run) { r'.cfg == r.cfg && r'.broken == r.broken && r'.apart == r.apart }

  /** The run goes on by step `l`. */
  lemma Extend(r: Run, v: View, l: Step, v': View) returns (r': Run)
    requires Reaches(r, v)
    requires var s := r.trace[|r.ls|];
             && Enabled(s, l) && Looks(Next(s, l), v', r.cfg) && KeepsBut(r.broken, s, l)
             && (l.CtrlGet? ==> l.read == Lookup(s, l.n)) && (l.CtrlEnqueue? && r.apart ==> s.q.held == map[])
    ensures Reaches(r', v') && SameKind(r, r')
  {
    var s := r.trace[|r.ls|];
    r' := r.(trace := r.trace + [Next(s, l)], ls := r.ls + [l]);
    forall k | 0 <= k < |r'.ls|
      ensures Enabled(r'.trace[k], r'.ls[k]) && r'.trace[k + 1] == Next(r'.trace[k], r'.ls[k])
      ensures KeepsBut(r.broken, r'.trace[k], r'.ls[k])
    {
      assert r'.trace[k] == r.trace[k];
      if k < |r.ls| { assert r'.ls[k] == r.ls[k] && r'.trace[k + 1] == r.trace[k + 1]; }
    }
    forall k | 0 <= k < |r'.ls|
      ensures SeesEdits(r'.trace, r'.ls, k)
    {
      StillSeesEdits(r.trace, r.ls, Next(s, l), l, k);
    }
  }

  lemma StillSeesEdits(trace: seq<State>, ls: seq<Step>, s': State, l: Step, k: nat)
    requires |trace| == |ls| + 1 && k <= |ls|
    requires k < |ls| ==> SeesEdits(trace, ls, k)
    requires l.CtrlGet? ==> l.read == Lookup(trace[|ls|], l.n)
    ensures SeesEdits(trace + [s'], ls + [l], k)
  {
    var trace', ls' := trace + [s'], ls + [l];
    if k < |ls| && ls[k].CtrlGet? && !ls[k].more {
      var i: nat :| ReadsFrom(trace, ls, k, i);
      assert trace'[i] == trace[i];
      assert ReadsFrom(trace', ls', k, i);
    } else if k == |ls| && l.CtrlGet? {
      assert ReadsFrom(trace', ls', k, k);
    }
  }

  // ---------- one lemma per kind of step ----------

  lemma Edit(r: Run, v: View, spec: Spec) returns (r': Run, v': View)
    requires Reaches(r, v) && (r.broken == Noticed || v.phase != Failed)
    ensures Reaches(r', v') && SameKind(r, r') && v' == v.(spec := spec, events := v.events + {N})
  {
    v' := v.(spec := spec, events := v.events + {N});
    r' := Extend(r, v, UserEdit(N, spec, false), v');
  }

  /** The Reconcile in flight after it has read `t`. */
  function Reading(t: Template): map<Name, Recon> {
    match Decide(t)
    case Nothing => map[]
    case EnqueueNow => map[N := WillEnqueue]
    case _ => map[N := Deciding(t)]
  }

  /** Reconcile reads the template and goes on as `Decide` says. */
  lemma Reconcile(r: Run, v: View) returns (r': Run, v': View)
    requires Reaches(r, v) && v.events == {N} && v.recs == map[]
    ensures Reaches(r', v') && SameKind(r, r')
    ensures v' == v.(events := {}, recs := Reading(r.trace[|r.ls|].objs[N]))
  {
    var s := r.trace[|r.ls|];
    v' := v.(events := {}, recs := Reading(s.objs[N]));
    assert Looks(NextGet(s, N, Found(s.objs[N]), false), v', r.cfg);
    r' := Extend(r, v, CtrlGet(N, Found(s.objs[N]), false), v');
  }

  /** A status write of Reconcile that does not land: the template is enqueued all the same, or there was
      nothing to write. */
  lemma NotWritten(r: Run, v: View, snap: Template) returns (r': Run, v': View)
    requires Reaches(r, v) && v.recs == map[N := Deciding(snap)]
    requires Decide(snap).MarkQueued? || Decide(snap).CheckDrift?
    ensures Reaches(r', v') && SameKind(r, r')
    ensures v' == v.(recs := if Decide(snap).MarkQueued? then map[N := WillEnqueue] else map[])
  {
    v' := v.(recs := if Decide(snap).MarkQueued? then map[N := WillEnqueue] else map[]);
    assert map[N := Deciding(snap)][N := WillEnqueue] == map[N := WillEnqueue];
    assert (map[N := Deciding(snap)] - {N}) == map[];
    r' := Extend(r, v, CtrlWrite(N, if Decide(snap).MarkQueued? then Outcome.Conflict else Outcome.Skipped), v');
  }

  /** The drift pass of Reconcile applies the spec that it read. */
  lemma Reapply(r: Run, v: View, snap: Template) returns (r': Run, v': View)
    requires Reaches(r, v) && v.recs == map[N := Deciding(snap)] && Decide(snap).CheckDrift? && r.broken == Settled
    ensures Reaches(r', v') && SameKind(r, r') && v' == v.(applied := v.applied[N := snap.spec])
  {
    v' := v.(applied := v.applied[N := snap.spec]);
    r' := Extend(r, v, CtrlReapply(N), v');
  }

  lemma Enqueue(r: Run, v: View, id: nat) returns (r': Run, v': View)
    requires Reaches(r, v) && (r.apart ==> v.held == map[])
    requires v.recs == map[N := WillEnqueue] && v.byName == map[] && id !in v.queued && id !in v.held
    ensures Reaches(r', v') && SameKind(r, r')
    ensures v' == v.(recs := map[], queued := v.queued[id := Job(Budget(0, 0), 0)], byName := map[N := id])
  {
    v' := v.(recs := map[], queued := v.queued[id := Job(Budget(0, 0), 0)], byName := map[N := id]);
    assert (map[N := WillEnqueue] - {N}) == map[];
    r' := Extend(r, v, CtrlEnqueue(N, id, 0, 0), v');
  }

  lemma Take(r: Run, v: View, w: nat, id: nat, job: Q.Item) returns (r': Run, v': View)
    requires Reaches(r, v) && (r.broken == Alone || v.workers == map[])
    requires v.queued == map[id := job] && v.byName == map[N := id] && job.name == N && w !in v.workers
    ensures Reaches(r', v') && SameKind(r, r')
    ensures v' == v.(queued := map[], byName := map[], held := v.held[id := job],
                     workers := v.workers[w := Task(id, N, Taken)])
  {
    v' := v.(queued := map[], byName := map[], held := v.held[id := job],
             workers := v.workers[w := Task(id, N, Taken)]);
    assert Q.IsHead(r.trace[|r.ls|].q, id);
    assert (map[id := job] - {id}) == map[];
    assert (map[N := id] - {N}) == map[];
    r' := Extend(r, v, WorkerTake(w, id, job.scheduledAt), v');
  }

  predicate Holder(v: View, w: nat) {
    w in v.workers && v.workers[w].name == N && v.workers[w].item in v.held
  }

  function At(v: View, w: nat, stage: Stage): View
    requires w in v.workers
  {
    v.(workers := v.workers[w := v.workers[w].(stage := stage)])
  }

  lemma Fetch(r: Run, v: View, w: nat) returns (r': Run, v': View)
    requires Reaches(r, v) && Holder(v, w) && v.workers[w].stage == Taken
    ensures Reaches(r', v') && SameKind(r, r') && v' == At(v, w, Ready)
  {
    v' := At(v, w, Ready);
    r' := Extend(r, v, WorkerGet(w, true), v');
  }

  /** The worker starts to apply the stored spec; its status write lands or not. */
  lemma Start(r: Run, v: View, w: nat, ok: bool) returns (r': Run, v': View)
    requires Reaches(r, v) && Holder(v, w) && v.workers[w].stage == Ready
    requires ok || r.broken == Guard.Written
    ensures Reaches(r', v') && SameKind(r, r')
    ensures v' == At(v, w, Applying(v.spec, v.spec)).(phase := if ok then Processing else v.phase)
  {
    v' := At(v, w, Applying(v.spec, v.spec)).(phase := if ok then Processing else v.phase);
    r' := Extend(r, v, WorkerStart(w, ok, v.spec), v');
  }

  lemma Reject(r: Run, v: View, w: nat) returns (r': Run, v': View)
    requires Reaches(r, v) && Holder(v, w) && v.workers[w].stage.Applying?
    requires r.broken == Current || v.workers[w].stage.todo == v.spec
    ensures Reaches(r', v') && SameKind(r, r')
    ensures v' == At(v, w, Applying(v.workers[w].stage.todo, v.spec)).(phase := Failed)
  {
    v' := At(v, w, Applying(v.workers[w].stage.todo, v.spec)).(phase := Failed);
    r' := Extend(r, v, WorkerReject(w, true, ""), v');
  }

  lemma HardFail(r: Run, v: View, w: nat) returns (r': Run, v': View)
    requires Reaches(r, v) && Holder(v, w) && v.workers[w].stage.Applying?
    ensures Reaches(r', v') && SameKind(r, r') && v' == At(v, w, Erred).(phase := Failed)
  {
    v' := At(v, w, Erred).(phase := Failed);
    r' := Extend(r, v, WorkerHardFail(w, true), v');
  }

  lemma LoopDone(r: Run, v: View, w: nat) returns (r': Run, v': View)
    requires Reaches(r, v) && Holder(v, w) && v.workers[w].stage.Applying?
    ensures Reaches(r', v') && SameKind(r, r')
    ensures v' == At(v, w, Finishing(v.workers[w].stage.read)).(applied := v.applied[N := v.workers[w].stage.todo])
  {
    v' := At(v, w, Finishing(v.workers[w].stage.read)).(applied := v.applied[N := v.workers[w].stage.todo]);
    r' := Extend(r, v, WorkerLoopDone(w), v');
  }

  lemma Complete(r: Run, v: View, w: nat) returns (r': Run, v': View)
    requires Reaches(r, v) && Holder(v, w) && v.workers[w].stage.Finishing?
    ensures Reaches(r', v') && SameKind(r, r')
    ensures v' == At(v, w, Ended).(phase := Completed, hash := HashOf(v.workers[w].stage.read))
  {
    v' := At(v, w, Ended).(phase := Completed, hash := HashOf(v.workers[w].stage.read));
    r' := Extend(r, v, WorkerComplete(w, true), v');
  }

  /** Worker `w` has given its item back with a new budget, due after the delay. */
  function Returned(v: View, w: nat, next: Budget, delay: int): View
    requires Holder(v, w)
  {
    var i := v.workers[w].item;
    v.(queued := v.queued[i := v.held[i].(budget := next, scheduledAt := delay)], held := v.held - {i},
       byName := v.byName[N := i], workers := v.workers - {w})
  }

  lemma GiveBack(r: Run, v: View, w: nat, next: Budget, delay: int) returns (r': Run, v': View)
    requires Reaches(r, v) && Holder(v, w) && v.workers[w].stage == Erred && v.held[v.workers[w].item].name == N
    requires !WorkerPauses(r.cfg, v.held[v.workers[w].item].budget)
    requires RequeueVerdict(r.cfg, v.held[v.workers[w].item].budget) == Retry(next, delay)
    ensures Reaches(r', v') && SameKind(r, r') && v' == Returned(v, w, next, delay)
  {
    v' := Returned(v, w, next, delay);
    r' := Extend(r, v, WorkerFail(w, 0), v');
  }

  lemma BudgetUsedUp(r: Run, v: View, w: nat) returns (r': Run, v': View)
    requires Reaches(r, v) && Holder(v, w) && v.workers[w].stage == Erred
    requires WorkerPauses(r.cfg, v.held[v.workers[w].item].budget)
    ensures Reaches(r', v') && SameKind(r, r') && v' == At(v, w, Pausing)
  {
    v' := At(v, w, Pausing);
    r' := Extend(r, v, WorkerFail(w, 0), v');
  }

  lemma Pause(r: Run, v: View, w: nat, ok: bool) returns (r': Run, v': View)
    requires Reaches(r, v) && Holder(v, w) && v.workers[w].stage == Pausing && v.phase != Completed
    ensures Reaches(r', v') && SameKind(r, r') && v' == At(v, w, Ended).(phase := if ok then Paused else v.phase)
  {
    v' := At(v, w, Ended).(phase := if ok then Paused else v.phase);
    r' := Extend(r, v, WorkerPause(w, ok), v');
  }

  lemma Done(r: Run, v: View, w: nat) returns (r': Run, v': View)
    requires Reaches(r, v) && Holder(v, w) && v.workers[w].stage == Ended
    ensures Reaches(r', v') && SameKind(r, r')
    ensures v' == v.(held := v.held - {v.workers[w].item}, workers := v.workers - {w})
  {
    v' := v.(held := v.held - {v.workers[w].item}, workers := v.workers - {w});
    r' := Extend(r, v, WorkerDone(w), v');
  }

  // ---------- parts of runs ----------

  /** Create the template with spec "a" and reconcile it up to the call of Enqueue. */
  lemma Opening(cfg: Config, broken: Guard) returns (r: Run, v: View)
    ensures v == View("a", Queued, NoHash, map[], map[], map[], map[], map[N := WillEnqueue], {}, map[])
    ensures Reaches(r, v) && r.cfg == cfg && r.broken == broken && r.apart
  {
    var t := Template("a", false, New, NoHash, 0);
    var l0 := UserCreate(N, "a", false);
    var s0 := Init(cfg);
    var s1 := Next(s0, l0);
    assert s1.objs[N] == t && s1.recs == map[] && s1.events == {N};
    r := Run(cfg, broken, true, [s0, s1], [l0]);
    v := View("a", New, NoHash, map[], map[], map[], map[], map[], {N}, map[]);
    r, v := Reconcile(r, v);
    var queued := v.(phase := Queued, recs := map[N := WillEnqueue]);
    assert map[N := Deciding(t)][N := WillEnqueue] == map[N := WillEnqueue];
    r := Extend(r, v, CtrlWrite(N, Outcome.Written), queued);
    v := queued;
  }

  /** Worker `w` takes the only queued job and starts to apply the stored spec. */
  lemma Apply(r: Run, v: View, w: nat, id: nat, job: Q.Item, ok: bool) returns (r': Run, v': View)
    requires Reaches(r, v) && w !in v.workers && id !in v.held && (r.broken == Alone || v.workers == map[])
    requires v.queued == map[id := job] && v.byName == map[N := id] && job.name == N
    requires ok || r.broken == Guard.Written
    ensures Reaches(r', v') && SameKind(r, r')
    ensures v' == v.(queued := map[], byName := map[], held := v.held[id := job],
                     phase := if ok then Processing else v.phase,
                     workers := v.workers[w := Task(id, N, Applying(v.spec, v.spec))])
  {
    r', v' := Take(r, v, w, id, job);
    r', v' := Fetch(r', v', w);
    r', v' := Start(r', v', w, ok);
    assert v'.workers == v.workers[w := Task(id, N, Applying(v.spec, v.spec))];
  }

  /** From Enqueue until worker `w` applies the stored spec. */
  lemma Work(r: Run, v: View, w: nat, id: nat, ok: bool) returns (r': Run, v': View)
    requires Reaches(r, v) && w !in v.workers && id !in v.held && (r.broken == Alone || v.workers == map[])
    requires v.recs == map[N := WillEnqueue] && v.queued == map[] && v.byName == map[]
    requires (r.apart ==> v.held == map[]) && (ok || r.broken == Guard.Written)
    ensures Reaches(r', v') && SameKind(r, r')
    ensures v' == v.(recs := map[], held := v.held[id := Job(Budget(0, 0), 0)],
                     phase := if ok then Processing else v.phase,
                     workers := v.workers[w := Task(id, N, Applying(v.spec, v.spec))])
  {
    r', v' := Enqueue(r, v, id);
    r', v' := Apply(r', v', w, id, Job(Budget(0, 0), 0), ok);
  }

  /** Worker `w` finishes its loop, records completion and leaves. */
  lemma Finish(r: Run, v: View, w: nat) returns (r': Run, v': View)
    requires Reaches(r, v) && Holder(v, w) && v.workers[w].stage.Applying?
    ensures Reaches(r', v') && SameKind(r, r')
    ensures v' == v.(held := v.held - {v.workers[w].item}, workers := v.workers - {w}, phase := Completed,
                     hash := HashOf(v.workers[w].stage.read), applied := v.applied[N := v.workers[w].stage.todo])
  {
    r', v' := LoopDone(r, v, w);
    r', v' := Complete(r', v', w);
    r', v' := Done(r', v', w);
    assert v'.workers == v.workers - {w};
  }

  /** The user edits the spec and Reconcile reads it. */
  lemma EditAndReconcile(r: Run, v: View, spec: Spec) returns (r': Run, v': View)
    requires Reaches(r, v) && v.events == {} && v.recs == map[] && (r.broken == Noticed || v.phase != Failed)
    requires v.phase == Processing || (v.phase == Failed && v.hash == NoHash)
    ensures Reaches(r', v') && SameKind(r, r')
    ensures v' == v.(spec := spec, recs := if v.phase == Failed then map[] else map[N := WillEnqueue])
  {
    r', v' := Edit(r, v, spec);
    r', v' := Reconcile(r', v');
  }

  /** A run is not required to keep apart any longer. */
  lemma Relax(r: Run, v: View) returns (r': Run)
    requires Reaches(r, v)
    ensures Reaches(r', v) && r' == r.(apart := false)
  {
    r' := r.(apart := false);
  }

  // ---------- lost edits ----------

  /** The template rests Completed with one spec stored and another one applied, and the run broke no
      guard but `g`. */
  ghost predicate LosesEdit(g: Guard, cfg: Config, trace: seq<State>, ls: seq<Step>) {
    && IsRun(cfg, trace, ls) && CarefulBut(g, trace, ls, |ls|)
    && var s := trace[|ls|];
       && N in s.objs && s.objs[N].phase == Completed && AtRest(s, N)
       && N in s.applied && s.applied[N] != s.objs[N].spec
  }

  /** With two workers on one template an edit can be lost: the worker that started on the old spec
      finishes last. */
  lemma LateFinisher(cfg: Config) returns (trace: seq<State>, ls: seq<Step>)
    ensures LosesEdit(Alone, cfg, trace, ls)
  {
    var r, v := Opening(cfg, Alone);
    r := Relax(r, v);
    r, v := Work(r, v, 0, 0, true);
    r, v := EditAndReconcile(r, v, "b");
    r, v := Work(r, v, 1, 1, true);
    r, v := Finish(r, v, 1);
    r, v := Finish(r, v, 0);
    trace, ls := r.trace, r.ls;
  }

  /** One worker is not enough when a template is refused by policy: the refusal writes Failed, the
      Reconcile of the edit ignores a Failed template without a recorded hash, and the worker then
      completes the old spec. */
  lemma RefusalLosesEdit(cfg: Config) returns (trace: seq<State>, ls: seq<Step>)
    ensures LosesEdit(Noticed, cfg, trace, ls)
  {
    var r, v := Opening(cfg, Noticed);
    r, v := Work(r, v, 0, 0, true);
    r, v := Reject(r, v, 0);
    r, v := EditAndReconcile(r, v, "b");
    r, v := Finish(r, v, 0);
    trace, ls := r.trace, r.ls;
  }

  /** A refusal that finds an edit makes the worker record the hash of the new spec, although it applied
      the old one, and hides the edit from Reconcile. */
  lemma LateRefusalLosesEdit(cfg: Config) returns (trace: seq<State>, ls: seq<Step>)
    ensures LosesEdit(Current, cfg, trace, ls)
  {
    var r, v := Opening(cfg, Current);
    r, v := Work(r, v, 0, 0, true);
    r, v := Edit(r, v, "b");
    r, v := Reject(r, v, 0);
    r, v := Reconcile(r, v);
    r, v := Finish(r, v, 0);
    trace, ls := r.trace, r.ls;
  }

  /** A worker that cannot mark its template Processing leaves it Completed; an edit back to the spec
      whose hash is recorded then looks like no change, while another spec is being applied. */
  lemma UnmarkedLosesEdit(cfg: Config) returns (trace: seq<State>, ls: seq<Step>)
    ensures LosesEdit(Guard.Written, cfg, trace, ls)
  {
    var r, v := FirstRound(cfg, Guard.Written);
    r, v := Edit(r, v, "b");
    var snap := r.trace[|r.ls|].objs[N];
    r, v := Reconcile(r, v);
    r, v := Edit(r, v, "b");
    r, v := NotWritten(r, v, snap);
    r, v := Work(r, v, 0, 1, false);
    r, v := Edit(r, v, "a");
    snap := r.trace[|r.ls|].objs[N];
    r, v := Reconcile(r, v);
    r, v := NotWritten(r, v, snap);
    r, v := Finish(r, v, 0);
    trace, ls := r.trace, r.ls;
  }

  /** A Reconcile that found nothing changed applies that spec in its drift pass, after a worker has
      applied a later one. */
  lemma DriftRevertsEdit(cfg: Config) returns (trace: seq<State>, ls: seq<Step>)
    ensures LosesEdit(Settled, cfg, trace, ls)
  {
    var r, v, snap := Overtaken(cfg);
    r, v := Reapply(r, v, snap);
    r, v := NotWritten(r, v, snap);
    snap := r.trace[|r.ls|].objs[N];
    r, v := Reconcile(r, v);
    r, v := NotWritten(r, v, snap);
    trace, ls := r.trace, r.ls;
  }

  /** Reconcile has read spec "a", found nothing changed, and is at its drift pass; meanwhile a worker has
      processed spec "b". */
  lemma Overtaken(cfg: Config) returns (r: Run, v: View, snap: Template)
    ensures Reaches(r, v) && r.cfg == cfg && r.broken == Settled && snap.spec == "a" && Decide(snap).CheckDrift?
    ensures v == View("b", Completed, HashOf("b"), map[], map[], map[], map[], map[N := Deciding(snap)], {N},
                      map[N := "b"])
  {
    r, v, snap := ReadBefore(cfg);
    r, v := Apply(r, v, 0, 1, Job(Budget(0, 0), 0), true);
    r, v := Finish(r, v, 0);
    assert v.held == map[] && v.workers == map[];
  }

  /** Reconcile has read spec "a" before it is edited to "b"; an item is queued. */
  lemma ReadBefore(cfg: Config) returns (r: Run, v: View, snap: Template)
    ensures Reaches(r, v) && r.cfg == cfg && r.broken == Settled && snap.spec == "a" && Decide(snap).CheckDrift?
    ensures v == View("b", Completed, HashOf("a"), map[1 := Job(Budget(0, 0), 0)], map[], map[N := 1], map[],
                      map[N := Deciding(snap)], {N}, map[N := "a"])
  {
    r, v := QueuedUnmarked(cfg);
    snap := r.trace[|r.ls|].objs[N];
    r, v := Reconcile(r, v);
    r, v := Edit(r, v, "b");
  }

  /** An edit to "b" is queued by a Reconcile whose status write conflicts with an edit back to "a". */
  lemma QueuedUnmarked(cfg: Config) returns (r: Run, v: View)
    ensures Reaches(r, v) && r.cfg == cfg && r.broken == Settled
    ensures v == View("a", Completed, HashOf("a"), map[1 := Job(Budget(0, 0), 0)], map[], map[N := 1], map[], map[],
                      {N}, map[N := "a"])
  {
    r, v := FirstRound(cfg, Settled);
    r, v := Edit(r, v, "b");
    var snap := r.trace[|r.ls|].objs[N];
    r, v := Reconcile(r, v);
    r, v := Edit(r, v, "a");
    r, v := NotWritten(r, v, snap);
    r, v := Enqueue(r, v, 1);
  }

  /** The template with spec "a" has been processed once. */
  lemma FirstRound(cfg: Config, broken: Guard) returns (r: Run, v: View)
    ensures Reaches(r, v) && r.cfg == cfg && r.broken == broken && r.apart
    ensures v == View("a", Completed, HashOf("a"), map[], map[], map[], map[], map[], {}, map[N := "a"])
  {
    r, v := Opening(cfg, broken);
    r, v := Work(r, v, 0, 0, true);
    r, v := Finish(r, v, 0);
    assert v.held == map[] && v.workers == map[];
  }

  // ---------- pauses ----------

  /** One backoff and one cooldown make a cycle, and one cycle is all there is. */
  const SHORT: Config := Config(1, SECOND, 60 * SECOND, 1)

  /** Worker 0 is applying job 0 with budget `b` and nothing else is going on. */
  function Solo(b: Budget, at: int): View {
    View("a", Processing, NoHash, map[], map[0 := Job(b, at)], map[],
         map[0 := Task(0, N, Applying("a", "a"))], map[], {}, map[])
  }

  lemma FailsOnce(r: Run, b: Budget, at: int, next: Budget, delay: int) returns (r': Run)
    requires Reaches(r, Solo(b, at)) && !WorkerPauses(r.cfg, b) && RequeueVerdict(r.cfg, b) == Retry(next, delay)
    ensures Reaches(r', Solo(next, delay)) && SameKind(r, r')
  {
    var v;
    r', v := HardFail(r, Solo(b, at), 0);
    r', v := GiveBack(r', v, 0, next, delay);
    assert v.queued == map[0 := Job(next, delay)] && v.byName == map[N := 0] && v.held == map[] && v.workers == map[];
    r', v := Apply(r', v, 0, 0, Job(next, delay), true);
  }

  /** A run in which worker 0 is at its last attempt. */
  lemma LastAttempt() returns (r: Run)
    ensures Reaches(r, Solo(Budget(0, 1), 60 * SECOND)) && r.cfg == SHORT && r.apart
  {
    var v;
    r, v := Opening(SHORT, Alone);
    r, v := Work(r, v, 0, 0, true);
    assert v == Solo(Budget(0, 0), 0);
    var backoff := Delay(SECOND, 60 * SECOND, 1);
    r := FailsOnce(r, Budget(0, 0), 0, Budget(1, 0), backoff);
    r := FailsOnce(r, Budget(1, 0), backoff, Budget(0, 1), 60 * SECOND);
  }

  /** The last attempt fails, the worker tries to pause the template and leaves. */
  lemma Pauses(r: Run, v: View, spec: Spec, recs: map<Name, Recon>, ok: bool) returns (r': Run, v': View)
    requires Reaches(r, v) && r.cfg == SHORT && v == Solo(Budget(0, 1), 60 * SECOND).(spec := spec, recs := recs)
    ensures Reaches(r', v') && SameKind(r, r')
    ensures v' == v.(phase := if ok then Paused else Failed, held := map[], workers := map[])
  {
    r', v' := HardFail(r, v, 0);
    r', v' := BudgetUsedUp(r', v', 0);
    r', v' := Pause(r', v', 0, ok);
    r', v' := Done(r', v', 0);
    assert v'.held == map[] && v'.workers == map[];
  }

  /** A lost pause strands the template: it stays Failed and nobody will touch it again. */
  lemma LostPauseStrands() returns (trace: seq<State>, ls: seq<Step>)
    ensures IsRun(SHORT, trace, ls)
    ensures var s := trace[|ls|]; N in s.objs && s.objs[N].phase == Failed && AtRest(s, N) && !NoStranded(s)
  {
    var r := LastAttempt();
    var v;
    r, v := Pauses(r, Solo(Budget(0, 1), 60 * SECOND), "a", map[], false);
    trace, ls := r.trace, r.ls;
    assert !Covered(trace[|ls|], N);
  }

  /** A Reconcile that overlaps the worker can put a paused template back into the queue without any
      resume annotation: it reads phase Processing, the worker pauses the template and leaves, and only
      then does Reconcile call Enqueue. No name is enqueued while it is held. */
  lemma PausedButQueued() returns (trace: seq<State>, ls: seq<Step>)
    ensures IsRun(SHORT, trace, ls) && forall k | 0 <= k < |ls| :: !EnqueuesHeld(trace[k], ls[k])
    ensures var s := trace[|ls|];
            N in s.objs && s.objs[N].phase == Paused && !s.objs[N].resume && Q.InHeap(s.q, N) && s.q.held == map[]
  {
    var r := LastAttempt();
    var v;
    r, v := EditAndReconcile(r, Solo(Budget(0, 1), 60 * SECOND), "b");
    r, v := Pauses(r, v, "b", map[N := WillEnqueue], true);
    r, v := Enqueue(r, v, 1);
    trace, ls := r.trace, r.ls;
    var s := trace[|ls|];
    assert 1 in s.q.queued && s.q.queued[1].name == N;
  }
}
