/** The template phase protocol: API objects with optimistic concurrency, the controller's Reconcile,
    the work queue and any number of workers, as one step system.

    A step is one API call or one queue call; everything between two steps interleaves freely. Status
    writes of workers go through the re-fetching retry loop, so a successful one acts on the stored
    object at that instant (module StatusUpdate); writes of the controller carry the resource version
    of the object it read. */
module Protocol {
  import opened Backoff
  import Q = QueueSpec

  type Name = Q.NamespacedName
  type Spec = string   // a spec, by its serialisation

  datatype Phase = New | Queued | Processing | Completed | Failed | Paused

  /** Spec hash: injective, with an empty value that no spec hashes to. */
  datatype Hash = NoHash | HashOf(spec: Spec)

  /** A stored KubeTemplate. `resume` is the resume annotation, `rv` the resource version. */
  datatype Template = Template(spec: Spec, resume: bool, phase: Phase, hash: Hash, rv: nat)

  datatype Read = NotFound | Found(template: Template)

  /** Outcome of a status write by the controller. */
  datatype Outcome = Written | Conflict | OtherError | Skipped

  /** A Reconcile in flight: it read `snap` and is about to write, or it will call Enqueue next. */
  datatype Recon = Deciding(snap: Template) | WillEnqueue

  /** Progress of a worker on its item. `todo` is the spec whose objects it applies, `read` the spec
      it fetched last and whose hash it will record. */
  datatype Stage =
    | Taken
    | Ready
    | Applying(todo: Spec, read: Spec)
    | Finishing(read: Spec)
    | Erred
    | Pausing
    | Ended

  datatype Task = Task(item: nat, name: Name, stage: Stage)

  /** `events` are requests waiting for Reconcile, `timers` the armed periodic ones, `applied` the spec
      that a worker or a drift pass last went through completely. */
  datatype State = State(
    objs: map<Name, Template>,
    q: Q.Queue<nat>,
    workers: map<nat, Task>,
    recs: map<Name, Recon>,
    events: set<Name>,
    timers: set<Name>,
    applied: map<Name, Spec>,
    nextRv: nat)

  // ---------- what Reconcile decides ----------

  datatype Decision =
    | Nothing                  // return without a write
    | EnqueueNow               // phase Queued or Processing
    | QueueLatest              // phase "": mark the latest version Queued, then enqueue
    | MarkQueued(hash: Hash)   // mark the version read Queued, then enqueue
    | RecordHash               // Completed without a hash: fill it in
    | CheckDrift               // Completed and unchanged

  function Decide(t: Template): Decision {
    match t.phase
    case Paused => if t.resume then MarkQueued(t.hash) else Nothing
    case Failed => if t.hash != NoHash && HashOf(t.spec) != t.hash then MarkQueued(HashOf(t.spec)) else Nothing
    case Completed =>
      if t.hash == NoHash then RecordHash
      else if HashOf(t.spec) != t.hash then MarkQueued(HashOf(t.spec))
      else CheckDrift
    case New => QueueLatest
    case Queued => EnqueueNow
    case Processing => EnqueueNow
  }

  /** The object that the controller tries to store. */
  function Desired(snap: Template, latest: Template): Template {
    match Decide(snap)
    case QueueLatest => latest.(phase := Queued)
    case MarkQueued(hash) => snap.(phase := Queued, hash := hash)
    case RecordHash => snap.(hash := HashOf(snap.spec))
    case _ => snap
  }

  predicate LeadsToEnqueue(d: Decision) { d.QueueLatest? || d.MarkQueued? }

  /** Reconcile will enqueue the template, unless a write of its own fails for good. */
  predicate Reacts(d: Decision) { d.EnqueueNow? || LeadsToEnqueue(d) }

  predicate NeedsWrite(d: Decision) { !d.Nothing? && !d.EnqueueNow? }

  // ---------- steps ----------

  datatype Step =
    | UserCreate(n: Name, spec: Spec, resume: bool)
    | UserEdit(n: Name, spec: Spec, resume: bool)
    | UserDelete(n: Name)
    | TimerFires(n: Name)
    | CtrlGet(n: Name, read: Read, more: bool)     // `more`: the watch still has an event for `n`
    | CtrlWrite(n: Name, outcome: Outcome)
    | CtrlReapply(n: Name)                         // the drift pass applies the spec that Reconcile read
    | CtrlEnqueue(n: Name, id: nat, t0: int, t1: int)
    | WorkerTake(w: nat, item: nat, now: int)
    | WorkerGet(w: nat, ok: bool)
    | WorkerStart(w: nat, ok: bool, seen: Spec)    // status write Processing
    | WorkerReject(w: nat, ok: bool, seen: Spec)   // a template refused by policy, status write Failed
    | WorkerSkip(w: nat)                           // a template that could not be parsed or replaced
    | WorkerHardFail(w: nat, ok: bool)             // no policy, or an apply that failed
    | WorkerLoopDone(w: nat)
    | WorkerComplete(w: nat, ok: bool)             // status write Completed
    | WorkerFail(w: nat, now: int)                 // budget check: pause or requeue
    | WorkerPause(w: nat, ok: bool)                // status write Paused
    | WorkerDone(w: nat)

  /** Worker `w` is busy with an item that the queue handed to it. */
  predicate Busy(s: State, w: nat) {
    w in s.workers && s.workers[w].item in s.q.held
  }

  /** A worker's status write can succeed only on an existing object. */
  predicate Writable(s: State, w: nat, ok: bool)
    requires w in s.workers
  {
    ok ==> s.workers[w].name in s.objs
  }

  ghost predicate Enabled(s: State, l: Step) {
    match l
    case UserCreate(n, _, _) => n !in s.objs
    case UserEdit(n, _, _) => n in s.objs
    case UserDelete(n) => n in s.objs
    case TimerFires(n) => n in s.timers
    case CtrlGet(n, read, _) =>
      // reads may be stale, but a version is never confused with another one
      && n in s.events && n !in s.recs
      && (read.Found? ==> read.template.rv < s.nextRv
                          && (n in s.objs && s.objs[n].rv == read.template.rv ==> s.objs[n] == read.template))
    case CtrlWrite(n, outcome) =>
      && n in s.recs && s.recs[n].Deciding?
      && (outcome.Written? ==>
            n in s.objs && (Decide(s.recs[n].snap).QueueLatest? || s.objs[n].rv == s.recs[n].snap.rv))
      && (outcome.Skipped? ==> Decide(s.recs[n].snap).CheckDrift?)
    case CtrlReapply(n) => n in s.recs && s.recs[n].Deciding? && Decide(s.recs[n].snap).CheckDrift?
    case CtrlEnqueue(n, id, _, _) =>
      n in s.recs && s.recs[n].WillEnqueue? && id !in s.q.queued && id !in s.q.held
    case WorkerTake(w, item, now) =>
      w !in s.workers && Q.IsHead(s.q, item) && Q.Due(s.q.queued[item], now)
    case WorkerGet(w, _) => Busy(s, w) && s.workers[w].stage.Taken?
    case WorkerStart(w, ok, _) => Busy(s, w) && s.workers[w].stage.Ready? && Writable(s, w, ok)
    case WorkerReject(w, ok, _) => Busy(s, w) && s.workers[w].stage.Applying? && Writable(s, w, ok)
    case WorkerSkip(w) => Busy(s, w) && s.workers[w].stage.Applying?
    case WorkerHardFail(w, ok) => Busy(s, w) && s.workers[w].stage.Applying? && Writable(s, w, ok)
    case WorkerLoopDone(w) => Busy(s, w) && s.workers[w].stage.Applying?
    case WorkerComplete(w, ok) => Busy(s, w) && s.workers[w].stage.Finishing? && Writable(s, w, ok)
    case WorkerFail(w, _) => Busy(s, w) && s.workers[w].stage.Erred?
    case WorkerPause(w, ok) => Busy(s, w) && s.workers[w].stage.Pausing? && Writable(s, w, ok)
    case WorkerDone(w) => Busy(s, w) && s.workers[w].stage.Ended?
  }

  /** Store a new version of an object. */
  ghost function Put(s: State, n: Name, t: Template): State {
    s.(objs := s.objs[n := t.(rv := s.nextRv)], nextRv := s.nextRv + 1)
  }

  ghost function Advance(s: State, w: nat, stage: Stage): State
    requires w in s.workers
  {
    s.(workers := s.workers[w := s.workers[w].(stage := stage)])
  }

  /** A status write by worker `w` that sets the phase, or nothing when the write failed. */
  ghost function SetPhase(s: State, w: nat, ok: bool, phase: Phase): State
    requires w in s.workers && Writable(s, w, ok)
  {
    var n := s.workers[w].name;
    if ok then Put(s, n, s.objs[n].(phase := phase)) else s
  }

  ghost function Leave(s: State, w: nat, q: Q.Queue<nat>): State {
    s.(q := q, workers := s.workers - {w})
  }

  /** Reconcile after its read. The request is gone, unless the controller's cache lags behind and the
      watch has yet to deliver a change of the object. */
  ghost function NextGet(s: State, n: Name, read: Read, more: bool): State {
    var s0 := s.(events := if more then s.events else s.events - {n});
    if read.NotFound? then s0
    else
      match Decide(read.template)
      case Nothing => s0
      case EnqueueNow => s0.(recs := s0.recs[n := WillEnqueue])
      case _ => s0.(recs := s0.recs[n := Deciding(read.template)])
  }

  /** Reconcile after its status write: enqueue next unless the write failed for good, which leaves
      the request pending; a Completed template arms the periodic timer instead. */
  ghost function NextWrite(s: State, n: Name, outcome: Outcome): State
    requires n in s.recs && s.recs[n].Deciding? && (outcome.Written? ==> n in s.objs)
  {
    var snap := s.recs[n].snap;
    var d := Decide(snap);
    var s0 := if outcome.Written? then Put(s, n, Desired(snap, s.objs[n])) else s;
    if !LeadsToEnqueue(d) then s0.(recs := s0.recs - {n}, timers := s0.timers + {n})
    else if outcome.Written? || (outcome.Conflict? && d.MarkQueued?)
    then s0.(recs := s0.recs[n := WillEnqueue])
    else s0.(recs := s0.recs - {n}, events := s0.events + {n})
  }

  ghost function Next(s: State, l: Step): State
    requires Enabled(s, l)
  {
    match l
    case UserCreate(n, spec, resume) =>
      Put(s, n, Template(spec, resume, New, NoHash, 0)).(events := s.events + {n})
    case UserEdit(n, spec, resume) =>
      Put(s, n, s.objs[n].(spec := spec, resume := resume)).(events := s.events + {n})
    case UserDelete(n) => s.(objs := s.objs - {n}, events := s.events + {n})
    case TimerFires(n) => s.(timers := s.timers - {n}, events := s.events + {n})
    case CtrlGet(n, read, more) => NextGet(s, n, read, more)
    case CtrlWrite(n, outcome) => NextWrite(s, n, outcome)
    case CtrlReapply(n) => s.(applied := s.applied[n := s.recs[n].snap.spec])
    case CtrlEnqueue(n, id, t0, t1) =>
      s.(q := Q.Enqueue(s.q, n, 0, t0, t1, id), recs := s.recs - {n})
    case WorkerTake(w, item, now) =>
      s.(q := Q.Dequeue(s.q, item), workers := s.workers[w := Task(item, s.q.queued[item].name, Taken)])
    case WorkerGet(w, ok) =>
      Advance(s, w, if !ok then Erred else if s.workers[w].name in s.objs then Ready else Ended)
    case WorkerStart(w, ok, seen) =>
      var read := if ok then s.objs[s.workers[w].name].spec else seen;
      Advance(SetPhase(s, w, ok, Processing), w, Applying(read, read))
    case WorkerReject(w, ok, seen) =>
      var read := if ok then s.objs[s.workers[w].name].spec else seen;
      Advance(SetPhase(s, w, ok, Failed), w, Applying(s.workers[w].stage.todo, read))
    case WorkerSkip(w) => s
    case WorkerHardFail(w, ok) => Advance(SetPhase(s, w, ok, Failed), w, Erred)
    case WorkerLoopDone(w) =>
      var task := s.workers[w];
      Advance(s, w, Finishing(task.stage.read)).(applied := s.applied[task.name := task.stage.todo])
    case WorkerComplete(w, ok) =>
      var n := s.workers[w].name;
      if ok then
        Advance(Put(s, n, s.objs[n].(phase := Completed, hash := HashOf(s.workers[w].stage.read))), w, Ended)
      else Advance(s, w, Erred)
    case WorkerFail(w, now) =>
      var item := s.workers[w].item;
      if WorkerPauses(s.q.cfg, s.q.held[item].budget) then Advance(s, w, Pausing)
      else Leave(s, w, Q.Requeue(s.q, item, now))
    case WorkerPause(w, ok) => Advance(SetPhase(s, w, ok, Paused), w, Ended)
    case WorkerDone(w) => Leave(s, w, Q.Done(s.q, s.workers[w].item))
  }

  // ---------- runs ----------

  function Init(cfg: Config): State {
    State(map[], Q.Queue(cfg, map[], map[], map[], Q.Metrics(0, 0, 0, 0, 0)), map[], map[], {}, {}, map[], 0)
  }

  /** `trace` is the sequence of states that the steps `ls` go through, from any state. */
  ghost predicate IsPath(trace: seq<State>, ls: seq<Step>) {
    && |trace| == |ls| + 1
    && (forall k {:trigger Enabled(trace[k], ls[k])} | 0 <= k < |ls| ::
          Enabled(trace[k], ls[k]) && trace[k + 1] == Next(trace[k], ls[k]))
  }

  /** A path from an empty cluster. */
  ghost predicate IsRun(cfg: Config, trace: seq<State>, ls: seq<Step>) {
    IsPath(trace, ls) && trace[0] == Init(cfg)
  }

  lemma PathStep(trace: seq<State>, ls: seq<Step>, k: nat)
    requires IsPath(trace, ls) && 0 < k < |trace|
    ensures Enabled(trace[k - 1], ls[k - 1]) && trace[k] == Next(trace[k - 1], ls[k - 1])
  {
    assert Enabled(trace[k - 1], ls[k - 1]);
  }

  /** A path may be entered one step earlier. */
  lemma Prepend(s: State, l: Step, trace: seq<State>, ls: seq<Step>)
    requires IsPath(trace, ls) && Enabled(s, l) && trace[0] == Next(s, l)
    ensures IsPath([s] + trace, [l] + ls)
  {
    var trace', ls' := [s] + trace, [l] + ls;
    forall k | 0 <= k < |ls'|
      ensures Enabled(trace'[k], ls'[k]) && trace'[k + 1] == Next(trace'[k], ls'[k])
    {
      if k > 0 {
        assert trace'[k] == trace[k - 1] && ls'[k] == ls[k - 1] && trace'[k + 1] == trace[k];
        assert Enabled(trace[k - 1], ls[k - 1]);
      }
    }
  }

  predicate CallsQueue(l: Step) { l.CtrlEnqueue? || l.WorkerTake? || l.WorkerFail? || l.WorkerDone? }

  /** Only these four kinds of step touch the queue. */
  lemma QueueFrame(s: State, l: Step)
    requires Enabled(s, l) && !CallsQueue(l)
    ensures Next(s, l).q == s.q
  {
  }

  /** Queue calls leave the API objects alone. */
  lemma CallFrame(s: State, l: Step)
    requires Enabled(s, l) && CallsQueue(l)
    ensures Next(s, l).objs == s.objs && Next(s, l).applied == s.applied && Next(s, l).events == s.events
    ensures Next(s, l).recs == if l.CtrlEnqueue? then s.recs - {l.n} else s.recs
  {
  }

  predicate UserMoves(l: Step) { l.UserCreate? || l.UserEdit? || l.UserDelete? || l.TimerFires? }

  predicate WorkerMoves(l: Step) {
    || l.WorkerGet? || l.WorkerStart? || l.WorkerReject? || l.WorkerSkip? || l.WorkerHardFail?
    || l.WorkerLoopDone? || l.WorkerComplete? || l.WorkerPause?
  }

  /** Only the object of worker `w` may differ, and what belongs to workers. */
  ghost predicate OnlyOwn(s: State, s': State, w: nat)
    requires w in s.workers
  {
    && s'.q == s.q && s'.recs == s.recs && s'.events == s.events && s'.objs.Keys == s.objs.Keys
    && (forall m | m in s.objs && m != s.workers[w].name :: s'.objs[m] == s.objs[m])
  }

  lemma PhaseFrame(s: State, w: nat, ok: bool, phase: Phase, stage: Stage)
    requires w in s.workers && Writable(s, w, ok)
    ensures OnlyOwn(s, Advance(SetPhase(s, w, ok, phase), w, stage), w)
  {
  }

  /** A worker's other steps touch nothing but its own template. */
  lemma WorkerFrame(s: State, l: Step)
    requires Enabled(s, l) && WorkerMoves(l)
    ensures OnlyOwn(s, Next(s, l), l.w)
  {
    match l
    case WorkerStart(w, ok, _) => PhaseFrame(s, w, ok, Processing, Next(s, l).workers[w].stage);
    case WorkerReject(w, ok, _) => PhaseFrame(s, w, ok, Failed, Next(s, l).workers[w].stage);
    case WorkerHardFail(w, ok) => PhaseFrame(s, w, ok, Failed, Erred);
    case WorkerPause(w, ok) => PhaseFrame(s, w, ok, Paused, Ended);
    case _ =>
  }

  /** A Reconcile of `n` is in flight that will enqueue it unless its status write fails for good. */
  predicate ReconPending(s: State, n: Name) {
    n in s.recs && (s.recs[n].Deciding? ==> LeadsToEnqueue(Decide(s.recs[n].snap)))
  }

  /** A controller write touches nothing but its own object, its own Reconcile and the requests. */
  lemma WriteFrame(s: State, n: Name, outcome: Outcome)
    requires Enabled(s, CtrlWrite(n, outcome))
    ensures var s' := NextWrite(s, n, outcome);
            && s'.q == s.q && s'.workers == s.workers && s'.applied == s.applied && s.events <= s'.events
            && s'.objs.Keys == s.objs.Keys && s'.recs.Keys - {n} == s.recs.Keys - {n}
            && (forall m | m in s.objs && (m != n || !outcome.Written?) :: s'.objs[m] == s.objs[m])
            && (forall m | m in s.recs && m != n :: s'.recs[m] == s.recs[m])
    ensures ReconPending(s, n) ==>
              var s' := NextWrite(s, n, outcome); s'.recs == s.recs[n := WillEnqueue] || n in s'.events
  {
    var s' := NextWrite(s, n, outcome);
    assert forall m | m in s'.recs.Keys && m != n :: m in s.recs.Keys;
  }

  /** A read touches nothing but the requests and its own Reconcile. */
  lemma GetFrame(s: State, n: Name, read: Read, more: bool)
    ensures var s' := NextGet(s, n, read, more);
            && s'.workers == s.workers && s'.q == s.q && s'.objs == s.objs && s'.applied == s.applied
            && s.events - {n} <= s'.events && (more ==> s'.events == s.events)
            && (s'.recs == s.recs || (n in s'.recs && s'.recs == s.recs[n := s'.recs[n]]))
            && (read.Found? && Reacts(Decide(read.template)) ==> ReconPending(s', n))
  {
  }

  // ---------- bookkeeping invariant ----------

  /** Workers hold the items they work on, no two share one, and every held item has its worker. */
  ghost predicate Crew(held: map<nat, Q.Item>, workers: map<nat, Task>) {
    && (forall w | w in workers :: workers[w].item in held && held[workers[w].item].name == workers[w].name)
    && (forall w, v | w in workers && v in workers && workers[w].item == workers[v].item :: w == v)
    && (forall i | i in held :: HasWorker(workers, i))
  }

  predicate HasWorker(workers: map<nat, Task>, i: nat) {
    exists w | w in workers :: workers[w].item == i
  }

  /** Versions are below the counter, and a Reconcile that read the stored version knows its contents. */
  ghost predicate Versions(objs: map<Name, Template>, recs: map<Name, Recon>, nextRv: nat) {
    && (forall n | n in objs :: objs[n].rv < nextRv)
    && (forall n | n in recs && recs[n].Deciding? ::
          && recs[n].snap.rv < nextRv && NeedsWrite(Decide(recs[n].snap))
          && (n in objs && objs[n].rv == recs[n].snap.rv ==> objs[n] == recs[n].snap))
  }

  ghost predicate Book(s: State) {
    Q.Inv(s.q) && Crew(s.q.held, s.workers) && Versions(s.objs, s.recs, s.nextRv)
  }

  /** A controller write that lands leaves the spec alone; it queues the template and goes on to enqueue
      it, or refreshes a Completed status, whose hash changes only if there was none. */
  lemma WrittenChanges(s: State, n: Name)
    requires Versions(s.objs, s.recs, s.nextRv) && Enabled(s, CtrlWrite(n, Outcome.Written))
    ensures var s' := NextWrite(s, n, Outcome.Written);
            && n in s'.objs && s'.objs[n].spec == s.objs[n].spec
            && if s'.objs[n].phase == Queued then n in s'.recs && s'.recs[n] == WillEnqueue
               else && s'.objs[n].phase == s.objs[n].phase == Completed
                    && (s'.objs[n].hash == s.objs[n].hash || s.objs[n].hash == NoHash)
  {
  }

  lemma CrewTake(held: map<nat, Q.Item>, workers: map<nat, Task>, w: nat, i: nat, item: Q.Item, stage: Stage)
    requires Crew(held, workers) && w !in workers && i !in held
    ensures Crew(held[i := item], workers[w := Task(i, item.name, stage)])
  {
    var workers', held' := workers[w := Task(i, item.name, stage)], held[i := item];
    forall j | j in held'
      ensures HasWorker(workers', j)
    {
      if j == i {
        assert w in workers' && workers'[w].item == j;
      } else {
        var v :| v in workers && workers[v].item == j;
        assert v in workers' && workers'[v].item == j;
      }
    }
  }

  lemma CrewAdvance(held: map<nat, Q.Item>, workers: map<nat, Task>, w: nat, stage: Stage)
    requires Crew(held, workers) && w in workers
    ensures Crew(held, workers[w := workers[w].(stage := stage)])
  {
    var workers' := workers[w := workers[w].(stage := stage)];
    forall i | i in held
      ensures HasWorker(workers', i)
    {
      var v :| v in workers && workers[v].item == i;
      assert v in workers' && workers'[v].item == i;
    }
  }

  lemma CrewLeave(held: map<nat, Q.Item>, workers: map<nat, Task>, w: nat)
    requires Crew(held, workers) && w in workers
    ensures Crew(held - {workers[w].item}, workers - {w})
  {
    var workers' := workers - {w};
    forall i | i in held - {workers[w].item}
      ensures HasWorker(workers', i)
    {
      var v :| v in workers && workers[v].item == i;
      assert v in workers' && workers'[v].item == i;
    }
  }

  lemma PutKeepsVersions(s: State, n: Name, t: Template)
    requires Versions(s.objs, s.recs, s.nextRv)
    ensures var s' := Put(s, n, t); Versions(s'.objs, s'.recs, s'.nextRv)
  {
  }

  lemma ReconKeepsVersions(s: State, n: Name, read: Template)
    requires Versions(s.objs, s.recs, s.nextRv) && read.rv < s.nextRv
    requires n in s.objs && s.objs[n].rv == read.rv ==> s.objs[n] == read
    ensures NeedsWrite(Decide(read)) ==> Versions(s.objs, s.recs[n := Deciding(read)], s.nextRv)
    ensures Versions(s.objs, s.recs[n := WillEnqueue], s.nextRv)
    ensures Versions(s.objs, s.recs - {n}, s.nextRv)
  {
  }

  lemma CtrlWriteKeepsBook(s: State, n: Name, outcome: Outcome)
    requires Book(s) && Enabled(s, CtrlWrite(n, outcome))
    ensures Book(NextWrite(s, n, outcome))
  {
    if outcome.Written? {
      var t := Desired(s.recs[n].snap, s.objs[n]);
      PutKeepsVersions(s, n, t);
      ReconKeepsVersions(Put(s, n, t), n, s.recs[n].snap);
    } else {
      ReconKeepsVersions(s, n, s.recs[n].snap);
    }
  }

  lemma WriteKeepsBook(s: State, w: nat, ok: bool, phase: Phase, stage: Stage)
    requires Book(s) && w in s.workers && Writable(s, w, ok)
    ensures Book(Advance(SetPhase(s, w, ok, phase), w, stage))
  {
    if ok { PutKeepsVersions(s, s.workers[w].name, s.objs[s.workers[w].name].(phase := phase)); }
    CrewAdvance(s.q.held, s.workers, w, stage);
  }

  lemma DoneKeepsBook(s: State, w: nat)
    requires Book(s) && Busy(s, w)
    ensures Book(Leave(s, w, Q.Done(s.q, s.workers[w].item)))
  {
    CrewLeave(s.q.held, s.workers, w);
    Q.ReleaseKeepsInv(s.q, s.workers[w].item, 1);
  }

  lemma RequeueKeepsBook(s: State, w: nat, now: int)
    requires Book(s) && Busy(s, w)
    ensures Book(Leave(s, w, Q.Requeue(s.q, s.workers[w].item, now)))
  {
    CrewLeave(s.q.held, s.workers, w);
    Q.RequeueKeepsInv(s.q, s.workers[w].item, now);
  }

  lemma WorkerMoveKeepsBook(s: State, l: Step)
    requires Book(s) && Enabled(s, l) && (l.WorkerGet? || l.WorkerLoopDone?)
    ensures Book(Next(s, l))
  {
    WriteKeepsBook(s, l.w, false, New, Next(s, l).workers[l.w].stage);
  }

  lemma WorkerWriteKeepsBook(s: State, l: Step)
    requires Book(s) && Enabled(s, l)
    requires l.WorkerStart? || l.WorkerReject? || l.WorkerHardFail? || l.WorkerPause?
    ensures Book(Next(s, l))
  {
    var stage := Next(s, l).workers[l.w].stage;
    match l
    case WorkerStart(w, ok, _) => WriteKeepsBook(s, w, ok, Processing, stage);
    case WorkerReject(w, ok, _) => WriteKeepsBook(s, w, ok, Failed, stage);
    case WorkerHardFail(w, ok) => WriteKeepsBook(s, w, ok, Failed, stage);
    case WorkerPause(w, ok) => WriteKeepsBook(s, w, ok, Paused, stage);
  }

  lemma QueueKeepsBook(s: State, l: Step)
    requires Book(s) && Enabled(s, l)
    requires CallsQueue(l)
    ensures Book(Next(s, l))
  {
    match l
    case CtrlEnqueue(n, id, t0, t1) =>
      Q.EnqueueKeepsInv(s.q, n, 0, t0, t1, id);
    case WorkerTake(w, item, now) =>
      Q.DequeueKeepsInv(s.q, item);
      CrewTake(s.q.held, s.workers, w, item, s.q.queued[item], Taken);
    case WorkerFail(w, now) =>
      if WorkerPauses(s.q.cfg, s.q.held[s.workers[w].item].budget) {
        WriteKeepsBook(s, w, false, New, Pausing);
      } else {
        RequeueKeepsBook(s, w, now);
      }
    case WorkerDone(w) =>
      DoneKeepsBook(s, w);
  }

  lemma ApiKeepsBook(s: State, l: Step)
    requires Book(s) && Enabled(s, l)
    requires UserMoves(l) || l.CtrlGet? || l.CtrlWrite? || l.CtrlReapply?
    ensures Book(Next(s, l))
  {
    match l
    case UserCreate(n, spec, resume) => PutKeepsVersions(s, n, Template(spec, resume, New, NoHash, 0));
    case UserEdit(n, spec, resume) => PutKeepsVersions(s, n, s.objs[n].(spec := spec, resume := resume));
    case UserDelete(n) =>
    case TimerFires(n) =>
    case CtrlGet(n, read, _) => if read.Found? { ReconKeepsVersions(s, n, read.template); }
    case CtrlWrite(n, outcome) => CtrlWriteKeepsBook(s, n, outcome);
    case CtrlReapply(n) =>
  }

  /** Every step keeps the bookkeeping. */
  lemma StepKeepsBook(s: State, l: Step)
    requires Book(s) && Enabled(s, l)
    ensures Book(Next(s, l))
  {
    if l.WorkerSkip? {
    } else if l.WorkerComplete? {
      CompleteKeepsBook(s, l.w, l.ok);
    } else if CallsQueue(l) {
      QueueKeepsBook(s, l);
    } else if UserMoves(l) || l.CtrlGet? || l.CtrlWrite? || l.CtrlReapply? {
      ApiKeepsBook(s, l);
    } else if l.WorkerGet? || l.WorkerLoopDone? {
      WorkerMoveKeepsBook(s, l);
    } else {
      WorkerWriteKeepsBook(s, l);
    }
  }

  lemma CompleteKeepsBook(s: State, w: nat, ok: bool)
    requires Book(s) && Enabled(s, WorkerComplete(w, ok))
    ensures Book(Next(s, WorkerComplete(w, ok)))
  {
    CrewAdvance(s.q.held, s.workers, w, if ok then Ended else Erred);
    if ok {
      var n := s.workers[w].name;
      PutKeepsVersions(s, n, s.objs[n].(phase := Completed, hash := HashOf(s.workers[w].stage.read)));
    }
  }

  /** The bookkeeping holds over whole runs, from every start that has it; an empty cluster does. */
  lemma PathKeepsBook(trace: seq<State>, ls: seq<Step>, k: nat)
    requires IsPath(trace, ls) && Book(trace[0]) && k < |trace|
    ensures Book(trace[k])
  {
    var i := 0;
    while i < k
      invariant i <= k && Book(trace[i])
    {
      i := i + 1;
      PathStep(trace, ls, i);
      StepKeepsBook(trace[i - 1], ls[i - 1]);
    }
  }
}
