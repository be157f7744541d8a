/** The invariant and the guards of module LostEdits are exact. A state is doomed if some continuation that
    keeps every guard and reads only what is stored still loses an edit. With at most one worker per
    template the doomed states are those that are not sound, so that a step from a sound state dooms a
    template if it breaks a guard, and otherwise does not. */
module GuardsNeeded {
  import opened Backoff
  import opened Protocol
  import opened LostEdits

  /** The template is Completed without its stored spec applied, nobody is at work on it, and nothing will
      make a worker look. */
  ghost predicate Lost(s: State, n: Name) {
    && n in s.objs && s.objs[n].phase == Completed && !Pending(s, n) && Rests(s, n)
    && (n in s.applied ==> s.applied[n] != s.objs[n].spec)
  }

  /** A step beyond reproach: it keeps the guards, and a read returns what is stored. */
  ghost predicate Proper(s: State, l: Step) {
    Guarded(s, l) && (l.CtrlGet? ==> l.read == Lookup(s, l.n))
  }

  ghost predicate ProperPath(trace: seq<State>, ls: seq<Step>) {
    IsPath(trace, ls) && forall j | 0 <= j < |ls| :: Proper(trace[j], ls[j])
  }

  /** Some proper continuation loses an edit. */
  ghost predicate Doomed(s: State, n: Name) {
    exists trace, ls :: ProperPath(trace, ls) && trace[0] == s && Lost(trace[|ls|], n)
  }

  /** No sound state is doomed. */
  lemma SoundIsSafe(s: State, n: Name)
    requires Book(s) && Sound(s)
    ensures !Doomed(s, n)
  {
    forall trace, ls | ProperPath(trace, ls) && trace[0] == s
      ensures !Lost(trace[|ls|], n)
    {
      ProperIsCareful(trace, ls);
      RunKeepsSound(trace, ls, |ls|);
      SoundIsNotLost(trace[|ls|], n);
    }
  }

  lemma ProperIsCareful(trace: seq<State>, ls: seq<Step>)
    requires ProperPath(trace, ls)
    ensures Careful(trace, ls, |ls|)
  {
    forall j | 0 <= j < |ls|
      ensures Guarded(trace[j], ls[j]) && SeesEdits(trace, ls, j)
    {
      assert Proper(trace[j], ls[j]);
      if ls[j].CtrlGet? { assert ReadsFrom(trace, ls, j, j); }
    }
  }

  lemma SoundIsNotLost(s: State, n: Name)
    requires Sound(s)
    ensures !Lost(s, n)
  {
    if n in s.objs { assert DoneSound(s, n); }
  }

  lemma LostIsDoomed(s: State, n: Name)
    requires Lost(s, n)
    ensures Doomed(s, n)
  {
    var trace, ls := [s], [];
    assert ProperPath(trace, ls) && trace[|ls|] == s;
  }

  lemma DoomedBack(s: State, l: Step, n: Name)
    requires Enabled(s, l) && Proper(s, l) && Doomed(Next(s, l), n)
    ensures Doomed(s, n)
  {
    var trace, ls :| ProperPath(trace, ls) && trace[0] == Next(s, l) && Lost(trace[|ls|], n);
    var trace', ls' := [s] + trace, [l] + ls;
    Prepend(s, l, trace, ls);
    forall j | 0 <= j < |ls'|
      ensures Proper(trace'[j], ls'[j])
    {
      if j > 0 { assert Proper(trace[j - 1], ls[j - 1]); }
    }
    assert ProperPath(trace', ls') && trace'[|ls'|] == trace[|ls|];
  }

  /** Steps that no guard is about. */
  predicate Plain(l: Step) {
    && !l.WorkerTake? && !l.UserEdit? && !l.WorkerReject? && !l.CtrlReapply? && !l.CtrlGet?
    && (l.WorkerStart? || l.WorkerPause? ==> l.ok)
  }

  lemma PlainIsProper(s: State, l: Step)
    requires Plain(l)
    ensures Proper(s, l)
  {
  }

  // ---------- single steps, backwards ----------

  lemma LoopDoneBack(s: State, w: nat)
    requires Book(s) && w in s.workers && s.workers[w].stage.Applying?
    requires Book(Looped(s, w)) ==> Doomed(Looped(s, w), s.workers[w].name)
    ensures Doomed(s, s.workers[w].name)
  {
    var l := WorkerLoopDone(w);
    WorkerMoveKeepsBook(s, l);
    PlainIsProper(s, l);
    DoomedBack(s, l, s.workers[w].name);
  }

  /** Worker `w` has gone through its spec. */
  ghost function Looped(s: State, w: nat): State
    requires w in s.workers && s.workers[w].stage.Applying?
  {
    var task := s.workers[w];
    Advance(s, w, Finishing(task.stage.read)).(applied := s.applied[task.name := task.stage.todo])
  }

  lemma CompleteBack(s: State, w: nat)
    requires Book(s) && w in s.workers && s.workers[w].name in s.objs && s.workers[w].stage.Finishing?
    requires Book(CompletedBy(s, w)) ==> Doomed(CompletedBy(s, w), s.workers[w].name)
    ensures Doomed(s, s.workers[w].name)
  {
    var l := WorkerComplete(w, true);
    CompleteKeepsBook(s, w, true);
    PlainIsProper(s, l);
    DoomedBack(s, l, s.workers[w].name);
  }

  /** Worker `w` has recorded completion. */
  ghost function CompletedBy(s: State, w: nat): State
    requires w in s.workers && s.workers[w].name in s.objs && s.workers[w].stage.Finishing?
  {
    var n := s.workers[w].name;
    Advance(Put(s, n, s.objs[n].(phase := Completed, hash := HashOf(s.workers[w].stage.read))), w, Ended)
  }

  lemma GetBack(s: State, w: nat)
    requires Book(s) && w in s.workers && s.workers[w].name in s.objs && s.workers[w].stage == Taken
    requires Book(Advance(s, w, Ready)) ==> Doomed(Advance(s, w, Ready), s.workers[w].name)
    ensures Doomed(s, s.workers[w].name)
  {
    var l := WorkerGet(w, true);
    WorkerMoveKeepsBook(s, l);
    PlainIsProper(s, l);
    DoomedBack(s, l, s.workers[w].name);
  }

  lemma StartBack(s: State, w: nat)
    requires Book(s) && w in s.workers && s.workers[w].name in s.objs && s.workers[w].stage == Ready
    requires Book(Started(s, w)) ==> Doomed(Started(s, w), s.workers[w].name)
    ensures Doomed(s, s.workers[w].name)
  {
    var l := WorkerStart(w, true, "");
    WorkerWriteKeepsBook(s, l);
    PlainIsProper(s, l);
    DoomedBack(s, l, s.workers[w].name);
  }

  /** Worker `w` has marked its template Processing and begins with the stored spec. */
  ghost function Started(s: State, w: nat): State
    requires w in s.workers && s.workers[w].name in s.objs
  {
    var t := s.objs[s.workers[w].name];
    Advance(Put(s, s.workers[w].name, t.(phase := Processing)), w, Applying(t.spec, t.spec))
  }

  lemma PauseBack(s: State, w: nat)
    requires Book(s) && w in s.workers && s.workers[w].name in s.objs && s.workers[w].stage == Pausing
    requires Book(PausedBy(s, w)) ==> Doomed(PausedBy(s, w), s.workers[w].name)
    ensures Doomed(s, s.workers[w].name)
  {
    var l := WorkerPause(w, true);
    WorkerWriteKeepsBook(s, l);
    PlainIsProper(s, l);
    DoomedBack(s, l, s.workers[w].name);
  }

  ghost function PausedBy(s: State, w: nat): State
    requires w in s.workers && s.workers[w].name in s.objs
  {
    Advance(Put(s, s.workers[w].name, s.objs[s.workers[w].name].(phase := Paused)), w, Ended)
  }

  lemma EditBack(s: State, n: Name, spec: Spec)
    requires Book(s) && n in s.objs && s.objs[n].phase != Failed
    requires Book(EditedTo(s, n, spec)) ==> Doomed(EditedTo(s, n, spec), n)
    ensures Doomed(s, n)
  {
    var l := UserEdit(n, spec, false);
    ApiKeepsBook(s, l);
    DoomedBack(s, l, n);
  }

  ghost function EditedTo(s: State, n: Name, spec: Spec): State
    requires n in s.objs
  {
    Put(s, n, s.objs[n].(spec := spec, resume := false)).(events := s.events + {n})
  }

  lemma CreateBack(s: State, n: Name, spec: Spec)
    requires Book(s) && n !in s.objs && (Book(CreatedAs(s, n, spec)) ==> Doomed(CreatedAs(s, n, spec), n))
    ensures Doomed(s, n)
  {
    var l := UserCreate(n, spec, false);
    ApiKeepsBook(s, l);
    PlainIsProper(s, l);
    DoomedBack(s, l, n);
  }

  ghost function CreatedAs(s: State, n: Name, spec: Spec): State {
    Put(s, n, Template(spec, false, New, NoHash, 0)).(events := s.events + {n})
  }

  lemma DeleteBack(s: State, n: Name)
    requires Book(s) && n in s.objs && (Book(Without(s, n)) ==> Doomed(Without(s, n), n))
    ensures Doomed(s, n)
  {
    var l := UserDelete(n);
    ApiKeepsBook(s, l);
    PlainIsProper(s, l);
    DoomedBack(s, l, n);
  }

  ghost function Without(s: State, n: Name): State { s.(objs := s.objs - {n}, events := s.events + {n}) }

  // ---------- requests that come to nothing ----------

  /** Reconcile would not react to the stored version. */
  predicate Ignored(s: State, n: Name) { n in s.objs && !Reacts(Decide(s.objs[n])) }

  /** The cluster once the Reconcile in flight has given up and the requests are answered by nothing. */
  function Drained(s: State, n: Name, timers: set<Name>): State {
    s.(recs := s.recs - {n}, events := s.events - {n}, timers := timers)
  }

  /** The Reconcile in flight gives up: its write fails for good, which asks for another one at most. */
  function GaveUp(s: State, n: Name): State
    requires n in s.recs && s.recs[n].Deciding?
  {
    var s0 := s.(recs := s.recs - {n});
    if LeadsToEnqueue(Decide(s.recs[n].snap)) then s0.(events := s0.events + {n})
    else s0.(timers := s0.timers + {n})
  }

  lemma GiveUpBack(s: State, n: Name)
    requires Book(s) && n in s.recs && s.recs[n].Deciding? && (Book(GaveUp(s, n)) ==> Doomed(GaveUp(s, n), n))
    ensures Doomed(s, n)
  {
    var l := CtrlWrite(n, Outcome.OtherError);
    assert Next(s, l) == GaveUp(s, n);
    CtrlWriteKeepsBook(s, n, Outcome.OtherError);
    PlainIsProper(s, l);
    DoomedBack(s, l, n);
  }

  /** Reconcile has read the stored version, which it ignores. */
  function Answered(s: State, n: Name): State
    requires n in s.objs
  {
    var s0 := s.(events := s.events - {n});
    if Decide(s.objs[n]).Nothing? then s0 else s0.(recs := s0.recs[n := Deciding(s.objs[n])])
  }

  lemma ReadBack(s: State, n: Name)
    requires Book(s) && Ignored(s, n) && n in s.events && n !in s.recs
    requires Book(Answered(s, n)) ==> Doomed(Answered(s, n), n)
    ensures Doomed(s, n)
  {
    var l := CtrlGet(n, Found(s.objs[n]), false);
    assert Next(s, l) == Answered(s, n);
    ReconKeepsVersions(s, n, s.objs[n]);
    DoomedBack(s, l, n);
  }

  lemma UnaskedBack(s: State, n: Name)
    requires Book(s) && Ignored(s, n) && n !in s.recs
    requires forall timers | Book(Drained(s, n, timers)) :: Doomed(Drained(s, n, timers), n)
    ensures Doomed(s, n)
  {
    if n in s.events {
      if Book(Answered(s, n)) { AnsweredBack(s, n); }
      ReadBack(s, n);
    } else {
      assert s == Drained(s, n, s.timers);
    }
  }

  lemma AnsweredBack(s: State, n: Name)
    requires Ignored(s, n) && n !in s.recs && Book(Answered(s, n))
    requires forall timers | Book(Drained(s, n, timers)) :: Doomed(Drained(s, n, timers), n)
    ensures Doomed(Answered(s, n), n)
  {
    AnsweredDrains(s, n);
    if !Decide(s.objs[n]).Nothing? { GiveUpBack(Answered(s, n), n); }
  }

  lemma AnsweredDrains(s: State, n: Name)
    requires Ignored(s, n) && n !in s.recs
    ensures Decide(s.objs[n]).Nothing? ==> Answered(s, n) == Drained(s, n, s.timers)
    ensures !Decide(s.objs[n]).Nothing? ==>
              n in Answered(s, n).recs && Answered(s, n).recs[n] == Deciding(s.objs[n])
              && GaveUp(Answered(s, n), n) == Drained(s, n, s.timers + {n})
  {
  }

  /** Requests for an ignored template can come to nothing: if it is doomed without them, it is doomed. */
  lemma DrainBack(s: State, n: Name)
    requires Book(s) && Ignored(s, n) && (n in s.recs ==> s.recs[n].Deciding?)
    requires forall timers | Book(Drained(s, n, timers)) :: Doomed(Drained(s, n, timers), n)
    ensures Doomed(s, n)
  {
    if n in s.recs {
      forall timers
        ensures Drained(GaveUp(s, n), n, timers) == Drained(s, n, timers)
      {
        assert GaveUp(s, n).events - {n} == s.events - {n} && GaveUp(s, n).recs - {n} == s.recs - {n};
      }
      if Book(GaveUp(s, n)) { UnaskedBack(GaveUp(s, n), n); }
      GiveUpBack(s, n);
    } else {
      UnaskedBack(s, n);
    }
  }

  // ---------- a worker on another spec than the stored one ----------

  /** Worker `w` is the only one at work on `n`, and nothing queued will bring another. */
  ghost predicate Only(s: State, n: Name, w: nat) {
    && w in s.workers && s.workers[w].name == n && !Lasting(s, n)
    && (forall v | v in s.workers && s.workers[v].name == n && v != w :: s.workers[v].stage == Ended)
  }

  /** The worker is about to complete, or to apply and complete, another spec than the stored one. */
  predicate OnOther(s: State, n: Name, w: nat)
    requires w in s.workers
  {
    n in s.objs && IsApart(s, n, w, s.objs[n].spec)
  }

  /** The worker applies another spec than this one, or has just done so. */
  predicate IsApart(s: State, n: Name, w: nat, spec: Spec)
    requires w in s.workers
  {
    match s.workers[w].stage
    case Applying(todo, _) => todo != spec
    case Finishing(_) => n in s.applied && s.applied[n] != spec
    case _ => false
  }

  lemma CompleteDooms(s: State, n: Name, w: nat)
    requires Book(s) && Only(s, n, w) && OnOther(s, n, w) && s.workers[w].stage.Finishing?
    requires n !in s.events && n !in s.recs
    ensures Doomed(s, n)
  {
    assert Rests(CompletedBy(s, w), n);
    LostIsDoomed(CompletedBy(s, w), n);
    CompleteBack(s, w);
  }

  lemma ApplyDooms(s: State, n: Name, w: nat)
    requires Book(s) && Only(s, n, w) && OnOther(s, n, w) && n !in s.events && n !in s.recs
    ensures Doomed(s, n)
  {
    if s.workers[w].stage.Finishing? {
      CompleteDooms(s, n, w);
    } else {
      if Book(Looped(s, w)) { CompleteDooms(Looped(s, w), n, w); }
      LoopDoneBack(s, w);
    }
  }

  /** Whatever is asked of Reconcile, it ignores the template while the worker is on another spec. */
  lemma IgnoredDooms(s: State, n: Name, w: nat)
    requires Book(s) && Only(s, n, w) && OnOther(s, n, w) && Ignored(s, n)
    ensures Doomed(s, n)
  {
    forall timers | Book(Drained(s, n, timers))
      ensures Doomed(Drained(s, n, timers), n)
    {
      ApplyDooms(Drained(s, n, timers), n, w);
    }
    DrainBack(s, n);
  }

  /** Nothing is pending while the worker is on another spec. */
  lemma QuietDooms(s: State, n: Name, w: nat)
    requires Book(s) && Only(s, n, w) && OnOther(s, n, w) && !Pending(s, n)
    ensures Doomed(s, n)
  {
    if n in s.recs {
      if Book(GaveUp(s, n)) { ApplyDooms(GaveUp(s, n), n, w); }
      GiveUpBack(s, n);
    } else {
      ApplyDooms(s, n, w);
    }
  }

  /** An edit to a spec that the worker does not apply and Reconcile ignores. */
  lemma EditDooms(s: State, n: Name, w: nat, spec: Spec)
    requires Book(s) && Only(s, n, w) && n in s.objs && s.objs[n].phase != Failed
    requires !Reacts(Decide(s.objs[n].(spec := spec, resume := false))) && IsApart(s, n, w, spec)
    ensures Doomed(s, n)
  {
    if Book(EditedTo(s, n, spec)) { IgnoredDooms(EditedTo(s, n, spec), n, w); }
    EditBack(s, n, spec);
  }

  lemma OtherSpec(spec: Spec) returns (other: Spec)
    ensures other != spec
  {
    other := spec + "'";
    assert |other| == |spec| + 1;
  }

  /** A worker under a status that hides edits, or with one that is not pending. */
  lemma ProgressDooms(s: State, n: Name, w: nat, spec: Spec)
    requires Book(s) && Only(s, n, w) && Applies(s.workers[w].stage, spec) && !InProgress(s, n, spec)
    requires s.workers[w].stage.Finishing? ==> n in s.applied && s.applied[n] == spec
    ensures Doomed(s, n)
  {
    var t := s.objs[n];
    if t.phase == Paused || (t.phase == Completed && t.hash == NoHash) {
      var other := OtherSpec(spec);
      EditDooms(s, n, w, other);
    } else if t.phase == Completed && t.hash != HashOf(spec) {
      EditDooms(s, n, w, t.hash.spec);
    } else if t.phase == Failed && !Decide(t).MarkQueued? {
      IgnoredDooms(s, n, w);
    } else {
      QuietDooms(s, n, w);
    }
  }

  // ---------- a status that hides the next edit ----------

  /** Completed, without the stored spec applied, and Reconcile ignores that. */
  lemma HiddenDooms(s: State, n: Name)
    requires Book(s) && Ignored(s, n) && s.objs[n].phase == Completed && Rests(s, n) && !Lasting(s, n)
    requires n in s.applied ==> s.applied[n] != s.objs[n].spec
    ensures Doomed(s, n)
  {
    forall timers | Book(Drained(s, n, timers))
      ensures Doomed(Drained(s, n, timers), n)
    {
      assert Rests(Drained(s, n, timers), n);
      LostIsDoomed(Drained(s, n, timers), n);
    }
    DrainBack(s, n);
  }

  /** A Completed template with the hash of another spec than the one applied: an edit to that spec. */
  lemma WrongHashDooms(s: State, n: Name)
    requires Book(s) && n in s.objs && s.objs[n].phase == Completed && Rests(s, n) && !Lasting(s, n)
    requires n in s.applied ==> s.objs[n].hash != HashOf(s.applied[n])
    ensures Doomed(s, n)
  {
    var other := OtherSpec(if n in s.applied then s.applied[n] else "");
    var spec := if s.objs[n].hash.HashOf? then s.objs[n].hash.spec else other;
    if Book(EditedTo(s, n, spec)) {
      assert Rests(EditedTo(s, n, spec), n);
      HiddenDooms(EditedTo(s, n, spec), n);
    }
    EditBack(s, n, spec);
  }

  /** The worker is about to record another spec than the one applied. */
  lemma RecordDooms(s: State, n: Name, w: nat)
    requires Book(s) && Only(s, n, w) && n in s.objs && s.workers[w].stage.Finishing?
    requires n in s.applied ==> s.applied[n] != s.workers[w].stage.read
    ensures Doomed(s, n)
  {
    if Book(CompletedBy(s, w)) {
      assert Rests(CompletedBy(s, w), n);
      WrongHashDooms(CompletedBy(s, w), n);
    }
    CompleteBack(s, w);
  }

  /** The same without the object: a user creates it. */
  lemma UnrecordedDooms(s: State, n: Name, w: nat)
    requires Book(s) && Only(s, n, w) && s.workers[w].stage.Finishing?
    requires n in s.applied ==> s.applied[n] != s.workers[w].stage.read
    ensures Doomed(s, n)
  {
    if n in s.objs {
      RecordDooms(s, n, w);
    } else {
      if Book(CreatedAs(s, n, "")) { RecordDooms(CreatedAs(s, n, ""), n, w); }
      CreateBack(s, n, "");
    }
  }

  lemma MixedUpDooms(s: State, n: Name, w: nat)
    requires Book(s) && Only(s, n, w) && s.workers[w].stage.Applying?
    requires s.workers[w].stage.todo != s.workers[w].stage.read
    ensures Doomed(s, n)
  {
    if Book(Looped(s, w)) { UnrecordedDooms(Looped(s, w), n, w); }
    LoopDoneBack(s, w);
  }

  // ---------- the invariant is exact ----------

  lemma TaskDooms(s: State, w: nat)
    requires Book(s) && OnePerName(s.workers) && w in s.workers && !TaskSound(s, w)
    ensures Doomed(s, s.workers[w].name)
  {
    var n, stage := s.workers[w].name, s.workers[w].stage;
    assert Only(s, n, w);
    if stage.Applying? {
      if stage.todo == stage.read { ProgressDooms(s, n, w, stage.todo); } else { MixedUpDooms(s, n, w); }
    } else if n in s.applied && s.applied[n] == stage.read {
      ProgressDooms(s, n, w, stage.read);
    } else {
      UnrecordedDooms(s, n, w);
    }
  }

  lemma DoneDooms(s: State, n: Name)
    requires Book(s) && n in s.objs && !DoneSound(s, n)
    ensures Doomed(s, n)
  {
    NobodyRests(s, n);
    if n in s.applied && s.objs[n].hash == HashOf(s.applied[n]) {
      LostIsDoomed(s, n);
    } else {
      WrongHashDooms(s, n);
    }
  }

  /** With at most one worker per template, the sound states are exactly those from which no proper
      continuation loses an edit. */
  lemma SoundIffSafe(s: State)
    requires Book(s) && OnePerName(s.workers)
    ensures Sound(s) <==> forall n :: !Doomed(s, n)
  {
    if Sound(s) {
      forall n
        ensures !Doomed(s, n)
      {
        SoundIsSafe(s, n);
      }
    } else if w :| w in s.workers && !TaskSound(s, w) {
      TaskDooms(s, w);
    } else {
      var n :| n in s.objs && !DoneSound(s, n);
      DoneDooms(s, n);
    }
  }

  // ---------- the guards are exact ----------

  lemma UnnoticedIsUnsound(s: State, l: Step)
    requires Sound(s) && Enabled(s, l) && !Keeps(Noticed, s, l)
    ensures !Sound(Next(s, l))
  {
    var s' := Next(s, l);
    var w, todo :| w in s.workers && s.workers[w].name == l.n && Applies(s.workers[w].stage, todo)
                   && l.spec != todo && !Decide(s.objs[l.n].(spec := l.spec)).MarkQueued?;
    assert TaskSound(s, w);
    assert s'.workers == s.workers && s'.q == s.q && s'.recs == s.recs;
    assert !TaskSound(s', w);
  }

  lemma StaleIsUnsound(s: State, l: Step)
    requires Enabled(s, l) && !Keeps(Current, s, l)
    ensures !Sound(Next(s, l))
  {
    WorkerFrame(s, l);
    assert !TaskSound(Next(s, l), l.w);
  }

  /** A status write of a worker's first or last step that does not land. */
  predicate LostWrite(l: Step) { (l.WorkerStart? || l.WorkerPause?) && !l.ok }

  /** A Reconcile is on its way that will enqueue the template, and the status does not keep it from
      reacting to the next edit either. */
  predicate Healed(s: State, l: Step) {
    && LostWrite(l) && l.w in s.workers
    && var n := s.workers[l.w].name;
       && n in s.objs && (n in s.events || ReconPending(s, n))
       && var t := s.objs[n];
          if l.WorkerPause? then t.phase == Completed && n in s.applied && t.hash == HashOf(s.applied[n])
          else Watched(t.phase) || (t.phase == Failed && Decide(t).MarkQueued?)
               || (t.phase == Completed && t.hash == HashOf(l.seen))
  }

  lemma HealedIsSound(s: State, l: Step)
    requires Sound(s) && Enabled(s, l) && Healed(s, l)
    ensures Sound(Next(s, l))
  {
    var stage := if l.WorkerStart? then Applying(l.seen, l.seen) else Ended;
    assert Next(s, l) == Advance(s, l.w, stage);
    MoveKeeps(s, Advance(s, l.w, stage), l.w, stage);
  }

  lemma UnmarkedIsUnsound(s: State, w: nat, seen: Spec)
    requires Sound(s) && Enabled(s, WorkerStart(w, false, seen)) && !Healed(s, WorkerStart(w, false, seen))
    requires !Keeps(Guard.Written, s, WorkerStart(w, false, seen))
    ensures !TaskSound(Advance(s, w, Applying(seen, seen)), w)
  {
    var n, s' := s.workers[w].name, Advance(s, w, Applying(seen, seen));
    assert !Rereads(s', n);
  }

  lemma UnpausedIsUnsound(s: State, w: nat)
    requires Sound(s) && Enabled(s, WorkerPause(w, false)) && !Healed(s, WorkerPause(w, false))
    requires !Keeps(Guard.Written, s, WorkerPause(w, false))
    ensures !DoneSound(Advance(s, w, Ended), s.workers[w].name)
  {
    var n, s' := s.workers[w].name, Advance(s, w, Ended);
    assert !Rereads(s', n) && !Worked(s', n);
  }

  lemma UnwrittenIsUnsound(s: State, l: Step)
    requires Sound(s) && Enabled(s, l) && !Keeps(Guard.Written, s, l) && !Healed(s, l)
    ensures !Sound(Next(s, l))
  {
    if l.WorkerStart? { UnmarkedIsUnsound(s, l.w, l.seen); } else { UnpausedIsUnsound(s, l.w); }
  }

  lemma UnsettledIsUnsound(s: State, l: Step)
    requires Sound(s) && Enabled(s, l) && !Keeps(Settled, s, l)
    ensures !Sound(Next(s, l))
  {
    var s', n := Next(s, l), l.n;
    if w :| w in s.workers && s.workers[w].name == n && s.workers[w].stage.Finishing?
            && s.workers[w].stage.read != s.recs[n].snap.spec {
      assert !TaskSound(s', w);
    } else {
      assert DoneSound(s, n) && !DoneSound(s', n);
    }
  }

  /** From a sound state, with fresh reads, a step other than taking an item leads to a doomed state
      exactly if it breaks a guard and is not a lost write that will be healed. */
  lemma GuardsAreExact(s: State, l: Step)
    requires Book(s) && Sound(s) && Enabled(s, l) && !l.WorkerTake? && (l.CtrlGet? ==> l.read == Lookup(s, l.n))
    ensures (exists n :: Doomed(Next(s, l), n)) <==> !Guarded(s, l) && !Healed(s, l)
  {
    StepKeepsBook(s, l);
    StepKeepsOne(s, l);
    SoundIffSafe(Next(s, l));
    if Guarded(s, l) {
      if l.CtrlGet? && !(l.read.Found? && Reacts(Decide(l.read.template))) { FineIfIdle(s, l.n); }
      StepKeepsSound(s, l);
    } else if Healed(s, l) {
      HealedIsSound(s, l);
    } else {
      BreachIsUnsound(s, l);
    }
  }

  lemma BreachIsUnsound(s: State, l: Step)
    requires Sound(s) && Enabled(s, l) && !l.WorkerTake? && !Guarded(s, l) && !Healed(s, l)
    ensures !Sound(Next(s, l))
  {
    var g :| !Keeps(g, s, l);
    match g
    case Noticed => UnnoticedIsUnsound(s, l);
    case Current => StaleIsUnsound(s, l);
    case Written => UnwrittenIsUnsound(s, l);
    case Settled => UnsettledIsUnsound(s, l);
  }

  lemma StepKeepsOne(s: State, l: Step)
    requires OnePerName(s.workers) && Enabled(s, l) && !l.WorkerTake?
    ensures OnePerName(Next(s, l).workers)
  {
    if l.CtrlGet? {
      GetFrame(s, l.n, l.read, l.more);
    } else if l.CtrlWrite? {
      WriteFrame(s, l.n, l.outcome);
    }
  }

  // ---------- two workers on one template ----------

  /** Workers `w` and `v` are the only ones at work on `n`, and nothing queued will bring another. */
  ghost predicate Both(s: State, n: Name, w: nat, v: nat) {
    && w in s.workers && s.workers[w].name == n && v in s.workers && s.workers[v].name == n && v != w
    && !Lasting(s, n)
    && (forall u | u in s.workers && s.workers[u].name == n && u != v && u != w :: s.workers[u].stage == Ended)
  }

  /** A user replaces the object by a new one. */
  lemma RecreateBack(s: State, n: Name, spec: Spec)
    requires Book(s) && (Book(Recreated(s, n, spec)) ==> Doomed(Recreated(s, n, spec), n))
    ensures Doomed(s, n)
  {
    if n in s.objs {
      if Book(Without(s, n)) { CreateBack(Without(s, n), n, spec); }
      DeleteBack(s, n);
    } else {
      CreateBack(s, n, spec);
    }
  }

  ghost function Recreated(s: State, n: Name, spec: Spec): State {
    CreatedAs(if n in s.objs then Without(s, n) else s, n, spec)
  }

  /** Once the second worker has completed the stored spec, the first one is left alone on another. */
  lemma LeftAlone(s: State, n: Name, v: nat)
    requires Book(s) && Only(s, n, v) && n in s.objs && s.objs[n].phase == Completed
    requires s.objs[n].hash == HashOf(s.objs[n].spec) && n in s.applied && s.applied[n] == s.objs[n].spec
    requires AtWork(s.workers[v].stage) && !Applies(s.workers[v].stage, s.objs[n].spec)
    ensures Doomed(s, n)
  {
    if s.workers[v].stage.Applying? { IgnoredDooms(s, n, v); } else { RecordDooms(s, n, v); }
  }

  lemma SecondCompletes(s: State, n: Name, w: nat, v: nat)
    requires Book(s) && Both(s, n, w, v) && n in s.objs && s.workers[w].stage == Finishing(s.objs[n].spec)
    requires n in s.applied && s.applied[n] == s.objs[n].spec
    requires AtWork(s.workers[v].stage) && !Applies(s.workers[v].stage, s.objs[n].spec)
    ensures Doomed(s, n)
  {
    if Book(CompletedBy(s, w)) { LeftAlone(CompletedBy(s, w), n, v); }
    CompleteBack(s, w);
  }

  lemma SecondApplies(s: State, n: Name, w: nat, v: nat)
    requires Book(s) && Both(s, n, w, v) && n in s.objs
    requires s.workers[w].stage == Applying(s.objs[n].spec, s.objs[n].spec)
    requires AtWork(s.workers[v].stage) && !Applies(s.workers[v].stage, s.objs[n].spec)
    ensures Doomed(s, n)
  {
    if Book(Looped(s, w)) { SecondCompletes(Looped(s, w), n, w, v); }
    LoopDoneBack(s, w);
  }

  lemma SecondStarts(s: State, n: Name, w: nat, v: nat)
    requires Book(s) && Both(s, n, w, v) && n in s.objs && s.workers[w].stage == Ready
    requires AtWork(s.workers[v].stage) && !Applies(s.workers[v].stage, s.objs[n].spec)
    ensures Doomed(s, n)
  {
    if Book(Started(s, w)) { SecondApplies(Started(s, w), n, w, v); }
    StartBack(s, w);
  }

  lemma SecondFetches(s: State, n: Name, w: nat, v: nat)
    requires Book(s) && Both(s, n, w, v) && n in s.objs && s.workers[w].stage == Taken
    requires AtWork(s.workers[v].stage) && !Applies(s.workers[v].stage, s.objs[n].spec)
    ensures Doomed(s, n)
  {
    if Book(Advance(s, w, Ready)) { SecondStarts(Advance(s, w, Ready), n, w, v); }
    GetBack(s, w);
  }

  /** The first worker is applying: the second finds another spec. */
  lemma WorkingDooms(s: State, n: Name, w: nat, v: nat)
    requires Book(s) && Both(s, n, w, v) && s.workers[w].stage == Taken && AtWork(s.workers[v].stage)
    ensures Doomed(s, n)
  {
    var other := OtherSpec(if s.workers[v].stage.Applying? then s.workers[v].stage.todo else s.workers[v].stage.read);
    if Book(Recreated(s, n, other)) { SecondFetches(Recreated(s, n, other), n, w, v); }
    RecreateBack(s, n, other);
  }

  lemma ReadyDooms(s: State, n: Name, w: nat, v: nat)
    requires Book(s) && Both(s, n, w, v) && s.workers[w].stage == Taken && s.workers[v].stage == Ready && n in s.objs
    ensures Doomed(s, n)
  {
    if Book(Started(s, v)) { WorkingDooms(Started(s, v), n, w, v); }
    StartBack(s, v);
  }

  lemma TakenDooms(s: State, n: Name, w: nat, v: nat)
    requires Book(s) && Both(s, n, w, v) && s.workers[w].stage == s.workers[v].stage == Taken && n in s.objs
    ensures Doomed(s, n)
  {
    if Book(Advance(s, v, Ready)) { ReadyDooms(Advance(s, v, Ready), n, w, v); }
    GetBack(s, v);
  }

  /** The first worker is yet to start. */
  lemma StartingDooms(s: State, n: Name, w: nat, v: nat)
    requires Book(s) && Both(s, n, w, v) && s.workers[w].stage == Taken
    requires s.workers[v].stage == Taken || s.workers[v].stage == Ready
    ensures Doomed(s, n)
  {
    var s' := Recreated(s, n, "");
    if Book(s') {
      if s.workers[v].stage == Taken { TakenDooms(s', n, w, v); } else { ReadyDooms(s', n, w, v); }
    }
    RecreateBack(s, n, "");
  }

  /** The first worker pauses the template under the second one's hands: the next edit is ignored. */
  lemma PausedDooms(s: State, n: Name, w: nat, v: nat)
    requires Book(s) && Both(s, n, w, v) && s.workers[w].stage.Applying? && s.workers[v].stage == Pausing
    requires n in s.objs
    ensures Doomed(s, n)
  {
    if Book(PausedBy(s, v)) { UnderPause(PausedBy(s, v), n, w); }
    PauseBack(s, v);
  }

  lemma UnderPause(s: State, n: Name, w: nat)
    requires Book(s) && Only(s, n, w) && s.workers[w].stage.Applying? && n in s.objs && s.objs[n].phase == Paused
    ensures Doomed(s, n)
  {
    var other := OtherSpec(s.workers[w].stage.todo);
    EditDooms(s, n, w, other);
  }

  lemma StartUnderPause(s: State, n: Name, w: nat, v: nat)
    requires Book(s) && Both(s, n, w, v) && s.workers[w].stage == Ready && s.workers[v].stage == Pausing
    requires n in s.objs
    ensures Doomed(s, n)
  {
    if Book(Started(s, w)) { PausedDooms(Started(s, w), n, w, v); }
    StartBack(s, w);
  }

  lemma FetchUnderPause(s: State, n: Name, w: nat, v: nat)
    requires Book(s) && Both(s, n, w, v) && s.workers[w].stage == Taken && s.workers[v].stage == Pausing
    requires n in s.objs
    ensures Doomed(s, n)
  {
    if Book(Advance(s, w, Ready)) { StartUnderPause(Advance(s, w, Ready), n, w, v); }
    GetBack(s, w);
  }

  lemma PausingDooms(s: State, n: Name, w: nat, v: nat)
    requires Book(s) && Both(s, n, w, v) && s.workers[w].stage == Taken && s.workers[v].stage == Pausing
    ensures Doomed(s, n)
  {
    if Book(Recreated(s, n, "")) { FetchUnderPause(Recreated(s, n, ""), n, w, v); }
    RecreateBack(s, n, "");
  }

  /** The worker has failed and will give its item back, since its budget is not used up. */
  predicate GivesBack(s: State, v: nat)
    requires v in s.workers
  {
    s.workers[v].stage == Erred && s.workers[v].item in s.q.held
    && !WorkerPauses(s.q.cfg, s.q.held[s.workers[v].item].budget)
  }

  lemma FailedDooms(s: State, n: Name, w: nat, v: nat)
    requires Book(s) && Both(s, n, w, v) && s.workers[w].stage == Taken && s.workers[v].stage == Erred
    requires !GivesBack(s, v)
    ensures Doomed(s, n)
  {
    var l, s' := WorkerFail(v, 0), Advance(s, v, Pausing);
    assert Next(s, l) == s';
    WriteKeepsBook(s, v, false, New, Pausing);
    PausingDooms(s', n, w, v);
    PlainIsProper(s, l);
    DoomedBack(s, l, n);
  }

  lemma BothDooms(s: State, n: Name, w: nat, v: nat)
    requires Book(s) && Both(s, n, w, v) && s.workers[w].stage == Taken && s.workers[v].stage != Ended
    requires !GivesBack(s, v)
    ensures Doomed(s, n)
  {
    match s.workers[v].stage
    case Taken => StartingDooms(s, n, w, v);
    case Ready => StartingDooms(s, n, w, v);
    case Applying(_, _) => WorkingDooms(s, n, w, v);
    case Finishing(_) => WorkingDooms(s, n, w, v);
    case Erred => FailedDooms(s, n, w, v);
    case Pausing => PausingDooms(s, n, w, v);
  }

  /** Taking the last item of a template, in a sound state, dooms it exactly if another worker is still
      at work on it; one that only has to give its item back does not count. */
  lemma TakeIsExact(s: State, w: nat, item: nat, now: int)
    requires Book(s) && Sound(s) && Enabled(s, WorkerTake(w, item, now))
    requires var n := s.q.queued[item].name;
             && !Lasting(Took(s, w, item), n)
             && forall v | v in s.workers && s.workers[v].name == n :: !GivesBack(s, v)
    ensures Doomed(Next(s, WorkerTake(w, item, now)), s.q.queued[item].name)
            <==> !Keeps(Alone, s, WorkerTake(w, item, now))
  {
    StepKeepsBook(s, WorkerTake(w, item, now));
    if Keeps(Alone, s, WorkerTake(w, item, now)) {
      TakeKeeps(s, w, item);
      SoundIsSafe(Took(s, w, item), s.q.queued[item].name);
    } else {
      CrowdDooms(s, w, item);
    }
  }

  lemma CrowdDooms(s: State, w: nat, item: nat)
    requires Crew(s.q.held, s.workers) && OnePerName(s.workers) && w !in s.workers
    requires item in s.q.queued && item !in s.q.held && Book(Took(s, w, item))
    requires var n := s.q.queued[item].name;
             && !Lasting(Took(s, w, item), n) && !Rests(s, n)
             && forall v | v in s.workers && s.workers[v].name == n :: !GivesBack(s, v)
    ensures Doomed(Took(s, w, item), s.q.queued[item].name)
  {
    var n := s.q.queued[item].name;
    var v :| v in s.workers && s.workers[v].name == n && s.workers[v].stage != Ended;
    TakenByBoth(s, w, item, v);
    BothDooms(Took(s, w, item), n, w, v);
  }

  lemma TakenByBoth(s: State, w: nat, item: nat, v: nat)
    requires Crew(s.q.held, s.workers) && OnePerName(s.workers) && w !in s.workers && item in s.q.queued
    requires item !in s.q.held
    requires v in s.workers && s.workers[v].name == s.q.queued[item].name && s.workers[v].stage != Ended
    requires !Lasting(Took(s, w, item), s.q.queued[item].name) && !GivesBack(s, v)
    ensures Both(Took(s, w, item), s.q.queued[item].name, w, v) && !GivesBack(Took(s, w, item), v)
  {
  }
}
