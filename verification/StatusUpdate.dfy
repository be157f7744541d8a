/** The worker's status update: fetch, modify, write, and try again on a conflict, up to three times,
    while other writers keep changing the same object. */
module StatusUpdate {
  import opened Common

  /** A write by someone else: a change of the object, its deletion, or its creation. */
  datatype Edit<!T> = Change(f: T -> T) | Delete | Create(value: T)

  /** What the world does during one attempt: writes before the fetch, writes between the fetch and the
      update, and whether the fetch or the update fails for a reason of its own. */
  datatype Turn<!T> = Turn(before: seq<Edit<T>>, readFails: bool, between: seq<Edit<T>>, writeFails: bool)

  datatype Outcome = Updated | ReadError | Conflict | WriteError

  function Edited<T>(o: Option<T>, e: Edit<T>): Option<T> {
    match e
    case Change(f) => if o.Some? then Some(f(o.value)) else None
    case Delete => None
    case Create(value) => if o.Some? then o else Some(value)
  }

  /** The object after a sequence of writes. */
  function Played<T>(o: Option<T>, es: seq<Edit<T>>): Option<T> {
    if |es| == 0 then o else Edited(Played(o, es[..|es| - 1]), es[|es| - 1])
  }

  /** Only an existing object can be changed or deleted, and only a missing one created. */
  predicate Accepted<T>(o: Option<T>, e: Edit<T>) { if e.Create? then o.None? else o.Some? }

  /** How many of the writes are accepted. */
  function Writes<T>(o: Option<T>, es: seq<Edit<T>>): nat {
    if |es| == 0 then 0
    else
      var k := |es| - 1;
      Writes(o, es[..k]) + if Accepted(Played(o, es[..k]), es[k]) then 1 else 0
  }

  /** Rejected writes change nothing. */
  lemma {:induction false} NoWrites<T>(o: Option<T>, es: seq<Edit<T>>)
    requires Writes(o, es) == 0
    ensures Played(o, es) == o
  {
    if |es| > 0 { NoWrites(o, es[..|es| - 1]); }
  }

  lemma {:induction false} PlayedConcat<T>(o: Option<T>, a: seq<Edit<T>>, b: seq<Edit<T>>)
    ensures Played(o, a + b) == Played(Played(o, a), b)
    ensures Writes(o, a + b) == Writes(o, a) + Writes(Played(o, a), b)
  {
    if |b| == 0 {
      assert a + b == a;
    } else {
      var k := |b| - 1;
      assert (a + b)[..|a + b| - 1] == a + b[..k];
      PlayedConcat(o, a, b[..k]);
    }
  }

  /** The API server's copy of one object. Every accepted write raises the resource version. */
  class Server<!T> {
    var stored: Option<T>
    var version: nat

    constructor (o: Option<T>)
      ensures stored == o
    {
      stored, version := o, 0;
    }

    /** Other writers go ahead. */
    method Others(es: seq<Edit<T>>)
      modifies this
      ensures stored == Played(old(stored), es) && version == old(version) + Writes(old(stored), es)
    {
      var k := 0;
      while k < |es|
        invariant 0 <= k <= |es|
        invariant stored == Played(old(stored), es[..k]) && version == old(version) + Writes(old(stored), es[..k])
      {
        assert es[..k + 1][..k] == es[..k];
        if Accepted(stored, es[k]) {
          stored, version := Edited(stored, es[k]), version + 1;
        }
        k := k + 1;
      }
      assert es[..k] == es;
    }

    /** An update that carries the version it is based on. */
    method Update(value: T, based: nat) returns (r: Outcome)
      modifies this
      ensures r == if old(stored).None? then WriteError else if old(version) != based then Conflict else Updated
      ensures r.Updated? ==> stored == Some(value) && version == old(version) + 1
      ensures !r.Updated? ==> stored == old(stored) && version == old(version)
    {
      if stored.None? {
        return WriteError;
      }
      if version != based {
        return Conflict;
      }
      stored, version := Some(value), version + 1;
      return Updated;
    }
  }

  const MAX_TRIES: nat := 3

  // ---------- what the loop should report ----------

  /** How one attempt ends that starts from object `o`. A write in between makes it conflict. */
  function Attempt<T>(o: Option<T>, turn: Turn<T>): Outcome {
    var read := Played(o, turn.before);
    if turn.readFails || read.None? then ReadError
    else if turn.writeFails || Played(read, turn.between).None? then WriteError
    else if Writes(read, turn.between) > 0 then Conflict
    else Updated
  }

  /** How the whole call ends: only a conflict is tried again, while turns are left. */
  function Verdict<T>(o: Option<T>, turns: seq<Turn<T>>): Outcome
    requires |turns| > 0
    decreases |turns|
  {
    var r := Attempt(o, turns[0]);
    if r.Conflict? && |turns| > 1
    then Verdict(Played(o, turns[0].before + turns[0].between), turns[1..])
    else r
  }

  /** All writes by others during the given turns. */
  function Edits<T>(turns: seq<Turn<T>>): seq<Edit<T>> {
    if |turns| == 0 then []
    else Edits(turns[..|turns| - 1]) + turns[|turns| - 1].before + turns[|turns| - 1].between
  }

  /** The verdict of a call that has used up the first `k` turns on conflicts is that of the rest. */
  ghost predicate Resumed<T>(o: Option<T>, turns: seq<Turn<T>>, k: nat)
    requires k < |turns|
  {
    Verdict(o, turns) == Verdict(Played(o, Edits(turns[..k])), turns[k..])
  }

  lemma ConflictGoesOn<T>(o: Option<T>, turns: seq<Turn<T>>, k: nat)
    requires k + 1 < |turns| && Resumed(o, turns, k)
    requires Attempt(Played(o, Edits(turns[..k])), turns[k]).Conflict?
    ensures Resumed(o, turns, k + 1)
  {
    var done := Edits(turns[..k]);
    var more := turns[k].before + turns[k].between;
    assert turns[..k + 1][..k] == turns[..k];
    assert Edits(turns[..k + 1]) == done + more;
    PlayedConcat(o, done, more);
    assert turns[k..][1..] == turns[k + 1..];
  }

  /** The retry loop. `seen` are the writes by others that happened before it returned, in order.

      On success the stored object is `f` of the object as it was at that very moment, with every write
      by others in it; on failure the call has written nothing. */
  method UpdateStatusWithRetry<T>(server: Server<T>, f: T -> T, turns: seq<Turn<T>>)
    returns (r: Outcome, ghost seen: seq<Edit<T>>)
    requires |turns| == MAX_TRIES
    modifies server
    ensures r == Verdict(old(server.stored), turns)
    ensures seen <= Edits(turns)
    ensures r.Updated? ==>
              var current := Played(old(server.stored), seen);
              && current.Some? && server.stored == Some(f(current.value))
              && server.version == old(server.version) + Writes(old(server.stored), seen) + 1
    ensures !r.Updated? ==>
              && server.stored == Played(old(server.stored), seen)
              && server.version == old(server.version) + Writes(old(server.stored), seen)
  {
    ghost var o := server.stored;
    var retries := 0;
    seen := [];
    assert turns[..0] == [] && turns[0..] == turns;
    while true
      invariant 0 <= retries < MAX_TRIES
      invariant seen == Edits(turns[..retries]) && Resumed(o, turns, retries)
      invariant server.stored == Played(o, seen) && server.version == old(server.version) + Writes(o, seen)
      decreases MAX_TRIES - retries
    {
      var turn := turns[retries];
      TurnEdits(o, turns, retries);
      server.Others(turn.before);
      seen := seen + turn.before;
      if turn.readFails || server.stored.None? {
        return ReadError, seen;
      }
      var fetched, based := server.stored.value, server.version;
      server.Others(turn.between);
      seen := seen + turn.between;
      if turn.writeFails {
        return WriteError, seen;
      }
      if server.version == based { NoWrites(Some(fetched), turn.between); }
      r := server.Update(f(fetched), based);
      if r.Conflict? && retries < MAX_TRIES - 1 {
        ConflictGoesOn(o, turns, retries);
        retries := retries + 1;
        continue;
      }
      return;
    }
  }

  /** The writes of turn `k` come after those of the turns before it. */
  lemma TurnEdits<T>(o: Option<T>, turns: seq<Turn<T>>, k: nat)
    requires k < |turns|
    ensures var done := Edits(turns[..k]);
            && done + turns[k].before <= Edits(turns) && done + turns[k].before + turns[k].between <= Edits(turns)
            && Edits(turns[..k + 1]) == done + turns[k].before + turns[k].between
            && Played(o, done + turns[k].before) == Played(Played(o, done), turns[k].before)
            && Played(o, done + turns[k].before + turns[k].between)
               == Played(Played(Played(o, done), turns[k].before), turns[k].between)
            && Writes(o, done + turns[k].before) == Writes(o, done) + Writes(Played(o, done), turns[k].before)
            && Writes(o, done + turns[k].before + turns[k].between)
               == Writes(o, done + turns[k].before)
                  + Writes(Played(Played(o, done), turns[k].before), turns[k].between)
  {
    var done := Edits(turns[..k]);
    assert turns[..k + 1][..k] == turns[..k];
    PlayedConcat(o, done, turns[k].before);
    PlayedConcat(o, done + turns[k].before, turns[k].between);
    EditsPrefix(turns, k + 1);
  }

  lemma {:induction false} EditsPrefix<T>(turns: seq<Turn<T>>, k: nat)
    requires k <= |turns|
    ensures Edits(turns[..k]) <= Edits(turns)
  {
    var last := |turns| - 1;
    if k == |turns| {
      assert turns[..k] == turns;
    } else {
      EditsPrefix(turns[..last], k);
      assert turns[..last][..k] == turns[..k];
    }
  }

  /** The outcome of attempt `a`, were it made after all the writes of the turns before it. */
  function TurnOutcome<T>(o: Option<T>, turns: seq<Turn<T>>, a: nat): Outcome
    requires a < |turns|
  {
    Attempt(Played(o, Edits(turns[..a])), turns[a])
  }

  /** Both calls of the turn go through, on an object that is there. */
  predicate Reaches<T>(o: Option<T>, turn: Turn<T>) {
    && !turn.readFails && !turn.writeFails
    && Played(o, turn.before).Some? && Played(o, turn.before + turn.between).Some?
  }

  /** Write `k` is accepted. */
  predicate AcceptedAt<T>(o: Option<T>, es: seq<Edit<T>>, k: nat)
    requires k < |es|
  {
    Accepted(Played(o, es[..k]), es[k])
  }

  /** Somebody writes between the fetch and the update. */
  predicate Overtaken<T>(o: Option<T>, turn: Turn<T>) {
    exists k | 0 <= k < |turn.between| :: AcceptedAt(Played(o, turn.before), turn.between, k)
  }

  lemma {:induction false} WritesIff<T>(o: Option<T>, es: seq<Edit<T>>)
    ensures Writes(o, es) > 0 <==> exists k | 0 <= k < |es| :: AcceptedAt(o, es, k)
  {
    if |es| > 0 {
      var last := |es| - 1;
      WritesIff(o, es[..last]);
      forall k | 0 <= k < last
        ensures AcceptedAt(o, es[..last], k) <==> AcceptedAt(o, es, k)
      {
        assert es[..last][..k] == es[..k];
      }
      assert AcceptedAt(o, es, last) <==> Accepted(Played(o, es[..last]), es[last]);
    }
  }

  /** An attempt succeeds, or is tried again, exactly if its calls go through and nobody, or somebody,
      overtakes it. */
  lemma AttemptIff<T>(o: Option<T>, turn: Turn<T>)
    ensures Attempt(o, turn).Updated? <==> Reaches(o, turn) && !Overtaken(o, turn)
    ensures Attempt(o, turn).Conflict? <==> Reaches(o, turn) && Overtaken(o, turn)
    ensures Attempt(o, turn).ReadError? <==> turn.readFails || Played(o, turn.before).None?
  {
    PlayedConcat(o, turn.before, turn.between);
    WritesIff(Played(o, turn.before), turn.between);
  }

  /** Attempt `a` goes through undisturbed, after attempts that went through but were overtaken. */
  ghost predicate SucceedsAt<T>(o: Option<T>, turns: seq<Turn<T>>, a: nat)
    requires a < |turns|
  {
    && Reaches(Played(o, Edits(turns[..a])), turns[a]) && !Overtaken(Played(o, Edits(turns[..a])), turns[a])
    && forall b | 0 <= b < a ::
         Reaches(Played(o, Edits(turns[..b])), turns[b]) && Overtaken(Played(o, Edits(turns[..b])), turns[b])
  }

  /** A call succeeds exactly when some attempt is undisturbed after conflicts only. */
  lemma UpdatedIff<T>(o: Option<T>, turns: seq<Turn<T>>)
    requires |turns| > 0
    ensures Verdict(o, turns).Updated? <==> exists a | 0 <= a < |turns| :: SucceedsAt(o, turns, a)
  {
    assert turns[..0] == [] && turns[0..] == turns;
    VerdictFrom(o, turns, 0);
  }

  lemma {:induction false} VerdictFrom<T>(o: Option<T>, turns: seq<Turn<T>>, k: nat)
    requires k < |turns| && forall b | 0 <= b < k :: TurnOutcome(o, turns, b).Conflict?
    ensures Verdict(Played(o, Edits(turns[..k])), turns[k..]).Updated?
            <==> exists a | k <= a < |turns| :: SucceedsAt(o, turns, a)
    decreases |turns| - k
  {
    var here := Played(o, Edits(turns[..k]));
    assert turns[k..][0] == turns[k];
    forall b | 0 <= b <= k
      ensures TurnOutcome(o, turns, b).Conflict?
              <==> Reaches(Played(o, Edits(turns[..b])), turns[b])
                   && Overtaken(Played(o, Edits(turns[..b])), turns[b])
    {
      AttemptIff(Played(o, Edits(turns[..b])), turns[b]);
    }
    AttemptIff(here, turns[k]);
    if TurnOutcome(o, turns, k).Conflict? && k + 1 < |turns| {
      TurnEdits(o, turns, k);
      PlayedConcat(here, turns[k].before, turns[k].between);
      assert turns[k..][1..] == turns[k + 1..];
      VerdictFrom(o, turns, k + 1);
    } else if TurnOutcome(o, turns, k).Updated? {
      assert SucceedsAt(o, turns, k);
    }
  }
}
