/** Runs of the policy cache beside a changing API: once all policy events are handled, every live entry
    is what a fresh list would return, as long as no policy leaves a live entry behind by moving to
    another source namespace. */
module CacheRuns {
  import opened Common
  import opened PolicyCache

  type Api = map<Key, Policy>

  /** The policies that a list by source namespace in the operator's namespace returns. */
  ghost function Matching(api: Api, operator: string, ns: string): set<Key> {
    set k | k in api && k.namespace == operator && api[k].source == ns
  }

  /** A list of `ns` now would yield exactly the answer `v`. */
  ghost predicate ListIs(api: Api, operator: string, ns: string, v: Option<Policy>) {
    match v
    case None => Matching(api, operator, ns) == {}
    case Some(p) => exists k :: Matching(api, operator, ns) == {k} && k in api && api[k] == p
  }

  // ---------- agreement at rest ----------

  /** `toUpdate` are the policy events that the policy controller has not handled yet, `toSet` those of
      the cache controller; `last` is the source namespace that each policy has or had last. */
  datatype State = State(
    api: Api, entries: Entries, now: int, toUpdate: set<Key>, toSet: set<Key>, last: map<Key, string>)

  datatype Step =
    | PutPolicy(key: Key, policy: Policy)
    | DeletePolicy(key: Key)
    | Tick(to: int)
    | Get(ns: string, listing: Listing)
    | ReconcilePolicy(key: Key)
    | ReconcileCache(key: Key)

  /** A listing that reports the matching policies, in some order. */
  ghost predicate Reports(listing: Listing, api: Api, operator: string, ns: string) {
    listing.Listed? ==>
      && |listing.items| == |Matching(api, operator, ns)|
      && (forall p | p in listing.items :: exists k :: k in Matching(api, operator, ns) && api[k] == p)
  }

  ghost predicate Enabled(s: State, l: Step, operator: string) {
    match l
    case PutPolicy(_, _) => true
    case DeletePolicy(k) => k in s.api
    case Tick(to) => s.now <= to
    case Get(ns, listing) => Reports(listing, s.api, operator, ns)
    case ReconcilePolicy(k) => k in s.toUpdate
    case ReconcileCache(k) => k in s.toSet
  }

  /** What a controller finds under a key. */
  function Read(api: Api, k: Key): Option<Policy> { if k in api then Some(api[k]) else None }

  ghost function Next(s: State, l: Step, ttl: int): State {
    match l
    case PutPolicy(k, p) =>
      s.(api := s.api[k := p], toUpdate := s.toUpdate + {k}, toSet := s.toSet + {k}, last := s.last[k := p.source])
    case DeletePolicy(k) => s.(api := s.api - {k}, toUpdate := s.toUpdate + {k}, toSet := s.toSet + {k})
    case Tick(to) => s.(now := to)
    case Get(ns, listing) =>
      if Live(s.entries, ns, s.now) then s
      else s.(entries := Refreshed(s.entries, ns, listing, s.now, ttl))
    case ReconcilePolicy(k) =>
      s.(toUpdate := s.toUpdate - {k}, entries := PolicyHandled(s.entries, Read(s.api, k), s.now, ttl))
    case ReconcileCache(k) =>
      s.(toSet := s.toSet - {k}, entries := CacheHandled(s.entries, Read(s.api, k), s.now, ttl))
  }

  function Start(now: int): State { State(map[], map[], now, {}, {}, map[]) }

  ghost predicate IsRun(trace: seq<State>, ls: seq<Step>, operator: string, ttl: int) {
    && |trace| == |ls| + 1 && trace[0] == Start(trace[0].now)
    && (forall k {:trigger Enabled(trace[k], ls[k], operator)} | 0 <= k < |ls| ::
          Enabled(trace[k], ls[k], operator) && trace[k + 1] == Next(trace[k], ls[k], ttl))
  }

  /** The assumptions on the API: policies live in the operator's namespace and no two share a source
      namespace. */
  ghost predicate WellKept(api: Api, operator: string) {
    && (forall k | k in api :: k.namespace == operator)
    && (forall j, k | j in api && k in api && api[j].source == api[k].source :: j == k)
  }

  /** The policy arrives under another source namespace than it has, or had until a deletion that is not
      handled yet, and the entry of the old namespace is still live. */
  predicate Strays(s: State, k: Key, p: Policy) {
    && k in s.last && s.last[k] != p.source && (k in s.api || k in s.toUpdate)
    && Live(s.entries, s.last[k], s.now)
  }

  predicate Harmless(s: State, l: Step) { l.PutPolicy? ==> !Strays(s, l.key, l.policy) }

  lemma UniqueListing(api: Api, operator: string, k: Key)
    requires WellKept(api, operator) && k in api
    ensures Matching(api, operator, api[k].source) == {k}
    ensures ListIs(api, operator, api[k].source, Some(api[k]))
  {
    assert Matching(api, operator, api[k].source) == {k};
  }

  lemma ListingIsAnswer(api: Api, operator: string, ns: string, listing: Listing)
    requires WellKept(api, operator) && Reports(listing, api, operator, ns) && listing.Listed?
    ensures |listing.items| <= 1
    ensures ListIs(api, operator, ns, if |listing.items| == 0 then None else Some(listing.items[0]))
  {
    var m := Matching(api, operator, ns);
    if k :| k in m {
      assert m == {k};
      assert listing.items[0] in listing.items;
    }
  }

  /** What a miss answers, in terms of the policies that exist: exactly the one policy of the namespace,
      "not found" exactly if there is none, and an error exactly if there are several or the list fails. */
  lemma MissAnswers(api: Api, operator: string, ns: string, listing: Listing, p: Policy)
    requires Reports(listing, api, operator, ns)
    ensures listing.Listed? ==> (Answered(listing) == Found(p) <==> ListIs(api, operator, ns, Some(p)))
    ensures listing.Listed? ==> (Answered(listing) == NotFound <==> ListIs(api, operator, ns, None))
    ensures listing.Listed? ==> (Answered(listing) == Ambiguous <==> |Matching(api, operator, ns)| > 1)
    ensures Answered(listing) == ListFailed <==> listing.ListError?
  {
    var m := Matching(api, operator, ns);
    if listing.Listed? && |m| == 1 {
      assert listing.items[0] in listing.items;
      var k :| k in m && api[k] == listing.items[0];
      assert m == {k} by { assert |m - {k}| == 0; }
    }
    assert forall k: Key :: |{k}| == 1;
  }

  /** The same of a hit on an entry that is what a list would return. */
  lemma HitAnswers(api: Api, operator: string, ns: string, v: Option<Policy>, p: Policy)
    requires ListIs(api, operator, ns, v)
    ensures Reply(v) == Found(p) <==> ListIs(api, operator, ns, Some(p))
    ensures Reply(v) == NotFound <==> ListIs(api, operator, ns, None)
  {
    if v.Some? {
      var k :| Matching(api, operator, ns) == {k} && k in api && api[k] == v.value;
      assert k in Matching(api, operator, ns);
    }
  }

  /** A pending event of the policy controller will correct the entry of `ns`. */
  ghost predicate Owed(s: State, ns: string) {
    exists k :: k in s.toUpdate && k in s.last && s.last[k] == ns
  }

  /** Every live entry tells what a list would tell, unless an event that will correct it is pending. */
  ghost predicate Agrees(s: State, operator: string) {
    && (forall k | k in s.api :: k in s.last && s.last[k] == s.api[k].source)
    && (forall ns | Live(s.entries, ns, s.now) :: ListIs(s.api, operator, ns, s.entries[ns].policy) || Owed(s, ns))
  }

  lemma PutAgrees(s: State, k: Key, p: Policy, ttl: int, operator: string)
    requires Agrees(s, operator) && !Strays(s, k, p)
    ensures Agrees(Next(s, PutPolicy(k, p), ttl), operator)
  {
    var s' := Next(s, PutPolicy(k, p), ttl);
    forall ns | Live(s'.entries, ns, s'.now)
      ensures ListIs(s'.api, operator, ns, s'.entries[ns].policy) || Owed(s', ns)
    {
      if ns == p.source {
        assert k in s'.toUpdate && s'.last[k] == ns;
      } else if Owed(s, ns) {
        var j :| j in s.toUpdate && j in s.last && s.last[j] == ns;
        assert j != k && j in s'.toUpdate && s'.last[j] == ns;
      } else {
        assert Matching(s'.api, operator, ns) == Matching(s.api, operator, ns);
      }
    }
  }

  lemma DeleteAgrees(s: State, k: Key, ttl: int, operator: string)
    requires Agrees(s, operator) && k in s.api
    ensures Agrees(Next(s, DeletePolicy(k), ttl), operator)
  {
    var s' := Next(s, DeletePolicy(k), ttl);
    forall ns | Live(s'.entries, ns, s'.now)
      ensures ListIs(s'.api, operator, ns, s'.entries[ns].policy) || Owed(s', ns)
    {
      if ns == s.api[k].source {
        assert k in s'.toUpdate && s'.last[k] == ns;
      } else if Owed(s, ns) {
        var j :| j in s.toUpdate && j in s.last && s.last[j] == ns;
        assert j in s'.toUpdate;
      } else {
        assert Matching(s'.api, operator, ns) == Matching(s.api, operator, ns);
      }
    }
  }

  /** Storing what the API holds for `ns` repairs that entry and leaves the others alone. */
  lemma StoreAgrees(s: State, s': State, ns: string, v: Option<Policy>, ttl: int, operator: string)
    requires Agrees(s, operator) && ListIs(s.api, operator, ns, v)
    requires s'.entries == Stored(s.entries, ns, v, s.now, ttl)
    requires s'.api == s.api && s'.now == s.now && s'.last == s.last
    requires forall k | k in s.toUpdate && k in s.last && s.last[k] != ns :: k in s'.toUpdate
    ensures Agrees(s', operator)
  {
    forall m | Live(s'.entries, m, s'.now)
      ensures ListIs(s'.api, operator, m, s'.entries[m].policy) || Owed(s', m)
    {
      if m != ns {
        assert Live(s.entries, m, s.now);
        if Owed(s, m) {
          var j :| j in s.toUpdate && j in s.last && s.last[j] == m;
          assert j in s'.toUpdate;
        }
      }
    }
  }

  /** Every step except a stray policy keeps the agreement. */
  lemma StepAgrees(s: State, l: Step, ttl: int, operator: string)
    requires Agrees(s, operator) && Enabled(s, l, operator) && WellKept(s.api, operator) && Harmless(s, l)
    ensures Agrees(Next(s, l, ttl), operator)
  {
    var s' := Next(s, l, ttl);
    match l
    case PutPolicy(k, p) => PutAgrees(s, k, p, ttl, operator);
    case DeletePolicy(k) => DeleteAgrees(s, k, ttl, operator);
    case Tick(to) =>
      forall ns | Live(s.entries, ns, to)
        ensures Live(s.entries, ns, s.now)
      {
      }
    case Get(ns, listing) =>
      if listing.Listed? && !Live(s.entries, ns, s.now) {
        ListingIsAnswer(s.api, operator, ns, listing);
        StoreAgrees(s, s', ns, if |listing.items| == 0 then None else Some(listing.items[0]), ttl, operator);
      }
    case ReconcilePolicy(k) =>
      if k in s.api {
        UniqueListing(s.api, operator, k);
        StoreAgrees(s, s', s.api[k].source, Some(s.api[k]), ttl, operator);
      }
    case ReconcileCache(k) =>
      if k in s.api {
        UniqueListing(s.api, operator, k);
        StoreAgrees(s, s', s.api[k].source, Some(s.api[k]), ttl, operator);
      } else {
        forall ns | Live(s'.entries, ns, s.now)
          ensures Live(s.entries, ns, s.now)
        {
        }
      }
  }

  lemma {:induction false} RunAgrees(trace: seq<State>, ls: seq<Step>, operator: string, ttl: int, k: nat)
    requires IsRun(trace, ls, operator, ttl) && k < |trace|
    requires forall j | 0 <= j < k :: WellKept(trace[j].api, operator) && Harmless(trace[j], ls[j])
    ensures Agrees(trace[k], operator)
  {
    if k > 0 {
      RunAgrees(trace, ls, operator, ttl, k - 1);
      assert Enabled(trace[k - 1], ls[k - 1], operator);
      StepAgrees(trace[k - 1], ls[k - 1], ttl, operator);
    }
  }

  /** Agreement at rest: once the policy controller has handled its events, every live entry, positive
      or negative, is what a fresh list would return. Policies may move, as long as none strays. */
  lemma AgreementAtRest(trace: seq<State>, ls: seq<Step>, operator: string, ttl: int, k: nat, ns: string)
    requires IsRun(trace, ls, operator, ttl) && k < |trace|
    requires forall j | 0 <= j < k :: WellKept(trace[j].api, operator) && Harmless(trace[j], ls[j])
    requires trace[k].toUpdate == {} && Live(trace[k].entries, ns, trace[k].now)
    ensures ListIs(trace[k].api, operator, ns, trace[k].entries[ns].policy)
  {
    RunAgrees(trace, ls, operator, ttl, k);
  }

  /** Lookups at rest: hit or miss, the answer is the one policy of the namespace exactly if it exists,
      and "not found" exactly if none does. */
  lemma AnswersAtRest(
      trace: seq<State>, ls: seq<Step>, operator: string, ttl: int, k: nat, ns: string, listing: Listing, p: Policy)
    requires IsRun(trace, ls, operator, ttl) && k < |trace|
    requires forall j | 0 <= j < k :: WellKept(trace[j].api, operator) && Harmless(trace[j], ls[j])
    requires trace[k].toUpdate == {} && Reports(listing, trace[k].api, operator, ns)
    requires Live(trace[k].entries, ns, trace[k].now) || listing.Listed?
    ensures var s := trace[k];
            var answer := LookedUp(s.entries, ns, listing, s.now);
            && (answer == Found(p) <==> ListIs(s.api, operator, ns, Some(p)))
            && (answer == NotFound <==> ListIs(s.api, operator, ns, None))
  {
    var s := trace[k];
    if Live(s.entries, ns, s.now) {
      AgreementAtRest(trace, ls, operator, ttl, k, ns);
      HitAnswers(s.api, operator, ns, s.entries[ns].policy, p);
    } else {
      MissAnswers(s.api, operator, ns, listing, p);
    }
  }

  /** After a deletion it takes the policy controller to forget the policy: the cache controller drops the
      entry of the empty namespace and no other. */
  lemma DeletionNeedsPolicyController(s: State, k: Key, ttl: int, operator: string)
    requires WellKept(s.api, operator) && k in s.api && k !in s.toUpdate
    requires Live(s.entries, s.api[k].source, s.now) && s.entries[s.api[k].source].policy == Some(s.api[k])
    ensures var ns := s.api[k].source;
            var s' := Next(Next(s, DeletePolicy(k), ttl), ReconcileCache(k), ttl);
            && (ns in s'.entries <==> ns != "")
            && (ns != "" ==> s'.entries[ns] == s.entries[ns] && !ListIs(s'.api, operator, ns, s'.entries[ns].policy))
            && Next(s', ReconcilePolicy(k), ttl).entries == map[]
  {
    var ns := s.api[k].source;
    UniqueListing(s.api, operator, k);
    assert Matching(s.api - {k}, operator, ns) == {} by {
      assert forall j | j in s.api - {k} :: s.api[j].source != ns;
    }
  }

  // ---------- moves ----------

  ghost predicate AllAgree(s: State, operator: string) {
    forall ns | Live(s.entries, ns, s.now) :: ListIs(s.api, operator, ns, s.entries[ns].policy)
  }

  /** The cluster after policy `k` has arrived as `p` and the policy controller has handled that. */
  ghost function Arrived(s: State, k: Key, p: Policy, ttl: int): State {
    Next(Next(s, PutPolicy(k, p), ttl), ReconcilePolicy(k), ttl)
  }

  /** The exact condition for a single change: where all live entries agree, a policy that arrives and is
      handled leaves them in agreement if and only if it does not come from another source namespace
      with a live entry. A deletion in between, handled together with the arrival, changes nothing. */
  lemma ArrivalAgreesIff(s: State, k: Key, p: Policy, ttl: int, operator: string)
    requires AllAgree(s, operator) && WellKept(s.api, operator) && WellKept(s.api[k := p], operator)
    ensures AllAgree(Arrived(s, k, p, ttl), operator) <==> !LeavesBehind(s, k, p)
    ensures k in s.api ==>
              (AllAgree(Arrived(Next(s, DeletePolicy(k), ttl), k, p, ttl), operator) <==> !LeavesBehind(s, k, p))
  {
    ArrivalAgrees(s, Arrived(s, k, p, ttl), k, p, ttl, operator);
    if k in s.api {
      var t := Arrived(Next(s, DeletePolicy(k), ttl), k, p, ttl);
      assert t.api == s.api[k := p];
      ArrivalAgrees(s, t, k, p, ttl, operator);
    }
  }

  lemma ArrivalAgrees(s: State, s': State, k: Key, p: Policy, ttl: int, operator: string)
    requires AllAgree(s, operator) && WellKept(s.api, operator) && WellKept(s.api[k := p], operator)
    requires s'.api == s.api[k := p] && s'.now == s.now
    requires s'.entries == Stored(s.entries, p.source, Some(p), s.now, ttl)
    ensures AllAgree(s', operator) <==> !LeavesBehind(s, k, p)
  {
    UniqueListing(s'.api, operator, k);
    if LeavesBehind(s, k, p) {
      var ns := s.api[k].source;
      OtherEntry(s, k, p, ns, operator);
      assert Live(s'.entries, ns, s'.now) && !ListIs(s'.api, operator, ns, s'.entries[ns].policy);
    } else {
      forall ns | Live(s'.entries, ns, s'.now)
        ensures ListIs(s'.api, operator, ns, s'.entries[ns].policy)
      {
        if ns != p.source {
          assert Live(s.entries, ns, s.now);
          OtherEntry(s, k, p, ns, operator);
        }
      }
    }
  }

  predicate LeavesBehind(s: State, k: Key, p: Policy) {
    k in s.api && s.api[k].source != p.source && Live(s.entries, s.api[k].source, s.now)
  }

  lemma OtherEntry(s: State, k: Key, p: Policy, ns: string, operator: string)
    requires AllAgree(s, operator) && WellKept(s.api, operator) && ns != p.source && Live(s.entries, ns, s.now)
    ensures ListIs(s.api[k := p], operator, ns, s.entries[ns].policy) <==> !(k in s.api && s.api[k].source == ns)
  {
    assert ListIs(s.api, operator, ns, s.entries[ns].policy);
    if k in s.api && s.api[k].source == ns {
      UniqueListing(s.api, operator, k);
      assert k in Matching(s.api, operator, ns);
      assert Matching(s.api[k := p], operator, ns) == {};
    } else {
      assert Matching(s.api[k := p], operator, ns) == Matching(s.api, operator, ns);
    }
  }

  /** What comes of it over a run: both controllers have stored the new namespace, no event is pending,
      and the old entry goes on answering. */
  lemma MovedSourceLingers(operator: string, ttl: int, now: int, key: Key) returns (trace: seq<State>, ls: seq<Step>)
    requires ttl > 0 && key.namespace == operator
    ensures IsRun(trace, ls, operator, ttl)
    ensures var s := trace[|ls|];
            && s.toUpdate == {} && s.toSet == {} && Live(s.entries, "a", s.now)
            && !ListIs(s.api, operator, "a", s.entries["a"].policy)
  {
    var settled, moved := Policy("a", "r"), Policy("b", "r");
    ls := [PutPolicy(key, settled), ReconcilePolicy(key), PutPolicy(key, moved), ReconcilePolicy(key),
           ReconcileCache(key)];
    var s0 := Start(now);
    var s1 := Next(s0, ls[0], ttl);
    var s2 := Next(s1, ls[1], ttl);
    var s3 := Next(s2, ls[2], ttl);
    var s4 := Next(s3, ls[3], ttl);
    var s5 := Next(s4, ls[4], ttl);
    trace := [s0, s1, s2, s3, s4, s5];
    assert s4.entries["a"] == Entry(Some(settled), now + ttl) && s4.toSet == {key} && s4.toUpdate == {};
    assert s5.api == map[key := moved] && s5.toSet == {};
    assert Matching(s5.api, operator, "a") == {};
  }
}
