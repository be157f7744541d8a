/** Bounded staleness of the policy cache when reading the API and storing the answer are separate
    steps that interleave with everything else. */
module CacheStaleness {
  import opened Common
  import opened PolicyCache
  import opened CacheRuns

  /** `unstored` holds, per caller, an answer that was read and not stored yet: the source namespace it
      belongs to and the policy, or `None` for an empty list. */
  datatype Pending = Pending(ns: string, policy: Option<Policy>)

  datatype World = World(api: Api, entries: Entries, now: int, unstored: map<nat, Pending>)

  datatype Move =
    | ApiBecomes(api: Api)                                   // any change of the policies
    | Wait(to: int)
    | ReadList(caller: nat, ns: string, policy: Option<Policy>)   // a refresh lists zero or one policy
    | ReadNothing(ns: string)                                // the list fails or is ambiguous
    | ReadPolicy(caller: nat, key: Key)                      // a reconciler reads an existing policy
    | Store(caller: nat)
    | Drop(ns: string)
    | DropAll

  ghost predicate CanMove(w: World, m: Move, operator: string) {
    match m
    case ApiBecomes(_) => true
    case Wait(to) => w.now <= to
    case ReadList(c, ns, policy) => c !in w.unstored && ListIs(w.api, operator, ns, policy)
    case ReadNothing(_) => true
    case ReadPolicy(c, key) => c !in w.unstored && key in w.api
    case Store(c) => c in w.unstored
    case Drop(_) => true
    case DropAll => true
  }

  ghost function Moved(w: World, m: Move, operator: string, ttl: int): World
    requires CanMove(w, m, operator)
  {
    match m
    case ApiBecomes(api) => w.(api := api)
    case Wait(to) => w.(now := to)
    case ReadList(c, ns, policy) => w.(unstored := w.unstored[c := Pending(ns, policy)])
    case ReadNothing(ns) => w.(entries := Refreshed(w.entries, ns, ListError, w.now, ttl))
    case ReadPolicy(c, key) => w.(unstored := w.unstored[c := Pending(w.api[key].source, Some(w.api[key]))])
    case Store(c) =>
      w.(entries := Stored(w.entries, w.unstored[c].ns, w.unstored[c].policy, w.now, ttl), unstored := w.unstored - {c})
    case Drop(ns) => w.(entries := w.entries - {ns})
    case DropAll => w.(entries := map[])
  }

  ghost predicate IsHistory(ws: seq<World>, ms: seq<Move>, operator: string, ttl: int) {
    && |ws| == |ms| + 1 && ws[0].entries == map[] && ws[0].unstored == map[]
    && (forall k {:trigger CanMove(ws[k], ms[k], operator)} | 0 <= k < |ms| ::
          CanMove(ws[k], ms[k], operator) && ws[k + 1] == Moved(ws[k], ms[k], operator, ttl))
  }

  /** Step `k` of the history is caller `c` reading `policy` for `ns` from the API as it was then. */
  ghost predicate WasRead(
      ws: seq<World>, ms: seq<Move>, k: nat, c: nat, ns: string, policy: Option<Policy>, operator: string)
    requires |ws| == |ms| + 1 && k < |ms|
  {
    || (ms[k] == ReadList(c, ns, policy) && ListIs(ws[k].api, operator, ns, policy))
    || (ms[k].ReadPolicy? && ms[k].caller == c && ms[k].key in ws[k].api
        && ws[k].api[ms[k].key].source == ns && policy == Some(ws[k].api[ms[k].key]))
  }

  /** The answer was read at step `k` and stored at a later step `j` by the same caller. */
  ghost predicate CameFrom(
      ws: seq<World>, ms: seq<Move>, k: nat, j: nat, c: nat, ns: string, policy: Option<Policy>, operator: string)
    requires |ws| == |ms| + 1 && k < j < |ms|
  {
    WasRead(ws, ms, k, c, ns, policy, operator) && ms[j] == Store(c)
  }

  /** Every answer on its way was read from the API at some earlier step. */
  lemma {:induction false} PendingWasRead(ws: seq<World>, ms: seq<Move>, operator: string, ttl: int, i: nat, c: nat)
    returns (k: nat)
    requires IsHistory(ws, ms, operator, ttl) && i < |ws| && c in ws[i].unstored
    ensures k < i && WasRead(ws, ms, k, c, ws[i].unstored[c].ns, ws[i].unstored[c].policy, operator)
  {
    assert CanMove(ws[i - 1], ms[i - 1], operator);
    if c in ws[i - 1].unstored && ws[i - 1].unstored[c] == ws[i].unstored[c] {
      k := PendingWasRead(ws, ms, operator, ttl, i - 1, c);
    } else {
      k := i - 1;
    }
  }

  /** Every entry was read from the API at some step, stored at a later one, and expires one time to
      live after the store. */
  lemma {:induction false} EntryWasStored(ws: seq<World>, ms: seq<Move>, operator: string, ttl: int, i: nat, ns: string)
    returns (k: nat, j: nat, c: nat)
    requires IsHistory(ws, ms, operator, ttl) && i < |ws| && ns in ws[i].entries
    ensures k < j < i && CameFrom(ws, ms, k, j, c, ns, ws[i].entries[ns].policy, operator)
    ensures ws[i].entries[ns].expiresAt == ws[j].now + ttl
  {
    assert CanMove(ws[i - 1], ms[i - 1], operator);
    if ns in ws[i - 1].entries && ws[i - 1].entries[ns] == ws[i].entries[ns] {
      k, j, c := EntryWasStored(ws, ms, operator, ttl, i - 1, ns);
    } else {
      j, c := i - 1, ms[i - 1].caller;
      k := PendingWasRead(ws, ms, operator, ttl, j, c);
    }
  }

  /** Bounded staleness: whatever a lookup answers from the cache at time t was in the API when it was
      read, and was stored at a time s with t < s + ttl. */
  lemma BoundedStaleness(ws: seq<World>, ms: seq<Move>, operator: string, ttl: int, i: nat, ns: string)
    requires IsHistory(ws, ms, operator, ttl) && i < |ws| && Live(ws[i].entries, ns, ws[i].now)
    ensures exists k: nat, j: nat, c: nat ::
              k < j < i && CameFrom(ws, ms, k, j, c, ns, ws[i].entries[ns].policy, operator)
              && ws[i].now < ws[j].now + ttl
  {
    var k, j, c := EntryWasStored(ws, ms, operator, ttl, i, ns);
  }

  /** A list that fails or is ambiguous changes nothing. */
  lemma FailedListKeepsCache(entries: Entries, ns: string, listing: Listing, now: int, ttl: int)
    ensures (listing.ListError? || |listing.items| > 1)
            <==> Answered(listing) == ListFailed || Answered(listing) == Ambiguous
    ensures listing.ListError? || |listing.items| > 1 ==> Refreshed(entries, ns, listing, now, ttl) == entries
  {
  }

  ghost predicate AllTrue(w: World, operator: string) {
    forall ns | Live(w.entries, ns, w.now) :: ListIs(w.api, operator, ns, w.entries[ns].policy)
  }

  lemma StoreKeepsTrue(w: World, c: nat, operator: string, ttl: int)
    requires AllTrue(w, operator) && CanMove(w, Store(c), operator) && ttl > 0
    ensures AllTrue(Moved(w, Store(c), operator, ttl), operator)
            <==> ListIs(w.api, operator, w.unstored[c].ns, w.unstored[c].policy)
  {
    var w' := Moved(w, Store(c), operator, ttl);
    var ns := w.unstored[c].ns;
    assert Live(w'.entries, ns, w'.now) && w'.entries[ns].policy == w.unstored[c].policy;
    forall m | m != ns && Live(w'.entries, m, w'.now)
      ensures ListIs(w'.api, operator, m, w'.entries[m].policy)
    {
      assert Live(w.entries, m, w.now);
    }
  }

  /** What a list by source namespace returns: how many policies, and which. */
  ghost function Returned(api: Api, operator: string, ns: string): (nat, set<Policy>) {
    (|Matching(api, operator, ns)|, PoliciesOf(api, operator, ns))
  }

  ghost function PoliciesOf(api: Api, operator: string, ns: string): set<Policy> {
    set k | k in Matching(api, operator, ns) :: api[k]
  }

  /** An answer that was right is right for another state of the API if and only if a list returns the
      same. */
  lemma SameAnswerIff(api: Api, api': Api, operator: string, ns: string, v: Option<Policy>)
    requires ListIs(api, operator, ns, v)
    ensures ListIs(api', operator, ns, v) <==> Returned(api', operator, ns) == Returned(api, operator, ns)
  {
    AnswerIff(api, operator, ns, v);
    AnswerIff(api', operator, ns, v);
  }

  /** An answer is right if and only if a list returns no policy, or it alone. */
  lemma AnswerIff(api: Api, operator: string, ns: string, v: Option<Policy>)
    ensures ListIs(api, operator, ns, v)
            <==> Returned(api, operator, ns) == if v.None? then (0, {}) else (1, {v.value})
  {
    var m := Matching(api, operator, ns);
    if |m| == 0 {
      assert m == {};
      assert PoliciesOf(api, operator, ns) == {};
    } else if |m| == 1 {
      var k :| k in m;
      assert |m - {k}| == 0;
      assert m == {k};
      assert PoliciesOf(api, operator, ns) == {api[k]};
    } else {
      assert forall k: Key :: |{k}| == 1;
    }
  }

  /** Until it is stored, an answer stays as it was read. */
  lemma StaysPending(ws: seq<World>, ms: seq<Move>, operator: string, ttl: int, k: nat, j: nat, c: nat)
    requires IsHistory(ws, ms, operator, ttl) && k < j < |ms| && c in ws[k + 1].unstored
    requires forall i | k < i < j :: ms[i] != Store(c)
    ensures c in ws[j].unstored && ws[j].unstored[c] == ws[k + 1].unstored[c]
  {
    var i := k + 1;
    while i < j
      invariant k < i <= j && c in ws[i].unstored && ws[i].unstored[c] == ws[k + 1].unstored[c]
    {
      assert CanMove(ws[i], ms[i], operator);
      i := i + 1;
    }
  }

  /** An answer read at step `k` and stored at step `j`: the cache stays true if and only if a list of
      that namespace returns the same at both steps. Changes of other namespaces, and changes that were
      undone, do no harm. */
  lemma LateStoreIff(
      ws: seq<World>, ms: seq<Move>, operator: string, ttl: int,
      k: nat, j: nat, c: nat, ns: string, v: Option<Policy>)
    requires IsHistory(ws, ms, operator, ttl) && k < j < |ms| && ttl > 0
    requires WasRead(ws, ms, k, c, ns, v, operator) && ListIs(ws[k].api, operator, ns, v)
    requires ms[j] == Store(c) && forall i | k < i < j :: ms[i] != Store(c)
    requires AllTrue(ws[j], operator)
    ensures AllTrue(ws[j + 1], operator) <==> Returned(ws[j].api, operator, ns) == Returned(ws[k].api, operator, ns)
  {
    assert CanMove(ws[k], ms[k], operator) && CanMove(ws[j], ms[j], operator);
    StaysPending(ws, ms, operator, ttl, k, j, c);
    StoreKeepsTrue(ws[j], c, operator, ttl);
    SameAnswerIff(ws[k].api, ws[j].api, operator, ns, v);
  }

  /** Staleness cannot be ruled out, only bounded: a refresh that listed a policy before its deletion
      stores it after the cache was cleared, and the entry outlives every policy event. */
  lemma DeletedPolicyCanLinger(operator: string, ttl: int, key: Key, now: int) returns (ws: seq<World>, ms: seq<Move>)
    requires ttl > 0 && key.namespace == operator
    ensures IsHistory(ws, ms, operator, ttl)
    ensures var w := ws[|ms|];
            w.unstored == map[] && Live(w.entries, "a", w.now) && !ListIs(w.api, operator, "a", w.entries["a"].policy)
  {
    var p := Policy("a", "r");
    var api: Api := map[key := p];
    ms := [ApiBecomes(api), ReadList(0, "a", Some(p)), ApiBecomes(map[]), DropAll, Store(0)];
    var w0 := World(map[], map[], now, map[]);
    var w1 := w0.(api := api);
    assert Matching(api, operator, "a") == {key};
    assert ListIs(w1.api, operator, "a", Some(p));
    var w2 := w1.(unstored := map[0 := Pending("a", Some(p))]);
    var w3 := w2.(api := map[]);
    var w4 := w3.(entries := map[]);
    var w5 := w4.(entries := map["a" := Entry(Some(p), now + ttl)], unstored := map[]);
    ws := [w0, w1, w2, w3, w4, w5];
    assert Moved(w0, ms[0], operator, ttl) == w1;
    assert Moved(w1, ms[1], operator, ttl) == w2;
    assert Moved(w2, ms[2], operator, ttl) == w3;
    assert Moved(w3, ms[3], operator, ttl) == w4;
    assert Moved(w4, ms[4], operator, ttl) == w5;
    assert Matching(w5.api, operator, "a") == {};
  }
}
