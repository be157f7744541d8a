/** The periodic drift pass over a Completed template: dry-run each object, compare with the cluster,
    apply only what differs, and record what was found. */
module Drift {
  import opened Common
  import opened Policies

  datatype ResourceKey = ResourceKey(gvk: Gvk, namespace: string, name: string)

  type Store = map<ResourceKey, Json>

  /** Foreign code: parsing, the identity of an object, the server-side merge of an applied object into
      the current one, and the normal form behind semantic equality. */
  datatype Api = Api(
    parse: string -> Option<Json>,
    keyOf: Json -> ResourceKey,
    merge: (Option<Json>, Json) -> Json,
    normal: Json -> Json)

  predicate SemanticEqual(api: Api, a: Json, b: Json) { api.normal(a) == api.normal(b) }

  function Field(o: Json, name: string): Option<Json> {
    if o.JMap? && name in o.fields then Some(o.fields[name]) else None
  }

  /** The comparison of the current object with the dry-run result. */
  predicate HasDrift(api: Api, current: Json, desired: Json) {
    var a, b := Field(current, "spec"), Field(desired, "spec");
    if a.Some? != b.Some? then true
    else if a.Some? then !SemanticEqual(api, a.value, b.value)
    else
      var c, d := Field(current, "data"), Field(desired, "data");
      if c.Some? != d.Some? then true
      else if c.Some? then !SemanticEqual(api, c.value, d.value)
      else false
  }

  /** The part of an object that drift detection looks at: spec, else data, else nothing. */
  datatype Essence = OfSpec(v: Json) | OfData(v: Json) | Bare

  function EssenceOf(api: Api, o: Json): Essence {
    match Field(o, "spec")
    case Some(v) => OfSpec(api.normal(v))
    case None =>
      match Field(o, "data")
      case Some(v) => OfData(api.normal(v))
      case None => Bare
  }

  /** Drift is inequality of one projection, hence symmetric and never found between equal objects. */
  lemma DriftIsProjection(api: Api, current: Json, desired: Json)
    ensures HasDrift(api, current, desired) <==> EssenceOf(api, current) != EssenceOf(api, desired)
  {
  }

  /** The comparison on the fields themselves: specs decide if there is any, then data, and otherwise
      there is no drift. */
  lemma DriftOfFields(api: Api, f: map<string, Json>, g: map<string, Json>)
    ensures "spec" in f && "spec" in g ==>
              (HasDrift(api, JMap(f), JMap(g)) <==> api.normal(f["spec"]) != api.normal(g["spec"]))
    ensures ("spec" in f) != ("spec" in g) ==> HasDrift(api, JMap(f), JMap(g))
    ensures "spec" !in f && "spec" !in g && "data" in f && "data" in g ==>
              (HasDrift(api, JMap(f), JMap(g)) <==> api.normal(f["data"]) != api.normal(g["data"]))
    ensures "spec" !in f && "spec" !in g && ("data" in f) != ("data" in g) ==> HasDrift(api, JMap(f), JMap(g))
    ensures "spec" !in f && "spec" !in g && "data" !in f && "data" !in g ==> !HasDrift(api, JMap(f), JMap(g))
  {
  }

  // ---------- the pass ----------

  /** What the API does with one object besides the merge. */
  datatype Fault = NoFault | GetFault | DryRunFault | PatchFault

  /** Result of a pass: the cluster, how many objects were applied, whether an existing one had drifted,
      and how many are in order. */
  datatype Outcome = Outcome(store: Store, applied: nat, drift: bool, synced: nat)

  function Current(store: Store, key: ResourceKey): Option<Json> {
    if key in store then Some(store[key]) else None
  }

  function One(api: Api, r: Outcome, raw: string, fault: Fault): Outcome {
    match api.parse(raw)
    case None => r
    case Some(o) =>
      var key := api.keyOf(o);
      var current := Current(r.store, key);
      var dryRun := api.merge(current, o);
      if fault.DryRunFault? || fault.GetFault? then r
      else if current.Some? && !HasDrift(api, current.value, dryRun) then r.(synced := r.synced + 1)
      else if fault.PatchFault? then r.(drift := r.drift || current.Some?)
      else Outcome(r.store[key := dryRun], r.applied + 1, r.drift || current.Some?, r.synced + 1)
  }

  function Pass(api: Api, store: Store, raws: seq<string>, faults: seq<Fault>): Outcome
    requires |faults| == |raws|
  {
    if |raws| == 0 then Outcome(store, 0, false, 0)
    else
      var k := |raws| - 1;
      One(api, Pass(api, store, raws[..k], faults[..k]), raws[k], faults[k])
  }

  datatype Status = Status(
    lastReconcile: Option<int>, total: nat, synced: nat, dryRunChecks: nat,
    lastDrift: Option<int>, driftCount: nat)

  /** The status after a pass with result `r` at time `now`, and whether it is written at all. */
  predicate WritesStatus(st: Status, r: Outcome) { r.drift || st.lastReconcile.None? }

  function Recorded(st: Status, r: Outcome, n: nat, now: int): Status {
    if !WritesStatus(st, r) then st
    else Status(Some(now), n, r.synced, st.dryRunChecks + n,
                if r.drift then Some(now) else st.lastDrift, if r.drift then st.driftCount + 1 else st.driftCount)
  }

  class Reconciler {
    const api: Api
    var store: Store      // the cluster's resources
    var status: Status    // the template's status as stored

    constructor (api: Api, store: Store, status: Status)
      ensures this.api == api && this.store == store && this.status == status
    {
      this.api, this.store, this.status := api, store, status;
    }

    /** One pass. `applied` counts the objects applied, `wrote` tells whether the status was written;
        `statusFails` is the outcome of that write. */
    method ApplyTemplateResources(raws: seq<string>, faults: seq<Fault>, now: int, statusFails: bool)
      returns (applied: nat, wrote: bool)
      requires |faults| == |raws|
      modifies this
      ensures var r := Pass(api, old(store), raws, faults);
              && store == r.store && applied == r.applied
              && (wrote <==> WritesStatus(old(status), r) && !statusFails)
              && status == if statusFails then old(status) else Recorded(old(status), r, |raws|, now)
    {
      var drift, synced := false, 0;
      applied := 0;
      var k := 0;
      while k < |raws|
        invariant 0 <= k <= |raws|
        invariant Pass(api, old(store), raws[..k], faults[..k]) == Outcome(store, applied, drift, synced)
        invariant status == old(status)
      {
        assert raws[..k + 1][..k] == raws[..k] && faults[..k + 1][..k] == faults[..k];
        var parsed := api.parse(raws[k]);
        if parsed.Some? {
          var key := api.keyOf(parsed.value);
          var current := Current(store, key);
          var dryRun := api.merge(current, parsed.value);
          if faults[k].NoFault? || faults[k].PatchFault? {
            if current.Some? && !HasDrift(api, current.value, dryRun) {
              synced := synced + 1;
            } else {
              drift := drift || current.Some?;
              if !faults[k].PatchFault? {
                store := store[key := dryRun];
                applied, synced := applied + 1, synced + 1;
              }
            }
          }
        }
        k := k + 1;
      }
      assert raws[..k] == raws && faults[..k] == faults;
      wrote := false;
      if (drift || status.lastReconcile.None?) && !statusFails {
        wrote := true;
        status := status.(lastReconcile := Some(now), total := |raws|, synced := synced,
                          dryRunChecks := status.dryRunChecks + |raws|);
        if drift {
          status := status.(lastDrift := Some(now), driftCount := status.driftCount + 1);
        }
      }
    }
  }

  // ---------- what a pass does ----------

  predicate HasKey(api: Api, raw: string, key: ResourceKey) {
    api.parse(raw).Some? && api.keyOf(api.parse(raw).value) == key
  }

  /** The template's resource is in the cluster, and not as the template wants it. */
  predicate Drifted(api: Api, store: Store, raw: string) {
    api.parse(raw).Some? &&
    var o := api.parse(raw).value;
    var key := api.keyOf(o);
    key in store && HasDrift(api, store[key], api.merge(Some(store[key]), o))
  }

  predicate Unread(fault: Fault) { fault == GetFault || fault == DryRunFault }

  /** The object is applied: everything works, and the resource is missing or has drifted. */
  predicate IsApplied(api: Api, store: Store, raw: string, fault: Fault) {
    && fault == NoFault && api.parse(raw).Some?
    && (api.keyOf(api.parse(raw).value) !in store || Drifted(api, store, raw))
  }

  /** The resource is in order afterwards: applied, or found without drift. */
  predicate IsSynced(api: Api, store: Store, raw: string, fault: Fault) {
    || IsApplied(api, store, raw, fault)
    || (&& api.parse(raw).Some? && !Unread(fault)
        && api.keyOf(api.parse(raw).value) in store && !Drifted(api, store, raw))
  }

  function Count(n: nat, f: nat -> bool): nat {
    if n == 0 then 0 else Count(n - 1, f) + if f(n - 1) then 1 else 0
  }

  lemma {:induction false} CountSame(n: nat, f: nat -> bool, g: nat -> bool)
    requires forall k: nat | k < n :: f(k) == g(k)
    ensures Count(n, f) == Count(n, g)
  {
    if n > 0 { CountSame(n - 1, f, g); }
  }

  /** Resources of no template are left alone. */
  lemma {:induction false} PassElsewhere(
      api: Api, store: Store, raws: seq<string>, faults: seq<Fault>, key: ResourceKey)
    requires |faults| == |raws| && forall i | 0 <= i < |raws| :: !HasKey(api, raws[i], key)
    ensures Current(Pass(api, store, raws, faults).store, key) == Current(store, key)
  {
    if |raws| > 0 {
      var k := |raws| - 1;
      assert forall i | 0 <= i < k :: raws[..k][i] == raws[i];
      PassElsewhere(api, store, raws[..k], faults[..k], key);
      assert !HasKey(api, raws[k], key);
    }
  }

  /** A pass over templates for distinct resources acts on each as it was before the pass. It applies
      exactly the missing and the drifted ones, merged into what was there; it finds drift exactly if it
      could read a resource that has drifted. */
  lemma {:induction false} PassActs(api: Api, store: Store, raws: seq<string>, faults: seq<Fault>)
    requires |faults| == |raws| && DistinctResources(api, raws)
    ensures var r := Pass(api, store, raws, faults);
            && (r.drift <==> exists i | 0 <= i < |raws| :: Drifted(api, store, raws[i]) && !Unread(faults[i]))
            && r.applied == Count(|raws|, (i: nat) => i < |raws| && IsApplied(api, store, raws[i], faults[i]))
            && r.synced == Count(|raws|, (i: nat) => i < |raws| && IsSynced(api, store, raws[i], faults[i]))
    decreases |raws|
  {
    if |raws| > 0 {
      var k := |raws| - 1;
      var before := Pass(api, store, raws[..k], faults[..k]);
      assert forall i | 0 <= i < k :: raws[..k][i] == raws[i] && faults[..k][i] == faults[i];
      PassActs(api, store, raws[..k], faults[..k]);
      CountSame(k, (i: nat) => i < |raws[..k]| && IsApplied(api, store, raws[..k][i], faults[..k][i]),
                (i: nat) => i < |raws| && IsApplied(api, store, raws[i], faults[i]));
      CountSame(k, (i: nat) => i < |raws[..k]| && IsSynced(api, store, raws[..k][i], faults[..k][i]),
                (i: nat) => i < |raws| && IsSynced(api, store, raws[i], faults[i]));
      if api.parse(raws[k]).Some? {
        var key := api.keyOf(api.parse(raws[k]).value);
        assert forall i | 0 <= i < k :: !HasKey(api, raws[..k][i], key);
        PassElsewhere(api, store, raws[..k], faults[..k], key);
        assert Current(before.store, key) == Current(store, key);
      }
    }
  }

  /** The cluster afterwards, resource by resource. */
  lemma {:induction false} PassStores(api: Api, store: Store, raws: seq<string>, faults: seq<Fault>, i: nat)
    requires |faults| == |raws| && DistinctResources(api, raws) && i < |raws| && api.parse(raws[i]).Some?
    ensures var o := api.parse(raws[i]).value;
            var was := Current(store, api.keyOf(o));
            Current(Pass(api, store, raws, faults).store, api.keyOf(o))
            == if IsApplied(api, store, raws[i], faults[i]) then Some(api.merge(was, o)) else was
    decreases |raws|
  {
    var k := |raws| - 1;
    var key := api.keyOf(api.parse(raws[i]).value);
    assert forall j | 0 <= j < k :: raws[..k][j] == raws[j] && faults[..k][j] == faults[j];
    if i < k {
      PassStores(api, store, raws[..k], faults[..k], i);
      assert !HasKey(api, raws[k], key);
    } else {
      assert forall j | 0 <= j < k :: !HasKey(api, raws[..k][j], key);
      PassElsewhere(api, store, raws[..k], faults[..k], key);
    }
  }

  // ---------- the status over many passes ----------

  /** A pass as far as the status is concerned. */
  datatype Visit = Visit(outcome: Outcome, total: nat, now: int, fails: bool)

  function Visited(st: Status, vs: seq<Visit>): Status {
    if |vs| == 0 then st
    else
      var v, before := vs[|vs| - 1], Visited(st, vs[..|vs| - 1]);
      if v.fails then before else Recorded(before, v.outcome, v.total, v.now)
  }

  predicate RecordsDrift(v: Visit) { v.outcome.drift && !v.fails }

  /** The status counts exactly the passes that found drift and could say so, and remembers the last of
      them; without any it keeps what it had. */
  lemma {:induction false} StatusCountsDrift(st: Status, vs: seq<Visit>)
    ensures Visited(st, vs).driftCount
            == st.driftCount + Count(|vs|, (k: nat) => k < |vs| && RecordsDrift(vs[k]))
    ensures (forall k | 0 <= k < |vs| :: !RecordsDrift(vs[k])) ==> Visited(st, vs).lastDrift == st.lastDrift
    ensures forall k | 0 <= k < |vs| && RecordsDrift(vs[k]) && (forall j | k < j < |vs| :: !RecordsDrift(vs[j])) ::
              Visited(st, vs).lastDrift == Some(vs[k].now)
    decreases |vs|
  {
    if |vs| > 0 {
      var n := |vs| - 1;
      assert forall k | 0 <= k < n :: vs[..n][k] == vs[k];
      StatusCountsDrift(st, vs[..n]);
      CountSame(n, (k: nat) => k < |vs[..n]| && RecordsDrift(vs[..n][k]),
                (k: nat) => k < |vs| && RecordsDrift(vs[k]));
    }
  }

  /** A pass that is recorded leaves its own figures; the first one always is, and later ones exactly if
      they found drift. */
  lemma VisitLeaves(st: Status, vs: seq<Visit>, v: Visit)
    requires !v.fails
    ensures var before, after := Visited(st, vs), Visited(st, vs + [v]);
            if before.lastReconcile.Some? && !v.outcome.drift then after == before
            else after.lastReconcile == Some(v.now) && after.total == v.total && after.synced == v.outcome.synced
                 && after.dryRunChecks == before.dryRunChecks + v.total
  {
    assert (vs + [v])[..|vs|] == vs;
  }

  // ---------- idempotence ----------

  /** Applying the same object twice is applying it once. */
  ghost predicate MergeIsIdempotent(api: Api) {
    forall c: Option<Json>, o: Json :: api.merge(Some(api.merge(c, o)), o) == api.merge(c, o)
  }

  /** No two templates are about the same resource. */
  ghost predicate DistinctResources(api: Api, raws: seq<string>) {
    forall i, j | 0 <= i < j < |raws| && api.parse(raws[i]).Some? && api.parse(raws[j]).Some? ::
      api.keyOf(api.parse(raws[i]).value) != api.keyOf(api.parse(raws[j]).value)
  }

  predicate NoFaults(faults: seq<Fault>) {
    forall k | 0 <= k < |faults| :: faults[k].NoFault?
  }

  /** The resource of this template exists and shows no drift. */
  predicate Settled(api: Api, store: Store, raw: string) {
    api.parse(raw).Some? ==>
      var o := api.parse(raw).value;
      var key := api.keyOf(o);
      key in store && !HasDrift(api, store[key], api.merge(Some(store[key]), o))
  }

  lemma OneSettles(api: Api, r: Outcome, raw: string)
    requires MergeIsIdempotent(api)
    ensures Settled(api, One(api, r, raw, NoFault).store, raw)
  {
    if api.parse(raw).Some? {
      var o := api.parse(raw).value;
      var key := api.keyOf(o);
      var current := Current(r.store, key);
      var merged := api.merge(current, o);
      assert api.merge(Some(merged), o) == merged;
      DriftIsProjection(api, merged, merged);
    }
  }

  lemma {:induction false} PassSettles(api: Api, store: Store, raws: seq<string>, faults: seq<Fault>, i: nat)
    requires |faults| == |raws| && NoFaults(faults) && i < |raws|
    requires MergeIsIdempotent(api) && DistinctResources(api, raws)
    ensures Settled(api, Pass(api, store, raws, faults).store, raws[i])
    decreases |raws|
  {
    var k := |raws| - 1;
    var r := Pass(api, store, raws[..k], faults[..k]);
    if i == k {
      OneSettles(api, r, raws[k]);
    } else {
      PassSettles(api, store, raws[..k], faults[..k], i);
      assert raws[..k][i] == raws[i];
      if api.parse(raws[i]).Some? && api.parse(raws[k]).Some? {
        assert api.keyOf(api.parse(raws[i]).value) != api.keyOf(api.parse(raws[k]).value);
      }
    }
  }

  /** A pass over settled templates changes nothing. */
  lemma {:induction false} SettledPassIsQuiet(api: Api, store: Store, raws: seq<string>, faults: seq<Fault>)
    requires |faults| == |raws|
    requires forall i | 0 <= i < |raws| :: Settled(api, store, raws[i])
    ensures var r := Pass(api, store, raws, faults); r.store == store && r.applied == 0 && !r.drift
    decreases |raws|
  {
    if |raws| > 0 {
      var k := |raws| - 1;
      assert forall i | 0 <= i < k :: raws[..k][i] == raws[i];
      SettledPassIsQuiet(api, store, raws[..k], faults[..k]);
      assert Settled(api, store, raws[k]);
    }
  }

  /** The drift pass is idempotent: after one pass without API errors, the next pass over the same
      templates applies nothing, finds no drift and writes no status, even if the API fails during it. */
  lemma DriftPassIsIdempotent(
      api: Api, store: Store, st: Status, raws: seq<string>, faults: seq<Fault>, next: seq<Fault>, now: int)
    requires |faults| == |next| == |raws| && NoFaults(faults)
    requires MergeIsIdempotent(api) && DistinctResources(api, raws)
    ensures var first := Pass(api, store, raws, faults);
            var recorded := Recorded(st, first, |raws|, now);
            var second := Pass(api, first.store, raws, next);
            second.store == first.store && second.applied == 0 && !second.drift && !WritesStatus(recorded, second)
  {
    var first := Pass(api, store, raws, faults);
    forall i | 0 <= i < |raws|
      ensures Settled(api, first.store, raws[i])
    {
      PassSettles(api, store, raws, faults, i);
    }
    SettledPassIsQuiet(api, first.store, raws, next);
  }

  // ---------- several templates for one resource ----------

  /** The merge simply replaces the object, as for fields that one manager owns completely. */
  ghost predicate MergeReplaces(api: Api) {
    forall c: Option<Json>, o: Json :: api.merge(c, o) == o
  }

  /** Templates for one resource agree about the part of it that drift detection looks at. */
  ghost predicate Consistent(api: Api, raws: seq<string>) {
    forall i, j | 0 <= i < |raws| && 0 <= j < |raws| && SameResource(api, raws[i], raws[j]) ::
      Wanted(api, raws[i]) == Wanted(api, raws[j])
  }

  predicate SameResource(api: Api, a: string, b: string) {
    && api.parse(a).Some? && api.parse(b).Some?
    && api.keyOf(api.parse(a).value) == api.keyOf(api.parse(b).value)
  }

  function Wanted(api: Api, raw: string): Essence
    requires api.parse(raw).Some?
  {
    EssenceOf(api, api.parse(raw).value)
  }

  /** The cluster holds what the template wants. */
  predicate InPlace(api: Api, store: Store, raw: string) {
    api.parse(raw).Some? ==>
      var key := api.keyOf(api.parse(raw).value);
      key in store && EssenceOf(api, store[key]) == Wanted(api, raw)
  }

  /** One template leaves the cluster holding what it wants, and is applied exactly when it does not. */
  lemma OneReplaces(api: Api, r: Outcome, raw: string)
    requires MergeReplaces(api)
    ensures var r' := One(api, r, raw, NoFault);
            && InPlace(api, r'.store, raw)
            && (if InPlace(api, r.store, raw) then r'.store == r.store && r'.applied == r.applied
                else r'.applied == r.applied + 1
                     && r'.store == r.store[api.keyOf(api.parse(raw).value) := api.parse(raw).value])
  {
    if api.parse(raw).Some? {
      var o := api.parse(raw).value;
      var key := api.keyOf(o);
      assert api.merge(Current(r.store, key), o) == o;
      if key in r.store { DriftIsProjection(api, r.store[key], o); }
    }
  }

  /** A pass applies nothing if and only if every template is in place already; then it changes nothing. */
  lemma {:induction false} IdleIff(api: Api, store: Store, raws: seq<string>, faults: seq<Fault>)
    requires MergeReplaces(api) && |faults| == |raws| && NoFaults(faults)
    ensures var r := Pass(api, store, raws, faults);
            && (r.applied == 0 <==> forall i | 0 <= i < |raws| :: InPlace(api, store, raws[i]))
            && (r.applied == 0 ==> r.store == store)
    decreases |raws|
  {
    if |raws| > 0 {
      var k := |raws| - 1;
      assert forall i | 0 <= i < k :: raws[..k][i] == raws[i];
      IdleIff(api, store, raws[..k], faults[..k]);
      OneReplaces(api, Pass(api, store, raws[..k], faults[..k]), raws[k]);
    }
  }

  /** After a pass, a template is in place if all later ones for its resource agree with it. */
  lemma {:induction false} PassPlaces(api: Api, store: Store, raws: seq<string>, faults: seq<Fault>, i: nat)
    requires MergeReplaces(api) && |faults| == |raws| && NoFaults(faults) && i < |raws|
    requires forall j | i < j < |raws| && SameResource(api, raws[i], raws[j]) ::
               Wanted(api, raws[i]) == Wanted(api, raws[j])
    ensures InPlace(api, Pass(api, store, raws, faults).store, raws[i])
    decreases |raws|
  {
    var k := |raws| - 1;
    var r := Pass(api, store, raws[..k], faults[..k]);
    OneReplaces(api, r, raws[k]);
    if i < k {
      assert forall j | 0 <= j < k :: raws[..k][j] == raws[j];
      PassPlaces(api, store, raws[..k], faults[..k], i);
      assert SameResource(api, raws[i], raws[k]) ==> Wanted(api, raws[i]) == Wanted(api, raws[k]);
    }
  }

  /** After a pass the cluster holds, semantically, the spec of the template, or its data if it has no
      spec, provided that later templates for the same resource agree. */
  lemma PassKeepsPromise(api: Api, store: Store, raws: seq<string>, faults: seq<Fault>, i: nat, g: map<string, Json>)
    requires MergeReplaces(api) && |faults| == |raws| && NoFaults(faults)
    requires i < |raws| && api.parse(raws[i]) == Some(JMap(g))
    requires forall j | i < j < |raws| && SameResource(api, raws[i], raws[j]) ::
               Wanted(api, raws[i]) == Wanted(api, raws[j])
    ensures var after := Pass(api, store, raws, faults).store;
            var key := api.keyOf(JMap(g));
            && key in after
            && ("spec" in g ==> after[key].JMap? && "spec" in after[key].fields
                                && api.normal(after[key].fields["spec"]) == api.normal(g["spec"]))
            && ("spec" !in g && "data" in g ==>
                  && after[key].JMap? && "spec" !in after[key].fields && "data" in after[key].fields
                  && api.normal(after[key].fields["data"]) == api.normal(g["data"]))
  {
    PassPlaces(api, store, raws, faults, i);
  }

  /** The exact condition for idempotence without distinct resources: the pass after a pass applies
      nothing if and only if any two templates for one resource agree about it. */
  lemma IdempotentIff(api: Api, store: Store, raws: seq<string>, faults: seq<Fault>, next: seq<Fault>)
    requires MergeReplaces(api) && |faults| == |next| == |raws| && NoFaults(faults) && NoFaults(next)
    ensures Pass(api, Pass(api, store, raws, faults).store, raws, next).applied == 0 <==> Consistent(api, raws)
  {
    var first := Pass(api, store, raws, faults);
    IdleIff(api, first.store, raws, next);
    if Consistent(api, raws) {
      forall i | 0 <= i < |raws|
        ensures InPlace(api, first.store, raws[i])
      {
        PassPlaces(api, store, raws, faults, i);
      }
    } else {
      var i, j :| 0 <= i < |raws| && 0 <= j < |raws| && SameResource(api, raws[i], raws[j])
                  && Wanted(api, raws[i]) != Wanted(api, raws[j]);
      assert !(InPlace(api, first.store, raws[i]) && InPlace(api, first.store, raws[j]));
    }
  }

  /** Two templates that disagree about one resource: every further pass applies both again and ends
      where the one before it ended. */
  lemma SharedResourceFlaps(api: Api, store: Store, a: string, b: string)
    requires MergeReplaces(api) && SameResource(api, a, b) && Wanted(api, a) != Wanted(api, b)
    ensures var faults := [NoFault, NoFault];
            var first := Pass(api, store, [a, b], faults);
            var second := Pass(api, first.store, [a, b], faults);
            second.store == first.store && second.applied == 2
  {
    PassOfTwo(api, store, a, b);
    var half := One(api, Outcome(store, 0, false, 0), a, NoFault);
    OneReplaces(api, Outcome(store, 0, false, 0), a);
    OneReplaces(api, half, b);
    var first := One(api, half, b, NoFault);
    PassOfTwo(api, first.store, a, b);
    OneReplaces(api, Outcome(first.store, 0, false, 0), a);
    OneReplaces(api, One(api, Outcome(first.store, 0, false, 0), a, NoFault), b);
    var key, oa, ob := api.keyOf(api.parse(a).value), api.parse(a).value, api.parse(b).value;
    assert first.store[key] == ob;
    assert first.store[key := oa][key := ob] == first.store;
  }

  lemma PassOfTwo(api: Api, store: Store, a: string, b: string)
    ensures Pass(api, store, [a, b], [NoFault, NoFault])
            == One(api, One(api, Outcome(store, 0, false, 0), a, NoFault), b, NoFault)
  {
    var raws, faults := [a, b], [NoFault, NoFault];
    assert raws[..1] == [a] && faults[..1] == [NoFault] && [a][..0] == [];
    assert Pass(api, store, [], []) == Outcome(store, 0, false, 0);
    assert Pass(api, store, [a], [NoFault]) == One(api, Outcome(store, 0, false, 0), a, NoFault);
  }

  /** Such templates exist: two specs for one object, under a merge that replaces. */
  lemma TwoSpecsFlap(store: Store) returns (api: Api)
    ensures MergeReplaces(api) && !Consistent(api, ["a", "b"])
    ensures var first := Pass(api, store, ["a", "b"], [NoFault, NoFault]);
            Pass(api, first.store, ["a", "b"], [NoFault, NoFault]).applied == 2
  {
    api := Api((raw: string) => Some(JMap(map["spec" := JStr(raw)])),
               (o: Json) => ResourceKey(Gvk("", "v1", "Thing"), "team", "x"),
               (c: Option<Json>, o: Json) => o,
               (v: Json) => v);
    assert Wanted(api, "a") == OfSpec(JStr("a")) && Wanted(api, "b") == OfSpec(JStr("b"));
    var raws := ["a", "b"];
    assert SameResource(api, raws[0], raws[1]);
    SharedResourceFlaps(api, store, "a", "b");
  }
}
