/** The worker's pass over the templates of a KubeTemplate: which objects it tries to apply, which
    templates it passes over, and where it gives up. */
module TemplateLoop {
  import opened Common
  import opened Policies
  import opened Admission

  /** The API server's answer to applying one object: applied, refused as invalid (then what a
      replacement by delete and re-apply comes to), or failed. */
  datatype Answer = Applied | Invalid(deleted: bool, reapplied: bool) | Failed

  /** How the pass ends: at the last template, or with the error of template `k`. */
  datatype Ending = Finished | Aborted(k: nat)

  /** The worker's check of every template. */
  function Checks(env: Env, rules: seq<Rule>, ns: string, templates: seq<Template>): (cs: seq<Check>)
    ensures |cs| == |templates|
    ensures forall k {:trigger WorkerCheck(env, rules, ns, templates[k])} | 0 <= k < |templates| ::
              cs[k] == WorkerCheck(env, rules, ns, templates[k])
  {
    if |templates| == 0 then []
    else
      var k := |templates| - 1;
      Checks(env, rules, ns, templates[..k]) + [WorkerCheck(env, rules, ns, templates[k])]
  }

  predicate HardFailure(t: Template, a: Answer) {
    a.Failed? || (a.Invalid? && !t.replace)
  }

  /** Template `k` aborts the pass when the loop reaches it. */
  predicate Aborts(cs: seq<Check>, templates: seq<Template>, answers: seq<Answer>, k: nat)
    requires k < |cs| == |templates| == |answers|
  {
    cs[k].Allowed? && HardFailure(templates[k], answers[k])
  }

  /** Positions below `n` that pass the worker's check, in order. */
  function AllowedBelow(cs: seq<Check>, n: nat): seq<nat>
    requires n <= |cs|
  {
    if n == 0 then [] else AllowedBelow(cs, n - 1) + if cs[n - 1].Allowed? then [n - 1] else []
  }

  /** Positions below `n` that the worker refuses by policy; what it cannot parse it only skips. */
  function RefusedBelow(cs: seq<Check>, n: nat): seq<nat>
    requires n <= |cs|
  {
    if n == 0 then []
    else RefusedBelow(cs, n - 1) + if cs[n - 1].Refused? && cs[n - 1].reason != Unparsable then [n - 1] else []
  }

  /** The two lists hold exactly the allowed and the refused positions, in ascending order. */
  lemma {:induction false} BelowIff(cs: seq<Check>, n: nat)
    requires n <= |cs|
    ensures forall j: nat :: j in AllowedBelow(cs, n) <==> j < n && cs[j].Allowed?
    ensures forall j: nat :: j in RefusedBelow(cs, n) <==> j < n && cs[j].Refused? && cs[j].reason != Unparsable
    ensures Ascending(AllowedBelow(cs, n)) && Ascending(RefusedBelow(cs, n))
  {
    if n > 0 {
      BelowIff(cs, n - 1);
      AscendingNext(AllowedBelow(cs, n - 1), n - 1);
      AscendingNext(RefusedBelow(cs, n - 1), n - 1);
    }
  }

  lemma AscendingNext(s: seq<nat>, n: nat)
    requires Ascending(s) && forall j | j in s :: j < n
    ensures Ascending(s + [n])
  {
    forall i | 0 <= i < |s|
      ensures s[i] < n
    {
      assert s[i] in s;
    }
  }

  predicate Ascending(s: seq<nat>) { forall i, j | 0 <= i < j < |s| :: s[i] < s[j] }

  /** The objects are those that the worker's check made of the attempted templates. */
  ghost predicate FromChecks(cs: seq<Check>, attempts: seq<nat>, objects: seq<Json>) {
    && |objects| == |attempts|
    && (forall j | 0 <= j < |attempts| :: attempts[j] < |cs| && cs[attempts[j]] == Allowed(objects[j]))
  }

  /** What the pass has done with the first `k` templates. */
  ghost predicate Progress(
      cs: seq<Check>, k: nat, attempts: seq<nat>, objects: seq<Json>, passedOver: nat, failures: seq<nat>)
    requires k <= |cs|
  {
    && attempts == AllowedBelow(cs, k) && FromChecks(cs, attempts, objects)
    && failures == RefusedBelow(cs, k) && passedOver + |attempts| == k
  }

  lemma AllowedNext(
      cs: seq<Check>, k: nat, attempts: seq<nat>, objects: seq<Json>, passedOver: nat, failures: seq<nat>)
    requires k < |cs| && cs[k].Allowed? && Progress(cs, k, attempts, objects, passedOver, failures)
    ensures Progress(cs, k + 1, attempts + [k], objects + [cs[k].obj], passedOver, failures)
  {
  }

  lemma RefusedNext(
      cs: seq<Check>, k: nat, attempts: seq<nat>, objects: seq<Json>, passedOver: nat, failures: seq<nat>)
    requires k < |cs| && cs[k].Refused? && Progress(cs, k, attempts, objects, passedOver, failures)
    ensures Progress(cs, k + 1, attempts, objects, passedOver + 1,
                     failures + if cs[k].reason != Unparsable then [k] else [])
  {
    assert failures + [] == failures;
  }

  /** How many templates a pass with this ending looks at. */
  function Reach(e: Ending, n: nat): nat {
    match e
    case Finished => n
    case Aborted(k) => k + 1
  }

  /** The first attempt that aborts ends the pass, and a pass without one finishes. */
  lemma EndingFor(cs: seq<Check>, templates: seq<Template>, answers: seq<Answer>, ending: Ending)
    requires |cs| == |templates| == |answers| && (ending.Aborted? ==> ending.k < |templates|)
    requires ending.Aborted? ==> Aborts(cs, templates, answers, ending.k)
    requires forall j | 0 <= j < |templates| && (ending.Aborted? ==> j < ending.k) ::
               !Aborts(cs, templates, answers, j)
    ensures var attempts := AllowedBelow(cs, Reach(ending, |templates|));
            && (forall j | j in attempts :: j < |templates|)
            && (ending.Finished? ==>
                  forall j | j in attempts :: !answers[j].Failed? && (answers[j].Invalid? ==> templates[j].replace))
            && forall k: nat :: ending == Aborted(k) <==>
                 && k in attempts && (answers[k].Failed? || (answers[k].Invalid? && !templates[k].replace))
                 && forall j | j in attempts && j < k ::
                      !answers[j].Failed? && (answers[j].Invalid? ==> templates[j].replace)
  {
    var attempts := AllowedBelow(cs, Reach(ending, |templates|));
    BelowIff(cs, Reach(ending, |templates|));
    forall j | j in attempts
      ensures Aborts(cs, templates, answers, j)
              <==> answers[j].Failed? || (answers[j].Invalid? && !templates[j].replace)
    {
    }
  }

  /** The pass. `attempts` are the templates whose object it tried to apply and `objects` those objects;
      `passedOver` counts the others it looked at; at `failures` it wrote phase Failed. A finished pass is
      not a complete application: refused templates and failed replacements are skipped. */
  method ProcessTemplates(env: Env, rules: seq<Rule>, ns: string, templates: seq<Template>, answers: seq<Answer>)
    returns (ending: Ending, attempts: seq<nat>, objects: seq<Json>, passedOver: nat, failures: seq<nat>)
    requires |answers| == |templates|
    ensures var cs := Checks(env, rules, ns, templates);
            && (ending.Aborted? ==> ending.k < |templates| && Aborts(cs, templates, answers, ending.k))
            && (forall j | 0 <= j < |templates| && (ending.Aborted? ==> j < ending.k) ::
                  !Aborts(cs, templates, answers, j))
            && attempts == AllowedBelow(cs, Reach(ending, |templates|)) && FromChecks(cs, attempts, objects)
            && failures == RefusedBelow(cs, Reach(ending, |templates|)) + if ending.Aborted? then [ending.k] else []
    ensures passedOver + |attempts| == Reach(ending, |templates|)
    ensures forall j | j in attempts :: j < |templates|
    ensures ending.Finished? ==>
              forall j | j in attempts :: !answers[j].Failed? && (answers[j].Invalid? ==> templates[j].replace)
    ensures forall k: nat :: ending == Aborted(k) <==>
              && k in attempts && (answers[k].Failed? || (answers[k].Invalid? && !templates[k].replace))
              && forall j | j in attempts && j < k ::
                   !answers[j].Failed? && (answers[j].Invalid? ==> templates[j].replace)
  {
    ghost var cs := Checks(env, rules, ns, templates);
    attempts, objects, passedOver, failures := [], [], 0, [];
    var k: nat := 0;
    while k < |templates|
      invariant 0 <= k <= |templates|
      invariant forall j | 0 <= j < k :: !Aborts(cs, templates, answers, j)
      invariant Progress(cs, k, attempts, objects, passedOver, failures)
    {
      var check := CheckTemplate(env, rules, ns, templates[k]);
      assert check == cs[k];
      if check.Refused? {
        RefusedNext(cs, k, attempts, objects, passedOver, failures);
        passedOver := passedOver + 1;
        failures := failures + if check.reason != Unparsable then [k] else [];
        k := k + 1;
        continue;
      }
      AllowedNext(cs, k, attempts, objects, passedOver, failures);
      attempts, objects := attempts + [k], objects + [check.obj];
      if HardFailure(templates[k], answers[k]) {
        EndingFor(cs, templates, answers, Aborted(k));
        return Aborted(k), attempts, objects, passedOver, failures + [k];
      }
      k := k + 1;
    }
    EndingFor(cs, templates, answers, Finished);
    return Finished, attempts, objects, passedOver, failures;
  }

  method CheckTemplate(env: Env, rules: seq<Rule>, ns: string, t: Template) returns (r: Check)
    ensures r == WorkerCheck(env, rules, ns, t)
  {
    var parsed := env.parse(t.raw);
    if parsed.None? {
      return Refused(Unparsable);
    }
    var o := Placed(parsed.value, ns);
    var i := FindRule(rules, env.gvkOf(o));
    if i == |rules| {
      return Refused(KindNotAllowed);
    }
    var rule := rules[i];
    if |rule.targets| == 0 {
      return Refused(NoTargets);
    }
    var inTargets := Contains(rule.targets, GetNamespace(o));
    if !inTargets {
      return Refused(WrongNamespace);
    }
    if rule.cel != "" && env.cel(rule.cel, "object", o) != CelValue(true) {
      return Refused(RuleFailed);
    }
    return Allowed(o);
  }

  /** The worker never tries to apply an object that its first matching rule forbids. */
  lemma AttemptsArePermitted(
      env: Env, rules: seq<Rule>, ns: string, templates: seq<Template>,
      attempts: seq<nat>, objects: seq<Json>, j: nat)
    requires FromChecks(Checks(env, rules, ns, templates), attempts, objects) && j < |attempts|
    ensures Permitted(env, rules, objects[j])
  {
    var t := templates[attempts[j]];
    assert WorkerCheck(env, rules, ns, t) == Allowed(objects[j]);
    AllowedIsPermitted(env, rules, ns, t);
  }

  function UpTo(n: nat): (s: seq<nat>)
    ensures |s| == n && forall k | 0 <= k < n :: s[k] == k
  {
    if n == 0 then [] else UpTo(n - 1) + [n - 1]
  }

  /** The worker under the same policy gives a template that the webhook accepted the same verdict, with
      the very object the webhook saw. */
  lemma AdmittedIsAllowed(env: Env, rules: seq<Rule>, ns: string, templates: seq<Template>, k: nat)
    requires Admitted(env, rules, ns, templates) && k < |templates|
    ensures WorkerCheck(env, rules, ns, templates[k]) == WebhookCheck(env, rules, ns, templates[k])
    ensures Checks(env, rules, ns, templates)[k].Allowed?
  {
    var check := WebhookCheck(env, rules, ns, templates[k]);
    WebhookIsStricter(env, rules, ns, templates[k], check.obj);
  }

  lemma {:induction false} AllAllowed(cs: seq<Check>, n: nat)
    requires n <= |cs| && forall k | 0 <= k < n :: cs[k].Allowed?
    ensures AllowedBelow(cs, n) == UpTo(n) && RefusedBelow(cs, n) == []
  {
    if n > 0 { AllAllowed(cs, n - 1); }
  }

  /** Admission implies processing: for a KubeTemplate that the webhook accepts under a policy, the worker
      under the same policy refuses and passes over nothing, however far it gets: it tries to apply every
      template in order. */
  lemma AdmissionImpliesProcessing(env: Env, rules: seq<Rule>, ns: string, templates: seq<Template>, n: nat)
    requires Admitted(env, rules, ns, templates) && n <= |templates|
    ensures AllowedBelow(Checks(env, rules, ns, templates), n) == UpTo(n)
    ensures RefusedBelow(Checks(env, rules, ns, templates), n) == []
  {
    var cs := Checks(env, rules, ns, templates);
    forall j | 0 <= j < n
      ensures cs[j].Allowed?
    {
      AdmittedIsAllowed(env, rules, ns, templates, j);
    }
    AllAllowed(cs, n);
  }

  /** The converse fails: a template that the worker applies is rejected by the webhook exactly when it
      violates a field validation, exceeds the limits on CEL evaluation, or is too large. */
  lemma WorkerIsLaxer(env: Env, rules: seq<Rule>, ns: string, t: Template, o: Json)
    requires WorkerCheck(env, rules, ns, t) == Allowed(o)
    ensures WebhookCheck(env, rules, ns, t).Refused? <==> !WebhookExtra(env, rules, t, o)
  {
    WebhookIsStricter(env, rules, ns, t, o);
    if WebhookCheck(env, rules, ns, t).Allowed? {
      WebhookIsStricter(env, rules, ns, t, WebhookCheck(env, rules, ns, t).obj);
    }
  }

  /** A policy for config maps that requires a `data` field, and foreign code that parses everything to
      a config map without one. */
  const STRICT: Rule :=
    Rule(CONFIG_MAP, "", [FieldValidation("data", "data", RequiredCheck, "", "", None, None)], ["team"])
  const CONFIG_MAP: Gvk := Gvk("", "v1", "ConfigMap")

  function EmptyConfigMap(): Env {
    Env((raw: string) => Some(JMap(map[])), (o: Json) => CONFIG_MAP,
        (rule: string, variable: string, o: Json) => CelValue(true),
        (rule: string, variable: string, o: Json) => true,
        (pattern: string) => true, (pattern: string, value: string) => true)
  }

  /** One such template: the worker applies it, the webhook rejects it for its missing field. */
  lemma MissingFieldIsApplied()
    ensures WorkerCheck(EmptyConfigMap(), [STRICT], "team", Template("{}", false)).Allowed?
    ensures WebhookCheck(EmptyConfigMap(), [STRICT], "team", Template("{}", false)) == Refused(FieldFailed)
  {
    var o := Placed(JMap(map[]), "team");
    var path := ["metadata", "namespace"];
    assert path[1..] == ["namespace"] && path[1..][1..] == [];
    assert GetNamespace(o) == "team";
    assert FirstMatch([STRICT], CONFIG_MAP) == 0;
    var f := STRICT.fields[0];
    KeysWithoutDots("data");
    assert Nested(o, ["data"]).Missing?;
    assert f in STRICT.fields && !FieldPasses(EmptyConfigMap(), f, o);
  }
}
