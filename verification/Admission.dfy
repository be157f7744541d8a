/** Admission against processing: the webhook's validation of a KubeTemplate, the worker's later check
    of the same templates, and how the two relate. */
module Admission {
  import opened Common
  import opened Policies

  const MAX_TEMPLATES: nat := 50
  const MAX_TEMPLATE_SIZE: nat := 1024 * 1024

  // ---------- field validations ----------

  /** The webhook evaluates CEL under a cost and a time limit. */
  predicate CelPasses(env: Env, rule: string, variable: string, value: Json) {
    env.cel(rule, variable, value) == CelValue(true) && env.withinLimits(rule, variable, value)
  }

  predicate WholeObject(f: FieldValidation) { f.fieldPath == "" || f.fieldPath == "object" }

  predicate CelFieldPasses(env: Env, f: FieldValidation, o: Json) {
    && f.cel != ""
    && if WholeObject(f) then CelPasses(env, f.cel, "object", o)
       else match Nested(o, Keys(f.fieldPath))
         case BadPath => false
         case Missing => CelPasses(env, f.cel, "value", JNull)
         case Present(v) => CelPasses(env, f.cel, "value", v)
  }

  predicate RegexFieldPasses(env: Env, f: FieldValidation, o: Json) {
    && f.regex != "" && f.fieldPath != ""
    && var v := NestedString(o, Keys(f.fieldPath));
       v.Present? && env.compiles(f.regex) && env.matches(f.regex, v.value)
  }

  predicate RangeFieldPasses(f: FieldValidation, o: Json) {
    && f.fieldPath != "" && (f.min.Some? || f.max.Some?)
    && var v := NestedInt(o, Keys(f.fieldPath));
       v.Present? && (f.min.Some? ==> f.min.value <= v.value) && (f.max.Some? ==> v.value <= f.max.value)
  }

  predicate RequiredFieldPasses(f: FieldValidation, o: Json) {
    && f.fieldPath != ""
    && var v := Nested(o, Keys(f.fieldPath)); v.Present? && v.value != JNull && v.value != JStr("")
  }

  predicate ForbiddenFieldPasses(f: FieldValidation, o: Json) {
    f.fieldPath != "" && Nested(o, Keys(f.fieldPath)).Missing?
  }

  predicate FieldPasses(env: Env, f: FieldValidation, o: Json) {
    match f.kind
    case CelCheck => CelFieldPasses(env, f, o)
    case RegexCheck => RegexFieldPasses(env, f, o)
    case RangeCheck => RangeFieldPasses(f, o)
    case RequiredCheck => RequiredFieldPasses(f, o)
    case ForbiddenCheck => ForbiddenFieldPasses(f, o)
    case UnknownCheck => false
  }

  /** What the checks accept of an object whose field has been set to `v`. */
  lemma FieldChecksOfValue(env: Env, f: FieldValidation, o: Json, v: Json)
    requires f.fieldPath != "" && CanHold(o, Keys(f.fieldPath))
    ensures var o' := Assigned(o, Keys(f.fieldPath), v);
            && (f.kind.RangeCheck? ==>
                  (FieldPasses(env, f, o') <==>
                     && v.JInt? && (f.min.Some? || f.max.Some?)
                     && (f.min.Some? ==> f.min.value <= v.i) && (f.max.Some? ==> v.i <= f.max.value)))
            && (f.kind.RegexCheck? ==>
                  (FieldPasses(env, f, o') <==>
                     f.regex != "" && v.JStr? && env.compiles(f.regex) && env.matches(f.regex, v.s)))
            && (f.kind.CelCheck? && f.fieldPath != "object" ==>
                  (FieldPasses(env, f, o') <==>
                     && f.cel != "" && env.cel(f.cel, "value", v) == CelValue(true)
                     && env.withinLimits(f.cel, "value", v)))
            && (f.kind.RequiredCheck? ==> (FieldPasses(env, f, o') <==> v != JNull && v != JStr("")))
            && (f.kind.ForbiddenCheck? ==> !FieldPasses(env, f, o'))
  {
    NestedAssigned(o, Keys(f.fieldPath), v);
  }

  /** What they accept of an object whose field has been removed: CEL sees null. */
  lemma FieldChecksOfMissing(env: Env, f: FieldValidation, o: Json)
    requires f.fieldPath != "" && CanHold(o, Keys(f.fieldPath))
    ensures var bare := Removed(o, Keys(f.fieldPath));
            && (f.kind.RangeCheck? || f.kind.RegexCheck? || f.kind.RequiredCheck? ==> !FieldPasses(env, f, bare))
            && (f.kind.ForbiddenCheck? ==> FieldPasses(env, f, bare))
            && (f.kind.CelCheck? && f.fieldPath != "object" ==>
                  (FieldPasses(env, f, bare) <==>
                     && f.cel != "" && env.cel(f.cel, "value", JNull) == CelValue(true)
                     && env.withinLimits(f.cel, "value", JNull)))
  {
    NestedAssigned(o, Keys(f.fieldPath), JNull);
  }

  /** On a broken path every check fails. Without a path, or with the path "object", a CEL check sees the
      whole object; the other checks need a path. */
  lemma FieldChecksElsewhere(env: Env, f: FieldValidation, o: Json, k: nat)
    ensures f.fieldPath != "" && !(f.kind.CelCheck? && f.fieldPath == "object") && k < |Keys(f.fieldPath)|
            && IsScalar(Nested(o, Keys(f.fieldPath)[..k]))
            ==> !FieldPasses(env, f, o)
    ensures f.kind.CelCheck? && (f.fieldPath == "" || f.fieldPath == "object") ==>
              (FieldPasses(env, f, o) <==>
                 && f.cel != "" && env.cel(f.cel, "object", o) == CelValue(true)
                 && env.withinLimits(f.cel, "object", o))
    ensures (!f.kind.CelCheck? && f.fieldPath == "") || f.kind.UnknownCheck? ==> !FieldPasses(env, f, o)
  {
    NestedBrokenIff(o, Keys(f.fieldPath));
  }

  /** `required` and `forbidden` on the same path exclude each other; an object satisfies neither
      exactly when the path is empty or broken, or leads to null or the empty string. */
  lemma RequiredAgainstForbidden(f: FieldValidation, o: Json)
    ensures !(RequiredFieldPasses(f, o) && ForbiddenFieldPasses(f, o))
    ensures !RequiredFieldPasses(f, o) && !ForbiddenFieldPasses(f, o)
            <==> f.fieldPath == "" || var v := Nested(o, Keys(f.fieldPath));
                 v.BadPath? || v == Present(JNull) || v == Present(JStr(""))
  {
  }

  // ---------- one template ----------

  datatype Reason = TooLarge | Unparsable | KindNotAllowed | NoTargets | WrongNamespace | RuleFailed | FieldFailed

  /** What the worker makes of a template: unparsable and refused ones are passed over, the others are
      applied as the object returned. */
  datatype Check = Refused(reason: Reason) | Allowed(obj: Json)

  function WorkerCheck(env: Env, rules: seq<Rule>, ns: string, t: Template): Check {
    match env.parse(t.raw)
    case None => Refused(Unparsable)
    case Some(parsed) =>
      var o := Placed(parsed, ns);
      var i := FirstMatch(rules, env.gvkOf(o));
      if i == |rules| then Refused(KindNotAllowed)
      else if |rules[i].targets| == 0 then Refused(NoTargets)
      else if GetNamespace(o) !in rules[i].targets then Refused(WrongNamespace)
      else if rules[i].cel != "" && env.cel(rules[i].cel, "object", o) != CelValue(true) then Refused(RuleFailed)
      else Allowed(o)
  }

  /** The worker may patch `o` only if the first rule for its kind names targets, one of them the
      object's namespace, and the rule's expression holds. */
  ghost predicate Permitted(env: Env, rules: seq<Rule>, o: Json) {
    exists i ::
      && 0 <= i < |rules| && rules[i].gvk == env.gvkOf(o)
      && (forall j | 0 <= j < i :: rules[j].gvk != env.gvkOf(o))
      && GetNamespace(o) in rules[i].targets
      && (rules[i].cel != "" ==> env.cel(rules[i].cel, "object", o) == CelValue(true))
  }

  lemma AllowedIsPermitted(env: Env, rules: seq<Rule>, ns: string, t: Template)
    ensures WorkerCheck(env, rules, ns, t).Allowed?
            <==> env.parse(t.raw).Some? && Permitted(env, rules, Placed(env.parse(t.raw).value, ns))
  {
    if env.parse(t.raw).Some? {
      var o := Placed(env.parse(t.raw).value, ns);
      var i := FirstMatch(rules, env.gvkOf(o));
      if WorkerCheck(env, rules, ns, t).Allowed? {
        assert 0 <= i < |rules| && rules[i].gvk == env.gvkOf(o);
      }
    }
  }

  /** What the webhook asks of a template on top of what the worker asks. */
  predicate WebhookExtra(env: Env, rules: seq<Rule>, t: Template, o: Json) {
    && |t.raw| <= MAX_TEMPLATE_SIZE
    && var i := FirstMatch(rules, env.gvkOf(o));
       i < |rules| ==>
         && (rules[i].cel != "" ==> env.withinLimits(rules[i].cel, "object", o))
         && (forall f | f in rules[i].fields :: FieldPasses(env, f, o))
  }

  /** The webhook's checks of one template in their order. */
  function WebhookCheck(env: Env, rules: seq<Rule>, ns: string, t: Template): Check {
    if |t.raw| > MAX_TEMPLATE_SIZE then Refused(TooLarge)
    else match env.parse(t.raw)
      case None => Refused(Unparsable)
      case Some(parsed) =>
        var o := Placed(parsed, ns);
        var i := FirstMatch(rules, env.gvkOf(o));
        if i == |rules| then Refused(KindNotAllowed)
        else if |rules[i].targets| == 0 then Refused(NoTargets)
        else if GetNamespace(o) !in rules[i].targets then Refused(WrongNamespace)
        else if rules[i].cel != "" && !CelPasses(env, rules[i].cel, "object", o) then Refused(RuleFailed)
        else if exists f | f in rules[i].fields :: !FieldPasses(env, f, o) then Refused(FieldFailed)
        else Allowed(o)
  }

  /** The webhook lets a template pass exactly when the worker would apply it and the webhook's own
      additions hold; both then see the same object. */
  lemma WebhookIsStricter(env: Env, rules: seq<Rule>, ns: string, t: Template, o: Json)
    ensures WebhookCheck(env, rules, ns, t) == Allowed(o)
            <==> WorkerCheck(env, rules, ns, t) == Allowed(o) && WebhookExtra(env, rules, t, o)
  {
  }

  // ---------- the reasons ----------

  /** The first rule for the kind of object. */
  ghost predicate IsFirstRule(env: Env, rules: seq<Rule>, o: Json, i: nat) {
    i < |rules| && rules[i].gvk == env.gvkOf(o) && forall j | 0 <= j < i :: rules[j].gvk != env.gvkOf(o)
  }

  /** Something is wrong with the object under the rule, apart from the limits of the webhook. */
  ghost predicate Offends(env: Env, rule: Rule, o: Json, r: Reason) {
    match r
    case NoTargets => rule.targets == []
    case WrongNamespace => GetNamespace(o) !in rule.targets
    case RuleFailed => rule.cel != "" && env.cel(rule.cel, "object", o) != CelValue(true)
    case FieldFailed => exists f | f in rule.fields :: !FieldPasses(env, f, o)
    case _ => false
  }

  /** The reason applies to the template, whatever else does. */
  ghost predicate Applies(env: Env, rules: seq<Rule>, ns: string, t: Template, r: Reason) {
    match r
    case TooLarge => |t.raw| > MAX_TEMPLATE_SIZE
    case Unparsable => env.parse(t.raw).None?
    case KindNotAllowed =>
      env.parse(t.raw).Some? &&
      forall i | 0 <= i < |rules| :: rules[i].gvk != env.gvkOf(Placed(env.parse(t.raw).value, ns))
    case _ =>
      env.parse(t.raw).Some? &&
      var o := Placed(env.parse(t.raw).value, ns);
      exists i: nat :: IsFirstRule(env, rules, o, i) && Offends(env, rules[i], o, r)
  }

  /** The expression holds but takes too long or costs too much, which only the webhook minds. */
  ghost predicate ExceedsLimits(env: Env, rules: seq<Rule>, ns: string, t: Template) {
    env.parse(t.raw).Some? &&
    var o := Placed(env.parse(t.raw).value, ns);
    exists i: nat ::
      IsFirstRule(env, rules, o, i) && rules[i].cel != "" && !env.withinLimits(rules[i].cel, "object", o)
  }

  /** The order in which reasons are given. */
  function Rank(r: Reason): nat {
    match r
    case TooLarge => 0
    case Unparsable => 1
    case KindNotAllowed => 2
    case NoTargets => 3
    case WrongNamespace => 4
    case RuleFailed => 5
    case FieldFailed => 6
  }

  /** The worker gives the first reason that applies, and knows neither size nor field validations. */
  lemma WorkerReasonIff(env: Env, rules: seq<Rule>, ns: string, t: Template, r: Reason)
    ensures WorkerCheck(env, rules, ns, t) == Refused(r)
            <==> && r != TooLarge && r != FieldFailed && Applies(env, rules, ns, t, r)
                 && forall e: Reason | 0 < Rank(e) < Rank(r) :: !Applies(env, rules, ns, t, e)
  {
    ReasonsApply(env, rules, ns, t);
    assert Rank(Unparsable) == 1 && Rank(KindNotAllowed) == 2 && Rank(NoTargets) == 3 && Rank(WrongNamespace) == 4;
  }

  /** The webhook gives the first reason that applies; the rule also fails on its limits. */
  lemma WebhookReasonIff(env: Env, rules: seq<Rule>, ns: string, t: Template, r: Reason)
    ensures WebhookCheck(env, rules, ns, t) == Refused(r)
            <==> && (Applies(env, rules, ns, t, r) || (r == RuleFailed && ExceedsLimits(env, rules, ns, t)))
                 && (forall e: Reason | Rank(e) < Rank(r) :: !Applies(env, rules, ns, t, e))
                 && (r == FieldFailed ==> !ExceedsLimits(env, rules, ns, t))
  {
    ReasonsApply(env, rules, ns, t);
    assert Rank(TooLarge) == 0 && Rank(Unparsable) == 1 && Rank(KindNotAllowed) == 2 && Rank(NoTargets) == 3;
    assert Rank(WrongNamespace) == 4 && Rank(RuleFailed) == 5;
  }

  /** Each reason in terms of the rule that the search finds. */
  lemma ReasonsApply(env: Env, rules: seq<Rule>, ns: string, t: Template)
    ensures Applies(env, rules, ns, t, TooLarge) <==> |t.raw| > MAX_TEMPLATE_SIZE
    ensures Applies(env, rules, ns, t, Unparsable) <==> env.parse(t.raw).None?
    ensures env.parse(t.raw).Some? ==>
              var o := Placed(env.parse(t.raw).value, ns);
              var i := FirstMatch(rules, env.gvkOf(o));
              && (Applies(env, rules, ns, t, KindNotAllowed) <==> i == |rules|)
              && (forall r: Reason | Rank(r) > 2 ::
                    Applies(env, rules, ns, t, r) <==> i < |rules| && Offends(env, rules[i], o, r))
              && (ExceedsLimits(env, rules, ns, t)
                  <==> i < |rules| && rules[i].cel != "" && !env.withinLimits(rules[i].cel, "object", o))
  {
    if env.parse(t.raw).Some? {
      forall r: Reason | Rank(r) > 2
        ensures var o := Placed(env.parse(t.raw).value, ns);
                var i := FirstMatch(rules, env.gvkOf(o));
                Applies(env, rules, ns, t, r) <==> i < |rules| && Offends(env, rules[i], o, r)
      {
        RuleReasonApplies(env, rules, ns, t, r);
      }
      LimitsApply(env, rules, ns, t);
    }
  }

  lemma RuleReasonApplies(env: Env, rules: seq<Rule>, ns: string, t: Template, r: Reason)
    requires env.parse(t.raw).Some? && Rank(r) > 2
    ensures var o := Placed(env.parse(t.raw).value, ns);
            var i := FirstMatch(rules, env.gvkOf(o));
            Applies(env, rules, ns, t, r) <==> i < |rules| && Offends(env, rules[i], o, r)
  {
    FirstRule(env, rules, ns, t);
  }

  lemma LimitsApply(env: Env, rules: seq<Rule>, ns: string, t: Template)
    requires env.parse(t.raw).Some?
    ensures var o := Placed(env.parse(t.raw).value, ns);
            var i := FirstMatch(rules, env.gvkOf(o));
            ExceedsLimits(env, rules, ns, t)
            <==> i < |rules| && rules[i].cel != "" && !env.withinLimits(rules[i].cel, "object", o)
  {
    FirstRule(env, rules, ns, t);
  }

  /** The search finds the first rule, and there is no other. */
  lemma FirstRule(env: Env, rules: seq<Rule>, ns: string, t: Template)
    ensures env.parse(t.raw).Some? ==>
              var o := Placed(env.parse(t.raw).value, ns);
              var i := FirstMatch(rules, env.gvkOf(o));
              && (i < |rules| ==> IsFirstRule(env, rules, o, i))
              && forall j: nat | IsFirstRule(env, rules, o, j) :: j == i
  {
  }

  // ---------- the webhook ----------

  datatype Review = Accepted | NoPolicy | TooMany | Rejected(index: nat, reason: Reason)

  class Validator {
    const env: Env
    var regexCache: set<string>   // patterns compiled so far

    /** Only patterns that compile are cached. */
    ghost predicate Valid()
      reads this
    {
      forall p | p in regexCache :: env.compiles(p)
    }

    constructor (env: Env)
      ensures Valid() && this.env == env
    {
      this.env, regexCache := env, {};
    }

    /** The cache is invisible: the answer is that of compiling the pattern every time. */
    method ValidateFieldRegex(f: FieldValidation, o: Json) returns (ok: bool)
      requires Valid()
      modifies this`regexCache
      ensures Valid() && (ok <==> RegexFieldPasses(env, f, o))
      ensures old(regexCache) <= regexCache <= old(regexCache) + {f.regex} && (ok ==> f.regex in regexCache)
    {
      if f.regex == "" || f.fieldPath == "" {
        return false;
      }
      var v := NestedString(o, Keys(f.fieldPath));
      if !v.Present? {
        return false;
      }
      if f.regex !in regexCache {
        if !env.compiles(f.regex) {
          return false;
        }
        regexCache := regexCache + {f.regex};
      }
      ok := env.matches(f.regex, v.value);
    }

    method ValidateFieldValidations(fields: seq<FieldValidation>, o: Json) returns (ok: bool)
      requires Valid()
      modifies this`regexCache
      ensures Valid() && (ok <==> forall f | f in fields :: FieldPasses(env, f, o))
    {
      var k := 0;
      while k < |fields|
        invariant 0 <= k <= |fields| && Valid()
        invariant forall f | f in fields[..k] :: FieldPasses(env, f, o)
      {
        var f := fields[k];
        if f.kind == RegexCheck {
          ok := ValidateFieldRegex(f, o);
        } else {
          ok := FieldPasses(env, f, o);
        }
        if !ok {
          assert f in fields;
          return false;
        }
        assert fields[..k + 1] == fields[..k] + [f];
        k := k + 1;
      }
      assert fields[..k] == fields;
      return true;
    }

    method ValidateTemplate(rules: seq<Rule>, ns: string, t: Template) returns (r: Check)
      requires Valid()
      modifies this`regexCache
      ensures Valid() && r == WebhookCheck(env, rules, ns, t)
    {
      if |t.raw| > MAX_TEMPLATE_SIZE {
        return Refused(TooLarge);
      }
      var parsed := env.parse(t.raw);
      if parsed.None? {
        return Refused(Unparsable);
      }
      var o := Placed(parsed.value, ns);
      var i := FindRule(rules, env.gvkOf(o));
      if i == |rules| {
        return Refused(KindNotAllowed);
      }
      var rule := rules[i];
      if |rule.targets| == 0 {
        return Refused(NoTargets);
      }
      var inTargets := Contains(rule.targets, GetNamespace(o));
      if !inTargets {
        return Refused(WrongNamespace);
      }
      if rule.cel != "" && !CelPasses(env, rule.cel, "object", o) {
        return Refused(RuleFailed);
      }
      var ok := ValidateFieldValidations(rule.fields, o);
      return if ok then Allowed(o) else Refused(FieldFailed);
    }

    /** The admission decision on a whole KubeTemplate, given the rules of the policy that the lookup
        returned, if any: accepted exactly when there is a policy and at most 50 templates and each
        passes; otherwise the first one that fails is reported. Every passed template with `replace` adds
        a warning, in order. */
    method ValidateKubeTemplate(policy: Option<seq<Rule>>, ns: string, templates: seq<Template>)
      returns (r: Review, warnings: seq<nat>)
      requires Valid()
      modifies this`regexCache
      ensures Valid()
      ensures r.Accepted? <==> policy.Some? && Admitted(env, policy.value, ns, templates)
      ensures r.NoPolicy? <==> policy.None?
      ensures r.TooMany? <==> policy.Some? && |templates| > MAX_TEMPLATES
      ensures r.Rejected? ==>
                && policy.Some? && r.index < |templates|
                && WebhookCheck(env, policy.value, ns, templates[r.index]) == Refused(r.reason)
                && forall j | 0 <= j < r.index :: WebhookCheck(env, policy.value, ns, templates[j]).Allowed?
      ensures var passed := match r case Accepted => |templates| case Rejected(k, _) => k case _ => 0;
              warnings == Replacing(templates[..passed])
    {
      warnings := [];
      if policy.None? {
        return NoPolicy, warnings;
      }
      var rules := policy.value;
      ghost var cs := WebhookChecks(env, rules, ns, templates);
      if |templates| > MAX_TEMPLATES {
        return TooMany, warnings;
      }
      var k := 0;
      while k < |templates|
        invariant 0 <= k <= |templates| && Valid()
        invariant forall j | 0 <= j < k :: cs[j].Allowed?
        invariant warnings == Replacing(templates[..k])
      {
        var check := ValidateTemplate(rules, ns, templates[k]);
        if check.Refused? {
          return Rejected(k, check.reason), warnings;
        }
        assert templates[..k + 1][..k] == templates[..k];
        if templates[k].replace {
          warnings := warnings + [k];
        }
        k := k + 1;
      }
      assert templates[..k] == templates;
      return Accepted, warnings;
    }
  }

  /** The webhook's check of every template. */
  ghost function WebhookChecks(env: Env, rules: seq<Rule>, ns: string, templates: seq<Template>): (cs: seq<Check>)
    ensures |cs| == |templates|
    ensures forall k {:trigger WebhookCheck(env, rules, ns, templates[k])} | 0 <= k < |templates| ::
              cs[k] == WebhookCheck(env, rules, ns, templates[k])
  {
    if |templates| == 0 then []
    else
      var k := |templates| - 1;
      WebhookChecks(env, rules, ns, templates[..k]) + [WebhookCheck(env, rules, ns, templates[k])]
  }

  /** The webhook accepts the KubeTemplate. */
  predicate Admitted(env: Env, rules: seq<Rule>, ns: string, templates: seq<Template>) {
    && |templates| <= MAX_TEMPLATES
    && forall k | 0 <= k < |templates| :: WebhookCheck(env, rules, ns, templates[k]).Allowed?
  }

  /** Up to fifty templates are admitted together exactly if each is admitted on its own; more never are. */
  lemma AdmittedOneByOne(env: Env, rules: seq<Rule>, ns: string, templates: seq<Template>)
    ensures |templates| <= 50 ==>
              (Admitted(env, rules, ns, templates) <==>
                 forall k | 0 <= k < |templates| :: Admitted(env, rules, ns, [templates[k]]))
    ensures |templates| > 50 ==> !Admitted(env, rules, ns, templates)
    ensures forall t :: Admitted(env, rules, ns, [t]) <==> WebhookCheck(env, rules, ns, t).Allowed?
  {
    forall t
      ensures Admitted(env, rules, ns, [t]) <==> WebhookCheck(env, rules, ns, t).Allowed?
    {
      assert [t][0] == t;
    }
  }

  /** The warnings are exactly about the templates that ask to be replaced, in order. */
  lemma {:induction false} ReplacingIff(templates: seq<Template>)
    ensures forall k: nat :: k in Replacing(templates) <==> k < |templates| && templates[k].replace
    ensures forall i, j | 0 <= i < j < |Replacing(templates)| :: Replacing(templates)[i] < Replacing(templates)[j]
  {
    if |templates| > 0 {
      var k := |templates| - 1;
      ReplacingIff(templates[..k]);
      forall i | 0 <= i < |Replacing(templates[..k])|
        ensures Replacing(templates[..k])[i] < k
      {
        assert Replacing(templates[..k])[i] in Replacing(templates[..k]);
      }
    }
  }

  /** Positions of the templates that ask to be replaced. */
  function Replacing(templates: seq<Template>): seq<nat> {
    if |templates| == 0 then []
    else
      var k := |templates| - 1;
      Replacing(templates[..k]) + if templates[k].replace then [k] else []
  }
}
