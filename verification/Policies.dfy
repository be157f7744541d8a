/** Policies, templates and the JSON objects they are about: what the admission webhook and the worker
    both look at. Parsing, CEL and regular expressions are foreign; they enter as the functions of an
    `Env`. */
module Policies {
  import opened Common

  datatype Json =
    | JNull
    | JBool(b: bool)
    | JInt(i: int)
    | JStr(s: string)
    | JList(items: seq<Json>)
    | JMap(fields: map<string, Json>)

  datatype Gvk = Gvk(group: string, version: string, kind: string)

  datatype FieldType = CelCheck | RegexCheck | RangeCheck | RequiredCheck | ForbiddenCheck | UnknownCheck

  datatype FieldValidation = FieldValidation(
    name: string, fieldPath: string, kind: FieldType, cel: string, regex: string,
    min: Option<int>, max: Option<int>)

  datatype Rule = Rule(gvk: Gvk, cel: string, fields: seq<FieldValidation>, targets: seq<string>)

  datatype Template = Template(raw: string, replace: bool)

  datatype CelResult = CelError | CelValue(isTrue: bool)

  /** Foreign code: YAML parsing, the group-version-kind of an object, evaluation of a CEL expression
      with one variable, whether that evaluation stays within the webhook's cost and time limits, and
      regular expressions. */
  datatype Env = Env(
    parse: string -> Option<Json>,
    gvkOf: Json -> Gvk,
    cel: (string, string, Json) -> CelResult,
    withinLimits: (string, string, Json) -> bool,
    compiles: string -> bool,
    matches: (string, string) -> bool)

  // ---------- nested fields ----------

  datatype Lookup<+T> = BadPath | Missing | Present(value: T)

  /** Follow keys through nested objects. A null on the way counts as missing, any other non-object is
      an error. */
  function Nested(v: Json, keys: seq<string>): Lookup<Json>
    decreases |keys|
  {
    if |keys| == 0 then Present(v)
    else match v
      case JNull => Missing
      case JMap(fields) => if keys[0] in fields then Nested(fields[keys[0]], keys[1..]) else Missing
      case _ => BadPath
  }

  function NestedString(v: Json, keys: seq<string>): Lookup<string> {
    match Nested(v, keys)
    case BadPath => BadPath
    case Missing => Missing
    case Present(x) => if x.JStr? then Present(x.s) else BadPath
  }

  function NestedInt(v: Json, keys: seq<string>): Lookup<int> {
    match Nested(v, keys)
    case BadPath => BadPath
    case Missing => Missing
    case Present(x) => if x.JInt? then Present(x.i) else BadPath
  }

  /** The path leads through objects as far as it exists. */
  predicate CanHold(o: Json, keys: seq<string>)
    decreases |keys|
  {
    |keys| == 0 || (o.JMap? && (keys[0] in o.fields ==> CanHold(o.fields[keys[0]], keys[1..])))
  }

  /** Set the value at a path, making the objects on the way. */
  function Assigned(o: Json, keys: seq<string>, v: Json): Json
    decreases |keys|
  {
    if |keys| == 0 then v
    else if !o.JMap? then o
    else
      var inner := if keys[0] in o.fields then o.fields[keys[0]] else JMap(map[]);
      JMap(o.fields[keys[0] := Assigned(inner, keys[1..], v)])
  }

  /** Remove the value at a path. */
  function Removed(o: Json, keys: seq<string>): Json
    decreases |keys|
  {
    if |keys| == 0 || !o.JMap? || keys[0] !in o.fields then o
    else if |keys| == 1 then JMap(o.fields - {keys[0]})
    else JMap(o.fields[keys[0] := Removed(o.fields[keys[0]], keys[1..])])
  }

  /** A lookup finds what was set, and nothing after a removal. */
  lemma {:induction false} NestedAssigned(o: Json, keys: seq<string>, v: Json)
    requires CanHold(o, keys)
    ensures Nested(Assigned(o, keys, v), keys) == Present(v)
    ensures |keys| > 0 ==> Nested(Removed(o, keys), keys) == Missing
    decreases |keys|
  {
    if |keys| > 0 {
      var inner := if keys[0] in o.fields then o.fields[keys[0]] else JMap(map[]);
      NestedAssigned(inner, keys[1..], v);
    }
  }

  /** Paths that part ways do not see each other's values. */
  lemma {:induction false} NestedElsewhere(o: Json, keys: seq<string>, v: Json, other: seq<string>, k: nat)
    requires CanHold(o, keys) && k < |keys| && k < |other| && keys[..k] == other[..k] && keys[k] != other[k]
    ensures Nested(Assigned(o, keys, v), other) == Nested(o, other)
    decreases k
  {
    if k > 0 {
      assert keys[0] == keys[..k][0] == other[..k][0] == other[0];
      assert keys[1..][..k - 1] == keys[..k][1..] == other[..k][1..] == other[1..][..k - 1];
      var inner := if keys[0] in o.fields then o.fields[keys[0]] else JMap(map[]);
      NestedElsewhere(inner, keys[1..], v, other[1..], k - 1);
    }
  }

  /** A path is broken exactly if a beginning of it leads to a value that is neither an object nor null. */
  lemma {:induction false} NestedBrokenIff(o: Json, keys: seq<string>)
    ensures Nested(o, keys).BadPath? <==> exists k | 0 <= k < |keys| :: IsScalar(Nested(o, keys[..k]))
    decreases |keys|
  {
    if |keys| > 0 {
      assert keys[..0] == [];
      if o.JMap? && keys[0] in o.fields {
        NestedBrokenIff(o.fields[keys[0]], keys[1..]);
        forall k | 0 < k < |keys|
          ensures Nested(o, keys[..k]) == Nested(o.fields[keys[0]], keys[1..][..k - 1])
        {
          assert keys[..k][1..] == keys[1..][..k - 1];
        }
        if k :| 0 <= k < |keys[1..]| && IsScalar(Nested(o.fields[keys[0]], keys[1..][..k])) {
          assert IsScalar(Nested(o, keys[..k + 1]));
        }
      } else {
        assert IsScalar(Nested(o, keys[..0])) <==> !o.JNull? && !o.JMap?;
      }
    }
  }

  predicate IsScalar(v: Lookup<Json>) { v.Present? && !v.value.JNull? && !v.value.JMap? }

  /** Split a dotted path into its keys. */
  function Keys(path: string): (keys: seq<string>)
    ensures |keys| >= 1
  {
    if |path| == 0 then [""]
    else if path[0] == '.' then [""] + Keys(path[1..])
    else
      var rest := Keys(path[1..]);
      [[path[0]] + rest[0]] + rest[1..]
  }

  function Joined(keys: seq<string>): string
    requires |keys| >= 1
  {
    if |keys| == 1 then keys[0] else keys[0] + "." + Joined(keys[1..])
  }

  /** Splitting loses nothing: joining the keys with dots gives the path back. */
  lemma {:induction false} KeysRoundTrip(path: string)
    ensures Joined(Keys(path)) == path
  {
    if |path| > 0 {
      KeysRoundTrip(path[1..]);
      var rest := Keys(path[1..]);
      if path[0] == '.' {
        assert Keys(path)[1..] == rest;
      } else {
        assert Keys(path)[1..] == rest[1..];
      }
      assert path == [path[0]] + path[1..];
    }
  }

  /** Keys contain no dots, so the round trip makes the split the only one. */
  lemma {:induction false} KeysHaveNoDots(path: string)
    ensures forall k | k in Keys(path) :: '.' !in k
  {
    if |path| > 0 {
      KeysHaveNoDots(path[1..]);
      var rest := Keys(path[1..]);
      assert rest[0] in rest;
      forall k | k in Keys(path)
        ensures '.' !in k
      {
        if path[0] != '.' && k == Keys(path)[0] {
        } else if path[0] == '.' && k == Keys(path)[0] {
        } else {
          assert k in rest;
        }
      }
    }
  }

  /** A path without dots is its own only key. */
  lemma {:induction false} KeysWithoutDots(path: string)
    requires '.' !in path
    ensures Keys(path) == [path]
  {
    if |path| > 0 {
      KeysWithoutDots(path[1..]);
      assert path == [path[0]] + path[1..];
    }
  }

  // ---------- namespaces ----------

  function GetNamespace(o: Json): string {
    match NestedString(o, ["metadata", "namespace"])
    case Present(ns) => ns
    case _ => ""
  }

  /** Set the namespace in the metadata; an object whose metadata is not a map stays as it is. */
  function SetNamespace(o: Json, ns: string): Json {
    if !o.JMap? then o
    else if "metadata" !in o.fields then JMap(o.fields["metadata" := JMap(map["namespace" := JStr(ns)])])
    else match o.fields["metadata"]
      case JMap(meta) => JMap(o.fields["metadata" := JMap(meta["namespace" := JStr(ns)])])
      case _ => o
  }

  /** An object without a namespace goes to the namespace of its KubeTemplate. */
  function Placed(o: Json, ns: string): Json {
    if GetNamespace(o) == "" then SetNamespace(o, ns) else o
  }

  /** Placing an object keeps an explicit namespace, supplies a missing one wherever metadata can hold
      it, and leaves every path outside the metadata alone. */
  lemma PlacedNamespace(o: Json, ns: string, keys: seq<string>)
    ensures GetNamespace(o) != "" ==> GetNamespace(Placed(o, ns)) == GetNamespace(o)
    ensures GetNamespace(o) == "" && o.JMap? && ("metadata" in o.fields ==> o.fields["metadata"].JMap?)
            ==> GetNamespace(Placed(o, ns)) == ns
    ensures |keys| > 0 && keys[0] != "metadata" ==> Nested(Placed(o, ns), keys) == Nested(o, keys)
  {
    var path := ["metadata", "namespace"];
    assert path[1..] == ["namespace"] && path[1..][1..] == [];
  }

  // ---------- rules ----------

  /** Index of the first rule for the kind of object, `|rules|` when there is none. */
  function FirstMatch(rules: seq<Rule>, gvk: Gvk): (i: nat)
    ensures i <= |rules|
    ensures i < |rules| ==> rules[i].gvk == gvk
    ensures forall j | 0 <= j < i :: rules[j].gvk != gvk
  {
    if |rules| == 0 then 0
    else if rules[0].gvk == gvk then 0
    else
      var i := FirstMatch(rules[1..], gvk);
      assert forall j | 0 < j < i + 1 :: rules[j] == rules[1..][j - 1];
      i + 1
  }

  /** The search loop that webhook and worker share. */
  method FindRule(rules: seq<Rule>, gvk: Gvk) returns (i: nat)
    ensures i == FirstMatch(rules, gvk)
  {
    i := 0;
    while i < |rules|
      invariant 0 <= i <= |rules|
      invariant forall j | 0 <= j < i :: rules[j].gvk != gvk
    {
      if rules[i].gvk == gvk {
        return;
      }
      i := i + 1;
    }
  }

  method Contains(items: seq<string>, x: string) returns (b: bool)
    ensures b <==> x in items
  {
    var i := 0;
    while i < |items|
      invariant 0 <= i <= |items|
      invariant x !in items[..i]
    {
      if items[i] == x {
        return true;
      }
      i := i + 1;
    }
    return false;
  }
}
