/** Validation with a shared, growing list of issues and a diagnostic cap. */
module Validator {
  import opened Json
  import opened Schemas
  import Pointer
  import Text

  const MAX_DIAGNOSTICS: nat := 32

  datatype Issue = Issue(path: string, constraint: string)

  function Decimal(n: nat): string {
    if n < 10 then [('0' as int + n) as char] else Decimal(n / 10) + [('0' as int + n % 10) as char]
  }

  function KindName(kind: Kind): string {
    match kind
    case ObjectKind => "Object"
    case ArrayKind => "Array"
    case StringKind => "String"
    case IntegerKind => "Integer"
    case NumberKind => "Number"
    case BooleanKind => "Boolean"
    case NullKind => "Null"
  }

  class IssueLog {
    var issues: seq<Issue>

    constructor ()
      ensures issues == []
    {
      issues := [];
    }

    method Push(path: string, constraint: string)
      modifies this
      ensures issues == old(issues) + [Issue(path, constraint)]
    {
      issues := issues + [Issue(path, constraint)];
    }
  }

  /** The list grew from `before`, and stayed as it was exactly when every check so far passed. */
  ghost predicate Records(before: seq<Issue>, after: seq<Issue>, passed: bool) {
    before <= after && (after == before <==> passed)
  }

  /**
   * Adds issues for `v` to the shared list. With fewer than 32 issues on entry the list is
   * left as it was exactly when the value conforms at every node; with more nothing happens.
   */
  method ValidateValue(rx: Engine, t: Schema, v: Value, path: string, log: IssueLog)
    modifies log
    ensures |old(log.issues)| >= MAX_DIAGNOSTICS ==> log.issues == old(log.issues)
    ensures |old(log.issues)| < MAX_DIAGNOSTICS ==> Records(old(log.issues), log.issues, Conforms(rx, Coded, t, v))
    decreases t, 2
  {
    hide EnumOk;
    if |log.issues| >= MAX_DIAGNOSTICS { return; }
    if !TypeOk(t.kind, v) {
      log.Push(path, "type:" + KindName(t.kind));
      return;
    }
    ghost var before := log.issues;
    ValidateEnum(t, v, path, log);
    assert Records(before, log.issues, EnumOk(t.enumValues, v));
    match t.kind
    case ObjectKind => ValidateObject(rx, t, v, path, log, before);
    case ArrayKind => ValidateArray(rx, t, v, path, log, before);
    case StringKind => ValidateString(rx, t, v.s, path, log, before);
    case IntegerKind => ValidateNumber(t, v.n, path, log, before);
    case NumberKind => ValidateNumber(t, v.n, path, log, before);
    case BooleanKind =>
    case NullKind =>
  }

  method ValidateString(rx: Engine, t: Schema, s: string, path: string, log: IssueLog, ghost before: seq<Issue>)
    requires before <= log.issues
    modifies log
    ensures Records(before, log.issues, old(log.issues) == before && StringOk(rx, t, s))
  {
    if Text.Utf8Length(s) > MAX_STRING_BYTES { log.Push(path, "stringBytes"); }
    if t.minLength.Some? && |s| < t.minLength.value { log.Push(path, "minLength"); }
    if t.maxLength.Some? && |s| > t.maxLength.value { log.Push(path, "maxLength"); }
    if t.pattern.Some? && !rx.matches(t.pattern.value, s) { log.Push(path, "pattern"); }
  }

  method ValidateNumber(t: Schema, n: Number, path: string, log: IssueLog, ghost before: seq<Issue>)
    requires before <= log.issues
    modifies log
    ensures Records(before, log.issues,
                    old(log.issues) == before && LowOk(Coded, n, t.minimum) && HighOk(Coded, n, t.maximum))
  {
    if t.minimum.Some? && NumericCompare(n, t.minimum.value) == Less { log.Push(path, "minimum"); }
    if t.maximum.Some? && NumericCompare(n, t.maximum.value) == Greater { log.Push(path, "maximum"); }
  }

  method ValidateEnum(t: Schema, v: Value, path: string, log: IssueLog)
    modifies log
    ensures Records(old(log.issues), log.issues, EnumOk(t.enumValues, v))
  {
    if t.enumValues != [] {
      var member := AnyEqual(t.enumValues, v);
      if !member { log.Push(path, "enum"); }
    }
  }

  method AnyEqual(candidates: seq<Value>, v: Value) returns (found: bool)
    ensures found <==> exists c :: c in candidates && SchemaEqual(c, v)
  {
    for i := 0 to |candidates|
      invariant forall j :: 0 <= j < i ==> !SchemaEqual(candidates[j], v)
    {
      if SchemaEqual(candidates[i], v) {
        assert candidates[i] in candidates;
        return true;
      }
    }
    return false;
  }

  /** One issue for every name that is not in `known`. */
  method ReportOutside(names: set<string>, known: set<string>, path: string, constraint: string, log: IssueLog,
                       ghost before: seq<Issue>)
    requires before <= log.issues
    modifies log
    ensures Records(before, log.issues, old(log.issues) == before && names <= known)
  {
    var keys := Text.Sorted(names);
    for i := 0 to |keys|
      invariant Records(before, log.issues, old(log.issues) == before && forall j :: 0 <= j < i ==> keys[j] in known)
    {
      if keys[i] !in known { log.Push(path + "/" + Pointer.Escape(keys[i]), constraint); }
    }
    if names <= known {
      forall j | 0 <= j < |keys| ensures keys[j] in known { assert keys[j] in keys; }
    }
  }

  method ValidateObject(rx: Engine, t: Schema, v: Value, path: string, log: IssueLog, ghost before: seq<Issue>)
    requires v.Obj? && t.kind.ObjectKind?
    requires before <= log.issues && |before| < MAX_DIAGNOSTICS
    modifies log
    ensures Records(before, log.issues,
                    && old(log.issues) == before
                    && t.required <= v.fields.Keys && v.fields.Keys <= t.properties.Keys
                    && (forall k :: k in t.properties && k in v.fields ==>
                          Conforms(rx, Coded, t.properties[k], v.fields[k])))
    decreases t, 1
  {
    hide Conforms;
    var m := v.fields;
    ReportOutside(t.required, m.Keys, path, "required", log, before);
    ReportOutside(m.Keys, t.properties.Keys, path, "additionalProperties:false", log, before);
    ValidateProperties(rx, t, m, path, log, before);
  }

  ghost predicate PropertyOk(rx: Engine, t: Schema, m: map<string, Value>, k: string) {
    k in t.properties && k in m ==> Conforms(rx, Coded, t.properties[k], m[k])
  }

  method ValidateProperties(rx: Engine, t: Schema, m: map<string, Value>, path: string, log: IssueLog,
                            ghost before: seq<Issue>)
    requires before <= log.issues && |before| < MAX_DIAGNOSTICS
    modifies log
    ensures Records(before, log.issues,
                    && old(log.issues) == before
                    && (forall k :: k in t.properties && k in m ==> Conforms(rx, Coded, t.properties[k], m[k])))
    decreases t, 0
  {
    hide Conforms;
    hide PropertyOk;
    var names := Text.Sorted(t.properties.Keys);
    for i := 0 to |names|
      invariant Records(before, log.issues,
                        old(log.issues) == before && forall j :: 0 <= j < i ==> PropertyOk(rx, t, m, names[j]))
    {
      PropertyOkAt(rx, t, m, names[i]);
      assert names[i] in names;
      if names[i] in m {
        ValidateValue(rx, t.properties[names[i]], m[names[i]], path + "/" + Pointer.Escape(names[i]), log);
      }
    }
    AllPropertiesOk(rx, t, m, names);
  }

  lemma PropertyOkAt(rx: Engine, t: Schema, m: map<string, Value>, k: string)
    ensures PropertyOk(rx, t, m, k) <==> (k in t.properties && k in m ==> Conforms(rx, Coded, t.properties[k], m[k]))
  {}

  lemma AllPropertiesOk(rx: Engine, t: Schema, m: map<string, Value>, names: seq<string>)
    requires forall k :: k in t.properties <==> k in names
    ensures (forall j :: 0 <= j < |names| ==> PropertyOk(rx, t, m, names[j])) <==>
            (forall k :: k in t.properties && k in m ==> Conforms(rx, Coded, t.properties[k], m[k]))
  {
    hide Conforms;
    if forall j :: 0 <= j < |names| ==> PropertyOk(rx, t, m, names[j]) {
      forall k | k in t.properties && k in m ensures Conforms(rx, Coded, t.properties[k], m[k]) {
        var j :| 0 <= j < |names| && names[j] == k;
        assert PropertyOk(rx, t, m, names[j]);
      }
    }
  }

  method ReportDuplicates(a: seq<Value>, path: string, log: IssueLog, ghost before: seq<Issue>)
    requires before <= log.issues
    modifies log
    ensures Records(before, log.issues, old(log.issues) == before && AllUnique(a))
  {
    for i := 0 to |a|
      invariant log.issues == old(log.issues)
      invariant forall j, k :: 0 <= j < k < i ==> !SchemaEqual(a[j], a[k])
    {
      var duplicate := AnyEqual(a[..i], a[i]);
      if duplicate {
        log.Push(path, "uniqueItems");
        ghost var c :| c in a[..i] && SchemaEqual(c, a[i]);
        ghost var j :| 0 <= j < i && a[j] == c;
        return;
      }
      forall j | 0 <= j < i ensures !SchemaEqual(a[j], a[i]) { assert a[..i][j] in a[..i]; }
    }
  }

  method ValidateArray(rx: Engine, t: Schema, v: Value, path: string, log: IssueLog, ghost before: seq<Issue>)
    requires v.Arr? && t.kind.ArrayKind?
    requires before <= log.issues && |before| < MAX_DIAGNOSTICS
    modifies log
    ensures Records(before, log.issues,
                    && old(log.issues) == before
                    && SizeOk(|v.items|, t.minItems, t.maxItems)
                    && (t.uniqueItems ==> AllUnique(v.items))
                    && (t.items.Some? ==>
                          forall i :: 0 <= i < |v.items| ==> Conforms(rx, Coded, t.items.value, v.items[i])))
    decreases t, 1
  {
    hide Conforms;
    hide AllUnique;
    var a := v.items;
    if t.minItems.Some? && |a| < t.minItems.value { log.Push(path, "minItems"); }
    if t.maxItems.Some? && |a| > t.maxItems.value { log.Push(path, "maxItems"); }
    if t.uniqueItems { ReportDuplicates(a, path, log, before); }
    ghost var shaped := old(log.issues) == before && SizeOk(|a|, t.minItems, t.maxItems)
                        && (t.uniqueItems ==> AllUnique(a));
    if t.items.Some? {
      for i := 0 to |a|
        invariant Records(before, log.issues,
                          shaped && forall j :: 0 <= j < i ==> Conforms(rx, Coded, t.items.value, a[j]))
      {
        ValidateValue(rx, t.items.value, a[i], path + "/" + Decimal(i), log);
      }
    }
  }

  /** A value is accepted exactly when it conforms; a rejection always carries an issue. */
  method ValidateInput(rx: Engine, t: Schema, input: Value) returns (r: Result<(), seq<Issue>>)
    ensures r.Ok? <==> Conforms(rx, Coded, t, input)
    ensures r.Err? ==> r.error != []
  {
    var log := new IssueLog();
    ValidateValue(rx, t, input, "", log);
    if log.issues == [] { return Ok(()); }
    return Err(log.issues);
  }
}
