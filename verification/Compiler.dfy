/** The schema compiler as the source runs it: ordered checks, early exits, maps filled in loops. */
module Compiler {
  import opened Json
  import opened Schemas
  import opened Republish
  import Text

  method KeysWithin(keys: set<string>, allowed: set<string>) returns (ok: bool)
    ensures ok <==> keys <= allowed
  {
    var names := Text.Sorted(keys);
    for i := 0 to |names|
      invariant forall j :: 0 <= j < i ==> names[j] in allowed
    {
      if names[i] !in allowed {
        assert names[i] in names;
        return false;
      }
    }
    return true;
  }

  /** The required names, or None when one is not a string, repeats, or breaks the mode's rule. */
  method RequiredNames(values: seq<Value>, props: set<string>, strict: bool) returns (r: Option<set<string>>)
    ensures r.Some? <==> AllDistinctNames(values) && Names(values) <= props && (strict ==> Names(values) == props)
    ensures r.Some? ==> r.value == Names(values)
  {
    var names: seq<string> := [];
    for i := 0 to |values|
      invariant |names| == i
      invariant forall j :: 0 <= j < i ==> values[j] == Str(names[j])
    {
      if !values[i].Str? { return None; }
      names := names + [values[i].s];
    }
    var required := set n | n in names;
    assert required == Names(values) by {
      forall n | n in required ensures n in Names(values) {
        var j :| 0 <= j < |names| && names[j] == n;
        assert values[j] in values;
      }
    }
    CountDistinct(names);
    if |required| != |names| || (strict && (|required| != |props| || !(props <= required))) || !(required <= props) {
      if required == props { assert |required| == |props|; }
      return None;
    }
    return Some(required);
  }

  ghost predicate Distinct(names: seq<string>) {
    forall i, j :: 0 <= i < j < |names| ==> names[i] != names[j]
  }

  lemma DistinctLast(front: seq<string>, last: string)
    ensures Distinct(front + [last]) <==> Distinct(front) && last !in front
  {
    var names := front + [last];
    if Distinct(names) {
      forall i, j | 0 <= i < j < |front| ensures front[i] != front[j] { assert names[i] != names[j]; }
      forall i | 0 <= i < |front| ensures front[i] != last { assert names[i] != names[|front|]; }
    }
  }

  /** A collection into a set loses nothing exactly when the names are distinct. */
  lemma {:induction false} CountDistinct(names: seq<string>)
    ensures |set n | n in names| == |names| <==> Distinct(names)
    ensures |set n | n in names| <= |names|
  {
    hide Distinct;
    if names == [] {
      NothingDistinct();
    } else {
      var front, last := names[..|names| - 1], names[|names| - 1];
      CountDistinct(front);
      DistinctLast(front, last);
      assert names == front + [last];
      assert (set n | n in names) == (set n | n in front) + {last};
    }
  }

  lemma NothingDistinct()
    ensures Distinct([])
  {}

  method EnumAccepted(kind: Kind, values: seq<Value>) returns (ok: bool)
    ensures ok <==> EnumWellFormed(kind, values)
  {
    if values == [] { return false; }
    for i := 0 to |values|
      invariant forall j :: 0 <= j < i ==> TypeOk(kind, values[j])
      invariant forall j, k :: 0 <= j < k < i ==> !SchemaEqual(values[j], values[k])
    {
      if !TypeOk(kind, values[i]) { return false; }
      for j := 0 to i
        invariant forall k :: 0 <= k < j ==> !SchemaEqual(values[k], values[i])
      {
        if SchemaEqual(values[j], values[i]) { return false; }
      }
    }
    return true;
  }

  /** The checks that do not descend into a sub-schema, in the order of the source. */
  method CheckHeader(rx: Engine, w: Keywords, root: bool, strict: bool) returns (ok: bool)
    ensures ok <==> HeaderOk(rx, w, root, strict)
  {
    hide EnumWellFormed;
    hide AllDistinctNames;
    hide Names;
    if KindOf(w).None? { return false; }
    var kind := KindOf(w).value;
    if root && kind != ObjectKind { return false; }
    if !KeywordsApply(w, kind) { return false; }
    if kind == ObjectKind {
      if w.properties.None? || !w.properties.value.Obj? || w.required.None? || !w.required.value.Arr? { return false; }
      var required := RequiredNames(w.required.value.items, w.properties.value.fields.Keys, strict);
      if required.None? { return false; }
    }
    if !CountsOk(w.minItems, w.maxItems) { return false; }
    if !CountWithin(w.minItems, MAX_ARRAY_ITEMS) || !CountWithin(w.maxItems, MAX_ARRAY_ITEMS) { return false; }
    if kind == ArrayKind && w.items.None? { return false; }
    if !CountsOk(w.minLength, w.maxLength) { return false; }
    if !BoundOk(w.minimum, kind) || !BoundOk(w.maximum, kind) { return false; }
    if !Ordered(BoundOf(w.minimum), BoundOf(w.maximum)) { return false; }
    if w.enums.Some? {
      if !w.enums.value.Arr? { return false; }
      var accepted := EnumAccepted(kind, w.enums.value.items);
      if !accepted { return false; }
    }
    return PatternOk(rx, w.pattern);
  }

  method CompileProperties(rx: Engine, v: Value, depth: nat, strict: bool) returns (r: Option<map<string, Schema>>)
    ensures var props := PropertiesOf(v);
            && (r.Some? <==> forall k :: k in props ==> Compile(rx, props[k], false, depth + 1, strict).Some?)
            && (r.Some? ==> CompiledProperties(rx, r.value, props, depth, strict))
    decreases v, 0
  {
    hide Compile;
    hide PropertiesOf;
    var props := PropertiesOf(v);
    var names := Text.Sorted(props.Keys);
    var properties: map<string, Schema> := map[];
    for i := 0 to |names|
      invariant properties.Keys == set j | 0 <= j < i :: names[j]
      invariant forall k :: k in properties ==>
                  k in props && Compile(rx, props[k], false, depth + 1, strict) == Some(properties[k])
    {
      assert names[i] in names;
      var compiled := CompileSchema(rx, props[names[i]], false, depth + 1, strict);
      if compiled.None? { return None; }
      properties := properties[names[i] := compiled.value];
    }
    assert properties.Keys == props.Keys by {
      forall k | k in props ensures k in properties {
        assert k in names;
      }
    }
    return Some(properties);
  }

  method CompileSchema(rx: Engine, v: Value, root: bool, depth: nat, strict: bool) returns (r: Option<Schema>)
    ensures r == Compile(rx, v, root, depth, strict)
    decreases v, 1
  {
    hide Compile;
    hide HeaderOk;
    hide Node;
    hide Republished;
    hide Canonical;
    hide Read;
    hide PropertiesOf;
    hide ItemsOf;
    hide CompiledProperties;
    if depth > MAX_SCHEMA_DEPTH || !v.Obj? {
      CompileRejects(rx, v, root, depth, strict);
      return None;
    }
    var allowed := KeysWithin(v.fields.Keys, ALLOWED);
    if !allowed {
      CompileRejects(rx, v, root, depth, strict);
      return None;
    }
    CompileFromParts(rx, v, root, depth, strict);
    var w := Read(v.fields);
    var header := CheckHeader(rx, w, root, strict);
    if !header { return None; }
    var properties := CompileProperties(rx, v, depth, strict);
    if properties.None? { return None; }
    var items: Option<Schema> := None;
    if ItemsOf(v).Some? {
      items := CompileSchema(rx, ItemsOf(v).value, false, depth + 1, strict);
      if items.None? { return None; }
    }
    HeaderHasKind(rx, w, root, strict);
    SameNode(rx, v, root, depth, strict, properties.value, items);
    return Some(Node(w, properties.value, items, Canonical(Obj(Republished(v.fields)))));
  }

  lemma CompileRejects(rx: Engine, v: Value, root: bool, depth: nat, strict: bool)
    requires depth > MAX_SCHEMA_DEPTH || !v.Obj? || !(v.fields.Keys <= ALLOWED)
    ensures Compile(rx, v, root, depth, strict).None?
  {}

  lemma SameNode(rx: Engine, v: Value, root: bool, depth: nat, strict: bool, properties: map<string, Schema>,
                 items: Option<Schema>)
    requires Compile(rx, v, root, depth, strict).Some?
    requires v.Obj? && KindOf(Read(v.fields)).Some?
    requires CompiledProperties(rx, properties, PropertiesOf(v), depth, strict)
    requires items == CompiledItems(rx, ItemsOf(v), depth, strict)
    ensures Compile(rx, v, root, depth, strict) ==
              Some(Node(Read(v.fields), properties, items, Canonical(Obj(Republished(v.fields)))))
  {
    hide Compile;
    hide HeaderOk;
    hide Node;
    hide Canonical;
    CompileAccepted(rx, v, root, depth, strict);
    CompileFromParts(rx, v, root, depth, strict);
    var s := Compile(rx, v, root, depth, strict).value;
    assert s.properties == properties by {
      forall k | k in properties ensures s.properties[k] == properties[k] {
        assert Compile(rx, PropertiesOf(v)[k], false, depth + 1, strict) == Some(s.properties[k]);
      }
    }
  }
}
