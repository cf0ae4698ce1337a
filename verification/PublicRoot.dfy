/** The closed root schema both projections publish, and the value limits on upstream schemas. */
module PublicRoot {
  import opened Json
  import opened Schemas
  import opened Republish

  predicate ExceedsDepth(v: Value, depth: nat)
    decreases v
  {
    depth > MAX_SCHEMA_DEPTH
    || match v
       case Arr(a) => exists i :: 0 <= i < |a| && ExceedsDepth(a[i], depth + 1)
       case Obj(m) => exists k :: k in m && ExceedsDepth(m[k], depth + 1)
       case _ => false
  }

  predicate ContainsNul(v: Value) {
    match v
    case Str(s) => '\0' in s
    case Arr(a) => exists i :: 0 <= i < |a| && ContainsNul(a[i])
    case Obj(m) => exists k :: k in m && ContainsNul(m[k])
    case _ => false
  }

  /** A way into a value: into a member of an object, or an item of an array. */
  datatype Step = Member(key: string) | Item(index: nat)

  ghost function Inside(v: Value, steps: seq<Step>): Option<Value> {
    if steps == [] then Some(v)
    else
      match (v, steps[0])
      case (Obj(m), Member(k)) => if k in m then Inside(m[k], steps[1..]) else None
      case (Arr(a), Item(i)) => if i < |a| then Inside(a[i], steps[1..]) else None
      case _ => None
  }

  lemma InsideMember(m: map<string, Value>, k: string, steps: seq<Step>)
    requires k in m
    ensures Inside(Obj(m), [Member(k)] + steps) == Inside(m[k], steps)
  {
    assert ([Member(k)] + steps)[1..] == steps;
  }

  lemma InsideItem(a: seq<Value>, i: nat, steps: seq<Step>)
    requires i < |a|
    ensures Inside(Arr(a), [Item(i)] + steps) == Inside(a[i], steps)
  {
    assert ([Item(i)] + steps)[1..] == steps;
  }

  ghost predicate NulAt(v: Value, steps: seq<Step>) {
    Inside(v, steps).Some? && Inside(v, steps).value.Str? && '\0' in Inside(v, steps).value.s
  }

  ghost predicate NulInside(v: Value) {
    exists steps :: NulAt(v, steps)
  }

  /** A value contains a NUL exactly when a string somewhere inside it does. */
  lemma {:induction false} NulMeans(v: Value)
    ensures ContainsNul(v) <==> NulInside(v)
  {
    match v {
      case Arr(a) =>
        forall i | 0 <= i < |a| ensures ContainsNul(a[i]) <==> NulInside(a[i]) { NulMeans(a[i]); }
        if i :| 0 <= i < |a| && ContainsNul(a[i]) {
          var steps :| NulAt(a[i], steps);
          InsideItem(a, i, steps);
          assert NulAt(v, [Item(i)] + steps);
        }
      case Obj(m) =>
        forall k | k in m ensures ContainsNul(m[k]) <==> NulInside(m[k]) { NulMeans(m[k]); }
        if k :| k in m && ContainsNul(m[k]) {
          var steps :| NulAt(m[k], steps);
          InsideMember(m, k, steps);
          assert NulAt(v, [Member(k)] + steps);
        }
      case Str(_) => assert NulAt(v, []) <==> ContainsNul(v);
      case _ =>
    }
    if steps :| NulAt(v, steps) && steps != [] {
      var first: Step := steps[0];
      match v {
        case Arr(a) => assert NulAt(a[first.index], steps[1..]);
        case Obj(m) => assert NulAt(m[first.key], steps[1..]);
        case _ =>
      }
    }
  }

  ghost predicate DeepAt(v: Value, depth: nat, steps: seq<Step>) {
    Inside(v, steps).Some? && depth + |steps| > MAX_SCHEMA_DEPTH
  }

  ghost predicate DeepInside(v: Value, depth: nat) {
    exists steps :: DeepAt(v, depth, steps)
  }

  /** A value at some depth exceeds the limit exactly when something inside it lies deeper than the limit. */
  lemma {:induction false} DepthMeans(v: Value, depth: nat)
    ensures ExceedsDepth(v, depth) <==> DeepInside(v, depth)
    decreases v
  {
    var next := depth + 1;
    if depth > MAX_SCHEMA_DEPTH { assert DeepAt(v, depth, []); }
    match v {
      case Arr(a) =>
        forall i | 0 <= i < |a|
          ensures ExceedsDepth(a[i], next) <==> DeepInside(a[i], next)
        {
          DepthMeans(a[i], next);
        }
        if i :| 0 <= i < |a| && ExceedsDepth(a[i], next) {
          var steps :| DeepAt(a[i], next, steps);
          InsideItem(a, i, steps);
          assert DeepAt(v, depth, [Item(i)] + steps);
        }
      case Obj(m) =>
        forall k | k in m
          ensures ExceedsDepth(m[k], next) <==> DeepInside(m[k], next)
        {
          DepthMeans(m[k], next);
        }
        if k :| k in m && ExceedsDepth(m[k], next) {
          var steps :| DeepAt(m[k], next, steps);
          InsideMember(m, k, steps);
          assert DeepAt(v, depth, [Member(k)] + steps);
        }
      case _ =>
    }
    if steps :| DeepAt(v, depth, steps) && steps != [] {
      var first: Step := steps[0];
      match v {
        case Arr(a) => assert DeepAt(a[first.index], next, steps[1..]);
        case Obj(m) => assert DeepAt(m[first.key], next, steps[1..]);
        case _ =>
      }
    }
  }

  function NameOf(tool: Value): Option<string> {
    if tool.Obj? && "name" in tool.fields && tool.fields["name"].Str? then Some(tool.fields["name"].s) else None
  }

  /** The compiled input schema of a tool that carries a closed one. */
  ghost function InputSchema(rx: Engine, tool: Value): Option<Schema> {
    if tool.Obj? && "inputSchema" in tool.fields then Compile(rx, tool.fields["inputSchema"], true, 1, false) else None
  }

  /** An upstream input schema that is a bounded JSON object. */
  predicate BoundedObject(v: Value) {
    v.Obj? && !ExceedsDepth(v, 1) && !ContainsNul(v)
  }

  function Root(props: map<string, Value>, required: set<string>): map<string, Value> {
    map["type" := Str("object"), "properties" := Obj(props), "required" := Arr(NameArray(required)),
        "additionalProperties" := Bool(false)]
  }

  /** The upstream properties, as the tool's own input schema lists them. */
  ghost function UpstreamMembers(tool: Value): map<string, Value> {
    if tool.Obj? && "inputSchema" in tool.fields && tool.fields["inputSchema"].Obj?
       && "properties" in tool.fields["inputSchema"].fields
       && tool.fields["inputSchema"].fields["properties"].Obj?
    then tool.fields["inputSchema"].fields["properties"].fields
    else map[]
  }

  lemma NamesArray(names: set<string>)
    ensures forall k :: Str(k) in NameArray(names) <==> k in names
  {
    hide NameArray;
    forall k ensures Str(k) in NameArray(names) <==> k in names {
      assert Str(k).s == k;
      if k in names {
        var v :| v in NameArray(names) && v.Str? && v.s == k;
        assert v == Str(k);
      }
    }
  }

  lemma ReadRoot(props: map<string, Value>, required: set<string>)
    ensures Read(Root(props, required)) ==
            NO_KEYWORDS.(typ := Some(Str("object")), properties := Some(Obj(props)),
                         required := Some(Arr(NameArray(required))), additional := Some(Bool(false)))
    ensures PropertiesOf(Obj(Root(props, required))) == props
    ensures ItemsOf(Obj(Root(props, required))).None?
    ensures Root(props, required).Keys <= ALLOWED
  {}

  lemma RootHeader(rx: Engine, props: map<string, Value>, required: set<string>)
    requires required <= props.Keys
    ensures HeaderOk(rx, Read(Root(props, required)), true, false)
  {
    ReadRoot(props, required);
  }

  lemma CanonicalByFields(m: map<string, Value>)
    requires forall k :: k in m ==> Canonical(m[k]) == m[k]
    ensures Canonical(Obj(m)) == Obj(m)
  {
    assert CanonicalFields(m) == m;
  }

  lemma RootFields(props: map<string, Value>, required: set<string>, k: string)
    requires k in Root(props, required)
    ensures Root(props, required)[k] in {Str("object"), Obj(props), Arr(NameArray(required)), Bool(false)}
  {}

  /** A root of canonical properties is already in the form it is published in. */
  lemma RootPublished(props: map<string, Value>, required: set<string>)
    requires forall k :: k in props ==> Canonical(props[k]) == props[k]
    ensures Republished(Root(props, required)) == Root(props, required)
    ensures Canonical(Obj(Root(props, required))) == Obj(Root(props, required))
  {
    hide Republished;
    hide Root;
    hide NameArray;
    hide CanonicalFields;
    NamesCanonical(NameArray(required));
    CanonicalByFields(props);
    RootRepublished(props, required);
    forall k | k in Root(props, required) ensures Canonical(Root(props, required)[k]) == Root(props, required)[k] {
      RootFields(props, required, k);
    }
    CanonicalByFields(Root(props, required));
  }

  lemma RootRepublished(props: map<string, Value>, required: set<string>)
    ensures Republished(Root(props, required)) == Root(props, required)
  {
    hide Read;
    ReadRoot(props, required);
    assert Get(Root(props, required), "required") == Some(Arr(NameArray(required)));
  }

  /** A root of compiling canonical properties always compiles and is published unchanged. */
  lemma RootCompiles(rx: Engine, props: map<string, Value>, required: set<string>)
    requires required <= props.Keys
    requires forall k :: k in props ==> Canonical(props[k]) == props[k] && Compile(rx, props[k], false, 2, false).Some?
    ensures var s := Compile(rx, Obj(Root(props, required)), true, 1, false);
            && s.Some?
            && s.value.kind == ObjectKind && s.value.enumValues == [] && s.value.required == required
            && s.value.publicJson == Obj(Root(props, required))
            && CompiledProperties(rx, s.value.properties, props, 1, false)
  {
    hide Compile;
    hide HeaderOk;
    hide Root;
    hide Canonical;
    hide Republished;
    hide Read;
    ReadRoot(props, required);
    RootHeader(rx, props, required);
    RootPublished(props, required);
    CompileFromParts(rx, Obj(Root(props, required)), true, 1, false);
  }

  /** What an object schema asks of an object, apart from its enum. */
  ghost predicate ObjectConforms(rx: Engine, rule: Rule, t: Schema, m: map<string, Value>) {
    && t.required <= m.Keys
    && m.Keys <= t.properties.Keys
    && forall k :: k in m && k in t.properties ==> Conforms(rx, rule, t.properties[k], m[k])
  }

  /** Every member of the object conforms, as numbers, to the property of its name. */
  ghost predicate AllConform(rx: Engine, t: Schema, m: map<string, Value>) {
    forall k :: k in m && k in t.properties ==> Conforms(rx, Exact, t.properties[k], m[k])
  }

  /** An object put together from arguments and fixed values conforms exactly when both do. */
  lemma ForwardedObject(rx: Engine, t: Schema, m: map<string, Value>, fixed: map<string, Value>)
    requires m.Keys !! fixed.Keys
    requires t.required <= (m + fixed).Keys && (m + fixed).Keys <= t.properties.Keys
    ensures ObjectConforms(rx, Exact, t, m + fixed) <==> AllConform(rx, t, m) && AllConform(rx, t, fixed)
  {
    hide Conforms;
    if ObjectConforms(rx, Exact, t, m + fixed) {
      forall k | k in m ensures Conforms(rx, Exact, t.properties[k], m[k]) {
        assert k in m + fixed && (m + fixed)[k] == m[k];
      }
      forall k | k in fixed ensures Conforms(rx, Exact, t.properties[k], fixed[k]) {
        assert k in m + fixed && (m + fixed)[k] == fixed[k];
      }
    }
  }

  /** No member is compared with the bounds of its property on the zero branch. */
  predicate MembersOrderOK(t: Schema, m: map<string, Value>) {
    forall k :: k in m && k in t.properties ==> OrderOK(t.properties[k], m[k])
  }

  /** Values that the code accepted one by one conform as numbers exactly off the zero branch. */
  lemma AcceptedMembers(rx: Engine, t: Schema, m: map<string, Value>)
    requires forall k :: k in m ==> k in t.properties && Conforms(rx, Coded, t.properties[k], m[k])
    ensures AllConform(rx, t, m) <==> MembersOrderOK(t, m)
  {
    hide Conforms;
    hide OrderOK;
    forall k | k in m ensures Conforms(rx, Exact, t.properties[k], m[k]) <==> OrderOK(t.properties[k], m[k]) {
      AcceptedExact(rx, t.properties[k], m[k]);
    }
  }

  lemma RootConforms(rx: Engine, rule: Rule, t: Schema, m: map<string, Value>)
    requires t.kind.ObjectKind?
    ensures Conforms(rx, rule, t, Obj(m)) <==> ObjectConforms(rx, rule, t, m) && EnumOk(t.enumValues, Obj(m))
  {
    hide EnumOk;
  }

  /** The published JSON of a schema plays no part in what it accepts. */
  lemma ConformsIgnoresJson(rx: Engine, rule: Rule, t: Schema, j: Value, v: Value)
    ensures Conforms(rx, rule, t.(publicJson := j), v) <==> Conforms(rx, rule, t, v)
    ensures OrderOK(t.(publicJson := j), v) <==> OrderOK(t, v)
  {
    hide EnumOk;
    hide AllUnique;
  }

  /** Setting a description changes neither acceptance nor canonical form. */
  lemma CompileDescribed(rx: Engine, v: Value, description: string)
    requires Compile(rx, v, false, 2, false).Some?
    ensures var d := Obj(v.fields["description" := Str(description)]);
            var s := Compile(rx, d, false, 2, false);
            && s.Some?
            && s.value == Compile(rx, v, false, 2, false).value.(publicJson := s.value.publicJson)
    ensures Canonical(v) == v ==>
              Canonical(Obj(v.fields["description" := Str(description)])) ==
                Obj(v.fields["description" := Str(description)])
  {
    hide Compile;
    hide HeaderOk;
    hide Node;
    hide Read;
    hide Republished;
    hide Canonical;
    CompileAccepted(rx, v, false, 2, false);
    var m := v.fields["description" := Str(description)];
    ReadDescribed(v.fields, description);
    CompileFromParts(rx, v, false, 2, false);
    CompileFromParts(rx, Obj(m), false, 2, false);
    SameCompiled(rx, v, Obj(m), false, 2, false);
    HeaderHasKind(rx, Read(v.fields), false, false);
    var s, t := Compile(rx, Obj(m), false, 2, false).value, Compile(rx, v, false, 2, false).value;
    NodeJson(Read(v.fields), t.properties, t.items, t.publicJson, s.publicJson);
    if Canonical(v) == v { CanonicalDescribed(v.fields, description); }
  }

  lemma CanonicalDescribed(m: map<string, Value>, description: string)
    requires Canonical(Obj(m)) == Obj(m)
    ensures Canonical(Obj(m["description" := Str(description)])) == Obj(m["description" := Str(description)])
  {
    assert CanonicalFields(m) == m;
    assert CanonicalFields(m["description" := Str(description)]) == m["description" := Str(description)];
  }

  lemma NodeJson(w: Keywords, properties: map<string, Schema>, items: Option<Schema>, a: Value, b: Value)
    requires KindOf(w).Some?
    ensures Node(w, properties, items, a).(publicJson := b) == Node(w, properties, items, b)
  {}

  lemma ReadDescribed(m: map<string, Value>, description: string)
    ensures Read(m["description" := Str(description)]) == Read(m)
    ensures PropertiesOf(Obj(m["description" := Str(description)])) == PropertiesOf(Obj(m))
    ensures ItemsOf(Obj(m["description" := Str(description)])) == ItemsOf(Obj(m))
    ensures m.Keys <= ALLOWED ==> m["description" := Str(description)].Keys <= ALLOWED
  {}
}
