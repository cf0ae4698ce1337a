/** The schema the gate publishes is the schema it enforces, and exactly when it is not. */
module Republish {
  import opened Json
  import opened Schemas

  /** One bound is the float 0 and the opposite one a float that is not 0. */
  predicate Opposed(low: Option<Number>, high: Option<Number>) {
    low.Some? && high.Some? && low.value.Float? && high.value.Float?
    && ((low.value.r == 0.0) != (high.value.r == 0.0))
  }

  /** Some node of the schema has opposed bounds. */
  predicate AnyOpposed(t: Schema)
    decreases t
  {
    || Opposed(t.minimum, t.maximum)
    || (exists k :: k in t.properties && AnyOpposed(t.properties[k]))
    || (t.items.Some? && AnyOpposed(t.items.value))
  }

  lemma OrderedCanonical(low: Option<Number>, high: Option<Number>)
    requires Ordered(low, high)
    ensures Ordered(CanonicalBound(low), CanonicalBound(high)) <==> !Opposed(low, high)
  {
    if low.Some? && high.Some? {
      NumericCompareExact(low.value, high.value);
      NumericCompareExact(CanonicalNumber(low.value), CanonicalNumber(high.value));
    }
  }

  lemma EnumWellFormedCanonical(kind: Kind, values: seq<Value>)
    requires EnumWellFormed(kind, values)
    ensures EnumWellFormed(kind, CanonicalAll(values))
  {
    var c := CanonicalAll(values);
    forall i, j | 0 <= i < j < |c| ensures !SchemaEqual(c[i], c[j]) {
      CanonicalInvisible(values[i], c[j]);
      CanonicalInvisible(values[i], values[j]);
    }
  }

  lemma NamesCanonical(a: seq<Value>)
    requires forall i :: 0 <= i < |a| ==> a[i].Str?
    ensures CanonicalAll(a) == a
  {}

  function CanonicalOption(x: Option<Value>): Option<Value> {
    if x.Some? then Some(Canonical(x.value)) else None
  }

  function CanonicalKeywords(w: Keywords): Keywords {
    Keywords(CanonicalOption(w.typ), CanonicalOption(w.properties), CanonicalOption(w.required),
             CanonicalOption(w.additional), CanonicalOption(w.items), CanonicalOption(w.minItems),
             CanonicalOption(w.maxItems), CanonicalOption(w.unique), CanonicalOption(w.enums),
             CanonicalOption(w.minimum), CanonicalOption(w.maximum), CanonicalOption(w.minLength),
             CanonicalOption(w.maxLength), CanonicalOption(w.pattern))
  }

  lemma GetCanonical(obj: map<string, Value>, key: string)
    ensures Get(CanonicalFields(obj), key) == CanonicalOption(Get(obj, key))
  {}

  /** The canonical form of an object whose name is replaced. */
  lemma RenamedFields(tool: map<string, Value>, name: string)
    ensures var t := Canonical(Obj(tool["name" := Str(name)]));
            && t.Obj? && Get(t.fields, "name") == Some(Str(name))
            && forall k :: k != "name" ==> Get(t.fields, k) == CanonicalOption(Get(tool, k))
  {
    hide CanonicalFields;
    var m := tool["name" := Str(name)];
    assert Canonical(Obj(m)) == Obj(CanonicalFields(m));
    forall k ensures Get(CanonicalFields(m), k) == CanonicalOption(Get(m, k)) { GetCanonical(m, k); }
  }

  lemma ReadCanonical(obj: map<string, Value>)
    ensures Read(CanonicalFields(obj)) == CanonicalKeywords(Read(obj))
  {
    forall key { GetCanonical(obj, key); }
  }

  lemma RequiredCanonical(w: Keywords, strict: bool)
    requires ObjectHeaderOk(w, strict)
    ensures CanonicalOption(w.required) == w.required
    ensures ObjectHeaderOk(CanonicalKeywords(w), strict)
  {
    NamesCanonical(w.required.value.items);
    var m := w.properties.value.fields;
    assert Canonical(w.properties.value) == Obj(CanonicalFields(m));
  }

  lemma HeaderCanonical(rx: Engine, w: Keywords, root: bool, strict: bool)
    requires HeaderOk(rx, w, root, strict)
    ensures HeaderOk(rx, CanonicalKeywords(w), root, strict) <==> !Opposed(BoundOf(w.minimum), BoundOf(w.maximum))
  {
    var kind := KindOf(w).value;
    OrderedCanonical(BoundOf(w.minimum), BoundOf(w.maximum));
    if w.enums.Some? { EnumWellFormedCanonical(kind, w.enums.value.items); }
    if kind.ObjectKind? { RequiredCanonical(w, strict); }
  }

  lemma NodeCanonical(rx: Engine, w: Keywords, root: bool, strict: bool, t: Schema, publicJson: Value)
    requires HeaderOk(rx, w, root, strict)
    requires t == Node(w, t.properties, t.items, publicJson)
    ensures t.minimum == BoundOf(w.minimum) && t.maximum == BoundOf(w.maximum)
    ensures var c := CanonicalSchema(t);
            KindOf(CanonicalKeywords(w)).Some?
            && c == Node(CanonicalKeywords(w), c.properties, c.items, Canonical(publicJson))
  {
    hide Canonical;
    hide CanonicalAll;
    hide ObjectHeaderOk;
    if KindOf(w).value.ObjectKind? { RequiredCanonical(w, strict); }
    NodeScalarsCanonical(rx, w, root, strict);
  }

  lemma NodeScalarsCanonical(rx: Engine, w: Keywords, root: bool, strict: bool)
    requires HeaderOk(rx, w, root, strict)
    ensures var c := CanonicalKeywords(w);
            && KindOf(c) == KindOf(w)
            && CountOf(c.minItems) == CountOf(w.minItems) && CountOf(c.maxItems) == CountOf(w.maxItems)
            && CountOf(c.minLength) == CountOf(w.minLength) && CountOf(c.maxLength) == CountOf(w.maxLength)
            && BoundOf(c.minimum) == CanonicalBound(BoundOf(w.minimum))
            && BoundOf(c.maximum) == CanonicalBound(BoundOf(w.maximum))
            && (c.unique == Some(Bool(true)) <==> w.unique == Some(Bool(true)))
            && EnumOf(c.enums) == CanonicalAll(EnumOf(w.enums))
            && PatternOf(c.pattern) == PatternOf(w.pattern)
  {}

  lemma CanonicalUpdate(m: map<string, Value>, key: string, v: Value)
    ensures CanonicalFields(m[key := v]) == CanonicalFields(m)[key := Canonical(v)]
  {}

  lemma CanonicalFieldsTwice(m: map<string, Value>)
    ensures CanonicalFields(CanonicalFields(m)) == CanonicalFields(m)
  {
    CanonicalIdempotent(Obj(m));
  }

  lemma RepublishedCanonical(rx: Engine, obj: map<string, Value>, root: bool, strict: bool)
    requires HeaderOk(rx, Read(obj), root, strict)
    ensures Canonical(Obj(Republished(CanonicalFields(obj)))) == Canonical(Obj(Republished(obj)))
  {
    hide Canonical;
    hide CanonicalFields;
    hide HeaderOk;
    hide NameArray;
    hide KindNamed;
    RequiredNamesCanonical(rx, obj, root, strict);
    CanonicalFieldsTwice(obj);
    if KindOf(Read(obj)) == Some(ObjectKind) {
      var names := Arr(NameArray(NamesOf(Get(obj, "required"))));
      forall m: map<string, Value>
        ensures CanonicalFields(m["additionalProperties" := Bool(false)]["required" := names])
          == CanonicalFields(m)["additionalProperties" := Canonical(Bool(false))]["required" := Canonical(names)]
      {
        CanonicalUpdate(m, "additionalProperties", Bool(false));
        CanonicalUpdate(m["additionalProperties" := Bool(false)], "required", names);
      }
    }
    assert CanonicalFields(Republished(CanonicalFields(obj))) == CanonicalFields(Republished(obj));
  }

  lemma RequiredNamesCanonical(rx: Engine, obj: map<string, Value>, root: bool, strict: bool)
    requires HeaderOk(rx, Read(obj), root, strict)
    ensures KindOf(Read(CanonicalFields(obj))) == KindOf(Read(obj))
    ensures KindOf(Read(obj)) == Some(ObjectKind) ==> Get(CanonicalFields(obj), "required") == Get(obj, "required")
  {
    ReadCanonical(obj);
    if KindOf(Read(obj)).value.ObjectKind? { RequiredCanonical(Read(obj), strict); }
  }

  /** The compile result for the canonical form of a sub-schema that compiled to `t`. */
  ghost function CanonicalResult(t: Schema): Option<Schema> {
    if AnyOpposed(t) then None else Some(CanonicalSchema(t))
  }

  /** Compiling the canonical form of a schema: the canonical schema, or failure on opposed bounds. */
  lemma {:induction false} CompileCanonical(rx: Engine, v: Value, root: bool, depth: nat, strict: bool)
    requires Compile(rx, v, root, depth, strict).Some?
    ensures Compile(rx, Canonical(v), root, depth, strict) == CanonicalResult(Compile(rx, v, root, depth, strict).value)
    decreases v
  {
    hide Compile;
    hide HeaderOk;
    hide Node;
    hide CanonicalResult;
    CompileAccepted(rx, v, root, depth, strict);
    CompileFromParts(rx, v, root, depth, strict);
    var t := Compile(rx, v, root, depth, strict).value;
    forall k | k in PropertiesOf(v)
      ensures Compile(rx, Canonical(PropertiesOf(v)[k]), false, depth + 1, strict) == CanonicalResult(t.properties[k])
    {
      CompileCanonical(rx, PropertiesOf(v)[k], false, depth + 1, strict);
    }
    if t.items.Some? {
      CompileCanonical(rx, ItemsOf(v).value, false, depth + 1, strict);
    }
    CompileCanonicalNode(rx, v, root, depth, strict, t);
  }

  /** Compiling the canonical form, unfolded once. */
  lemma CanonicalParts(rx: Engine, v: Value, root: bool, depth: nat, strict: bool, t: Schema)
    requires Compile(rx, v, root, depth, strict) == Some(t)
    ensures var props, items := PropertiesOf(v), ItemsOf(v);
            var r := Compile(rx, Canonical(v), root, depth, strict);
            && (r.Some? <==>
                  && !Opposed(t.minimum, t.maximum)
                  && (forall k :: k in props ==> Compile(rx, Canonical(props[k]), false, depth + 1, strict).Some?)
                  && (items.Some? ==> Compile(rx, Canonical(items.value), false, depth + 1, strict).Some?))
            && (r.Some? ==>
                  && r.value == CanonicalSchema(t).(properties := r.value.properties, items := r.value.items)
                  && r.value.properties.Keys == props.Keys
                  && (forall k :: k in props ==>
                        Compile(rx, Canonical(props[k]), false, depth + 1, strict) == Some(r.value.properties[k]))
                  && r.value.items == CompiledItems(rx, CanonicalOption(items), depth, strict))
  {
    hide Compile;
    hide HeaderOk;
    hide Node;
    hide Republished;
    hide PropertiesOf;
    hide ItemsOf;
    hide Read;
    hide CanonicalKeywords;
    hide Opposed;
    hide Canonical;
    hide CanonicalFields;
    hide KindOf;
    hide BoundOf;
    CompileAccepted(rx, v, root, depth, strict);
    assert Canonical(v) == Obj(CanonicalFields(v.fields));
    ReadCanonical(v.fields);
    HeaderCanonical(rx, Read(v.fields), root, strict);
    CompileFromParts(rx, v, root, depth, strict);
    CompileFromParts(rx, Canonical(v), root, depth, strict);
    NodeCanonical(rx, Read(v.fields), root, strict, t, Canonical(Obj(Republished(v.fields))));
    RepublishedCanonical(rx, v.fields, root, strict);
    CanonicalIdempotent(Obj(Republished(v.fields)));
    SubschemasCanonical(v);
    var props, cprops := PropertiesOf(v), PropertiesOf(Canonical(v));
    var r := Compile(rx, Canonical(v), root, depth, strict);
    if r.Some? {
      NodeParts(CanonicalKeywords(Read(v.fields)), r.value, CanonicalSchema(t), Canonical(Obj(Republished(v.fields))));
    }
    assert forall k :: k in props ==> k in cprops && cprops[k] == Canonical(props[k]);
    assert forall k :: k in cprops ==> k in props && cprops[k] == Canonical(props[k]);
  }

  lemma NodeParts(w: Keywords, a: Schema, b: Schema, publicJson: Value)
    requires KindOf(w).Some?
    requires a == Node(w, a.properties, a.items, publicJson) && b == Node(w, b.properties, b.items, publicJson)
    ensures a == b.(properties := a.properties, items := a.items)
  {}

  lemma CompileCanonicalNode(rx: Engine, v: Value, root: bool, depth: nat, strict: bool, t: Schema)
    requires Compile(rx, v, root, depth, strict) == Some(t)
    requires t.properties.Keys == PropertiesOf(v).Keys
    requires forall k :: k in PropertiesOf(v) ==>
                           Compile(rx, Canonical(PropertiesOf(v)[k]), false, depth + 1, strict) ==
                             CanonicalResult(t.properties[k])
    requires t.items.Some? <==> ItemsOf(v).Some?
    requires t.items.Some? ==>
               Compile(rx, Canonical(ItemsOf(v).value), false, depth + 1, strict) == CanonicalResult(t.items.value)
    ensures Compile(rx, Canonical(v), root, depth, strict) == CanonicalResult(t)
  {
    hide Compile;
    hide PropertiesOf;
    hide ItemsOf;
    hide Opposed;
    hide Canonical;
    hide AnyOpposed;
    hide CanonicalSchema;
    CanonicalParts(rx, v, root, depth, strict, t);
    AnyOpposedAt(t);
    var props := PropertiesOf(v);
    var r := Compile(rx, Canonical(v), root, depth, strict);
    if r.Some? {
      forall k | k in t.properties
        ensures !AnyOpposed(t.properties[k]) && r.value.properties[k] == CanonicalSchema(t.properties[k])
      {
        assert Compile(rx, Canonical(props[k]), false, depth + 1, strict) == Some(r.value.properties[k]);
      }
      CanonicalSchemaAt(t, r.value.properties, r.value.items);
    } else if !Opposed(t.minimum, t.maximum) && !(t.items.Some? && AnyOpposed(t.items.value)) {
      var k :| k in props && Compile(rx, Canonical(props[k]), false, depth + 1, strict).None?;
      assert k in t.properties && AnyOpposed(t.properties[k]);
    }
  }

  lemma AnyOpposedAt(t: Schema)
    ensures AnyOpposed(t) <==>
            || Opposed(t.minimum, t.maximum)
            || (exists k :: k in t.properties && AnyOpposed(t.properties[k]))
            || (t.items.Some? && AnyOpposed(t.items.value))
  {}

  lemma CanonicalSchemaAt(t: Schema, properties: map<string, Schema>, items: Option<Schema>)
    requires properties.Keys == t.properties.Keys
    requires forall k :: k in properties ==> properties[k] == CanonicalSchema(t.properties[k])
    requires items == if t.items.Some? then Some(CanonicalSchema(t.items.value)) else None
    ensures CanonicalSchema(t).(properties := properties, items := items) == CanonicalSchema(t)
  {
    assert CanonicalSchema(t).properties == properties;
  }

  lemma CompileAccepted(rx: Engine, v: Value, root: bool, depth: nat, strict: bool)
    requires Compile(rx, v, root, depth, strict).Some?
    ensures v.Obj? && v.fields.Keys <= ALLOWED && depth <= MAX_SCHEMA_DEPTH
    ensures HeaderOk(rx, Read(v.fields), root, strict)
  {}

  lemma SubschemasCanonical(v: Value)
    ensures var props, cprops := PropertiesOf(v), PropertiesOf(Canonical(v));
            cprops.Keys == props.Keys && forall k :: k in props ==> cprops[k] == Canonical(props[k])
    ensures ItemsOf(Canonical(v)) == CanonicalOption(ItemsOf(v))
  {
    if v.Obj? {
      GetCanonical(v.fields, "properties");
      GetCanonical(v.fields, "items");
    }
  }

  lemma HeaderHasKind(rx: Engine, w: Keywords, root: bool, strict: bool)
    requires HeaderOk(rx, w, root, strict)
    ensures KindOf(w).Some?
  {}

  /** Compilation unfolded once, for proofs that go property by property. */
  lemma CompileFromParts(rx: Engine, v: Value, root: bool, depth: nat, strict: bool)
    requires v.Obj? && v.fields.Keys <= ALLOWED && depth <= MAX_SCHEMA_DEPTH
    ensures var props := PropertiesOf(v);
            var items := ItemsOf(v);
            Compile(rx, v, root, depth, strict).Some? <==>
              && HeaderOk(rx, Read(v.fields), root, strict)
              && (forall k :: k in props ==> Compile(rx, props[k], false, depth + 1, strict).Some?)
              && (items.Some? ==> Compile(rx, items.value, false, depth + 1, strict).Some?)
    ensures var r := Compile(rx, v, root, depth, strict);
            r.Some? ==>
              && r.value == Node(Read(v.fields), r.value.properties, r.value.items,
                                 Canonical(Obj(Republished(v.fields))))
              && r.value.publicJson == Canonical(Obj(Republished(v.fields)))
              && CompiledProperties(rx, r.value.properties, PropertiesOf(v), depth, strict)
              && r.value.items == CompiledItems(rx, ItemsOf(v), depth, strict)
  {}

  ghost predicate CompiledProperties(rx: Engine, ts: map<string, Schema>, props: map<string, Value>, depth: nat,
                                     strict: bool)
  {
    ts.Keys == props.Keys && forall k :: k in props ==> Compile(rx, props[k], false, depth + 1, strict) == Some(ts[k])
  }

  ghost function CompiledItems(rx: Engine, items: Option<Value>, depth: nat, strict: bool): Option<Schema> {
    if items.None? then None else Compile(rx, items.value, false, depth + 1, strict)
  }

  lemma ReadRepublished(obj: map<string, Value>)
    ensures var w := Read(obj);
            Read(Republished(obj)) ==
            if KindOf(w) == Some(ObjectKind)
            then w.(additional := Some(Bool(false)), required := Some(Arr(NameArray(NamesOf(w.required)))))
            else w
  {}

  lemma HeaderRepublished(rx: Engine, w: Keywords, root: bool, strict: bool)
    requires HeaderOk(rx, w, root, strict) && KindOf(w) == Some(ObjectKind)
    ensures var names := Some(Arr(NameArray(NamesOf(w.required))));
            && NamesOf(names) == NamesOf(w.required)
            && HeaderOk(rx, w.(additional := Some(Bool(false)), required := names), root, strict)
  {}

  /** Sorting `required` changes nothing that compilation reads. */
  lemma CompileRepublished(rx: Engine, v: Value, root: bool, depth: nat, strict: bool)
    requires Compile(rx, v, root, depth, strict).Some?
    ensures Compile(rx, Obj(Republished(v.fields)), root, depth, strict) == Compile(rx, v, root, depth, strict)
  {
    hide HeaderOk;
    hide Compile;
    hide Canonical;
    hide Read;
    hide PropertiesOf;
    hide ItemsOf;
    hide NameArray;
    hide Node;
    CompileAccepted(rx, v, root, depth, strict);
    HeaderHasKind(rx, Read(v.fields), root, strict);
    var w := Read(v.fields);
    var p := Republished(v.fields);
    ReadRepublished(v.fields);
    if KindOf(w).value.ObjectKind? {
      HeaderRepublished(rx, w, root, strict);
      RepublishedTwice(v.fields);
      RepublishedShape(v);
      NodeRepublished(w, v.fields);
      CompileFromParts(rx, v, root, depth, strict);
      CompileFromParts(rx, Obj(p), root, depth, strict);
      SameCompiled(rx, v, Obj(p), root, depth, strict);
    }
  }

  lemma RepublishedShape(v: Value)
    requires v.Obj? && v.fields.Keys <= ALLOWED
    ensures Republished(v.fields).Keys <= ALLOWED
    ensures PropertiesOf(Obj(Republished(v.fields))) == PropertiesOf(v)
    ensures ItemsOf(Obj(Republished(v.fields))) == ItemsOf(v)
  {
    hide NameArray;
    hide Read;
  }

  /** A node is compiled from the names that are required, not from their order. */
  lemma NodeRepublished(w: Keywords, obj: map<string, Value>)
    requires w == Read(obj) && KindOf(w).Some?
    ensures var u := Read(Republished(obj));
            KindOf(u) == KindOf(w)
            && forall properties, items, publicJson ::
                 Node(u, properties, items, publicJson) == Node(w, properties, items, publicJson)
  {
    hide Read;
    ReadRepublished(obj);
  }

  lemma RepublishedTwice(obj: map<string, Value>)
    ensures Republished(Republished(obj)) == Republished(obj)
  {
    ReadRepublished(obj);
  }

  lemma SameCompiled(rx: Engine, a: Value, b: Value, root: bool, depth: nat, strict: bool)
    requires Compile(rx, a, root, depth, strict).Some? && Compile(rx, b, root, depth, strict).Some?
    requires PropertiesOf(a) == PropertiesOf(b) && ItemsOf(a) == ItemsOf(b)
    ensures var s, t := Compile(rx, a, root, depth, strict).value, Compile(rx, b, root, depth, strict).value;
            s.properties == t.properties && s.items == t.items
  {
    hide HeaderOk;
    hide Compile;
    CompileAccepted(rx, a, root, depth, strict);
    CompileAccepted(rx, b, root, depth, strict);
    CompileFromParts(rx, a, root, depth, strict);
    CompileFromParts(rx, b, root, depth, strict);
    var s, t := Compile(rx, a, root, depth, strict).value, Compile(rx, b, root, depth, strict).value;
    forall k | k in PropertiesOf(a) ensures s.properties[k] == t.properties[k] {
      assert Compile(rx, PropertiesOf(a)[k], false, depth + 1, strict) == Some(s.properties[k]);
    }
  }

  /**
   * Recompiling what is published succeeds exactly when no node opposes a float 0 bound to a
   * float bound that is not 0. It then publishes the same JSON and accepts the same values as
   * numbers. A value that the code accepts by one of the two schemas it accepts by the other exactly
   * when canonical form flips no bound for it; with no bound written 0.0 it judges all values alike.
   */
  lemma PublishedIsEnforced(rx: Engine, v: Value, root: bool, depth: nat, strict: bool)
    requires Compile(rx, v, root, depth, strict).Some?
    ensures var t := Compile(rx, v, root, depth, strict).value;
            var r := Compile(rx, t.publicJson, root, depth, strict);
            && (r.Some? <==> !AnyOpposed(t))
            && (r.Some? ==>
                  && r.value.publicJson == t.publicJson
                  && (forall x :: Conforms(rx, Exact, r.value, x) <==> Conforms(rx, Exact, t, x))
                  && (forall x :: Conforms(rx, Coded, t, x) ==> (Conforms(rx, Coded, r.value, x) <==> Unflipped(t, x)))
                  && (forall x :: Conforms(rx, Coded, r.value, x) ==> (Conforms(rx, Coded, t, x) <==> Unflipped(t, x)))
                  && (!FloatZeroBound(t) ==>
                        forall x :: Conforms(rx, Coded, r.value, x) <==> Conforms(rx, Coded, t, x)))
  {
    hide Compile;
    hide HeaderOk;
    hide Conforms;
    hide AnyOpposed;
    hide Unflipped;
    hide FloatZeroBound;
    var t := Compile(rx, v, root, depth, strict).value;
    CompileAccepted(rx, v, root, depth, strict);
    CompileRepublished(rx, v, root, depth, strict);
    var p := Obj(Republished(v.fields));
    CompileCanonical(rx, p, root, depth, strict);
    CanonicalIdempotent(p);
    CompileFromParts(rx, v, root, depth, strict);
    var r := CanonicalSchema(t);
    forall x ensures Conforms(rx, Exact, r, x) <==> Conforms(rx, Exact, t, x) {
      ExactIgnoresCanonical(rx, t, x);
    }
    forall x
      ensures Conforms(rx, Coded, t, x) ==> (Conforms(rx, Coded, r, x) <==> Unflipped(t, x))
      ensures Conforms(rx, Coded, r, x) ==> (Conforms(rx, Coded, t, x) <==> Unflipped(t, x))
    {
      AcceptedUnflipped(rx, t, x);
    }
    if !FloatZeroBound(t) {
      forall x ensures Unflipped(t, x) { NoFloatZeroUnflipped(t, x); }
    }
  }

  const OPPOSED: map<string, Value> :=
    map["type" := Str("number"), "minimum" := Num(Float(0.0)), "maximum" := Num(Float(0.5))]

  lemma OpposedReads()
    ensures Read(OPPOSED) ==
            NO_KEYWORDS.(typ := Some(Str("number")), minimum := Some(Num(Float(0.0))), maximum := Some(Num(Float(0.5))))
    ensures OPPOSED.Keys <= ALLOWED && PropertiesOf(Obj(OPPOSED)) == map[] && ItemsOf(Obj(OPPOSED)).None?
  {}

  lemma OpposedCompiles(rx: Engine)
    ensures var s := Compile(rx, Obj(OPPOSED), false, 2, false);
            s.Some? && s.value.minimum == Some(Float(0.0)) && s.value.maximum == Some(Float(0.5)) && AnyOpposed(s.value)
  {
    hide Canonical;
    hide Conforms;
    hide Read;
    OpposedReads();
    CompileFromParts(rx, Obj(OPPOSED), false, 2, false);
  }

  /** A schema that compiles and whose published form does not: bounds 0.0 and 0.5. */
  lemma OpposedWitness(rx: Engine)
    ensures var s := Compile(rx, Obj(OPPOSED), false, 2, false);
            s.Some? && Compile(rx, s.value.publicJson, false, 2, false).None?
  {
    hide Compile;
    hide Canonical;
    hide Conforms;
    hide AnyOpposed;
    OpposedCompiles(rx);
    PublishedIsEnforced(rx, Obj(OPPOSED), false, 2, false);
  }

  /** A number schema with a minimum and nothing else. */
  function Minimum(n: Number): (v: Value)
    ensures v.Obj?
  {
    Obj(map["type" := Str("number"), "minimum" := Num(n)])
  }

  lemma MinimumReads(n: Number)
    ensures Read(Minimum(n).fields) == NO_KEYWORDS.(typ := Some(Str("number")), minimum := Some(Num(n)))
    ensures Minimum(n).fields.Keys <= ALLOWED && PropertiesOf(Minimum(n)) == map[] && ItemsOf(Minimum(n)).None?
  {}

  lemma MinimumPublished(n: Number)
    ensures Canonical(Minimum(n)) == Minimum(CanonicalNumber(n)) && Republished(Minimum(n).fields) == Minimum(n).fields
  {
    hide Republished;
    assert CanonicalFields(Minimum(n).fields) == Minimum(CanonicalNumber(n)).fields;
    MinimumRepublished(n);
  }

  lemma MinimumRepublished(n: Number)
    ensures Republished(Minimum(n).fields) == Minimum(n).fields
  {
    hide Read;
    hide Minimum;
    MinimumReads(n);
  }

  lemma MinimumCompiles(rx: Engine, n: Number)
    ensures var s := Compile(rx, Minimum(n), false, 2, false);
            && s.Some? && s.value.kind == NumberKind && s.value.enumValues == []
            && s.value.minimum == Some(n) && s.value.maximum == None
            && s.value.publicJson == Minimum(CanonicalNumber(n))
  {
    hide Canonical;
    hide Read;
    hide Minimum;
    hide Republished;
    hide PropertiesOf;
    hide ItemsOf;
    MinimumReads(n);
    MinimumPublished(n);
    CompileFromParts(rx, Minimum(n), false, 2, false);
  }

  /** Such a schema accepts exactly the numbers that the minimum does. */
  lemma MinimumAccepts(rx: Engine, rule: Rule, n: Number, x: Number)
    ensures var s := Compile(rx, Minimum(n), false, 2, false);
            s.Some? && (Conforms(rx, rule, s.value, Num(x)) <==> LowOk(rule, x, Some(n)))
  {
    hide Compile;
    MinimumCompiles(rx, n);
    assert EnumOk([], Num(x));
  }

  /** An enforced schema that is not what it says: a minimum of 0 turns 0.5 away. */
  lemma ZeroMinimumWitness(rx: Engine)
    ensures var s := Compile(rx, Minimum(Int(0)), false, 2, false);
            && s.Some?
            && !Conforms(rx, Coded, s.value, Num(Float(0.5)))
            && Conforms(rx, Exact, s.value, Num(Float(0.5)))
  {
    hide Compile;
    hide Conforms;
    MinimumAccepts(rx, Coded, Int(0), Float(0.5));
    MinimumAccepts(rx, Exact, Int(0), Float(0.5));
  }

  /** A published schema that is not the enforced one: a minimum of 0.0 accepts 0.5 until it is published as 0. */
  lemma RewrittenMinimumWitness(rx: Engine)
    ensures var s := Compile(rx, Minimum(Float(0.0)), false, 2, false);
            && s.Some? && s.value.publicJson == Minimum(Int(0))
            && Conforms(rx, Coded, s.value, Num(Float(0.5)))
            && var r := Compile(rx, s.value.publicJson, false, 2, false);
            && r.Some? && !Conforms(rx, Coded, r.value, Num(Float(0.5)))
  {
    hide Compile;
    hide Conforms;
    MinimumCompiles(rx, Float(0.0));
    MinimumAccepts(rx, Coded, Float(0.0), Float(0.5));
    MinimumAccepts(rx, Coded, Int(0), Float(0.5));
  }
}
