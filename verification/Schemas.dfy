/** The JSON-Schema subset the gate compiles, what a compiled schema accepts, and republication. */
module Schemas {
  import opened Json
  import Text

  const MAX_SCHEMA_DEPTH: nat := 32
  const MAX_ARRAY_ITEMS: nat := 1024
  const MAX_STRING_BYTES: nat := 256 * 1024
  const MAX_PATTERN_BYTES: nat := 16 * 1024

  /** The regular-expression library: which patterns it compiles and what they match. */
  datatype Engine = Engine(compiles: string -> bool, matches: (string, string) -> bool)

  datatype Kind = ObjectKind | ArrayKind | StringKind | IntegerKind | NumberKind | BooleanKind | NullKind

  datatype Schema = Schema(
    kind: Kind,
    properties: map<string, Schema>,
    items: Option<Schema>,
    required: set<string>,
    minItems: Option<nat>,
    maxItems: Option<nat>,
    uniqueItems: bool,
    minLength: Option<nat>,
    maxLength: Option<nat>,
    minimum: Option<Number>,
    maximum: Option<Number>,
    enumValues: seq<Value>,
    pattern: Option<string>,
    publicJson: Value)

  // Reading one schema object.

  const ALLOWED: set<string> := {
    "type", "title", "description", "properties", "required", "additionalProperties", "items",
    "minItems", "maxItems", "uniqueItems", "enum", "minimum", "maximum", "minLength", "maxLength", "pattern"
  }

  function KindNamed(name: string): Option<Kind> {
    if name == "object" then Some(ObjectKind)
    else if name == "array" then Some(ArrayKind)
    else if name == "string" then Some(StringKind)
    else if name == "integer" then Some(IntegerKind)
    else if name == "number" then Some(NumberKind)
    else if name == "boolean" then Some(BooleanKind)
    else if name == "null" then Some(NullKind)
    else None
  }

  /** The keyword values of one schema object. */
  datatype Keywords = Keywords(
    typ: Option<Value>,
    properties: Option<Value>,
    required: Option<Value>,
    additional: Option<Value>,
    items: Option<Value>,
    minItems: Option<Value>,
    maxItems: Option<Value>,
    unique: Option<Value>,
    enums: Option<Value>,
    minimum: Option<Value>,
    maximum: Option<Value>,
    minLength: Option<Value>,
    maxLength: Option<Value>,
    pattern: Option<Value>)

  const NO_KEYWORDS: Keywords :=
    Keywords(None, None, None, None, None, None, None, None, None, None, None, None, None, None)

  function Read(obj: map<string, Value>): Keywords {
    Keywords(Get(obj, "type"), Get(obj, "properties"), Get(obj, "required"), Get(obj, "additionalProperties"),
             Get(obj, "items"), Get(obj, "minItems"), Get(obj, "maxItems"), Get(obj, "uniqueItems"),
             Get(obj, "enum"), Get(obj, "minimum"), Get(obj, "maximum"),
             Get(obj, "minLength"), Get(obj, "maxLength"), Get(obj, "pattern"))
  }

  function KindOf(w: Keywords): Option<Kind> {
    if w.typ.Some? && w.typ.value.Str? then KindNamed(w.typ.value.s) else None
  }

  /** Whether a value has the type a schema kind asks for; an integer must fit i64. */
  predicate TypeOk(kind: Kind, v: Value) {
    match kind
    case ObjectKind => v.Obj?
    case ArrayKind => v.Arr?
    case StringKind => v.Str?
    case IntegerKind => v.Num? && v.n.AsI64().Some?
    case NumberKind => v.Num?
    case BooleanKind => v.Bool?
    case NullKind => v.Null?
  }

  predicate KeywordsApply(w: Keywords, kind: Kind) {
    && (!kind.ObjectKind? ==> w.properties.None? && w.required.None? && w.additional.None?)
    && (!kind.ArrayKind? ==> w.items.None? && w.minItems.None? && w.maxItems.None? && w.unique.None?)
    && (!kind.StringKind? ==> w.minLength.None? && w.maxLength.None? && w.pattern.None?)
    && (!kind.IntegerKind? && !kind.NumberKind? ==> w.minimum.None? && w.maximum.None?)
    && (kind.ObjectKind? ==>
          && (w.properties.Some? ==> w.properties.value.Obj?)
          && (w.required.Some? ==> w.required.value.Arr?)
          && w.additional == Some(Bool(false)))
    && (kind.ArrayKind? ==>
          && (w.items.Some? ==> w.items.value.Obj?)
          && (w.unique.Some? ==> w.unique.value.Bool?))
  }

  function PropertiesOf(v: Value): (m: map<string, Value>)
    ensures forall k :: k in m ==> m[k] < v
  {
    if v.Obj? && "properties" in v.fields && v.fields["properties"].Obj? then v.fields["properties"].fields else map[]
  }

  function ItemsOf(v: Value): (r: Option<Value>)
    ensures r.Some? ==> r.value < v
  {
    if v.Obj? && "items" in v.fields then Some(v.fields["items"]) else None
  }

  function Names(a: seq<Value>): set<string> {
    set v | v in a && v.Str? :: v.s
  }

  function NamesOf(x: Option<Value>): set<string> {
    if x.Some? && x.value.Arr? then Names(x.value.items) else {}
  }

  predicate AllDistinctNames(a: seq<Value>) {
    && (forall i :: 0 <= i < |a| ==> a[i].Str?)
    && (forall i, j :: 0 <= i < j < |a| ==> a[i] != a[j])
  }

  /** `strict` is the mode of administrator schemas, where every property must be required. */
  predicate ObjectHeaderOk(w: Keywords, strict: bool) {
    && w.properties.Some? && w.properties.value.Obj?
    && w.required.Some? && w.required.value.Arr?
    && AllDistinctNames(w.required.value.items)
    && NamesOf(w.required) <= w.properties.value.fields.Keys
    && (strict ==> NamesOf(w.required) == w.properties.value.fields.Keys)
  }

  function CountOf(x: Option<Value>): Option<nat> {
    if x.Some? && x.value.Num? then x.value.n.AsU64() else None
  }

  predicate CountsOk(low: Option<Value>, high: Option<Value>) {
    && (low.Some? ==> CountOf(low).Some?)
    && (high.Some? ==> CountOf(high).Some?)
    && (CountOf(low).Some? && CountOf(high).Some? ==> CountOf(low).value <= CountOf(high).value)
  }

  predicate CountWithin(x: Option<Value>, limit: nat) {
    CountOf(x).Some? ==> CountOf(x).value <= limit
  }

  function BoundOf(x: Option<Value>): Option<Number> {
    if x.Some? && x.value.Num? then Some(x.value.n) else None
  }

  predicate BoundOk(x: Option<Value>, kind: Kind) {
    x.Some? ==> x.value.Num? && (kind.IntegerKind? ==> x.value.n.AsI64().Some?)
  }

  predicate Ordered(low: Option<Number>, high: Option<Number>) {
    low.Some? && high.Some? ==> NumericCompare(low.value, high.value) != Greater
  }

  predicate EnumWellFormed(kind: Kind, values: seq<Value>) {
    && values != []
    && (forall i :: 0 <= i < |values| ==> TypeOk(kind, values[i]))
    && (forall i, j :: 0 <= i < j < |values| ==> !SchemaEqual(values[i], values[j]))
  }

  predicate EnumHeaderOk(x: Option<Value>, kind: Kind) {
    x.Some? ==> x.value.Arr? && EnumWellFormed(kind, x.value.items)
  }

  function EnumOf(x: Option<Value>): seq<Value> {
    if x.Some? && x.value.Arr? then x.value.items else []
  }

  function PatternOf(x: Option<Value>): Option<string> {
    if x.Some? && x.value.Str? then Some(x.value.s) else None
  }

  predicate PatternOk(rx: Engine, x: Option<Value>) {
    x.Some? ==> x.value.Str? && Text.Utf8Length(x.value.s) <= MAX_PATTERN_BYTES && rx.compiles(x.value.s)
  }

  /** Every check on one schema object that does not descend into a sub-schema. */
  predicate HeaderOk(rx: Engine, w: Keywords, root: bool, strict: bool) {
    && KindOf(w).Some?
    && var kind := KindOf(w).value;
    && (root ==> kind.ObjectKind?)
    && KeywordsApply(w, kind)
    && (kind.ObjectKind? ==> ObjectHeaderOk(w, strict))
    && (kind.ArrayKind? ==> w.items.Some?)
    && CountsOk(w.minItems, w.maxItems)
    && CountWithin(w.minItems, MAX_ARRAY_ITEMS) && CountWithin(w.maxItems, MAX_ARRAY_ITEMS)
    && CountsOk(w.minLength, w.maxLength)
    && BoundOk(w.minimum, kind) && BoundOk(w.maximum, kind)
    && Ordered(BoundOf(w.minimum), BoundOf(w.maximum))
    && EnumHeaderOk(w.enums, kind)
    && PatternOk(rx, w.pattern)
  }

  function NameArray(names: set<string>): (a: seq<Value>)
    ensures Names(a) == names && AllDistinctNames(a)
  {
    var sorted := Text.Sorted(names);
    var a := seq(|sorted|, i requires 0 <= i < |sorted| => Str(sorted[i]));
    assert AllDistinctNames(a) by {
      forall i, j | 0 <= i < j < |a| ensures a[i] != a[j] { Text.SortedAscends(names, i, j); }
    }
    assert Names(a) == names by {
      forall k | k in names ensures k in Names(a) {
        var i :| 0 <= i < |sorted| && sorted[i] == k;
        assert a[i] == Str(k) && a[i] in a;
      }
    }
    a
  }

  /** The object the gate publishes for a schema: the source object with `required` sorted. */
  function Republished(obj: map<string, Value>): map<string, Value> {
    if KindOf(Read(obj)) == Some(ObjectKind) then
      obj["additionalProperties" := Bool(false)]["required" := Arr(NameArray(NamesOf(Get(obj, "required"))))]
    else obj
  }

  /** The compiled node for a set of keywords, given its compiled sub-schemas. */
  function Node(w: Keywords, properties: map<string, Schema>, items: Option<Schema>, publicJson: Value): Schema
    requires KindOf(w).Some?
  {
    Schema(
      KindOf(w).value, properties, items, NamesOf(w.required),
      CountOf(w.minItems), CountOf(w.maxItems), w.unique == Some(Bool(true)),
      CountOf(w.minLength), CountOf(w.maxLength), BoundOf(w.minimum), BoundOf(w.maximum),
      EnumOf(w.enums), PatternOf(w.pattern), publicJson)
  }

  /** Specification of schema compilation; None is every diagnostic. */
  function Compile(rx: Engine, v: Value, root: bool, depth: nat, strict: bool): Option<Schema>
    decreases v
  {
    if depth > MAX_SCHEMA_DEPTH || !v.Obj? || !(v.fields.Keys <= ALLOWED) || !HeaderOk(rx, Read(v.fields), root, strict)
    then None
    else
      var props := PropertiesOf(v);
      var items := ItemsOf(v);
      if exists k :: k in props && Compile(rx, props[k], false, depth + 1, strict).None? then None
      else
        var properties := map k | k in props :: Compile(rx, props[k], false, depth + 1, strict).value;
        var publicJson := Canonical(Obj(Republished(v.fields)));
        if items.None? then Some(Node(Read(v.fields), properties, None, publicJson))
        else
          var compiled := Compile(rx, items.value, false, depth + 1, strict);
          if compiled.None? then None else Some(Node(Read(v.fields), properties, compiled, publicJson))
  }

  // What a compiled schema accepts.

  predicate EnumOk(values: seq<Value>, v: Value) {
    values == [] || exists c :: c in values && SchemaEqual(c, v)
  }

  predicate AllUnique(a: seq<Value>) {
    forall i, j :: 0 <= i < j < |a| ==> !SchemaEqual(a[i], a[j])
  }

  predicate SizeOk(n: nat, low: Option<nat>, high: Option<nat>) {
    (low.Some? ==> low.value <= n) && (high.Some? ==> n <= high.value)
  }

  predicate LowOk(rule: Rule, n: Number, low: Option<Number>) {
    low.Some? ==> rule.Compare(n, low.value) != Less
  }

  predicate HighOk(rule: Rule, n: Number, high: Option<Number>) {
    high.Some? ==> rule.Compare(n, high.value) != Greater
  }

  predicate StringOk(rx: Engine, t: Schema, s: string) {
    && Text.Utf8Length(s) <= MAX_STRING_BYTES
    && SizeOk(|s|, t.minLength, t.maxLength)
    && (t.pattern.Some? ==> rx.matches(t.pattern.value, s))
  }

  /** The value conforms to the schema at every node, bounds being compared by `rule`. */
  predicate Conforms(rx: Engine, rule: Rule, t: Schema, v: Value)
    decreases t
  {
    && TypeOk(t.kind, v)
    && EnumOk(t.enumValues, v)
    && match t.kind
       case ObjectKind =>
         && t.required <= v.fields.Keys
         && v.fields.Keys <= t.properties.Keys
         && (forall k :: k in t.properties && k in v.fields ==> Conforms(rx, rule, t.properties[k], v.fields[k]))
       case ArrayKind =>
         && SizeOk(|v.items|, t.minItems, t.maxItems)
         && (t.uniqueItems ==> AllUnique(v.items))
         && (t.items.Some? ==> forall i :: 0 <= i < |v.items| ==> Conforms(rx, rule, t.items.value, v.items[i]))
       case StringKind => StringOk(rx, t, v.s)
       case IntegerKind => LowOk(rule, v.n, t.minimum) && HighOk(rule, v.n, t.maximum)
       case NumberKind => LowOk(rule, v.n, t.minimum) && HighOk(rule, v.n, t.maximum)
       case BooleanKind => true
       case NullKind => true
  }

  predicate BoundClear(n: Number, bound: Option<Number>) {
    bound.Some? ==> !ZeroBranch(n, bound.value)
  }

  /** No comparison of the value with a bound is on the zero branch. */
  predicate OrderOK(t: Schema, v: Value)
    decreases t
  {
    match v
    case Num(n) => BoundClear(n, t.minimum) && BoundClear(n, t.maximum)
    case Obj(m) => forall k :: k in t.properties && k in m ==> OrderOK(t.properties[k], m[k])
    case Arr(a) => t.items.Some? ==> forall i :: 0 <= i < |a| ==> OrderOK(t.items.value, a[i])
    case _ => true
  }

  /** One bound's verdict is right exactly when the comparison is off the zero branch. */
  lemma BoundVerdictExact(n: Number, bound: Number)
    ensures (LowOk(Coded, n, Some(bound)) <==> LowOk(Exact, n, Some(bound))) <==> !ZeroBranch(n, bound)
    ensures (HighOk(Coded, n, Some(bound)) <==> HighOk(Exact, n, Some(bound))) <==> !ZeroBranch(n, bound)
  {
    NumericCompareExact(n, bound);
  }

  /**
   * A value that the code accepts conforms as numbers exactly when no comparison was on the zero
   * branch, at any depth; and a value that conforms as numbers is accepted by the code exactly then.
   */
  lemma {:induction false} AcceptedExact(rx: Engine, t: Schema, v: Value)
    ensures Conforms(rx, Coded, t, v) ==> (Conforms(rx, Exact, t, v) <==> OrderOK(t, v))
    ensures Conforms(rx, Exact, t, v) ==> (Conforms(rx, Coded, t, v) <==> OrderOK(t, v))
    decreases t
  {
    hide EnumOk;
    hide AllUnique;
    hide LowOk;
    hide HighOk;
    hide ZeroBranch;
    match v {
      case Num(n) =>
        BoundsExact(n, t.minimum, t.maximum);
      case Obj(m) =>
        forall k | k in t.properties && k in m
          ensures Conforms(rx, Coded, t.properties[k], m[k]) ==>
                    (Conforms(rx, Exact, t.properties[k], m[k]) <==> OrderOK(t.properties[k], m[k]))
          ensures Conforms(rx, Exact, t.properties[k], m[k]) ==>
                    (Conforms(rx, Coded, t.properties[k], m[k]) <==> OrderOK(t.properties[k], m[k]))
        {
          AcceptedExact(rx, t.properties[k], m[k]);
        }
      case Arr(a) =>
        if t.items.Some? {
          forall i | 0 <= i < |a|
            ensures Conforms(rx, Coded, t.items.value, a[i]) ==>
                      (Conforms(rx, Exact, t.items.value, a[i]) <==> OrderOK(t.items.value, a[i]))
            ensures Conforms(rx, Exact, t.items.value, a[i]) ==>
                      (Conforms(rx, Coded, t.items.value, a[i]) <==> OrderOK(t.items.value, a[i]))
          {
            AcceptedExact(rx, t.items.value, a[i]);
          }
        }
      case _ =>
    }
  }

  /** Both bounds: each verdict of the code is right off the zero branch, and the opposite on it. */
  lemma BoundsExact(n: Number, low: Option<Number>, high: Option<Number>)
    ensures (LowOk(Coded, n, low) <==> LowOk(Exact, n, low)) <==> BoundClear(n, low)
    ensures (HighOk(Coded, n, high) <==> HighOk(Exact, n, high)) <==> BoundClear(n, high)
  {
    if low.Some? { BoundVerdictExact(n, low.value); }
    if high.Some? { BoundVerdictExact(n, high.value); }
  }

  /** Away from the zero branch the code enforces the bounds as numbers. */
  lemma CodedIsExact(rx: Engine, t: Schema, v: Value)
    requires OrderOK(t, v)
    ensures Conforms(rx, Coded, t, v) <==> Conforms(rx, Exact, t, v)
  {
    hide Conforms;
    AcceptedExact(rx, t, v);
  }

  // Canonical form of a compiled schema.

  function CanonicalBound(b: Option<Number>): Option<Number> {
    if b.Some? then Some(CanonicalNumber(b.value)) else None
  }

  function CanonicalSchema(t: Schema): Schema
    decreases t
  {
    t.(properties := map k | k in t.properties :: CanonicalSchema(t.properties[k]),
       items := if t.items.Some? then Some(CanonicalSchema(t.items.value)) else None,
       minimum := CanonicalBound(t.minimum),
       maximum := CanonicalBound(t.maximum),
       enumValues := CanonicalAll(t.enumValues),
       publicJson := Canonical(t.publicJson))
  }

  lemma EnumOkCanonical(values: seq<Value>, v: Value)
    ensures EnumOk(CanonicalAll(values), v) <==> EnumOk(values, v)
  {
    hide Canonical;
    hide SchemaEqual;
    forall i | 0 <= i < |values| ensures SchemaEqual(Canonical(values[i]), v) == SchemaEqual(values[i], v) {
      CanonicalInvisible(values[i], v);
    }
    if EnumOk(values, v) && values != [] {
      var c :| c in values && SchemaEqual(c, v);
      var i :| 0 <= i < |values| && values[i] == c;
      assert CanonicalAll(values)[i] in CanonicalAll(values);
    }
    if EnumOk(CanonicalAll(values), v) && values != [] {
      var c :| c in CanonicalAll(values) && SchemaEqual(c, v);
      var i :| 0 <= i < |values| && CanonicalAll(values)[i] == c;
      assert values[i] in values;
    }
  }

  /** As numbers, canonical bounds and enums accept the same values. */
  lemma {:induction false} ExactIgnoresCanonical(rx: Engine, t: Schema, v: Value)
    ensures Conforms(rx, Exact, CanonicalSchema(t), v) <==> Conforms(rx, Exact, t, v)
    decreases t
  {
    hide Canonical;
    hide CanonicalAll;
    hide EnumOk;
    hide SchemaEqual;
    hide AllUnique;
    EnumOkCanonical(t.enumValues, v);
    var c := CanonicalSchema(t);
    match v {
      case Obj(m) =>
        assert c.properties.Keys == t.properties.Keys;
        forall k | k in t.properties && k in m
          ensures Conforms(rx, Exact, c.properties[k], m[k]) <==> Conforms(rx, Exact, t.properties[k], m[k])
        {
          ExactIgnoresCanonical(rx, t.properties[k], m[k]);
        }
      case Arr(a) =>
        if t.items.Some? {
          forall i | 0 <= i < |a|
            ensures Conforms(rx, Exact, c.items.value, a[i]) <==> Conforms(rx, Exact, t.items.value, a[i])
          {
            ExactIgnoresCanonical(rx, t.items.value, a[i]);
          }
        }
      case _ =>
    }
  }

  // Canonical form under the code's own comparison.

  /** The bound is written 0.0 and the number is a float that is not zero: written 0, the bound flips its verdict. */
  predicate Flips(n: Number, bound: Option<Number>) {
    bound == Some(Float(0.0)) && n.Float? && n.r != 0.0
  }

  /** The code judges a number by a canonical bound as by the bound itself, except exactly where it flips. */
  lemma CanonicalBoundVerdict(n: Number, bound: Option<Number>)
    ensures (LowOk(Coded, n, CanonicalBound(bound)) <==> LowOk(Coded, n, bound)) <==> !Flips(n, bound)
    ensures (HighOk(Coded, n, CanonicalBound(bound)) <==> HighOk(Coded, n, bound)) <==> !Flips(n, bound)
  {
    if bound.Some? {
      NumericCompareExact(n, bound.value);
      NumericCompareExact(n, CanonicalNumber(bound.value));
    }
  }

  /** No bound that the value is compared with is flipped by canonical form. */
  predicate Unflipped(t: Schema, v: Value)
    decreases t
  {
    match v
    case Num(n) => !Flips(n, t.minimum) && !Flips(n, t.maximum)
    case Obj(m) => forall k :: k in t.properties && k in m ==> Unflipped(t.properties[k], m[k])
    case Arr(a) => t.items.Some? ==> forall i :: 0 <= i < |a| ==> Unflipped(t.items.value, a[i])
    case _ => true
  }

  /** Some bound of the schema is written 0.0. */
  predicate FloatZeroBound(t: Schema)
    decreases t
  {
    || t.minimum == Some(Float(0.0)) || t.maximum == Some(Float(0.0))
    || (exists k :: k in t.properties && FloatZeroBound(t.properties[k]))
    || (t.items.Some? && FloatZeroBound(t.items.value))
  }

  lemma {:induction false} NoFloatZeroUnflipped(t: Schema, v: Value)
    requires !FloatZeroBound(t)
    ensures Unflipped(t, v)
    decreases t
  {
    match v {
      case Obj(m) =>
        forall k | k in t.properties && k in m ensures Unflipped(t.properties[k], m[k]) {
          NoFloatZeroUnflipped(t.properties[k], m[k]);
        }
      case Arr(a) =>
        if t.items.Some? {
          forall i | 0 <= i < |a| ensures Unflipped(t.items.value, a[i]) { NoFloatZeroUnflipped(t.items.value, a[i]); }
        }
      case _ =>
    }
  }

  /**
   * Under the code's own comparison, a value accepted by a schema is accepted by its canonical form
   * exactly when canonical form flips no bound for it, at any depth; and the other way round.
   */
  lemma {:induction false} AcceptedUnflipped(rx: Engine, t: Schema, v: Value)
    ensures Conforms(rx, Coded, t, v) ==> (Conforms(rx, Coded, CanonicalSchema(t), v) <==> Unflipped(t, v))
    ensures Conforms(rx, Coded, CanonicalSchema(t), v) ==> (Conforms(rx, Coded, t, v) <==> Unflipped(t, v))
    decreases t
  {
    hide Canonical;
    hide CanonicalAll;
    hide EnumOk;
    hide SchemaEqual;
    hide AllUnique;
    hide LowOk;
    hide HighOk;
    hide Flips;
    hide CanonicalBound;
    EnumOkCanonical(t.enumValues, v);
    var c := CanonicalSchema(t);
    match v {
      case Num(n) =>
        CanonicalBoundVerdict(n, t.minimum);
        CanonicalBoundVerdict(n, t.maximum);
      case Obj(m) =>
        assert c.properties.Keys == t.properties.Keys;
        forall k | k in t.properties && k in m
          ensures Conforms(rx, Coded, t.properties[k], m[k]) ==>
                    (Conforms(rx, Coded, c.properties[k], m[k]) <==> Unflipped(t.properties[k], m[k]))
          ensures Conforms(rx, Coded, c.properties[k], m[k]) ==>
                    (Conforms(rx, Coded, t.properties[k], m[k]) <==> Unflipped(t.properties[k], m[k]))
        {
          AcceptedUnflipped(rx, t.properties[k], m[k]);
        }
      case Arr(a) =>
        if t.items.Some? {
          forall i | 0 <= i < |a|
            ensures Conforms(rx, Coded, t.items.value, a[i]) ==>
                      (Conforms(rx, Coded, c.items.value, a[i]) <==> Unflipped(t.items.value, a[i]))
            ensures Conforms(rx, Coded, c.items.value, a[i]) ==>
                      (Conforms(rx, Coded, t.items.value, a[i]) <==> Unflipped(t.items.value, a[i]))
          {
            AcceptedUnflipped(rx, t.items.value, a[i]);
          }
        }
      case _ =>
    }
  }

  /** Where no bound flips, the code judges a value by the canonical schema as by the schema. */
  lemma CodedIgnoresCanonical(rx: Engine, t: Schema, v: Value)
    requires Unflipped(t, v)
    ensures Conforms(rx, Coded, CanonicalSchema(t), v) <==> Conforms(rx, Coded, t, v)
  {
    hide Conforms;
    AcceptedUnflipped(rx, t, v);
  }
}
