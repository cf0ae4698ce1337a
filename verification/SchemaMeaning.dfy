/** What a schema says, read from its JSON alone, and that compilation keeps it. */
module SchemaMeaning {
  import opened Json
  import opened Schemas
  import opened Republish
  import Text

  // What a schema asks of a value.

  ghost predicate TypeSatisfied(s: map<string, Value>, x: Value) {
    "type" in s
    && (|| (s["type"] == Str("object") && x.Obj?)
        || (s["type"] == Str("array") && x.Arr?)
        || (s["type"] == Str("string") && x.Str?)
        || (s["type"] == Str("integer") && x.Num? && x.n.Int? && x.n.i < 0x8000_0000_0000_0000)
        || (s["type"] == Str("number") && x.Num?)
        || (s["type"] == Str("boolean") && x.Bool?)
        || (s["type"] == Str("null") && x.Null?))
  }

  ghost predicate EnumSatisfied(s: map<string, Value>, x: Value) {
    "enum" in s && s["enum"].Arr? ==> exists c :: c in s["enum"].items && Meaning(c) == Meaning(x)
  }

  ghost predicate AtLeast(s: map<string, Value>, key: string, size: nat) {
    key in s && s[key].Num? && s[key].n.Int? ==> s[key].n.i <= size
  }

  ghost predicate AtMost(s: map<string, Value>, key: string, size: nat) {
    key in s && s[key].Num? && s[key].n.Int? ==> size <= s[key].n.i
  }

  ghost predicate NumberSatisfied(rule: Rule, s: map<string, Value>, n: Number) {
    && ("minimum" in s && s["minimum"].Num? ==> rule.Compare(n, s["minimum"].n) != Less)
    && ("maximum" in s && s["maximum"].Num? ==> rule.Compare(n, s["maximum"].n) != Greater)
  }

  ghost predicate StringSatisfied(rx: Engine, s: map<string, Value>, text: string) {
    && Text.Utf8Length(text) <= MAX_STRING_BYTES
    && AtLeast(s, "minLength", |text|) && AtMost(s, "maxLength", |text|)
    && ("pattern" in s && s["pattern"].Str? ==> rx.matches(s["pattern"].s, text))
  }

  ghost predicate ItemsSatisfied(s: map<string, Value>, items: seq<Value>) {
    && AtLeast(s, "minItems", |items|) && AtMost(s, "maxItems", |items|)
    && ("uniqueItems" in s && s["uniqueItems"] == Bool(true) ==>
          forall i, j :: 0 <= i < j < |items| ==> Meaning(items[i]) != Meaning(items[j]))
  }

  ghost predicate RequiredSatisfied(s: map<string, Value>, members: map<string, Value>) {
    "required" in s && s["required"].Arr? ==>
      forall name :: Str(name) in s["required"].items ==> name in members
  }

  /** The keywords of one schema object that do not hold a schema. */
  ghost predicate KeywordsSatisfied(rx: Engine, rule: Rule, s: map<string, Value>, x: Value) {
    && TypeSatisfied(s, x)
    && EnumSatisfied(s, x)
    && (x.Num? ==> NumberSatisfied(rule, s, x.n))
    && (x.Str? ==> StringSatisfied(rx, s, x.s))
    && (x.Arr? ==> ItemsSatisfied(s, x.items))
    && (x.Obj? ==> RequiredSatisfied(s, x.fields))
  }

  /** The value satisfies the schema that the JSON states: an object has no member it does not name. */
  ghost predicate Satisfies(rx: Engine, rule: Rule, json: Value, x: Value)
    decreases json
  {
    && json.Obj?
    && KeywordsSatisfied(rx, rule, json.fields, x)
    && (x.Obj? ==>
          "properties" in json.fields && json.fields["properties"].Obj?
          && forall k :: k in x.fields ==>
               k in json.fields["properties"].fields
               && Satisfies(rx, rule, json.fields["properties"].fields[k], x.fields[k]))
    && (x.Arr? ==>
          "items" in json.fields
          && forall i :: 0 <= i < |x.items| ==> Satisfies(rx, rule, json.fields["items"], x.items[i]))
  }

  // Which schemas are supported.

  /** The keywords that a type admits besides those every schema may carry. */
  ghost function Specific(name: string): set<string> {
    if name == "object" then {"properties", "required", "additionalProperties"}
    else if name == "array" then {"items", "minItems", "maxItems", "uniqueItems"}
    else if name == "string" then {"minLength", "maxLength", "pattern"}
    else if name == "integer" || name == "number" then {"minimum", "maximum"}
    else {}
  }

  ghost predicate IsCount(v: Value) {
    v.Num? && v.n.Int? && 0 <= v.n.i
  }

  ghost predicate CountsSupported(s: map<string, Value>, low: string, high: string) {
    && (low in s ==> IsCount(s[low]))
    && (high in s ==> IsCount(s[high]))
    && (low in s && high in s ==> s[low].n.i <= s[high].n.i)
  }

  ghost predicate ObjectSupported(s: map<string, Value>, strict: bool) {
    && "properties" in s && s["properties"].Obj?
    && "required" in s && s["required"].Arr?
    && var names := s["required"].items;
    && (forall i :: 0 <= i < |names| ==> names[i].Str? && names[i].s in s["properties"].fields)
    && (forall i, j :: 0 <= i < j < |names| ==> names[i] != names[j])
    && (strict ==> forall k :: k in s["properties"].fields ==> Str(k) in names)
    && "additionalProperties" in s && s["additionalProperties"] == Bool(false)
  }

  ghost predicate ArraySupported(s: map<string, Value>) {
    && "items" in s && s["items"].Obj?
    && CountsSupported(s, "minItems", "maxItems")
    && ("minItems" in s ==> s["minItems"].n.i <= MAX_ARRAY_ITEMS)
    && ("maxItems" in s ==> s["maxItems"].n.i <= MAX_ARRAY_ITEMS)
    && ("uniqueItems" in s ==> s["uniqueItems"].Bool?)
  }

  ghost predicate StringSupported(rx: Engine, s: map<string, Value>) {
    && CountsSupported(s, "minLength", "maxLength")
    && ("pattern" in s ==>
          && s["pattern"].Str? && rx.compiles(s["pattern"].s)
          && Text.Utf8Length(s["pattern"].s) <= MAX_PATTERN_BYTES)
  }

  ghost predicate BoundsSupported(s: map<string, Value>, integer: bool) {
    && (forall key :: key in {"minimum", "maximum"} && key in s ==>
          s[key].Num? && (integer ==> s[key].n.Int? && s[key].n.i < 0x8000_0000_0000_0000))
    && ("minimum" in s && "maximum" in s ==> NumericCompare(s["minimum"].n, s["maximum"].n) != Greater)
  }

  ghost predicate EnumSupported(s: map<string, Value>) {
    "enum" in s ==>
      && s["enum"].Arr? && s["enum"].items != []
      && var values := s["enum"].items;
      && (forall i :: 0 <= i < |values| ==> TypeSatisfied(s, values[i]))
      && (forall i, j :: 0 <= i < j < |values| ==> Meaning(values[i]) != Meaning(values[j]))
  }

  ghost predicate KeywordsSupported(rx: Engine, s: map<string, Value>, strict: bool) {
    && "type" in s && s["type"].Str?
    && var name := s["type"].s;
    && name in {"object", "array", "string", "integer", "number", "boolean", "null"}
    && s.Keys <= {"type", "title", "description", "enum"} + Specific(name)
    && (name == "object" ==> ObjectSupported(s, strict))
    && (name == "array" ==> ArraySupported(s))
    && (name == "string" ==> StringSupported(rx, s))
    && (name == "integer" || name == "number" ==> BoundsSupported(s, name == "integer"))
    && EnumSupported(s)
  }

  /** The schemas the gate enforces: at each node only keywords of its type, well formed. */
  ghost predicate Supported(rx: Engine, json: Value, root: bool, depth: nat, strict: bool)
    decreases json
  {
    && depth <= MAX_SCHEMA_DEPTH
    && json.Obj?
    && KeywordsSupported(rx, json.fields, strict)
    && (root ==> json.fields["type"] == Str("object"))
    && ("properties" in json.fields ==>
          forall k :: k in json.fields["properties"].fields ==>
            Supported(rx, json.fields["properties"].fields[k], false, depth + 1, strict))
    && ("items" in json.fields ==> Supported(rx, json.fields["items"], false, depth + 1, strict))
  }

  // Compiled schemas against their JSON, keyword by keyword.

  lemma TypeMeans(s: map<string, Value>, kind: Kind, x: Value)
    requires KindOf(Read(s)) == Some(kind)
    ensures TypeOk(kind, x) <==> TypeSatisfied(s, x)
  {
    hide Read;
    ReadKeywords(s);
  }

  /** The keyword record, key by key. */
  lemma ReadKeywords(s: map<string, Value>)
    ensures var w := Read(s);
            && w.typ == Get(s, "type") && w.properties == Get(s, "properties") && w.required == Get(s, "required")
            && w.additional == Get(s, "additionalProperties") && w.items == Get(s, "items")
            && w.minItems == Get(s, "minItems") && w.maxItems == Get(s, "maxItems")
            && w.unique == Get(s, "uniqueItems") && w.enums == Get(s, "enum")
            && w.minimum == Get(s, "minimum") && w.maximum == Get(s, "maximum")
            && w.minLength == Get(s, "minLength") && w.maxLength == Get(s, "maxLength")
            && w.pattern == Get(s, "pattern")
  {}

  lemma EnumMeans(s: map<string, Value>, kind: Kind, x: Value)
    requires EnumHeaderOk(Get(s, "enum"), kind)
    ensures EnumOk(EnumOf(Get(s, "enum")), x) <==> EnumSatisfied(s, x)
  {
    hide SchemaEqual;
    hide Meaning;
    if "enum" in s {
      forall c | c in s["enum"].items ensures SchemaEqual(c, x) <==> Meaning(c) == Meaning(x) {
        SchemaEqualIffMeaning(c, x);
      }
    }
  }

  lemma NumberMeans(rule: Rule, s: map<string, Value>, n: Number)
    ensures LowOk(rule, n, BoundOf(Get(s, "minimum"))) && HighOk(rule, n, BoundOf(Get(s, "maximum"))) <==>
            NumberSatisfied(rule, s, n)
  {
    hide NumericCompare;
  }

  lemma SizeMeans(s: map<string, Value>, low: string, high: string, size: nat)
    requires CountsOk(Get(s, low), Get(s, high))
    ensures SizeOk(size, CountOf(Get(s, low)), CountOf(Get(s, high))) <==>
            AtLeast(s, low, size) && AtMost(s, high, size)
  {}

  lemma ItemsMeans(s: map<string, Value>, items: seq<Value>)
    requires CountsOk(Get(s, "minItems"), Get(s, "maxItems"))
    ensures SizeOk(|items|, CountOf(Get(s, "minItems")), CountOf(Get(s, "maxItems")))
            && (Get(s, "uniqueItems") == Some(Bool(true)) ==> AllUnique(items)) <==>
            ItemsSatisfied(s, items)
  {
    hide SchemaEqual;
    hide Meaning;
    hide CountsOk;
    hide CountOf;
    hide SizeOk;
    hide AtLeast;
    hide AtMost;
    SizeMeans(s, "minItems", "maxItems", |items|);
    forall i, j | 0 <= i < j < |items|
      ensures SchemaEqual(items[i], items[j]) <==> Meaning(items[i]) == Meaning(items[j])
    {
      SchemaEqualIffMeaning(items[i], items[j]);
    }
  }

  lemma RequiredMeans(s: map<string, Value>, members: map<string, Value>)
    ensures NamesOf(Get(s, "required")) <= members.Keys <==> RequiredSatisfied(s, members)
  {
    if RequiredSatisfied(s, members) && "required" in s && s["required"].Arr? {
      forall v | v in s["required"].items && v.Str? ensures v.s in members { assert Str(v.s) == v; }
    }
    if NamesOf(Get(s, "required")) <= members.Keys && "required" in s && s["required"].Arr? {
      forall name | Str(name) in s["required"].items ensures name in members {
        assert Str(name).s in NamesOf(Get(s, "required"));
      }
    }
  }

  /** Conformance at one node, leaving its sub-schemas aside. */
  ghost predicate NodeConforms(rx: Engine, rule: Rule, t: Schema, x: Value) {
    && TypeOk(t.kind, x)
    && EnumOk(t.enumValues, x)
    && (x.Num? ==> LowOk(rule, x.n, t.minimum) && HighOk(rule, x.n, t.maximum))
    && (x.Str? ==> StringOk(rx, t, x.s))
    && (x.Arr? ==> SizeOk(|x.items|, t.minItems, t.maxItems) && (t.uniqueItems ==> AllUnique(x.items)))
    && (x.Obj? ==> t.required <= x.fields.Keys)
  }

  lemma ConformsNode(rx: Engine, rule: Rule, t: Schema, x: Value)
    ensures Conforms(rx, rule, t, x) <==>
            && NodeConforms(rx, rule, t, x)
            && (x.Obj? ==> forall k :: k in x.fields ==>
                             k in t.properties && Conforms(rx, rule, t.properties[k], x.fields[k]))
            && (x.Arr? && t.items.Some? ==> forall i :: 0 <= i < |x.items| ==>
                             Conforms(rx, rule, t.items.value, x.items[i]))
  {
    hide EnumOk;
    hide AllUnique;
    hide LowOk;
    hide HighOk;
    hide StringOk;
    hide SizeOk;
  }

  lemma KeywordsMean(rx: Engine, rule: Rule, s: map<string, Value>, root: bool, strict: bool, t: Schema, x: Value)
    requires HeaderOk(rx, Read(s), root, strict)
    requires t == Node(Read(s), t.properties, t.items, t.publicJson)
    ensures NodeConforms(rx, rule, t, x) <==> KeywordsSatisfied(rx, rule, s, x)
  {
    hide KindOf;
    hide Read;
    hide KeywordsApply;
    hide ObjectHeaderOk;
    hide CountsOk;
    hide CountWithin;
    hide BoundOk;
    hide Ordered;
    hide EnumHeaderOk;
    hide TypeOk;
    hide EnumOk;
    hide LowOk;
    hide HighOk;
    hide SizeOk;
    hide AllUnique;
    hide EnumOf;
    hide CountOf;
    hide BoundOf;
    hide NamesOf;
    hide TypeSatisfied;
    hide EnumSatisfied;
    hide NumberSatisfied;
    hide ItemsSatisfied;
    hide RequiredSatisfied;
    hide AtLeast;
    hide AtMost;
    ReadKeywords(s);
    TypeMeans(s, t.kind, x);
    EnumMeans(s, t.kind, x);
    if x.Num? { NumberMeans(rule, s, x.n); }
    if x.Str? { SizeMeans(s, "minLength", "maxLength", |x.s|); }
    if x.Arr? { ItemsMeans(s, x.items); }
    if x.Obj? { RequiredMeans(s, x.fields); }
  }

  /** The children of a node are where its JSON holds them. */
  lemma ChildrenOf(rx: Engine, json: Value, root: bool, strict: bool, x: Value)
    requires json.Obj? && HeaderOk(rx, Read(json.fields), root, strict)
    requires TypeSatisfied(json.fields, x)
    ensures x.Obj? ==> "properties" in json.fields && json.fields["properties"].Obj?
                       && PropertiesOf(json) == json.fields["properties"].fields
    ensures x.Arr? ==> "items" in json.fields && ItemsOf(json) == Some(json.fields["items"])
  {
    hide Read;
    hide CountsOk;
    hide CountWithin;
    hide BoundOk;
    hide Ordered;
    hide EnumHeaderOk;
    hide PatternOk;
    hide NamesOf;
    ReadKeywords(json.fields);
  }

  /**
   * A compiled schema means its JSON: for every JSON that compiles, in either order of the numbers,
   * a value conforms to the compiled schema exactly when it satisfies what the JSON says.
   */
  lemma {:induction false} CompiledMeans(rx: Engine, rule: Rule, json: Value, root: bool, depth: nat, strict: bool,
                                         x: Value)
    requires Compile(rx, json, root, depth, strict).Some?
    ensures Conforms(rx, rule, Compile(rx, json, root, depth, strict).value, x) <==> Satisfies(rx, rule, json, x)
    decreases json
  {
    hide Compile;
    hide HeaderOk;
    hide Read;
    hide Node;
    hide Conforms;
    hide NodeConforms;
    hide KeywordsSatisfied;
    hide PropertiesOf;
    hide ItemsOf;
    var t := Compile(rx, json, root, depth, strict).value;
    CompileAccepted(rx, json, root, depth, strict);
    CompileFromParts(rx, json, root, depth, strict);
    ConformsNode(rx, rule, t, x);
    KeywordsMean(rx, rule, json.fields, root, strict, t, x);
    if KeywordsSatisfied(rx, rule, json.fields, x) {
      SatisfiedType(rx, rule, json.fields, x);
      ChildrenOf(rx, json, root, strict, x);
      if x.Obj? {
        forall k | k in x.fields && k in t.properties
          ensures Conforms(rx, rule, t.properties[k], x.fields[k]) <==>
                    Satisfies(rx, rule, json.fields["properties"].fields[k], x.fields[k])
        {
          CompiledMeans(rx, rule, json.fields["properties"].fields[k], false, depth + 1, strict, x.fields[k]);
        }
      }
      if x.Arr? {
        forall i | 0 <= i < |x.items|
          ensures Conforms(rx, rule, t.items.value, x.items[i]) <==>
                    Satisfies(rx, rule, json.fields["items"], x.items[i])
        {
          CompiledMeans(rx, rule, json.fields["items"], false, depth + 1, strict, x.items[i]);
        }
      }
    }
  }

  lemma SatisfiedType(rx: Engine, rule: Rule, s: map<string, Value>, x: Value)
    requires KeywordsSatisfied(rx, rule, s, x)
    ensures TypeSatisfied(s, x)
  {}

  // Exactly the supported schemas compile.

  lemma ObjectHeaderMeans(s: map<string, Value>, strict: bool)
    ensures ObjectHeaderOk(Read(s), strict) && Get(s, "additionalProperties") == Some(Bool(false)) <==>
            ObjectSupported(s, strict)
  {
    hide Read;
    ReadKeywords(s);
    if "properties" in s && s["properties"].Obj? && "required" in s && s["required"].Arr? {
      NamesMean(s["required"].items, s["properties"].fields.Keys, strict);
    }
  }

  lemma NamesMean(names: seq<Value>, known: set<string>, strict: bool)
    ensures AllDistinctNames(names) && Names(names) <= known && (strict ==> Names(names) == known) <==>
            && (forall i :: 0 <= i < |names| ==> names[i].Str? && names[i].s in known)
            && (forall i, j :: 0 <= i < j < |names| ==> names[i] != names[j])
            && (strict ==> forall k :: k in known ==> Str(k) in names)
  {
    forall v | v in names && v.Str? ensures v.s in Names(names) {}
    forall k | k in Names(names) ensures Str(k) in names {
      var v :| v in names && v.Str? && v.s == k;
      assert v == Str(k);
    }
    forall k | Str(k) in names ensures k in Names(names) { assert Str(k).s == k; }
  }

  lemma CountsMean(s: map<string, Value>, low: string, high: string)
    ensures CountsOk(Get(s, low), Get(s, high)) <==> CountsSupported(s, low, high)
  {}

  lemma BoundsMean(s: map<string, Value>, kind: Kind)
    ensures BoundOk(Get(s, "minimum"), kind) && BoundOk(Get(s, "maximum"), kind)
            && Ordered(BoundOf(Get(s, "minimum")), BoundOf(Get(s, "maximum"))) <==>
            BoundsSupported(s, kind.IntegerKind?)
  {
    hide NumericCompare;
  }

  lemma EnumHeaderMeans(s: map<string, Value>, kind: Kind)
    requires KindOf(Read(s)) == Some(kind)
    ensures EnumHeaderOk(Get(s, "enum"), kind) <==> EnumSupported(s)
  {
    hide Read;
    hide KindOf;
    hide TypeOk;
    hide TypeSatisfied;
    hide SchemaEqual;
    hide Meaning;
    if "enum" in s && s["enum"].Arr? {
      var values := s["enum"].items;
      forall i | 0 <= i < |values| ensures TypeOk(kind, values[i]) <==> TypeSatisfied(s, values[i]) {
        TypeMeans(s, kind, values[i]);
      }
      forall i, j | 0 <= i < j < |values|
        ensures SchemaEqual(values[i], values[j]) <==> Meaning(values[i]) == Meaning(values[j])
      {
        SchemaEqualIffMeaning(values[i], values[j]);
      }
    }
  }

  lemma KindMeans(s: map<string, Value>)
    ensures KindOf(Read(s)).Some? <==>
            "type" in s && s["type"].Str?
            && s["type"].s in {"object", "array", "string", "integer", "number", "boolean", "null"}
    ensures KindOf(Read(s)).Some? ==>
              var kind := KindOf(Read(s)).value;
              && (kind.ObjectKind? <==> s["type"].s == "object") && (kind.ArrayKind? <==> s["type"].s == "array")
              && (kind.StringKind? <==> s["type"].s == "string") && (kind.IntegerKind? <==> s["type"].s == "integer")
              && (kind.NumberKind? <==> s["type"].s == "number")
  {
    hide Read;
    ReadKeywords(s);
  }

  /** Which keywords stand beside which type. */
  lemma ApplyMeans(s: map<string, Value>)
    requires KindOf(Read(s)).Some?
    requires s.Keys <= ALLOWED
    ensures s.Keys <= {"type", "title", "description", "enum"} + Specific(s["type"].s) <==>
            var kind := KindOf(Read(s)).value;
            && (!kind.ObjectKind? ==> "properties" !in s && "required" !in s && "additionalProperties" !in s)
            && (!kind.ArrayKind? ==> "items" !in s && "minItems" !in s && "maxItems" !in s && "uniqueItems" !in s)
            && (!kind.StringKind? ==> "minLength" !in s && "maxLength" !in s && "pattern" !in s)
            && (!kind.IntegerKind? && !kind.NumberKind? ==> "minimum" !in s && "maximum" !in s)
  {
    hide Read;
    hide KindOf;
    KindMeans(s);
  }

  /** The checks on one schema object, by the type it names. */
  lemma HeaderMeans(rx: Engine, s: map<string, Value>, root: bool, strict: bool)
    ensures s.Keys <= ALLOWED && HeaderOk(rx, Read(s), root, strict) <==>
            KeywordsSupported(rx, s, strict) && (root ==> s["type"] == Str("object"))
  {
    hide Read;
    hide KindOf;
    hide ObjectHeaderOk;
    hide ObjectSupported;
    hide CountsOk;
    hide CountsSupported;
    hide BoundOk;
    hide Ordered;
    hide BoundsSupported;
    hide EnumHeaderOk;
    hide EnumSupported;
    hide Specific;
    KindMeans(s);
    ReadKeywords(s);
    if KindOf(Read(s)).Some? {
      var kind := KindOf(Read(s)).value;
      SpecificAllowed(s["type"].s);
      if s.Keys <= ALLOWED { ApplyMeans(s); }
      ObjectHeaderMeans(s, strict);
      CountsMean(s, "minItems", "maxItems");
      CountsMean(s, "minLength", "maxLength");
      NoCounts(s);
      BoundsMean(s, kind);
      EnumHeaderMeans(s, kind);
      if kind.ObjectKind? { ObjectParts(s, strict); }
    }
  }

  lemma SpecificAllowed(name: string)
    ensures {"type", "title", "description", "enum"} + Specific(name) <= ALLOWED
  {}

  lemma NoCounts(s: map<string, Value>)
    ensures "minItems" !in s && "maxItems" !in s ==> CountsSupported(s, "minItems", "maxItems")
    ensures "minLength" !in s && "maxLength" !in s ==> CountsSupported(s, "minLength", "maxLength")
    ensures "minimum" !in s && "maximum" !in s ==> BoundsSupported(s, true) && BoundsSupported(s, false)
    ensures CountsSupported(s, "minItems", "maxItems") ==>
              && ("minItems" in s ==> CountOf(Get(s, "minItems")) == Some(s["minItems"].n.i))
              && ("maxItems" in s ==> CountOf(Get(s, "maxItems")) == Some(s["maxItems"].n.i))
  {}

  lemma ObjectParts(s: map<string, Value>, strict: bool)
    ensures ObjectSupported(s, strict) ==> s["properties"].Obj? && s["required"].Arr?
  {}

  /** Exactly the supported schemas compile. */
  lemma {:induction false} CompilesSupported(rx: Engine, json: Value, root: bool, depth: nat, strict: bool)
    ensures Compile(rx, json, root, depth, strict).Some? <==> Supported(rx, json, root, depth, strict)
    decreases json
  {
    hide Compile;
    hide HeaderOk;
    hide Read;
    hide KeywordsSupported;
    hide PropertiesOf;
    hide ItemsOf;
    if Compile(rx, json, root, depth, strict).Some? { CompileAccepted(rx, json, root, depth, strict); }
    if json.Obj? && json.fields.Keys <= ALLOWED && depth <= MAX_SCHEMA_DEPTH {
      HeaderMeans(rx, json.fields, root, strict);
      CompileFromParts(rx, json, root, depth, strict);
      if KeywordsSupported(rx, json.fields, strict) {
        SupportedChildren(rx, json, strict);
        forall k | k in PropertiesOf(json)
          ensures Compile(rx, PropertiesOf(json)[k], false, depth + 1, strict).Some? <==>
                    Supported(rx, PropertiesOf(json)[k], false, depth + 1, strict)
        {
          CompilesSupported(rx, PropertiesOf(json)[k], false, depth + 1, strict);
        }
        if ItemsOf(json).Some? { CompilesSupported(rx, ItemsOf(json).value, false, depth + 1, strict); }
      }
    } else if json.Obj? {
      HeaderMeans(rx, json.fields, root, strict);
    }
  }

  lemma SupportedChildren(rx: Engine, json: Value, strict: bool)
    requires json.Obj? && KeywordsSupported(rx, json.fields, strict)
    ensures "type" in json.fields
    ensures "properties" in json.fields ==> json.fields["properties"].Obj?
    ensures PropertiesOf(json) == if "properties" in json.fields then json.fields["properties"].fields else map[]
    ensures ItemsOf(json) == Get(json.fields, "items")
  {}
}
