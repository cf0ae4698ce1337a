/** Administrator bindings: pointers into a validated input, command lines and MCP arguments. */
module Bindings {
  import opened Json
  import opened Schemas
  import Pointer
  import PublicRoot
  import Republish
  import Validator

  // Pointers into schemas and values.

  function SchemaAt(t: Schema, tokens: seq<string>): Option<Schema> {
    if tokens == [] then Some(t)
    else if tokens[0] in t.properties then SchemaAt(t.properties[tokens[0]], tokens[1..])
    else None
  }

  function ValueAt(v: Value, tokens: seq<string>): Option<Value> {
    if tokens == [] then Some(v)
    else if v.Obj? && tokens[0] in v.fields then ValueAt(v.fields[tokens[0]], tokens[1..])
    else None
  }

  function SchemaAtPointer(t: Schema, pointer: string): Option<Schema> {
    var tokens := Pointer.Decode(pointer);
    if tokens.Some? then SchemaAt(t, tokens.value) else None
  }

  function ValueAtPointer(v: Value, pointer: string): Option<Value> {
    var tokens := Pointer.Decode(pointer);
    if tokens.Some? then ValueAt(v, tokens.value) else None
  }

  /** Administrator schemas: every property is required, and only objects have properties. */
  ghost predicate Strict(t: Schema) {
    && t.properties.Keys <= t.required
    && (!t.kind.ObjectKind? ==> t.properties == map[])
    && (forall k :: k in t.properties ==> Strict(t.properties[k]))
  }

  lemma {:induction false} CompiledStrict(rx: Engine, v: Value, root: bool, depth: nat)
    requires Compile(rx, v, root, depth, true).Some?
    ensures Strict(Compile(rx, v, root, depth, true).value)
    decreases v
  {
    hide CountsOk;
    hide CountWithin;
    hide EnumHeaderOk;
    hide PatternOk;
    hide BoundOk;
    hide Ordered;
    hide Compile;
    hide Read;
    hide HeaderOk;
    var t := Compile(rx, v, root, depth, true).value;
    Republish.CompileAccepted(rx, v, root, depth, true);
    Republish.CompileFromParts(rx, v, root, depth, true);
    StrictHeader(rx, v, root);
    forall k | k in t.properties ensures Strict(t.properties[k]) {
      CompiledStrict(rx, PropertiesOf(v)[k], false, depth + 1);
    }
  }

  lemma StrictHeader(rx: Engine, v: Value, root: bool)
    requires v.Obj? && HeaderOk(rx, Read(v.fields), root, true)
    ensures PropertiesOf(v).Keys <= NamesOf(Read(v.fields).required)
    ensures KindOf(Read(v.fields)).Some?
    ensures KindOf(Read(v.fields)) != Some(ObjectKind) ==> PropertiesOf(v) == map[]
  {
    hide CountsOk;
    hide CountWithin;
    hide EnumHeaderOk;
    hide PatternOk;
    hide BoundOk;
    hide Ordered;
    hide NamesOf;
    assert Read(v.fields).properties == Get(v.fields, "properties");
  }

  /**
   * In a conforming input exactly the pointers that the schema knows lead anywhere, each to a value
   * that conforms to the schema it names.
   */
  lemma {:induction false} PointerResolves(rx: Engine, rule: Rule, t: Schema, v: Value, tokens: seq<string>)
    requires Strict(t) && Conforms(rx, rule, t, v)
    ensures SchemaAt(t, tokens).Some? <==> ValueAt(v, tokens).Some?
    ensures SchemaAt(t, tokens).Some? ==>
              && Strict(SchemaAt(t, tokens).value)
              && Conforms(rx, rule, SchemaAt(t, tokens).value, ValueAt(v, tokens).value)
  {
    hide EnumOk;
    if tokens != [] && tokens[0] in t.properties {
      var k := tokens[0];
      assert t.kind.ObjectKind? && k in v.fields;
      PointerResolves(rx, rule, t.properties[k], v.fields[k], tokens[1..]);
    }
  }

  // Command lines.

  datatype CliBinding = Literal(text: string) | Input(pointer: string) | Each(pointer: string)

  predicate Scalar(kind: Kind) {
    kind.StringKind? || kind.IntegerKind? || kind.NumberKind?
  }

  predicate ScalarArray(t: Schema) {
    t.kind.ArrayKind? && t.items.Some? && Scalar(t.items.value.kind)
  }

  /** The binding one node of the configuration stands for. */
  function BindingOf(node: Value, schema: Schema): Option<CliBinding> {
    if !node.Obj? || |node.fields| != 1 then None
    else if "literal" in node.fields then
      var x := node.fields["literal"];
      if x.Str? && '\0' !in x.s then Some(Literal(x.s)) else None
    else if "input" in node.fields then
      var x := node.fields["input"];
      if x.Str? && SchemaAtPointer(schema, x.s).Some? && Scalar(SchemaAtPointer(schema, x.s).value.kind)
      then Some(Input(x.s)) else None
    else if "each" in node.fields then
      var x := node.fields["each"];
      if x.Str? && SchemaAtPointer(schema, x.s).Some? && ScalarArray(SchemaAtPointer(schema, x.s).value)
      then Some(Each(x.s)) else None
    else None
  }

  /** A compiled binding: literals hold no NUL, inputs point at scalars, `each` at arrays of scalars. */
  predicate Usable(b: CliBinding, schema: Schema) {
    match b
    case Literal(text) => '\0' !in text
    case Input(p) => SchemaAtPointer(schema, p).Some? && Scalar(SchemaAtPointer(schema, p).value.kind)
    case Each(p) => SchemaAtPointer(schema, p).Some? && ScalarArray(SchemaAtPointer(schema, p).value)
  }

  lemma BindingUsable(node: Value, schema: Schema)
    requires BindingOf(node, schema).Some?
    ensures Usable(BindingOf(node, schema).value, schema)
  {}

  method CompileBindings(nodes: seq<Value>, schema: Schema) returns (r: Option<seq<CliBinding>>)
    ensures r.Some? <==> forall i :: 0 <= i < |nodes| ==> BindingOf(nodes[i], schema).Some?
    ensures r.Some? ==> |r.value| == |nodes|
    ensures r.Some? ==> forall i :: 0 <= i < |nodes| ==> BindingOf(nodes[i], schema) == Some(r.value[i])
    ensures r.Some? ==> forall b :: b in r.value ==> Usable(b, schema)
  {
    hide BindingOf;
    hide Usable;
    var result: seq<CliBinding> := [];
    for i := 0 to |nodes|
      invariant |result| == i
      invariant forall j :: 0 <= j < i ==> BindingOf(nodes[j], schema) == Some(result[j])
      invariant forall b :: b in result ==> Usable(b, schema)
    {
      var binding := CompileNode(nodes[i], schema);
      if binding.None? { return None; }
      BindingUsable(nodes[i], schema);
      result := result + [binding.value];
    }
    return Some(result);
  }

  /** One node, by the one key it must have. */
  method CompileNode(node: Value, schema: Schema) returns (r: Option<CliBinding>)
    ensures r == BindingOf(node, schema)
  {
    hide SchemaAtPointer;
    if !node.Obj? || |node.fields| != 1 { return None; }
    var kind :| kind in node.fields;
    OnlyKey(node.fields, kind);
    if !node.fields[kind].Str? { return None; }
    var pointer := node.fields[kind].s;
    if kind == "literal" {
      if '\0' in pointer { return None; }
      return Some(Literal(pointer));
    } else if kind == "input" {
      var s := SchemaAtPointer(schema, pointer);
      if s.None? || s.value.kind in {ObjectKind, ArrayKind, BooleanKind, NullKind} { return None; }
      return Some(Input(pointer));
    } else if kind == "each" {
      var s := SchemaAtPointer(schema, pointer);
      if s.None? || s.value.kind != ArrayKind || s.value.items.None?
         || s.value.items.value.kind in {ObjectKind, ArrayKind, BooleanKind, NullKind} { return None; }
      return Some(Each(pointer));
    }
    return None;
  }

  lemma OnlyKey(m: map<string, Value>, kind: string)
    requires |m| == 1 && kind in m
    ensures forall k :: k in m ==> k == kind
  {
    assert |m.Keys - {kind}| == 0;
    assert forall k :: k in m ==> k in m.Keys - {kind} || k == kind;
  }

  /** One element of the argument vector. A number that is not zero is written in its decimal form. */
  datatype Arg = Words(text: string) | Decimal(n: Number)

  datatype ArgError = NotScalar | Nul

  /** A JSON number is written in decimal digits, which hold no NUL. */
  function ValueToArg(v: Value): Result<Arg, ArgError> {
    match v
    case Str(s) => if '\0' in s then Err(Nul) else Ok(Words(s))
    case Num(n) => if n.Real() == 0.0 then Ok(Words("0")) else Ok(Decimal(n))
    case _ => Err(NotScalar)
  }

  /** The values a binding contributes, in order: one for a literal or an input, one per item for `each`. */
  function Segment(b: CliBinding, input: Value): seq<Value> {
    match b
    case Literal(text) => [Str(text)]
    case Input(p) => (match ValueAtPointer(input, p) case Some(v) => [v] case None => [])
    case Each(p) => (match ValueAtPointer(input, p) case Some(Arr(items)) => items case _ => [])
  }

  function Segments(bindings: seq<CliBinding>, input: Value): seq<Value> {
    if bindings == [] then []
    else Segments(bindings[..|bindings| - 1], input) + Segment(bindings[|bindings| - 1], input)
  }

  predicate ScalarValue(v: Value) {
    v.Str? || v.Num?
  }

  predicate HasNul(v: Value) {
    v.Str? && '\0' in v.s
  }

  /** The pointer lookups cannot fail on a validated input, and lead to strings and numbers. */
  lemma SegmentDefined(rx: Engine, schema: Schema, b: CliBinding, input: Value)
    requires Strict(schema) && Usable(b, schema) && Conforms(rx, Coded, schema, input)
    ensures b.Input? ==>
              ValueAtPointer(input, b.pointer).Some? && Segment(b, input) == [ValueAtPointer(input, b.pointer).value]
    ensures b.Each? ==> ValueAtPointer(input, b.pointer).Some? && ValueAtPointer(input, b.pointer).value.Arr?
                        && Segment(b, input) == ValueAtPointer(input, b.pointer).value.items
    ensures forall v :: v in Segment(b, input) ==> ScalarValue(v)
    ensures b.Literal? ==> forall v :: v in Segment(b, input) ==> !HasNul(v)
  {
    if !b.Literal? {
      hide EnumOk;
      hide AllUnique;
      hide StringOk;
      hide LowOk;
      hide HighOk;
      var tokens := Pointer.Decode(b.pointer).value;
      PointerResolves(rx, Coded, schema, input, tokens);
      LeafIsScalar(rx, SchemaAt(schema, tokens).value, ValueAt(input, tokens).value);
    }
  }

  lemma LeafIsScalar(rx: Engine, t: Schema, v: Value)
    requires Conforms(rx, Coded, t, v)
    ensures Scalar(t.kind) ==> ScalarValue(v)
    ensures ScalarArray(t) ==> v.Arr? && forall x :: x in v.items ==> ScalarValue(x)
  {}

  datatype CliError = Rejected | ArgumentNul

  /** The argument that stands for a value: a string itself, a number itself, any zero the digit 0. */
  ghost predicate Spells(arg: Arg, v: Value) {
    match v
    case Str(s) => arg == Words(s)
    case Num(n) => if n == Int(0) || n == Float(0.0) then arg == Words("0") else arg == Decimal(n)
    case _ => false
  }

  lemma ArgSpells(v: Value)
    ensures ValueToArg(v).Err? <==> !ScalarValue(v) || HasNul(v)
    ensures ValueToArg(v).Ok? ==> Spells(ValueToArg(v).value, v)
  {}

  /** Every bound value as an argument, in order. */
  ghost predicate ArgvIs(argv: seq<Arg>, values: seq<Value>) {
    |argv| == |values| && forall i :: 0 <= i < |values| ==> Spells(argv[i], values[i])
  }

  lemma ArgvAppend(argv: seq<Arg>, values: seq<Value>, more: seq<Arg>, moreValues: seq<Value>)
    requires ArgvIs(argv, values) && ArgvIs(more, moreValues)
    ensures ArgvIs(argv + more, values + moreValues)
  {}

  lemma SegmentsWithin(bindings: seq<CliBinding>, i: nat, input: Value)
    requires i < |bindings|
    ensures Segments(bindings[..i + 1], input) == Segments(bindings[..i], input) + Segment(bindings[i], input)
    ensures forall v :: v in Segments(bindings[..i + 1], input) ==> v in Segments(bindings, input)
    decreases |bindings|
  {
    assert bindings[..i + 1][..i] == bindings[..i];
    if i + 1 < |bindings| {
      var front := bindings[..|bindings| - 1];
      assert front[..i + 1] == bindings[..i + 1];
      SegmentsWithin(front, i, input);
    } else {
      assert bindings[..i + 1] == bindings;
    }
  }

  /** One binding's arguments; the lookups are total because the input was validated. */
  method PushSegment(rx: Engine, schema: Schema, b: CliBinding, input: Value) returns (r: Result<seq<Arg>, CliError>)
    requires Strict(schema) && Usable(b, schema) && Conforms(rx, Coded, schema, input)
    ensures r.Ok? <==> forall v :: v in Segment(b, input) ==> !HasNul(v)
    ensures r.Ok? ==> ArgvIs(r.value, Segment(b, input))
    ensures r.Err? ==> r.error == ArgumentNul
  {
    hide Usable;
    hide Strict;
    hide Conforms;
    hide ValueAtPointer;
    hide ValueToArg;
    SegmentDefined(rx, schema, b, input);
    match b {
      case Literal(text) =>
        assert Segment(b, input) == [Str(text)] && !HasNul(Segment(b, input)[0]);
        return Ok([Words(text)]);
      case Input(p) =>
        var v := ValueAtPointer(input, p).value;
        assert Segment(b, input) == [v] && v in Segment(b, input);
        var arg := ValueToArg(v);
        ArgSpells(v);
        if arg.Err? { return Err(ArgumentNul); }
        return Ok([arg.value]);
      case Each(p) =>
        var items := ValueAtPointer(input, p).value.items;
        var args: seq<Arg> := [];
        for i := 0 to |items|
          invariant |args| == i
          invariant forall j :: 0 <= j < i ==> Spells(args[j], items[j])
          invariant forall j :: 0 <= j < i ==> !HasNul(items[j])
        {
          var arg := ValueToArg(items[i]);
          ArgSpells(items[i]);
          if arg.Err? {
            assert items[i] in Segment(b, input);
            return Err(ArgumentNul);
          }
          args := args + [arg.value];
        }
        return Ok(args);
    }
  }

  /**
   * A command line for an input. It is rejected exactly when the input is invalid, or when a bound
   * string holds a NUL; otherwise it is the bindings' values in order, flattened.
   */
  method ResolveCli(rx: Engine, schema: Schema, bindings: seq<CliBinding>, input: Value)
    returns (r: Result<seq<Arg>, CliError>)
    requires Strict(schema) && forall b :: b in bindings ==> Usable(b, schema)
    ensures r == Err(Rejected) <==> !Conforms(rx, Coded, schema, input)
    ensures r == Err(ArgumentNul) <==>
              Conforms(rx, Coded, schema, input) && exists v :: v in Segments(bindings, input) && HasNul(v)
    ensures r.Ok? ==> ArgvIs(r.value, Segments(bindings, input))
  {
    hide Usable;
    hide Strict;
    hide Conforms;
    hide Segment;
    hide ArgvIs;
    hide HasNul;
    var valid := Validator.ValidateInput(rx, schema, input);
    if valid.Err? { return Err(Rejected); }
    var argv: seq<Arg> := [];
    NoArguments(input);
    for i := 0 to |bindings|
      invariant ArgvIs(argv, Segments(bindings[..i], input))
      invariant forall v :: v in Segments(bindings[..i], input) ==> !HasNul(v)
    {
      SegmentsWithin(bindings, i, input);
      var more := PushSegment(rx, schema, bindings[i], input);
      if more.Err? {
        var v :| v in Segment(bindings[i], input) && HasNul(v);
        assert v in Segments(bindings[..i + 1], input);
        return Err(ArgumentNul);
      }
      ArgvAppend(argv, Segments(bindings[..i], input), more.value, Segment(bindings[i], input));
      argv := argv + more.value;
    }
    assert bindings[..|bindings|] == bindings;
    return Ok(argv);
  }

  lemma NoArguments(input: Value)
    ensures Segments([], input) == [] && ArgvIs([], [])
  {}

  // MCP arguments.

  datatype RawBinding =
    | RawLiteral(literal: Value)
    | RawInput(input: string)
    | RawEnvironment(name: string)
    | RawObject(fields: map<string, RawBinding>)
    | RawArray(items: seq<RawBinding>)

  datatype McpBinding =
    | Constant(value: Value)
    | FromInput(pointer: string)
    | FromEnvironment(name: string)
    | ObjectOf(fields: map<string, McpBinding>)
    | ArrayOf(items: seq<McpBinding>)

  type Environment = map<string, string>

  predicate Letter(c: char) {
    'a' <= c <= 'z' || 'A' <= c <= 'Z' || c == '_'
  }

  predicate EnvironmentName(name: string) {
    && name != "" && Letter(name[0])
    && forall i :: 0 < i < |name| ==> Letter(name[i]) || '0' <= name[i] <= '9'
  }

  function CompileMcp(raw: RawBinding, schema: Schema, environment: Environment, depth: nat): Option<McpBinding>
    decreases raw
  {
    if depth > MAX_SCHEMA_DEPTH then None
    else
      match raw
      case RawLiteral(v) =>
        if PublicRoot.ExceedsDepth(v, 1) || PublicRoot.ContainsNul(v) then None else Some(Constant(Canonical(v)))
      case RawInput(p) => if SchemaAtPointer(schema, p).Some? then Some(FromInput(p)) else None
      case RawEnvironment(name) =>
        if EnvironmentName(name) && name in environment then Some(FromEnvironment(name)) else None
      case RawObject(fields) =>
        if exists k :: k in fields && CompileMcp(fields[k], schema, environment, depth + 1).None? then None
        else Some(ObjectOf(map k | k in fields :: CompileMcp(fields[k], schema, environment, depth + 1).value))
      case RawArray(items) =>
        if exists i :: 0 <= i < |items| && CompileMcp(items[i], schema, environment, depth + 1).None? then None
        else
          Some(ArrayOf(seq(|items|, i requires 0 <= i < |items| =>
            CompileMcp(items[i], schema, environment, depth + 1).value)))
  }

  function ResolveMcp(b: McpBinding, input: Value, environment: Environment): Option<Value>
    decreases b
  {
    match b
    case Constant(v) => Some(v)
    case FromInput(p) => ValueAtPointer(input, p)
    case FromEnvironment(name) => if name in environment then Some(Str(environment[name])) else None
    case ObjectOf(fields) =>
      if exists k :: k in fields && ResolveMcp(fields[k], input, environment).None? then None
      else Some(Obj(map k | k in fields :: ResolveMcp(fields[k], input, environment).value))
    case ArrayOf(items) =>
      if exists i :: 0 <= i < |items| && ResolveMcp(items[i], input, environment).None? then None
      else Some(Arr(seq(|items|, i requires 0 <= i < |items| => ResolveMcp(items[i], input, environment).value)))
  }

  /** The pointers a binding reads from the input. */
  ghost function Pointers(b: McpBinding): set<string>
    decreases b
  {
    match b
    case Constant(_) => {}
    case FromInput(p) => {p}
    case FromEnvironment(_) => {}
    case ObjectOf(fields) => set k, p | k in fields && p in Pointers(fields[k]) :: p
    case ArrayOf(items) => set i, p | 0 <= i < |items| && p in Pointers(items[i]) :: p
  }

  /** A binding that resolves on this input, all of whose input leaves conform where they were read. */
  ghost predicate Sound(rx: Engine, b: McpBinding, schema: Schema, input: Value, environment: Environment) {
    && ResolveMcp(b, input, environment).Some?
    && forall p :: p in Pointers(b) ==> LeafOk(rx, schema, input, p)
  }

  ghost predicate LeafOk(rx: Engine, schema: Schema, input: Value, p: string) {
    && SchemaAtPointer(schema, p).Some? && ValueAtPointer(input, p).Some?
    && Conforms(rx, Coded, SchemaAtPointer(schema, p).value, ValueAtPointer(input, p).value)
  }

  lemma SoundObject(rx: Engine, fields: map<string, McpBinding>, schema: Schema, input: Value, environment: Environment)
    requires forall k :: k in fields ==> Sound(rx, fields[k], schema, input, environment)
    ensures Sound(rx, ObjectOf(fields), schema, input, environment)
  {
    hide LeafOk;
  }

  lemma SoundArray(rx: Engine, items: seq<McpBinding>, schema: Schema, input: Value, environment: Environment)
    requires forall i :: 0 <= i < |items| ==> Sound(rx, items[i], schema, input, environment)
    ensures Sound(rx, ArrayOf(items), schema, input, environment)
  {
    hide LeafOk;
  }

  lemma CompiledObject(fields: map<string, RawBinding>, schema: Schema, environment: Environment, depth: nat)
    requires CompileMcp(RawObject(fields), schema, environment, depth).Some?
    ensures var b := CompileMcp(RawObject(fields), schema, environment, depth).value;
            && b.ObjectOf? && b.fields.Keys == fields.Keys
            && forall k :: k in fields ==> CompileMcp(fields[k], schema, environment, depth + 1) == Some(b.fields[k])
  {}

  lemma CompiledArray(items: seq<RawBinding>, schema: Schema, environment: Environment, depth: nat)
    requires CompileMcp(RawArray(items), schema, environment, depth).Some?
    ensures var b := CompileMcp(RawArray(items), schema, environment, depth).value;
            && b.ArrayOf? && |b.items| == |items|
            && forall i :: 0 <= i < |items| ==> CompileMcp(items[i], schema, environment, depth + 1) == Some(b.items[i])
  {}

  /** A leaf that can be adopted against a schema and an environment. */
  ghost predicate LeafAdopted(raw: RawBinding, schema: Schema, environment: Environment) {
    match raw
    case RawLiteral(v) => !PublicRoot.DeepInside(v, 1) && !PublicRoot.NulInside(v)
    case RawInput(p) => SchemaAtPointer(schema, p).Some?
    case RawEnvironment(name) =>
      && name in environment && name != "" && (forall c :: c in name ==> Letter(c) || '0' <= c <= '9')
      && !('0' <= name[0] <= '9')
    case _ => true
  }

  /** A binding and everything inside it, with the depth at which each stands. */
  ghost function Parts(raw: RawBinding, depth: nat): set<(RawBinding, nat)>
    decreases raw
  {
    var next := depth + 1;
    {(raw, depth)}
    + match raw
      case RawObject(fields) => (set k, p | k in fields && p in Parts(fields[k], next) :: p)
      case RawArray(items) => (set i, p | 0 <= i < |items| && p in Parts(items[i], next) :: p)
      case _ => {}
  }

  ghost predicate PartsAdopted(raw: RawBinding, schema: Schema, environment: Environment, depth: nat) {
    forall p :: p in Parts(raw, depth) ==> p.1 <= MAX_SCHEMA_DEPTH && LeafAdopted(p.0, schema, environment)
  }

  lemma ObjectParts(fields: map<string, RawBinding>, schema: Schema, environment: Environment, depth: nat)
    ensures PartsAdopted(RawObject(fields), schema, environment, depth) <==>
            depth <= MAX_SCHEMA_DEPTH && forall k :: k in fields ==> Below(fields[k], schema, environment, depth)
  {
    var raw := RawObject(fields);
    assert (raw, depth) in Parts(raw, depth);
    if PartsAdopted(raw, schema, environment, depth) {
      forall k, p | k in fields && p in Parts(fields[k], depth + 1) ensures p in Parts(raw, depth) {}
    }
  }

  lemma ArrayParts(items: seq<RawBinding>, schema: Schema, environment: Environment, depth: nat)
    ensures PartsAdopted(RawArray(items), schema, environment, depth) <==>
            depth <= MAX_SCHEMA_DEPTH
            && forall i :: 0 <= i < |items| ==> Below(items[i], schema, environment, depth)
  {
    var raw := RawArray(items);
    assert (raw, depth) in Parts(raw, depth);
    if PartsAdopted(raw, schema, environment, depth) {
      forall i, p | 0 <= i < |items| && p in Parts(items[i], depth + 1) ensures p in Parts(raw, depth) {}
    }
  }

  ghost predicate Below(raw: RawBinding, schema: Schema, environment: Environment, depth: nat) {
    PartsAdopted(raw, schema, environment, depth + 1)
  }

  lemma LeafCompiles(raw: RawBinding, schema: Schema, environment: Environment, depth: nat)
    requires !raw.RawObject? && !raw.RawArray?
    ensures CompileMcp(raw, schema, environment, depth).Some? <==>
            depth <= MAX_SCHEMA_DEPTH && LeafAdopted(raw, schema, environment)
  {
    hide SchemaAtPointer;
    match raw {
      case RawLiteral(v) =>
        PublicRoot.DepthMeans(v, 1);
        PublicRoot.NulMeans(v);
      case _ =>
    }
  }

  /** A binding is adopted exactly when nothing in it stands too deep and all its leaves can be adopted. */
  lemma {:induction false} AdoptedExactly(raw: RawBinding, schema: Schema, environment: Environment, depth: nat)
    ensures CompileMcp(raw, schema, environment, depth).Some? <==> PartsAdopted(raw, schema, environment, depth)
    decreases raw
  {
    hide LeafAdopted;
    hide PartsAdopted;
    match raw {
      case RawObject(fields) =>
        ObjectParts(fields, schema, environment, depth);
        forall k | k in fields
          ensures CompileMcp(fields[k], schema, environment, depth + 1).Some? <==>
                    Below(fields[k], schema, environment, depth)
        {
          AdoptedExactly(fields[k], schema, environment, depth + 1);
        }
      case RawArray(items) =>
        ArrayParts(items, schema, environment, depth);
        forall i | 0 <= i < |items|
          ensures CompileMcp(items[i], schema, environment, depth + 1).Some? <==>
                    Below(items[i], schema, environment, depth)
        {
          AdoptedExactly(items[i], schema, environment, depth + 1);
        }
      case _ =>
        LeafCompiles(raw, schema, environment, depth);
        LeafParts(raw, schema, environment, depth);
    }
  }

  lemma LeafParts(raw: RawBinding, schema: Schema, environment: Environment, depth: nat)
    requires !raw.RawObject? && !raw.RawArray?
    ensures PartsAdopted(raw, schema, environment, depth) <==>
            depth <= MAX_SCHEMA_DEPTH && LeafAdopted(raw, schema, environment)
  {
    hide LeafAdopted;
    assert Parts(raw, depth) == {(raw, depth)};
    assert (raw, depth) in Parts(raw, depth);
  }

  /** Resolution of an adopted binding never fails, and every leaf read from the input conforms there. */
  lemma {:induction false} McpResolves(rx: Engine, raw: RawBinding, schema: Schema, input: Value,
                                       environment: Environment,
                                       depth: nat)
    requires Strict(schema) && Conforms(rx, Coded, schema, input)
    requires CompileMcp(raw, schema, environment, depth).Some?
    ensures Sound(rx, CompileMcp(raw, schema, environment, depth).value, schema, input, environment)
    decreases raw
  {
    hide Strict;
    hide Conforms;
    var b := CompileMcp(raw, schema, environment, depth).value;
    match raw {
      case RawLiteral(_) =>
      case RawInput(p) => PointerResolves(rx, Coded, schema, input, Pointer.Decode(p).value);
      case RawEnvironment(_) =>
      case RawObject(fields) =>
        CompiledObject(fields, schema, environment, depth);
        forall k | k in fields ensures Sound(rx, b.fields[k], schema, input, environment) {
          McpResolves(rx, fields[k], schema, input, environment, depth + 1);
        }
        SoundObject(rx, b.fields, schema, input, environment);
      case RawArray(items) =>
        CompiledArray(items, schema, environment, depth);
        forall i | 0 <= i < |items| ensures Sound(rx, b.items[i], schema, input, environment) {
          McpResolves(rx, items[i], schema, input, environment, depth + 1);
        }
        SoundArray(rx, b.items, schema, input, environment);
    }
  }

  /** The arguments of a whole call: the input is validated, then every binding is resolved. */
  function ResolveCall(rx: Engine, schema: Schema, arguments: map<string, McpBinding>, input: Value,
                       environment: Environment)
    : Option<Value>
  {
    if Conforms(rx, Coded, schema, input) then ResolveMcp(ObjectOf(arguments), input, environment) else None
  }

  /** The value that lies in `v` under a pointer: its text names the tokens, and each token a member. */
  ghost predicate LeadsTo(v: Value, pointer: string, x: Value) {
    exists tokens :: pointer == Pointer.Encode(tokens) && Path(v, tokens, x)
  }

  ghost predicate Path(v: Value, tokens: seq<string>, x: Value) {
    if tokens == [] then v == x
    else v.Obj? && tokens[0] in v.fields && Path(v.fields[tokens[0]], tokens[1..], x)
  }

  /**
   * What a binding is configured to send: at an input leaf the value its pointer leads to, at an
   * environment leaf the variable's text, at a literal the literal in canonical form; objects with
   * exactly the names, and arrays with exactly the items, that are configured.
   */
  ghost predicate Built(raw: RawBinding, input: Value, environment: Environment, out: Value)
    decreases raw
  {
    match raw
    case RawLiteral(v) => out == Canonical(v)
    case RawInput(p) => LeadsTo(input, p, out)
    case RawEnvironment(name) => name in environment && out == Str(environment[name])
    case RawObject(fields) =>
      && out.Obj? && out.fields.Keys == fields.Keys
      && forall k :: k in fields ==> Built(fields[k], input, environment, out.fields[k])
    case RawArray(items) =>
      && out.Arr? && |out.items| == |items|
      && forall i :: 0 <= i < |items| ==> Built(items[i], input, environment, out.items[i])
  }

  lemma {:induction false} PathOf(v: Value, tokens: seq<string>, x: Value)
    ensures ValueAt(v, tokens) == Some(x) <==> Path(v, tokens, x)
  {
    if tokens != [] && v.Obj? && tokens[0] in v.fields { PathOf(v.fields[tokens[0]], tokens[1..], x); }
  }

  /** A pointer leads to one value at most, the one that is looked up. */
  lemma PointerLeads(v: Value, pointer: string, x: Value)
    ensures ValueAtPointer(v, pointer) == Some(x) <==> LeadsTo(v, pointer, x)
  {
    hide Pointer.Decode;
    hide Pointer.Encode;
    hide ValueAt;
    hide Path;
    if ValueAtPointer(v, pointer) == Some(x) {
      Pointer.EncodeDecode(pointer);
      PathOf(v, Pointer.Decode(pointer).value, x);
    }
    if LeadsTo(v, pointer, x) {
      var tokens :| pointer == Pointer.Encode(tokens) && Path(v, tokens, x);
      Pointer.DecodeEncode(tokens);
      PathOf(v, tokens, x);
    }
  }

  lemma ArrayResolves(items: seq<McpBinding>, input: Value, environment: Environment)
    ensures var r := ResolveMcp(ArrayOf(items), input, environment);
            && (r.Some? <==> forall i :: 0 <= i < |items| ==> ResolveMcp(items[i], input, environment).Some?)
            && (r.Some? ==> r.value.Arr? && |r.value.items| == |items|
                            && forall i :: 0 <= i < |items| ==>
                                 ResolveMcp(items[i], input, environment) == Some(r.value.items[i]))
  {}

  lemma ObjectResolves(fields: map<string, McpBinding>, input: Value, environment: Environment)
    ensures var r := ResolveMcp(ObjectOf(fields), input, environment);
            && (r.Some? <==> forall k :: k in fields ==> ResolveMcp(fields[k], input, environment).Some?)
            && (r.Some? ==> r.value.Obj? && r.value.fields.Keys == fields.Keys
                            && forall k :: k in fields ==>
                                 ResolveMcp(fields[k], input, environment) == Some(r.value.fields[k]))
  {}

  lemma ObjectIs(fields: map<string, McpBinding>, input: Value, environment: Environment, out: Value)
    ensures ResolveMcp(ObjectOf(fields), input, environment) == Some(out) <==>
            && out.Obj? && out.fields.Keys == fields.Keys
            && forall k :: k in fields ==> ResolveMcp(fields[k], input, environment) == Some(out.fields[k])
  {
    ObjectResolves(fields, input, environment);
    hide ResolveMcp;
    var r := ResolveMcp(ObjectOf(fields), input, environment);
    if r.Some? && out.Obj? && out.fields.Keys == fields.Keys
       && forall k :: k in fields ==> ResolveMcp(fields[k], input, environment) == Some(out.fields[k])
    {
      assert r.value.fields == out.fields;
    }
  }

  lemma ArrayIs(items: seq<McpBinding>, input: Value, environment: Environment, out: Value)
    ensures ResolveMcp(ArrayOf(items), input, environment) == Some(out) <==>
            && out.Arr? && |out.items| == |items|
            && forall i :: 0 <= i < |items| ==> ResolveMcp(items[i], input, environment) == Some(out.items[i])
  {
    ArrayResolves(items, input, environment);
    hide ResolveMcp;
    var r := ResolveMcp(ArrayOf(items), input, environment);
    if r.Some? && out.Arr? && |out.items| == |items|
       && forall i :: 0 <= i < |items| ==> ResolveMcp(items[i], input, environment) == Some(out.items[i])
    {
      assert r.value.items == out.items;
    }
  }

  /** An adopted binding sends what it is configured to send, and nothing else is so built. */
  lemma {:induction false} McpBuilds(raw: RawBinding, schema: Schema, input: Value, environment: Environment,
                                     depth: nat, out: Value)
    requires CompileMcp(raw, schema, environment, depth).Some?
    ensures ResolveMcp(CompileMcp(raw, schema, environment, depth).value, input, environment) == Some(out) <==>
            Built(raw, input, environment, out)
    decreases raw
  {
    hide ValueAtPointer;
    hide LeadsTo;
    hide Canonical;
    var b := CompileMcp(raw, schema, environment, depth).value;
    match raw {
      case RawLiteral(_) =>
      case RawInput(p) => PointerLeads(input, p, out);
      case RawEnvironment(_) =>
      case RawObject(fields) =>
        CompiledObject(fields, schema, environment, depth);
        ObjectIs(b.fields, input, environment, out);
        forall k | k in fields && out.Obj? && k in out.fields
          ensures ResolveMcp(b.fields[k], input, environment) == Some(out.fields[k]) <==>
                    Built(fields[k], input, environment, out.fields[k])
        {
          McpBuilds(fields[k], schema, input, environment, depth + 1, out.fields[k]);
        }
      case RawArray(items) =>
        CompiledArray(items, schema, environment, depth);
        ArrayIs(b.items, input, environment, out);
        forall i | 0 <= i < |items| && out.Arr? && |out.items| == |items|
          ensures ResolveMcp(b.items[i], input, environment) == Some(out.items[i]) <==>
                    Built(items[i], input, environment, out.items[i])
        {
          McpBuilds(items[i], schema, input, environment, depth + 1, out.items[i]);
        }
    }
  }

  /** With adopted bindings a call is refused only for an invalid input. */
  lemma CallRefusedOnlyForInput(rx: Engine, schema: Schema, raws: map<string, RawBinding>,
                                arguments: map<string, McpBinding>,
                                input: Value, environment: Environment)
    requires Strict(schema) && arguments.Keys == raws.Keys
    requires forall k :: k in raws ==> CompileMcp(raws[k], schema, environment, 1) == Some(arguments[k])
    ensures ResolveCall(rx, schema, arguments, input, environment).Some? <==> Conforms(rx, Coded, schema, input)
  {
    hide Strict;
    hide Conforms;
    hide CompileMcp;
    if Conforms(rx, Coded, schema, input) {
      forall k | k in arguments ensures ResolveMcp(arguments[k], input, environment).Some? {
        McpResolves(rx, raws[k], schema, input, environment, 1);
      }
    }
  }

  /**
   * A call sends, for every input that its schema accepts, one object with exactly the configured
   * arguments, each built as configured.
   */
  lemma CallBuilds(rx: Engine, schema: Schema, raws: map<string, RawBinding>, arguments: map<string, McpBinding>,
                   input: Value, environment: Environment, out: Value)
    requires arguments.Keys == raws.Keys
    requires forall k :: k in raws ==> CompileMcp(raws[k], schema, environment, 1) == Some(arguments[k])
    ensures ResolveCall(rx, schema, arguments, input, environment) == Some(out) <==>
            Conforms(rx, Coded, schema, input) && Built(RawObject(raws), input, environment, out)
  {
    hide Conforms;
    hide CompileMcp;
    hide ResolveMcp;
    ObjectIs(arguments, input, environment, out);
    forall k | k in raws && out.Obj? && k in out.fields
      ensures ResolveMcp(arguments[k], input, environment) == Some(out.fields[k]) <==>
                Built(raws[k], input, environment, out.fields[k])
    {
      McpBuilds(raws[k], schema, input, environment, 1, out.fields[k]);
    }
  }

  /** Two values agree everywhere but at the input leaves of a binding. */
  ghost predicate SameButInputs(b: McpBinding, x: Value, y: Value)
    decreases b
  {
    match b
    case Constant(v) => x == v && y == v
    case FromInput(_) => true
    case FromEnvironment(_) => x == y
    case ObjectOf(fields) =>
      && x.Obj? && y.Obj? && x.fields.Keys == fields.Keys && y.fields.Keys == fields.Keys
      && forall k :: k in fields && k in x.fields && k in y.fields ==>
           SameButInputs(fields[k], x.fields[k], y.fields[k])
    case ArrayOf(items) =>
      && x.Arr? && y.Arr? && |x.items| == |items| == |y.items|
      && forall i :: 0 <= i < |items| ==> SameButInputs(items[i], x.items[i], y.items[i])
  }

  /** Two inputs can change the arguments only at input leaves. */
  lemma {:induction false} InputsReachOnlyInputLeaves(b: McpBinding, one: Value, two: Value, environment: Environment)
    requires ResolveMcp(b, one, environment).Some? && ResolveMcp(b, two, environment).Some?
    ensures SameButInputs(b, ResolveMcp(b, one, environment).value, ResolveMcp(b, two, environment).value)
    decreases b
  {
    match b {
      case Constant(_) =>
      case FromInput(_) =>
      case FromEnvironment(_) =>
      case ObjectOf(fields) =>
        forall k | k in fields
          ensures SameButInputs(fields[k], ResolveMcp(fields[k], one, environment).value,
                                ResolveMcp(fields[k], two, environment).value)
        {
          InputsReachOnlyInputLeaves(fields[k], one, two, environment);
        }
      case ArrayOf(items) =>
        forall i | 0 <= i < |items|
          ensures SameButInputs(items[i], ResolveMcp(items[i], one, environment).value,
                                ResolveMcp(items[i], two, environment).value)
        {
          InputsReachOnlyInputLeaves(items[i], one, two, environment);
        }
    }
  }

  /** Inputs that agree at the pointers a binding reads give the same arguments. */
  lemma {:induction false} OnlyPointersMatter(b: McpBinding, one: Value, two: Value, environment: Environment)
    requires forall p :: p in Pointers(b) ==> ValueAtPointer(one, p) == ValueAtPointer(two, p)
    ensures ResolveMcp(b, one, environment) == ResolveMcp(b, two, environment)
    decreases b
  {
    hide ValueAtPointer;
    match b {
      case Constant(_) =>
      case FromInput(p) => assert p in Pointers(b);
      case FromEnvironment(_) =>
      case ObjectOf(fields) =>
        forall k | k in fields
          ensures ResolveMcp(fields[k], one, environment) == ResolveMcp(fields[k], two, environment)
        {
          assert forall p :: p in Pointers(fields[k]) ==> p in Pointers(b);
          OnlyPointersMatter(fields[k], one, two, environment);
        }
        SameFields(fields, one, two, environment);
      case ArrayOf(items) =>
        forall i | 0 <= i < |items|
          ensures ResolveMcp(items[i], one, environment) == ResolveMcp(items[i], two, environment)
        {
          assert forall p :: p in Pointers(items[i]) ==> p in Pointers(b);
          OnlyPointersMatter(items[i], one, two, environment);
        }
        SameItems(items, one, two, environment);
    }
  }

  lemma SameFields(fields: map<string, McpBinding>, one: Value, two: Value, environment: Environment)
    requires forall k :: k in fields ==>
               ResolveMcp(fields[k], one, environment) == ResolveMcp(fields[k], two, environment)
    ensures ResolveMcp(ObjectOf(fields), one, environment) == ResolveMcp(ObjectOf(fields), two, environment)
  {
    ObjectResolves(fields, one, environment);
    ObjectResolves(fields, two, environment);
    hide ResolveMcp;
    var b := ObjectOf(fields);
    if ResolveMcp(b, one, environment).Some? {
      assert ResolveMcp(b, one, environment).value.fields == ResolveMcp(b, two, environment).value.fields;
    }
  }

  lemma SameItems(items: seq<McpBinding>, one: Value, two: Value, environment: Environment)
    requires forall i :: 0 <= i < |items| ==>
               ResolveMcp(items[i], one, environment) == ResolveMcp(items[i], two, environment)
    ensures ResolveMcp(ArrayOf(items), one, environment) == ResolveMcp(ArrayOf(items), two, environment)
  {
    var b := ArrayOf(items);
    if ResolveMcp(b, one, environment).Some? {
      assert ResolveMcp(b, one, environment).value.items == ResolveMcp(b, two, environment).value.items;
    }
  }
}
