/** Version-2 restrictions: deriving a frozen public tool, compatibility, and calls against it. */
module ProjectionV2 {
  import opened Json
  import opened Schemas
  import opened Republish
  import opened Intersection
  import opened PublicRoot
  import Compiler
  import Text
  import Validator

  datatype Mode =
    | Proxy
    | Restricted(inputs: map<string, Value>, fixed: map<string, Value>)

  datatype Exposure = Exposure(publicName: string, targetId: string, upstreamTool: string, mode: Mode)

  predicate FixedAccepted(rx: Engine, property: Value, value: Value) {
    var compiled := Compile(rx, property, false, 2, false);
    compiled.Some? && Conforms(rx, Coded, compiled.value, value)
  }

  /** What a restriction needs of the upstream schema before anything is published. */
  predicate Derivable(rx: Engine, inputs: map<string, Value>, fixed: map<string, Value>, up: Schema,
                      props: map<string, Value>)
  {
    && inputs.Keys + fixed.Keys <= props.Keys
    && up.required <= inputs.Keys + fixed.Keys
    && inputs.Keys <= up.required
    && (forall k :: k in fixed ==> FixedAccepted(rx, props[k], fixed[k]))
    && (forall k :: k in inputs ==> Intersect(rx, props[k], inputs[k]).Some?)
  }

  function PublicProperties(rx: Engine, inputs: map<string, Value>, props: map<string, Value>): map<string, Value>
    requires inputs.Keys <= props.Keys
    requires forall k :: k in inputs ==> Intersect(rx, props[k], inputs[k]).Some?
  {
    map k | k in inputs :: Intersect(rx, props[k], inputs[k]).value
  }

  predicate NamedTool(tool: Value, name: string) {
    tool.Obj? && Get(tool.fields, "name") == Some(Str(name))
  }

  /** Specification of the derivation; None is every diagnostic. */
  function Derive(rx: Engine, e: Exposure, tool: Value): Option<Value> {
    if !NamedTool(tool, e.upstreamTool) || "inputSchema" !in tool.fields || !BoundedObject(tool.fields["inputSchema"])
    then None
    else
      var named := tool.fields["name" := Str(e.publicName)];
      match e.mode
      case Proxy => Some(Canonical(Obj(named)))
      case Restricted(inputs, fixed) =>
        var input := tool.fields["inputSchema"];
        var up := Compile(rx, input, true, 1, false);
        if up.None? then None
        else
          var props := PropertiesOf(input);
          if !Derivable(rx, inputs, fixed, up.value, props) then None
          else
            var public := Compile(rx, Obj(Root(PublicProperties(rx, inputs, props), up.value.required * inputs.Keys)),
                                  true, 1, false);
            if public.None? then None
            else Some(Canonical(Obj(named["inputSchema" := public.value.publicJson])))
  }

  /** The definite incompatibilities between a restriction and a new upstream definition. */
  predicate Compatible(rx: Engine, e: Exposure, tool: Value) {
    && NamedTool(tool, e.upstreamTool)
    && (e.mode.Restricted? && "inputSchema" in tool.fields && tool.fields["inputSchema"].Obj? ==>
          var schema := tool.fields["inputSchema"].fields;
          && ("properties" in schema && schema["properties"].Obj? ==>
                var props := schema["properties"].fields;
                && e.mode.inputs.Keys + e.mode.fixed.Keys <= props.Keys
                && (forall k :: k in e.mode.fixed && Compile(rx, props[k], false, 2, false).Some? ==>
                      FixedAccepted(rx, props[k], e.mode.fixed[k])))
          && ("required" in schema && schema["required"].Arr? ==>
                Names(schema["required"].items) <= e.mode.inputs.Keys + e.mode.fixed.Keys))
  }

  /** Whatever can be derived is judged compatible with itself. */
  lemma DerivedIsCompatible(rx: Engine, e: Exposure, tool: Value)
    requires Derive(rx, e, tool).Some?
    ensures Compatible(rx, e, tool)
  {
    hide Compile;
    hide Conforms;
    hide Canonical;
    hide Root;
    hide Intersect;
    hide HeaderOk;
    hide Read;
    if e.mode.Restricted? {
      var input := tool.fields["inputSchema"];
      CompileAccepted(rx, input, true, 1, false);
      CompileFromParts(rx, input, true, 1, false);
      RequiredNames(rx, input, Compile(rx, input, true, 1, false).value);
    }
  }

  lemma RequiredNames(rx: Engine, v: Value, t: Schema)
    requires v.Obj? && HeaderOk(rx, Read(v.fields), true, false)
    requires t == Node(Read(v.fields), t.properties, t.items, t.publicJson)
    ensures "required" in v.fields && v.fields["required"].Arr? && t.required == Names(v.fields["required"].items)
    ensures "properties" in v.fields && v.fields["properties"].Obj? && PropertiesOf(v) == v.fields["properties"].fields
    ensures t.kind == ObjectKind && t.required <= PropertiesOf(v).Keys
  {}

  // Calls.

  datatype Call = Call(targetId: string, upstreamTool: string, arguments: map<string, Value>)

  /** The second check of one argument: its public property intersected again with its constraint. */
  predicate Rechecked(rx: Engine, property: Value, constraint: Value, v: Value) {
    var again := Intersect(rx, property, constraint);
    && again.Some?
    && Compile(rx, again.value, false, 2, false).Some?
    && Conforms(rx, Coded, Compile(rx, again.value, false, 2, false).value, v)
  }

  function Resolve(rx: Engine, exposures: map<string, Exposure>, targets: set<string>, name: string, tool: Value,
                   args: Value)
    : Option<Call>
  {
    if name !in exposures || exposures[name].targetId !in targets || !args.Obj? || !NamedTool(tool, name) then None
    else
      var e := exposures[name];
      match e.mode
      case Proxy => Some(Call(e.targetId, e.upstreamTool, args.fields))
      case Restricted(inputs, fixed) =>
        if "inputSchema" !in tool.fields then None
        else
          var schema := tool.fields["inputSchema"];
          var compiled := Compile(rx, schema, true, 1, false);
          var props := PropertiesOf(schema);
          if compiled.None? || !Conforms(rx, Coded, compiled.value, args) then None
          else if props.Keys != inputs.Keys || !(fixed.Keys !! props.Keys) then None
          else if exists k :: k in inputs && k in args.fields && !Rechecked(rx, props[k], inputs[k], args.fields[k])
          then None
          else if !(fixed.Keys !! args.fields.Keys) then None
          else Some(Call(e.targetId, e.upstreamTool, args.fields + fixed))
  }

  ghost function UpstreamProperties(tool: Value): map<string, Value> {
    if tool.Obj? && "inputSchema" in tool.fields then PropertiesOf(tool.fields["inputSchema"]) else map[]
  }

  lemma DerivedParts(rx: Engine, e: Exposure, tool: Value)
    requires e.mode.Restricted? && Derive(rx, e, tool).Some?
    ensures tool.Obj? && "inputSchema" in tool.fields && InputSchema(rx, tool).Some?
    ensures var up, props := InputSchema(rx, tool).value, UpstreamProperties(tool);
            && Derivable(rx, e.mode.inputs, e.mode.fixed, up, props)
            && up.required * e.mode.inputs.Keys == e.mode.inputs.Keys
            && var public := Compile(rx, Obj(Root(PublicProperties(rx, e.mode.inputs, props), e.mode.inputs.Keys)),
                                     true, 1, false);
            && public.Some?
            && Derive(rx, e, tool) ==
               Some(Canonical(Obj(tool.fields["name" := Str(e.publicName)]["inputSchema" := public.value.publicJson])))
  {
    hide Compile;
    hide Canonical;
    hide Root;
    hide FixedAccepted;
    hide Intersect;
    assert InputSchema(rx, tool).value.required * e.mode.inputs.Keys == e.mode.inputs.Keys;
  }

  lemma ToolFields(tool: map<string, Value>, name: string, schema: Value)
    requires Canonical(schema) == schema
    ensures var t := Canonical(Obj(tool["name" := Str(name)]["inputSchema" := schema]));
            NamedTool(t, name) && "inputSchema" in t.fields && t.fields["inputSchema"] == schema
  {
    var m := tool["name" := Str(name)]["inputSchema" := schema];
    assert Canonical(Obj(m)) == Obj(CanonicalFields(m));
    GetCanonical(m, "inputSchema");
    GetCanonical(m, "name");
  }

  lemma RootChildren(rx: Engine, props: map<string, Value>, required: set<string>)
    requires Compile(rx, Obj(Root(props, required)), true, 1, false).Some?
    ensures forall k :: k in props ==> Compile(rx, props[k], false, 2, false).Some?
  {
    hide Compile;
    hide HeaderOk;
    hide Root;
    ReadRoot(props, required);
    CompileFromParts(rx, Obj(Root(props, required)), true, 1, false);
  }

  /** The derived tool publishes exactly the inputs, all required, each as its intersection. */
  lemma DerivedSchema(rx: Engine, e: Exposure, tool: Value)
    requires e.mode.Restricted? && Derive(rx, e, tool).Some?
    ensures var public := Derive(rx, e, tool).value;
            var inputs, props := e.mode.inputs, UpstreamProperties(tool);
            var s := InputSchema(rx, public);
            && InputSchema(rx, tool).Some?
            && NamedTool(public, e.publicName) && "inputSchema" in public.fields
            && Derivable(rx, inputs, e.mode.fixed, InputSchema(rx, tool).value, props)
            && s.Some? && s.value.kind == ObjectKind && s.value.enumValues == []
            && s.value.required == inputs.Keys && s.value.properties.Keys == inputs.Keys
            && PropertiesOf(public.fields["inputSchema"]) == PublicProperties(rx, inputs, props)
            && (forall k :: k in inputs ==>
                  Compile(rx, Intersect(rx, props[k], inputs[k]).value, false, 2, false) == Some(s.value.properties[k]))
  {
    hide Compile;
    hide Canonical;
    hide Root;
    hide Derive;
    hide FixedAccepted;
    hide UpstreamProperties;
    hide Mergeable;
    hide Merged;
    hide NamedTool;
    var inputs, props := e.mode.inputs, UpstreamProperties(tool);
    DerivedParts(rx, e, tool);
    var public := PublicProperties(rx, inputs, props);
    RootChildren(rx, public, inputs.Keys);
    forall k | k in public ensures Canonical(public[k]) == public[k] {
      CanonicalIdempotent(Merged(props[k], inputs[k]));
    }
    RootCompiles(rx, public, inputs.Keys);
    RootPublished(public, inputs.Keys);
    ToolFields(tool.fields, e.publicName, Obj(Root(public, inputs.Keys)));
    ReadRoot(public, inputs.Keys);
  }

  ghost predicate InputStable(property: Value, constraint: Value) {
    property.Obj? && constraint.Obj? ==> Stable(Read(constraint.fields), Read(property.fields))
  }

  /** Every input's bounds stay put when its constraint is merged a second time. */
  ghost predicate MergesStable(inputs: map<string, Value>, props: map<string, Value>) {
    forall k :: k in inputs && k in props ==> InputStable(props[k], inputs[k])
  }

  /** With stable bounds the second intersection returns the public property, and its check is the first one again. */
  lemma RecheckRedundant(rx: Engine, property: Value, constraint: Value, v: Value)
    requires Intersect(rx, property, constraint).Some? && InputStable(property, constraint)
    ensures var frozen := Compile(rx, Intersect(rx, property, constraint).value, false, 2, false);
            Rechecked(rx, Intersect(rx, property, constraint).value, constraint, v) <==>
              frozen.Some? && Conforms(rx, Coded, frozen.value, v)
  {
    hide Compile;
    hide Conforms;
    hide Merged;
    hide MergeAllowed;
    hide Stable;
    hide Canonical;
    hide AnyOpposed;
    IntersectAgain(rx, property, constraint);
    CompileCanonical(rx, Merged(property, constraint), false, 2, false);
  }

  /**
   * The second check refuses what the frozen schema accepts: under an upstream minimum of 0.0 and an
   * input minimum of -0.5, the argument -0.75.
   */
  lemma RecheckWitness(rx: Engine)
    ensures Intersect(rx, Minimum(Float(0.0)), LowerBound(Float(-0.5))) == Some(Minimum(Int(0)))
    ensures var s := Compile(rx, Minimum(Int(0)), false, 2, false);
            s.Some? && Conforms(rx, Coded, s.value, Num(Float(-0.75)))
    ensures !Rechecked(rx, Minimum(Int(0)), LowerBound(Float(-0.5)), Num(Float(-0.75)))
  {
    hide Compile;
    hide Conforms;
    hide Intersect;
    hide Minimum;
    LooseningWitness(rx);
    MinimumAccepts(rx, Coded, Int(0), Float(-0.75));
    MinimumAccepts(rx, Coded, Float(-0.5), Float(-0.75));
  }

  /**
   * Every argument meets the bounds that the second merge of its input puts in place of unstable
   * ones: the local bound for each unstable bound, the published one otherwise. An input whose two
   * bounds are then out of order accepts nothing.
   */
  ghost predicate UnstableMet(inputs: map<string, Value>, props: map<string, Value>, s: Schema, m: map<string, Value>) {
    forall k :: k in inputs && k in props && k in s.properties && k in m && !InputStable(props[k], inputs[k]) ==>
                  SecondBoundsMet(Read(inputs[k].fields), Read(props[k].fields), s.properties[k], m[k])
  }

  /** The second check of a value that the frozen schema accepts comes down to the bounds of unstable inputs. */
  lemma RecheckExact(rx: Engine, property: Value, constraint: Value, v: Value)
    requires Intersect(rx, property, constraint).Some?
    requires Compile(rx, Intersect(rx, property, constraint).value, false, 2, false).Some?
    requires Conforms(rx, Coded, Compile(rx, Intersect(rx, property, constraint).value, false, 2, false).value, v)
    ensures property.Obj? && constraint.Obj?
    ensures var t := Compile(rx, Intersect(rx, property, constraint).value, false, 2, false).value;
            Rechecked(rx, Intersect(rx, property, constraint).value, constraint, v) <==>
              InputStable(property, constraint)
              || SecondBoundsMet(Read(constraint.fields), Read(property.fields), t, v)
  {
    hide Compile;
    hide Conforms;
    hide Intersect;
    hide InputStable;
    hide Read;
    hide SecondLow;
    hide SecondHigh;
    SecondCheck(rx, property, constraint, v);
    if InputStable(property, constraint) { RecheckRedundant(rx, property, constraint, v); }
  }

  /**
   * On a derived tool a call fails only for arguments that the tool's own schema rejects, or that
   * miss the moved bounds of an input with unstable ones; so only the former when all are stable.
   */
  lemma CallExact(rx: Engine, exposures: map<string, Exposure>, targets: set<string>, name: string, tool: Value,
                  args: Value)
    requires name in exposures && exposures[name].targetId in targets && exposures[name].publicName == name
    requires exposures[name].mode.Restricted? && exposures[name].mode.inputs.Keys !! exposures[name].mode.fixed.Keys
    requires Derive(rx, exposures[name], tool).Some?
    ensures InputSchema(rx, Derive(rx, exposures[name], tool).value).Some?
    ensures var e := exposures[name];
            var s := InputSchema(rx, Derive(rx, e, tool).value).value;
            var call := Resolve(rx, exposures, targets, name, Derive(rx, e, tool).value, args);
            && (call.Some? <==>
                  && args.Obj? && Conforms(rx, Coded, s, args)
                  && UnstableMet(e.mode.inputs, UpstreamProperties(tool), s, args.fields))
            && (MergesStable(e.mode.inputs, UpstreamProperties(tool)) ==>
                  (call.Some? <==> args.Obj? && Conforms(rx, Coded, s, args)))
            && (call.Some? ==> call.value == Call(e.targetId, e.upstreamTool, args.fields + e.mode.fixed)
                               && args.fields.Keys == e.mode.inputs.Keys)
  {
    hide Compile;
    hide Conforms;
    hide Derive;
    hide Resolve;
    hide UpstreamProperties;
    hide Derivable;
    hide Rechecked;
    hide NamedTool;
    hide PublicProperties;
    hide Intersect;
    hide InputStable;
    hide Read;
    hide SecondBoundsMet;
    var e := exposures[name];
    var inputs, props := e.mode.inputs, UpstreamProperties(tool);
    var public := Derive(rx, e, tool).value;
    DerivedSchema(rx, e, tool);
    DerivableKeys(rx, inputs, e.mode.fixed, InputSchema(rx, tool).value, props);
    PublicPropertyKeys(rx, inputs, props);
    var s := InputSchema(rx, public).value;
    if args.Obj? && Conforms(rx, Coded, s, args) {
      RootConforms(rx, Coded, s, args.fields);
      assert args.fields.Keys == inputs.Keys;
      AllRechecked(rx, inputs, props, s, args.fields);
    }
    ResolveRestricted(rx, exposures, targets, name, public, args, s);
  }

  lemma AllRechecked(rx: Engine, inputs: map<string, Value>, props: map<string, Value>, s: Schema,
                     m: map<string, Value>)
    requires inputs.Keys <= props.Keys && forall k :: k in inputs ==> Intersect(rx, props[k], inputs[k]).Some?
    requires m.Keys == inputs.Keys && s.properties.Keys == inputs.Keys
    requires forall k :: k in inputs ==>
                           Compile(rx, Intersect(rx, props[k], inputs[k]).value, false, 2, false) ==
                             Some(s.properties[k])
    requires forall k :: k in inputs ==> Conforms(rx, Coded, s.properties[k], m[k])
    ensures PublicProperties(rx, inputs, props).Keys == inputs.Keys
    ensures UnstableMet(inputs, props, s, m) <==>
            forall k :: k in inputs ==> Rechecked(rx, PublicProperties(rx, inputs, props)[k], inputs[k], m[k])
  {
    hide Compile;
    hide Conforms;
    hide Rechecked;
    hide PublicProperties;
    hide Intersect;
    hide InputStable;
    hide Read;
    hide SecondBoundsMet;
    PublicPropertyKeys(rx, inputs, props);
    forall k | k in inputs
      ensures PublicProperties(rx, inputs, props)[k] == Intersect(rx, props[k], inputs[k]).value
      ensures props[k].Obj? && inputs[k].Obj?
      ensures Rechecked(rx, Intersect(rx, props[k], inputs[k]).value, inputs[k], m[k]) <==>
                InputStable(props[k], inputs[k])
                || SecondBoundsMet(Read(inputs[k].fields), Read(props[k].fields), s.properties[k], m[k])
    {
      PublicPropertyAt(rx, inputs, props, k);
      RecheckExact(rx, props[k], inputs[k], m[k]);
    }
  }

  lemma PublicPropertyAt(rx: Engine, inputs: map<string, Value>, props: map<string, Value>, k: string)
    requires inputs.Keys <= props.Keys && forall k :: k in inputs ==> Intersect(rx, props[k], inputs[k]).Some?
    requires k in inputs
    ensures k in PublicProperties(rx, inputs, props)
    ensures PublicProperties(rx, inputs, props)[k] == Intersect(rx, props[k], inputs[k]).value
  {}

  lemma PublicPropertyKeys(rx: Engine, inputs: map<string, Value>, props: map<string, Value>)
    requires inputs.Keys <= props.Keys && forall k :: k in inputs ==> Intersect(rx, props[k], inputs[k]).Some?
    ensures PublicProperties(rx, inputs, props).Keys == inputs.Keys
  {}

  lemma ResolveRestricted(rx: Engine, exposures: map<string, Exposure>, targets: set<string>, name: string, tool: Value,
                          args: Value, s: Schema)
    requires name in exposures && exposures[name].targetId in targets && exposures[name].mode.Restricted?
    requires NamedTool(tool, name) && "inputSchema" in tool.fields
    requires exposures[name].mode.inputs.Keys !! exposures[name].mode.fixed.Keys
    requires Compile(rx, tool.fields["inputSchema"], true, 1, false) == Some(s)
    requires PropertiesOf(tool.fields["inputSchema"]).Keys == exposures[name].mode.inputs.Keys
    requires args.Obj? && Conforms(rx, Coded, s, args) ==> args.fields.Keys == exposures[name].mode.inputs.Keys
    ensures var e := exposures[name];
            var call := Resolve(rx, exposures, targets, name, tool, args);
            && (call.Some? <==>
                  && args.Obj? && Conforms(rx, Coded, s, args)
                  && forall k :: k in e.mode.inputs ==>
                       Rechecked(rx, PropertiesOf(tool.fields["inputSchema"])[k], e.mode.inputs[k], args.fields[k]))
            && (call.Some? ==> call.value == Call(e.targetId, e.upstreamTool, args.fields + e.mode.fixed))
  {
    hide Compile;
    hide Conforms;
    hide Rechecked;
    hide PropertiesOf;
  }

  lemma DerivableKeys(rx: Engine, inputs: map<string, Value>, fixed: map<string, Value>, up: Schema,
                      props: map<string, Value>)
    requires Derivable(rx, inputs, fixed, up, props)
    ensures inputs.Keys <= props.Keys && fixed.Keys <= props.Keys && up.required <= inputs.Keys + fixed.Keys
    ensures forall k :: k in inputs ==> Intersect(rx, props[k], inputs[k]).Some?
    ensures forall k :: k in fixed ==> FixedAccepted(rx, props[k], fixed[k])
  {}

  // Meaning of a frozen restriction.

  lemma UpstreamParts(rx: Engine, tool: Value)
    requires InputSchema(rx, tool).Some?
    ensures var up, props := InputSchema(rx, tool).value, UpstreamProperties(tool);
            && up.kind == ObjectKind && up.required <= props.Keys
            && CompiledProperties(rx, up.properties, props, 1, false)
  {
    hide Compile;
    hide HeaderOk;
    hide Read;
    hide PropertiesOf;
    var v := tool.fields["inputSchema"];
    CompileAccepted(rx, v, true, 1, false);
    CompileFromParts(rx, v, true, 1, false);
    RequiredNames(rx, v, InputSchema(rx, tool).value);
  }

  /** The policy in its own terms: every input, nothing else, each within upstream and local limits. */
  ghost predicate Permitted(rx: Engine, inputs: map<string, Value>, up: Schema, m: map<string, Value>) {
    && m.Keys == inputs.Keys
    && forall k :: k in inputs ==>
         k in up.properties && Conforms(rx, Exact, up.properties[k], m[k]) && Meets(rx, inputs[k], m[k])
  }

  /** What the frozen schema enforces: every input, with its bounds as they were merged. */
  ghost predicate Admitted(rx: Engine, inputs: map<string, Value>, up: Schema, m: map<string, Value>) {
    && m.Keys == inputs.Keys
    && forall k :: k in inputs ==> k in up.properties && EnforcedAt(rx, up.properties[k], inputs[k], m[k])
  }

  /** No input's bounds were merged on the zero branch. */
  ghost predicate MergesDecided(inputs: map<string, Value>, props: map<string, Value>) {
    forall k :: k in inputs && k in props ==> MergeDecided(props[k], inputs[k])
  }

  /** Every argument meets, as a number, each upstream bound that the derivation lost. */
  ghost predicate ArgumentsKept(inputs: map<string, Value>, up: Schema, m: map<string, Value>) {
    forall k :: k in m && k in inputs && k in up.properties && inputs[k].Obj? ==>
                  UpstreamKept(up.properties[k], Read(inputs[k].fields), m[k])
  }

  lemma InputMeet(rx: Engine, property: Value, constraint: Value, v: Value)
    requires Compile(rx, property, false, 2, false).Some?
    requires Intersect(rx, property, constraint).Some?
    requires Compile(rx, Intersect(rx, property, constraint).value, false, 2, false).Some?
    ensures Conforms(rx, Exact, Compile(rx, Intersect(rx, property, constraint).value, false, 2, false).value, v) <==>
            EnforcedAt(rx, Compile(rx, property, false, 2, false).value, constraint, v)
  {
    hide Compile;
    hide Conforms;
    hide ConstraintMet;
    hide Enforced;
    hide NoneLost;
    hide Read;
    hide MergeAllowed;
    hide Merged;
    IntersectIsMeet(rx, property, constraint);
  }

  /** The frozen schema against the policy, input by input. */
  lemma FrozenMeans(rx: Engine, inputs: map<string, Value>, up: Schema, props: map<string, Value>, s: Schema,
                    m: map<string, Value>)
    requires CompiledProperties(rx, up.properties, props, 1, false)
    requires inputs.Keys <= props.Keys && forall k :: k in inputs ==> Intersect(rx, props[k], inputs[k]).Some?
    requires s.required == inputs.Keys && s.properties.Keys == inputs.Keys
    requires forall k :: k in inputs ==>
                           Compile(rx, Intersect(rx, props[k], inputs[k]).value, false, 2, false) ==
                             Some(s.properties[k])
    ensures ObjectConforms(rx, Exact, s, m) <==> Admitted(rx, inputs, up, m)
    ensures Permitted(rx, inputs, up, m) ==> Admitted(rx, inputs, up, m)
    ensures MergesDecided(inputs, props) ==> (Admitted(rx, inputs, up, m) <==> Permitted(rx, inputs, up, m))
  {
    hide Compile;
    hide Conforms;
    hide Intersect;
    hide Meets;
    hide EnforcedAt;
    hide MergeDecided;
    forall k | k in inputs && k in m
      ensures Conforms(rx, Exact, s.properties[k], m[k]) <==> EnforcedAt(rx, up.properties[k], inputs[k], m[k])
      ensures Conforms(rx, Exact, up.properties[k], m[k]) && Meets(rx, inputs[k], m[k]) ==>
                EnforcedAt(rx, up.properties[k], inputs[k], m[k])
      ensures MergeDecided(props[k], inputs[k]) ==>
                (EnforcedAt(rx, up.properties[k], inputs[k], m[k]) <==>
                   Conforms(rx, Exact, up.properties[k], m[k]) && Meets(rx, inputs[k], m[k]))
    {
      InputMeet(rx, props[k], inputs[k], m[k]);
      IntersectsObjects(rx, props[k], inputs[k]);
      PropertyMeans(rx, props[k], inputs[k], m[k]);
    }
  }

  lemma AdmittedKept(rx: Engine, inputs: map<string, Value>, up: Schema, m: map<string, Value>)
    requires Admitted(rx, inputs, up, m)
    ensures AllConform(rx, up, m) <==> ArgumentsKept(inputs, up, m)
  {
    hide Conforms;
    hide EnforcedAt;
    hide Read;
    hide UpstreamKept;
    forall k | k in m
      ensures inputs[k].Obj?
      ensures Conforms(rx, Exact, up.properties[k], m[k]) <==>
                UpstreamKept(up.properties[k], Read(inputs[k].fields), m[k])
    {
      EnforcedAtKept(rx, up.properties[k], inputs[k], m[k]);
    }
  }

  lemma DecidedKept(rx: Engine, inputs: map<string, Value>, up: Schema, props: map<string, Value>,
                    m: map<string, Value>)
    requires CompiledProperties(rx, up.properties, props, 1, false) && inputs.Keys <= props.Keys
    requires MergesDecided(inputs, props) && Admitted(rx, inputs, up, m)
    ensures ArgumentsKept(inputs, up, m)
  {
    hide Compile;
    hide Conforms;
    hide Read;
    hide Enforced;
    hide MergeExact;
    hide UpstreamKept;
    hide NoneLost;
    forall k | k in m ensures UpstreamKept(up.properties[k], Read(inputs[k].fields), m[k]) {
      CompiledIsObject(rx, props[k]);
      NoneLostIsExact(rx, props[k], inputs[k]);
      EnforcedKept(rx, up.properties[k], Read(inputs[k].fields), m[k]);
    }
  }

  /**
   * Arguments that a call forwards are ones the merged bounds admit exactly when none is compared
   * with a bound on the zero branch; with stable bounds exactly those of the admitted, or of the
   * permitted, are forwarded. What is forwarded, whatever its numbers, satisfies the upstream schema
   * it was frozen from, up to a root enum, exactly when every argument meets upstream and no fixed
   * value was judged on the zero branch.
   */
  lemma CallSound(rx: Engine, exposures: map<string, Exposure>, targets: set<string>, name: string, tool: Value,
                  args: Value)
    requires name in exposures && exposures[name].targetId in targets && exposures[name].publicName == name
    requires exposures[name].mode.Restricted? && exposures[name].mode.inputs.Keys !! exposures[name].mode.fixed.Keys
    requires Derive(rx, exposures[name], tool).Some?
    ensures InputSchema(rx, tool).Some? && InputSchema(rx, Derive(rx, exposures[name], tool).value).Some?
    ensures var e := exposures[name];
            var inputs, props, up := e.mode.inputs, UpstreamProperties(tool), InputSchema(rx, tool).value;
            var s := InputSchema(rx, Derive(rx, e, tool).value).value;
            var call := Resolve(rx, exposures, targets, name, Derive(rx, e, tool).value, args);
            && (args.Obj? ==>
                  && (call.Some? ==> (Admitted(rx, inputs, up, args.fields) <==> OrderOK(s, args)))
                  && (MergesStable(inputs, props) && Admitted(rx, inputs, up, args.fields) ==>
                        (call.Some? <==> OrderOK(s, args)))
                  && (Permitted(rx, inputs, up, args.fields) ==> Admitted(rx, inputs, up, args.fields))
                  && (MergesDecided(inputs, props) ==>
                        (Admitted(rx, inputs, up, args.fields) <==> Permitted(rx, inputs, up, args.fields))))
            && (call.Some? ==>
                  && args.Obj?
                  && var sent := call.value.arguments;
                  && (ObjectConforms(rx, Exact, up, sent) <==>
                        ArgumentsMeet(up, s, args.fields) && MembersOrderOK(up, e.mode.fixed))
                  && (OrderOK(s, args) ==>
                        (ArgumentsMeet(up, s, args.fields) <==> ArgumentsKept(inputs, up, args.fields)))
                  && (OrderOK(s, args) && MergesDecided(inputs, props) ==> ArgumentsKept(inputs, up, args.fields))
                  && (Conforms(rx, Exact, up, Obj(sent)) <==>
                        ObjectConforms(rx, Exact, up, sent) && EnumOk(up.enumValues, Obj(sent))))
  {
    hide Compile;
    hide Conforms;
    hide Derive;
    hide Resolve;
    hide InputSchema;
    hide UpstreamProperties;
    hide Derivable;
    hide NamedTool;
    hide PublicProperties;
    hide PropertiesOf;
    hide Intersect;
    hide ObjectConforms;
    hide Admitted;
    hide Permitted;
    hide AllConform;
    hide MembersOrderOK;
    hide MergesDecided;
    hide MergesStable;
    hide UnstableMet;
    hide ArgumentsMeet;
    hide ArgumentsKept;
    hide FixedAccepted;
    hide EnumOk;
    hide OrderOK;
    var e := exposures[name];
    var inputs, fixed, props := e.mode.inputs, e.mode.fixed, UpstreamProperties(tool);
    CallExact(rx, exposures, targets, name, tool, args);
    DerivedSchema(rx, e, tool);
    UpstreamParts(rx, tool);
    var up := InputSchema(rx, tool).value;
    var s := InputSchema(rx, Derive(rx, e, tool).value).value;
    DerivableKeys(rx, inputs, fixed, up, props);
    AcceptedExact(rx, s, args);
    if args.Obj? {
      var m := args.fields;
      RootConforms(rx, Exact, s, m);
      EnumOkEmpty(Obj(m));
      FrozenMeans(rx, inputs, up, props, s, m);
      if Admitted(rx, inputs, up, m) {
        AdmittedKept(rx, inputs, up, m);
        if MergesDecided(inputs, props) { DecidedKept(rx, inputs, up, props, m); }
      }
    }
    if Resolve(rx, exposures, targets, name, Derive(rx, e, tool).value, args).Some? {
      RootConforms(rx, Coded, s, args.fields);
      FixedMembers(rx, fixed, up, props);
      ArgumentsForwarded(rx, inputs, up, props, s, args.fields);
      ForwardedObject(rx, up, args.fields, fixed);
      RootConforms(rx, Exact, up, args.fields + fixed);
    }
  }

  lemma FixedMembers(rx: Engine, fixed: map<string, Value>, up: Schema, props: map<string, Value>)
    requires CompiledProperties(rx, up.properties, props, 1, false)
    requires fixed.Keys <= props.Keys && forall k :: k in fixed ==> FixedAccepted(rx, props[k], fixed[k])
    ensures AllConform(rx, up, fixed) <==> MembersOrderOK(up, fixed)
  {
    hide Compile;
    hide Conforms;
    hide AllConform;
    hide MembersOrderOK;
    AcceptedMembers(rx, up, fixed);
  }

  /** Arguments accepted by the frozen schema conform to their upstream properties exactly when they meet upstream. */
  lemma ArgumentsForwarded(rx: Engine, inputs: map<string, Value>, up: Schema, props: map<string, Value>, s: Schema,
                           m: map<string, Value>)
    requires CompiledProperties(rx, up.properties, props, 1, false)
    requires inputs.Keys <= props.Keys && forall k :: k in inputs ==> Intersect(rx, props[k], inputs[k]).Some?
    requires s.properties.Keys == inputs.Keys && ObjectConforms(rx, Coded, s, m)
    requires forall k :: k in inputs ==>
                           Compile(rx, Intersect(rx, props[k], inputs[k]).value, false, 2, false) ==
                             Some(s.properties[k])
    ensures AllConform(rx, up, m) <==> ArgumentsMeet(up, s, m)
  {
    hide Compile;
    hide Conforms;
    hide Intersect;
    hide MeetsUpstream;
    forall k | k in m
      ensures k in up.properties && k in s.properties
      ensures Conforms(rx, Exact, up.properties[k], m[k]) <==> MeetsUpstream(up.properties[k], s.properties[k], m[k])
    {
      PropertyForwarded(rx, props[k], inputs[k], m[k]);
    }
  }

  // The derivation and the call as the source runs them.

  method FixedAllAccepted(rx: Engine, fixed: map<string, Value>, props: map<string, Value>) returns (ok: bool)
    requires fixed.Keys <= props.Keys
    ensures ok <==> forall k :: k in fixed ==> FixedAccepted(rx, props[k], fixed[k])
  {
    hide Compile;
    hide Conforms;
    var names := Text.Sorted(fixed.Keys);
    for i := 0 to |names|
      invariant forall j :: 0 <= j < i ==> names[j] in fixed && FixedAccepted(rx, props[names[j]], fixed[names[j]])
    {
      assert names[i] in names;
      var compiled := Compiler.CompileSchema(rx, props[names[i]], false, 2, false);
      if compiled.None? { return false; }
      var checked := Validator.ValidateInput(rx, compiled.value, fixed[names[i]]);
      if checked.Err? { return false; }
    }
    forall k | k in fixed ensures FixedAccepted(rx, props[k], fixed[k]) {
      assert k in names;
      var j :| 0 <= j < |names| && names[j] == k;
    }
    return true;
  }

  lemma AllPublic(rx: Engine, inputs: map<string, Value>, props: map<string, Value>, public: map<string, Value>)
    requires inputs.Keys <= props.Keys && public.Keys == inputs.Keys
    requires forall k :: k in inputs ==> Intersect(rx, props[k], inputs[k]) == Some(public[k])
    ensures public == PublicProperties(rx, inputs, props)
  {
    hide Intersect;
  }

  method IntersectInputs(rx: Engine, inputs: map<string, Value>, props: map<string, Value>)
    returns (r: Option<map<string, Value>>)
    requires inputs.Keys <= props.Keys
    ensures r.Some? <==> forall k :: k in inputs ==> Intersect(rx, props[k], inputs[k]).Some?
    ensures r.Some? ==> r.value == PublicProperties(rx, inputs, props)
  {
    hide Intersect;
    hide PublicProperties;
    hide Text.Sorted;
    hide Text.Visited;
    var names := Text.Sorted(inputs.Keys);
    var public: map<string, Value> := map[];
    Text.VisitedEnds(inputs.Keys);
    for i := 0 to |names|
      invariant public.Keys == Text.Visited(inputs.Keys, i)
      invariant forall k :: k in public ==> k in inputs && Intersect(rx, props[k], inputs[k]) == Some(public[k])
    {
      Text.VisitedStep(inputs.Keys, i);
      var merged := IntersectProperty(rx, props[names[i]], inputs[names[i]]);
      if merged.None? { return None; }
      public := public[names[i] := merged.value];
    }
    AllPublic(rx, inputs, props, public);
    return Some(public);
  }

  method DeriveTool(rx: Engine, e: Exposure, tool: Value) returns (r: Option<Value>)
    ensures r == Derive(rx, e, tool)
  {
    hide Compile;
    hide Canonical;
    hide Root;
    hide Intersect;
    hide FixedAccepted;
    hide PropertiesOf;
    hide BoundedObject;
    if !NamedTool(tool, e.upstreamTool) { return None; }
    if "inputSchema" !in tool.fields || !BoundedObject(tool.fields["inputSchema"]) { return None; }
    var input := tool.fields["inputSchema"];
    var named := tool.fields["name" := Str(e.publicName)];
    match e.mode
    case Proxy => return Some(Canonical(Obj(named)));
    case Restricted(inputs, fixed) =>
      var up := Compiler.CompileSchema(rx, input, true, 1, false);
      if up.None? { return None; }
      var props := PropertiesOf(input);
      if !(inputs.Keys <= props.Keys) || !(fixed.Keys <= props.Keys) { return None; }
      if !(up.value.required <= inputs.Keys + fixed.Keys) { return None; }
      if !(inputs.Keys <= up.value.required) { return None; }
      var accepted := FixedAllAccepted(rx, fixed, props);
      if !accepted { return None; }
      var public := IntersectInputs(rx, inputs, props);
      if public.None? { return None; }
      assert Derivable(rx, inputs, fixed, up.value, props);
      var schema := Compiler.CompileSchema(rx, Obj(Root(public.value, up.value.required * inputs.Keys)),
                                           true, 1, false);
      if schema.None? { return None; }
      return Some(Canonical(Obj(named["inputSchema" := schema.value.publicJson])));
  }

  method RecheckInputs(rx: Engine, inputs: map<string, Value>, props: map<string, Value>, m: map<string, Value>)
    returns (ok: bool)
    requires props.Keys == inputs.Keys
    ensures ok <==> forall k :: k in inputs && k in m ==> Rechecked(rx, props[k], inputs[k], m[k])
  {
    hide Compile;
    hide Conforms;
    hide Intersect;
    var names := Text.Sorted(inputs.Keys);
    for i := 0 to |names|
      invariant forall j :: 0 <= j < i && names[j] in m ==>
                              names[j] in inputs && Rechecked(rx, props[names[j]], inputs[names[j]], m[names[j]])
    {
      var k := names[i];
      assert k in names;
      if k in m {
        var constrained := IntersectProperty(rx, props[k], inputs[k]);
        if constrained.None? { return false; }
        var compiled := Compiler.CompileSchema(rx, constrained.value, false, 2, false);
        if compiled.None? { return false; }
        var checked := Validator.ValidateInput(rx, compiled.value, m[k]);
        if checked.Err? { return false; }
      }
    }
    forall k | k in inputs && k in m ensures Rechecked(rx, props[k], inputs[k], m[k]) {
      assert k in names;
      var j :| 0 <= j < |names| && names[j] == k;
    }
    return true;
  }

  method ResolveCall(rx: Engine, exposures: map<string, Exposure>, targets: set<string>, name: string, tool: Value,
                     args: Value)
    returns (r: Option<Call>)
    ensures r == Resolve(rx, exposures, targets, name, tool, args)
  {
    hide Compile;
    hide Conforms;
    hide PropertiesOf;
    hide Rechecked;
    hide NamedTool;
    if name !in exposures || exposures[name].targetId !in targets || !args.Obj? { return None; }
    NamedIsObject(tool, name);
    if !NamedTool(tool, name) { return None; }
    var e := exposures[name];
    match e.mode
    case Proxy => return Some(Call(e.targetId, e.upstreamTool, args.fields));
    case Restricted(inputs, fixed) =>
      if "inputSchema" !in tool.fields { return None; }
      var schema := tool.fields["inputSchema"];
      var compiled := Compiler.CompileSchema(rx, schema, true, 1, false);
      if compiled.None? { return None; }
      var checked := Validator.ValidateInput(rx, compiled.value, args);
      if checked.Err? { return None; }
      var props := PropertiesOf(schema);
      if props.Keys != inputs.Keys || !(fixed.Keys !! props.Keys) { return None; }
      var again := RecheckInputs(rx, inputs, props, args.fields);
      if !again { return None; }
      if !(fixed.Keys !! args.fields.Keys) { return None; }
      return Some(Call(e.targetId, e.upstreamTool, args.fields + fixed));
  }

  lemma NamedIsObject(tool: Value, name: string)
    ensures NamedTool(tool, name) ==> tool.Obj?
  {}
}
