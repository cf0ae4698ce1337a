/** Version-3 projection of an upstream tool, and calls resolved against the projected tool. */
module ProjectionV3 {
  import opened Json
  import opened Schemas
  import opened Republish
  import opened Intersection
  import opened PublicRoot
  import Compiler
  import Text
  import Validator

  datatype PropertyRule =
    | Expose(constraints: Value, required: bool)
    | Fixed(value: Value)
    | Omit

  datatype Restriction = Restriction(exposeUnlisted: bool, properties: map<string, PropertyRule>)

  datatype Exposure = Exposure(
    publicName: string,
    targetId: string,
    upstreamTool: string,
    description: Option<string>,
    restriction: Option<Restriction>)

  datatype Issue =
    | PropertyNotInUpstream
    | RequiredPropertyUnsatisfied
    | FixedValueInvalid
    | SchemaConstraintConflict
    | UnsupportedSchema
    | ToolNotFound

  // Specification of the projection.

  /** The upstream input schema as a closed object: missing parts filled in, extra keys shut out. */
  function CloseRoot(m: map<string, Value>): Option<map<string, Value>> {
    var withProperties := if "properties" in m then m else m["properties" := Obj(map[])];
    var n := if "required" in withProperties then withProperties else withProperties["required" := Arr([])];
    if "additionalProperties" !in n || n["additionalProperties"] == Bool(true)
    then Some(n["additionalProperties" := Bool(false)])
    else if n["additionalProperties"] == Bool(false) then Some(n)
    else None
  }

  function ClosedInput(tool: Value): Option<Value> {
    if tool.Obj? && "inputSchema" in tool.fields && BoundedObject(tool.fields["inputSchema"]) then
      var closed := CloseRoot(tool.fields["inputSchema"].fields);
      if closed.Some? then Some(Obj(closed.value)) else None
    else None
  }

  /** The closed upstream schema, when the gate can enforce it. */
  function UpstreamSchema(rx: Engine, tool: Value): Option<Schema> {
    if ClosedInput(tool).Some? then Compile(rx, ClosedInput(tool).value, true, 1, false) else None
  }

  function UpstreamProperties(tool: Value): map<string, Value> {
    if ClosedInput(tool).Some? then PropertiesOf(ClosedInput(tool).value) else map[]
  }

  function RuleFor(r: Restriction, name: string): Option<PropertyRule> {
    if name in r.properties then Some(r.properties[name])
    else if r.exposeUnlisted then Some(Expose(Obj(map[]), false))
    else None
  }

  datatype Outcome = Hidden | Public(property: Value, required: bool) | Blocked(issue: Issue)

  function Described(property: Value, constraints: Value): Value {
    if property.Obj? && constraints.Obj?
       && "description" in constraints.fields && constraints.fields["description"].Str?
    then Obj(property.fields["description" := Str(constraints.fields["description"].s)])
    else property
  }

  /** What a rule does with one upstream property. */
  function OutcomeOf(rx: Engine, rule: Option<PropertyRule>, upstreamRequired: bool, property: Value): Outcome {
    match rule
    case None => if upstreamRequired then Blocked(RequiredPropertyUnsatisfied) else Hidden
    case Some(Expose(constraints, required)) =>
      var public := Intersect(rx, property, constraints);
      if public.None? then Blocked(SchemaConstraintConflict)
      else if Compile(rx, public.value, false, 2, false).None? then Blocked(UnsupportedSchema)
      else Public(Described(public.value, constraints), upstreamRequired || required)
    case Some(Fixed(value)) =>
      var compiled := Compile(rx, property, false, 2, false);
      if compiled.None? then Blocked(UnsupportedSchema)
      else if !Conforms(rx, Coded, compiled.value, value) then Blocked(FixedValueInvalid)
      else Hidden
    case Some(Omit) => if upstreamRequired then Blocked(RequiredPropertyUnsatisfied) else Hidden
  }

  function Outcomes(rx: Engine, r: Restriction, up: Schema, props: map<string, Value>): map<string, Outcome> {
    map k | k in props :: OutcomeOf(rx, RuleFor(r, k), k in up.required, props[k])
  }

  function Failing(outcomes: map<string, Outcome>): set<string> {
    set k | k in outcomes && outcomes[k].Blocked?
  }

  function PublicProperties(outcomes: map<string, Outcome>): map<string, Value> {
    map k | k in outcomes && outcomes[k].Public? :: outcomes[k].property
  }

  function PublicRequired(outcomes: map<string, Outcome>): set<string> {
    set k | k in outcomes && outcomes[k].Public? && outcomes[k].required
  }

  function PublicTool(e: Exposure, tool: map<string, Value>, schema: Value): map<string, Value> {
    var described := tool["name" := Str(e.publicName)]["inputSchema" := schema];
    if e.description.Some? then described["description" := Str(e.description.value)] else described
  }

  /** The projection: the public tool, or the issue of the first property that cannot be projected. */
  function Derive(rx: Engine, e: Exposure, tool: Value): Result<Value, Issue> {
    if !tool.Obj? then Err(UnsupportedSchema)
    else if Get(tool.fields, "name") != Some(Str(e.upstreamTool)) then Err(ToolNotFound)
    else if e.restriction.None? then Ok(Canonical(Obj(tool.fields["name" := Str(e.publicName)])))
    else if UpstreamSchema(rx, tool).None? then Err(UnsupportedSchema)
    else
      var r := e.restriction.value;
      var props := UpstreamProperties(tool);
      if !(r.properties.Keys <= props.Keys) then Err(PropertyNotInUpstream)
      else
        var outcomes := Outcomes(rx, r, UpstreamSchema(rx, tool).value, props);
        if Failing(outcomes) != {} then Err(outcomes[Text.Least(Failing(outcomes))].issue)
        else
          var public := Compile(rx, Obj(Root(PublicProperties(outcomes), PublicRequired(outcomes))), true, 1, false);
          if public.None? then Err(SchemaConstraintConflict)
          else Ok(Canonical(Obj(PublicTool(e, tool.fields, public.value.publicJson))))
  }

  // Specification of a call.

  datatype Call = Call(targetId: string, upstreamTool: string, arguments: map<string, Value>)

  function FixedValues(r: Restriction): map<string, Value> {
    map k | k in r.properties && r.properties[k].Fixed? :: r.properties[k].value
  }

  function Resolve(rx: Engine, exposures: map<string, Exposure>, targets: set<string>, name: string, tool: Value,
                   args: Value)
    : Option<Call>
  {
    if name !in exposures || exposures[name].targetId !in targets then None
    else
      var e := exposures[name];
      if !tool.Obj? || Get(tool.fields, "name") != Some(Str(name)) || !args.Obj? then None
      else if e.restriction.None? then Some(Call(e.targetId, e.upstreamTool, args.fields))
      else if "inputSchema" !in tool.fields then None
      else
        var schema := tool.fields["inputSchema"];
        var compiled := Compile(rx, schema, true, 1, false);
        if compiled.None? || !Conforms(rx, Coded, compiled.value, args) then None
        else Some(Call(e.targetId, e.upstreamTool,
                       Only(args.fields, PropertiesOf(schema).Keys) + FixedValues(e.restriction.value)))
  }

  // The projected tool.

  predicate Exposes(r: Restriction, name: string) {
    RuleFor(r, name).Some? && RuleFor(r, name).value.Expose?
  }

  function Constraints(r: Restriction, name: string): Value
    requires Exposes(r, name)
  {
    RuleFor(r, name).value.constraints
  }

  lemma DescribedCompiles(rx: Engine, public: Value, constraints: Value)
    requires Compile(rx, public, false, 2, false).Some? && Canonical(public) == public
    ensures var s := Compile(rx, Described(public, constraints), false, 2, false);
            && s.Some?
            && s.value == Compile(rx, public, false, 2, false).value.(publicJson := s.value.publicJson)
            && Canonical(Described(public, constraints)) == Described(public, constraints)
  {
    hide Compile;
    hide Canonical;
    if Described(public, constraints) != public {
      CompileDescribed(rx, public, constraints.fields["description"].s);
    }
  }

  /** Every property a rule publishes is canonical and compiles to its intersection. */
  lemma OutcomeCompiles(rx: Engine, rule: Option<PropertyRule>, upstreamRequired: bool, property: Value)
    requires OutcomeOf(rx, rule, upstreamRequired, property).Public?
    ensures var o := OutcomeOf(rx, rule, upstreamRequired, property);
            && rule.Some? && rule.value.Expose?
            && Intersect(rx, property, rule.value.constraints).Some?
            && var public := Intersect(rx, property, rule.value.constraints).value;
            && var s := Compile(rx, o.property, false, 2, false);
            && Compile(rx, public, false, 2, false).Some?
            && s.Some?
            && s.value == Compile(rx, public, false, 2, false).value.(publicJson := s.value.publicJson)
            && Canonical(o.property) == o.property
  {
    hide Compile;
    hide Canonical;
    hide Mergeable;
    hide Merged;
    hide Described;
    var public := Intersect(rx, property, rule.value.constraints).value;
    CanonicalIdempotent(Merged(property, rule.value.constraints));
    DescribedCompiles(rx, public, rule.value.constraints);
  }

  /** The derived tool, unfolded: no failing property, and the root that is published. */
  lemma DerivedParts(rx: Engine, e: Exposure, tool: Value)
    requires e.restriction.Some? && Derive(rx, e, tool).Ok?
    ensures tool.Obj? && UpstreamSchema(rx, tool).Some?
    ensures var outcomes := Outcomes(rx, e.restriction.value, UpstreamSchema(rx, tool).value, UpstreamProperties(tool));
            && e.restriction.value.properties.Keys <= UpstreamProperties(tool).Keys
            && Failing(outcomes) == {}
            && Compile(rx, Obj(Root(PublicProperties(outcomes), PublicRequired(outcomes))), true, 1, false).Some?
            && Derive(rx, e, tool).value ==
               Canonical(Obj(PublicTool(
                 e, tool.fields,
                 Compile(rx, Obj(Root(PublicProperties(outcomes), PublicRequired(outcomes))), true, 1, false).value
                   .publicJson)))
  {
    hide Compile;
    hide Canonical;
    hide UpstreamSchema;
    hide UpstreamProperties;
    hide Outcomes;
    hide Root;
    hide PublicTool;
  }

  lemma PublicRootCompiles(rx: Engine, r: Restriction, up: Schema, props: map<string, Value>)
    ensures var outcomes := Outcomes(rx, r, up, props);
            var s := Compile(rx, Obj(Root(PublicProperties(outcomes), PublicRequired(outcomes))), true, 1, false);
            && s.Some?
            && s.value.kind == ObjectKind && s.value.enumValues == [] && s.value.required == PublicRequired(outcomes)
            && s.value.publicJson == Obj(Root(PublicProperties(outcomes), PublicRequired(outcomes)))
            && CompiledProperties(rx, s.value.properties, PublicProperties(outcomes), 1, false)
  {
    hide Compile;
    hide Canonical;
    hide Root;
    hide OutcomeOf;
    var outcomes := Outcomes(rx, r, up, props);
    var public := PublicProperties(outcomes);
    forall k | k in public ensures Canonical(public[k]) == public[k] && Compile(rx, public[k], false, 2, false).Some? {
      OutcomeCompiles(rx, RuleFor(r, k), k in up.required, props[k]);
    }
    RootCompiles(rx, public, PublicRequired(outcomes));
  }

  lemma PublicToolSchema(e: Exposure, tool: map<string, Value>, schema: Value)
    requires Canonical(schema) == schema
    ensures var t := Canonical(Obj(PublicTool(e, tool, schema)));
            && t.Obj?
            && Get(t.fields, "inputSchema") == Some(schema)
            && Get(t.fields, "name") == Some(Str(e.publicName))
  {
    var m := PublicTool(e, tool, schema);
    assert Canonical(Obj(m)) == Obj(CanonicalFields(m));
    assert Get(m, "inputSchema") == Some(schema) && Get(m, "name") == Some(Str(e.publicName));
    GetCanonical(m, "inputSchema");
    GetCanonical(m, "name");
  }

  /**
   * The published schema is closed: its properties are exactly the exposed ones, it requires
   * exactly those that upstream or the rule requires, and each compiles to its intersection.
   */
  lemma DerivedSchema(rx: Engine, e: Exposure, tool: Value)
    requires e.restriction.Some? && Derive(rx, e, tool).Ok?
    ensures var r := e.restriction.value;
            var props := UpstreamProperties(tool);
            var public := Derive(rx, e, tool).value;
            var s := InputSchema(rx, public);
            && UpstreamSchema(rx, tool).Some?
            && public.Obj? && Get(public.fields, "name") == Some(Str(e.publicName)) && "inputSchema" in public.fields
            && s.Some? && s.value.kind == ObjectKind && s.value.enumValues == []
            && s.value.properties.Keys == PropertiesOf(public.fields["inputSchema"]).Keys
            && s.value.properties.Keys == (set k | k in props && Exposes(r, k))
            && s.value.required == (set k | k in props && Exposes(r, k) &&
                                      (k in UpstreamSchema(rx, tool).value.required || RuleFor(r, k).value.required))
            && (forall k :: k in s.value.properties ==>
                  && k in props
                  && Intersect(rx, props[k], Constraints(r, k)).Some?
                  && Compile(rx, Intersect(rx, props[k], Constraints(r, k)).value, false, 2, false).Some?
                  && s.value.properties[k] ==
                     Compile(rx, Intersect(rx, props[k], Constraints(r, k)).value, false, 2, false).value
                       .(publicJson := s.value.properties[k].publicJson))
  {
    hide Compile;
    hide Canonical;
    hide Root;
    hide PublicTool;
    hide Derive;
    hide UpstreamSchema;
    hide UpstreamProperties;
    hide OutcomeOf;
    hide Intersect;
    var r := e.restriction.value;
    var props := UpstreamProperties(tool);
    DerivedParts(rx, e, tool);
    var up := UpstreamSchema(rx, tool).value;
    var outcomes := Outcomes(rx, r, up, props);
    PublicRootCompiles(rx, r, up, props);
    var root := Root(PublicProperties(outcomes), PublicRequired(outcomes));
    RootIsCanonical(rx, r, up, props);
    PublicToolSchema(e, tool.fields, Obj(root));
    ReadRoot(PublicProperties(outcomes), PublicRequired(outcomes));
    var s := Compile(rx, Obj(root), true, 1, false).value;
    forall k | k in props
      ensures outcomes[k].Public? <==> Exposes(r, k)
      ensures outcomes[k].Public? ==>
                (outcomes[k].required <==> k in up.required || RuleFor(r, k).value.required)
    {
      assert k !in Failing(outcomes);
      OutcomeKind(rx, RuleFor(r, k), k in up.required, props[k]);
    }
    forall k | k in s.properties
      ensures Intersect(rx, props[k], Constraints(r, k)).Some?
      ensures Compile(rx, Intersect(rx, props[k], Constraints(r, k)).value, false, 2, false).Some?
      ensures s.properties[k] == Compile(rx, Intersect(rx, props[k], Constraints(r, k)).value, false, 2, false).value
                                   .(publicJson := s.properties[k].publicJson)
    {
      OutcomeCompiles(rx, RuleFor(r, k), k in up.required, props[k]);
    }
  }

  lemma OutcomeKind(rx: Engine, rule: Option<PropertyRule>, upstreamRequired: bool, property: Value)
    ensures var o := OutcomeOf(rx, rule, upstreamRequired, property);
            !o.Blocked? ==>
              && (o.Public? <==> rule.Some? && rule.value.Expose?)
              && (o.Public? ==> (o.required <==> upstreamRequired || rule.value.required))
              && (o.Hidden? && upstreamRequired ==> rule.Some? && rule.value.Fixed?)
              && (rule.Some? && rule.value.Fixed? ==>
                    && Compile(rx, property, false, 2, false).Some?
                    && Conforms(rx, Coded, Compile(rx, property, false, 2, false).value, rule.value.value))
  {
    hide Compile;
    hide Conforms;
    hide Intersect;
  }

  lemma RootIsCanonical(rx: Engine, r: Restriction, up: Schema, props: map<string, Value>)
    ensures var outcomes := Outcomes(rx, r, up, props);
            var root := Obj(Root(PublicProperties(outcomes), PublicRequired(outcomes)));
            Canonical(root) == root
  {
    hide Canonical;
    hide OutcomeOf;
    hide Root;
    var outcomes := Outcomes(rx, r, up, props);
    forall k | k in PublicProperties(outcomes)
      ensures Canonical(PublicProperties(outcomes)[k]) == PublicProperties(outcomes)[k] {
      OutcomeCompiles(rx, RuleFor(r, k), k in up.required, props[k]);
    }
    RootPublished(PublicProperties(outcomes), PublicRequired(outcomes));
  }

  // Calls.

  lemma UpstreamParts(rx: Engine, tool: Value)
    requires UpstreamSchema(rx, tool).Some?
    ensures var up := UpstreamSchema(rx, tool).value;
            var props := UpstreamProperties(tool);
            && up.kind == ObjectKind && up.required <= props.Keys
            && CompiledProperties(rx, up.properties, props, 1, false)
  {
    hide Compile;
    hide ClosedInput;
    hide HeaderOk;
    hide PropertiesOf;
    hide Read;
    var v := ClosedInput(tool).value;
    CompileAccepted(rx, v, true, 1, false);
    CompileFromParts(rx, v, true, 1, false);
    RootKind(rx, v);
  }

  lemma RootKind(rx: Engine, v: Value)
    requires v.Obj? && HeaderOk(rx, Read(v.fields), true, false)
    ensures KindOf(Read(v.fields)) == Some(ObjectKind)
    ensures NamesOf(Read(v.fields).required) <= PropertiesOf(v).Keys
  {}

  /** No exposed property's bounds were merged on the zero branch. */
  ghost predicate MergesDecided(r: Restriction, props: map<string, Value>) {
    forall k :: k in props && Exposes(r, k) ==> MergeDecided(props[k], Constraints(r, k))
  }

  /** The policy in its own terms: which argument objects a restriction lets through. */
  ghost predicate Permitted(rx: Engine, r: Restriction, up: Schema, props: map<string, Value>, m: map<string, Value>) {
    && (forall k :: k in m ==>
          && k in props && Exposes(r, k) && k in up.properties
          && Conforms(rx, Exact, up.properties[k], m[k])
          && Meets(rx, Constraints(r, k), m[k]))
    && (forall k :: k in props && Exposes(r, k) && (k in up.required || RuleFor(r, k).value.required) ==> k in m)
  }

  /** What the published schema enforces: the policy, with each merged bound as it was merged. */
  ghost predicate Admitted(rx: Engine, r: Restriction, up: Schema, props: map<string, Value>, m: map<string, Value>) {
    && (forall k :: k in m ==>
          k in props && Exposes(r, k) && k in up.properties
          && EnforcedAt(rx, up.properties[k], Constraints(r, k), m[k]))
    && (forall k :: k in props && Exposes(r, k) && (k in up.required || RuleFor(r, k).value.required) ==> k in m)
  }

  lemma PropertyMeet(rx: Engine, property: Value, constraint: Value, t: Schema, v: Value)
    requires Compile(rx, property, false, 2, false).Some?
    requires Intersect(rx, property, constraint).Some?
    requires Compile(rx, Intersect(rx, property, constraint).value, false, 2, false).Some?
    requires t == Compile(rx, Intersect(rx, property, constraint).value, false, 2, false).value
                    .(publicJson := t.publicJson)
    ensures Conforms(rx, Exact, t, v) <==> EnforcedAt(rx, Compile(rx, property, false, 2, false).value, constraint, v)
  {
    hide Compile;
    hide Conforms;
    hide ConstraintMet;
    hide Enforced;
    hide NoneLost;
    hide Read;
    hide MergeAllowed;
    hide Merged;
    IntersectIsMeet(rx, property, constraint);
    var s := Compile(rx, Intersect(rx, property, constraint).value, false, 2, false).value;
    ConformsIgnoresJson(rx, Exact, s, t.publicJson, v);
  }

  lemma AdmittedMeans(rx: Engine, r: Restriction, up: Schema, props: map<string, Value>, m: map<string, Value>)
    requires CompiledProperties(rx, up.properties, props, 1, false)
    requires forall k :: k in props && Exposes(r, k) ==> props[k].Obj? && Constraints(r, k).Obj?
    ensures Permitted(rx, r, up, props, m) ==> Admitted(rx, r, up, props, m)
    ensures MergesDecided(r, props) ==> (Admitted(rx, r, up, props, m) <==> Permitted(rx, r, up, props, m))
  {
    hide Compile;
    hide Conforms;
    hide EnforcedAt;
    hide Meets;
    hide MergeDecided;
    hide Exposes;
    hide RuleFor;
    forall k | k in m && k in props && Exposes(r, k)
      ensures Conforms(rx, Exact, up.properties[k], m[k]) && Meets(rx, Constraints(r, k), m[k]) ==>
                EnforcedAt(rx, up.properties[k], Constraints(r, k), m[k])
      ensures MergeDecided(props[k], Constraints(r, k)) ==>
                (EnforcedAt(rx, up.properties[k], Constraints(r, k), m[k]) <==>
                   Conforms(rx, Exact, up.properties[k], m[k]) && Meets(rx, Constraints(r, k), m[k]))
    {
      PropertyMeans(rx, props[k], Constraints(r, k), m[k]);
    }
  }

  /**
   * The published schema means the policy. For every restriction it accepts whatever the policy
   * permits, and exactly what the merged bounds admit; no more than the policy unless a bound is lost.
   */
  lemma PublicMeansPolicy(rx: Engine, e: Exposure, tool: Value, m: map<string, Value>)
    requires e.restriction.Some? && Derive(rx, e, tool).Ok?
    ensures var s := InputSchema(rx, Derive(rx, e, tool).value);
            && s.Some? && UpstreamSchema(rx, tool).Some?
            && var r, up, props := e.restriction.value, UpstreamSchema(rx, tool).value, UpstreamProperties(tool);
            && (Conforms(rx, Exact, s.value, Obj(m)) <==> Admitted(rx, r, up, props, m))
            && (Permitted(rx, r, up, props, m) ==> Conforms(rx, Exact, s.value, Obj(m)))
            && (MergesDecided(r, props) ==> (Conforms(rx, Exact, s.value, Obj(m)) <==> Permitted(rx, r, up, props, m)))
  {
    hide Compile;
    hide Conforms;
    hide Derive;
    hide UpstreamSchema;
    hide UpstreamProperties;
    hide InputSchema;
    hide Intersect;
    hide EnforcedAt;
    hide MergesDecided;
    hide Permitted;
    hide Exposes;
    hide RuleFor;
    var r := e.restriction.value;
    var props := UpstreamProperties(tool);
    DerivedSchema(rx, e, tool);
    UpstreamParts(rx, tool);
    var up := UpstreamSchema(rx, tool).value;
    var s := InputSchema(rx, Derive(rx, e, tool).value).value;
    RootConforms(rx, Exact, s, m);
    forall k | k in m && k in s.properties
      ensures Conforms(rx, Exact, s.properties[k], m[k]) <==> EnforcedAt(rx, up.properties[k], Constraints(r, k), m[k])
    {
      PropertyMeet(rx, props[k], Constraints(r, k), s.properties[k], m[k]);
    }
    AdmittedAgain(rx, r, up, props, s, m);
    forall k | k in props && Exposes(r, k) ensures props[k].Obj? && Constraints(r, k).Obj? {
      IntersectsObjects(rx, props[k], Constraints(r, k));
    }
    AdmittedMeans(rx, r, up, props, m);
  }

  lemma AdmittedAgain(rx: Engine, r: Restriction, up: Schema, props: map<string, Value>, s: Schema,
                      m: map<string, Value>)
    requires up.properties.Keys == props.Keys
    requires s.properties.Keys == (set k | k in props && Exposes(r, k))
    requires s.required == (set k | k in props && Exposes(r, k) && (k in up.required || RuleFor(r, k).value.required))
    requires forall k :: k in m && k in s.properties ==>
                           (Conforms(rx, Exact, s.properties[k], m[k]) <==>
                            EnforcedAt(rx, up.properties[k], Constraints(r, k), m[k]))
    ensures ObjectConforms(rx, Exact, s, m) <==> Admitted(rx, r, up, props, m)
  {
    hide Conforms;
    hide EnforcedAt;
    hide Exposes;
    hide RuleFor;
    if ObjectConforms(rx, Exact, s, m) {
      forall k | k in m ensures k in s.properties {}
    }
    if Admitted(rx, r, up, props, m) {
      forall k | k in m ensures k in s.properties {}
    }
  }

  lemma ResolveDerived(rx: Engine, exposures: map<string, Exposure>, targets: set<string>, name: string, tool: Value,
                       args: Value)
    requires name in exposures && exposures[name].targetId in targets && exposures[name].publicName == name
    requires exposures[name].restriction.Some? && Derive(rx, exposures[name], tool).Ok?
    ensures var e := exposures[name];
            var public := Derive(rx, e, tool).value;
            var s := InputSchema(rx, public);
            var call := Resolve(rx, exposures, targets, name, public, args);
            && s.Some?
            && (call.Some? <==> args.Obj? && Conforms(rx, Coded, s.value, args))
            && (call.Some? ==> call.value == Call(e.targetId, e.upstreamTool,
                                                  Only(args.fields, s.value.properties.Keys)
                                                  + FixedValues(e.restriction.value)))
  {
    hide Compile;
    hide Conforms;
    hide Derive;
    hide UpstreamSchema;
    hide UpstreamProperties;
    hide Intersect;
    hide Only;
    hide FixedValues;
    DerivedSchema(rx, exposures[name], tool);
  }

  /**
   * A restricted call is forwarded exactly when the code accepts its arguments by the published
   * schema. Those are arguments that the merged bounds admit exactly when none is compared with a
   * bound on the zero branch; and of the arguments admitted, or permitted by the policy (every key
   * exposed, every required one present, each value within its upstream and local limits), exactly
   * those are forwarded. With no bound lost, what is admitted is the policy.
   */
  lemma CallExact(rx: Engine, exposures: map<string, Exposure>, targets: set<string>, name: string, tool: Value,
                  args: Value)
    requires name in exposures && exposures[name].targetId in targets && exposures[name].publicName == name
    requires exposures[name].restriction.Some? && Derive(rx, exposures[name], tool).Ok?
    ensures UpstreamSchema(rx, tool).Some? && InputSchema(rx, Derive(rx, exposures[name], tool).value).Some?
    ensures var e := exposures[name];
            var s := InputSchema(rx, Derive(rx, e, tool).value).value;
            var r, up, props := e.restriction.value, UpstreamSchema(rx, tool).value, UpstreamProperties(tool);
            var call := Resolve(rx, exposures, targets, name, Derive(rx, e, tool).value, args);
            && (call.Some? <==> args.Obj? && Conforms(rx, Coded, s, args))
            && (args.Obj? ==>
                  && (call.Some? ==> (Admitted(rx, r, up, props, args.fields) <==> OrderOK(s, args)))
                  && (Admitted(rx, r, up, props, args.fields) ==> (call.Some? <==> OrderOK(s, args)))
                  && (Permitted(rx, r, up, props, args.fields) ==> (call.Some? <==> OrderOK(s, args)))
                  && (MergesDecided(r, props) ==>
                        (Admitted(rx, r, up, props, args.fields) <==> Permitted(rx, r, up, props, args.fields))))
  {
    hide Compile;
    hide Conforms;
    hide Derive;
    hide Resolve;
    hide UpstreamSchema;
    hide UpstreamProperties;
    hide InputSchema;
    hide Permitted;
    hide Admitted;
    hide MergesDecided;
    hide OrderOK;
    var e := exposures[name];
    ResolveDerived(rx, exposures, targets, name, tool, args);
    AcceptedExact(rx, InputSchema(rx, Derive(rx, e, tool).value).value, args);
    PublicMeansPolicy(rx, e, tool, if args.Obj? then args.fields else map[]);
  }

  lemma FixedConform(rx: Engine, e: Exposure, tool: Value)
    requires e.restriction.Some? && Derive(rx, e, tool).Ok?
    ensures UpstreamSchema(rx, tool).Some?
    ensures var r := e.restriction.value;
            var up := UpstreamSchema(rx, tool).value;
            && (forall k :: k in FixedValues(r) ==>
                  k in up.properties && Conforms(rx, Coded, up.properties[k], FixedValues(r)[k]))
            && (forall k :: k in up.required ==> Exposes(r, k) || k in FixedValues(r))
  {
    hide Compile;
    hide Conforms;
    hide Derive;
    hide UpstreamSchema;
    hide UpstreamProperties;
    hide OutcomeOf;
    hide Intersect;
    hide Canonical;
    hide Root;
    hide PublicTool;
    var r := e.restriction.value;
    DerivedParts(rx, e, tool);
    UpstreamParts(rx, tool);
    var up := UpstreamSchema(rx, tool).value;
    var props := UpstreamProperties(tool);
    forall k | k in props
      ensures k in FixedValues(r) ==> Conforms(rx, Coded, up.properties[k], FixedValues(r)[k])
      ensures k in up.required ==> Exposes(r, k) || k in FixedValues(r)
    {
      assert k !in Failing(Outcomes(rx, r, up, props));
      OutcomeKind(rx, RuleFor(r, k), k in up.required, props[k]);
    }
  }

  /**
   * Whatever the numbers in a call: what is forwarded is the caller's arguments and every fixed
   * value, disjointly, with nothing missing that upstream requires and nothing it does not know.
   */
  lemma CallRebuilds(rx: Engine, exposures: map<string, Exposure>, targets: set<string>, name: string, tool: Value,
                     args: Value)
    requires name in exposures && exposures[name].targetId in targets && exposures[name].publicName == name
    requires exposures[name].restriction.Some? && Derive(rx, exposures[name], tool).Ok?
    requires Resolve(rx, exposures, targets, name, Derive(rx, exposures[name], tool).value, args).Some?
    ensures args.Obj? && UpstreamSchema(rx, tool).Some?
    ensures var e := exposures[name];
            var fixed := FixedValues(e.restriction.value);
            var call := Resolve(rx, exposures, targets, name, Derive(rx, e, tool).value, args).value;
            && call.targetId == e.targetId && call.upstreamTool == e.upstreamTool
            && args.fields.Keys !! fixed.Keys && call.arguments == args.fields + fixed
            && UpstreamSchema(rx, tool).value.required <= call.arguments.Keys
            && call.arguments.Keys <= UpstreamSchema(rx, tool).value.properties.Keys
  {
    hide Compile;
    hide Conforms;
    hide Derive;
    hide Resolve;
    hide UpstreamSchema;
    hide UpstreamProperties;
    hide InputSchema;
    hide EnumOk;
    hide FixedValues;
    hide Exposes;
    hide RuleFor;
    hide Intersect;
    var e := exposures[name];
    var r := e.restriction.value;
    ResolveDerived(rx, exposures, targets, name, tool, args);
    DerivedSchema(rx, e, tool);
    UpstreamParts(rx, tool);
    FixedConform(rx, e, tool);
    var s := InputSchema(rx, Derive(rx, e, tool).value).value;
    RootConforms(rx, Coded, s, args.fields);
    forall k | k in FixedValues(r) ensures !Exposes(r, k) { FixedIsHidden(r, k); }
    assert Only(args.fields, s.properties.Keys) == args.fields;
  }

  /** Every argument meets, as a number, each upstream bound that the projection lost. */
  ghost predicate ArgumentsKept(r: Restriction, up: Schema, m: map<string, Value>) {
    forall k :: k in m && Exposes(r, k) && k in up.properties && Constraints(r, k).Obj? ==>
                  UpstreamKept(up.properties[k], Read(Constraints(r, k).fields), m[k])
  }

  /**
   * What is forwarded, whatever its numbers, satisfies the closed upstream schema exactly when every
   * argument meets upstream and no fixed value was judged on the zero branch, up to an enum on the
   * root object: the projection drops one, and conformance then turns on it alone. Arguments off the
   * zero branch meet upstream exactly when they meet the bounds that were lost, as they do when none was.
   */
  lemma CallSound(rx: Engine, exposures: map<string, Exposure>, targets: set<string>, name: string, tool: Value,
                  args: Value)
    requires name in exposures && exposures[name].targetId in targets && exposures[name].publicName == name
    requires exposures[name].restriction.Some? && Derive(rx, exposures[name], tool).Ok?
    requires Resolve(rx, exposures, targets, name, Derive(rx, exposures[name], tool).value, args).Some?
    ensures args.Obj? && UpstreamSchema(rx, tool).Some?
    ensures InputSchema(rx, Derive(rx, exposures[name], tool).value).Some?
    ensures var e := exposures[name];
            var r, up := e.restriction.value, UpstreamSchema(rx, tool).value;
            var s := InputSchema(rx, Derive(rx, e, tool).value).value;
            var sent := Resolve(rx, exposures, targets, name, Derive(rx, e, tool).value, args).value.arguments;
            && sent == args.fields + FixedValues(r)
            && (ObjectConforms(rx, Exact, up, sent) <==>
                  ArgumentsMeet(up, s, args.fields) && MembersOrderOK(up, FixedValues(r)))
            && (OrderOK(s, args) ==> (ArgumentsMeet(up, s, args.fields) <==> ArgumentsKept(r, up, args.fields)))
            && (OrderOK(s, args) && MergesDecided(r, UpstreamProperties(tool)) ==> ArgumentsKept(r, up, args.fields))
            && (Conforms(rx, Exact, up, Obj(sent)) <==>
                  ObjectConforms(rx, Exact, up, sent) && EnumOk(up.enumValues, Obj(sent)))
  {
    hide Compile;
    hide Conforms;
    hide Derive;
    hide Resolve;
    hide UpstreamSchema;
    hide UpstreamProperties;
    hide InputSchema;
    hide Permitted;
    hide MergesDecided;
    hide OrderOK;
    hide Admitted;
    hide AllConform;
    hide ArgumentsKept;
    hide ArgumentsMeet;
    hide MembersOrderOK;
    hide ObjectConforms;
    hide EnumOk;
    hide FixedValues;
    hide Exposes;
    hide RuleFor;
    var e := exposures[name];
    var r := e.restriction.value;
    CallExact(rx, exposures, targets, name, tool, args);
    CallRebuilds(rx, exposures, targets, name, tool, args);
    UpstreamParts(rx, tool);
    FixedConform(rx, e, tool);
    var up, props := UpstreamSchema(rx, tool).value, UpstreamProperties(tool);
    var s := InputSchema(rx, Derive(rx, e, tool).value).value;
    var fixed := FixedValues(r);
    AcceptedMembers(rx, up, fixed);
    ArgumentsForwarded(rx, e, tool, args.fields);
    ForwardedObject(rx, up, args.fields, fixed);
    if OrderOK(s, args) {
      AdmittedKept(rx, r, up, props, args.fields);
      if MergesDecided(r, props) { DecidedKept(rx, r, up, props, args.fields); }
    }
    RootConforms(rx, Exact, up, args.fields + fixed);
  }

  /** Arguments accepted by the published schema conform to their upstream properties exactly if they meet upstream. */
  lemma ArgumentsForwarded(rx: Engine, e: Exposure, tool: Value, m: map<string, Value>)
    requires e.restriction.Some? && Derive(rx, e, tool).Ok?
    requires InputSchema(rx, Derive(rx, e, tool).value).Some?
    requires Conforms(rx, Coded, InputSchema(rx, Derive(rx, e, tool).value).value, Obj(m))
    ensures UpstreamSchema(rx, tool).Some?
    ensures var up, s := UpstreamSchema(rx, tool).value, InputSchema(rx, Derive(rx, e, tool).value).value;
            AllConform(rx, up, m) <==> ArgumentsMeet(up, s, m)
  {
    hide Compile;
    hide Conforms;
    hide Derive;
    hide UpstreamSchema;
    hide UpstreamProperties;
    hide InputSchema;
    hide Intersect;
    hide MeetsUpstream;
    hide EnumOk;
    hide Exposes;
    hide RuleFor;
    DerivedSchema(rx, e, tool);
    UpstreamParts(rx, tool);
    var props := UpstreamProperties(tool);
    var up, s := UpstreamSchema(rx, tool).value, InputSchema(rx, Derive(rx, e, tool).value).value;
    RootConforms(rx, Coded, s, m);
    forall k | k in m
      ensures k in up.properties && k in s.properties
      ensures Conforms(rx, Exact, up.properties[k], m[k]) <==> MeetsUpstream(up.properties[k], s.properties[k], m[k])
    {
      ArgumentForwarded(rx, props[k], Constraints(e.restriction.value, k), s.properties[k], m[k]);
    }
  }

  lemma ArgumentForwarded(rx: Engine, property: Value, constraint: Value, t: Schema, v: Value)
    requires Compile(rx, property, false, 2, false).Some?
    requires Intersect(rx, property, constraint).Some?
    requires Compile(rx, Intersect(rx, property, constraint).value, false, 2, false).Some?
    requires t == Compile(rx, Intersect(rx, property, constraint).value, false, 2, false).value
                    .(publicJson := t.publicJson)
    requires Conforms(rx, Coded, t, v)
    ensures var p := Compile(rx, property, false, 2, false).value;
            Conforms(rx, Exact, p, v) <==> MeetsUpstream(p, t, v)
  {
    hide Compile;
    hide Conforms;
    hide Intersect;
    hide OrderOK;
    var s := Compile(rx, Intersect(rx, property, constraint).value, false, 2, false).value;
    ConformsIgnoresJson(rx, Coded, s, t.publicJson, v);
    PropertyForwarded(rx, property, constraint, v);
  }

  lemma AdmittedKept(rx: Engine, r: Restriction, up: Schema, props: map<string, Value>, m: map<string, Value>)
    requires Admitted(rx, r, up, props, m)
    ensures AllConform(rx, up, m) <==> ArgumentsKept(r, up, m)
  {
    hide Conforms;
    hide EnforcedAt;
    hide Exposes;
    hide RuleFor;
    hide Read;
    hide UpstreamKept;
    forall k | k in m
      ensures Constraints(r, k).Obj?
      ensures Conforms(rx, Exact, up.properties[k], m[k]) <==>
                UpstreamKept(up.properties[k], Read(Constraints(r, k).fields), m[k])
    {
      EnforcedAtKept(rx, up.properties[k], Constraints(r, k), m[k]);
    }
  }

  lemma DecidedKept(rx: Engine, r: Restriction, up: Schema, props: map<string, Value>, m: map<string, Value>)
    requires CompiledProperties(rx, up.properties, props, 1, false)
    requires MergesDecided(r, props) && Admitted(rx, r, up, props, m)
    ensures ArgumentsKept(r, up, m)
  {
    hide Compile;
    hide Conforms;
    hide Exposes;
    hide RuleFor;
    hide Read;
    hide Enforced;
    hide MergeExact;
    hide UpstreamKept;
    hide NoneLost;
    forall k | k in m ensures UpstreamKept(up.properties[k], Read(Constraints(r, k).fields), m[k]) {
      CompiledIsObject(rx, props[k]);
      NoneLostIsExact(rx, props[k], Constraints(r, k));
      EnforcedKept(rx, up.properties[k], Read(Constraints(r, k).fields), m[k]);
    }
  }

  lemma FixedIsHidden(r: Restriction, k: string)
    requires k in FixedValues(r)
    ensures !Exposes(r, k)
  {}

  // A root enum that the projection drops: only an object with a member `a` is allowed upstream.

  const ENUM_ROOT: map<string, Value> :=
    map["type" := Str("object"), "properties" := Obj(map[]), "required" := Arr([]),
        "additionalProperties" := Bool(false),
        "enum" := Arr([Obj(map["a" := Null])])]

  const ENUM_TOOL: map<string, Value> := map["name" := Str("t"), "inputSchema" := Obj(ENUM_ROOT)]

  const OPEN_EXPOSURE: Exposure := Exposure("t", "target", "t", None, Some(Restriction(true, map[])))

  lemma EnumRootReads()
    ensures Read(ENUM_ROOT) ==
              NO_KEYWORDS.(typ := Some(Str("object")), properties := Some(Obj(map[])), required := Some(Arr([])),
                           additional := Some(Bool(false)), enums := Some(Arr([Obj(map["a" := Null])])))
    ensures ENUM_ROOT.Keys <= ALLOWED && PropertiesOf(Obj(ENUM_ROOT)) == map[] && ItemsOf(Obj(ENUM_ROOT)).None?
    ensures CloseRoot(ENUM_ROOT) == Some(ENUM_ROOT)
  {}

  lemma EnumRootBounded()
    ensures BoundedObject(Obj(ENUM_ROOT))
  {
    forall k | k in ENUM_ROOT ensures !ExceedsDepth(ENUM_ROOT[k], 2) && !ContainsNul(ENUM_ROOT[k]) {
      assert ENUM_ROOT[k] in {Str("object"), Obj(map[]), Arr([]), Bool(false), Arr([Obj(map["a" := Null])])};
    }
  }

  lemma EnumRootCompiles(rx: Engine)
    ensures Compile(rx, Obj(ENUM_ROOT), true, 1, false).Some?
    ensures Compile(rx, Obj(ENUM_ROOT), true, 1, false).value.enumValues == [Obj(map["a" := Null])]
    ensures Compile(rx, Obj(ENUM_ROOT), true, 1, false).value.kind == ObjectKind
  {
    hide Compile;
    hide Canonical;
    hide Read;
    EnumRootReads();
    CompileFromParts(rx, Obj(ENUM_ROOT), true, 1, false);
  }

  lemma EnumToolDerives(rx: Engine)
    ensures ClosedInput(Obj(ENUM_TOOL)) == Some(Obj(ENUM_ROOT))
    ensures Derive(rx, OPEN_EXPOSURE, Obj(ENUM_TOOL)).Ok?
  {
    hide Compile;
    hide Canonical;
    hide BoundedObject;
    hide CloseRoot;
    hide Root;
    EnumRootReads();
    EnumRootBounded();
    EnumRootCompiles(rx);
    var tool := Obj(ENUM_TOOL);
    assert ClosedInput(tool) == Some(Obj(ENUM_ROOT));
    var r, up := OPEN_EXPOSURE.restriction.value, UpstreamSchema(rx, tool).value;
    assert Outcomes(rx, r, up, UpstreamProperties(tool)) == map[];
    assert Failing(map[]) == {};
    PublicRootCompiles(rx, r, up, UpstreamProperties(tool));
  }

  /** The empty call is forwarded, and the upstream schema does not accept it. */
  lemma RootEnumWitness(rx: Engine)
    ensures Derive(rx, OPEN_EXPOSURE, Obj(ENUM_TOOL)).Ok?
    ensures var call := Resolve(rx, map["t" := OPEN_EXPOSURE], {"target"}, "t",
                                Derive(rx, OPEN_EXPOSURE, Obj(ENUM_TOOL)).value, Obj(map[]));
            && call == Some(Call("target", "t", map[]))
            && UpstreamSchema(rx, Obj(ENUM_TOOL)).Some?
            && !Conforms(rx, Exact, UpstreamSchema(rx, Obj(ENUM_TOOL)).value, Obj(map[]))
  {
    hide Compile;
    hide Canonical;
    hide Derive;
    hide Resolve;
    hide ClosedInput;
    hide Exposes;
    hide Intersect;
    var tool := Obj(ENUM_TOOL);
    EnumToolDerives(rx);
    EnumRootReads();
    EnumRootCompiles(rx);
    DerivedSchema(rx, OPEN_EXPOSURE, tool);
    RootConforms(rx, Coded, InputSchema(rx, Derive(rx, OPEN_EXPOSURE, tool).value).value, map[]);
    assert EnumOk([], Obj(map[]));
    ResolveDerived(rx, map["t" := OPEN_EXPOSURE], {"target"}, "t", tool, Obj(map[]));
    assert FixedValues(OPEN_EXPOSURE.restriction.value) == map[];
    RootConforms(rx, Exact, UpstreamSchema(rx, tool).value, map[]);
  }

  // A number that the gate lets past an upstream minimum of 0.

  const NUMBER_ROOT: map<string, Value> :=
    map["type" := Str("object"), "properties" := Obj(map["x" := Minimum(Int(0))]), "required" := Arr([]),
        "additionalProperties" := Bool(false)]

  const NUMBER_TOOL: map<string, Value> := map["name" := Str("t"), "inputSchema" := Obj(NUMBER_ROOT)]

  lemma NumberRootReads()
    ensures Read(NUMBER_ROOT) ==
            NO_KEYWORDS.(typ := Some(Str("object")), properties := Some(Obj(map["x" := Minimum(Int(0))])),
                         required := Some(Arr([])), additional := Some(Bool(false)))
    ensures NUMBER_ROOT.Keys <= ALLOWED && PropertiesOf(Obj(NUMBER_ROOT)) == map["x" := Minimum(Int(0))]
    ensures ItemsOf(Obj(NUMBER_ROOT)).None? && CloseRoot(NUMBER_ROOT) == Some(NUMBER_ROOT)
  {
    hide Minimum;
  }

  lemma MinimumBounded(n: Number, depth: nat)
    requires depth < MAX_SCHEMA_DEPTH
    ensures !ExceedsDepth(Minimum(n), depth) && !ContainsNul(Minimum(n))
  {
    var m := Minimum(n).fields;
    forall k | k in m ensures !ExceedsDepth(m[k], depth + 1) && !ContainsNul(m[k]) {
      assert m[k] in {Str("number"), Num(n)};
    }
  }

  lemma NumberRootBounded()
    ensures BoundedObject(Obj(NUMBER_ROOT))
  {
    hide Minimum;
    MinimumBounded(Int(0), 3);
    var props := map["x" := Minimum(Int(0))];
    assert !ExceedsDepth(Obj(props), 2) && !ContainsNul(Obj(props));
    forall k | k in NUMBER_ROOT ensures !ExceedsDepth(NUMBER_ROOT[k], 2) && !ContainsNul(NUMBER_ROOT[k]) {
      assert NUMBER_ROOT[k] in {Str("object"), Obj(props), Arr([]), Bool(false)};
    }
  }

  lemma NumberRootCompiles(rx: Engine)
    ensures ClosedInput(Obj(NUMBER_TOOL)) == Some(Obj(NUMBER_ROOT))
    ensures UpstreamSchema(rx, Obj(NUMBER_TOOL)).Some?
    ensures UpstreamProperties(Obj(NUMBER_TOOL)) == map["x" := Minimum(Int(0))]
    ensures UpstreamSchema(rx, Obj(NUMBER_TOOL)).value.required == {}
  {
    hide Compile;
    hide Canonical;
    hide Read;
    hide BoundedObject;
    hide CloseRoot;
    hide Minimum;
    NumberRootReads();
    NumberRootBounded();
    MinimumCompiles(rx, Int(0));
    NumberHeader(rx);
    CompileFromParts(rx, Obj(NUMBER_ROOT), true, 1, false);
  }

  lemma NumberHeader(rx: Engine)
    ensures HeaderOk(rx, Read(NUMBER_ROOT), true, false) && NamesOf(Read(NUMBER_ROOT).required) == {}
  {
    hide Minimum;
    hide Read;
    NumberRootReads();
  }

  lemma NumberOutcome(rx: Engine)
    ensures var o := OutcomeOf(rx, RuleFor(OPEN_EXPOSURE.restriction.value, "x"), false, Minimum(Int(0)));
            o == Public(Minimum(Int(0)), false)
  {
    hide Compile;
    hide Canonical;
    hide Minimum;
    hide Mergeable;
    hide Merged;
    MinimumReads(Int(0));
    MinimumTyped(Int(0));
    EmptyMerge(Minimum(Int(0)));
    MinimumPublished(Int(0));
    MinimumCompiles(rx, Int(0));
  }

  lemma MinimumTyped(n: Number)
    ensures Get(Minimum(n).fields, "type") == Some(Str("number"))
  {}

  lemma NumberIntersect(rx: Engine)
    ensures RuleFor(OPEN_EXPOSURE.restriction.value, "x") == Some(Expose(Obj(map[]), false))
    ensures Intersect(rx, Minimum(Int(0)), Obj(map[])) == Some(Minimum(Int(0)))
  {
    hide Compile;
    hide Canonical;
    hide Minimum;
    hide Mergeable;
    hide Merged;
    MinimumTyped(Int(0));
    EmptyMerge(Minimum(Int(0)));
    MinimumPublished(Int(0));
    MinimumCompiles(rx, Int(0));
  }

  lemma OneOutcome(rx: Engine, r: Restriction, up: Schema, key: string, property: Value)
    requires !OutcomeOf(rx, RuleFor(r, key), key in up.required, property).Blocked?
    ensures Failing(Outcomes(rx, r, up, map[key := property])) == {}
  {
    hide OutcomeOf;
    hide RuleFor;
  }

  lemma NumberToolDerives(rx: Engine)
    ensures Derive(rx, OPEN_EXPOSURE, Obj(NUMBER_TOOL)).Ok?
  {
    hide Compile;
    hide Canonical;
    hide OutcomeOf;
    hide Outcomes;
    hide Failing;
    hide PublicProperties;
    hide PublicRequired;
    hide PublicTool;
    hide UpstreamSchema;
    hide UpstreamProperties;
    hide Root;
    hide RuleFor;
    hide Minimum;
    NumberRootCompiles(rx);
    NumberOutcome(rx);
    var tool := Obj(NUMBER_TOOL);
    var r, up := OPEN_EXPOSURE.restriction.value, UpstreamSchema(rx, tool).value;
    OneOutcome(rx, r, up, "x", Minimum(Int(0)));
    PublicRootCompiles(rx, r, up, UpstreamProperties(tool));
  }

  /** The two schemas of a tool with one property, a number whose minimum is 0. */
  ghost predicate OneNumber(rx: Engine, up: Schema, s: Schema) {
    var x := Compile(rx, Minimum(Int(0)), false, 2, false);
    && x.Some? && s.kind == up.kind == ObjectKind && s.enumValues == [] && s.required == {} && up.required == {}
    && s.properties.Keys == up.properties.Keys == {"x"}
    && up.properties["x"] == x.value && s.properties["x"] == x.value.(publicJson := s.properties["x"].publicJson)
  }

  /** Open exposure publishes such a property as it is. */
  lemma NumberSchemas(rx: Engine, tool: Value)
    requires UpstreamSchema(rx, tool).Some? && Derive(rx, OPEN_EXPOSURE, tool).Ok?
    requires UpstreamProperties(tool) == map["x" := Minimum(Int(0))]
    requires UpstreamSchema(rx, tool).value.required == {}
    ensures InputSchema(rx, Derive(rx, OPEN_EXPOSURE, tool).value).Some?
    ensures OneNumber(rx, UpstreamSchema(rx, tool).value, InputSchema(rx, Derive(rx, OPEN_EXPOSURE, tool).value).value)
  {
    hide Compile;
    hide Derive;
    hide UpstreamSchema;
    hide UpstreamProperties;
    hide InputSchema;
    hide Intersect;
    hide Minimum;
    hide RuleFor;
    NumberIntersect(rx);
    DerivedSchema(rx, OPEN_EXPOSURE, tool);
    UpstreamParts(rx, tool);
  }

  lemma NumberJudged(rx: Engine, rule: Rule, t: Schema, n: Number)
    requires var x := Compile(rx, Minimum(Int(0)), false, 2, false);
             x.Some? && t.kind == ObjectKind && t.required == {} && t.properties.Keys == {"x"}
             && t.properties["x"] == x.value.(publicJson := t.properties["x"].publicJson)
    ensures ObjectConforms(rx, rule, t, map["x" := Num(n)]) <==> LowOk(rule, n, Some(Int(0)))
  {
    hide Compile;
    hide Conforms;
    hide Minimum;
    hide LowOk;
    MinimumAccepts(rx, rule, Int(0), n);
    var s := Compile(rx, Minimum(Int(0)), false, 2, false).value;
    ConformsIgnoresJson(rx, rule, s, t.properties["x"].publicJson, Num(n));
  }

  lemma NegativeForwarded(rx: Engine, up: Schema, s: Schema, args: map<string, Value>)
    requires OneNumber(rx, up, s) && args == map["x" := Num(Float(-0.5))]
    ensures Conforms(rx, Coded, s, Obj(args)) && !Conforms(rx, Exact, up, Obj(args))
    ensures Only(args, s.properties.Keys) + FixedValues(OPEN_EXPOSURE.restriction.value) == args
  {
    hide Compile;
    hide Conforms;
    hide ObjectConforms;
    hide Minimum;
    NumberJudged(rx, Coded, s, Float(-0.5));
    NumberJudged(rx, Exact, up, Float(-0.5));
    RootConforms(rx, Coded, s, args);
    RootConforms(rx, Exact, up, args);
    EnumOkEmpty(Obj(args));
  }

  /** Under an upstream minimum of 0 the call with -0.5 is forwarded, and the upstream schema does not accept it. */
  lemma NegativeForwardedWitness(rx: Engine)
    ensures Derive(rx, OPEN_EXPOSURE, Obj(NUMBER_TOOL)).Ok?
    ensures var args := map["x" := Num(Float(-0.5))];
            var call := Resolve(rx, map["t" := OPEN_EXPOSURE], {"target"}, "t",
                                Derive(rx, OPEN_EXPOSURE, Obj(NUMBER_TOOL)).value, Obj(args));
            && call == Some(Call("target", "t", args))
            && UpstreamSchema(rx, Obj(NUMBER_TOOL)).Some?
            && !Conforms(rx, Exact, UpstreamSchema(rx, Obj(NUMBER_TOOL)).value, Obj(args))
  {
    hide Compile;
    hide Conforms;
    hide Derive;
    hide Resolve;
    hide UpstreamSchema;
    hide UpstreamProperties;
    hide InputSchema;
    hide Minimum;
    hide OneNumber;
    hide FixedValues;
    hide Only;
    var tool := Obj(NUMBER_TOOL);
    var args := map["x" := Num(Float(-0.5))];
    NumberToolDerives(rx);
    NumberRootCompiles(rx);
    NumberSchemas(rx, tool);
    var up, public := UpstreamSchema(rx, tool).value, Derive(rx, OPEN_EXPOSURE, tool).value;
    NegativeForwarded(rx, up, InputSchema(rx, public).value, args);
    ResolveDerived(rx, map["t" := OPEN_EXPOSURE], {"target"}, "t", tool, Obj(args));
  }

  // The projection and the call as the source runs them.

  method ApplyRule(rx: Engine, rule: Option<PropertyRule>, upstreamRequired: bool, property: Value) returns (o: Outcome)
    ensures o == OutcomeOf(rx, rule, upstreamRequired, property)
  {
    hide Compile;
    hide Conforms;
    hide Intersect;
    match rule
    case None => return if upstreamRequired then Blocked(RequiredPropertyUnsatisfied) else Hidden;
    case Some(Expose(constraints, required)) =>
      var public := IntersectProperty(rx, property, constraints);
      if public.None? { return Blocked(SchemaConstraintConflict); }
      var compiled := Compiler.CompileSchema(rx, public.value, false, 2, false);
      if compiled.None? { return Blocked(UnsupportedSchema); }
      return Public(Described(public.value, constraints), upstreamRequired || required);
    case Some(Fixed(value)) =>
      var compiled := Compiler.CompileSchema(rx, property, false, 2, false);
      if compiled.None? { return Blocked(UnsupportedSchema); }
      var checked := Validator.ValidateInput(rx, compiled.value, value);
      if checked.Err? { return Blocked(FixedValueInvalid); }
      return Hidden;
    case Some(Omit) => return if upstreamRequired then Blocked(RequiredPropertyUnsatisfied) else Hidden;
  }

  lemma FirstFailing(names: set<string>, i: nat, failing: set<string>)
    requires i < |names| && failing <= names
    requires Text.Sorted(names)[i] in failing
    requires forall j :: 0 <= j < i ==> Text.Sorted(names)[j] !in failing
    ensures Text.Least(failing) == Text.Sorted(names)[i]
  {
    hide Text.Sorted;
    hide Text.Least;
    hide Text.Le;
    var sorted := Text.Sorted(names);
    var m := Text.Least(failing);
    assert m in sorted;
    var j :| 0 <= j < |sorted| && sorted[j] == m;
    if i < j {
      Text.SortedAscends(names, i, j);
      Text.LeAntisymmetric(m, sorted[i]);
    }
  }

  lemma OutcomeStep(outcomes: map<string, Outcome>, done: set<string>, name: string)
    requires name in outcomes && name !in done
    ensures var now, then' := Only(outcomes, done), Only(outcomes, done + {name});
            && PublicProperties(then') ==
               (if outcomes[name].Public? then PublicProperties(now)[name := outcomes[name].property]
                else PublicProperties(now))
            && PublicRequired(then') ==
               (if outcomes[name].Public? && outcomes[name].required then PublicRequired(now) + {name}
                else PublicRequired(now))
  {}

  /** The property loop: properties in key order, stopping at the first one that is blocked. */
  method ProjectProperties(rx: Engine, r: Restriction, up: Schema, props: map<string, Value>)
    returns (result: Result<(map<string, Value>, set<string>), Issue>)
    ensures var outcomes := Outcomes(rx, r, up, props);
            result == if Failing(outcomes) != {} then Err(outcomes[Text.Least(Failing(outcomes))].issue)
                      else Ok((PublicProperties(outcomes), PublicRequired(outcomes)))
  {
    hide OutcomeOf;
    hide RuleFor;
    hide PublicProperties;
    hide PublicRequired;
    hide Only;
    ghost var outcomes := Outcomes(rx, r, up, props);
    var names := Text.Sorted(props.Keys);
    var publicProperties: map<string, Value> := map[];
    var required: set<string> := {};
    ghost var done: set<string> := {};
    OnlyNone(outcomes);
    for i := 0 to |names|
      invariant forall j :: 0 <= j < |names| ==> (names[j] in done <==> j < i)
      invariant forall j :: 0 <= j < i ==> names[j] !in Failing(outcomes)
      invariant publicProperties == PublicProperties(Only(outcomes, done))
      invariant required == PublicRequired(Only(outcomes, done))
    {
      var name := names[i];
      assert name in names;
      var o := ApplyRule(rx, RuleFor(r, name), name in up.required, props[name]);
      OutcomeStep(outcomes, done, name);
      match o {
        case Blocked(issue) =>
          FirstFailing(props.Keys, i, Failing(outcomes));
          return Err(issue);
        case Hidden =>
        case Public(property, require) =>
          publicProperties := publicProperties[name := property];
          if require { required := required + {name}; }
      }
      done := done + {name};
      forall j | 0 <= j < |names| ensures names[j] in done <==> j < i + 1 {
        if i < j { Text.SortedAscends(props.Keys, i, j); }
      }
    }
    forall k | k in props ensures k in done && k !in Failing(outcomes) {
      assert k in names;
    }
    OnlyEnds(outcomes, done);
    assert Failing(outcomes) == {};
    return Ok((publicProperties, required));
  }

  lemma OnlyNone(outcomes: map<string, Outcome>)
    ensures PublicProperties(Only(outcomes, {})) == map[] && PublicRequired(Only(outcomes, {})) == {}
  {}

  method DeriveTool(rx: Engine, e: Exposure, tool: Value) returns (r: Result<Value, Issue>)
    ensures r == Derive(rx, e, tool)
  {
    hide Compile;
    hide Canonical;
    hide Outcomes;
    hide Failing;
    hide Root;
    hide CloseRoot;
    if !tool.Obj? { return Err(UnsupportedSchema); }
    if Get(tool.fields, "name") != Some(Str(e.upstreamTool)) { return Err(ToolNotFound); }
    if e.restriction.None? { return Ok(Canonical(Obj(tool.fields["name" := Str(e.publicName)]))); }
    var restriction := e.restriction.value;
    if "inputSchema" !in tool.fields || !BoundedObject(tool.fields["inputSchema"]) { return Err(UnsupportedSchema); }
    var closed := CloseRoot(tool.fields["inputSchema"].fields);
    if closed.None? { return Err(UnsupportedSchema); }
    var compiled := Compiler.CompileSchema(rx, Obj(closed.value), true, 1, false);
    if compiled.None? { return Err(UnsupportedSchema); }
    var properties := PropertiesOf(Obj(closed.value));
    if !(restriction.properties.Keys <= properties.Keys) { return Err(PropertyNotInUpstream); }
    var projected := ProjectProperties(rx, restriction, compiled.value, properties);
    if projected.Err? { return Err(projected.error); }
    var (publicProperties, required) := projected.value;
    var public := Compiler.CompileSchema(rx, Obj(Root(publicProperties, required)), true, 1, false);
    if public.None? { return Err(SchemaConstraintConflict); }
    return Ok(Canonical(Obj(PublicTool(e, tool.fields, public.value.publicJson))));
  }

  method ResolveCall(rx: Engine, exposures: map<string, Exposure>, targets: set<string>, name: string, tool: Value,
                     args: Value)
    returns (r: Option<Call>)
    ensures r == Resolve(rx, exposures, targets, name, tool, args)
  {
    hide Compile;
    hide Conforms;
    hide PropertiesOf;
    if name !in exposures || exposures[name].targetId !in targets { return None; }
    var e := exposures[name];
    if !tool.Obj? || Get(tool.fields, "name") != Some(Str(name)) || !args.Obj? { return None; }
    if e.restriction.None? { return Some(Call(e.targetId, e.upstreamTool, args.fields)); }
    if "inputSchema" !in tool.fields { return None; }
    var schema := tool.fields["inputSchema"];
    var compiled := Compiler.CompileSchema(rx, schema, true, 1, false);
    if compiled.None? { return None; }
    var checked := Validator.ValidateInput(rx, compiled.value, args);
    if checked.Err? { return None; }
    var forwarded := Only(args.fields, PropertiesOf(schema).Keys);
    forwarded := InsertFixed(e.restriction.value, forwarded);
    return Some(Call(e.targetId, e.upstreamTool, forwarded));
  }

  lemma FixedStep(r: Restriction, done: set<string>, name: string)
    requires name in r.properties && name !in done
    ensures Only(FixedValues(r), done + {name}) ==
            if r.properties[name].Fixed? then Only(FixedValues(r), done)[name := r.properties[name].value]
            else Only(FixedValues(r), done)
  {}

  method InsertFixed(r: Restriction, kept: map<string, Value>) returns (forwarded: map<string, Value>)
    ensures forwarded == kept + FixedValues(r)
  {
    hide FixedValues;
    hide Only;
    var names := Text.Sorted(r.properties.Keys);
    forwarded := kept;
    ghost var done: set<string> := {};
    OnlyEnds(FixedValues(r), {});
    for i := 0 to |names|
      invariant forall j :: 0 <= j < |names| ==> (names[j] in done <==> j < i)
      invariant forwarded == kept + Only(FixedValues(r), done)
    {
      assert names[i] in names;
      FixedStep(r, done, names[i]);
      match r.properties[names[i]] {
        case Fixed(value) => forwarded := forwarded[names[i] := value];
        case Expose(_, _) =>
        case Omit =>
      }
      done := done + {names[i]};
      forall j | 0 <= j < |names| ensures names[j] in done <==> j < i + 1 {
        if i < j { Text.SortedAscends(r.properties.Keys, i, j); }
      }
    }
    FixedKeys(r);
    forall k | k in FixedValues(r) ensures k in done { assert k in names; }
    OnlyEnds(FixedValues(r), done);
  }

  lemma FixedKeys(r: Restriction)
    ensures FixedValues(r).Keys <= r.properties.Keys
  {}
}
