/** Version-3 restrictions in the administrator's terms: what is published and what is forwarded, name by name. */
module PolicyV3 {
  import opened Json
  import opened Schemas
  import opened Republish
  import opened Intersection
  import opened PublicRoot
  import opened ProjectionV3
  import opened SchemaMeaning

  // The upstream definition and the restriction, field by field.

  ghost predicate UpstreamRequires(tool: Value, name: string) {
    && tool.Obj? && "inputSchema" in tool.fields && tool.fields["inputSchema"].Obj?
    && "required" in tool.fields["inputSchema"].fields
    && tool.fields["inputSchema"].fields["required"].Arr?
    && Str(name) in tool.fields["inputSchema"].fields["required"].items
  }

  /** A listed property is public if its rule exposes it, an unlisted one if the restriction exposes those. */
  ghost predicate Published(r: Restriction, name: string) {
    if name in r.properties then r.properties[name].Expose? else r.exposeUnlisted
  }

  /** A rule of its own may require a property; otherwise it is required as upstream requires it. */
  ghost predicate RequiresName(r: Restriction, tool: Value, name: string) {
    UpstreamRequires(tool, name) || (name in r.properties && r.properties[name].Expose? && r.properties[name].required)
  }

  ghost predicate Fixes(r: Restriction, name: string) {
    name in r.properties && r.properties[name].Fixed?
  }

  /** The root as it is closed: nothing upstream says is changed, and what is missing is empty and closed. */
  lemma CloseRootMeans(m: map<string, Value>)
    ensures CloseRoot(m).Some? <==> ("additionalProperties" in m ==> m["additionalProperties"].Bool?)
    ensures CloseRoot(m).Some? ==>
              var n := CloseRoot(m).value;
              && n.Keys == m.Keys + {"properties", "required", "additionalProperties"}
              && (forall k :: k in m && k != "additionalProperties" ==> n[k] == m[k])
              && ("properties" !in m ==> n["properties"] == Obj(map[]))
              && ("required" !in m ==> n["required"] == Arr([]))
              && n["additionalProperties"] == Bool(false)
  {}

  lemma ClosedKeeps(rx: Engine, tool: Value)
    requires UpstreamSchema(rx, tool).Some?
    ensures UpstreamProperties(tool) == UpstreamMembers(tool)
    ensures forall k :: k in UpstreamSchema(rx, tool).value.required <==> UpstreamRequires(tool, k)
  {
    hide Compile;
    hide CloseRoot;
    hide HeaderOk;
    hide Read;
    hide ExceedsDepth;
    hide ContainsNul;
    var m := tool.fields["inputSchema"].fields;
    var n := CloseRoot(m).value;
    CloseRootMeans(m);
    CompileAccepted(rx, Obj(n), true, 1, false);
    CompileFromParts(rx, Obj(n), true, 1, false);
    RequiredOf(rx, n);
    var t := UpstreamSchema(rx, tool).value;
    forall k ensures k in t.required <==> UpstreamRequires(tool, k) {
      assert Str(k).s == k;
    }
  }

  lemma RequiredOf(rx: Engine, n: map<string, Value>)
    requires HeaderOk(rx, Read(n), true, false)
    ensures KindOf(Read(n)).Some?
    ensures "required" in n && n["required"].Arr?
    ensures forall k :: k in NamesOf(Read(n).required) <==> Str(k) in n["required"].items
  {
    forall k | Str(k) in n["required"].items ensures k in NamesOf(Read(n).required) { assert Str(k).s == k; }
  }

  lemma RuleMeans(r: Restriction, name: string)
    ensures Exposes(r, name) <==> Published(r, name)
    ensures Published(r, name) ==>
              && Constraints(r, name) == (if name in r.properties then r.properties[name].constraints else Obj(map[]))
              && (RuleFor(r, name).value.required <==> name in r.properties && r.properties[name].required)
    ensures Fixes(r, name) <==> RuleFor(r, name).Some? && RuleFor(r, name).value.Fixed?
    ensures Fixes(r, name) ==> RuleFor(r, name) == Some(r.properties[name])
  {}

  // What is published.

  /** The schema that a restriction publishes for one upstream property. */
  ghost predicate PublishedAs(rx: Engine, r: Restriction, name: string, upstream: Value, public: Value) {
    if name in r.properties then
      && r.properties[name].Expose?
      && var limits := r.properties[name].constraints;
      && var merged := Intersect(rx, upstream, limits);
      && merged.Some? && merged.value.Obj? && public.Obj?
      && (forall k :: k != "description" ==> Get(public.fields, k) == Get(merged.value.fields, k))
      && Get(public.fields, "description") ==
         if limits.Obj? && "description" in limits.fields && limits.fields["description"].Str?
         then Some(limits.fields["description"]) else Get(merged.value.fields, "description")
    else public == Canonical(upstream)
  }

  /**
   * The public input schema, key by key: a closed object whose properties are exactly the published
   * ones. A listed one is its upstream property within its own limits, under its own description; an
   * unlisted one is its upstream property as it is.
   */
  ghost predicate PublicInput(rx: Engine, r: Restriction, tool: Value, input: Value) {
    && input.Obj?
    && input.fields.Keys == {"type", "properties", "required", "additionalProperties"}
    && input.fields["type"] == Str("object") && input.fields["additionalProperties"] == Bool(false)
    && input.fields["properties"].Obj? && input.fields["required"].Arr?
    && var public, upstream := input.fields["properties"].fields, UpstreamMembers(tool);
    && (forall k :: k in public <==> k in upstream && Published(r, k))
    && (forall k :: Str(k) in input.fields["required"].items <==>
                    k in upstream && Published(r, k) && RequiresName(r, tool, k))
    && (forall k :: k in public ==> PublishedAs(rx, r, k, upstream[k], public[k]))
  }

  lemma DescribedAs(rx: Engine, upstream: Value, limits: Value)
    requires Intersect(rx, upstream, limits).Some?
    ensures var merged := Intersect(rx, upstream, limits).value;
            var public := Described(merged, limits);
            && merged.Obj? && public.Obj?
            && (forall k :: k != "description" ==> Get(public.fields, k) == Get(merged.fields, k))
            && Get(public.fields, "description") ==
               if limits.Obj? && "description" in limits.fields && limits.fields["description"].Str?
               then Some(limits.fields["description"]) else Get(merged.fields, "description")
  {
    hide Compile;
    hide Mergeable;
    hide PutMerged;
    assert Canonical(Merged(upstream, limits)) == Obj(CanonicalFields(Merged(upstream, limits).fields));
  }

  lemma UnlistedAs(rx: Engine, upstream: Value)
    requires Intersect(rx, upstream, Obj(map[])).Some?
    ensures Described(Intersect(rx, upstream, Obj(map[])).value, Obj(map[])) == Canonical(upstream)
  {
    hide Compile;
    hide Canonical;
    hide MergeAllowed;
    hide PutMerged;
    hide Read;
    TypedProperty(upstream);
    EmptyMerge(upstream);
  }

  lemma TypedProperty(upstream: Value)
    requires Mergeable(upstream, Obj(map[]))
    ensures upstream.Obj? && Get(upstream.fields, "type").Some? && Get(upstream.fields, "type").value.Str?
  {
    hide MergeAllowed;
  }

  lemma OutcomePublished(rx: Engine, r: Restriction, tool: Value, up: Schema, name: string, upstream: Value)
    requires !OutcomeOf(rx, RuleFor(r, name), name in up.required, upstream).Blocked?
    requires name in up.required <==> UpstreamRequires(tool, name)
    ensures var o := OutcomeOf(rx, RuleFor(r, name), name in up.required, upstream);
            && (o.Public? <==> Published(r, name))
            && (o.Public? ==> (o.required <==> RequiresName(r, tool, name)))
            && (o.Public? ==> PublishedAs(rx, r, name, upstream, o.property))
  {
    hide Compile;
    hide Conforms;
    hide Intersect;
    hide Described;
    hide RuleFor;
    hide Canonical;
    hide UpstreamRequires;
    RuleMeans(r, name);
    OutcomeKind(rx, RuleFor(r, name), name in up.required, upstream);
    if Published(r, name) {
      var limits := Constraints(r, name);
      DescribedAs(rx, upstream, limits);
      if name !in r.properties { UnlistedAs(rx, upstream); }
    }
  }

  lemma RootPublic(rx: Engine, r: Restriction, tool: Value, up: Schema)
    requires forall k :: k in up.required <==> UpstreamRequires(tool, k)
    requires Failing(Outcomes(rx, r, up, UpstreamMembers(tool))) == {}
    ensures var outcomes := Outcomes(rx, r, up, UpstreamMembers(tool));
            PublicInput(rx, r, tool, Obj(Root(PublicProperties(outcomes), PublicRequired(outcomes))))
  {
    hide OutcomeOf;
    hide RuleFor;
    hide NameArray;
    hide UpstreamMembers;
    hide UpstreamRequires;
    hide Published;
    hide RequiresName;
    hide PublishedAs;
    var upstream := UpstreamMembers(tool);
    var outcomes := Outcomes(rx, r, up, upstream);
    NamesArray(PublicRequired(outcomes));
    forall k | k in upstream
      ensures outcomes[k].Public? <==> Published(r, k)
      ensures outcomes[k].Public? ==> (outcomes[k].required <==> RequiresName(r, tool, k))
      ensures outcomes[k].Public? ==> PublishedAs(rx, r, k, upstream[k], outcomes[k].property)
    {
      assert k !in Failing(outcomes);
      OutcomePublished(rx, r, tool, up, k, upstream[k]);
    }
  }

  /** The derived tool beside its input schema: renamed, with the exposure's description, otherwise as upstream is. */
  ghost predicate PublicFields(e: Exposure, tool: map<string, Value>, public: map<string, Value>) {
    && Get(public, "name") == Some(Str(e.publicName))
    && Get(public, "description") ==
       (if e.description.Some? then Some(Str(e.description.value)) else CanonicalOption(Get(tool, "description")))
    && (forall k :: k !in {"name", "inputSchema", "description"} ==> Get(public, k) == CanonicalOption(Get(tool, k)))
  }

  /** What a restriction publishes, stated by its own fields and the upstream JSON alone. */
  lemma PublishedExactly(rx: Engine, e: Exposure, tool: Value)
    requires e.restriction.Some? && Derive(rx, e, tool).Ok?
    ensures tool.Obj? && Derive(rx, e, tool).value.Obj? && "inputSchema" in Derive(rx, e, tool).value.fields
    ensures var public := Derive(rx, e, tool).value.fields;
            && PublicInput(rx, e.restriction.value, tool, public["inputSchema"])
            && PublicFields(e, tool.fields, public)
  {
    hide Compile;
    hide Canonical;
    hide Root;
    hide Derive;
    hide UpstreamSchema;
    hide UpstreamProperties;
    hide UpstreamMembers;
    hide UpstreamRequires;
    hide Outcomes;
    hide Failing;
    hide PublicTool;
    hide PublicInput;
    hide PublicFields;
    var r := e.restriction.value;
    DerivedParts(rx, e, tool);
    ClosedKeeps(rx, tool);
    var up := UpstreamSchema(rx, tool).value;
    var outcomes := Outcomes(rx, r, up, UpstreamMembers(tool));
    PublicRootCompiles(rx, r, up, UpstreamMembers(tool));
    RootIsCanonical(rx, r, up, UpstreamMembers(tool));
    var root := Obj(Root(PublicProperties(outcomes), PublicRequired(outcomes)));
    RootPublic(rx, r, tool, up);
    PublicToolSchema(e, tool.fields, root);
    PublicToolFields(e, tool.fields, root);
  }

  lemma PublicToolFields(e: Exposure, tool: map<string, Value>, schema: Value)
    ensures var t := Canonical(Obj(PublicTool(e, tool, schema)));
            t.Obj? && PublicFields(e, tool, t.fields)
  {
    hide CanonicalFields;
    var m := PublicTool(e, tool, schema);
    assert Canonical(Obj(m)) == Obj(CanonicalFields(m));
    forall k ensures Get(CanonicalFields(m), k) == CanonicalOption(Get(m, k)) { GetCanonical(m, k); }
  }

  // When there is something to publish.

  /** One upstream property can be projected: it can be published, it accepts its fixed value, or it can be left out. */
  ghost predicate Projects(rx: Engine, r: Restriction, tool: Value, name: string, upstream: Value) {
    if Published(r, name) then
      var limits := if name in r.properties then r.properties[name].constraints else Obj(map[]);
      var merged := Intersect(rx, upstream, limits);
      merged.Some? && Supported(rx, merged.value, false, 2, false)
    else if Fixes(r, name) then
      Supported(rx, upstream, false, 2, false) && Satisfies(rx, Coded, upstream, r.properties[name].value)
    else !UpstreamRequires(tool, name)
  }

  lemma ProjectsOutcome(rx: Engine, r: Restriction, tool: Value, up: Schema, name: string, upstream: Value)
    requires name in up.required <==> UpstreamRequires(tool, name)
    ensures !OutcomeOf(rx, RuleFor(r, name), name in up.required, upstream).Blocked? <==>
            Projects(rx, r, tool, name, upstream)
  {
    hide Compile;
    hide Conforms;
    hide Intersect;
    hide RuleFor;
    hide Described;
    hide Supported;
    hide Satisfies;
    hide UpstreamRequires;
    RuleMeans(r, name);
    if Published(r, name) {
      var merged := Intersect(rx, upstream, Constraints(r, name));
      if merged.Some? { CompilesSupported(rx, merged.value, false, 2, false); }
    } else if Fixes(r, name) {
      CompilesSupported(rx, upstream, false, 2, false);
      if Compile(rx, upstream, false, 2, false).Some? {
        CompiledMeans(rx, Coded, upstream, false, 2, false, r.properties[name].value);
      }
    } else {
      RuleKinds(r, name);
    }
  }

  lemma RuleKinds(r: Restriction, name: string)
    requires !Published(r, name) && !Fixes(r, name)
    ensures RuleFor(r, name).None? || RuleFor(r, name) == Some(Omit)
  {}

  /** The upstream input schema is bounded and, once closed, one that the gate enforces. */
  ghost predicate Enforceable(rx: Engine, tool: Value) {
    && tool.Obj? && "inputSchema" in tool.fields && BoundedObject(tool.fields["inputSchema"])
    && CloseRoot(tool.fields["inputSchema"].fields).Some?
    && Supported(rx, Obj(CloseRoot(tool.fields["inputSchema"].fields).value), true, 1, false)
  }

  lemma UpstreamEnforceable(rx: Engine, tool: Value)
    ensures UpstreamSchema(rx, tool).Some? <==> Enforceable(rx, tool)
  {
    hide Compile;
    hide CloseRoot;
    hide Supported;
    hide ExceedsDepth;
    hide ContainsNul;
    if ClosedInput(tool).Some? { CompilesSupported(rx, ClosedInput(tool).value, true, 1, false); }
  }

  /**
   * A restriction is projected exactly when the tool has the name it is exposed under upstream and an
   * enforceable schema, that schema has every property the restriction lists, and each can be projected.
   */
  lemma DerivesExactly(rx: Engine, e: Exposure, tool: Value)
    requires e.restriction.Some?
    ensures Derive(rx, e, tool).Ok? <==>
            && tool.Obj? && Get(tool.fields, "name") == Some(Str(e.upstreamTool))
            && Enforceable(rx, tool)
            && e.restriction.value.properties.Keys <= UpstreamMembers(tool).Keys
            && forall k :: k in UpstreamMembers(tool) ==>
                 Projects(rx, e.restriction.value, tool, k, UpstreamMembers(tool)[k])
  {
    hide Compile;
    hide Canonical;
    hide Root;
    hide RuleFor;
    hide UpstreamSchema;
    hide UpstreamProperties;
    hide UpstreamMembers;
    hide UpstreamRequires;
    hide OutcomeOf;
    hide Enforceable;
    hide Projects;
    hide PublicTool;
    UpstreamEnforceable(rx, tool);
    if UpstreamSchema(rx, tool).Some? {
      var r, up := e.restriction.value, UpstreamSchema(rx, tool).value;
      ClosedKeeps(rx, tool);
      var members := UpstreamMembers(tool);
      var outcomes := Outcomes(rx, r, up, members);
      PublicRootCompiles(rx, r, up, members);
      forall k | k in members ensures k in Failing(outcomes) <==> !Projects(rx, r, tool, k, members[k]) {
        ProjectsOutcome(rx, r, tool, up, k, members[k]);
      }
    }
  }

  // What is forwarded.

  /** The arguments of a restricted call: the caller's own under published names, and every fixed value. */
  ghost predicate Forwarded(r: Restriction, tool: Value, given: map<string, Value>, sent: map<string, Value>) {
    && (forall k :: k in given ==> k in UpstreamMembers(tool) && Published(r, k))
    && (forall k :: k in sent <==> k in given || Fixes(r, k))
    && (forall k :: k in sent ==> sent[k] == if Fixes(r, k) then r.properties[k].value else given[k])
  }

  /** Whatever a restricted call forwards, it carries no argument name that the restriction does not publish. */
  lemma ForwardsPublished(rx: Engine, exposures: map<string, Exposure>, targets: set<string>, name: string,
                          tool: Value, args: Value)
    requires name in exposures && exposures[name].targetId in targets && exposures[name].publicName == name
    requires exposures[name].restriction.Some? && Derive(rx, exposures[name], tool).Ok?
    requires Resolve(rx, exposures, targets, name, Derive(rx, exposures[name], tool).value, args).Some?
    ensures args.Obj?
    ensures var e := exposures[name];
            var call := Resolve(rx, exposures, targets, name, Derive(rx, e, tool).value, args).value;
            && call.targetId == e.targetId && call.upstreamTool == e.upstreamTool
            && Forwarded(e.restriction.value, tool, args.fields, call.arguments)
  {
    hide Compile;
    hide Conforms;
    hide Derive;
    hide Resolve;
    hide UpstreamSchema;
    hide UpstreamProperties;
    hide UpstreamMembers;
    hide InputSchema;
    hide EnumOk;
    hide Exposes;
    hide RuleFor;
    hide Intersect;
    hide Published;
    var e := exposures[name];
    var r := e.restriction.value;
    CallRebuilds(rx, exposures, targets, name, tool, args);
    ResolveDerived(rx, exposures, targets, name, tool, args);
    DerivedSchema(rx, e, tool);
    ClosedKeeps(rx, tool);
    var s := InputSchema(rx, Derive(rx, e, tool).value).value;
    RootConforms(rx, Coded, s, args.fields);
    forall k | k in args.fields ensures k in UpstreamMembers(tool) && Published(r, k) {
      RuleMeans(r, k);
    }
  }

  /** What the administrator's limits ask of a value, read from their JSON. */
  ghost predicate WithinLimits(rx: Engine, limits: Value, v: Value) {
    && limits.Obj?
    && EnumSatisfied(limits.fields, v)
    && (v.Num? ==> NumberSatisfied(Exact, limits.fields, v.n))
    && (v.Str? ==>
          && AtLeast(limits.fields, "minLength", |v.s|) && AtMost(limits.fields, "maxLength", |v.s|)
          && ("pattern" in limits.fields && limits.fields["pattern"].Str? ==>
                rx.matches(limits.fields["pattern"].s, v.s)))
  }

  /**
   * The policy by the restriction's own fields and the upstream JSON: only published names, every
   * required one, each value within what upstream asks of it and, for a listed name, within its limits.
   */
  ghost predicate Allowed(rx: Engine, r: Restriction, tool: Value, m: map<string, Value>) {
    && (forall k :: k in m ==>
          && k in UpstreamMembers(tool) && Published(r, k)
          && Satisfies(rx, Exact, UpstreamMembers(tool)[k], m[k])
          && (k in r.properties ==> WithinLimits(rx, r.properties[k].constraints, m[k])))
    && (forall k :: k in UpstreamMembers(tool) && Published(r, k) && RequiresName(r, tool, k) ==> k in m)
  }

  lemma LimitsMean(rx: Engine, property: Value, limits: Value, v: Value)
    requires Mergeable(property, limits)
    ensures Meets(rx, limits, v) <==> WithinLimits(rx, limits, v)
  {
    hide Read;
    hide SchemaEqual;
    hide Meaning;
    hide EnumSatisfied;
    hide NumberSatisfied;
    hide LowOk;
    hide HighOk;
    hide MergeEnum;
    var s := limits.fields;
    ReadKeywords(s);
    LimitEnum(s, v);
    if v.Num? { NumberMeans(Exact, s, v.n); }
  }

  lemma LimitEnum(s: map<string, Value>, v: Value)
    ensures (Get(s, "enum").Some? && Get(s, "enum").value.Arr? ==>
               exists c :: c in Get(s, "enum").value.items && SchemaEqual(c, v)) <==>
            EnumSatisfied(s, v)
  {
    hide SchemaEqual;
    hide Meaning;
    if "enum" in s && s["enum"].Arr? {
      forall c | c in s["enum"].items ensures SchemaEqual(c, v) <==> Meaning(c) == Meaning(v) {
        SchemaEqualIffMeaning(c, v);
      }
    }
  }

  lemma NoLimits(rx: Engine, v: Value)
    ensures WithinLimits(rx, Obj(map[]), v)
  {}

  lemma IntersectMerges(rx: Engine, property: Value, limits: Value)
    requires Intersect(rx, property, limits).Some?
    ensures Mergeable(property, limits)
  {
    hide Compile;
    hide Mergeable;
  }

  lemma ExposedIntersect(rx: Engine, e: Exposure, tool: Value)
    requires e.restriction.Some? && Derive(rx, e, tool).Ok?
    ensures UpstreamSchema(rx, tool).Some?
    ensures forall k :: k in UpstreamProperties(tool) && Exposes(e.restriction.value, k) ==>
                          Intersect(rx, UpstreamProperties(tool)[k], Constraints(e.restriction.value, k)).Some?
  {
    hide Compile;
    hide Derive;
    hide UpstreamSchema;
    hide UpstreamProperties;
    hide InputSchema;
    hide Exposes;
    hide RuleFor;
    hide Intersect;
    DerivedSchema(rx, e, tool);
  }

  /** On a derived tool the policy by which calls are judged is the policy so read. */
  lemma PolicyMeans(rx: Engine, e: Exposure, tool: Value, m: map<string, Value>)
    requires e.restriction.Some? && Derive(rx, e, tool).Ok?
    ensures UpstreamSchema(rx, tool).Some?
    ensures Permitted(rx, e.restriction.value, UpstreamSchema(rx, tool).value, UpstreamProperties(tool), m) <==>
            Allowed(rx, e.restriction.value, tool, m)
  {
    hide Compile;
    hide Conforms;
    hide Derive;
    hide UpstreamSchema;
    hide UpstreamProperties;
    hide UpstreamMembers;
    hide UpstreamRequires;
    hide InputSchema;
    hide RuleFor;
    hide Intersect;
    hide Satisfies;
    hide Meets;
    hide WithinLimits;
    ExposedIntersect(rx, e, tool);
    UpstreamParts(rx, tool);
    ClosedKeeps(rx, tool);
    var r, up, members := e.restriction.value, UpstreamSchema(rx, tool).value, UpstreamMembers(tool);
    forall k | k in members
      ensures Exposes(r, k) <==> Published(r, k)
      ensures Exposes(r, k) && k in r.properties ==> r.properties[k].Expose?
      ensures Exposes(r, k) ==> (k in up.required || RuleFor(r, k).value.required <==> RequiresName(r, tool, k))
      ensures Exposes(r, k) && k in m ==>
                (Conforms(rx, Exact, up.properties[k], m[k]) && Meets(rx, Constraints(r, k), m[k]) <==>
                   && Satisfies(rx, Exact, members[k], m[k])
                   && (k in r.properties ==> WithinLimits(rx, r.properties[k].constraints, m[k])))
    {
      NameMeans(r, tool, up, k);
      if Exposes(r, k) && k in m {
        CompiledMeans(rx, Exact, members[k], false, 2, false, m[k]);
        LimitsOf(rx, r, k, members[k], m[k]);
      }
    }
  }

  lemma LimitsOf(rx: Engine, r: Restriction, k: string, property: Value, v: Value)
    requires Exposes(r, k) && Intersect(rx, property, Constraints(r, k)).Some?
    ensures k in r.properties ==> r.properties[k].Expose?
    ensures Meets(rx, Constraints(r, k), v) <==>
            (k in r.properties ==> WithinLimits(rx, r.properties[k].constraints, v))
  {
    hide Compile;
    hide Intersect;
    hide Mergeable;
    hide RuleFor;
    hide Meets;
    hide WithinLimits;
    IntersectMerges(rx, property, Constraints(r, k));
    LimitsMean(rx, property, Constraints(r, k), v);
    RuleMeans(r, k);
    NoLimits(rx, v);
  }

  lemma NameMeans(r: Restriction, tool: Value, up: Schema, k: string)
    requires k in up.required <==> UpstreamRequires(tool, k)
    ensures Exposes(r, k) <==> Published(r, k)
    ensures Exposes(r, k) ==> (k in up.required || RuleFor(r, k).value.required <==> RequiresName(r, tool, k))
  {
    hide UpstreamRequires;
    RuleMeans(r, k);
  }

  // Exposures without a restriction.

  /** A proxied tool is published whenever it has its name, and is then the upstream tool under the public name. */
  lemma ProxyPublished(rx: Engine, e: Exposure, tool: Value)
    requires e.restriction.None?
    ensures Derive(rx, e, tool).Ok? <==> tool.Obj? && Get(tool.fields, "name") == Some(Str(e.upstreamTool))
    ensures Derive(rx, e, tool).Ok? ==>
              var public := Derive(rx, e, tool).value;
              && public.Obj? && Get(public.fields, "name") == Some(Str(e.publicName))
              && forall k :: k != "name" ==> Get(public.fields, k) == CanonicalOption(Get(tool.fields, k))
  {
    if tool.Obj? { RenamedFields(tool.fields, e.publicName); }
  }

  /** A proxied call is forwarded for any argument object, exactly as it was given. */
  lemma ProxyForwarded(rx: Engine, exposures: map<string, Exposure>, targets: set<string>, name: string, tool: Value,
                       args: Value)
    requires name in exposures && exposures[name].targetId in targets && exposures[name].publicName == name
    requires exposures[name].restriction.None? && Derive(rx, exposures[name], tool).Ok?
    ensures var e := exposures[name];
            Resolve(rx, exposures, targets, name, Derive(rx, e, tool).value, args) ==
            if args.Obj? then Some(Call(e.targetId, e.upstreamTool, args.fields)) else None
  {
    hide Derive;
    ProxyPublished(rx, exposures[name], tool);
  }
}
