/** Version-2 exposures in the administrator's terms: compatibility, proxies, and what a refresh does to each tool. */
module CompatibilityV2 {
  import opened Json
  import opened Schemas
  import opened Republish
  import opened Intersection
  import opened ProjectionV2
  import opened PublicRoot
  import opened SchemaMeaning

  /**
   * A definition that a frozen restriction still fits, read from its JSON: it has the name; if it lists
   * properties, every input and fixed value is among them and no fixed value breaks a property that the
   * gate can enforce; if it lists required names, the restriction provides each of them.
   */
  ghost predicate Fits(rx: Engine, e: Exposure, tool: Value) {
    && tool.Obj? && Get(tool.fields, "name") == Some(Str(e.upstreamTool))
    && (e.mode.Restricted? && "inputSchema" in tool.fields && tool.fields["inputSchema"].Obj? ==>
          var schema := tool.fields["inputSchema"].fields;
          && ("properties" in schema && schema["properties"].Obj? ==>
                FitsProperties(rx, e.mode.inputs, e.mode.fixed, schema["properties"].fields))
          && ("required" in schema && schema["required"].Arr? ==>
                forall k :: Str(k) in schema["required"].items ==> k in e.mode.inputs || k in e.mode.fixed))
  }

  ghost predicate FitsProperties(rx: Engine, inputs: map<string, Value>, fixed: map<string, Value>,
                                 props: map<string, Value>)
  {
    && (forall k :: k in inputs || k in fixed ==> k in props)
    && (forall k :: k in fixed && Supported(rx, props[k], false, 2, false) ==> Satisfies(rx, Coded, props[k], fixed[k]))
  }

  lemma FixedFits(rx: Engine, property: Value, value: Value)
    ensures (Compile(rx, property, false, 2, false).Some? ==> FixedAccepted(rx, property, value)) <==>
            (Supported(rx, property, false, 2, false) ==> Satisfies(rx, Coded, property, value))
  {
    hide Compile;
    hide Conforms;
    hide Supported;
    hide Satisfies;
    CompilesSupported(rx, property, false, 2, false);
    if Compile(rx, property, false, 2, false).Some? { CompiledMeans(rx, Coded, property, false, 2, false, value); }
  }

  lemma NamesAre(items: seq<Value>, provided: set<string>)
    ensures Names(items) <= provided <==> forall k :: Str(k) in items ==> k in provided
  {
    forall k | Str(k) in items ensures k in Names(items) { assert Str(k).s == k; }
    forall k | k in Names(items) ensures Str(k) in items {
      var v :| v in items && v.Str? && v.s == k;
      assert v == Str(k);
    }
  }

  /** A definition is judged compatible exactly when the restriction fits it. */
  lemma CompatibleMeans(rx: Engine, e: Exposure, tool: Value)
    ensures Compatible(rx, e, tool) <==> Fits(rx, e, tool)
  {
    hide Compile;
    hide FixedAccepted;
    hide Supported;
    hide Satisfies;
    hide Names;
    if e.mode.Restricted? && tool.Obj? && "inputSchema" in tool.fields && tool.fields["inputSchema"].Obj? {
      var schema := tool.fields["inputSchema"].fields;
      if "properties" in schema && schema["properties"].Obj? {
        forall k | k in e.mode.fixed && k in schema["properties"].fields
          ensures var p := schema["properties"].fields[k];
                  (Compile(rx, p, false, 2, false).Some? ==> FixedAccepted(rx, p, e.mode.fixed[k])) <==>
                  (Supported(rx, p, false, 2, false) ==> Satisfies(rx, Coded, p, e.mode.fixed[k]))
        {
          FixedFits(rx, schema["properties"].fields[k], e.mode.fixed[k]);
        }
      }
      if "required" in schema && schema["required"].Arr? {
        NamesAre(schema["required"].items, e.mode.inputs.Keys + e.mode.fixed.Keys);
      }
    }
  }

  // What a restriction publishes.

  /** The public input schema, key by key: a closed object of exactly the inputs, all required, each as merged. */
  ghost predicate PublicInput(rx: Engine, inputs: map<string, Value>, props: map<string, Value>, input: Value) {
    && input.Obj?
    && input.fields.Keys == {"type", "properties", "required", "additionalProperties"}
    && input.fields["type"] == Str("object") && input.fields["additionalProperties"] == Bool(false)
    && input.fields["properties"].Obj? && input.fields["required"].Arr?
    && input.fields["properties"].fields.Keys == inputs.Keys && inputs.Keys <= props.Keys
    && (forall k :: Str(k) in input.fields["required"].items <==> k in inputs)
    && (forall k :: k in inputs ==> Intersect(rx, props[k], inputs[k]) == Some(input.fields["properties"].fields[k]))
  }

  lemma RootPublic(rx: Engine, inputs: map<string, Value>, props: map<string, Value>)
    requires inputs.Keys <= props.Keys && forall k :: k in inputs ==> Intersect(rx, props[k], inputs[k]).Some?
    ensures PublicInput(rx, inputs, props, Obj(Root(PublicProperties(rx, inputs, props), inputs.Keys)))
  {
    hide Intersect;
    hide NameArray;
    NamesArray(inputs.Keys);
  }

  /** What a restriction publishes: the upstream tool under the public name, with the schema of its inputs. */
  lemma PublishedExactly(rx: Engine, e: Exposure, tool: Value)
    requires e.mode.Restricted? && Derive(rx, e, tool).Some?
    ensures tool.Obj? && Derive(rx, e, tool).value.Obj? && "inputSchema" in Derive(rx, e, tool).value.fields
    ensures var public := Derive(rx, e, tool).value.fields;
            && PublicInput(rx, e.mode.inputs, UpstreamMembers(tool), public["inputSchema"])
            && Get(public, "name") == Some(Str(e.publicName))
            && forall k :: k !in {"name", "inputSchema"} ==> Get(public, k) == CanonicalOption(Get(tool.fields, k))
  {
    hide Compile;
    hide Canonical;
    hide Root;
    hide Derive;
    hide FixedAccepted;
    hide Intersect;
    hide PublicInput;
    var inputs, props := e.mode.inputs, UpstreamProperties(tool);
    DerivedParts(rx, e, tool);
    var public := PublicProperties(rx, inputs, props);
    RootChildren(rx, public, inputs.Keys);
    forall k | k in public ensures Canonical(public[k]) == public[k] { IntersectCanonical(rx, props[k], inputs[k]); }
    RootCompiles(rx, public, inputs.Keys);
    RootPublished(public, inputs.Keys);
    RootPublic(rx, inputs, props);
    RenamedWith(tool.fields, e.publicName, Obj(Root(public, inputs.Keys)));
  }

  lemma IntersectCanonical(rx: Engine, property: Value, constraint: Value)
    requires Intersect(rx, property, constraint).Some?
    ensures Canonical(Intersect(rx, property, constraint).value) == Intersect(rx, property, constraint).value
  {
    hide Compile;
    hide Canonical;
    hide Mergeable;
    hide Merged;
    CanonicalIdempotent(Merged(property, constraint));
  }

  lemma RenamedWith(tool: map<string, Value>, name: string, schema: Value)
    requires Canonical(schema) == schema
    ensures var t := Canonical(Obj(tool["name" := Str(name)]["inputSchema" := schema]));
            && t.Obj? && Get(t.fields, "name") == Some(Str(name)) && Get(t.fields, "inputSchema") == Some(schema)
            && forall k :: k !in {"name", "inputSchema"} ==> Get(t.fields, k) == CanonicalOption(Get(tool, k))
  {
    hide CanonicalFields;
    var m := tool["name" := Str(name)]["inputSchema" := schema];
    assert Canonical(Obj(m)) == Obj(CanonicalFields(m));
    forall k ensures Get(CanonicalFields(m), k) == CanonicalOption(Get(m, k)) { GetCanonical(m, k); }
  }

  // Proxies.

  /** A proxied tool needs its name and a bounded input schema; it is published as it is, under the public name. */
  lemma ProxyPublished(rx: Engine, e: Exposure, tool: Value)
    requires e.mode.Proxy?
    ensures Derive(rx, e, tool).Some? <==>
            && tool.Obj? && Get(tool.fields, "name") == Some(Str(e.upstreamTool))
            && "inputSchema" in tool.fields && BoundedObject(tool.fields["inputSchema"])
    ensures Derive(rx, e, tool).Some? ==>
              var public := Derive(rx, e, tool).value;
              && public.Obj? && Get(public.fields, "name") == Some(Str(e.publicName))
              && forall k :: k != "name" ==> Get(public.fields, k) == CanonicalOption(Get(tool.fields, k))
  {
    hide BoundedObject;
    hide Compile;
    if Derive(rx, e, tool).Some? { RenamedFields(tool.fields, e.publicName); }
  }

  /** A proxied call is forwarded for any argument object, exactly as it was given. */
  lemma ProxyForwarded(rx: Engine, exposures: map<string, Exposure>, targets: set<string>, name: string, tool: Value,
                       args: Value)
    requires name in exposures && exposures[name].targetId in targets && exposures[name].mode.Proxy?
    requires tool.Obj? && Get(tool.fields, "name") == Some(Str(name))
    ensures var e := exposures[name];
            Resolve(rx, exposures, targets, name, tool, args) ==
            if args.Obj? then Some(Call(e.targetId, e.upstreamTool, args.fields)) else None
  {}
}
