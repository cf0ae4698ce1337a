# Capability boundary: verified model

The boundary is a policy gate between an MCP client and upstream MCP servers or local commands. It
derives closed public tool schemas from upstream definitions and administrator rules, validates every
call against them, rebuilds the arguments that are forwarded, keeps a live catalog while requests run
concurrently, and owns the upstream processes. This project models that logic in Dafny 4.11 and proves
properties of the model. `dafny verify dfyconfig.toml` checks all of it.

## How the model is laid out

| module | subject |
|---|---|
| Text, Json | sorted keys, JSON values, mixed integer and float comparison, schema equality, canonical form |
| Schemas, SchemaMeaning, Compiler, Republish | the JSON Schema subset: what compiles, what a schema's JSON says and its compiled form accepts, what is published |
| Validator | validation with one shared, growing list of issues and a cap on it |
| Intersection, PublicRoot | merging a local constraint into an upstream property; the closed public root |
| ProjectionV3, ProjectionV2 | public tools, and calls resolved against them, for both exposure versions |
| PolicyV3, CompatibilityV2 | the same in the administrator's terms: restriction fields and upstream JSON |
| CatalogV3, ServingV3 | the live catalog object, and all interleavings of list and call requests over it |
| CatalogV2 | the freeze protocol through a durable store |
| Session, Discovery, Admission | the upstream session, paged discovery, and the sixteen call slots |
| Pointer, Bindings | JSON Pointers, command lines and MCP arguments built from administrator bindings |
| Framing, Sha256 | newline framing over arbitrary buffers; the digest that names cache files |

Where the code runs a loop or updates fields, the model is a method or a class with the same steps,
and its contract ties it to a specification function; the lemmas are about that function. The main
chain is: `CompileSchema` and `ValidateInput` compute `Compile` and `Conforms`; `CompilesSupported` and
`CompiledMeans` say what those are in terms of the schema's JSON; `PublishedIsEnforced` and
`IntersectIsMeet` say what is published and what a merge keeps; `PublishedExactly` and `PolicyMeans` say
what a restriction publishes and permits by its own fields; `CallExact` and `CallSound` use all of them to
show what a projected tool enforces of its policy and when what is forwarded satisfies the upstream
schema; `ForwardedConforms` carries that to every run of the concurrent server.

A number is an `Int` in the range of i64 and u64 together, or a `Float` given by its real value.
Conformance takes the comparison as a parameter: `Coded` is the code's, `Exact` the order of the reals.
A regular-expression engine is a parameter (`Engine`): which patterns compile, and what they match.

## Where the code is not what it says

- The order of integer 0 against a float that is not zero is reversed (crates/core/src/lib.rs:1364-1366).
  `NumericCompareExact` gives the exact condition. `OrderOK` says that no bound is compared with a value
  on that branch; for any value that either order accepts it is the exact condition for the other order
  to accept it too (`AcceptedExact`). So under an upstream minimum of 0 the gate turns 0.5 away
  (`ZeroMinimumWitness`) and forwards -0.5 (`NegativeForwardedWitness`); `CallSound` says for every
  forwarded call when it is one that upstream's own schema rejects.
- Two bounds merged on that branch keep the looser one (crates/core/src/lib.rs:2796-2818), so a local or
  an upstream bound can be lost: `BoundsMerged` says exactly what is left, `LostMinimumWitness` and
  `LostUpstreamWitness` are inputs, and `UpstreamKept` is what arguments off the zero branch must then
  meet for the call to be sound.
- Canonical form writes 0.0 as integer 0. A schema with bounds 0.0 and 0.5 is published in a form that no
  longer compiles, and one with minimum 0.0 in a form that accepts other values: `PublishedIsEnforced` has
  both conditions, `OpposedWitness` and `RewrittenMinimumWitness` the inputs.
- For the same reason a constraint applied to its own result can loosen it or be rejected
  (`IntersectAgain`, `LooseningWitness`, `RejectedAgainWitness`), and the second check of a v2 call can
  refuse what the frozen schema accepts (`RecheckWitness`); `Stable` is the exact condition on the bounds,
  and `SecondCheck` says what the second check enforces when it fails.
- An enum on the upstream root object is enforced by the compiler and dropped by the projection
  (crates/core/src/lib.rs:2559-2564). `CallSound` shows that conformance then turns on that enum alone,
  and `RootEnumWitness` gives a call that is forwarded against it.
- The bound of 32 issues is checked only on entry to a node, so one object can add more; no bound on the
  number of issues is stated.

## Model

| member | source | states |
|---|---|---|
| Json.CompareIntegerFloatExact | crates/core/src/lib.rs:1360-1399 | Comparing any i128 with a float gives the order of the reals if and only if it is not integer 0 against another float, and not -2^127 against itself; with integer 0 the order is reversed |
| Json.NumericCompareExact | crates/core/src/lib.rs:1349-1410 | For i64/u64 integers and finite floats, above 2^53 too, the order is exact if and only if the pair is not on the zero branch, where it is reversed; `Equal` is exact everywhere and the order is antisymmetric |
| Json.ZeroBranchWitness | crates/core/src/lib.rs:1364-1366 | Concrete input: integer 0 is ordered above 0.5 |
| Json.SchemaEqualIffMeaning | crates/core/src/lib.rs:1412-1434 | Schema equality holds exactly when both values denote the same datum of the JSON Schema data model |
| Json.SchemaEqualEquivalence | crates/core/src/lib.rs:1412-1434 | Schema equality is reflexive, symmetric and transitive on all JSON trees |
| Json.CanonicalIdempotent | crates/core/src/lib.rs:2924-2940 | Canonicalizing twice is canonicalizing once |
| Json.CanonicalInvisible | crates/core/src/lib.rs:2924-2940 | Canonicalizing either operand never changes a schema-equality verdict |
| Compiler.CompileSchema | crates/core/src/lib.rs:1454-1699 | The compiler with its loops and early exits computes `Compile` on every input; `CompilesSupported` and `CompiledMeans` say what that is |
| SchemaMeaning.CompilesSupported | crates/core/src/lib.rs:1454-1699 | A schema compiles if and only if its JSON, read directly, is one the gate supports: at each node a known type, only the keywords of that type, each well formed, no deeper than 32 |
| SchemaMeaning.CompiledMeans | crates/core/src/lib.rs:1454-1699 | For every JSON that compiles, in the code's order or the real one, a value conforms to the compiled schema if and only if it satisfies what the JSON's own keywords say, at every depth |
| Compiler.RequiredNames | crates/core/src/lib.rs:1531-1556 | Succeeds exactly on distinct strings naming properties (all of them in strict mode), and returns that set |
| Schemas.AcceptedExact | crates/core/src/lib.rs:1981-2131 | At every depth: a value that the code accepts conforms in real order if and only if no bound was compared with it on the zero branch, and a value that conforms in real order is accepted by the code exactly then |
| Schemas.BoundVerdictExact | crates/core/src/lib.rs:2106-2127 | A bound's verdict is right if and only if the comparison is not on the zero branch |
| Schemas.ExactIgnoresCanonical | crates/core/src/lib.rs:2924-2940 | With numbers in their real order, canonical bounds and enums accept the same values at every depth |
| Schemas.CanonicalBoundVerdict | crates/core/src/lib.rs:2924-2940 | Under the code's own comparison a rewritten bound judges a number as before if and only if it is not a bound 0.0 against a float that is not zero |
| Schemas.AcceptedUnflipped | crates/core/src/lib.rs:2924-2940 | Under the code's own comparison, at every depth: a value accepted by a schema or by its canonical form is accepted by the other if and only if no bound flips for it |
| Republish.CompileCanonical | crates/core/src/lib.rs:1454-1699 | Compiling the canonical form of an accepted schema gives the canonical schema, and fails exactly when some node has opposed bounds |
| Republish.CompileRepublished | crates/core/src/lib.rs:1672-1699 | Sorting `required` and writing `additionalProperties` out changes nothing that compilation reads |
| Republish.PublishedIsEnforced | crates/core/src/lib.rs:1454-1699 | Recompiling the published JSON succeeds if and only if no node opposes a 0.0 bound to another float bound; it then publishes the same JSON and accepts the same values as numbers; in the code a value accepted by one of the two is accepted by the other if and only if no bound written 0.0 flips for it, so all values are judged alike when no bound is written 0.0 |
| Republish.OpposedWitness | crates/core/src/lib.rs:1454-1699 | Concrete input: bounds 0.0 and 0.5 compile, and their published form does not |
| Republish.ZeroMinimumWitness | crates/core/src/lib.rs:2106-2127 | Concrete input: a number schema with minimum 0 turns 0.5 away |
| Republish.RewrittenMinimumWitness | crates/core/src/lib.rs:2924-2940 | Concrete input: minimum 0.0 accepts 0.5, and the schema it is published as, with minimum 0, does not |
| Validator.ValidateInput | crates/core/src/lib.rs:1972-1980 | Accepts exactly the values that conform on the whole tree; a rejection carries an issue, so the diagnostic cap never turns a rejection into acceptance |
| Validator.ValidateValue | crates/core/src/lib.rs:1981-2131 | The shared issue list only grows, and below the cap it stays as it was exactly when the value conforms at every node; at the cap nothing is checked or added |
| Pointer.DecodePtr | crates/core/src/lib.rs:1743-1768 | The character loop computes the pointer decoding, and fails on the same strings |
| Pointer.DecodeEncode | crates/core/src/lib.rs:1740-1768 | Decoding the slash-joined escaped tokens returns the tokens, for every token list |
| Pointer.EncodeDecode | crates/core/src/lib.rs:1740-1768 | Every accepted pointer string is the encoding of the tokens it decodes to |
| PublicRoot.DepthMeans | crates/core/src/lib.rs:1940-1953 | A value exceeds the depth limit if and only if something inside it stands deeper than the limit |
| PublicRoot.NulMeans | crates/core/src/lib.rs:1955-1962 | A value contains a NUL if and only if some string inside it does |
| Intersection.IntersectProperty | crates/core/src/lib.rs:2742-2844 | The keyword-by-keyword edits of the result map compute the specification `Intersect` |
| Intersection.BoundsMerged | crates/core/src/lib.rs:2796-2818 | A merged bound means both bounds, or either one when the merge is decided on the zero branch, for every pair of bounds |
| Intersection.MinimumMeetExact | crates/core/src/lib.rs:2796-2818 | The merged minimum means both minimums if and only if the merge is not decided on the zero branch |
| Intersection.MaximumMeetExact | crates/core/src/lib.rs:2796-2818 | The merged maximum means both maximums if and only if the merge is not decided on the zero branch |
| Intersection.LostMinimumWitness | crates/core/src/lib.rs:2796-2818 | Concrete input: a local minimum of 0.5 over an upstream minimum of 0 is lost |
| Intersection.LostUpstreamWitness | crates/core/src/lib.rs:2796-2818 | Concrete input: an upstream minimum of 0.5 under a local minimum of 0 is lost, and 0 is accepted |
| Intersection.EnumMeet | crates/core/src/lib.rs:2820-2840 | The filtered enum accepts exactly what both enums accept, under schema equality |
| Intersection.IntersectIsMeet | crates/core/src/lib.rs:2742-2844 | For every property and constraint the result compiles if and only if it has no opposed bounds, accepts exactly what the two enforce with their bounds as merged, never refuses what both accept, and accepts exactly what both accept unless a bound is lost |
| Intersection.EnforcedKept | crates/core/src/lib.rs:2742-2844 | What an intersection enforces conforms to the upstream property if and only if it meets the upstream bounds that the merge lost |
| Intersection.MergeBoundAgain | crates/core/src/lib.rs:2796-2818 | A merged bound stays put under a second merge if and only if it was not 0.0 kept over a float that is not zero |
| Intersection.IntersectAgain | crates/core/src/lib.rs:2742-2844 | The same constraint applied again returns the same schema if and only if both bounds are stable and no node has opposed bounds; with stable bounds the only other outcome is rejection |
| Intersection.SecondCheck | crates/core/src/lib.rs:2697-2717 | Where the first result compiles, intersecting it with the constraint again succeeds if and only if the bounds it then has are ordered, and a value accepted the first time is accepted again if and only if it meets those: the local bound in place of each unstable one, the published one otherwise |
| Intersection.PropertyForwarded | crates/core/src/lib.rs:2742-2844 | A value that the code accepts by an intersection conforms in real order to the upstream property if and only if, being a number, it meets that property's own bounds, or otherwise no bound was compared on the zero branch |
| Intersection.LooseningWitness | crates/core/src/lib.rs:2796-2818 | Concrete input: minimum -0.5 over 0.0 gives 0, and over that gives -0.5 |
| Intersection.RejectedAgainWitness | crates/core/src/lib.rs:2742-2844 | Concrete input: with bounds 0.0 and 0.5 the empty constraint succeeds once and is rejected the second time |
| ProjectionV3.DeriveTool | crates/core/src/lib.rs:2437-2573 | The projection with its ordered property loop computes the specification `Derive`, including which property's issue is reported |
| ProjectionV3.ProjectProperties | crates/core/src/lib.rs:2490-2558 | The loop publishes every exposed property, or reports the first blocked one in key order |
| ProjectionV3.ResolveCall | crates/core/src/lib.rs:2578-2636 | Validation and argument rebuilding compute the specification `Resolve` |
| ProjectionV3.DerivedSchema | crates/core/src/lib.rs:2437-2573 | The published schema is closed, with exactly the exposed properties, exactly the requirements of upstream and rule, and each property compiled from its intersection |
| PolicyV3.PublishedExactly | crates/core/src/lib.rs:2437-2573 | By the restriction's own fields and the upstream JSON: the public input schema is closed, has exactly the exposed names and, where the restriction says so, the unlisted ones, each listed one within its own limits and description, each unlisted one as upstream has it, and requires exactly what upstream or the rule does; the rest of the tool is kept |
| PolicyV3.DerivesExactly | crates/core/src/lib.rs:2437-2573 | A restriction is projected if and only if the tool has its name and a bounded, enforceable schema with every listed property, and each upstream property can be published, accepts its fixed value, or may be left out |
| PolicyV3.ForwardsPublished | crates/core/src/lib.rs:2578-2636 | A forwarded call has no argument outside the names the restriction publishes, and sends those arguments and each fixed value unchanged |
| PolicyV3.PolicyMeans | crates/core/src/lib.rs:2437-2573 | The policy that published schemas and calls are judged against is: only published names, every required one, each value satisfying its upstream JSON and its own limits |
| PolicyV3.CloseRootMeans | crates/core/src/lib.rs:2461-2478 | Closing the upstream root changes nothing upstream says besides `additionalProperties`, fills in what is missing as empty, and fails exactly when that keyword is not a boolean |
| PolicyV3.ProxyPublished | crates/core/src/lib.rs:2437-2455 | An unrestricted tool is published if and only if it has its upstream name, and differs from the upstream tool in its name alone |
| PolicyV3.ProxyForwarded | crates/core/src/lib.rs:2578-2636 | An unrestricted call is forwarded for every argument object, unchanged |
| ProjectionV3.PublicMeansPolicy | crates/core/src/lib.rs:2437-2573 | For every restriction the published schema accepts all that the policy permits (exposed keys only, required ones present, each within upstream and local limits) and exactly what the merged bounds admit; it accepts exactly the policy unless a bound is lost |
| ProjectionV3.CallExact | crates/core/src/lib.rs:2578-2636 | On a derived tool a call is forwarded if and only if the code accepts its arguments by the published schema; forwarded arguments are ones the merged bounds admit if and only if none is compared on the zero branch, and of those admitted, or permitted by the policy, exactly these are forwarded |
| ProjectionV3.FixedConform | crates/core/src/lib.rs:2538-2557 | Every fixed value was accepted by its upstream property, and every property upstream requires is exposed or fixed |
| ProjectionV3.CallRebuilds | crates/core/src/lib.rs:2578-2636 | Whatever its numbers, a forwarded call is the arguments and all fixed values, disjointly, with nothing missing that upstream requires and nothing it does not know |
| ProjectionV3.CallSound | crates/core/src/lib.rs:2559-2636 | For every forwarded call: what is sent satisfies the closed upstream schema in real order if and only if every argument meets upstream, every fixed value was judged off the zero branch, and a root enum, which the projection drops, accepts it; off the zero branch arguments meet upstream exactly when they meet the bounds that were lost |
| ProjectionV3.RootEnumWitness | crates/core/src/lib.rs:2559-2564 | Concrete input: under a root enum the empty call is forwarded and the upstream schema rejects it |
| ProjectionV3.NegativeForwardedWitness | crates/core/src/lib.rs:2578-2636 | Concrete input: under an upstream minimum of 0 a derived tool forwards -0.5, which the upstream schema rejects |
| ProjectionV2.DeriveTool | crates/core/src/lib.rs:2234-2355 | The derivation computes the specification `Derive` |
| CompatibilityV2.CompatibleMeans | crates/core/src/lib.rs:2357-2409 | A definition is judged compatible if and only if, by its JSON, it has the name, lists every input and fixed value it can be asked for, rejects no fixed value by a property the gate can enforce, and requires nothing the restriction does not provide |
| ProjectionV2.DerivedIsCompatible | crates/core/src/lib.rs:2234-2409 | Any definition from which a restriction is derived is judged compatible with it |
| CompatibilityV2.ProxyPublished | crates/core/src/lib.rs:2234-2275 | A proxied tool is published if and only if it has its name and a bounded input schema, and differs from the upstream tool in its name alone |
| CompatibilityV2.ProxyForwarded | crates/core/src/lib.rs:2641-2740 | A proxied call is forwarded for every argument object, unchanged |
| ProjectionV2.DerivedSchema | crates/core/src/lib.rs:2234-2355 | The frozen schema has exactly the inputs, all required, each compiled from its intersection |
| CompatibilityV2.PublishedExactly | crates/core/src/lib.rs:2234-2355 | The derived tool is the upstream tool under the public name, with a closed input schema that has exactly the inputs, all required, each as merged with its constraint |
| ProjectionV2.RecheckRedundant | crates/core/src/lib.rs:2697-2717 | With stable bounds the second check of an input accepts a value if and only if the frozen property compiles and accepts it |
| ProjectionV2.RecheckWitness | crates/core/src/lib.rs:2698-2717 | Concrete input: under upstream minimum 0.0 and input minimum -0.5 the frozen schema accepts -0.75 and the second check refuses it |
| ProjectionV2.CallExact | crates/core/src/lib.rs:2644-2740 | On any derived tool a call is forwarded if and only if the tool's schema accepts its arguments and each argument of an input with unstable bounds meets the bounds of the second merge, which must be ordered; so the schema alone decides when all are stable |
| ProjectionV2.CallSound | crates/core/src/lib.rs:2644-2740 | Forwarded arguments are ones the merged bounds admit if and only if none is compared on the zero branch, and with stable bounds exactly those of the admitted are forwarded; what is sent satisfies the upstream schema it was frozen from if and only if every argument meets upstream, every fixed value was judged off the zero branch and a root enum accepts it; when no bound was lost, what is admitted is the policy |
| ProjectionV2.ResolveCall | crates/core/src/lib.rs:2644-2740 | The call with its second check of every input computes the specification `Resolve` |
| CatalogV3.CollectTools | crates/boundary/src/v3_catalog.rs:306-341 | One pass over a listing yields each uniquely named tool, a stub for each repeated name, and whether the listing may be cached |
| CatalogV3.DiscoverTargets | crates/boundary/src/v3_catalog.rs:164-199 | The loop over targets computes the next tool map and freshness of a whole refresh |
| CatalogV3.NextToolsRefines | crates/boundary/src/v3_catalog.rs:386-425 | After a refresh every entry is the projection of its target's last successful discovery, or else of its cache |
| CatalogV3.FailureChangesNothing | crates/boundary/src/v3_catalog.rs:179-199 | A refresh in which no discovery succeeds keeps the snapshot and adds no freshness |
| CatalogV3.V3Catalog.constructor | crates/boundary/src/v3_catalog.rs:78-109 | Starts at generation 0 with nothing fresh, each cached tool projected and every other one unavailable under its name |
| CatalogV3.V3Catalog.AdoptSnapshot | crates/boundary/src/v3_catalog.rs:360-384 | The generation rises by one exactly when the tool map changes |
| CatalogV3.V3Catalog.RefreshAll | crates/boundary/src/v3_catalog.rs:149-206 | For every configured exposure: its target is fresh afterwards if and only if it was fresh and connected or it answered; if it was asked and answered the entry is its own tool in that answer, projected, or not found; otherwise the entry is kept. Marks the catalog listed and announces exactly a change to a listed catalog |
| CatalogV3.V3Catalog.RefreshForCall | crates/boundary/src/v3_catalog.rs:210-260 | Refreshes the exposures of one target and no other; the target is available if and only if it was fresh and connected or it answered |
| CatalogV3.V3Catalog.RefreshAfterNotification | crates/boundary/src/v3_catalog.rs:262-304 | Asks the target whatever its freshness; its exposures are refreshed if and only if it answers |
| ServingV3.RunInv | crates/boundary/src/main.rs:949-1128 | The invariant over locks, catalog, wire and tasks holds after every interleaving of list and call steps |
| ServingV3.NoSilentChange | crates/boundary/src/main.rs:949-1128 | Whenever the sequence lock is free and the catalog differs from the last list response written, a list_changed follows that response |
| ServingV3.ResponsesFollowGenerations | crates/boundary/src/v3_catalog.rs:360-384 | List responses are whole generations of one history in which neighbours differ, and are written in non-decreasing generation order |
| ServingV3.ResponsesAreRefreshed | crates/boundary/src/main.rs:949-986 | Over every run, each list response carries the snapshot that its request adopted at one of the run's steps, where every exposure was refreshed by what its target answered |
| ServingV3.CallRefreshes | crates/boundary/src/main.rs:987-1072 | In every reachable state a call asks its own target unless that is fresh and connected and keeps the entry that leaves; after an announced change it asks whatever the freshness; no other exposure is touched |
| ServingV3.CatalogIsProjection | crates/boundary/src/v3_catalog.rs:386-425 | In every reachable state the catalog's names are the configured exposures, each entry projects its target's last definitions, and a fresh target's last discovery succeeded in this process |
| ServingV3.CallsUseDiscoveries | crates/boundary/src/main.rs:987-1072 | In every run, a tool that reaches call resolution was projected from the definitions its target was last discovered to have by this process, with no failure since, never from a disk cache |
| ServingV3.ResolvesCurrentTool | crates/boundary/src/main.rs:987-1072 | At the step that validates a call, its target is fresh and the tool is the catalog's own ready tool at that moment |
| ServingV3.ForwardedConforms | crates/boundary/src/main.rs:987-1072 | End to end: in any run, every forwarded restricted call is rebuilt by the definition last discovered, and satisfies its closed schema if and only if every argument meets upstream, every fixed value was judged off the zero branch and a root enum accepts it |
| CatalogV2.DraftTarget | crates/boundary/src/v2_catalog.rs:174-218 | The loop over a target's exposures computes the specification of its new entries, tombstones and first freezes |
| CatalogV2.ReadTools | crates/boundary/src/v2_catalog.rs:154-162 | Reads a listing by name, and gives up exactly when a tool is unnamed or a name repeats |
| CatalogV2.V2Catalog.constructor | crates/boundary/src/v2_catalog.rs:32-71 | Starts with what the durable store holds and is willing to publish |
| CatalogV2.V2Catalog.RefreshTarget | crates/boundary/src/v2_catalog.rs:135-258 | One refresh computes the specification on state, durable copy and notification, keeps the freeze invariant, and leaves every exposure of the target with the fate stated for `RefreshFates`; without a readable listing nothing published changes |
| CatalogV2.RefreshFates | crates/boundary/src/v2_catalog.rs:135-258 | Each active tool is cached with the upstream definition it was listed by. A frozen restriction stays active with its frozen definition if and only if it is listed and its new definition still fits, and is otherwise reported as changed with the reason; an unfrozen one becomes active if and only if it can be derived and stored; a proxy is what is listed; exposures of other targets are untouched |
| CatalogV2.LoadExactly | crates/boundary/src/v2_catalog.rs:32-71 | A starting process publishes exactly the stored definitions it can read that carry the exposure's two names and an object schema |
| CatalogV2.ToldExactly | crates/boundary/src/v2_catalog.rs:135-258 | A refresh is announced if and only if it read a listing and the target was unavailable, or was known and what is published changed |
| CatalogV2.ChangesAreTold | crates/boundary/src/v2_catalog.rs:135-258 | Over any run of refreshes of cached targets, if none is announced then what is published is the same |
| CatalogV2.RefreshKeeps | crates/boundary/src/v2_catalog.rs:135-258 | A refresh keeps active and changed disjoint, keeps each frozen public definition in memory and on disk, and freezes anew only what it stored |
| CatalogV2.FrozenForever | crates/boundary/src/v2_catalog.rs:32-288 | Over runs with refreshes and restarts, a cached restricted definition keeps its public part, and whatever is active or durable later is that one |
| CatalogV2.FirstActive | crates/boundary/src/v2_catalog.rs:135-258 | A restricted tool is first active only if its definition was loaded, or stored successfully in that very refresh |
| Session.ReadReply | crates/runtime/src/lib.rs:997-1058 | Only a reply with the awaited id and a result and no error completes a request; notifications are skipped, and the change flag is set exactly when one announced it |
| Session.McpSession.Negotiate | crates/runtime/src/lib.rs:655-693 | At most two processes, one discover and one initialize, and no call. What decides the discover request decides the rest: a modern description ends it, another result or an error of the upstream's leads to the legacy handshake with the same process, a closed connection to one with a new process, anything else fails |
| Session.McpSession.LegacyInitialize | crates/runtime/src/lib.rs:695-741 | Exactly one initialize; on failure the starting process is ended |
| Session.McpSession.Exchange | crates/runtime/src/lib.rs:606-633 | Writes one request with the next id, and completes only with the reply received for it |
| Session.McpSession.CancelAndTerminate | crates/runtime/src/lib.rs:770-788 | Cancels the request in flight by its id, then ends every process |
| Session.McpSession.Execute | crates/runtime/src/lib.rs:384-456 | Whatever happens the session is idle again and every spawned process is the ready one or terminated; at most one call is written, only after negotiation, and success means the reply to it was received last |
| Session.McpSession.ListTools | crates/runtime/src/lib.rs:481-559 | Against any server at most 16 requests with consecutive ids and no cursor sent twice; success exactly when the replies form a complete listing, returned in page order with at most 4096 tools |
| Session.McpSession.DiscoverTools | crates/runtime/src/lib.rs:273-338 | Discovery leaves the session idle, and without a listing no process is left |
| Session.McpSession.Terminate | crates/runtime/src/lib.rs:780-788 | Ends the ready process and then the starting one |
| Session.AppendOk | crates/runtime/src/lib.rs:481-788 | Within a process ids increase, replies answer the request before them, requests for tools follow negotiation, and processes end once: each recorded step keeps all four |
| Discovery.ReadPage | crates/runtime/src/lib.rs:526-556 | A page is accepted exactly when it is bounded, names its tools, carries object schemas and a string cursor if any, and the tools fit |
| Discovery.PageMeans | crates/runtime/src/lib.rs:526-556 | A reply is a valid page if and only if everything inside it is small and no deeper than 32, it has an array of tools that each have a name and an object schema, and its cursor is a string or absent; the tools and cursor read are then its own |
| Discovery.CursorsDistinct | crates/runtime/src/lib.rs:549-552 | While every page brings a fresh cursor, no request repeats one |
| Admission.Conservation | crates/runtime/src/lib.rs:69-90 | In every reachable state free and held slots make sixteen, and at most one task works on a target |
| Admission.NothingLeaks | crates/runtime/src/lib.rs:273-456 | Once all tasks have ended, by success, busy, error, timeout or cancellation, sixteen slots are free and no lock is held |
| Admission.Drain | crates/runtime/src/lib.rs:273-456 | From any point of any run all unended tasks can be ended by their own steps, each with the outcome it is given; no ended task changes, and sixteen slots are free and no lock is held |
| Admission.BusyMeansHeld | crates/runtime/src/lib.rs:395-414 | A request is refused as busy if and only if sixteen slots are held, or another task is working on its target |
| Framing.ReadBoundedMessage | crates/boundary/src/main.rs:604-652 | Through any buffers the result is the one-shot read of the stream: too large if and only if the body with its return exceeds the limit; the message buffer never exceeds it |
| Framing.ReadConnection | crates/boundary/src/main.rs:473-512 | The messages of a connection do not depend on how its bytes were split, none exceeds the limit, and the pieces they came from partition what was read |
| Framing.LineSurvives | crates/boundary/src/main.rs:604-652 | A newline-terminated line is read back as itself if and only if it fits and does not end in a return |
| Framing.ReturnIsDropped | crates/boundary/src/main.rs:601-652 | A line ending in a return and newline reads as the bare line, except that the return counts against the limit |
| Framing.JoinedLinesSurvive | crates/boundary/src/main.rs:604-652 | Joined lines read back as the same lines if and only if each fits and none ends in a return |
| Sha256.Pad | crates/boundary/src/catalog_cache.rs:151-157 | The padding loop computes the padding of section 5.1.1 of FIPS 180-4 |
| Sha256.WordHoldsBytes | crates/boundary/src/catalog_cache.rs:159-163 | Each message word holds its four bytes of the block, the first one highest |
| Sha256.PaddedLength | crates/boundary/src/catalog_cache.rs:151-157 | Padded messages are whole blocks that start with the message and end with its length field |
| Sha256.PaddingIsLeast | crates/boundary/src/catalog_cache.rs:152-157 | The zero bits added are the least number the standard allows |
| Sha256.LengthField | crates/boundary/src/catalog_cache.rs:151-157 | The length field is the bit length if and only if the message is shorter than 2^61 bytes |
| Sha256.PaddingInjective | crates/boundary/src/catalog_cache.rs:151-157 | Messages of any length with equal padding are equal |
| Sha256.Schedule | crates/boundary/src/catalog_cache.rs:159-174 | The array filled in place is the message schedule of section 6.2.2 of FIPS 180-4 |
| Sha256.Compress | crates/boundary/src/catalog_cache.rs:175-198 | Sixty-four rounds on eight variables and the additions to the state compute the standard's compression of a block |
| Sha256.ChChooses | crates/boundary/src/catalog_cache.rs:178 | The choice function takes each bit of its second word where the first has a 1, and of its third where it has a 0 |
| Sha256.MajCounts | crates/boundary/src/catalog_cache.rs:185 | The majority function has exactly the bits that at least two of its words have |
| Sha256.SigmasRotate | crates/boundary/src/catalog_cache.rs:163-184 | The four sigma functions are the stated rotations and shifts of whole words |
| Sha256.Sha256Hex | crates/boundary/src/catalog_cache.rs:134-201 | For every byte string the result is the standard's digest in 64 hexadecimal digits |
| Sha256.RoundConstantsAreCubeRoots | crates/boundary/src/catalog_cache.rs:135-147 | Each round constant is the first 32 fraction bits of the cube root of its prime |
| Sha256.InitialIsSquareRoots | crates/boundary/src/catalog_cache.rs:147-150 | Each initial word is the first 32 fraction bits of the square root of its prime |
| Sha256.HexInjective | crates/boundary/src/catalog_cache.rs:200 | Different digests have different names |
| Bindings.CompiledStrict | crates/core/src/lib.rs:1436-1443 | Administrator schemas require every property at every depth |
| Bindings.PointerResolves | crates/core/src/lib.rs:1963-1970 | In a conforming input a pointer leads to a value if and only if the schema knows it, and that value conforms to the schema it names |
| Bindings.CompileBindings | crates/core/src/lib.rs:1769-1832 | Succeeds exactly when every node is a binding; literals hold no NUL, inputs point at scalars, `each` at arrays of scalars |
| Bindings.SegmentDefined | crates/core/src/lib.rs:2163-2168 | The pointer lookups of a command line cannot fail on a validated input, and yield strings and numbers |
| Bindings.ResolveCli | crates/core/src/lib.rs:2140-2180 | The argument vector is the bindings' values flattened in order, each string and number itself and any zero the digit 0; after validation the only error is a NUL in a bound string |
| Bindings.AdoptedExactly | crates/core/src/lib.rs:1834-1938 | A binding is adopted if and only if nothing in it stands deeper than 32 and every leaf in it is a bounded literal without NUL, a pointer the schema knows, or a well-formed variable name that is set |
| Bindings.CallBuilds | crates/core/src/lib.rs:2182-2226 | A call sends an object if and only if the input is valid and the object is built as configured: at each input leaf the value its pointer leads to, at each environment leaf that variable's text, at each literal its canonical form, with exactly the configured names and items |
| Bindings.McpResolves | crates/core/src/lib.rs:2846-2875 | Resolving an adopted binding never fails, and every input leaf conforms to the schema at its pointer |
| Bindings.CallRefusedOnlyForInput | crates/core/src/lib.rs:2182-2226 | With adopted bindings a call is refused if and only if its input is invalid |
| Bindings.InputsReachOnlyInputLeaves | crates/core/src/lib.rs:2846-2875 | Two inputs give arguments that differ at most at input leaves |
| Bindings.OnlyPointersMatter | crates/core/src/lib.rs:2846-2875 | Inputs that agree at the pointers a binding reads give equal arguments |

## Left out

- Text and paths of diagnostics and their order in the schema compiler: a compile error is `None`.
- Regular expressions: an uninterpreted engine; the compiled-size limit is part of it.
- YAML and JSON text, serde, rmcp message types: the model starts from values. Configuration checks on
  names, limits and targets appear as well-formedness predicates.
- Floats as bit patterns: a finite float is its real value, and -0.0 is 0.0; `usize` is 64 bits.
- String lengths in characters follow Rust's `char` count, and sizes its UTF-8 bytes; surrogates are not modelled.
- Decimal rendering of numbers in command lines: an argument holds the number; a zero is written `0`.
- Process creation, signals, pipes, stderr draining and timers: spawning, writing, receiving and being
  dropped are nondeterministic. A timeout or shutdown strikes at writes and waits for replies, not
  inside the reaping of a process that has already been moved out of the session.
- Diagnostics capture, result adaptation details, response formatting, revisions on the public wire: the
  adaptation of a result is a parameter of `Call` and `Execute`.
- Poisoned mutexes and counters at their maximum; `saturating_add` is addition.
- The v3 catalog's freshness per connection: a call may reconnect without rediscovery, so the claim is
  discovery by this process. Failed writes of a response end the run's promise to the client (`broken`).
- Interleavings of the v2 catalog's requests: refreshes are taken one at a time.
- Cache file format, paths and atomic renames: the durable store is a map whose writes succeed or fail.
- Sorting and rendering of the management and list JSON, `DebugLogger`, the command line of the broker.
- I/O errors while reading messages, and what follows a message that is too large: the connection stops.
- Suspended tasks as such: ServingV3 and Admission are transition systems on values, not async code.
- That the table of primes in Sha256 lists the first 64 primes is read off the table, not proved.
- CatalogV2.FrozenForever: assumes a store is configured and that no restart fails to load the target, because a process that cannot read its store freezes afresh.
- ServingV3.NoSilentChange: assumes no write to the client has failed.
