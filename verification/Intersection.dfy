/** Intersecting one upstream property schema with an administrator's local constraint. */
module Intersection {
  import opened Json
  import opened Schemas
  import opened Republish

  const MAX_U64: JsonInt := 0xFFFF_FFFF_FFFF_FFFF

  // The merge of each keyword.

  function MergePattern(incoming: Option<Value>, current: Option<Value>): Option<Value> {
    if incoming.Some? then incoming else current
  }

  function MergeMinLength(incoming: Option<Value>, current: Option<Value>): Option<Value> {
    if CountOf(incoming).None? then current
    else
      var low: JsonInt := if CountOf(current).Some? then current.value.n.i else 0;
      Some(Num(Int(if low < incoming.value.n.i then incoming.value.n.i else low)))
  }

  function MergeMaxLength(incoming: Option<Value>, current: Option<Value>): Option<Value> {
    if CountOf(incoming).None? then current
    else
      var high: JsonInt := if CountOf(current).Some? then current.value.n.i else MAX_U64;
      Some(Num(Int(if high > incoming.value.n.i then incoming.value.n.i else high)))
  }

  /** The bound already present is kept unless the incoming one compares `tighter`. */
  function MergeBound(incoming: Option<Value>, current: Option<Value>, tighter: Order): Option<Value> {
    if BoundOf(incoming).None? then current
    else if BoundOf(current).None? then incoming
    else if NumericCompare(incoming.value.n, current.value.n) == tighter then incoming
    else current
  }

  predicate Matches(incoming: seq<Value>, x: Value) {
    exists v :: v in incoming && SchemaEqual(v, x)
  }

  function Kept(existing: seq<Value>, incoming: seq<Value>): seq<Value> {
    if existing == [] then []
    else
      (if Matches(incoming, existing[0]) then [existing[0]] else [])
      + Kept(existing[1..], incoming)
  }

  function MergeEnum(incoming: Option<Value>, current: Option<Value>): Option<Value> {
    if incoming.None? || !incoming.value.Arr? then current
    else if current.Some? && current.value.Arr? then Some(Arr(Kept(current.value.items, incoming.value.items)))
    else incoming
  }

  function Merge(c: Keywords, w: Keywords): Keywords {
    w.(pattern := MergePattern(c.pattern, w.pattern),
       minLength := MergeMinLength(c.minLength, w.minLength),
       maxLength := MergeMaxLength(c.maxLength, w.maxLength),
       minimum := MergeBound(c.minimum, w.minimum, Greater),
       maximum := MergeBound(c.maximum, w.maximum, Less),
       enums := MergeEnum(c.enums, w.enums))
  }

  /** The conditions under which the merge itself is rejected. */
  predicate MergeAllowed(kind: string, c: Keywords, w: Keywords) {
    && (c.pattern.Some? && w.pattern.Some? ==> c.pattern == w.pattern)
    && (c.pattern.Some? || c.minLength.Some? || c.maxLength.Some? ==> kind == "string")
    && (c.minLength.Some? ==> CountOf(c.minLength).Some?)
    && (c.maxLength.Some? ==> CountOf(c.maxLength).Some?)
    && (c.minimum.Some? || c.maximum.Some? ==> kind == "integer" || kind == "number")
    && (c.minimum.Some? ==> c.minimum.value.Num?)
    && (c.maximum.Some? ==> c.maximum.value.Num?)
    && (c.enums.Some? ==> c.enums.value.Arr? && MergeEnum(c.enums, w.enums).value.items != [])
  }

  function Put(m: map<string, Value>, key: string, x: Option<Value>): map<string, Value> {
    if x.Some? then m[key := x.value] else m
  }

  function PutMerged(m: map<string, Value>, w: Keywords): map<string, Value> {
    Put(Put(Put(Put(Put(Put(m, "pattern", w.pattern), "minLength", w.minLength), "maxLength", w.maxLength),
                "minimum", w.minimum), "maximum", w.maximum), "enum", w.enums)
  }

  predicate Mergeable(property: Value, constraint: Value) {
    && property.Obj? && constraint.Obj?
    && var w := Read(property.fields);
    && w.typ.Some? && w.typ.value.Str?
    && MergeAllowed(w.typ.value.s, Read(constraint.fields), w)
  }

  function Merged(property: Value, constraint: Value): Value
    requires Mergeable(property, constraint)
  {
    Obj(PutMerged(property.fields, Merge(Read(constraint.fields), Read(property.fields))))
  }

  /** Specification of the intersection; None is every diagnostic. */
  function Intersect(rx: Engine, property: Value, constraint: Value): Option<Value> {
    if Mergeable(property, constraint) && Compile(rx, Merged(property, constraint), false, 2, false).Some?
    then Some(Canonical(Merged(property, constraint)))
    else None
  }

  // What a constraint asks of a value, read directly from its JSON.

  predicate ConstraintMet(rx: Engine, rule: Rule, c: Keywords, v: Value) {
    && (c.enums.Some? && c.enums.value.Arr? ==> exists e :: e in c.enums.value.items && SchemaEqual(e, v))
    && (v.Num? ==> LowOk(rule, v.n, BoundOf(c.minimum)) && HighOk(rule, v.n, BoundOf(c.maximum)))
    && (v.Str? ==> SizeOk(|v.s|, CountOf(c.minLength), CountOf(c.maxLength)))
    && (v.Str? && PatternOf(c.pattern).Some? ==> rx.matches(PatternOf(c.pattern).value, v.s))
  }

  ghost predicate Meets(rx: Engine, constraint: Value, v: Value) {
    constraint.Obj? && ConstraintMet(rx, Exact, Read(constraint.fields), v)
  }

  /** Two bounds merged on the zero branch: the merge keeps the looser of the two. */
  predicate Lost(local: Option<Number>, upstream: Option<Number>) {
    local.Some? && upstream.Some? && ZeroBranch(local.value, upstream.value)
  }

  /** No merged bound is decided on the zero branch. */
  predicate MergeExact(c: Keywords, w: Keywords) {
    !Lost(BoundOf(c.minimum), BoundOf(w.minimum)) && !Lost(BoundOf(c.maximum), BoundOf(w.maximum))
  }

  predicate LowMet(n: Number, local: Option<Number>, upstream: Option<Number>) {
    if Lost(local, upstream) then LowOk(Exact, n, local) || LowOk(Exact, n, upstream)
    else LowOk(Exact, n, local) && LowOk(Exact, n, upstream)
  }

  predicate HighMet(n: Number, local: Option<Number>, upstream: Option<Number>) {
    if Lost(local, upstream) then HighOk(Exact, n, local) || HighOk(Exact, n, upstream)
    else HighOk(Exact, n, local) && HighOk(Exact, n, upstream)
  }

  /** What every merged bound means: both bounds, or either one when the merge is on the zero branch. */
  lemma BoundsMerged(n: Number, incoming: Option<Value>, current: Option<Value>)
    ensures LowOk(Exact, n, BoundOf(MergeBound(incoming, current, Greater))) <==>
              LowMet(n, BoundOf(incoming), BoundOf(current))
    ensures HighOk(Exact, n, BoundOf(MergeBound(incoming, current, Less))) <==>
              HighMet(n, BoundOf(incoming), BoundOf(current))
  {
    if BoundOf(incoming).Some? && BoundOf(current).Some? {
      NumericCompareExact(incoming.value.n, current.value.n);
    }
  }

  /** The merged minimum means both minimums exactly when it is not decided on the zero branch. */
  lemma MinimumMeetExact(incoming: Option<Value>, current: Option<Value>)
    ensures !Lost(BoundOf(incoming), BoundOf(current)) <==>
            forall n :: LowOk(Exact, n, BoundOf(MergeBound(incoming, current, Greater))) <==>
                        LowOk(Exact, n, BoundOf(current)) && LowOk(Exact, n, BoundOf(incoming))
  {
    if BoundOf(incoming).Some? && BoundOf(current).Some? {
      var i, c := incoming.value.n, current.value.n;
      NumericCompareExact(i, c);
      var chosen := MergeBound(incoming, current, Greater);
      if ZeroBranch(i, c) {
        assert LowOk(Exact, chosen.value.n, BoundOf(chosen));
      }
    }
  }

  lemma MaximumMeetExact(incoming: Option<Value>, current: Option<Value>)
    ensures !Lost(BoundOf(incoming), BoundOf(current)) <==>
            forall n :: HighOk(Exact, n, BoundOf(MergeBound(incoming, current, Less))) <==>
                        HighOk(Exact, n, BoundOf(current)) && HighOk(Exact, n, BoundOf(incoming))
  {
    if BoundOf(incoming).Some? && BoundOf(current).Some? {
      var i, c := incoming.value.n, current.value.n;
      NumericCompareExact(i, c);
      var chosen := MergeBound(incoming, current, Less);
      if ZeroBranch(i, c) {
        assert HighOk(Exact, chosen.value.n, BoundOf(chosen));
      }
    }
  }

  lemma {:induction false} KeptMembers(existing: seq<Value>, incoming: seq<Value>, c: Value)
    ensures c in Kept(existing, incoming) <==> c in existing && Matches(incoming, c)
  {
    hide Matches;
    if existing != [] {
      KeptMembers(existing[1..], incoming, c);
      assert existing == [existing[0]] + existing[1..];
    }
  }

  lemma EnumMeet(existing: seq<Value>, incoming: seq<Value>, v: Value)
    requires existing != [] && Kept(existing, incoming) != []
    ensures EnumOk(Kept(existing, incoming), v) <==>
            EnumOk(existing, v) && exists e :: e in incoming && SchemaEqual(e, v)
  {
    forall c
      ensures c in Kept(existing, incoming) <==> c in existing && exists e :: e in incoming && SchemaEqual(e, c)
    {
      KeptMembers(existing, incoming, c);
    }
    if EnumOk(Kept(existing, incoming), v) {
      var c :| c in Kept(existing, incoming) && SchemaEqual(c, v);
      var e :| e in incoming && SchemaEqual(e, c);
      SchemaEqualEquivalence(e, c, v);
    }
    if EnumOk(existing, v) && exists e :: e in incoming && SchemaEqual(e, v) {
      var c :| c in existing && SchemaEqual(c, v);
      var e :| e in incoming && SchemaEqual(e, v);
      SchemaEqualEquivalence(c, v, c);
      SchemaEqualEquivalence(e, v, c);
      assert c in Kept(existing, incoming);
    }
  }

  lemma ReadPutText(m: map<string, Value>, pattern: Option<Value>, low: Option<Value>, high: Option<Value>)
    ensures Read(Put(Put(Put(m, "pattern", pattern), "minLength", low), "maxLength", high)) ==
            Read(m).(pattern := MergePattern(pattern, Read(m).pattern),
                     minLength := MergePattern(low, Read(m).minLength),
                     maxLength := MergePattern(high, Read(m).maxLength))
  {}

  lemma ReadPutNumbers(m: map<string, Value>, low: Option<Value>, high: Option<Value>, enums: Option<Value>)
    ensures Read(Put(Put(Put(m, "minimum", low), "maximum", high), "enum", enums)) ==
            Read(m).(minimum := MergePattern(low, Read(m).minimum),
                     maximum := MergePattern(high, Read(m).maximum),
                     enums := MergePattern(enums, Read(m).enums))
  {}

  /** Merging writes the six constraint keywords and nothing else. */
  lemma ReadMerged(property: Value, constraint: Value)
    requires Mergeable(property, constraint)
    ensures Read(Merged(property, constraint).fields) == Merge(Read(constraint.fields), Read(property.fields))
  {
    hide Read;
    hide Put;
    var w := Merge(Read(constraint.fields), Read(property.fields));
    ReadPutText(property.fields, w.pattern, w.minLength, w.maxLength);
    ReadPutNumbers(Put(Put(Put(property.fields, "pattern", w.pattern), "minLength", w.minLength),
                       "maxLength", w.maxLength),
                   w.minimum, w.maximum, w.enums);
  }

  lemma PutShape(m: map<string, Value>, key: string, x: Option<Value>)
    requires key in {"pattern", "minLength", "maxLength", "minimum", "maximum", "enum"}
    ensures Put(m, key, x).Keys <= ALLOWED <==> m.Keys <= ALLOWED
    ensures PropertiesOf(Obj(Put(m, key, x))) == PropertiesOf(Obj(m))
    ensures ItemsOf(Obj(Put(m, key, x))) == ItemsOf(Obj(m))
  {}

  lemma MergedShape(property: Value, constraint: Value)
    requires Mergeable(property, constraint)
    ensures property.fields.Keys <= ALLOWED <==> Merged(property, constraint).fields.Keys <= ALLOWED
    ensures PropertiesOf(Merged(property, constraint)) == PropertiesOf(property)
    ensures ItemsOf(Merged(property, constraint)) == ItemsOf(property)
  {
    hide Put;
    hide Merge;
    hide Read;
    hide MergeAllowed;
    hide PropertiesOf;
    hide ItemsOf;
    var w := Merge(Read(constraint.fields), Read(property.fields));
    var m := property.fields;
    PutShape(m, "pattern", w.pattern);
    m := Put(m, "pattern", w.pattern);
    PutShape(m, "minLength", w.minLength);
    m := Put(m, "minLength", w.minLength);
    PutShape(m, "maxLength", w.maxLength);
    m := Put(m, "maxLength", w.maxLength);
    PutShape(m, "minimum", w.minimum);
    m := Put(m, "minimum", w.minimum);
    PutShape(m, "maximum", w.maximum);
    m := Put(m, "maximum", w.maximum);
    PutShape(m, "enum", w.enums);
  }

  /** The compiled merge has the children of the compiled property and the merged keywords. */
  lemma CompileMerged(rx: Engine, property: Value, constraint: Value)
    requires Mergeable(property, constraint)
    requires Compile(rx, property, false, 2, false).Some?
             && Compile(rx, Merged(property, constraint), false, 2, false).Some?
    ensures var p := Compile(rx, property, false, 2, false).value;
            var m := Compile(rx, Merged(property, constraint), false, 2, false).value;
            var w := Read(property.fields);
            var u := Merge(Read(constraint.fields), w);
            && HeaderOk(rx, w, false, false) && HeaderOk(rx, u, false, false)
            && p == Node(w, p.properties, p.items, p.publicJson)
            && m == Node(u, p.properties, p.items, m.publicJson)
  {
    hide Compile;
    hide HeaderOk;
    hide Node;
    hide Merge;
    hide MergeAllowed;
    hide Read;
    hide PutMerged;
    ReadMerged(property, constraint);
    MergedShape(property, constraint);
    CompileAccepted(rx, property, false, 2, false);
    CompileAccepted(rx, Merged(property, constraint), false, 2, false);
    CompileFromParts(rx, property, false, 2, false);
    CompileFromParts(rx, Merged(property, constraint), false, 2, false);
    SameCompiled(rx, property, Merged(property, constraint), false, 2, false);
  }

  /** A schema without the six keywords a constraint can touch. */
  ghost function Bare(t: Schema): Schema {
    t.(enumValues := [], minimum := None, maximum := None, minLength := None, maxLength := None, pattern := None,
       publicJson := Null)
  }

  ghost predicate Bounded(rx: Engine, rule: Rule, t: Schema, v: Value) {
    && EnumOk(t.enumValues, v)
    && (v.Num? ==> LowOk(rule, v.n, t.minimum) && HighOk(rule, v.n, t.maximum))
    && (v.Str? ==> SizeOk(|v.s|, t.minLength, t.maxLength))
    && (v.Str? && t.pattern.Some? ==> rx.matches(t.pattern.value, v.s))
  }

  lemma ConformsSplit(rx: Engine, rule: Rule, t: Schema, v: Value)
    ensures Conforms(rx, rule, t, v) <==> Conforms(rx, rule, Bare(t), v) && Bounded(rx, rule, t, v)
  {
    hide EnumOk;
    hide AllUnique;
    assert EnumOk([], v) by { EnumOkEmpty(v); }
  }

  lemma EnumOkEmpty(v: Value)
    ensures EnumOk([], v)
  {}

  lemma SizeMeet(n: nat, c: Keywords, w: Keywords)
    requires c.minLength.Some? ==> CountOf(c.minLength).Some?
    requires c.maxLength.Some? ==> CountOf(c.maxLength).Some?
    ensures SizeOk(n, CountOf(MergeMinLength(c.minLength, w.minLength)),
                   CountOf(MergeMaxLength(c.maxLength, w.maxLength))) <==>
            SizeOk(n, CountOf(w.minLength), CountOf(w.maxLength))
            && SizeOk(n, CountOf(c.minLength), CountOf(c.maxLength))
  {}

  /** A schema, or a constraint, without its numeric bounds. */
  function Unbounded(p: Schema): Schema {
    p.(minimum := None, maximum := None)
  }

  function UnboundedKeywords(c: Keywords): Keywords {
    c.(minimum := None, maximum := None)
  }

  /** What an intersection enforces: everything both sides ask, and the bounds as they were merged. */
  ghost predicate Enforced(rx: Engine, p: Schema, c: Keywords, v: Value) {
    && Conforms(rx, Exact, Unbounded(p), v)
    && ConstraintMet(rx, Exact, UnboundedKeywords(c), v)
    && (v.Num? ==> LowMet(v.n, BoundOf(c.minimum), p.minimum) && HighMet(v.n, BoundOf(c.maximum), p.maximum))
  }

  /** No bound of the constraint meets its upstream bound on the zero branch. */
  predicate NoneLost(p: Schema, c: Keywords) {
    !Lost(BoundOf(c.minimum), p.minimum) && !Lost(BoundOf(c.maximum), p.maximum)
  }

  lemma UnboundedConforms(rx: Engine, p: Schema, v: Value)
    ensures Conforms(rx, Exact, p, v) <==>
            && Conforms(rx, Exact, Unbounded(p), v)
            && (v.Num? ==> LowOk(Exact, v.n, p.minimum) && HighOk(Exact, v.n, p.maximum))
  {
    hide EnumOk;
    hide AllUnique;
  }

  /** What both sides accept is always enforced as accepted; nothing more is, unless a bound is lost. */
  lemma EnforcedMeans(rx: Engine, p: Schema, c: Keywords, v: Value)
    ensures Conforms(rx, Exact, p, v) && ConstraintMet(rx, Exact, c, v) ==> Enforced(rx, p, c, v)
    ensures NoneLost(p, c) ==> (Enforced(rx, p, c, v) <==> Conforms(rx, Exact, p, v) && ConstraintMet(rx, Exact, c, v))
  {
    hide EnumOk;
    hide AllUnique;
    hide ZeroBranch;
    hide SizeOk;
    hide LowOk;
    hide HighOk;
    UnboundedConforms(rx, p, v);
  }

  /** The value meets each upstream bound that its merge lost. */
  predicate UpstreamKept(p: Schema, c: Keywords, v: Value) {
    v.Num? ==>
      && (Lost(BoundOf(c.minimum), p.minimum) ==> LowOk(Exact, v.n, p.minimum))
      && (Lost(BoundOf(c.maximum), p.maximum) ==> HighOk(Exact, v.n, p.maximum))
  }

  /** What is enforced conforms upstream exactly when it meets the upstream bounds that were lost. */
  lemma EnforcedKept(rx: Engine, p: Schema, c: Keywords, v: Value)
    requires Enforced(rx, p, c, v)
    ensures Conforms(rx, Exact, p, v) <==> UpstreamKept(p, c, v)
    ensures NoneLost(p, c) ==> UpstreamKept(p, c, v)
  {
    hide Conforms;
    hide ConstraintMet;
    hide LowOk;
    hide HighOk;
    UnboundedConforms(rx, p, v);
  }

  lemma BoundedMeet(rx: Engine, kind: string, c: Keywords, w: Keywords, p: Schema, m: Schema, v: Value)
    requires MergeAllowed(kind, c, w)
    requires HeaderOk(rx, w, false, false) && HeaderOk(rx, Merge(c, w), false, false)
    requires p == Node(w, p.properties, p.items, p.publicJson)
    requires m == Node(Merge(c, w), p.properties, p.items, m.publicJson)
    ensures Bounded(rx, Exact, m, v) <==>
            && Bounded(rx, Exact, Unbounded(p), v)
            && ConstraintMet(rx, Exact, UnboundedKeywords(c), v)
            && (v.Num? ==> LowMet(v.n, BoundOf(c.minimum), p.minimum) && HighMet(v.n, BoundOf(c.maximum), p.maximum))
  {
    hide NumericCompare;
    hide EnumOk;
    hide SchemaEqual;
    hide Kept;
    hide MergeMinLength;
    hide MergeMaxLength;
    hide LowMet;
    hide HighMet;
    hide SizeOk;
    hide ObjectHeaderOk;
    hide CountsOk;
    hide MergeBound;
    if v.Num? {
      BoundsMerged(v.n, c.minimum, w.minimum);
      BoundsMerged(v.n, c.maximum, w.maximum);
    }
    if v.Str? { SizeMeet(|v.s|, c, w); }
    EnumsMeet(rx, kind, c, w, v);
  }

  lemma EnumsMeet(rx: Engine, kind: string, c: Keywords, w: Keywords, v: Value)
    requires MergeAllowed(kind, c, w) && HeaderOk(rx, w, false, false)
    ensures EnumOk(EnumOf(MergeEnum(c.enums, w.enums)), v) <==>
            && EnumOk(EnumOf(w.enums), v)
            && (c.enums.Some? && c.enums.value.Arr? ==> exists e :: e in c.enums.value.items && SchemaEqual(e, v))
  {
    if c.enums.Some? && w.enums.Some? {
      EnumMeet(w.enums.value.items, c.enums.value.items, v);
    }
  }

  lemma BareSame(rx: Engine, c: Keywords, w: Keywords, p: Schema, m: Schema)
    requires KindOf(w).Some?
    requires p == Node(w, p.properties, p.items, p.publicJson)
    requires m == Node(Merge(c, w), p.properties, p.items, m.publicJson)
    ensures Bare(m) == Bare(p)
  {}

  /** A value conforms to the merged schema exactly when property and constraint enforce it together. */
  lemma MergeEnforces(rx: Engine, property: Value, constraint: Value, v: Value)
    requires Mergeable(property, constraint)
    requires Compile(rx, property, false, 2, false).Some?
             && Compile(rx, Merged(property, constraint), false, 2, false).Some?
    ensures Conforms(rx, Exact, Compile(rx, Merged(property, constraint), false, 2, false).value, v) <==>
            Enforced(rx, Compile(rx, property, false, 2, false).value, Read(constraint.fields), v)
  {
    hide Compile;
    hide HeaderOk;
    hide Node;
    hide Merge;
    hide MergeAllowed;
    hide Read;
    hide Conforms;
    hide Bounded;
    hide PutMerged;
    hide ConstraintMet;
    hide LowMet;
    hide HighMet;
    CompileMerged(rx, property, constraint);
    var p := Compile(rx, property, false, 2, false).value;
    var m := Compile(rx, Merged(property, constraint), false, 2, false).value;
    var c, w := Read(constraint.fields), Read(property.fields);
    ConformsSplit(rx, Exact, Unbounded(p), v);
    ConformsSplit(rx, Exact, m, v);
    HeaderHasKind(rx, w, false, false);
    BareSame(rx, c, w, p, m);
    BoundedMeet(rx, w.typ.value.s, c, w, p, m, v);
  }

  /**
   * The published result of a successful intersection, for every property and constraint. It
   * compiles unless some node has opposed bounds, and it then accepts a value exactly when the two
   * enforce it. It never refuses what both accept, and accepts nothing else unless a bound is lost.
   */
  lemma IntersectIsMeet(rx: Engine, property: Value, constraint: Value)
    requires Compile(rx, property, false, 2, false).Some?
    requires Intersect(rx, property, constraint).Some?
    ensures var p := Compile(rx, property, false, 2, false).value;
            var c := Read(constraint.fields);
            var r := Compile(rx, Intersect(rx, property, constraint).value, false, 2, false);
            && (r.Some? <==> !AnyOpposed(Compile(rx, Merged(property, constraint), false, 2, false).value))
            && (r.Some? ==>
                  && (forall v :: Conforms(rx, Exact, r.value, v) <==> Enforced(rx, p, c, v))
                  && (forall v :: Conforms(rx, Exact, p, v) && ConstraintMet(rx, Exact, c, v) ==>
                        Conforms(rx, Exact, r.value, v))
                  && (NoneLost(p, c) ==>
                        forall v :: Conforms(rx, Exact, r.value, v) <==>
                          Conforms(rx, Exact, p, v) && ConstraintMet(rx, Exact, c, v)))
  {
    hide Compile;
    hide Conforms;
    hide Merged;
    hide MergeAllowed;
    hide AnyOpposed;
    hide ConstraintMet;
    hide Enforced;
    hide NoneLost;
    hide Read;
    hide Canonical;
    CompileCanonical(rx, Merged(property, constraint), false, 2, false);
    var p := Compile(rx, property, false, 2, false).value;
    var c := Read(constraint.fields);
    var m := Compile(rx, Merged(property, constraint), false, 2, false).value;
    forall v
      ensures Conforms(rx, Exact, CanonicalSchema(m), v) <==> Enforced(rx, p, c, v)
      ensures Conforms(rx, Exact, p, v) && ConstraintMet(rx, Exact, c, v) ==> Enforced(rx, p, c, v)
      ensures NoneLost(p, c) ==>
                (Enforced(rx, p, c, v) <==> Conforms(rx, Exact, p, v) && ConstraintMet(rx, Exact, c, v))
    {
      ExactIgnoresCanonical(rx, m, v);
      MergeEnforces(rx, property, constraint, v);
      EnforcedMeans(rx, p, c, v);
    }
  }

  /** The conditions on the compiled property and on its JSON are one. */
  lemma NoneLostIsExact(rx: Engine, property: Value, constraint: Value)
    requires property.Obj? && constraint.Obj? && Compile(rx, property, false, 2, false).Some?
    ensures NoneLost(Compile(rx, property, false, 2, false).value, Read(constraint.fields)) <==>
            MergeExact(Read(constraint.fields), Read(property.fields))
  {
    hide Compile;
    hide HeaderOk;
    hide Read;
    hide Lost;
    CompileAccepted(rx, property, false, 2, false);
    HeaderHasKind(rx, Read(property.fields), false, false);
    CompileFromParts(rx, property, false, 2, false);
  }

  // What the code accepts by an intersection, against the upstream property.

  /**
   * A number meets the upstream property's own bounds as a number; any other value is compared with
   * no bound on the zero branch.
   */
  predicate MeetsUpstream(p: Schema, t: Schema, v: Value) {
    if v.Num? then LowOk(Exact, v.n, p.minimum) && HighOk(Exact, v.n, p.maximum) else OrderOK(t, v)
  }

  /** The same of every member of an argument object, `t` being the schema it was accepted by. */
  predicate ArgumentsMeet(up: Schema, t: Schema, m: map<string, Value>) {
    forall k :: k in m && k in up.properties && k in t.properties ==>
                  MeetsUpstream(up.properties[k], t.properties[k], m[k])
  }

  /** What an intersection keeps of its two sides besides numeric bounds. */
  lemma MergedKeeps(rx: Engine, property: Value, constraint: Value, v: Value)
    requires Mergeable(property, constraint)
    requires Compile(rx, property, false, 2, false).Some?
             && Compile(rx, Merged(property, constraint), false, 2, false).Some?
    ensures var p := Compile(rx, property, false, 2, false).value;
            var m := Compile(rx, Merged(property, constraint), false, 2, false).value;
            && m.kind == p.kind
            && (EnumOk(m.enumValues, v) ==> EnumOk(p.enumValues, v))
            && (!v.Num? && Bounded(rx, Exact, m, v) ==>
                  ConstraintMet(rx, Exact, UnboundedKeywords(Read(constraint.fields)), v))
  {
    hide Compile;
    hide HeaderOk;
    hide Merge;
    hide MergeAllowed;
    hide Read;
    hide Conforms;
    hide Bounded;
    hide PutMerged;
    hide ConstraintMet;
    hide EnumOk;
    CompileMerged(rx, property, constraint);
    var p := Compile(rx, property, false, 2, false).value;
    var m := Compile(rx, Merged(property, constraint), false, 2, false).value;
    var c, w := Read(constraint.fields), Read(property.fields);
    HeaderHasKind(rx, w, false, false);
    MergeKeepsKind(c, w);
    BoundedMeet(rx, w.typ.value.s, c, w, p, m, v);
    EnumsMeet(rx, w.typ.value.s, c, w, v);
  }

  lemma MergeKeepsKind(c: Keywords, w: Keywords)
    ensures KindOf(Merge(c, w)) == KindOf(w) && Merge(c, w).enums == MergeEnum(c.enums, w.enums)
  {}

  /** Apart from numbers, the keywords a constraint can touch are judged alike in any order and any form. */
  lemma BoundedAnyway(rx: Engine, rule: Rule, m: Schema, v: Value)
    requires Conforms(rx, rule, CanonicalSchema(m), v)
    ensures EnumOk(m.enumValues, v)
    ensures !v.Num? ==> Bounded(rx, Exact, m, v)
  {
    hide Conforms;
    hide EnumOk;
    hide Bare;
    ConformsSplit(rx, rule, CanonicalSchema(m), v);
    EnumOkCanonical(m.enumValues, v);
  }

  /** A value that the code accepts by an intersection conforms, as numbers, upstream exactly when it meets upstream. */
  lemma PropertyForwarded(rx: Engine, property: Value, constraint: Value, v: Value)
    requires Compile(rx, property, false, 2, false).Some?
    requires Intersect(rx, property, constraint).Some?
    requires Compile(rx, Intersect(rx, property, constraint).value, false, 2, false).Some?
    requires Conforms(rx, Coded, Compile(rx, Intersect(rx, property, constraint).value, false, 2, false).value, v)
    ensures var p := Compile(rx, property, false, 2, false).value;
            var r := Compile(rx, Intersect(rx, property, constraint).value, false, 2, false).value;
            Conforms(rx, Exact, p, v) <==> MeetsUpstream(p, r, v)
  {
    hide Compile;
    hide Conforms;
    hide Mergeable;
    hide Merged;
    hide AnyOpposed;
    hide ConstraintMet;
    hide Enforced;
    hide NoneLost;
    hide OrderOK;
    hide Bounded;
    hide EnumOk;
    hide Read;
    hide Canonical;
    hide CanonicalSchema;
    var p := Compile(rx, property, false, 2, false).value;
    var m := Compile(rx, Merged(property, constraint), false, 2, false).value;
    var r := Compile(rx, Intersect(rx, property, constraint).value, false, 2, false).value;
    CompileCanonical(rx, Merged(property, constraint), false, 2, false);
    assert r == CanonicalSchema(m);
    BoundedAnyway(rx, Coded, m, v);
    MergedKeeps(rx, property, constraint, v);
    AcceptedExact(rx, r, v);
    IntersectIsMeet(rx, property, constraint);
    if v.Num? {
      NumberConforms(rx, p, m, v);
    } else {
      IntersectsObjects(rx, property, constraint);
      EnforcedOffNumbers(rx, p, Read(constraint.fields), v);
    }
  }

  lemma NumberConforms(rx: Engine, p: Schema, m: Schema, v: Value)
    requires v.Num? && Conforms(rx, Coded, CanonicalSchema(m), v) && m.kind == p.kind && EnumOk(p.enumValues, v)
    ensures Conforms(rx, Exact, p, v) <==> LowOk(Exact, v.n, p.minimum) && HighOk(Exact, v.n, p.maximum)
  {
    hide EnumOk;
    hide LowOk;
    hide HighOk;
  }

  lemma EnforcedOffNumbers(rx: Engine, p: Schema, c: Keywords, v: Value)
    requires !v.Num? && ConstraintMet(rx, Exact, UnboundedKeywords(c), v)
    ensures Enforced(rx, p, c, v) <==> Conforms(rx, Exact, p, v)
  {
    hide Conforms;
    hide ConstraintMet;
    UnboundedConforms(rx, p, v);
  }

  // The same for constraints that are not known to be objects.

  ghost predicate MergeDecided(property: Value, constraint: Value) {
    property.Obj? && constraint.Obj? ==> MergeExact(Read(constraint.fields), Read(property.fields))
  }

  ghost predicate EnforcedAt(rx: Engine, p: Schema, constraint: Value, v: Value) {
    constraint.Obj? && Enforced(rx, p, Read(constraint.fields), v)
  }

  /** One property: the policy is never stricter than what is enforced, and is the same unless a bound is lost. */
  lemma PropertyMeans(rx: Engine, property: Value, constraint: Value, v: Value)
    requires property.Obj? && constraint.Obj? && Compile(rx, property, false, 2, false).Some?
    ensures var p := Compile(rx, property, false, 2, false).value;
            && (Conforms(rx, Exact, p, v) && Meets(rx, constraint, v) ==> EnforcedAt(rx, p, constraint, v))
            && (MergeDecided(property, constraint) ==>
                  (EnforcedAt(rx, p, constraint, v) <==> Conforms(rx, Exact, p, v) && Meets(rx, constraint, v)))
  {
    hide Compile;
    hide Conforms;
    hide ConstraintMet;
    hide Enforced;
    hide NoneLost;
    hide MergeExact;
    hide Read;
    NoneLostIsExact(rx, property, constraint);
    EnforcedMeans(rx, Compile(rx, property, false, 2, false).value, Read(constraint.fields), v);
  }

  lemma EnforcedAtKept(rx: Engine, p: Schema, constraint: Value, v: Value)
    requires EnforcedAt(rx, p, constraint, v)
    ensures constraint.Obj? && (Conforms(rx, Exact, p, v) <==> UpstreamKept(p, Read(constraint.fields), v))
  {
    hide Conforms;
    hide Enforced;
    hide UpstreamKept;
    hide Read;
    EnforcedKept(rx, p, Read(constraint.fields), v);
  }

  lemma IntersectsObjects(rx: Engine, property: Value, constraint: Value)
    requires Intersect(rx, property, constraint).Some?
    ensures property.Obj? && constraint.Obj?
  {
    hide Compile;
  }

  lemma CompiledIsObject(rx: Engine, v: Value)
    requires Compile(rx, v, false, 2, false).Some?
    ensures v.Obj?
  {
    CompileAccepted(rx, v, false, 2, false);
  }

  // Applying the same constraint again.

  /**
   * A bound that a second merge leaves alone. It moves exactly when the upstream bound 0.0 was
   * kept over a float that is not zero: rewritten as 0, it loses to the same float the next time.
   */
  predicate StableAt(incoming: Option<Number>, current: Option<Number>, tighter: Order) {
    !(incoming.Some? && Flips(incoming.value, current) && NumericCompare(incoming.value, current.value) != tighter)
  }

  predicate Stable(c: Keywords, w: Keywords) {
    && StableAt(BoundOf(c.minimum), BoundOf(w.minimum), Greater)
    && StableAt(BoundOf(c.maximum), BoundOf(w.maximum), Less)
  }

  lemma MergeBoundAgain(incoming: Option<Value>, current: Option<Value>, tighter: Order)
    requires tighter != Equal && (incoming.Some? ==> incoming.value.Num?)
    ensures var u := CanonicalOption(MergeBound(incoming, current, tighter));
            && (MergeBound(incoming, u, tighter) == u <==> StableAt(BoundOf(incoming), BoundOf(current), tighter))
            && (CanonicalOption(MergeBound(incoming, u, tighter)) == u <==>
                  StableAt(BoundOf(incoming), BoundOf(current), tighter))
  {
    if BoundOf(incoming).Some? {
      var i := incoming.value.n;
      NumericCompareExact(i, CanonicalNumber(i));
      if BoundOf(current).Some? {
        var k := current.value.n;
        NumericCompareExact(i, k);
        NumericCompareExact(i, CanonicalNumber(k));
      }
    } else if current.Some? {
      CanonicalIdempotent(current.value);
    }
  }

  lemma {:induction false} KeptAll(existing: seq<Value>, incoming: seq<Value>)
    requires forall c :: c in existing ==> Matches(incoming, c)
    ensures Kept(existing, incoming) == existing
  {
    hide Matches;
    if existing != [] {
      assert existing[0] in existing;
      KeptAll(existing[1..], incoming);
      assert existing == [existing[0]] + existing[1..];
    }
  }

  lemma MergedMatches(incoming: Option<Value>, current: Option<Value>, x: Value)
    requires incoming.Some? && incoming.value.Arr? && x in MergeEnum(incoming, current).value.items
    ensures Matches(incoming.value.items, Canonical(x))
  {
    hide SchemaEqual;
    hide Canonical;
    var i := incoming.value.items;
    if current.Some? && current.value.Arr? {
      KeptMembers(current.value.items, i, x);
    } else {
      SchemaEqualEquivalence(x, x, x);
    }
    var v :| v in i && SchemaEqual(v, x);
    CanonicalInvisible(v, x);
  }

  lemma MergeEnumAgain(incoming: Option<Value>, current: Option<Value>)
    ensures var u := CanonicalOption(MergeEnum(incoming, current));
            MergeEnum(incoming, u) == u
  {
    hide Kept;
    hide Matches;
    if incoming.Some? && incoming.value.Arr? {
      var i := incoming.value.items;
      var merged := MergeEnum(incoming, current).value.items;
      forall k | 0 <= k < |merged| ensures Matches(i, CanonicalAll(merged)[k]) {
        MergedMatches(incoming, current, merged[k]);
      }
      KeptAll(CanonicalAll(merged), i);
    }
  }

  lemma MergeAgain(rx: Engine, kind: string, c: Keywords, w: Keywords)
    requires MergeAllowed(kind, c, w) && HeaderOk(rx, Merge(c, w), false, false)
    ensures var u := CanonicalKeywords(Merge(c, w));
            && MergeAllowed(kind, c, u)
            && Merge(c, u) == u.(minimum := MergeBound(c.minimum, u.minimum, Greater),
                                 maximum := MergeBound(c.maximum, u.maximum, Less))
            && (Merge(c, u) == u <==> Stable(c, w))
            && (CanonicalKeywords(Merge(c, u)) == u ==> Stable(c, w))
  {
    hide NumericCompare;
    hide Kept;
    hide SchemaEqual;
    hide EnumWellFormed;
    hide ObjectHeaderOk;
    hide MergeBound;
    hide MergeEnum;
    hide StableAt;
    MergeBoundAgain(c.minimum, w.minimum, Greater);
    MergeBoundAgain(c.maximum, w.maximum, Less);
    MergeEnumAgain(c.enums, w.enums);
    EnumStaysNonEmpty(c.enums, w.enums);
  }

  lemma EnumStaysNonEmpty(incoming: Option<Value>, current: Option<Value>)
    requires incoming.Some? ==> incoming.value.Arr? && MergeEnum(incoming, current).value.items != []
    ensures incoming.Some? ==>
              var u := CanonicalOption(MergeEnum(incoming, current));
              MergeEnum(incoming, u).Some? && MergeEnum(incoming, u).value.Arr?
              && MergeEnum(incoming, u).value.items != []
  {
    MergeEnumAgain(incoming, current);
  }

  lemma PutSame(m: map<string, Value>, key: string)
    ensures Put(m, key, Get(m, key)) == m
  {}

  lemma PutMergedSame(m: map<string, Value>)
    ensures PutMerged(m, Read(m)) == m
  {
    hide Put;
    hide Get;
    PutSame(m, "pattern");
    PutSame(m, "minLength");
    PutSame(m, "maxLength");
    PutSame(m, "minimum");
    PutSame(m, "maximum");
    PutSame(m, "enum");
  }

  /**
   * The same constraint applied to its own result. Nothing changes exactly when both bounds are
   * stable and no node has opposed bounds; with stable bounds the only other outcome is rejection.
   */
  lemma IntersectAgain(rx: Engine, property: Value, constraint: Value)
    requires Intersect(rx, property, constraint).Some?
    ensures var r := Intersect(rx, property, constraint).value;
            var m := Compile(rx, Merged(property, constraint), false, 2, false).value;
            var stable := Stable(Read(constraint.fields), Read(property.fields));
            && (stable ==> Intersect(rx, r, constraint) == if AnyOpposed(m) then None else Some(r))
            && (Intersect(rx, r, constraint) == Some(r) <==> stable && !AnyOpposed(m))
  {
    hide Compile;
    hide MergeAllowed;
    hide Stable;
    hide Merged;
    hide Canonical;
    hide Read;
    hide AnyOpposed;
    var merged := Merged(property, constraint);
    CompileCanonical(rx, merged, false, 2, false);
    CanonicalIdempotent(merged);
    MergedAgain(rx, property, constraint);
  }

  /** The second merge, not yet compiled: allowed, with its keywords merged from those of the first. */
  lemma SecondMerge(rx: Engine, property: Value, constraint: Value)
    requires Intersect(rx, property, constraint).Some?
    ensures var r := Intersect(rx, property, constraint).value;
            var c, w := Read(constraint.fields), Read(property.fields);
            && r.Obj? && Read(r.fields) == CanonicalKeywords(Merge(c, w))
            && w.typ.Some? && w.typ.value.Str? && MergeAllowed(w.typ.value.s, c, w)
            && HeaderOk(rx, Merge(c, w), false, false)
            && Mergeable(r, constraint)
            && Read(Merged(r, constraint).fields) == Merge(c, Read(r.fields))
  {
    hide Compile;
    hide HeaderOk;
    hide Merge;
    hide MergeAllowed;
    hide Stable;
    hide PutMerged;
    hide Canonical;
    hide Read;
    var merged := Merged(property, constraint);
    var r := Canonical(merged);
    CompileAccepted(rx, merged, false, 2, false);
    assert r == Obj(CanonicalFields(merged.fields));
    ReadMerged(property, constraint);
    ReadCanonical(merged.fields);
    MergeAgain(rx, Read(property.fields).typ.value.s, Read(constraint.fields), Read(property.fields));
    TypeKept(Read(constraint.fields), Read(property.fields));
    ReadMerged(r, constraint);
  }

  /** It changes nothing exactly when the bounds are stable. */
  lemma MergedAgain(rx: Engine, property: Value, constraint: Value)
    requires Intersect(rx, property, constraint).Some?
    ensures var r := Intersect(rx, property, constraint).value;
            var stable := Stable(Read(constraint.fields), Read(property.fields));
            && Mergeable(r, constraint)
            && (stable ==> Merged(r, constraint) == r)
            && (Canonical(Merged(r, constraint)) == r ==> stable)
  {
    hide Compile;
    hide HeaderOk;
    hide Merge;
    hide MergeAllowed;
    hide Stable;
    hide PutMerged;
    hide Canonical;
    hide Read;
    hide Intersect;
    var r := Intersect(rx, property, constraint).value;
    IntersectsObjects(rx, property, constraint);
    SecondMerge(rx, property, constraint);
    MergeAgain(rx, Read(property.fields).typ.value.s, Read(constraint.fields), Read(property.fields));
    PutMergedSame(r.fields);
    assert Canonical(Merged(r, constraint)) == Obj(CanonicalFields(Merged(r, constraint).fields));
    ReadCanonical(Merged(r, constraint).fields);
  }

  lemma TypeKept(c: Keywords, w: Keywords)
    requires w.typ.Some? && w.typ.value.Str?
    ensures CanonicalKeywords(Merge(c, w)).typ == w.typ
  {}

  /** What a second merge makes of a bound: the same bound, or the local one when the bound is unstable. */
  function SecondBound(local: Option<Number>, upstream: Option<Number>, first: Option<Number>, tighter: Order)
    : Option<Number>
  {
    if StableAt(local, upstream, tighter) then first else local
  }

  function SecondLow(c: Keywords, w: Keywords, t: Schema): Option<Number> {
    SecondBound(BoundOf(c.minimum), BoundOf(w.minimum), t.minimum, Greater)
  }

  function SecondHigh(c: Keywords, w: Keywords, t: Schema): Option<Number> {
    SecondBound(BoundOf(c.maximum), BoundOf(w.maximum), t.maximum, Less)
  }

  /** The bounds of the second merge can stand together, and a number meets both of them. */
  predicate SecondBoundsMet(c: Keywords, w: Keywords, t: Schema, v: Value) {
    && Ordered(SecondLow(c, w, t), SecondHigh(c, w, t))
    && (v.Num? ==> LowOk(Coded, v.n, SecondLow(c, w, t)) && HighOk(Coded, v.n, SecondHigh(c, w, t)))
  }

  lemma MergeBoundSecond(incoming: Option<Value>, current: Option<Value>, tighter: Order)
    requires tighter != Equal && (incoming.Some? ==> incoming.value.Num?)
    ensures var u := CanonicalOption(MergeBound(incoming, current, tighter));
            BoundOf(MergeBound(incoming, u, tighter)) ==
            SecondBound(BoundOf(incoming), BoundOf(current), BoundOf(u), tighter)
  {
    MergeBoundAgain(incoming, current, tighter);
    if !StableAt(BoundOf(incoming), BoundOf(current), tighter) {
      NumericCompareExact(incoming.value.n, current.value.n);
      NumericCompareExact(incoming.value.n, Int(0));
    }
  }

  /** A bound that moves is a float in place of a 0, so it may stand wherever the 0.0 it was merged with may. */
  lemma BoundAppliesAgain(incoming: Option<Value>, current: Option<Value>, tighter: Order, kind: Kind)
    requires tighter != Equal && (incoming.Some? ==> incoming.value.Num?)
    requires BoundOk(MergeBound(incoming, current, tighter), kind)
    ensures var u := CanonicalOption(MergeBound(incoming, current, tighter));
            && BoundOk(MergeBound(incoming, u, tighter), kind)
            && (u.Some? <==> MergeBound(incoming, u, tighter).Some?)
            && BoundOf(MergeBound(incoming, u, tighter)) != Some(Float(0.0))
  {
    MergeBoundAgain(incoming, current, tighter);
  }

  /** Of the checks on one schema object, the second merge can only fail the order of its two bounds. */
  lemma HeaderSecond(rx: Engine, kind: string, c: Keywords, w: Keywords)
    requires MergeAllowed(kind, c, w) && HeaderOk(rx, Merge(c, w), false, false)
    requires HeaderOk(rx, CanonicalKeywords(Merge(c, w)), false, false)
    ensures var u := CanonicalKeywords(Merge(c, w));
            var again := Merge(c, u);
            && (HeaderOk(rx, again, false, false) <==> Ordered(BoundOf(again.minimum), BoundOf(again.maximum)))
            && (forall properties, items, publicJson ::
                  HeaderOk(rx, again, false, false) ==>
                    Node(again, properties, items, publicJson) ==
                    Node(u, properties, items, publicJson).(minimum := BoundOf(again.minimum),
                                                            maximum := BoundOf(again.maximum)))
            && BoundOf(again.minimum) != Some(Float(0.0)) && BoundOf(again.maximum) != Some(Float(0.0))
  {
    hide NumericCompare;
    hide Kept;
    hide SchemaEqual;
    hide EnumWellFormed;
    hide ObjectHeaderOk;
    hide CountsOk;
    hide Ordered;
    hide PatternOk;
    hide BoundOk;
    hide MergeBound;
    hide MergeEnum;
    hide Merge;
    hide CanonicalKeywords;
    var u := CanonicalKeywords(Merge(c, w));
    MergeAgain(rx, kind, c, w);
    MergeParts(c, w);
    BoundAppliesAgain(c.minimum, w.minimum, Greater, KindOf(u).value);
    BoundAppliesAgain(c.maximum, w.maximum, Less, KindOf(u).value);
  }

  lemma MergeParts(c: Keywords, w: Keywords)
    requires KindOf(Merge(c, w)).Some?
    ensures KindOf(CanonicalKeywords(Merge(c, w))) == KindOf(Merge(c, w))
    ensures Merge(c, w).minimum == MergeBound(c.minimum, w.minimum, Greater)
    ensures Merge(c, w).maximum == MergeBound(c.maximum, w.maximum, Less)
    ensures CanonicalKeywords(Merge(c, w)).minimum == CanonicalOption(Merge(c, w).minimum)
    ensures CanonicalKeywords(Merge(c, w)).maximum == CanonicalOption(Merge(c, w).maximum)
  {
    hide MergeBound;
    hide MergeEnum;
  }

  lemma SecondBounds(kind: string, c: Keywords, w: Keywords, t: Schema)
    requires MergeAllowed(kind, c, w) && KindOf(Merge(c, w)).Some?
    requires var u := CanonicalKeywords(Merge(c, w)); t.minimum == BoundOf(u.minimum) && t.maximum == BoundOf(u.maximum)
    ensures var again := Merge(c, CanonicalKeywords(Merge(c, w)));
            BoundOf(again.minimum) == SecondLow(c, w, t) && BoundOf(again.maximum) == SecondHigh(c, w, t)
  {
    hide KindOf;
    hide BoundOf;
    hide MergeBound;
    hide MergeEnum;
    hide SecondBound;
    MergeParts(c, w);
    MergeBoundSecond(c.minimum, w.minimum, Greater);
    MergeBoundSecond(c.maximum, w.maximum, Less);
  }

  /** Where the first result compiles, so does the second merge, exactly when its bounds are ordered. */
  lemma SecondCompiles(rx: Engine, property: Value, constraint: Value)
    requires Intersect(rx, property, constraint).Some?
    requires Compile(rx, Intersect(rx, property, constraint).value, false, 2, false).Some?
    ensures var r := Intersect(rx, property, constraint).value;
            var t := Compile(rx, r, false, 2, false).value;
            var c, w := Read(constraint.fields), Read(property.fields);
            && Mergeable(r, constraint)
            && var again := Compile(rx, Merged(r, constraint), false, 2, false);
            && SecondLow(c, w, t) != Some(Float(0.0)) && SecondHigh(c, w, t) != Some(Float(0.0))
            && (again.Some? <==> Ordered(SecondLow(c, w, t), SecondHigh(c, w, t)))
            && (again.Some? ==>
                  again.value == t.(minimum := SecondLow(c, w, t), maximum := SecondHigh(c, w, t),
                                    publicJson := again.value.publicJson))
  {
    hide Compile;
    hide HeaderOk;
    hide Merge;
    hide MergeAllowed;
    hide Mergeable;
    hide MergeBound;
    hide SecondBound;
    hide Intersect;
    hide PutMerged;
    hide Read;
    hide KindOf;
    hide BoundOf;
    hide Ordered;
    hide ItemsOf;
    hide PropertiesOf;
    hide CanonicalKeywords;
    IntersectsObjects(rx, property, constraint);
    var r := Intersect(rx, property, constraint).value;
    var c, w := Read(constraint.fields), Read(property.fields);
    SecondMerge(rx, property, constraint);
    CompileAccepted(rx, r, false, 2, false);
    CompileFromParts(rx, r, false, 2, false);
    HeaderSecond(rx, w.typ.value.s, c, w);
    HeaderHasKind(rx, Merge(c, w), false, false);
    MergeParts(c, w);
    SecondBounds(w.typ.value.s, c, w, Compile(rx, r, false, 2, false).value);
    MergedShape(r, constraint);
    CompileFromParts(rx, Merged(r, constraint), false, 2, false);
    if Compile(rx, Merged(r, constraint), false, 2, false).Some? { CompileMerged(rx, r, constraint); }
  }

  /** Compiling a canonical schema finds no opposed bounds, and its schema is canonical. */
  lemma CanonicalCompiles(rx: Engine, v: Value)
    requires Compile(rx, Canonical(v), false, 2, false).Some?
    ensures var t := Compile(rx, Canonical(v), false, 2, false).value;
            !AnyOpposed(t) && CanonicalSchema(t) == t
  {
    hide Compile;
    hide AnyOpposed;
    hide CanonicalSchema;
    CompileCanonical(rx, Canonical(v), false, 2, false);
    CanonicalIdempotent(v);
  }

  lemma BoundsMoved(t: Schema, low: Option<Number>, high: Option<Number>, publicJson: Value)
    requires !AnyOpposed(t) && CanonicalSchema(t) == t && low != Some(Float(0.0)) && high != Some(Float(0.0))
    ensures var m := t.(minimum := low, maximum := high, publicJson := publicJson);
            && !AnyOpposed(m)
            && CanonicalSchema(m) == t.(minimum := CanonicalBound(low), maximum := CanonicalBound(high),
                                        publicJson := Canonical(publicJson))
  {}

  /**
   * The constraint intersected with its own result, where that compiles: it succeeds and compiles
   * exactly when the bounds of the second merge are ordered, and a value accepted by the first
   * result is accepted by the second exactly when it meets those bounds.
   */
  lemma SecondCheck(rx: Engine, property: Value, constraint: Value, v: Value)
    requires Intersect(rx, property, constraint).Some?
    requires Compile(rx, Intersect(rx, property, constraint).value, false, 2, false).Some?
    requires Conforms(rx, Coded, Compile(rx, Intersect(rx, property, constraint).value, false, 2, false).value, v)
    ensures property.Obj? && constraint.Obj?
    ensures var r := Intersect(rx, property, constraint).value;
            var t := Compile(rx, r, false, 2, false).value;
            var low := SecondLow(Read(constraint.fields), Read(property.fields), t);
            var high := SecondHigh(Read(constraint.fields), Read(property.fields), t);
            var again := Intersect(rx, r, constraint);
            && (again.Some? <==> Ordered(low, high))
            && (again.Some? ==>
                  var s := Compile(rx, again.value, false, 2, false);
                  && s.Some?
                  && (Conforms(rx, Coded, s.value, v) <==>
                        (v.Num? ==> LowOk(Coded, v.n, low) && HighOk(Coded, v.n, high))))
  {
    hide Compile;
    hide Conforms;
    hide Mergeable;
    hide Merged;
    hide Canonical;
    hide CanonicalSchema;
    hide AnyOpposed;
    hide SecondLow;
    hide SecondHigh;
    hide Ordered;
    hide Read;
    hide LowOk;
    hide HighOk;
    IntersectsObjects(rx, property, constraint);
    var r := Intersect(rx, property, constraint).value;
    var t := Compile(rx, r, false, 2, false).value;
    var c, w := Read(constraint.fields), Read(property.fields);
    SecondCompiles(rx, property, constraint);
    var again := Compile(rx, Merged(r, constraint), false, 2, false);
    if again.Some? {
      CanonicalCompiles(rx, Merged(property, constraint));
      BoundsMoved(t, SecondLow(c, w, t), SecondHigh(c, w, t), again.value.publicJson);
      CompileCanonical(rx, Merged(r, constraint), false, 2, false);
      MovedConforms(rx, t, SecondLow(c, w, t), SecondHigh(c, w, t), Canonical(again.value.publicJson), v);
    }
  }

  lemma MovedConforms(rx: Engine, t: Schema, low: Option<Number>, high: Option<Number>, publicJson: Value, v: Value)
    requires Conforms(rx, Coded, t, v) && low != Some(Float(0.0)) && high != Some(Float(0.0))
    ensures Conforms(rx, Coded, t.(minimum := CanonicalBound(low), maximum := CanonicalBound(high),
                                   publicJson := publicJson), v) <==>
            (v.Num? ==> LowOk(Coded, v.n, low) && HighOk(Coded, v.n, high))
  {
    hide EnumOk;
    hide AllUnique;
    hide LowOk;
    hide HighOk;
    hide CanonicalBound;
    if v.Num? {
      CanonicalBoundVerdict(v.n, low);
      CanonicalBoundVerdict(v.n, high);
    }
  }

  // Concrete merges of minimums.

  /** A local constraint that is one minimum. */
  function LowerBound(n: Number): (v: Value)
    ensures v.Obj?
  {
    Obj(map["minimum" := Num(n)])
  }

  lemma LowerBoundReads(n: Number)
    ensures Read(LowerBound(n).fields) == NO_KEYWORDS.(minimum := Some(Num(n)))
  {}

  lemma MinimumMerges(local: Number, upstream: Number)
    ensures Mergeable(Minimum(upstream), LowerBound(local))
    ensures Merged(Minimum(upstream), LowerBound(local)) ==
            Minimum(if NumericCompare(local, upstream) == Greater then local else upstream)
  {
    hide Read;
    hide NumericCompare;
    LowerBoundReads(local);
    MinimumReads(upstream);
    var w := Read(Minimum(upstream).fields);
    var chosen := if NumericCompare(local, upstream) == Greater then local else upstream;
    assert Merge(Read(LowerBound(local).fields), w) == w.(minimum := Some(Num(chosen)));
    assert Merged(Minimum(upstream), LowerBound(local)).fields == Minimum(chosen).fields;
  }

  lemma MinimumsIntersect(rx: Engine, local: Number, upstream: Number)
    ensures Intersect(rx, Minimum(upstream), LowerBound(local)) ==
            Some(Minimum(CanonicalNumber(if NumericCompare(local, upstream) == Greater then local else upstream)))
  {
    hide Compile;
    hide Mergeable;
    hide Merged;
    hide Canonical;
    hide Minimum;
    hide NumericCompare;
    var chosen := if NumericCompare(local, upstream) == Greater then local else upstream;
    MinimumMerges(local, upstream);
    MinimumCompiles(rx, chosen);
    MinimumPublished(chosen);
  }

  /** A local minimum of 0.5 over an upstream minimum of 0 is lost. */
  lemma LostMinimumWitness(rx: Engine)
    ensures Intersect(rx, Minimum(Int(0)), LowerBound(Float(0.5))) == Some(Minimum(Int(0)))
  {
    hide Compile;
    hide Minimum;
    hide Intersect;
    MinimumsIntersect(rx, Float(0.5), Int(0));
  }

  /** An upstream minimum of 0.5 under a local minimum of 0 is lost: the result accepts 0, upstream does not. */
  lemma LostUpstreamWitness(rx: Engine)
    ensures var r := Intersect(rx, Minimum(Float(0.5)), LowerBound(Int(0)));
            r == Some(Minimum(Int(0)))
            && var up, s := Compile(rx, Minimum(Float(0.5)), false, 2, false), Compile(rx, r.value, false, 2, false);
            && up.Some? && s.Some?
            && Conforms(rx, Coded, s.value, Num(Int(0))) && !Conforms(rx, Exact, up.value, Num(Int(0)))
  {
    hide Compile;
    hide Minimum;
    hide Intersect;
    hide Conforms;
    MinimumsIntersect(rx, Int(0), Float(0.5));
    MinimumAccepts(rx, Coded, Int(0), Int(0));
    MinimumAccepts(rx, Exact, Float(0.5), Int(0));
  }

  /** A constraint that loosens its own result: -0.5 over 0.0 gives 0, and over that gives -0.5. */
  lemma LooseningWitness(rx: Engine)
    ensures Intersect(rx, Minimum(Float(0.0)), LowerBound(Float(-0.5))) == Some(Minimum(Int(0)))
    ensures Intersect(rx, Minimum(Int(0)), LowerBound(Float(-0.5))) == Some(Minimum(Float(-0.5)))
  {
    hide Compile;
    hide Minimum;
    hide Intersect;
    MinimumsIntersect(rx, Float(-0.5), Float(0.0));
    MinimumsIntersect(rx, Float(-0.5), Int(0));
  }

  /** A constraint, here the empty one, that is rejected the second time: the first result has opposed bounds. */
  lemma RejectedAgainWitness(rx: Engine)
    ensures var r := Intersect(rx, Obj(OPPOSED), Obj(map[]));
            r.Some? && Intersect(rx, r.value, Obj(map[])).None?
  {
    hide Compile;
    hide AnyOpposed;
    hide Canonical;
    hide Read;
    hide Put;
    EmptyMerge(Obj(OPPOSED));
    OpposedCompiles(rx);
    OpposedReads();
    EmptyReads();
    IntersectAgain(rx, Obj(OPPOSED), Obj(map[]));
  }

  lemma EmptyReads()
    ensures Read(map[]) == NO_KEYWORDS
  {}

  lemma EmptyMerge(property: Value)
    requires property.Obj? && Get(property.fields, "type").Some? && Get(property.fields, "type").value.Str?
    ensures Mergeable(property, Obj(map[])) && Merged(property, Obj(map[])) == property
  {
    hide Put;
    EmptyReads();
    PutMergedSame(property.fields);
    assert Merge(NO_KEYWORDS, Read(property.fields)) == Read(property.fields);
  }

  /** The intersection as the source runs it: a result map edited keyword by keyword. */
  method IntersectProperty(rx: Engine, property: Value, constraint: Value) returns (r: Option<Value>)
    ensures r == Intersect(rx, property, constraint)
  {
    hide Compile;
    hide NumericCompare;
    hide Canonical;
    hide SchemaEqual;
    hide Put;
    hide Get;
    if !property.Obj? { return None; }
    var w := Read(property.fields);
    if w.typ.None? || !w.typ.value.Str? { return None; }
    var kind := w.typ.value.s;
    if !constraint.Obj? { return None; }
    var c := Read(constraint.fields);
    var result := property.fields;
    if c.pattern.Some? && w.pattern.Some? && c.pattern != w.pattern { return None; }
    if c.pattern.Some? && kind != "string" { return None; }
    result := Put(result, "pattern", MergePattern(c.pattern, w.pattern));
    if c.minLength.Some? && (kind != "string" || CountOf(c.minLength).None?) { return None; }
    result := Put(result, "minLength", MergeMinLength(c.minLength, w.minLength));
    if c.maxLength.Some? && (kind != "string" || CountOf(c.maxLength).None?) { return None; }
    result := Put(result, "maxLength", MergeMaxLength(c.maxLength, w.maxLength));
    if c.minimum.Some? && ((kind != "integer" && kind != "number") || !c.minimum.value.Num?) { return None; }
    result := Put(result, "minimum", MergeBound(c.minimum, w.minimum, Greater));
    if c.maximum.Some? && ((kind != "integer" && kind != "number") || !c.maximum.value.Num?) { return None; }
    result := Put(result, "maximum", MergeBound(c.maximum, w.maximum, Less));
    if c.enums.Some? {
      if !c.enums.value.Arr? { return None; }
      var values := c.enums.value.items;
      if w.enums.Some? && w.enums.value.Arr? {
        values := FilterEnum(w.enums.value.items, c.enums.value.items);
      }
      if values == [] { return None; }
      result := Put(result, "enum", Some(Arr(values)));
    } else {
      PutSame(result, "enum");
      EnumUntouched(property.fields, w, c);
    }
    assert Mergeable(property, constraint);
    assert Obj(result) == Merged(property, constraint);
    if Compile(rx, Obj(result), false, 2, false).None? { return None; }
    return Some(Canonical(Obj(result)));
  }

  lemma EnumUntouched(m: map<string, Value>, w: Keywords, c: Keywords)
    requires w == Read(m) && c.enums.None?
    ensures var n := Put(Put(Put(Put(Put(m, "pattern", MergePattern(c.pattern, w.pattern)),
                                     "minLength", MergeMinLength(c.minLength, w.minLength)),
                                 "maxLength", MergeMaxLength(c.maxLength, w.maxLength)),
                             "minimum", MergeBound(c.minimum, w.minimum, Greater)),
                         "maximum", MergeBound(c.maximum, w.maximum, Less));
            Put(n, "enum", MergeEnum(c.enums, w.enums)) == n
  {
    hide MergePattern;
    hide MergeMinLength;
    hide MergeMaxLength;
    hide MergeBound;
  }

  method FilterEnum(existing: seq<Value>, incoming: seq<Value>) returns (values: seq<Value>)
    ensures values == Kept(existing, incoming)
  {
    values := [];
    assert existing[0..] == existing;
    for i := 0 to |existing|
      invariant Kept(existing, incoming) == values + Kept(existing[i..], incoming)
    {
      assert existing[i..][0] == existing[i] && existing[i..][1..] == existing[i + 1..];
      var found := false;
      for j := 0 to |incoming|
        invariant found <==> exists k :: 0 <= k < j && SchemaEqual(incoming[k], existing[i])
      {
        found := found || SchemaEqual(incoming[j], existing[i]);
      }
      if found {
        ghost var k :| 0 <= k < |incoming| && SchemaEqual(incoming[k], existing[i]);
        assert incoming[k] in incoming;
      }
      if found { values := values + [existing[i]]; }
    }
    assert existing[|existing|..] == [];
  }
}
