/** JSON values, exact numeric comparison, schema equality and canonical form. */
module Json {

  datatype Option<+T> = None | Some(value: T)
  datatype Result<+T, +E> = Ok(value: T) | Err(error: E)

  function Get<T>(m: map<string, T>, key: string): Option<T> {
    if key in m then Some(m[key]) else None
  }

  /** The entries of a map whose keys are among `keys`. */
  function Only<T>(m: map<string, T>, keys: set<string>): map<string, T> {
    map k | k in m && k in keys :: m[k]
  }

  lemma OnlyStep<T>(m: map<string, T>, done: set<string>, key: string)
    ensures Only(m, done + {key}) == if key in m then Only(m, done)[key := m[key]] else Only(m, done)
  {}

  lemma OnlyEnds<T>(m: map<string, T>, keys: set<string>)
    ensures Only(m, {}) == map[]
    ensures m.Keys <= keys ==> Only(m, keys) == m
  {}

  datatype Order = Less | Equal | Greater {
    function Reverse(): Order {
      match this
      case Less => Greater
      case Equal => Equal
      case Greater => Less
    }
  }

  /** The integers a JSON number holds exactly: those of i64 and those of u64. */
  type JsonInt = i: int | -0x8000_0000_0000_0000 <= i < 0x1_0000_0000_0000_0000

  /**
   * A number is an integer or a finite float. A finite binary64 value is a real number and
   * every operation the code applies to one (abs, trunc, fract, comparison, sign of a value
   * that is not zero) is exact, so a float is modelled by its real value.
   */
  datatype Number = Int(i: JsonInt) | Float(r: real) {
    function AsI64(): Option<int> {
      if Int? && i < 0x8000_0000_0000_0000 then Some(i) else None
    }
    function AsU64(): Option<nat> {
      if Int? && 0 <= i then Some(i) else None
    }
    function Real(): real {
      if Int? then i as real else r
    }
  }

  datatype Value =
    | Null
    | Bool(b: bool)
    | Num(n: Number)
    | Str(s: string)
    | Arr(items: seq<Value>)
    | Obj(fields: map<string, Value>)

  const I128_LIMIT: int := 0x8000_0000_0000_0000_0000_0000_0000_0000

  function CompareInts(a: int, b: int): Order {
    if a < b then Less else if a == b then Equal else Greater
  }

  /** The order of the real numbers. */
  function CompareReals(a: real, b: real): Order {
    if a < b then Less else if a == b then Equal else Greater
  }

  function Magnitude(f: real): real {
    if f < 0.0 then -f else f
  }

  /** Compares an i128 with a finite float without converting the integer to a float. */
  function CompareIntegerFloat(integer: int, float: real): Order
    requires -I128_LIMIT <= integer < I128_LIMIT
  {
    if integer == 0 then CompareReals(float, 0.0)
    else
      var integerNegative := integer < 0;
      var floatNegative := float < 0.0;
      if integerNegative != floatNegative then (if integerNegative then Less else Greater)
      else
        var integerMagnitude := if integer < 0 then -integer else integer;
        var floatMagnitude := Magnitude(float);
        var magnitudeOrder :=
          if floatMagnitude >= I128_LIMIT as real then Less
          else
            var truncated := floatMagnitude.Floor;
            var order := CompareInts(integerMagnitude, truncated);
            if order != Equal then order
            else if floatMagnitude == truncated as real then Equal
            else Less;
        if integerNegative then magnitudeOrder.Reverse() else magnitudeOrder
  }

  /**
   * Over all of i128 the comparison is the order of the reals except when the integer is 0
   * and the float is not, and except when both are exactly -2^127.
   */
  lemma CompareIntegerFloatExact(integer: int, float: real)
    requires -I128_LIMIT <= integer < I128_LIMIT
    ensures CompareIntegerFloat(integer, float) == CompareReals(integer as real, float) <==>
            !(integer == 0 && float != 0.0) && !(integer == -I128_LIMIT && float == -I128_LIMIT as real)
    ensures integer == 0 ==> CompareIntegerFloat(integer, float) == CompareReals(0.0, float).Reverse()
  {
    var m := Magnitude(float);
    assert m.Floor as real <= m < (m.Floor + 1) as real;
    var k := if integer < 0 then -integer else integer;
    if k < m.Floor {
      assert (k + 1) as real <= m.Floor as real;
    } else if k > m.Floor {
      assert k as real >= (m.Floor + 1) as real;
    }
  }

  function NumericCompare(left: Number, right: Number): Order {
    match (left, right)
    case (Int(a), Int(b)) => CompareInts(a, b)
    case (Int(a), Float(b)) => CompareIntegerFloat(a, b)
    case (Float(a), Int(b)) => CompareIntegerFloat(b, a).Reverse()
    case (Float(a), Float(b)) => CompareReals(a, b)
  }

  /** One side is the integer 0 and the other a float that is not 0. */
  predicate ZeroBranch(a: Number, b: Number) {
    (a == Int(0) && b.Float? && b.r != 0.0) || (b == Int(0) && a.Float? && a.r != 0.0)
  }

  /** Exact above 2^53 as below it; reversed precisely on the zero branch; equality exact everywhere. */
  lemma NumericCompareExact(a: Number, b: Number)
    ensures NumericCompare(a, b) == CompareReals(a.Real(), b.Real()) <==> !ZeroBranch(a, b)
    ensures ZeroBranch(a, b) ==> NumericCompare(a, b) == CompareReals(a.Real(), b.Real()).Reverse()
    ensures NumericCompare(a, b) == Equal <==> a.Real() == b.Real()
    ensures NumericCompare(b, a) == NumericCompare(a, b).Reverse()
  {
    if a.Int? && b.Float? {
      CompareIntegerFloatExact(a.i, b.r);
    } else if a.Float? && b.Int? {
      CompareIntegerFloatExact(b.i, a.r);
    }
  }

  /** A concrete input on the zero branch: 0 is ordered above 0.5. */
  lemma ZeroBranchWitness()
    ensures NumericCompare(Int(0), Float(0.5)) == Greater
    ensures NumericCompare(Float(0.5), Int(0)) == Less
  {}

  /** Which comparison a statement about schemas uses: the code's, or the order of the reals. */
  datatype Rule = Coded | Exact {
    function Compare(a: Number, b: Number): Order {
      if Coded? then NumericCompare(a, b) else CompareReals(a.Real(), b.Real())
    }
  }

  function SchemaEqual(left: Value, right: Value): bool {
    match (left, right)
    case (Num(a), Num(b)) => NumericCompare(a, b) == Equal
    case (Arr(a), Arr(b)) =>
      |a| == |b| && forall i :: 0 <= i < |a| ==> SchemaEqual(a[i], b[i])
    case (Obj(a), Obj(b)) =>
      |a| == |b| && forall k :: k in a ==> k in b && SchemaEqual(a[k], b[k])
    case _ => left == right
  }

  /** The JSON Schema data model (Core 2020-12 section 4.2): a number is its mathematical value. */
  datatype Datum =
    | DNull
    | DBool(b: bool)
    | DNum(r: real)
    | DStr(s: string)
    | DArr(items: seq<Datum>)
    | DObj(fields: map<string, Datum>)

  function Meaning(v: Value): Datum {
    match v
    case Null => DNull
    case Bool(b) => DBool(b)
    case Num(n) => DNum(n.Real())
    case Str(s) => DStr(s)
    case Arr(a) => DArr(seq(|a|, i requires 0 <= i < |a| => Meaning(a[i])))
    case Obj(m) => DObj(map k | k in m :: Meaning(m[k]))
  }

  lemma SameSizeSubset<T>(a: set<T>, b: set<T>)
    requires a <= b && |a| == |b|
    ensures a == b
  {
    if x :| x in b && x !in a {
      assert a <= b - {x};
      SubsetSize(a, b - {x});
    }
  }

  lemma {:induction false} SubsetSize<T>(a: set<T>, b: set<T>)
    requires a <= b
    ensures |a| <= |b|
  {
    if x :| x in a {
      SubsetSize(a - {x}, b - {x});
    }
  }

  /** Two values are equal for a schema exactly when they denote the same datum. */
  lemma {:induction false} SchemaEqualIffMeaning(a: Value, b: Value)
    ensures SchemaEqual(a, b) <==> Meaning(a) == Meaning(b)
  {
    match (a, b) {
      case (Num(m), Num(n)) =>
        NumericCompareExact(m, n);
      case (Arr(s), Arr(t)) =>
        forall i | 0 <= i < |s| && i < |t| ensures SchemaEqual(s[i], t[i]) <==> Meaning(s[i]) == Meaning(t[i]) {
          SchemaEqualIffMeaning(s[i], t[i]);
        }
        if Meaning(a) == Meaning(b) {
          assert |Meaning(a).items| == |s| && |Meaning(b).items| == |t|;
          forall i | 0 <= i < |s| ensures SchemaEqual(s[i], t[i]) {
            assert Meaning(a).items[i] == Meaning(b).items[i];
          }
        }
        if SchemaEqual(a, b) {
          assert Meaning(a).items == Meaning(b).items;
        }
      case (Obj(s), Obj(t)) =>
        forall k | k in s && k in t ensures SchemaEqual(s[k], t[k]) <==> Meaning(s[k]) == Meaning(t[k]) {
          SchemaEqualIffMeaning(s[k], t[k]);
        }
        if Meaning(a) == Meaning(b) {
          assert s.Keys == Meaning(a).fields.Keys && t.Keys == Meaning(b).fields.Keys;
          forall k | k in s ensures k in t && SchemaEqual(s[k], t[k]) {
            assert Meaning(a).fields[k] == Meaning(b).fields[k];
          }
        }
        if SchemaEqual(a, b) {
          SameSizeSubset(s.Keys, t.Keys);
          assert Meaning(a).fields == Meaning(b).fields;
        }
      case _ =>
    }
  }

  lemma SchemaEqualEquivalence(a: Value, b: Value, c: Value)
    ensures SchemaEqual(a, a)
    ensures SchemaEqual(a, b) ==> SchemaEqual(b, a)
    ensures SchemaEqual(a, b) && SchemaEqual(b, c) ==> SchemaEqual(a, c)
  {
    SchemaEqualIffMeaning(a, a);
    SchemaEqualIffMeaning(a, b);
    SchemaEqualIffMeaning(b, a);
    SchemaEqualIffMeaning(b, c);
    SchemaEqualIffMeaning(a, c);
  }

  function CanonicalNumber(n: Number): Number {
    if n.Real() == 0.0 then Int(0) else n
  }

  /** Writes every zero as the integer 0, everywhere in the tree. */
  function Canonical(v: Value): Value {
    match v
    case Num(n) => Num(CanonicalNumber(n))
    case Arr(a) => Arr(CanonicalAll(a))
    case Obj(m) => Obj(map k | k in m :: Canonical(m[k]))
    case _ => v
  }

  function CanonicalAll(a: seq<Value>): (r: seq<Value>)
    ensures |r| == |a| && forall i :: 0 <= i < |a| ==> r[i] == Canonical(a[i])
  {
    seq(|a|, i requires 0 <= i < |a| => Canonical(a[i]))
  }

  function CanonicalFields(m: map<string, Value>): (r: map<string, Value>)
    ensures r.Keys == m.Keys && forall k :: k in m ==> r[k] == Canonical(m[k])
    ensures Canonical(Obj(m)) == Obj(r)
  {
    Canonical(Obj(m)).fields
  }

  lemma {:induction false} CanonicalIdempotent(v: Value)
    ensures Canonical(Canonical(v)) == Canonical(v)
  {
    match v {
      case Arr(a) =>
        forall i | 0 <= i < |a| ensures Canonical(Canonical(a[i])) == Canonical(a[i]) { CanonicalIdempotent(a[i]); }
        assert CanonicalAll(CanonicalAll(a)) == CanonicalAll(a);
      case Obj(m) =>
        forall k | k in m ensures Canonical(Canonical(m[k])) == Canonical(m[k]) { CanonicalIdempotent(m[k]); }
        assert CanonicalFields(CanonicalFields(m)) == CanonicalFields(m);
      case _ =>
    }
  }

  /** Canonical form denotes the same datum. */
  lemma {:induction false} CanonicalMeaning(v: Value)
    ensures Meaning(Canonical(v)) == Meaning(v)
  {
    match v {
      case Arr(a) =>
        forall i | 0 <= i < |a| ensures Meaning(Canonical(a[i])) == Meaning(a[i]) { CanonicalMeaning(a[i]); }
        assert Meaning(Canonical(v)).items == Meaning(v).items;
      case Obj(m) =>
        forall k | k in m ensures Meaning(Canonical(m[k])) == Meaning(m[k]) { CanonicalMeaning(m[k]); }
        assert Meaning(Canonical(v)).fields == Meaning(v).fields;
      case _ =>
    }
  }

  /** Canonicalizing either side is invisible to schema equality. */
  lemma CanonicalInvisible(a: Value, b: Value)
    ensures SchemaEqual(Canonical(a), b) == SchemaEqual(a, b)
    ensures SchemaEqual(a, Canonical(b)) == SchemaEqual(a, b)
  {
    CanonicalMeaning(a);
    CanonicalMeaning(b);
    SchemaEqualIffMeaning(a, b);
    SchemaEqualIffMeaning(Canonical(a), b);
    SchemaEqualIffMeaning(a, Canonical(b));
  }
}
