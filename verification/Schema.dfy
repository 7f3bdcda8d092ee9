/**
The strict schema validator of artifact bodies, a subset of JSON Schema draft-07, and the
value equality its `const` and `enum` keywords use. Values are those a decoder can produce,
in all their numeric representations.
*/
module Schema {
  import opened Basics

  /** A float64: finite numbers as reals, with both zeros one number. */
  datatype Num = NaN | PosInf | NegInf | Fin(x: real)

  /** `Int` stands for every Go integer type, `Other` for scalars of other types, such as timestamps. */
  datatype Value =
    | Null
    | Bool(b: bool)
    | Str(s: string)
    | Int(n: int)
    | Float32(f: Num)
    | Float64(f: Num)
    | Arr(items: seq<Value>)
    | Obj(fields: map<string, Value>)
    | Other(id: int)

  // ----- Numbers -----

  predicate Less(a: Num, b: Num) {
    match (a, b)
    case (Fin(x), Fin(y)) => x < y
    case (NegInf, Fin(_)) => true
    case (NegInf, PosInf) => true
    case (Fin(_), PosInf) => true
    case _ => false
  }

  predicate Equal(a: Num, b: Num) {
    a == b && !a.NaN?
  }

  const Exact := 0x20_0000_0000_0000  // 2^53, the last integer below which float64 has them all

  /** The nearest integer with a 53-bit significand, ties to even. */
  function RoundInt(n: int): int
  {
    if -Exact <= n <= Exact then n
    else if n < 0 then -RoundMagnitude(-n, 1)
    else RoundMagnitude(n, 1)
  }

  function RoundMagnitude(n: nat, unit: nat): int
    requires unit > 0 && n > Exact * unit
    decreases n - Exact * unit
  {
    if n > Exact * (2 * unit) then RoundMagnitude(n, 2 * unit)
    else
      var step := 2 * unit;
      var low := n / step * step;
      var rest := n % step;
      if rest < unit || (rest == unit && n / step % 2 == 0) then low else low + step
  }

  predicate IsNumber(v: Value) {
    v.Int? || v.Float32? || v.Float64?
  }

  function ToFloat(v: Value): Num
    requires IsNumber(v)
  {
    match v
    case Int(n) => Fin(RoundInt(n) as real)
    case Float32(f) => f
    case Float64(f) => f
  }

  /** `f == math.Trunc(f)`. */
  predicate Integral(f: Num) {
    match f
    case NaN => false
    case PosInf => true
    case NegInf => true
    case Fin(x) => x == x.Floor as real
  }

  predicate IsInteger(v: Value) {
    v.Int? || v.Float32? || (v.Float64? && Integral(v.f))
  }

  // ----- Equality -----

  predicate DeepEqual(a: Value, b: Value) {
    if IsNumber(a) && IsNumber(b) then Equal(ToFloat(a), ToFloat(b))
    else match a
      case Obj(f) => b.Obj? && |f| == |b.fields| && forall k <- f :: k in b.fields && DeepEqual(f[k], b.fields[k])
      case Arr(x) => b.Arr? && |x| == |b.items| && forall i :: 0 <= i < |x| ==> DeepEqual(x[i], b.items[i])
      case _ => a == b
  }

  // ----- Validation -----

  /** What the regular expression engine says of a pattern and a text; None for an invalid pattern. */
  type Regexp = (string, string) -> Option<bool>

  function Keyword(m: map<string, Value>, k: string): Value {
    if k in m then m[k] else Null
  }

  /** Schema numbers always decode as float64. */
  function Number(m: map<string, Value>, k: string): Option<Num> {
    if Keyword(m, k).Float64? then Some(Keyword(m, k).f) else None
  }

  predicate TypeOk(v: Value, m: map<string, Value>) {
    var want := Keyword(m, "type");
    want.Str? ==>
      match want.s
      case "object" => v.Obj?
      case "array" => v.Arr?
      case "string" => v.Str?
      case "boolean" => v.Bool?
      case "null" => v.Null?
      case "integer" => IsInteger(v)
      case "number" => IsNumber(v)
      case _ => true
  }

  predicate ConstOk(v: Value, m: map<string, Value>) {
    && ("const" in m ==> DeepEqual(v, m["const"]))
    && (Keyword(m, "enum").Arr? ==> exists item <- Keyword(m, "enum").items :: DeepEqual(v, item))
  }

  predicate Within(n: Num, m: map<string, Value>, low: string, high: string) {
    && (Number(m, low).Some? ==> !Less(n, Number(m, low).value))
    && (Number(m, high).Some? ==> !Less(Number(m, high).value, n))
  }

  predicate TextOk(re: Regexp, s: string, m: map<string, Value>) {
    && Within(Fin(|s| as real), m, "minLength", "maxLength")
    && (Keyword(m, "pattern").Str? ==> re(Keyword(m, "pattern").s, s) == Some(true))
  }

  predicate RequiredOk(keys: set<string>, m: map<string, Value>) {
    Keyword(m, "required").Arr? ==> forall r <- Keyword(m, "required").items :: r.Str? && r.s in keys
  }

  function Properties(m: map<string, Value>): map<string, Value> {
    if Keyword(m, "properties").Obj? then Keyword(m, "properties").fields else map[]
  }

  predicate Accepts(re: Regexp, v: Value, schema: Value)
    decreases v
  {
    if !schema.Obj? then true
    else
      var m := schema.fields;
      && TypeOk(v, m) && ConstOk(v, m)
      && (IsNumber(v) ==> Within(ToFloat(v), m, "minimum", "maximum"))
      && (v.Str? ==> TextOk(re, v.s, m))
      && (v.Arr? ==>
          && Within(Fin(|v.items| as real), m, "minItems", "maxItems")
          && ("items" in m ==> forall item <- v.items :: Accepts(re, item, m["items"])))
      && (v.Obj? ==>
          && RequiredOk(v.fields.Keys, m)
          && forall k <- v.fields ::
            if k in Properties(m) then Accepts(re, v.fields[k], Properties(m)[k])
            else Keyword(m, "additionalProperties") != Bool(false))
  }

  // ----- Equality is symmetric and transitive, and reflexive without NaN -----

  lemma SubsetOfSameSize(a: set<string>, b: set<string>)
    requires a <= b && |a| == |b|
    ensures a == b
  {
    assert |b - a| == |b| - |a|;
  }

  /** Objects that are equal have the same keys. */
  lemma SameKeys(f: map<string, Value>, g: map<string, Value>)
    requires |f| == |g| && forall k <- f :: k in g
    ensures f.Keys == g.Keys
  {
    SubsetOfSameSize(f.Keys, g.Keys);
  }

  lemma {:induction false} Symmetric(a: Value, b: Value)
    requires DeepEqual(a, b)
    ensures DeepEqual(b, a)
  {
    match a
    case Obj(f) =>
      SameKeys(f, b.fields);
      forall k | k in b.fields ensures k in f && DeepEqual(b.fields[k], f[k]) {
        Symmetric(f[k], b.fields[k]);
      }
    case Arr(x) =>
      forall i | 0 <= i < |x| ensures DeepEqual(b.items[i], x[i]) {
        Symmetric(x[i], b.items[i]);
      }
    case _ =>
  }

  lemma {:induction false} Transitive(a: Value, b: Value, c: Value)
    requires DeepEqual(a, b) && DeepEqual(b, c)
    ensures DeepEqual(a, c)
  {
    match a
    case Obj(f) =>
      forall k | k in f ensures k in c.fields && DeepEqual(f[k], c.fields[k]) {
        Transitive(f[k], b.fields[k], c.fields[k]);
      }
    case Arr(x) =>
      forall i | 0 <= i < |x| ensures DeepEqual(x[i], c.items[i]) {
        Transitive(x[i], b.items[i], c.items[i]);
      }
    case _ =>
  }

  predicate NaNFree(v: Value) {
    match v
    case Float32(f) => !f.NaN?
    case Float64(f) => !f.NaN?
    case Arr(x) => forall item <- x :: NaNFree(item)
    case Obj(f) => forall k <- f :: NaNFree(f[k])
    case _ => true
  }

  lemma {:induction false} ReflexiveIffNaNFree(a: Value)
    ensures DeepEqual(a, a) <==> NaNFree(a)
  {
    match a
    case Obj(f) =>
      forall k | k in f ensures DeepEqual(f[k], f[k]) <==> NaNFree(f[k]) {
        ReflexiveIffNaNFree(f[k]);
      }
    case Arr(x) =>
      forall i | 0 <= i < |x| ensures DeepEqual(x[i], x[i]) <==> NaNFree(x[i]) {
        ReflexiveIffNaNFree(x[i]);
      }
    case _ =>
  }

  // ----- The verdict is a congruence -----

  /**
  The one representation the validator treats apart: every float32 passes for an integer,
  while a float64 must be integral.
  */
  predicate Clash(a: Value, b: Value) {
    ((a.Float32? && b.Float64?) || (a.Float64? && b.Float32?)) && !Integral(a.f)
  }

  /** No two numbers in the same place clash. */
  predicate ClashFree(a: Value, b: Value) {
    && !Clash(a, b)
    && (a.Arr? && b.Arr? && |a.items| == |b.items| ==> forall i :: 0 <= i < |a.items| ==> ClashFree(a.items[i], b.items[i]))
    && (a.Obj? && b.Obj? ==> forall k <- a.fields :: k in b.fields ==> ClashFree(a.fields[k], b.fields[k]))
  }

  lemma SameType(a: Value, b: Value, m: map<string, Value>)
    requires DeepEqual(a, b) && !Clash(a, b)
    ensures TypeOk(a, m) <==> TypeOk(b, m)
  {
    assert IsNumber(a) <==> IsNumber(b);
    assert IsInteger(a) <==> IsInteger(b) by {
      if IsNumber(a) { assert ToFloat(a) == ToFloat(b); }
    }
  }

  lemma SameConst(a: Value, b: Value, m: map<string, Value>)
    requires DeepEqual(a, b)
    ensures ConstOk(a, m) <==> ConstOk(b, m)
  {
    Symmetric(a, b);
    forall c ensures DeepEqual(a, c) <==> DeepEqual(b, c) {
      if DeepEqual(a, c) { Transitive(b, a, c); }
      if DeepEqual(b, c) { Transitive(a, b, c); }
    }
  }

  /** Bodies that are equal are both accepted or both rejected, by every schema. */
  lemma {:induction false} Congruence(re: Regexp, a: Value, b: Value, schema: Value)
    requires DeepEqual(a, b) && ClashFree(a, b)
    ensures Accepts(re, a, schema) <==> Accepts(re, b, schema)
    decreases a
  {
    if schema.Obj? {
      var m := schema.fields;
      SameType(a, b, m);
      SameConst(a, b, m);
      hide TypeOk, ConstOk, Within, TextOk, RequiredOk;
      match a
      case Arr(x) =>
        if "items" in m {
          forall i | 0 <= i < |x| ensures Accepts(re, x[i], m["items"]) <==> Accepts(re, b.items[i], m["items"]) {
            Congruence(re, x[i], b.items[i], m["items"]);
          }
        }
      case Obj(f) =>
        SameKeys(f, b.fields);
        var p := Properties(m);
        forall k | k in f && k in p ensures Accepts(re, f[k], p[k]) <==> Accepts(re, b.fields[k], p[k]) {
          Congruence(re, f[k], b.fields[k], p[k]);
        }
      case _ =>
    }
  }

  /** Decoding YAML or JSON never makes a float32, so bodies never clash. */
  predicate Decoded(v: Value) {
    match v
    case Float32(_) => false
    case Arr(x) => forall item <- x :: Decoded(item)
    case Obj(f) => forall k <- f :: Decoded(f[k])
    case _ => true
  }

  lemma {:induction false} DecodedClashFree(a: Value, b: Value)
    requires Decoded(a) && Decoded(b)
    ensures ClashFree(a, b)
  {
    if a.Arr? && b.Arr? && |a.items| == |b.items| {
      forall i | 0 <= i < |a.items| ensures ClashFree(a.items[i], b.items[i]) {
        DecodedClashFree(a.items[i], b.items[i]);
      }
    }
    if a.Obj? && b.Obj? {
      forall k | k in a.fields && k in b.fields ensures ClashFree(a.fields[k], b.fields[k]) {
        DecodedClashFree(a.fields[k], b.fields[k]);
      }
    }
  }

  lemma BodiesCongruent(re: Regexp, a: Value, b: Value, schema: Value)
    requires Decoded(a) && Decoded(b) && DeepEqual(a, b)
    ensures Accepts(re, a, schema) <==> Accepts(re, b, schema)
  {
    DecodedClashFree(a, b);
    Congruence(re, a, b, schema);
  }

  /** For numbers the condition is exact: equal numbers are told apart by some schema exactly when they clash. */
  lemma NumbersCongruentIffNoClash(re: Regexp, a: Value, b: Value)
    requires IsNumber(a) && IsNumber(b) && DeepEqual(a, b)
    ensures (forall schema :: Accepts(re, a, schema) <==> Accepts(re, b, schema)) <==> !Clash(a, b)
  {
    if Clash(a, b) {
      var integer := Obj(map["type" := Str("integer")]);
      assert Accepts(re, Float32(a.f), integer) && !Accepts(re, Float64(a.f), integer);
    } else {
      forall schema ensures Accepts(re, a, schema) <==> Accepts(re, b, schema) {
        Congruence(re, a, b, schema);
      }
    }
  }

  // ----- What equality means -----

  /** The value with every number as the float64 it converts to. */
  function Normal(v: Value): Value {
    match v
    case Int(n) => Float64(Fin(RoundInt(n) as real))
    case Float32(f) => Float64(f)
    case Arr(x) => Arr(seq(|x|, i requires 0 <= i < |x| => Normal(x[i])))
    case Obj(f) => Obj(map k | k in f :: Normal(f[k]))
    case _ => v
  }

  /** Two values are equal exactly when they are one value up to number forms, and hold no NaN. */
  lemma {:induction false} EqualIffNormal(a: Value, b: Value)
    ensures DeepEqual(a, b) <==> NaNFree(a) && Normal(a) == Normal(b)
    decreases a, 1
  {
    match a
    case Obj(f) =>
      if b.Obj? {
        EqualObjects(f, b.fields);
      }
    case Arr(x) =>
      if b.Arr? {
        EqualArrays(x, b.items);
      }
    case _ =>
  }

  lemma {:induction false} EqualObjects(f: map<string, Value>, g: map<string, Value>)
    ensures DeepEqual(Obj(f), Obj(g)) <==> NaNFree(Obj(f)) && Normal(Obj(f)) == Normal(Obj(g))
    decreases Obj(f), 0
  {
    forall k | k in f && k in g ensures DeepEqual(f[k], g[k]) <==> NaNFree(f[k]) && Normal(f[k]) == Normal(g[k]) {
      EqualIffNormal(f[k], g[k]);
    }
    FieldwiseEqual(f, g);
  }

  lemma FieldwiseEqual(f: map<string, Value>, g: map<string, Value>)
    requires forall k | k in f && k in g :: DeepEqual(f[k], g[k]) <==> NaNFree(f[k]) && Normal(f[k]) == Normal(g[k])
    ensures DeepEqual(Obj(f), Obj(g)) <==> NaNFree(Obj(f)) && Normal(Obj(f)) == Normal(Obj(g))
  {
    var nf, ng := Normal(Obj(f)).fields, Normal(Obj(g)).fields;
    assert nf.Keys == f.Keys && ng.Keys == g.Keys;
    assert forall k <- f :: nf[k] == Normal(f[k]);
    assert forall k <- g :: ng[k] == Normal(g[k]);
    hide Normal, NaNFree;
    if DeepEqual(Obj(f), Obj(g)) {
      SameKeys(f, g);
      assert nf == ng;
    }
    if nf == ng {
      assert f.Keys == g.Keys && |f| == |f.Keys| && |g| == |g.Keys|;
    }
  }

  lemma {:induction false} EqualArrays(x: seq<Value>, y: seq<Value>)
    ensures DeepEqual(Arr(x), Arr(y)) <==> NaNFree(Arr(x)) && Normal(Arr(x)) == Normal(Arr(y))
    decreases Arr(x), 0
  {
    forall i | 0 <= i < |x| && i < |y| ensures DeepEqual(x[i], y[i]) <==> NaNFree(x[i]) && Normal(x[i]) == Normal(y[i]) {
      EqualIffNormal(x[i], y[i]);
    }
    var nx, ny := Normal(Arr(x)).items, Normal(Arr(y)).items;
    assert forall i :: 0 <= i < |x| ==> nx[i] == Normal(x[i]);
    assert forall i :: 0 <= i < |y| ==> ny[i] == Normal(y[i]);
    if DeepEqual(Arr(x), Arr(y)) {
      assert nx == ny;
    }
  }

  // ----- What each keyword means -----

  /** A schema with one keyword. */
  function Alone(k: string, w: Value): Value {
    Obj(map[k := w])
  }

  /** The keywords that act on their own; properties and additionalProperties act together. */
  const Groups: seq<set<string>> := [
    {"type"}, {"const"}, {"enum"}, {"minimum"}, {"maximum"}, {"minLength"}, {"maxLength"}, {"pattern"},
    {"minItems"}, {"maxItems"}, {"items"}, {"required"}, {"properties", "additionalProperties"}]

  function Only(m: map<string, Value>, keys: set<string>): map<string, Value> {
    map k | k in m && k in keys :: m[k]
  }

  predicate NotBelow(n: Num, m: map<string, Value>, k: string) {
    Number(m, k).Some? ==> !Less(n, Number(m, k).value)
  }

  predicate NotAbove(n: Num, m: map<string, Value>, k: string) {
    Number(m, k).Some? ==> !Less(Number(m, k).value, n)
  }

  /** The share of one group in the verdict. */
  predicate Share(re: Regexp, v: Value, m: map<string, Value>, g: nat)
    requires g < 13
  {
    match g
    case 0 => TypeOk(v, m)
    case 1 => "const" in m ==> DeepEqual(v, m["const"])
    case 2 => Keyword(m, "enum").Arr? ==> exists item <- Keyword(m, "enum").items :: DeepEqual(v, item)
    case 3 => IsNumber(v) ==> NotBelow(ToFloat(v), m, "minimum")
    case 4 => IsNumber(v) ==> NotAbove(ToFloat(v), m, "maximum")
    case 5 => v.Str? ==> NotBelow(Fin(|v.s| as real), m, "minLength")
    case 6 => v.Str? ==> NotAbove(Fin(|v.s| as real), m, "maxLength")
    case 7 => v.Str? && Keyword(m, "pattern").Str? ==> re(Keyword(m, "pattern").s, v.s) == Some(true)
    case 8 => v.Arr? ==> NotBelow(Fin(|v.items| as real), m, "minItems")
    case 9 => v.Arr? ==> NotAbove(Fin(|v.items| as real), m, "maxItems")
    case 10 => v.Arr? && "items" in m ==> forall item <- v.items :: Accepts(re, item, m["items"])
    case 11 => v.Obj? ==> RequiredOk(v.fields.Keys, m)
    case 12 => v.Obj? ==> FieldsOk(re, v, m)
  }

  predicate FieldsOk(re: Regexp, v: Value, m: map<string, Value>)
    requires v.Obj?
  {
    forall k <- v.fields ::
      if k in Properties(m) then Accepts(re, v.fields[k], Properties(m)[k])
      else Keyword(m, "additionalProperties") != Bool(false)
  }

  lemma AcceptsShares(re: Regexp, v: Value, m: map<string, Value>)
    ensures Accepts(re, v, Obj(m)) <==> forall g :: 0 <= g < 13 ==> Share(re, v, m, g)
  {
    if forall g :: 0 <= g < 13 ==> Share(re, v, m, g) {
      assert Share(re, v, m, 0) && Share(re, v, m, 1) && Share(re, v, m, 2) && Share(re, v, m, 3) && Share(re, v, m, 4);
      assert Share(re, v, m, 5) && Share(re, v, m, 6) && Share(re, v, m, 7) && Share(re, v, m, 8) && Share(re, v, m, 9);
      assert Share(re, v, m, 10) && Share(re, v, m, 11) && Share(re, v, m, 12);
    }
  }

  /** A share sees the keywords of its own group and no others. */
  lemma ShareDepends(re: Regexp, v: Value, m: map<string, Value>, n: map<string, Value>, i: nat)
    requires i < 13 && Agree(m, n, i)
    ensures Share(re, v, m, i) <==> Share(re, v, n, i)
  {
    hide Share, Agree;
    if i < 3 {
      ValueShare(re, v, m, n, i);
    } else if i < 10 {
      BoundShare(re, v, m, n, i);
    } else {
      PartShare(re, v, m, n, i);
    }
  }

  /** Two schemas say the same in one group. */
  predicate Agree(m: map<string, Value>, n: map<string, Value>, i: nat)
    requires i < 13
  {
    forall k <- Groups[i] :: (k in m <==> k in n) && (k in m ==> m[k] == n[k])
  }

  lemma ValueShare(re: Regexp, v: Value, m: map<string, Value>, n: map<string, Value>, i: nat)
    requires i < 3 && Agree(m, n, i)
    ensures Share(re, v, m, i) <==> Share(re, v, n, i)
  {
    hide DeepEqual, Less, Accepts;
    var k := if i == 0 then "type" else if i == 1 then "const" else "enum";
    assert k in Groups[i];
    assert Keyword(m, k) == Keyword(n, k);
  }

  lemma BoundShare(re: Regexp, v: Value, m: map<string, Value>, n: map<string, Value>, i: nat)
    requires 3 <= i < 10 && Agree(m, n, i)
    ensures Share(re, v, m, i) <==> Share(re, v, n, i)
  {
    hide DeepEqual, Less, Accepts, TypeOk;
    var k := ["minimum", "maximum", "minLength", "maxLength", "pattern", "minItems", "maxItems"][i - 3];
    assert Groups[i] == {k};
    assert Keyword(m, k) == Keyword(n, k) && Number(m, k) == Number(n, k);
  }

  lemma PartShare(re: Regexp, v: Value, m: map<string, Value>, n: map<string, Value>, i: nat)
    requires 10 <= i < 13 && Agree(m, n, i)
    ensures Share(re, v, m, i) <==> Share(re, v, n, i)
  {
    hide DeepEqual, Less, Accepts, TypeOk;
    if i == 12 {
      assert "properties" in Groups[i] && "additionalProperties" in Groups[i];
      assert Properties(m) == Properties(n) && Keyword(m, "additionalProperties") == Keyword(n, "additionalProperties");
    } else {
      var k := if i == 10 then "items" else "required";
      assert k in Groups[i];
      assert Keyword(m, k) == Keyword(n, k);
    }
  }

  lemma ShareTrivial(re: Regexp, v: Value, m: map<string, Value>, i: nat)
    requires i < 13 && forall k <- Groups[i] :: k !in m
    ensures Share(re, v, m, i)
  {
    hide DeepEqual, Less, Accepts;
    assert forall k <- Groups[i] :: Keyword(m, k) == Null && Number(m, k) == None;
    if i == 12 {
      assert "properties" in Groups[i] && "additionalProperties" in Groups[i];
    }
  }

  lemma GroupsApart(i: nat, j: nat)
    requires i < 13 && j < 13 && i != j
    ensures Groups[i] !! Groups[j]
  {
    assert forall k :: k in Groups[i] ==> GroupOf(k) == i;
    assert forall k :: k in Groups[j] ==> GroupOf(k) == j;
  }

  function GroupOf(k: string): nat {
    match k
    case "type" => 0
    case "const" => 1
    case "enum" => 2
    case "minimum" => 3
    case "maximum" => 4
    case "minLength" => 5
    case "maxLength" => 6
    case "pattern" => 7
    case "minItems" => 8
    case "maxItems" => 9
    case "items" => 10
    case "required" => 11
    case "properties" => 12
    case "additionalProperties" => 12
    case _ => 13
  }

  lemma ShareOfGroup(re: Regexp, v: Value, m: map<string, Value>, g: nat, i: nat)
    requires g < 13 && i < 13
    ensures Share(re, v, Only(m, Groups[g]), i) <==> (i == g ==> Share(re, v, m, i))
  {
    var n := Only(m, Groups[g]);
    hide Share;
    if i == g {
      assert Agree(m, n, i);
      ShareDepends(re, v, m, n, i);
    } else {
      GroupsApart(g, i);
      ShareTrivial(re, v, n, i);
    }
  }

  /** A schema accepts exactly what each of its keyword groups accepts by itself. */
  lemma Conjunction(re: Regexp, v: Value, m: map<string, Value>)
    ensures Accepts(re, v, Obj(m)) <==> forall g <- Groups :: Accepts(re, v, Obj(Only(m, g)))
  {
    hide Accepts, Share, Only;
    AcceptsShares(re, v, m);
    forall g: nat | g < 13 ensures Accepts(re, v, Obj(Only(m, Groups[g]))) <==> Share(re, v, m, g) {
      AcceptsShares(re, v, Only(m, Groups[g]));
      forall i: nat | i < 13 ensures Share(re, v, Only(m, Groups[g]), i) <==> (i == g ==> Share(re, v, m, i)) {
        ShareOfGroup(re, v, m, g, i);
      }
    }
    assert forall g: nat :: g < 13 ==> Groups[g] in Groups;
  }

  /** A schema of one keyword gives that keyword's share. */
  lemma Lone(re: Regexp, v: Value, k: string, w: Value, g: nat)
    requires g < 13 && k in Groups[g]
    ensures Accepts(re, v, Alone(k, w)) <==> Share(re, v, map[k := w], g)
  {
    hide Accepts, Share;
    var m := map[k := w];
    AcceptsShares(re, v, m);
    forall i: nat | i < 13 && i != g ensures Share(re, v, m, i) {
      GroupsApart(g, i);
      ShareTrivial(re, v, m, i);
    }
  }

  /** A whole number, or infinite. */
  ghost predicate WholeNumber(f: Num) {
    f.PosInf? || f.NegInf? || (f.Fin? && exists z: int :: IsInt(f.x, z))
  }

  predicate IsInt(x: real, z: int) {
    x == z as real
  }

  lemma WholeIff(f: Num)
    ensures Integral(f) <==> WholeNumber(f)
  {
    if f.Fin? && Integral(f) {
      assert IsInt(f.x, f.x.Floor);
    }
  }

  /** `type`: the kind of the value; any float32 is an integer, a float64 when it is whole or infinite. */
  lemma TypeMeans(re: Regexp, v: Value, w: Value)
    ensures
      var ok := Accepts(re, v, Alone("type", w));
      && (w == Str("object") ==> (ok <==> v.Obj?)) && (w == Str("array") ==> (ok <==> v.Arr?))
      && (w == Str("string") ==> (ok <==> v.Str?)) && (w == Str("boolean") ==> (ok <==> v.Bool?))
      && (w == Str("null") ==> (ok <==> v == Null))
      && (w == Str("number") ==> (ok <==> v.Int? || v.Float32? || v.Float64?))
      && (w == Str("integer") ==> (ok <==> v.Int? || v.Float32? || (v.Float64? && WholeNumber(v.f))))
      && (!w.Str? ==> ok)
  {
    Lone(re, v, "type", w, 0);
    if v.Float64? {
      WholeIff(v.f);
    }
    hide Accepts, WholeNumber, Integral;
  }

  /** `const` and `enum`: equality up to number forms. */
  lemma ConstMeans(re: Regexp, v: Value, w: Value)
    ensures Accepts(re, v, Alone("const", w)) <==> NaNFree(v) && Normal(v) == Normal(w)
  {
    Lone(re, v, "const", w, 1);
    EqualIffNormal(v, w);
    hide Accepts, Normal, NaNFree, DeepEqual;
  }

  lemma EnumMeans(re: Regexp, v: Value, items: seq<Value>)
    ensures Accepts(re, v, Alone("enum", Arr(items))) <==> NaNFree(v) && exists w <- items :: Normal(v) == Normal(w)
  {
    Lone(re, v, "enum", Arr(items), 2);
    forall w | w in items ensures DeepEqual(v, w) <==> NaNFree(v) && Normal(v) == Normal(w) {
      EqualIffNormal(v, w);
    }
    hide Accepts, Normal, NaNFree, DeepEqual;
  }

  /** The number as the validator compares it: an integer rounded to a float64. */
  ghost predicate AtLeast(v: Value, b: real) {
    match v
    case Int(n) => RoundInt(n) as real >= b
    case Float32(f) => !f.NegInf? && (f.Fin? ==> f.x >= b)
    case Float64(f) => !f.NegInf? && (f.Fin? ==> f.x >= b)
    case _ => true
  }

  ghost predicate AtMost(v: Value, b: real) {
    match v
    case Int(n) => RoundInt(n) as real <= b
    case Float32(f) => !f.PosInf? && (f.Fin? ==> f.x <= b)
    case Float64(f) => !f.PosInf? && (f.Fin? ==> f.x <= b)
    case _ => true
  }

  /** `minimum` and `maximum`: closed bounds on numbers; NaN passes both, other values are not looked at. */
  lemma MinimumMeans(re: Regexp, v: Value, b: real)
    ensures Accepts(re, v, Alone("minimum", Float64(Fin(b)))) <==> AtLeast(v, b)
  {
    Lone(re, v, "minimum", Float64(Fin(b)), 3);
    hide Accepts, RoundInt;
  }

  lemma MaximumMeans(re: Regexp, v: Value, b: real)
    ensures Accepts(re, v, Alone("maximum", Float64(Fin(b)))) <==> AtMost(v, b)
  {
    Lone(re, v, "maximum", Float64(Fin(b)), 4);
    hide Accepts, RoundInt;
  }

  /** `minLength`: at least so many characters, of a string. */
  lemma MinLengthMeans(re: Regexp, v: Value, b: real)
    ensures Accepts(re, v, Alone("minLength", Float64(Fin(b)))) <==> (v.Str? ==> |v.s| as real >= b)
  {
    Lone(re, v, "minLength", Float64(Fin(b)), 5);
    hide Accepts;
  }

  /** `maxLength`: at most so many characters, of a string. */
  lemma MaxLengthMeans(re: Regexp, v: Value, b: real)
    ensures Accepts(re, v, Alone("maxLength", Float64(Fin(b)))) <==> (v.Str? ==> |v.s| as real <= b)
  {
    Lone(re, v, "maxLength", Float64(Fin(b)), 6);
    hide Accepts;
  }

  /** `minItems`: at least so many items, of an array. */
  lemma MinItemsMeans(re: Regexp, v: Value, b: real)
    ensures Accepts(re, v, Alone("minItems", Float64(Fin(b)))) <==> (v.Arr? ==> |v.items| as real >= b)
  {
    Lone(re, v, "minItems", Float64(Fin(b)), 8);
    hide Accepts;
  }

  /** `maxItems`: at most so many items, of an array. */
  lemma MaxItemsMeans(re: Regexp, v: Value, b: real)
    ensures Accepts(re, v, Alone("maxItems", Float64(Fin(b)))) <==> (v.Arr? ==> |v.items| as real <= b)
  {
    Lone(re, v, "maxItems", Float64(Fin(b)), 9);
    hide Accepts;
  }

  /** A bound that is no float64 binds nothing. */
  lemma OtherBoundsMean(re: Regexp, v: Value, w: Value, g: nat)
    requires !w.Float64? && g in {3, 4, 5, 6, 8, 9}
    ensures forall k <- Groups[g] :: Accepts(re, v, Alone(k, w))
  {
    forall k | k in Groups[g] ensures Accepts(re, v, Alone(k, w)) {
      Lone(re, v, k, w, g);
      assert Share(re, v, map[k := w], g) by {
        hide Accepts, Less;
        assert forall x :: Number(map[k := w], x) == None;
      }
    }
  }

  /** `pattern`: a string must match; a pattern that does not compile rejects every string. */
  lemma PatternMeans(re: Regexp, v: Value, p: string)
    ensures Accepts(re, v, Alone("pattern", Str(p))) <==> (v.Str? ==> re(p, v.s) == Some(true))
  {
    Lone(re, v, "pattern", Str(p), 7);
    hide Accepts;
  }

  /** `required`: an object has every listed key; a listed value that is no string rejects every object. */
  lemma RequiredMeans(re: Regexp, v: Value, keys: seq<Value>)
    ensures Accepts(re, v, Alone("required", Arr(keys))) <==> (v.Obj? ==> forall r <- keys :: r.Str? && r.s in v.fields)
  {
    Lone(re, v, "required", Arr(keys), 11);
    hide Accepts;
  }

  /** `items`: every item of an array is accepted. */
  lemma ItemsMeans(re: Regexp, v: Value, w: Value)
    ensures Accepts(re, v, Alone("items", w)) <==> (v.Arr? ==> forall i :: 0 <= i < |v.items| ==> Accepts(re, v.items[i], w))
  {
    Lone(re, v, "items", w, 10);
    hide Accepts;
  }

  /** `properties`: every field of an object that is named is accepted by its schema. */
  lemma PropertiesMean(re: Regexp, v: Value, p: map<string, Value>)
    ensures Accepts(re, v, Alone("properties", Obj(p))) <==>
      (v.Obj? ==> forall k :: k in v.fields && k in p ==> Accepts(re, v.fields[k], p[k]))
  {
    Lone(re, v, "properties", Obj(p), 12);
    hide Accepts;
    assert Properties(map["properties" := Obj(p)]) == p;
  }

  /** `additionalProperties` false: no field is unnamed; anything else lets unnamed fields pass. */
  lemma AdditionalPropertiesMean(re: Regexp, v: Value, p: map<string, Value>, w: Value)
    ensures
      var schema := Obj(map["properties" := Obj(p), "additionalProperties" := w]);
      Accepts(re, v, schema) <==>
        && Accepts(re, v, Alone("properties", Obj(p)))
        && (v.Obj? && w == Bool(false) ==> forall k <- v.fields :: k in p)
  {
    var m := map["properties" := Obj(p), "additionalProperties" := w];
    PropertiesMean(re, v, p);
    assert Accepts(re, v, Obj(m)) <==> Share(re, v, m, 12) by {
      hide Accepts, Share;
      AcceptsShares(re, v, m);
      forall i: nat | i < 12 ensures Share(re, v, m, i) {
        GroupsApart(12, i);
        ShareTrivial(re, v, m, i);
      }
    }
    hide Accepts;
    assert Properties(m) == p && Keyword(m, "additionalProperties") == w;
  }

  /** A schema node that is no object accepts everything, and so does the empty one. */
  lemma NoConstraint(re: Regexp, v: Value, schema: Value)
    requires schema.Obj? ==> schema.fields == map[]
    ensures Accepts(re, v, schema)
  {
  }

  // ----- Large integers -----

  /** In the binade of n, with spacing 2u, r is the multiple q of the spacing, no further than half of it, and even in a tie. */
  predicate Nearest(n: int, u: nat, q: nat, r: int) {
    && u > 0 && Exact * u < n <= Exact * (2 * u) && r == q * (2 * u) && n - u <= r <= n + u
    && (r == n - u || r == n + u ==> q % 2 == 0)
  }

  lemma {:induction false} RoundsToNearest(n: nat, unit: nat) returns (u: nat, q: nat)
    requires unit > 0 && n > Exact * unit
    ensures Nearest(n, u, q, RoundMagnitude(n, unit))
    decreases n - Exact * unit
  {
    if n > Exact * (2 * unit) {
      u, q := RoundsToNearest(n, 2 * unit);
    } else {
      u := unit;
      var step := 2 * unit;
      q := n / step;
      assert n == q * step + n % step && q * step + step == (q + 1) * step;
      if RoundMagnitude(n, unit) != q * step {
        q := q + 1;
      }
    }
  }

  /** Up to 2^53 in magnitude, distinct integers are distinct to the validator. */
  lemma SmallIntegersExact(m: int, n: int)
    requires -Exact <= m <= Exact && -Exact <= n <= Exact
    ensures DeepEqual(Int(m), Int(n)) <==> m == n
  {
  }

  /** Beyond, a constant is met by its neighbour. */
  lemma LargeIntegersMerge()
    ensures DeepEqual(Int(Exact), Int(Exact + 1)) && Exact != Exact + 1
  {
    assert RoundMagnitude(Exact + 1, 1) == Exact;
  }
}
