/** The generator that answers an output schema with a value of that schema. */
module MockProvider {
  import opened Prelude
  import opened Text
  import opened Json

  type JsonValue = Value<real>

  datatype TypeName = ObjectType | ArrayType | NumberType | IntegerType | BooleanType | StringType | NullType

  datatype TypeSpec = Untyped | One(name: TypeName) | Many(names: seq<TypeName>)

  /**
   * A JSON schema: the keywords of sections 6.1 to 6.5 of JSON Schema Validation draft-07 that are not
   * about patterns or positions.
   */
  datatype Schema =
    | Always
    | Never
    | Keywords(
        types: TypeSpec,
        enumerated: Option<seq<JsonValue>>,
        constant: Option<JsonValue>,
        fallback: Option<JsonValue>,
        multipleOf: Option<real>,
        minimum: Option<real>,
        maximum: Option<real>,
        exclusiveMinimum: Option<real>,
        exclusiveMaximum: Option<real>,
        minLength: Option<nat>,
        maxLength: Option<nat>,
        items: Option<Schema>,
        minItems: Option<nat>,
        maxItems: Option<nat>,
        uniqueItems: bool,
        properties: map<string, Schema>,
        required: Option<seq<string>>,
        additionalProperties: Option<Schema>,
        minProperties: Option<nat>,
        maxProperties: Option<nat>)

  // --------------------------------------------------------------- validation

  predicate IsInteger(n: real) {
    n == n.Floor as real
  }

  predicate HasType(v: JsonValue, t: TypeName) {
    match t
    case ObjectType => v.Obj?
    case ArrayType => v.Arr?
    case NumberType => v.Num?
    case IntegerType => v.Num? && IsInteger(v.n)
    case BooleanType => v.Bool?
    case StringType => v.Str?
    case NullType => v.Null?
  }

  predicate TypeOk(ts: TypeSpec, v: JsonValue) {
    match ts
    case Untyped => true
    case One(t) => HasType(v, t)
    case Many(names) => exists i :: 0 <= i < |names| && HasType(v, names[i])
  }

  predicate NumberOk(s: Schema, n: real)
    requires s.Keywords?
  {
    && (s.multipleOf.Some? ==> s.multipleOf.value != 0.0 && IsInteger(n / s.multipleOf.value))
    && (s.minimum.Some? ==> s.minimum.value <= n)
    && (s.maximum.Some? ==> n <= s.maximum.value)
    && (s.exclusiveMinimum.Some? ==> s.exclusiveMinimum.value < n)
    && (s.exclusiveMaximum.Some? ==> n < s.exclusiveMaximum.value)
  }

  predicate LengthOk(s: Schema, length: nat)
    requires s.Keywords?
  {
    (s.minLength.Some? ==> s.minLength.value <= length) && (s.maxLength.Some? ==> length <= s.maxLength.value)
  }

  predicate ItemCountOk(s: Schema, count: nat)
    requires s.Keywords?
  {
    (s.minItems.Some? ==> s.minItems.value <= count) && (s.maxItems.Some? ==> count <= s.maxItems.value)
  }

  predicate PropertyCountOk(s: Schema, count: nat)
    requires s.Keywords?
  {
    (s.minProperties.Some? ==> s.minProperties.value <= count) &&
      (s.maxProperties.Some? ==> count <= s.maxProperties.value)
  }

  ghost predicate ItemsOk(s: Schema, items: seq<JsonValue>)
    requires s.Keywords?
    decreases s, 0
  {
    && ItemCountOk(s, |items|)
    && (s.uniqueItems ==> NoDup(items))
    && (s.items.Some? ==> forall i :: 0 <= i < |items| ==> Validates(s.items.value, items[i]))
  }

  ghost predicate MembersOk(s: Schema, members: map<string, JsonValue>)
    requires s.Keywords?
    decreases s, 0
  {
    && PropertyCountOk(s, |members|)
    && (s.required.Some? ==> forall k :: k in s.required.value ==> k in members)
    && (forall k :: k in members && k in s.properties ==> Validates(s.properties[k], members[k]))
    && (s.additionalProperties.Some? ==>
          forall k :: k in members && k !in s.properties ==> Validates(s.additionalProperties.value, members[k]))
  }

  /** The value is valid under the schema. */
  ghost predicate Validates(s: Schema, v: JsonValue)
    decreases s, 1
  {
    !s.Never? && (s.Keywords? ==>
      && TypeOk(s.types, v)
      && (s.enumerated.Some? ==> v in s.enumerated.value)
      && (s.constant.Some? ==> v == s.constant.value)
      && (v.Num? ==> NumberOk(s, v.n))
      && (v.Str? ==> LengthOk(s, |v.s|))
      && (v.Arr? ==> ItemsOk(s, v.items))
      && (v.Obj? ==> MembersOk(s, v.members)))
  }

  // --------------------------------------------------------------- generation

  /** The type the generator goes by: the first of a list. */
  function FirstType(ts: TypeSpec): Option<TypeName> {
    match ts
    case Untyped => None
    case One(t) => Some(t)
    case Many(names) => if names == [] then None else Some(names[0])
  }

  /** The value the schema itself names, an empty enumeration naming none. */
  function Named(s: Schema): Option<JsonValue>
    requires s.Keywords?
  {
    if s.enumerated.Some? && |s.enumerated.value| > 0 then Some(s.enumerated.value[0])
    else if s.constant.Some? then s.constant
    else s.fallback
  }

  predicate Wanted(s: Schema, key: string)
    requires s.Keywords?
  {
    key in s.properties && (s.required.None? || key in s.required.value)
  }

  function ItemCount(s: Schema): nat
    requires s.Keywords?
  {
    if s.minItems.Some? && s.minItems.value > 1 then s.minItems.value else 1
  }

  function Number(s: Schema): real
    requires s.Keywords?
  {
    if s.minimum.Some? then s.minimum.value else 1.0
  }

  function MockText(seed: string): JsonValue {
    Str("mock " + seed)
  }

  function ItemSeed(seed: string, i: nat): string {
    seed + "[" + Decimal(i) + "]"
  }

  function KeySeed(seed: string, key: string): string {
    seed + "." + key
  }

  function Item(s: Schema, seed: string, i: nat): JsonValue
    requires s.Keywords?
    decreases s, 0
  {
    if s.items.Some? then Synthesize(s.items.value, ItemSeed(seed, i)) else MockText(ItemSeed(seed, i))
  }

  function Items(s: Schema, seed: string, count: nat): (items: seq<JsonValue>)
    requires s.Keywords?
    ensures |items| == count && forall i :: 0 <= i < count ==> items[i] == Item(s, seed, i)
    decreases s, 1, count
  {
    if count == 0 then [] else Items(s, seed, count - 1) + [Item(s, seed, count - 1)]
  }

  /** What the generator returns. */
  function Synthesize(s: Schema, seed: string): JsonValue
    decreases s, 2
  {
    if !s.Keywords? then Null
    else if Named(s).Some? then Named(s).value
    else match FirstType(s.types)
      case Some(ObjectType) =>
        Obj(map k | k in s.properties.Keys && Wanted(s, k) :: Synthesize(s.properties[k], KeySeed(seed, k)))
      case Some(ArrayType) => Arr(Items(s, seed, ItemCount(s)))
      case Some(NumberType) => Num(Number(s))
      case Some(IntegerType) => Num(Number(s))
      case Some(BooleanType) => Bool(true)
      case _ => MockText(seed)
  }

  method SynthesizeFromSchema(s: Schema, seed: string) returns (v: JsonValue)
    ensures v == Synthesize(s, seed)
    decreases s, 1
  {
    if !s.Keywords? {
      return Null;
    }
    if Named(s).Some? {
      return Named(s).value;
    }
    match FirstType(s.types)
    case Some(ObjectType) =>
      v := SynthesizeObject(s, seed);
    case Some(ArrayType) =>
      var items: seq<JsonValue> := [];
      for i := 0 to ItemCount(s)
        invariant items == Items(s, seed, i)
      {
        var item;
        if s.items.Some? {
          item := SynthesizeFromSchema(s.items.value, ItemSeed(seed, i));
        } else {
          item := MockText(ItemSeed(seed, i));
        }
        items := items + [item];
      }
      v := Arr(items);
    case Some(NumberType) => v := Num(Number(s));
    case Some(IntegerType) => v := Num(Number(s));
    case Some(BooleanType) => v := Bool(true);
    case _ => v := MockText(seed);
  }

  method SynthesizeObject(s: Schema, seed: string) returns (v: JsonValue)
    requires s.Keywords? && Named(s).None? && FirstType(s.types) == Some(ObjectType)
    ensures v == Synthesize(s, seed)
    decreases s, 0
  {
    var out: map<string, JsonValue> := map[];
    var rest := s.properties.Keys;
    while rest != {}
      invariant rest <= s.properties.Keys
      invariant forall k :: k in out <==> Wanted(s, k) && k !in rest
      invariant forall k :: k in out ==> out[k] == Synthesize(s.properties[k], KeySeed(seed, k))
      decreases rest
    {
      var key :| key in rest;
      rest := rest - {key};
      if Wanted(s, key) {
        var child := SynthesizeFromSchema(s.properties[key], KeySeed(seed, key));
        out := out[key := child];
      }
    }
    v := Obj(out);
  }

  // ------------------------------------------------------------------- result

  /** The value depends on the seed. */
  predicate Varies(s: Schema)
    decreases s
  {
    s.Keywords? && Named(s).None? &&
    match FirstType(s.types)
    case Some(ObjectType) => exists k :: k in s.properties && Wanted(s, k) && Varies(s.properties[k])
    case Some(ArrayType) => s.items.Some? ==> Varies(s.items.value)
    case Some(NumberType) => false
    case Some(IntegerType) => false
    case Some(BooleanType) => false
    case _ => true
  }

  lemma {:induction false} SeedParts(a: string, b: string, key: string, i: nat)
    ensures KeySeed(a, key) == KeySeed(b, key) <==> a == b
    ensures ItemSeed(a, i) == ItemSeed(b, i) <==> a == b
    ensures MockText(a) == MockText(b) <==> a == b
  {
    SameEnding(a, b, "." + key);
    SameEnding(a, b, "[" + Decimal(i) + "]");
    assert forall x :: KeySeed(x, key) == x + ("." + key);
    assert forall x :: ItemSeed(x, i) == x + ("[" + Decimal(i) + "]");
    assert ("mock " + a)[5..] == a && ("mock " + b)[5..] == b;
  }

  lemma {:induction false} SameEnding(a: string, b: string, ending: string)
    ensures a + ending == b + ending <==> a == b
  {
    assert (a + ending)[..|a + ending| - |ending|] == a;
    assert (b + ending)[..|b + ending| - |ending|] == b;
  }

  lemma {:induction false} ItemSeedsDiffer(seed: string, i: nat, j: nat)
    ensures ItemSeed(seed, i) == ItemSeed(seed, j) <==> i == j
  {
    var s, t := ItemSeed(seed, i), ItemSeed(seed, j);
    if s == t {
      assert s[|seed| + 1..|s| - 1] == Decimal(i);
      assert t[|seed| + 1..|t| - 1] == Decimal(j);
      DecimalUnique(i, j);
    }
  }

  /** Two seeds give the same value exactly when they are the same seed or the seed plays no part. */
  lemma {:induction false} SeedsTellApart(s: Schema, a: string, b: string)
    ensures Synthesize(s, a) == Synthesize(s, b) <==> a == b || !Varies(s)
    decreases s
  {
    if s.Keywords? && Named(s).None? {
      SeedParts(a, b, "", 0);
      match FirstType(s.types)
      case Some(ObjectType) =>
        forall k | k in s.properties && Wanted(s, k)
          ensures Synthesize(s.properties[k], KeySeed(a, k)) == Synthesize(s.properties[k], KeySeed(b, k)) <==>
            a == b || !Varies(s.properties[k])
        {
          SeedParts(a, b, k, 0);
          SeedsTellApart(s.properties[k], KeySeed(a, k), KeySeed(b, k));
        }
        ObjectsAlike(s, a, b);
      case Some(ArrayType) =>
        forall i: nat ensures SameItem(s, a, b, i) <==> a == b || (s.items.Some? && !Varies(s.items.value)) {
          SeedParts(a, b, "", i);
          SeedParts(ItemSeed(a, i), ItemSeed(b, i), "", 0);
          if s.items.Some? {
            SeedsTellApart(s.items.value, ItemSeed(a, i), ItemSeed(b, i));
          }
        }
        ArraysAlike(s, a, b);
        assert 0 < ItemCount(s);
        assert SameItem(s, a, b, 0) <==> a == b || (s.items.Some? && !Varies(s.items.value));
      case _ =>
    }
  }

  lemma {:induction false} ObjectsAlike(s: Schema, a: string, b: string)
    requires s.Keywords? && Named(s).None? && FirstType(s.types) == Some(ObjectType)
    ensures Synthesize(s, a) == Synthesize(s, b) <==>
      forall k :: k in s.properties && Wanted(s, k) ==>
        Synthesize(s.properties[k], KeySeed(a, k)) == Synthesize(s.properties[k], KeySeed(b, k))
  {
    var x, y := Synthesize(s, a).members, Synthesize(s, b).members;
    forall k | k in s.properties && Wanted(s, k)
      ensures k in x && k in y
      ensures x[k] == Synthesize(s.properties[k], KeySeed(a, k)) && y[k] == Synthesize(s.properties[k], KeySeed(b, k))
    {
    }
    assert x.Keys == y.Keys;
  }

  ghost predicate SameItem(s: Schema, a: string, b: string, i: nat)
    requires s.Keywords?
  {
    Item(s, a, i) == Item(s, b, i)
  }

  lemma {:induction false} ArraysAlike(s: Schema, a: string, b: string)
    requires s.Keywords? && Named(s).None? && FirstType(s.types) == Some(ArrayType)
    ensures Synthesize(s, a) == Synthesize(s, b) <==> forall i: nat :: i < ItemCount(s) ==> SameItem(s, a, b, i)
  {
    var x, y := Items(s, a, ItemCount(s)), Items(s, b, ItemCount(s));
    assert Synthesize(s, a) == Arr(x) && Synthesize(s, b) == Arr(y);
    forall i: nat | i < ItemCount(s) ensures SameItem(s, a, b, i) <==> x[i] == y[i] {
    }
    if forall i: nat :: i < ItemCount(s) ==> SameItem(s, a, b, i) {
      forall i: nat | i < ItemCount(s) ensures x[i] == y[i] {
        assert SameItem(s, a, b, i);
      }
      assert x == y;
    }
  }

  /** The schema goes by this type: it is the one named, or the first of several. */
  predicate LedBy(ts: TypeSpec, t: TypeName) {
    ts == One(t) || (ts.Many? && ts.names != [] && ts.names[0] == t)
  }

  /**
   * What a schema must be for the generator to meet it, given the length of the
   * seed: the value it names first, in its enumeration, then as its constant, then
   * as its default, fits it; else its keywords admit what is generated.
   */
  ghost predicate Supported(s: Schema, n: nat)
    decreases s, 1
  {
    match s
    case Always => true
    case Never => false
    case _ =>
      if s.enumerated.Some? && s.enumerated.value != [] then Validates(s, s.enumerated.value[0])
      else if s.constant.Some? then Validates(s, s.constant.value)
      else if s.fallback.Some? then Validates(s, s.fallback.value)
      else s.enumerated.None? && SupportedType(s, n)
  }

  ghost predicate SupportedType(s: Schema, n: nat)
    requires s.Keywords?
    decreases s, 0
  {
    if LedBy(s.types, ObjectType) then
      && CountAdmitted(s, |set k | k in s.properties && (s.required.None? || k in s.required.value)|)
      && (s.required.Some? ==> forall k :: k in s.required.value ==> k in s.properties)
      && (forall k :: k in s.properties && (s.required.None? || k in s.required.value) ==>
            Supported(s.properties[k], n + 1 + |k|))
    else if LedBy(s.types, ArrayType) then
      && (s.maxItems.Some? ==> 1 <= s.maxItems.value && (s.minItems.Some? ==> s.minItems.value <= s.maxItems.value))
      && (s.items.Some? ==>
            && (s.uniqueItems && s.minItems.Some? && s.minItems.value > 1 ==> Varies(s.items.value))
            && forall i: nat :: i == 0 || (s.minItems.Some? && i < s.minItems.value) ==>
                 Supported(s.items.value, n + |Decimal(i)| + 2))
    else if LedBy(s.types, NumberType) then NumberAdmitted(s)
    else if LedBy(s.types, IntegerType) then
      && NumberAdmitted(s)
      && ((s.minimum.Some? ==> IsInteger(s.minimum.value)) || (s.types.Many? && NumberType in s.types.names))
    else if LedBy(s.types, BooleanType) then true
    else
      && (s.minLength.Some? ==> s.minLength.value <= n + 5) && (s.maxLength.Some? ==> n + 5 <= s.maxLength.value)
      && (s.types.Untyped? || s.types == One(StringType) || (s.types.Many? && StringType in s.types.names))
  }

  predicate CountAdmitted(s: Schema, count: nat)
    requires s.Keywords?
  {
    && (s.minProperties.Some? ==> s.minProperties.value <= count)
    && (s.maxProperties.Some? ==> count <= s.maxProperties.value)
  }

  /** The other numeric keywords admit the minimum, or one when there is none. */
  predicate NumberAdmitted(s: Schema)
    requires s.Keywords?
  {
    match s.minimum
    case Some(min) => Admits(s, min)
    case None => Admits(s, 1.0)
  }

  predicate Admits(s: Schema, x: real)
    requires s.Keywords?
  {
    && (s.maximum.Some? ==> x <= s.maximum.value)
    && (s.exclusiveMinimum.Some? ==> x > s.exclusiveMinimum.value)
    && (s.exclusiveMaximum.Some? ==> x < s.exclusiveMaximum.value)
    && (s.multipleOf.Some? ==> s.multipleOf.value != 0.0 && IsInteger(x / s.multipleOf.value))
  }

  /** The schema names no value itself. */
  predicate Nameless(s: Schema) {
    s.Keywords? && (s.enumerated.Some? ==> s.enumerated.value == []) && s.constant.None? && s.fallback.None?
  }

  /** What is generated for a schema that names no value. */
  lemma {:induction false} GeneratedShape(s: Schema, seed: string)
    requires Nameless(s)
    ensures LedBy(s.types, NumberType) || LedBy(s.types, IntegerType) ==>
      Synthesize(s, seed) == Num(match s.minimum case Some(min) => min case None => 1.0)
    ensures LedBy(s.types, BooleanType) ==> Synthesize(s, seed) == Bool(true)
    ensures LedBy(s.types, ObjectType) ==>
      Synthesize(s, seed).Obj? && MembersGenerated(s, seed, Synthesize(s, seed).members)
    ensures LedBy(s.types, ArrayType) ==>
      Synthesize(s, seed).Arr? && ItemsGenerated(s, seed, Synthesize(s, seed).items)
    ensures (forall t :: LedBy(s.types, t) ==> t == StringType || t == NullType) ==>
      Synthesize(s, seed) == Str("mock " + seed)
  {
    forall t | FirstType(s.types) == Some(t) ensures LedBy(s.types, t) {
    }
    if LedBy(s.types, ArrayType) {
      forall i: nat ensures ItemSeed(seed, i) == seed + "[" + Decimal(i) + "]" {
      }
    }
  }

  ghost predicate MembersGenerated(s: Schema, seed: string, members: map<string, JsonValue>)
    requires s.Keywords?
  {
    && (forall k :: k in members <==> k in s.properties && (s.required.None? || k in s.required.value))
    && forall k :: k in members ==> members[k] == Synthesize(s.properties[k], seed + "." + k)
  }

  ghost predicate ItemsGenerated(s: Schema, seed: string, items: seq<JsonValue>)
    requires s.Keywords?
  {
    && |items| >= 1 && (s.minItems.Some? ==> |items| >= s.minItems.value)
    && (|items| == 1 || s.minItems == Some(|items|))
    && forall i: nat :: i < |items| ==> ItemGenerated(s.items, seed + "[" + Decimal(i) + "]", items[i])
  }

  ghost predicate ItemGenerated(items: Option<Schema>, seed: string, item: JsonValue) {
    item == match items case Some(s) => Synthesize(s, seed) case None => Str("mock " + seed)
  }

  /** The generated value is valid under the schema exactly when the schema is supported. */
  lemma {:induction false} GeneratedIsValid(s: Schema, seed: string)
    ensures Validates(s, Synthesize(s, seed)) <==> Supported(s, |seed|)
    decreases s, 2
  {
    if !s.Keywords? || Named(s).Some? || s.enumerated.Some? {
      NamedIsValid(s, seed);
    } else if FirstType(s.types) == Some(ObjectType) {
      PropertiesAreValid(s, seed);
      ObjectIsValid(s, seed);
    } else if FirstType(s.types) == Some(ArrayType) {
      GeneratedItemsAreValid(s, seed);
      ArrayIsValid(s, seed);
    } else {
      ScalarIsValid(s, seed);
    }
  }

  lemma {:induction false} OnePropertyIsValid(s: Schema, seed: string, k: string)
    requires s.Keywords? && k in s.properties
    ensures PropertyIsValid(s, seed, k)
    decreases s, 0
  {
    GeneratedIsValid(s.properties[k], KeySeed(seed, k));
  }

  lemma {:induction false} PropertiesAreValid(s: Schema, seed: string)
    requires s.Keywords?
    ensures forall k :: k in s.properties && Wanted(s, k) ==> PropertyIsValid(s, seed, k)
    decreases s, 1
  {
    forall k | k in s.properties && Wanted(s, k) ensures PropertyIsValid(s, seed, k) {
      OnePropertyIsValid(s, seed, k);
    }
  }

  lemma {:induction false} GeneratedItemsAreValid(s: Schema, seed: string)
    requires s.Keywords?
    ensures s.items.Some? ==> forall i: nat :: i < ItemCount(s) ==> ItemIsValid(s, seed, i)
    decreases s, 0
  {
    if s.items.Some? {
      forall i: nat | i < ItemCount(s) ensures ItemIsValid(s, seed, i) {
        GeneratedIsValid(s.items.value, ItemSeed(seed, i));
      }
    }
  }

  /** The keys wanted of an object. */
  ghost function WantedKeys(s: Schema): set<string>
    requires s.Keywords?
  {
    set k | k in s.properties && (s.required.None? || k in s.required.value)
  }

  lemma {:induction false} NamedIsValid(s: Schema, seed: string)
    requires !s.Keywords? || Named(s).Some? || s.enumerated.Some?
    ensures Validates(s, Synthesize(s, seed)) <==> Supported(s, |seed|)
  {
  }

  ghost predicate PropertyIsValid(s: Schema, seed: string, k: string)
    requires s.Keywords? && k in s.properties
  {
    Validates(s.properties[k], Synthesize(s.properties[k], KeySeed(seed, k))) <==>
      Supported(s.properties[k], |seed| + 1 + |k|)
  }

  ghost predicate ItemIsValid(s: Schema, seed: string, i: nat)
    requires s.Keywords? && s.items.Some?
  {
    Validates(s.items.value, Item(s, seed, i)) <==> Supported(s.items.value, |seed| + |Decimal(i)| + 2)
  }

  lemma {:induction false} FirstTypeOk(ts: TypeSpec, v: JsonValue)
    requires FirstType(ts).Some? && HasType(v, FirstType(ts).value)
    ensures TypeOk(ts, v)
  {
    if ts.Many? {
      assert HasType(v, ts.names[0]);
    }
  }

  lemma {:induction false} TextTypes(ts: TypeSpec, a: string, b: string)
    ensures TypeOk(ts, Str(a)) <==> TypeOk(ts, Str(b))
  {
    assert forall t :: HasType(Str(a), t) <==> HasType(Str(b), t);
  }

  lemma {:induction false} ScalarIsValid(s: Schema, seed: string)
    requires s.Keywords? && Named(s).None? && s.enumerated.None?
    requires FirstType(s.types) != Some(ObjectType) && FirstType(s.types) != Some(ArrayType)
    ensures Validates(s, Synthesize(s, seed)) <==> Supported(s, |seed|)
  {
    TextTypes(s.types, "mock " + seed, "");
    match FirstType(s.types)
    case Some(NumberType) => FirstTypeOk(s.types, Num(Number(s)));
    case Some(BooleanType) => FirstTypeOk(s.types, Bool(true));
    case _ =>
  }

  lemma {:induction false} ObjectIsValid(s: Schema, seed: string)
    requires s.Keywords? && Named(s).None? && s.enumerated.None? && FirstType(s.types) == Some(ObjectType)
    requires forall k :: k in s.properties && Wanted(s, k) ==> PropertyIsValid(s, seed, k)
    ensures Validates(s, Synthesize(s, seed)) <==> Supported(s, |seed|)
  {
    var members := Synthesize(s, seed).members;
    FirstTypeOk(s.types, Synthesize(s, seed));
    assert members.Keys == WantedKeys(s);
    assert |members| == |WantedKeys(s)|;
    forall k | k in members ensures k in s.properties && members[k] == Synthesize(s.properties[k], KeySeed(seed, k)) {
    }
    if s.required.Some? {
      assert forall k :: k in s.required.value ==> (k in members <==> k in s.properties);
    }
    assert Validates(s, Obj(members)) <==> MembersOk(s, members);
  }

  lemma {:induction false} ArrayIsValid(s: Schema, seed: string)
    requires s.Keywords? && Named(s).None? && s.enumerated.None? && FirstType(s.types) == Some(ArrayType)
    requires s.items.Some? ==> forall i: nat :: i < ItemCount(s) ==> ItemIsValid(s, seed, i)
    ensures Validates(s, Synthesize(s, seed)) <==> Supported(s, |seed|)
  {
    var items := Synthesize(s, seed).items;
    FirstTypeOk(s.types, Synthesize(s, seed));
    UniqueExactlyWhenVarying(s, seed);
    if s.items.Some? {
      forall i: nat | i < |items|
        ensures Validates(s.items.value, items[i]) <==> Supported(s.items.value, |seed| + |Decimal(i)| + 2)
      {
        assert ItemIsValid(s, seed, i);
      }
    }
    assert Validates(s, Arr(items)) <==> ItemsOk(s, items);
  }

  lemma {:induction false} UniqueExactlyWhenVarying(s: Schema, seed: string)
    requires s.Keywords? && Named(s).None? && FirstType(s.types) == Some(ArrayType)
    ensures NoDup(Synthesize(s, seed).items) <==> ItemCount(s) == 1 || s.items.None? || Varies(s.items.value)
  {
    var items := Synthesize(s, seed).items;
    forall i: nat, j: nat | i < j < ItemCount(s)
      ensures items[i] == items[j] <==> s.items.Some? && !Varies(s.items.value)
    {
      ItemSeedsDiffer(seed, i, j);
      SeedParts(ItemSeed(seed, i), ItemSeed(seed, j), "", 0);
      if s.items.Some? {
        SeedsTellApart(s.items.value, ItemSeed(seed, i), ItemSeed(seed, j));
      }
    }
    if ItemCount(s) > 1 {
      assert items[0] == items[1] <==> s.items.Some? && !Varies(s.items.value);
    }
  }

  const PLAIN := Keywords(Untyped, None, None, None, None, None, None, None, None, None, None, None, None, None, false,
                          map[], None, None, None, None)

  /** Satisfiable scalar schemas the generator does not meet, each with a value that is valid. */
  lemma {:induction false} SomeSchemasAreMissed(seed: string)
    ensures var s := PLAIN.(types := One(NullType)); !Validates(s, Synthesize(s, seed)) && Validates(s, Null)
    ensures var s := PLAIN.(types := One(NumberType), maximum := Some(0.0));
      !Validates(s, Synthesize(s, seed)) && Validates(s, Num(0.0))
    ensures var s := PLAIN.(types := One(IntegerType), minimum := Some(0.5));
      !Validates(s, Synthesize(s, seed)) && Validates(s, Num(1.0))
  {
    assert (0.5).Floor == 0 && (1.0).Floor == 1;
  }

  /** Satisfiable container schemas the generator does not meet, each with a value that is valid. */
  lemma {:induction false} SomeContainersAreMissed(seed: string)
    ensures var s := PLAIN.(types := One(ArrayType), maxItems := Some(0));
      !Validates(s, Synthesize(s, seed)) && Validates(s, Arr([]))
    ensures var s := PLAIN.(types := One(ObjectType), required := Some(["a"]));
      !Validates(s, Synthesize(s, seed)) && Validates(s, Obj(map["a" := Null]))
  {
    GeneratedIsValid(PLAIN.(types := One(ArrayType), maxItems := Some(0)), seed);
    var s := PLAIN.(types := One(ObjectType), required := Some(["a"]));
    GeneratedIsValid(s, seed);
    assert "a" in s.required.value;
  }
}
