/** The two readings of a field's type tree: as a check of Python values, and as a rendered JSON schema.
    The sets of literals and of enum values hold strings. */
module TypeSpecs {
  datatype Option<+T> = None | Some(value: T)

  /** A Python value: the JSON ones, and members of an enum class and instances of a dataclass. */
  datatype Value =
    | Null
    | Bool(b: bool)
    | Int(n: int)
    | Float(r: real)
    | Str(s: string)
    | Array(items: seq<Value>)
    | Object(members: map<string, Value>)
    | Member(enumClass: int, s: string)
    | Instance(dataclass: int)

  datatype Primitive = Boolean | Integer | Number | Text

  datatype Spec =
    | AnySpec
    | PrimitiveSpec(kind: Primitive)
    | LiteralSpec(values: seq<string>)
    | EnumSpec(enumClass: int, values: seq<string>)
    | ListSpec(item: Spec)
    | DictSpec(element: Spec)
    | DataclassSpec(dataclass: int, fields: seq<(string, Spec)>, required: seq<string>)
    | OptionalSpec(inner: Spec)

  predicate IsWhole(r: real) {
    r.Floor as real == r
  }

  // -- check and coerce --------------------------------------------------------------------------------

  /** Whether `check()` finds nothing wrong. */
  predicate Passes(spec: Spec, v: Value)
    decreases spec
  {
    match spec
    case AnySpec => true
    case PrimitiveSpec(Boolean) => v.Bool?
    case PrimitiveSpec(Integer) => v.Int? || (v.Float? && IsWhole(v.r))
    case PrimitiveSpec(Number) => v.Int? || v.Float?
    case PrimitiveSpec(Text) => v.Str?
    case LiteralSpec(values) => v.Str? && v.s in values
    case EnumSpec(c, values) => (v.Member? && v.enumClass == c) || (v.Str? && v.s in values)
    case ListSpec(item) => v.Array? && forall i :: 0 <= i < |v.items| ==> Passes(item, v.items[i])
    case DictSpec(element) => v.Object? && forall k :: k in v.members ==> Passes(element, v.members[k])
    case DataclassSpec(c, fields, required) =>
      if v.Instance? && v.dataclass == c then true
      else
        && v.Object?
        && (forall i :: 0 <= i < |required| ==> required[i] in v.members)
        && forall i :: 0 <= i < |fields| && fields[i].0 in v.members ==> Passes(fields[i].1, v.members[fields[i].0])
    case OptionalSpec(inner) => v.Null? || Passes(inner, v)
  }

  /** `coerce()`: a whole float becomes an int for an int field, and an enum's value its member. */
  function Coerce(spec: Spec, v: Value): Value
    decreases spec
  {
    match spec
    case PrimitiveSpec(Integer) => if v.Float? then Int(v.r.Floor) else v
    case EnumSpec(c, _) => if v.Str? then Member(c, v.s) else v
    case ListSpec(item) =>
      if v.Array? then Array(seq(|v.items|, i requires 0 <= i < |v.items| => Coerce(item, v.items[i]))) else v
    case DictSpec(element) =>
      if v.Object? then Object(map k | k in v.members :: Coerce(element, v.members[k])) else v
    case OptionalSpec(inner) => if v.Null? then Null else Coerce(inner, v)
    case _ => v
  }

  // -- JSON schema -------------------------------------------------------------------------------------

  datatype Type = IsBoolean | IsInteger | IsNumber | IsString | IsArray | IsObject | IsNull

  /** The keywords a rendered schema uses; an absent one asserts nothing. */
  datatype Schema = Schema(
    typed: Option<Type>,
    enum: Option<seq<string>>,
    items: Option<Schema>,
    properties: seq<(string, Schema)>,
    required: seq<string>,
    additional: Option<Schema>,
    anyOf: seq<Schema>)

  const ANYTHING := Schema(None, None, None, [], [], None, [])

  predicate HasType(v: Value, t: Type) {
    match t
    case IsBoolean => v.Bool?
    case IsInteger => v.Int? || (v.Float? && IsWhole(v.r))
    case IsNumber => v.Int? || v.Float?
    case IsString => v.Str?
    case IsArray => v.Array?
    case IsObject => v.Object?
    case IsNull => v.Null?
  }

  ghost predicate IsProperty(schema: Schema, name: string) {
    exists i :: 0 <= i < |schema.properties| && schema.properties[i].0 == name
  }

  /** Validity, keyword by keyword: `type`, `enum` and `required` are assertions of JSON Schema
      Validation (sections 6.1.1, 6.1.2 and 6.5.3 of its 2020-12 draft); `items`, `properties`,
      `additionalProperties` and `anyOf` apply a subschema. */
  ghost predicate Validates(schema: Schema, v: Value)
    decreases schema
  {
    && (schema.typed.Some? ==> HasType(v, schema.typed.value))
    && (schema.enum.Some? ==> v.Str? && v.s in schema.enum.value)
    && (schema.items.Some? && v.Array? ==> forall i :: 0 <= i < |v.items| ==> Validates(schema.items.value, v.items[i]))
    && (v.Object? ==>
          && (forall i :: 0 <= i < |schema.required| ==> schema.required[i] in v.members)
          && (forall i :: 0 <= i < |schema.properties| && schema.properties[i].0 in v.members ==>
                Validates(schema.properties[i].1, v.members[schema.properties[i].0]))
          && (schema.additional.Some? ==>
                forall k :: k in v.members && !IsProperty(schema, k) ==>
                  Validates(schema.additional.value, v.members[k])))
    && (schema.anyOf != [] ==> exists i :: 0 <= i < |schema.anyOf| && Validates(schema.anyOf[i], v))
  }

  function TypeOf(kind: Primitive): Type {
    match kind case Boolean => IsBoolean case Integer => IsInteger case Number => IsNumber case Text => IsString
  }

  function EnumSchema(values: seq<string>): Schema {
    ANYTHING.(typed := if values == [] then None else Some(IsString), enum := Some(values))
  }

  /** `to_json_schema()`. */
  function Render(spec: Spec): Schema {
    match spec
    case AnySpec => ANYTHING
    case PrimitiveSpec(kind) => ANYTHING.(typed := Some(TypeOf(kind)))
    case LiteralSpec(values) => EnumSchema(values)
    case EnumSpec(_, values) => EnumSchema(values)
    case ListSpec(item) => ANYTHING.(typed := Some(IsArray), items := Some(Render(item)))
    case DictSpec(element) => ANYTHING.(typed := Some(IsObject), additional := Some(Render(element)))
    case DataclassSpec(_, fields, required) =>
      ANYTHING.(typed := Some(IsObject), required := required,
                properties := seq(|fields|, i requires 0 <= i < |fields| => (fields[i].0, Render(fields[i].1))))
    case OptionalSpec(inner) => ANYTHING.(anyOf := [Render(inner), ANYTHING.(typed := Some(IsNull))])
  }

  // -- the two readings agree ----------------------------------------------------------------------------

  /** A value JSON can carry. */
  predicate IsJson(v: Value)
    decreases v
  {
    match v
    case Array(items) => forall i :: 0 <= i < |items| ==> IsJson(items[i])
    case Object(members) => forall k :: k in members ==> IsJson(members[k])
    case Member(_, _) => false
    case Instance(_) => false
    case _ => true
  }

  lemma NullSchema(v: Value)
    ensures Validates(ANYTHING.(typed := Some(IsNull)), v) <==> v.Null?
    ensures Validates(ANYTHING, v)
  {
  }

  lemma ListAgrees(item: Spec, v: Value)
    requires v.Array? ==> forall i :: 0 <= i < |v.items| ==>
             (Passes(item, v.items[i]) <==> Validates(Render(item), v.items[i]))
    ensures Passes(ListSpec(item), v) <==> Validates(Render(ListSpec(item)), v)
  {
    hide Validates, Passes;
    ListPasses(item, v);
    ListValidates(Render(item), v);
  }

  lemma ListPasses(item: Spec, v: Value)
    ensures Passes(ListSpec(item), v) <==> v.Array? && forall i :: 0 <= i < |v.items| ==> Passes(item, v.items[i])
  {
  }

  lemma ListValidates(item: Schema, v: Value)
    ensures Validates(ANYTHING.(typed := Some(IsArray), items := Some(item)), v)
       <==> v.Array? && forall i :: 0 <= i < |v.items| ==> Validates(item, v.items[i])
  {
  }

  lemma DictPasses(element: Spec, v: Value)
    ensures Passes(DictSpec(element), v) <==> v.Object? && forall k :: k in v.members ==> Passes(element, v.members[k])
  {
  }

  lemma DictValidates(element: Schema, v: Value)
    ensures Validates(ANYTHING.(typed := Some(IsObject), additional := Some(element)), v)
       <==> v.Object? && forall k :: k in v.members ==> Validates(element, v.members[k])
  {
    assert forall k :: !IsProperty(ANYTHING.(typed := Some(IsObject), additional := Some(element)), k);
  }

  lemma RecordValidates(properties: seq<(string, Schema)>, required: seq<string>, v: Value)
    ensures Validates(ANYTHING.(typed := Some(IsObject), required := required, properties := properties), v)
       <==> && v.Object? && (forall i :: 0 <= i < |required| ==> required[i] in v.members)
            && forall i :: 0 <= i < |properties| && properties[i].0 in v.members ==>
                 Validates(properties[i].1, v.members[properties[i].0])
  {
  }

  lemma OptionalValidates(inner: Schema, v: Value)
    ensures Validates(ANYTHING.(anyOf := [inner, ANYTHING.(typed := Some(IsNull))]), v) <==>
              Validates(inner, v) || v.Null?
  {
    var schema := ANYTHING.(anyOf := [inner, ANYTHING.(typed := Some(IsNull))]);
    assert schema.anyOf[0] == inner && schema.anyOf[1] == ANYTHING.(typed := Some(IsNull));
    NullSchema(v);
  }

  /** For every type tree, a JSON value passes `check()` exactly when it is valid under the schema. */
  lemma {:induction false} CheckMeansValid(spec: Spec, v: Value)
    requires IsJson(v)
    ensures Passes(spec, v) <==> Validates(Render(spec), v)
    decreases spec, 0
  {
    match spec
    case ListSpec(item) =>
      if v.Array? {
        forall i | 0 <= i < |v.items| ensures Passes(item, v.items[i]) <==> Validates(Render(item), v.items[i]) {
          CheckMeansValid(item, v.items[i]);
        }
      }
      ListAgrees(item, v);
    case DictSpec(element) => DictAgrees(element, v);
    case DataclassSpec(c, fields, required) => RecordAgrees(c, fields, required, v);
    case OptionalSpec(inner) =>
      CheckMeansValid(inner, v);
      OptionalValidates(Render(inner), v);
    case _ =>
  }

  lemma DictAgrees(element: Spec, v: Value)
    requires IsJson(v)
    ensures Passes(DictSpec(element), v) <==> Validates(Render(DictSpec(element)), v)
    decreases element, 1
  {
    hide Passes, Validates;
    DictPasses(element, v);
    DictValidates(Render(element), v);
    if v.Object? {
      forall k | k in v.members ensures Passes(element, v.members[k]) <==> Validates(Render(element), v.members[k]) {
        CheckMeansValid(element, v.members[k]);
      }
    }
  }

  lemma RecordAgrees(c: int, fields: seq<(string, Spec)>, required: seq<string>, v: Value)
    requires IsJson(v)
    ensures Passes(DataclassSpec(c, fields, required), v) <==> Validates(Render(DataclassSpec(c, fields, required)), v)
    decreases fields, 1
  {
    hide Validates;
    var properties := Render(DataclassSpec(c, fields, required)).properties;
    RecordValidates(properties, required, v);
    if v.Object? {
      forall i | 0 <= i < |fields| && fields[i].0 in v.members
        ensures Passes(fields[i].1, v.members[fields[i].0]) <==> Validates(properties[i].1, v.members[properties[i].0])
      {
        CheckMeansValid(fields[i].1, v.members[fields[i].0]);
      }
    }
  }

  // -- coerced values pass, and stay -----------------------------------------------------------------------

  /** A value that passes still does once it is coerced, and coercing it again changes nothing. */
  lemma {:induction false} CoerceKeeps(spec: Spec, v: Value)
    requires Passes(spec, v)
    ensures Passes(spec, Coerce(spec, v)) && Coerce(spec, Coerce(spec, v)) == Coerce(spec, v)
    decreases spec
  {
    match spec
    case ListSpec(item) =>
      forall i | 0 <= i < |v.items|
        ensures Passes(item, Coerce(item, v.items[i]))
                && Coerce(item, Coerce(item, v.items[i])) == Coerce(item, v.items[i])
      {
        CoerceKeeps(item, v.items[i]);
      }
      assert Coerce(spec, Coerce(spec, v)).items == Coerce(spec, v).items;
    case DictSpec(element) =>
      forall k | k in v.members
        ensures Passes(element, Coerce(element, v.members[k]))
        ensures Coerce(element, Coerce(element, v.members[k])) == Coerce(element, v.members[k])
      {
        CoerceKeeps(element, v.members[k]);
      }
      assert Coerce(spec, Coerce(spec, v)).members == Coerce(spec, v).members;
    case OptionalSpec(inner) =>
      if !v.Null? {
        CoerceKeeps(inner, v);
      }
    case _ =>
  }

  /** The same value, whichever of Python's types carries it: an int and the float equal to it, an enum's
      member and its value; lists element by element, and dicts under the same keys. */
  ghost predicate SameValue(v: Value, w: Value)
    decreases v
  {
    match (v, w)
    case (Array(xs), Array(ys)) => |xs| == |ys| && forall i :: 0 <= i < |xs| ==> SameValue(xs[i], ys[i])
    case (Object(xs), Object(ys)) => xs.Keys == ys.Keys && forall k :: k in xs ==> SameValue(xs[k], ys[k])
    case (Float(r), Int(n)) => r == n as real
    case (Str(s), Member(_, m)) => s == m
    case _ => v == w
  }

  /** No part of a value is a float where the spec asks for an int, or a string where it asks for a
      member of an enum class. */
  ghost predicate Typed(spec: Spec, w: Value)
    decreases spec
  {
    match spec
    case PrimitiveSpec(Integer) => w.Int?
    case EnumSpec(c, _) => w.Member? && w.enumClass == c
    case ListSpec(item) => w.Array? && forall i :: 0 <= i < |w.items| ==> Typed(item, w.items[i])
    case DictSpec(element) => w.Object? && forall k :: k in w.members ==> Typed(element, w.members[k])
    case OptionalSpec(inner) => w.Null? || Typed(inner, w)
    case _ => true
  }

  lemma {:induction false} SameAsItself(v: Value)
    ensures SameValue(v, v)
    decreases v
  {
    match v
    case Array(items) => forall i | 0 <= i < |items| ensures SameValue(items[i], items[i]) { SameAsItself(items[i]); }
    case Object(members) => forall k | k in members ensures SameValue(members[k], members[k]) {
        SameAsItself(members[k]);
      }
    case _ =>
  }

  /** Coercing a value that passes gives the same value in the types the spec asks for: a whole float
      under an int becomes the equal int, an enum's value the member of that class with that value, and
      every element, key and null stays in place. */
  lemma {:induction false} CoerceMeans(spec: Spec, v: Value)
    requires Passes(spec, v)
    ensures SameValue(v, Coerce(spec, v)) && Typed(spec, Coerce(spec, v))
    decreases spec
  {
    match spec
    case ListSpec(item) =>
      forall i | 0 <= i < |v.items|
        ensures SameValue(v.items[i], Coerce(item, v.items[i])) && Typed(item, Coerce(item, v.items[i]))
      {
        CoerceMeans(item, v.items[i]);
      }
    case DictSpec(element) =>
      forall k | k in v.members
        ensures SameValue(v.members[k], Coerce(element, v.members[k]))
        ensures Typed(element, Coerce(element, v.members[k]))
      {
        CoerceMeans(element, v.members[k]);
      }
    case OptionalSpec(inner) =>
      if !v.Null? {
        CoerceMeans(inner, v);
      }
    case _ => SameAsItself(v);
  }

  /** A value the spec has nothing to change in is left exactly as it was. */
  lemma {:induction false} CoerceLeavesTyped(spec: Spec, v: Value)
    requires Typed(spec, v)
    ensures Coerce(spec, v) == v
    decreases spec
  {
    match spec
    case ListSpec(item) =>
      forall i | 0 <= i < |v.items| ensures Coerce(item, v.items[i]) == v.items[i] {
        CoerceLeavesTyped(item, v.items[i]);
      }
      assert Coerce(spec, v).items == v.items;
    case DictSpec(element) =>
      forall k | k in v.members ensures Coerce(element, v.members[k]) == v.members[k] {
        CoerceLeavesTyped(element, v.members[k]);
      }
      assert Coerce(spec, v).members == v.members;
    case OptionalSpec(inner) =>
      if !v.Null? {
        CoerceLeavesTyped(inner, v);
      }
    case _ =>
  }
}
