/**
 * The part of JSON Schema (draft 2020-12) the control command schema uses:
 * `type`, `const`, `enum` (Validation sections 6.1.1-6.1.3), `required`
 * (6.5.3), `format` as an assertion, `properties`, and the `allOf`, `anyOf`,
 * `oneOf` and `not` combinators (Core section 10.2). A schema object with
 * several keywords is the `AllOf` of one schema per keyword; `$ref` to a
 * definition is written as the definition itself.
 *
 * Whether a string is a valid `date-time` or `duration` is left to the
 * `formats` predicate the caller supplies.
 */
module JsonSchema {
  import opened Json

  datatype JsonType = NullType | BooleanType | IntegerType | NumberType | StringType | ArrayType | ObjectType

  datatype Schema =
    | Type(t: JsonType)
    | Const(value: Json)
    | Enum(values: seq<Json>)
    | Format(name: string)
    | Required(names: seq<string>)
    | Properties(props: seq<(string, Schema)>)
    | AllOf(schemas: seq<Schema>)
    | AnyOf(schemas: seq<Schema>)
    | OneOf(schemas: seq<Schema>)
    | Not(negated: Schema)

  /** Section 6.1.1: the instance's primitive type; an integer is a number with no fraction. */
  predicate HasType(j: Json, t: JsonType)
  {
    match t
    case NullType => j.JNull?
    case BooleanType => j.JBool?
    case IntegerType => IsInteger(j)
    case NumberType => j.JNum?
    case StringType => j.JStr?
    case ArrayType => j.JArr?
    case ObjectType => j.JObj?
  }

  /**
   * Whether `j` is valid against `s`. Keywords about objects (`required`,
   * `properties`) and `format` accept every instance of another type.
   */
  predicate Valid(s: Schema, j: Json, formats: (string, string) -> bool)
    decreases s
  {
    match s
    case Type(t) => HasType(j, t)
    case Const(v) => j == v
    case Enum(vs) => j in vs
    case Format(name) => !j.JStr? || formats(name, j.s)
    case Required(names) => !j.JObj? || forall i :: 0 <= i < |names| ==> HasKey(j, names[i])
    case Properties(props) =>
      !j.JObj? || forall i :: 0 <= i < |props| ==>
                    HasKey(j, props[i].0) ==> Valid(props[i].1, Get(j, props[i].0), formats)
    case AllOf(ss) => forall i :: 0 <= i < |ss| ==> Valid(ss[i], j, formats)
    case AnyOf(ss) => exists i :: 0 <= i < |ss| && Valid(ss[i], j, formats)
    case OneOf(ss) =>
      // exactly one: at least one, and no two
      && (exists i :: 0 <= i < |ss| && Valid(ss[i], j, formats))
      && (forall i, k :: 0 <= i < k < |ss| ==> !(Valid(ss[i], j, formats) && Valid(ss[k], j, formats)))
    case Not(n) => !Valid(n, j, formats)
  }

  /** `{"anyOf": [s, {"type": "null"}]}`: `s` or null. */
  function NullOr(s: Schema): Schema {
    AnyOf([s, Type(NullType)])
  }

  /** `{"format": name, "type": "string"}` */
  function FormattedString(name: string): Schema {
    AllOf([Format(name), Type(StringType)])
  }

  /** `allOf` with two to four subschemas: every one of them. */
  lemma AllOf2(a: Schema, b: Schema, j: Json, formats: (string, string) -> bool)
    ensures Valid(AllOf([a, b]), j, formats) <==> Valid(a, j, formats) && Valid(b, j, formats)
  {
    assert [a, b][0] == a && [a, b][1] == b;
  }

  lemma AllOf3(a: Schema, b: Schema, c: Schema, j: Json, formats: (string, string) -> bool)
    ensures Valid(AllOf([a, b, c]), j, formats)
        <==> Valid(a, j, formats) && Valid(b, j, formats) && Valid(c, j, formats)
  {
    assert [a, b, c][0] == a && [a, b, c][1] == b && [a, b, c][2] == c;
  }

  lemma AllOf4(a: Schema, b: Schema, c: Schema, d: Schema, j: Json, formats: (string, string) -> bool)
    ensures Valid(AllOf([a, b, c, d]), j, formats)
        <==> Valid(a, j, formats) && Valid(b, j, formats) && Valid(c, j, formats) && Valid(d, j, formats)
  {
    var ss := [a, b, c, d];
    assert ss[0] == a && ss[1] == b && ss[2] == c && ss[3] == d;
  }

  /** `anyOf` with two subschemas: at least one of them. */
  lemma AnyOf2(a: Schema, b: Schema, j: Json, formats: (string, string) -> bool)
    ensures Valid(AnyOf([a, b]), j, formats) <==> Valid(a, j, formats) || Valid(b, j, formats)
  {
    assert [a, b][0] == a && [a, b][1] == b;
  }

  /** `oneOf` with two subschemas: exactly one of them. */
  lemma OneOf2(a: Schema, b: Schema, j: Json, formats: (string, string) -> bool)
    ensures Valid(OneOf([a, b]), j, formats) <==> Valid(a, j, formats) != Valid(b, j, formats)
  {
    if Valid(a, j, formats) == Valid(b, j, formats) {
      OneOf2Refuses(a, b, j, formats);
    } else {
      OneOf2Accepts(a, b, j, formats);
    }
  }

  lemma OneOf2Accepts(a: Schema, b: Schema, j: Json, formats: (string, string) -> bool)
    requires Valid(a, j, formats) != Valid(b, j, formats)
    ensures Valid(OneOf([a, b]), j, formats)
  {
    var ss := [a, b];
    assert ss[0] == a && ss[1] == b;
    if Valid(a, j, formats) {
      assert Valid(ss[0], j, formats);
    } else {
      assert Valid(ss[1], j, formats);
    }
  }

  lemma OneOf2Refuses(a: Schema, b: Schema, j: Json, formats: (string, string) -> bool)
    requires Valid(a, j, formats) == Valid(b, j, formats)
    ensures !Valid(OneOf([a, b]), j, formats)
  {
    var ss := [a, b];
    assert ss[0] == a && ss[1] == b;
    if Valid(a, j, formats) {
      assert Valid(ss[0], j, formats) && Valid(ss[1], j, formats);
    }
  }

  /** `required` on an object: every listed name is a key. */
  lemma Required1(n0: string, j: Json, formats: (string, string) -> bool)
    requires j.JObj?
    ensures Valid(Required([n0]), j, formats) <==> HasKey(j, n0)
  {
    assert [n0][0] == n0;
  }

  lemma Required2(n0: string, n1: string, j: Json, formats: (string, string) -> bool)
    requires j.JObj?
    ensures Valid(Required([n0, n1]), j, formats) <==> HasKey(j, n0) && HasKey(j, n1)
  {
    assert [n0, n1][0] == n0 && [n0, n1][1] == n1;
  }

  lemma Required3(n0: string, n1: string, n2: string, j: Json, formats: (string, string) -> bool)
    requires j.JObj?
    ensures Valid(Required([n0, n1, n2]), j, formats) <==> HasKey(j, n0) && HasKey(j, n1) && HasKey(j, n2)
  {
    var ns := [n0, n1, n2];
    assert ns[0] == n0 && ns[1] == n1 && ns[2] == n2;
  }

  lemma Required4(n0: string, n1: string, n2: string, n3: string, j: Json, formats: (string, string) -> bool)
    requires j.JObj?
    ensures Valid(Required([n0, n1, n2, n3]), j, formats)
        <==> HasKey(j, n0) && HasKey(j, n1) && HasKey(j, n2) && HasKey(j, n3)
  {
    var ns := [n0, n1, n2, n3];
    assert ns[0] == n0 && ns[1] == n1 && ns[2] == n2 && ns[3] == n3;
  }

  /** Whether the member `key` of object `j`, when present, is valid against `s`. */
  predicate MemberValid(j: Json, key: string, s: Schema, formats: (string, string) -> bool)
    requires j.JObj?
  {
    HasKey(j, key) ==> Valid(s, Get(j, key), formats)
  }

  /** `properties` on an object: each present member is valid against its subschema. */
  lemma Properties1(p0: (string, Schema), j: Json, formats: (string, string) -> bool)
    requires j.JObj?
    ensures Valid(Properties([p0]), j, formats) <==> MemberValid(j, p0.0, p0.1, formats)
  {
    assert [p0][0] == p0;
  }

  lemma Properties2(p0: (string, Schema), p1: (string, Schema), j: Json, formats: (string, string) -> bool)
    requires j.JObj?
    ensures Valid(Properties([p0, p1]), j, formats)
        <==> MemberValid(j, p0.0, p0.1, formats) && MemberValid(j, p1.0, p1.1, formats)
  {
    assert [p0, p1][0] == p0 && [p0, p1][1] == p1;
  }

  lemma Properties3(p0: (string, Schema), p1: (string, Schema), p2: (string, Schema),
                    j: Json, formats: (string, string) -> bool)
    requires j.JObj?
    ensures Valid(Properties([p0, p1, p2]), j, formats)
        <==> MemberValid(j, p0.0, p0.1, formats) && MemberValid(j, p1.0, p1.1, formats)
             && MemberValid(j, p2.0, p2.1, formats)
  {
    var ps := [p0, p1, p2];
    assert ps[0] == p0 && ps[1] == p1 && ps[2] == p2;
  }

  lemma Properties4(p0: (string, Schema), p1: (string, Schema), p2: (string, Schema), p3: (string, Schema),
                    j: Json, formats: (string, string) -> bool)
    requires j.JObj?
    ensures Valid(Properties([p0, p1, p2, p3]), j, formats)
        <==> MemberValid(j, p0.0, p0.1, formats) && MemberValid(j, p1.0, p1.1, formats)
             && MemberValid(j, p2.0, p2.1, formats) && MemberValid(j, p3.0, p3.1, formats)
  {
    var ps := [p0, p1, p2, p3];
    assert ps[0] == p0 && ps[1] == p1 && ps[2] == p2 && ps[3] == p3;
  }

  /** Whether object `j` has the member `key` and it is valid against `s`. */
  predicate HasValid(j: Json, key: string, s: Schema, formats: (string, string) -> bool)
  {
    j.JObj? && HasKey(j, key) && Valid(s, Get(j, key), formats)
  }

  /** An object schema whose properties are all required: each is present and valid. */
  lemma ObjectWith2(p0: (string, Schema), p1: (string, Schema), j: Json, formats: (string, string) -> bool)
    ensures Valid(AllOf([Properties([p0, p1]), Required([p0.0, p1.0]), Type(ObjectType)]), j, formats)
        <==> HasValid(j, p0.0, p0.1, formats) && HasValid(j, p1.0, p1.1, formats)
  {
    AllOf3(Properties([p0, p1]), Required([p0.0, p1.0]), Type(ObjectType), j, formats);
    if j.JObj? {
      Properties2(p0, p1, j, formats);
      Required2(p0.0, p1.0, j, formats);
    }
  }

  lemma ObjectWith3(p0: (string, Schema), p1: (string, Schema), p2: (string, Schema),
                    j: Json, formats: (string, string) -> bool)
    ensures Valid(AllOf([Properties([p0, p1, p2]), Required([p0.0, p1.0, p2.0]), Type(ObjectType)]), j, formats)
        <==> HasValid(j, p0.0, p0.1, formats) && HasValid(j, p1.0, p1.1, formats) && HasValid(j, p2.0, p2.1, formats)
  {
    AllOf3(Properties([p0, p1, p2]), Required([p0.0, p1.0, p2.0]), Type(ObjectType), j, formats);
    if j.JObj? {
      Properties3(p0, p1, p2, j, formats);
      Required3(p0.0, p1.0, p2.0, j, formats);
    }
  }

  lemma ObjectWith4(p0: (string, Schema), p1: (string, Schema), p2: (string, Schema), p3: (string, Schema),
                    j: Json, formats: (string, string) -> bool)
    ensures Valid(AllOf([Properties([p0, p1, p2, p3]), Required([p0.0, p1.0, p2.0, p3.0]), Type(ObjectType)]), j, formats)
        <==> HasValid(j, p0.0, p0.1, formats) && HasValid(j, p1.0, p1.1, formats)
             && HasValid(j, p2.0, p2.1, formats) && HasValid(j, p3.0, p3.1, formats)
  {
    AllOf3(Properties([p0, p1, p2, p3]), Required([p0.0, p1.0, p2.0, p3.0]), Type(ObjectType), j, formats);
    if j.JObj? {
      Properties4(p0, p1, p2, p3, j, formats);
      Required4(p0.0, p1.0, p2.0, p3.0, j, formats);
    }
  }

  /** The same, with one more schema the object must satisfy as a whole. */
  lemma ObjectWith4And(extra: Schema, p0: (string, Schema), p1: (string, Schema), p2: (string, Schema),
                       p3: (string, Schema), j: Json, formats: (string, string) -> bool)
    ensures Valid(AllOf([extra, Properties([p0, p1, p2, p3]), Required([p0.0, p1.0, p2.0, p3.0]), Type(ObjectType)]),
                  j, formats)
        <==> Valid(extra, j, formats)
             && HasValid(j, p0.0, p0.1, formats) && HasValid(j, p1.0, p1.1, formats)
             && HasValid(j, p2.0, p2.1, formats) && HasValid(j, p3.0, p3.1, formats)
  {
    var props, req := Properties([p0, p1, p2, p3]), Required([p0.0, p1.0, p2.0, p3.0]);
    AllOf4(extra, props, req, Type(ObjectType), j, formats);
    AllOf3(props, req, Type(ObjectType), j, formats);
    ObjectWith4(p0, p1, p2, p3, j, formats);
  }

  /** A string in the given format. */
  lemma FormattedStringMeans(name: string, j: Json, formats: (string, string) -> bool)
    ensures Valid(FormattedString(name), j, formats) <==> j.JStr? && formats(name, j.s)
  {
    AllOf2(Format(name), Type(StringType), j, formats);
  }

  /** A string in the given format, or null. */
  lemma NullOrFormattedString(name: string, j: Json, formats: (string, string) -> bool)
    ensures Valid(NullOr(FormattedString(name)), j, formats)
        <==> j == JNull || (j.JStr? && formats(name, j.s))
  {
    var s := FormattedString(name);
    if j.JStr? && formats(name, j.s) {
      assert Valid(s, j, formats);
      assert Valid(NullOr(s), j, formats) by { assert NullOr(s).schemas[0] == s; }
    } else if j == JNull {
      assert Valid(Type(NullType), j, formats);
      assert Valid(NullOr(s), j, formats) by { assert NullOr(s).schemas[1] == Type(NullType); }
    } else {
      assert !Valid(s, j, formats) by {
        assert s.schemas[0] == Format(name) && s.schemas[1] == Type(StringType);
      }
    }
  }
}
