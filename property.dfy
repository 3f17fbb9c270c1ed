/** The dynamically typed `Property` of the ODK API: a name, a type tag, an
    optional enum type (or string format) and one payload, which is either a
    string or a typed value.  Doubles are modelled as reals compared only by
    equality; `boost::lexical_cast` is a conversion the caller supplies. */
module PropertyModel {

  type int32 = x: int | -0x8000_0000 <= x < 0x8000_0000
  type uint32 = x: int | 0 <= x < 0x1_0000_0000
  type int64 = x: int | -0x8000_0000_0000_0000 <= x < 0x8000_0000_0000_0000
  type uint64 = x: int | 0 <= x < 0x1_0000_0000_0000_0000

  datatype Option<T> = None | Some(value: T)

  /** Why an access failed.  The source throws `std::runtime_error` in every
      case; the variants only tell apart where the throw comes from.
      `Unchecked` stands for dereferencing the payload as another type than
      the one it holds, which the source does not detect. */
  datatype Failure = TypeMismatch | CastFailed | Unchecked

  datatype Result<T> = Ok(value: T) | Err(error: Failure)

  datatype Scalar = Scalar(val: real, unit: string)
  datatype Rational = Rational(numerator: int64, denominator: int64, unit: string)
  datatype DecoratedNumber = DecoratedNumber(val: real, prefix: string, suffix: string)
  datatype Range = Range(min: real, max: real, minUnit: string, maxUnit: string)
  type Point = (real, real)

  /** `Property::Type`, with the source's enumerator names. */
  datatype PropertyType =
    | UNKNOWN | STRING | INTEGER | UNSIGNED_INTEGER | UNSIGNED_INTEGER64
    | FLOATING_POINT_NUMBER | BOOLEAN | COLOR | DATE | DATETIME | RANGE | ENUM
    | PROPERTY_LIST | SCALAR | STRING_LIST | POINT_LIST | DECORATED_NUMBER
    | CHANNEL_ID | FLOATING_POINT_NUMBER_LIST | RATIONAL | GEO_COORDINATE
    | POINT | CHANNEL_ID_LIST | INTEGER64

  /** The numeric value of each enumerator. */
  function Code(t: PropertyType): (r: nat)
    ensures r <= 23
    ensures r == 0 <==> t == UNKNOWN
  {
    match t
    case UNKNOWN => 0
    case STRING => 1
    case INTEGER => 2
    case UNSIGNED_INTEGER => 3
    case UNSIGNED_INTEGER64 => 4
    case FLOATING_POINT_NUMBER => 5
    case BOOLEAN => 6
    case COLOR => 7
    case DATE => 8
    case DATETIME => 9
    case RANGE => 10
    case ENUM => 11
    case PROPERTY_LIST => 12
    case SCALAR => 13
    case STRING_LIST => 14
    case POINT_LIST => 15
    case DECORATED_NUMBER => 16
    case CHANNEL_ID => 17
    case FLOATING_POINT_NUMBER_LIST => 18
    case RATIONAL => 19
    case GEO_COORDINATE => 20
    case POINT => 21
    case CHANNEL_ID_LIST => 22
    case INTEGER64 => 23
  }

  /** Distinct enumerators have distinct values, so the numeric code
      identifies the tag. */
  lemma CodeInjective(t1: PropertyType, t2: PropertyType)
    ensures Code(t1) == Code(t2) <==> t1 == t2
  {
  }

  /** The native C++ kinds that have a `getPropertyTypeFromValue` overload. */
  datatype Kind =
    | KScalar | KDecoratedNumber | KRange | KDoubleList | KStringList | KPoint
    | KPointList | KRational | KChannelIdList | KPropertyList | KString
    | KCharPtr | KUnsignedInt | KBool | KInt | KInt64 | KUnsignedInt64 | KDouble

  /** A value of one of those kinds. */
  datatype Value =
    | ScalarValue(scalar: Scalar)
    | DecoratedNumberValue(decorated: DecoratedNumber)
    | RangeValue(range: Range)
    | DoubleListValue(doubles: seq<real>)
    | StringListValue(strings: seq<string>)
    | PointValue(point: Point)
    | PointListValue(points: seq<Point>)
    | RationalValue(rational: Rational)
    | ChannelIdListValue(ids: seq<uint64>)
    | PropertyListValue(properties: seq<Property>)
    | StringValue(text: string)
    | CharPtrValue(chars: string)
    | UnsignedIntValue(u32: uint32)
    | BoolValue(b: bool)
    | IntValue(i32: int32)
    | Int64Value(i64: int64)
    | UnsignedInt64Value(u64: uint64)
    | DoubleValue(d: real)

  /** The fields of `Property`: `m_name`, `m_type`, `m_enum_type`,
      `m_string_value` and `m_value` (None when the pointer is empty). */
  datatype Property = Property(
    name: string,
    typ: PropertyType,
    enumType: string,
    stringValue: string,
    value: Option<Value>)

  function KindOf(v: Value): Kind {
    match v
    case ScalarValue(_) => KScalar
    case DecoratedNumberValue(_) => KDecoratedNumber
    case RangeValue(_) => KRange
    case DoubleListValue(_) => KDoubleList
    case StringListValue(_) => KStringList
    case PointValue(_) => KPoint
    case PointListValue(_) => KPointList
    case RationalValue(_) => KRational
    case ChannelIdListValue(_) => KChannelIdList
    case PropertyListValue(_) => KPropertyList
    case StringValue(_) => KString
    case CharPtrValue(_) => KCharPtr
    case UnsignedIntValue(_) => KUnsignedInt
    case BoolValue(_) => KBool
    case IntValue(_) => KInt
    case Int64Value(_) => KInt64
    case UnsignedInt64Value(_) => KUnsignedInt64
    case DoubleValue(_) => KDouble
  }

  predicate IsStringKind(k: Kind) {
    k == KString || k == KCharPtr
  }

  /** `getPropertyTypeFromValue`: each native kind has exactly one tag. */
  function TypeOfKind(k: Kind): (t: PropertyType)
    ensures t != UNKNOWN
    ensures t == STRING <==> IsStringKind(k)
  {
    match k
    case KScalar => SCALAR
    case KDecoratedNumber => DECORATED_NUMBER
    case KRange => RANGE
    case KDoubleList => FLOATING_POINT_NUMBER_LIST
    case KStringList => STRING_LIST
    case KPoint => POINT
    case KPointList => POINT_LIST
    case KRational => RATIONAL
    case KChannelIdList => CHANNEL_ID_LIST
    case KPropertyList => PROPERTY_LIST
    case KString => STRING
    case KCharPtr => STRING
    case KUnsignedInt => UNSIGNED_INTEGER
    case KBool => BOOLEAN
    case KInt => INTEGER
    case KInt64 => INTEGER64
    case KUnsignedInt64 => UNSIGNED_INTEGER64
    case KDouble => FLOATING_POINT_NUMBER
  }

  /** Two kinds share a tag only when both are string kinds. */
  lemma TagMapInjectiveExceptStrings(k1: Kind, k2: Kind)
    ensures TypeOfKind(k1) == TypeOfKind(k2) <==> k1 == k2 || (IsStringKind(k1) && IsStringKind(k2))
  {
  }

  /** The kinds for which `IsLexCastable` holds: the ones with a stream
      output operator.  None of the record and list kinds declares one. */
  predicate LexCastable(k: Kind) {
    k in {KString, KCharPtr, KUnsignedInt, KBool, KInt, KInt64, KUnsignedInt64, KDouble}
  }

  /** `boost::lexical_cast<T>(source)`, supplied by the caller: when it
      succeeds it yields a value of the requested kind, and converting a
      value to its own kind gives it back unchanged. */
  type Lexer = f: (Value, Kind) -> Option<Value> |
    && (forall v, k :: f(v, k).Some? ==> KindOf(f(v, k).value) == k)
    && (forall v :: f(v, KindOf(v)) == Some(v))
    witness (v: Value, k: Kind) => if KindOf(v) == k then Some(v) else None

  function LexicalCast(lex: Lexer, source: Value, k: Kind): (r: Result<Value>)
    ensures r.Ok? ==> KindOf(r.value) == k
    ensures r.Err? ==> r.error == CastFailed
  {
    match lex(source, k)
    case Some(v) => Ok(v)
    case None => Err(CastFailed)
  }

  /** The invariant of a `Property`: at most one of the two payloads holds a
      value, a typed payload is never a string, and the tag agrees with the
      typed payload's kind. */
  predicate Wellformed(p: Property) {
    p.value.Some? ==>
      && p.stringValue == ""
      && !IsStringKind(KindOf(p.value.value))
      && p.typ == TypeOfKind(KindOf(p.value.value))
  }

  // ---------------------------------------------------------------------
  // Construction and setters
  // ---------------------------------------------------------------------

  /** The default constructor and `Property(name)`. */
  function Named(name: string): (r: Property)
    ensures r.name == name && r.typ == UNKNOWN && Wellformed(r)
    ensures r.value.None? && r.stringValue == ""
  {
    Property(name, UNKNOWN, "", "", None)
  }

  /** `Property(name, value)`: a string keeps the string payload, every
      other kind is stored as the typed payload, and the tag is the one of
      the value's kind. */
  function Make(name: string, v: Value): (r: Property)
    ensures r.name == name && r.enumType == ""
    ensures r.typ == TypeOfKind(KindOf(v))
    ensures Wellformed(r)
    ensures r.value.Some? <==> !IsStringKind(KindOf(v))
    ensures !IsStringKind(KindOf(v)) ==> r.value == Some(v) && r.stringValue == ""
    ensures v.StringValue? ==> r.stringValue == v.text
    ensures v.CharPtrValue? ==> r.stringValue == v.chars
  {
    match v
    case StringValue(s) => Property(name, STRING, "", s, None)
    case CharPtrValue(s) => Property(name, STRING, "", s, None)
    case _ => Property(name, TypeOfKind(KindOf(v)), "", "", Some(v))
  }

  /** `Property(name, type, value)`: a string payload under any tag. */
  function MakeText(name: string, t: PropertyType, text: string): (r: Property)
    ensures Wellformed(r) && r.typ == t && r.value.None? && r.stringValue == text
  {
    Property(name, t, "", text, None)
  }

  /** `Property(name, value, enum_type)`. */
  function MakeEnum(name: string, text: string, enumType: string): (r: Property)
    ensures Wellformed(r) && r.typ == ENUM && r.value.None?
    ensures r.stringValue == text && r.enumType == enumType
  {
    Property(name, ENUM, enumType, text, None)
  }

  /** `setName`: only the name changes. */
  function SetName(p: Property, name: string): (r: Property)
    ensures r.name == name
    ensures r.typ == p.typ && r.enumType == p.enumType
    ensures r.stringValue == p.stringValue && r.value == p.value
    ensures Wellformed(p) ==> Wellformed(r)
  {
    p.(name := name)
  }

  /** `setValue` for every kind: the tag follows the new value and the
      other payload is cleared. */
  function SetValue(p: Property, v: Value): (r: Property)
    ensures r.name == p.name && r.enumType == p.enumType
    ensures r.typ == TypeOfKind(KindOf(v))
    ensures Wellformed(r)
    ensures !IsStringKind(KindOf(v)) ==> r.value == Some(v) && r.stringValue == ""
    ensures v.StringValue? ==> r.value.None? && r.stringValue == v.text
    ensures v.CharPtrValue? ==> r.value.None? && r.stringValue == v.chars
  {
    var m := Make(p.name, v);
    m.(enumType := p.enumType)
  }

  /** `setDateValue`, `setDateTimeValue`, `setColorValue` and
      `setGeoCoordinateValue`: a string payload under the given tag. */
  function SetTextValue(p: Property, t: PropertyType, text: string): (r: Property)
    requires t in {DATE, DATETIME, COLOR, GEO_COORDINATE}
    ensures r.name == p.name && r.typ == t && Wellformed(r)
    ensures r.stringValue == text && r.value.None? && r.enumType == p.enumType
  {
    p.(typ := t, stringValue := text, value := None)
  }

  /** `setEnumValue`. */
  function SetEnumValue(p: Property, text: string, enumType: string): (r: Property)
    ensures r.name == p.name && r.typ == ENUM && Wellformed(r)
    ensures r.stringValue == text && r.enumType == enumType && r.value.None?
  {
    Property(p.name, ENUM, enumType, text, None)
  }
  /** `getEnumValue`: the text of an `ENUM` property; any other tag throws. */
  function GetEnumValue(p: Property): (r: Result<string>)
    ensures r.Err? <==> p.typ != ENUM
    ensures r.Err? ==> r.error == TypeMismatch
    ensures r.Ok? ==> r.value == p.stringValue
  {
    if p.typ == ENUM then Ok(p.stringValue) else Err(TypeMismatch)
  }

  /** `getEnumType`: the enum type of an `ENUM` property; any other tag
      throws. */
  function GetEnumType(p: Property): (r: Result<string>)
    ensures r.Err? <==> p.typ != ENUM
    ensures r.Err? ==> r.error == TypeMismatch
    ensures r.Ok? ==> r.value == p.enumType
  {
    if p.typ == ENUM then Ok(p.enumType) else Err(TypeMismatch)
  }

  /** An enum stored by `setEnumValue` or the enum constructor reads back
      through `getEnumValue` and `getEnumType`; storing any typed or string
      value instead makes both throw. */
  lemma {:induction false} EnumRoundTrip(p: Property, v: Value, text: string, enumType: string)
    ensures GetEnumValue(SetEnumValue(p, text, enumType)) == Ok(text)
    ensures GetEnumType(SetEnumValue(p, text, enumType)) == Ok(enumType)
    ensures GetEnumValue(MakeEnum(p.name, text, enumType)) == Ok(text)
    ensures GetEnumType(MakeEnum(p.name, text, enumType)) == Ok(enumType)
    ensures GetEnumValue(SetValue(p, v)) == Err(TypeMismatch)
    ensures GetEnumType(SetValue(p, v)) == Err(TypeMismatch)
  {
    var q := SetValue(p, v);
    assert q.typ == TypeOfKind(KindOf(v));
  }


  // ---------------------------------------------------------------------
  // Typed getters
  // ---------------------------------------------------------------------

  /** The typed getters declared in the header. */
  datatype Getter =
    | GetIntValue | GetUnsignedIntValue | GetUnsignedInt64Value | GetInt64Value
    | GetDoubleValue | GetBoolValue | GetScalarValue | GetDecoratedNumberValue
    | GetRangeValue | GetDoubleListValue | GetStringListValue | GetPointValue
    | GetPointListValue | GetRationalValue | GetChannelIdListValue
    | GetPropertyListValue

  /** The kind a getter returns. */
  function Produces(g: Getter): Kind {
    match g
    case GetIntValue => KInt
    case GetUnsignedIntValue => KUnsignedInt
    case GetUnsignedInt64Value => KUnsignedInt64
    case GetInt64Value => KInt64
    case GetDoubleValue => KDouble
    case GetBoolValue => KBool
    case GetScalarValue => KScalar
    case GetDecoratedNumberValue => KDecoratedNumber
    case GetRangeValue => KRange
    case GetDoubleListValue => KDoubleList
    case GetStringListValue => KStringList
    case GetPointValue => KPoint
    case GetPointListValue => KPointList
    case GetRationalValue => KRational
    case GetChannelIdListValue => KChannelIdList
    case GetPropertyListValue => KPropertyList
  }

  /** The tags a getter accepts: its own, plus the 32-bit tag for the two
      64-bit integer getters. */
  function Accepts(g: Getter): (r: set<PropertyType>)
    ensures TypeOfKind(Produces(g)) in r
    ensures g == GetInt64Value ==> r == {INTEGER, INTEGER64}
    ensures g == GetUnsignedInt64Value ==> r == {UNSIGNED_INTEGER, UNSIGNED_INTEGER64}
    ensures g != GetInt64Value && g != GetUnsignedInt64Value ==> r == {TypeOfKind(Produces(g))}
  {
    match g
    case GetInt64Value => {INTEGER, INTEGER64}
    case GetUnsignedInt64Value => {UNSIGNED_INTEGER, UNSIGNED_INTEGER64}
    case _ => {TypeOfKind(Produces(g))}
  }

  /** Reads a typed payload as the kind `want`: the same kind as is, a
      32-bit integer widened to its 64-bit kind, anything else unchecked. */
  function Widen(v: Value, want: Kind): (r: Result<Value>)
    ensures r.Ok? ==> KindOf(r.value) == want
    ensures KindOf(v) == want ==> r == Ok(v)
    ensures r.Err? ==> r.error == Unchecked
  {
    if KindOf(v) == want then Ok(v)
    else match (v, want)
      case (IntValue(i), KInt64) => Ok(Int64Value(i))
      case (UnsignedIntValue(u), KUnsignedInt64) => Ok(UnsignedInt64Value(u))
      case _ => Err(Unchecked)
  }

  /** A typed getter: throws unless the tag is accepted, then reads the
      typed payload, or converts the string payload when there is none. */
  function Get(p: Property, g: Getter, lex: Lexer): (r: Result<Value>)
    ensures r.Ok? ==> p.typ in Accepts(g) && KindOf(r.value) == Produces(g)
    ensures p.typ !in Accepts(g) <==> r == Err(TypeMismatch)
  {
    if p.typ !in Accepts(g) then Err(TypeMismatch)
    else if p.value.Some? then Widen(p.value.value, Produces(g))
    else LexicalCast(lex, StringValue(p.stringValue), Produces(g))
  }

  /** A getter accepts the tag of a non-string kind only when it produces
      that kind, or widens it from 32 to 64 bits. */
  lemma {:induction false} AcceptedKind(g: Getter, k: Kind)
    requires !IsStringKind(k) && TypeOfKind(k) in Accepts(g)
    ensures || k == Produces(g)
            || (g == GetInt64Value && k == KInt)
            || (g == GetUnsignedInt64Value && k == KUnsignedInt)
  {
    if g == GetInt64Value && TypeOfKind(k) == INTEGER {
      TagMapInjectiveExceptStrings(k, KInt);
    } else if g == GetUnsignedInt64Value && TypeOfKind(k) == UNSIGNED_INTEGER {
      TagMapInjectiveExceptStrings(k, KUnsignedInt);
    } else {
      TagMapInjectiveExceptStrings(k, Produces(g));
    }
  }

  /** On a well-formed property holding a typed payload, a getter succeeds
      exactly when it accepts the tag, and then returns the payload (widened
      for the 64-bit getters). */
  lemma {:induction false} GetTypedPayload(p: Property, g: Getter, lex: Lexer)
    requires Wellformed(p) && p.value.Some?
    ensures Get(p, g, lex).Ok? <==> p.typ in Accepts(g)
    ensures p.typ in Accepts(g) ==> Get(p, g, lex) == Widen(p.value.value, Produces(g))
  {
    if p.typ in Accepts(g) {
      AcceptedKind(g, KindOf(p.value.value));
    }
  }

  // ---------------------------------------------------------------------
  // cast, getValueStrict and getValue
  // ---------------------------------------------------------------------

  /** `*std::static_pointer_cast<T>(m_value)`. */
  function Deref(v: Value, k: Kind): (r: Result<Value>)
    ensures r.Ok? <==> KindOf(v) == k
    ensures r.Ok? ==> r.value == v
    ensures r.Err? ==> r.error == Unchecked
  {
    if KindOf(v) == k then Ok(v) else Err(Unchecked)
  }

  /** `cast<T>()`, both overloads, with T of kind `k`. */
  function Cast(p: Property, k: Kind, lex: Lexer): (r: Result<Value>)
    ensures r.Ok? ==> KindOf(r.value) == k
    ensures r != Err(TypeMismatch)
    // a BOOLEAN property is converted from its boolean value
    ensures LexCastable(k) && p.typ == BOOLEAN && p.value == Some(BoolValue(true)) ==>
              r == LexicalCast(lex, BoolValue(true), k)
    ensures LexCastable(k) && p.typ == BOOLEAN && p.value == Some(BoolValue(false)) ==>
              r == LexicalCast(lex, BoolValue(false), k)
    // otherwise the typed payload is returned if present
    ensures (!LexCastable(k) || p.typ != BOOLEAN) && p.value.Some? && KindOf(p.value.value) == k ==>
              r == Ok(p.value.value)
    // otherwise the string payload is converted
    ensures LexCastable(k) && p.typ != BOOLEAN && p.value.None? ==>
              r == LexicalCast(lex, StringValue(p.stringValue), k)
    // a kind without stream output and no typed payload fails
    ensures !LexCastable(k) && p.value.None? ==> r == Err(CastFailed)
  {
    if LexCastable(k) then
      if p.typ == BOOLEAN then
        match Get(p, GetBoolValue, lex)
        case Ok(b) => LexicalCast(lex, b, k)
        case Err(_) => Err(CastFailed)
      else if p.value.Some? then Deref(p.value.value, k)
      else LexicalCast(lex, StringValue(p.stringValue), k)
    else if p.value.Some? then Deref(p.value.value, k)
    else Err(CastFailed)
  }

  /** `getValueStrict<T>()`: throws whenever the tag is not T's tag. */
  function GetValueStrict(p: Property, k: Kind, lex: Lexer): (r: Result<Value>)
    ensures r.Ok? ==> KindOf(r.value) == k && p.typ == TypeOfKind(k)
    ensures p.typ != TypeOfKind(k) <==> r == Err(TypeMismatch)
  {
    if p.typ != TypeOfKind(k) then Err(TypeMismatch) else Cast(p, k, lex)
  }

  /** `getValue<T>()`: throws a type mismatch only when a typed payload is
      present under another tag; with a string payload alone it converts. */
  function GetValue(p: Property, k: Kind, lex: Lexer): (r: Result<Value>)
    ensures r.Ok? ==> KindOf(r.value) == k
    ensures r == Err(TypeMismatch) <==> p.value.Some? && p.typ != TypeOfKind(k)
    ensures p.value.None? ==> r == Cast(p, k, lex)
  {
    if p.value.Some? && p.typ != TypeOfKind(k) then Err(TypeMismatch) else Cast(p, k, lex)
  }

  /** On a well-formed property the accessors never dereference the typed
      payload as a different type. */
  lemma {:induction false} AccessorsNeverUnchecked(p: Property, k: Kind, lex: Lexer)
    requires Wellformed(p)
    ensures GetValueStrict(p, k, lex) != Err(Unchecked)
    ensures GetValue(p, k, lex) != Err(Unchecked)
  {
    if p.value.Some? && p.typ == TypeOfKind(k) {
      var pk := KindOf(p.value.value);
      TagMapInjectiveExceptStrings(pk, k);
      if p.typ == BOOLEAN {
        assert pk == KBool;
        GetTypedPayload(p, GetBoolValue, lex);
      }
    }
  }

  /** On a well-formed property with a typed payload, `getValueStrict` and
      `getValue` agree, and both succeed exactly for the payload's kind. */
  lemma {:induction false} StrictAndLenientAgreeOnTypedPayload(p: Property, k: Kind, lex: Lexer)
    requires Wellformed(p) && p.value.Some?
    ensures GetValueStrict(p, k, lex) == GetValue(p, k, lex)
    ensures GetValue(p, k, lex).Ok? <==> k == KindOf(p.value.value)
  {
    var pk := KindOf(p.value.value);
    TagMapInjectiveExceptStrings(pk, k);
    if k == pk && p.typ == BOOLEAN {
      var b := p.value.value.b;
      assert Get(p, GetBoolValue, lex) == Ok(BoolValue(b));
      assert lex(BoolValue(b), KBool) == Some(BoolValue(b));
    }
  }

  /** Storing a value and reading it back with its own kind returns it. */
  lemma {:induction false} SetThenGetStrict(p: Property, v: Value, lex: Lexer)
    requires KindOf(v) != KCharPtr
    ensures GetValueStrict(SetValue(p, v), KindOf(v), lex) == Ok(v)
    ensures GetValue(SetValue(p, v), KindOf(v), lex) == Ok(v)
  {
    var q := SetValue(p, v);
    if v.StringValue? {
      assert lex(v, KString) == Some(v);
    } else if v.BoolValue? {
      assert Get(q, GetBoolValue, lex) == Ok(v);
      assert lex(v, KBool) == Some(v);
    }
  }

  /** Reading a stored value with a kind of another tag is a type mismatch,
      never a default value. */
  lemma {:induction false} StrictRejectsOtherTag(p: Property, v: Value, k: Kind, lex: Lexer)
    requires TypeOfKind(k) != TypeOfKind(KindOf(v))
    ensures GetValueStrict(SetValue(p, v), k, lex) == Err(TypeMismatch)
    ensures !IsStringKind(KindOf(v)) ==> GetValue(SetValue(p, v), k, lex) == Err(TypeMismatch)
  {
  }

  // ---------------------------------------------------------------------
  // The template constructor with a promoted argument type
  // ---------------------------------------------------------------------

  type int8 = x: int | -0x80 <= x < 0x80
  type uint8 = x: int | 0 <= x < 0x100
  type int16 = x: int | -0x8000 <= x < 0x8000
  type uint16 = x: int | 0 <= x < 0x1_0000

  /** Argument types that have no `getPropertyTypeFromValue` overload of
      their own, so `Property(name, T value)` picks the template: `float`,
      `short`, `char` and `signed char` (as a signed 8-bit type),
      `unsigned char` (`std::uint8_t`) and `std::uint16_t`. */
  datatype PromotedArg =
    | FloatArg(f: real)
    | ShortArg(s: int16)
    | CharArg(c: int8)
    | UCharArg(b: uint8)
    | UShortArg(u: uint16)

  /** The overload the tag is chosen by: float is promoted to double, the
      small integer types to int. */
  function PromotedKind(a: PromotedArg): (k: Kind)
    ensures !IsStringKind(k) && k != KBool
  {
    if a.FloatArg? then KDouble else KInt
  }

  /** The argument converted to the promoted type. */
  function Promote(a: PromotedArg): (v: Value)
    ensures KindOf(v) == PromotedKind(a)
  {
    match a
    case FloatArg(f) => DoubleValue(f)
    case ShortArg(x) => IntValue(x)
    case CharArg(x) => IntValue(x)
    case UCharArg(x) => IntValue(x)
    case UShortArg(x) => IntValue(x)
  }

  /** A property built by the template constructor as written: the tag of
      the promoted type, while `m_value` still holds a `T`. */
  datatype TemplateProperty = TemplateProperty(name: string, typ: PropertyType, payload: PromotedArg)

  /** `Property(name, T value)` as written, for a promoted T. */
  function MakeTemplateAsWritten(name: string, a: PromotedArg): (r: TemplateProperty)
    ensures r.typ == TypeOfKind(PromotedKind(a)) && r.typ != STRING
    ensures r.payload == a
  {
    TemplateProperty(name, TypeOfKind(PromotedKind(a)), a)
  }

  /** `*std::static_pointer_cast<U>(m_value)` when `m_value` holds a `T`
      that is none of the kinds: no `U` has the payload's type, so the
      dereference is always undefined. */
  function DerefPromoted(a: PromotedArg, k: Kind): (r: Result<Value>)
    ensures r == Err(Unchecked)
  {
    Err(Unchecked)
  }

  /** `cast<U>()` on such a property, in the branch order of `Cast`: a
      BOOLEAN tag reads the payload as a bool, and otherwise `m_value` is
      never empty, so the payload is dereferenced as a `U` and the string
      conversion is never reached. */
  function TemplateCast(p: TemplateProperty, k: Kind): (r: Result<Value>)
    ensures r == Err(Unchecked)
  {
    if LexCastable(k) && p.typ == BOOLEAN then DerefPromoted(p.payload, KBool)
    else DerefPromoted(p.payload, k)
  }

  /** `getValueStrict<U>()` on such a property: the tag test compares with
      the promoted type's tag, and once it passes, `cast` dereferences the
      payload. */
  function TemplateGetValueStrict(p: TemplateProperty, k: Kind): (r: Result<Value>)
    ensures p.typ != TypeOfKind(k) <==> r == Err(TypeMismatch)
    ensures r != Err(TypeMismatch) ==> r == Err(Unchecked)
  {
    if p.typ != TypeOfKind(k) then Err(TypeMismatch) else TemplateCast(p, k)
  }

  /** The discrepancy: `Property("x", 1.5f)` is tagged as a double, and
      reading it back as a double passes the tag check and reinterprets the
      stored float. */
  lemma {:induction false} TemplateConstructorMisreads(a: PromotedArg)
    ensures TemplateGetValueStrict(MakeTemplateAsWritten("x", a), PromotedKind(a)) == Err(Unchecked)
    ensures TemplateGetValueStrict(MakeTemplateAsWritten("x", FloatArg(1.5)), KDouble) == Err(Unchecked)
  {
    assert MakeTemplateAsWritten("x", a).typ == TypeOfKind(PromotedKind(a));
  }

  /** The template constructor storing the value converted to the type its
      tag names. */
  function MakeTemplate(name: string, a: PromotedArg): (r: Property)
    ensures Wellformed(r) && r.name == name
    ensures r.typ == TypeOfKind(PromotedKind(a))
    ensures r.value == Some(Promote(a))
  {
    Make(name, Promote(a))
  }

  /** With the conversion, both accessors read back the promoted value and
      never dereference the payload as another type. */
  lemma {:induction false} TemplateConstructorCorrected(name: string, a: PromotedArg, k: Kind, lex: Lexer)
    ensures GetValueStrict(MakeTemplate(name, a), PromotedKind(a), lex) == Ok(Promote(a))
    ensures GetValue(MakeTemplate(name, a), PromotedKind(a), lex) == Ok(Promote(a))
    ensures GetValueStrict(MakeTemplate(name, a), k, lex) != Err(Unchecked)
  {
    assert MakeTemplate(name, a) == SetValue(Named(name), Promote(a));
    SetThenGetStrict(Named(name), Promote(a), lex);
    AccessorsNeverUnchecked(MakeTemplate(name, a), k, lex);
  }

  // ---------------------------------------------------------------------
  // ValueList
  // ---------------------------------------------------------------------

  /** `ValueList::operator==`: same length, then element by element. */
  method ValueListEquals<T(==)>(lhs: seq<T>, rhs: seq<T>) returns (equal: bool)
    ensures equal <==> |lhs| == |rhs| && forall i :: 0 <= i < |lhs| ==> lhs[i] == rhs[i]
    ensures equal <==> lhs == rhs
  {
    if |lhs| != |rhs| {
      return false;
    }
    var i := 0;
    while i < |lhs|
      invariant 0 <= i <= |lhs|
      invariant forall j :: 0 <= j < i ==> lhs[j] == rhs[j]
    {
      if lhs[i] != rhs[i] {
        return false;
      }
      i := i + 1;
    }
    return true;
  }

  /** `ValueList::operator!=`: exactly the negation of `==`. */
  method ValueListNotEquals<T(==)>(lhs: seq<T>, rhs: seq<T>) returns (differ: bool)
    ensures differ <==> lhs != rhs
    ensures differ <==> |lhs| != |rhs| || exists i :: 0 <= i < |lhs| && lhs[i] != rhs[i]
  {
    var equal := ValueListEquals(lhs, rhs);
    differ := !equal;
  }
}
