/** Application payloads as the bridge sees them: the runtime classes it
    dispatches on, the values of those classes, `getClass().getName()`,
    `toString()`, and the serializers it borrows (JSON-B and the JDK's
    floating-point parsers), which stay opaque. */
module Payloads {
  import opened Wrappers
  import opened JavaLang

  /** A loaded class. The boxed scalars, `String` and `byte[]` are told apart
      because the codec tests for them; every other class is `ClassT(name)`. */
  datatype JType =
    | IntegerT | LongT | DoubleT | FloatT | BooleanT | ShortT | ByteT | CharacterT
    | StringT
    | ByteArrayT
    | ClassT(name: string)

  /** A payload object. A `Double` or `Float` is carried by the text that
      `Double.toString` / `Float.toString` prints for it: floating-point
      arithmetic is not part of the model. `ObjectV` is any other object,
      identified by its class name and its field values. `NullV` is `null`. */
  datatype Value =
    | IntegerV(i: Int32)
    | LongV(l: Int64)
    | DoubleV(doubleText: string)
    | FloatV(floatText: string)
    | BooleanV(b: bool)
    | ShortV(s: Int16)
    | ByteV(y: Int8)
    | CharacterV(c: char)
    | StringV(str: string)
    | ByteArrayV(bytes: seq<Int8>)
    | ObjectV(className: string, fields: seq<(string, Value)>)
    | NullV

  /** `getClass()`: the runtime class of a non-null payload. */
  function ClassOf(v: Value): JType
    requires !v.NullV?
  {
    match v
    case IntegerV(_) => IntegerT
    case LongV(_) => LongT
    case DoubleV(_) => DoubleT
    case FloatV(_) => FloatT
    case BooleanV(_) => BooleanT
    case ShortV(_) => ShortT
    case ByteV(_) => ByteT
    case CharacterV(_) => CharacterT
    case StringV(_) => StringT
    case ByteArrayV(_) => ByteArrayT
    case ObjectV(n, _) => ClassT(n)
  }

  /** `Class.getName()`. */
  function ClassName(t: JType): string {
    match t
    case IntegerT => "java.lang.Integer"
    case LongT => "java.lang.Long"
    case DoubleT => "java.lang.Double"
    case FloatT => "java.lang.Float"
    case BooleanT => "java.lang.Boolean"
    case ShortT => "java.lang.Short"
    case ByteT => "java.lang.Byte"
    case CharacterT => "java.lang.Character"
    case StringT => "java.lang.String"
    case ByteArrayT => "[B"
    case ClassT(n) => n
  }

  /** The names of the built-in classes the model tells apart. */
  const BUILTIN_CLASS_NAMES: set<string> := {
    "java.lang.Integer", "java.lang.Long", "java.lang.Double", "java.lang.Float",
    "java.lang.Boolean", "java.lang.Short", "java.lang.Byte", "java.lang.Character",
    "java.lang.String", "[B"}

  /** A class the JVM can actually produce: an application class never has
      the name of one of the built-in classes. */
  predicate ValidClass(t: JType) {
    t.ClassT? ==> t.name !in BUILTIN_CLASS_NAMES
  }

  /** Among valid classes, the name identifies the class. */
  lemma ClassNameIdentifies(a: JType, b: JType)
    requires ValidClass(a) && ValidClass(b)
    ensures ClassName(a) == ClassName(b) <==> a == b
  {
  }

  /** A boxed scalar or a string: the payloads whose `toString()` is modelled. */
  predicate IsScalar(v: Value) {
    v.IntegerV? || v.LongV? || v.DoubleV? || v.FloatV? || v.BooleanV? || v.ShortV?
    || v.ByteV? || v.CharacterV? || v.StringV?
  }

  /** `toString()` of a boxed scalar or a string. */
  function ToString(v: Value): string
    requires IsScalar(v)
  {
    match v
    case IntegerV(n) => FormatDecimal(n)
    case LongV(n) => FormatDecimal(n)
    case DoubleV(t) => t
    case FloatV(t) => t
    case BooleanV(b) => FormatBoolean(b)
    case ShortV(n) => FormatDecimal(n)
    case ByteV(n) => FormatDecimal(n)
    case CharacterV(c) => [c]
    case StringV(s) => s
  }

  /** The serializers the codec calls and the model does not look into.
      `toJson` is `Jsonb.toJson` and `fromJson` is `Jsonb.fromJson(text, class)`,
      `None` standing for the JsonbException. `parseDouble` and `parseFloat` are
      `Double.valueOf` and `Float.valueOf`, giving the canonical text of the
      parsed value, `None` standing for the NumberFormatException. */
  datatype Serializers = Serializers(
    toJson: Value -> Option<string>,
    fromJson: (string, JType) -> Option<Value>,
    parseDouble: string -> Option<string>,
    parseFloat: string -> Option<string>)
}
