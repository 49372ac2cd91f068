/**
 * The part of jsoncpp's `Json::Value` that the settings codec touches: a
 * top-level object of named members whose values are null, booleans,
 * integers, floats or arrays, with `get(key, default)`, the non-const
 * `operator[]`, and the `asBool`/`asInt`/`asFloat` accessors.
 */
module Json {
  import opened Numerics
  import opened MemberNames

  datatype JVal =
    | JNull
    | JBool(b: bool)
    | JInt(i: int)             // jsoncpp keeps integers as 64-bit; unbounded here
    | JFloat(f: Float32)       // a real that is exactly a single-precision float
    | JArray(elems: seq<JVal>)

  /** A parsed or to-be-written settings file: one JSON object, keyed by member name. */
  type Document = map<Name, JVal>

  /**
   * What the accessors return when the stored kind differs from the one asked
   * for (null read as a bool, a float read as an int, ...). jsoncpp defines
   * these conversions; this model leaves them uninterpreted.
   */
  datatype Coercions = Coercions(toBool: JVal -> bool, toInt: JVal -> Int32, toFloat: JVal -> Float32)

  /** `root.get(key, default)`: the member if the object has it, else the default. */
  function GetOr(root: Document, key: Name, default: JVal): JVal
  {
    if key in root then root[key] else default
  }

  /** The non-const `root[key]` read: a missing member reads as null. */
  function Member(root: Document, key: Name): JVal
  {
    if key in root then root[key] else JNull
  }

  /** `asBool()`: exact on a boolean. */
  function AsBool(v: JVal, c: Coercions): (b: bool)
    ensures v.JBool? ==> b == v.b
  {
    if v.JBool? then v.b else c.toBool(v)
  }

  /** `asInt()`: exact on an integer that fits in 32 bits. */
  function AsInt(v: JVal, c: Coercions): (i: Int32)
    ensures v.JInt? && -TWO_TO_31 <= v.i < TWO_TO_31 ==> i == v.i
  {
    if v.JInt? && -TWO_TO_31 <= v.i < TWO_TO_31 then v.i else c.toInt(v)
  }

  /** `asFloat()`: exact on a float. */
  function AsFloat(v: JVal, c: Coercions): (f: Float32)
    ensures v.JFloat? ==> f == v.f
  {
    if v.JFloat? then v.f else c.toFloat(v)
  }

  /**
   * `v[index] = x` on a null or array value: null first becomes an empty
   * array, a short array is padded with nulls up to `index`, and then slot
   * `index` is overwritten. jsoncpp refuses (throws) on any other kind.
   */
  function ArraySet(v: JVal, index: nat, x: JVal): (r: JVal)
    requires v.JNull? || v.JArray?
    ensures r.JArray?
    ensures var prev := if v.JArray? then v.elems else [];
      && |r.elems| == (if index < |prev| then |prev| else index + 1)
      && r.elems[index] == x
      && (forall j :: 0 <= j < |prev| && j != index ==> r.elems[j] == prev[j])
      && (forall j :: |prev| <= j < |r.elems| && j != index ==> r.elems[j] == JNull)
  {
    var prev := if v.JArray? then v.elems else [];
    var padded := if index < |prev| then prev else prev + seq(index + 1 - |prev|, _ => JNull);
    JArray(padded[index := x])
  }
}
