/**
 * Dynamically typed document data as the app receives it from the document
 * database: a document is a map from field names to values, and the app
 * reads fields either with Kotlin's safe casts (`as? String`, which never
 * throw) or with the typed getters of the database client (`getString`,
 * `getTimestamp`, `getLong`, which throw when the field holds a value of
 * another type).
 */
module Documents {
  import opened Wrappers

  /** A field value. `Other` stands for every value kind the app never reads (booleans, references, ...). */
  datatype Value =
    | Str(s: string)
    | Num(n: real)
    | Time(millis: int)
    | List(items: seq<Value>)
    | Map(fields: map<string, Value>)
    | Null
    | Other

  type Doc = map<string, Value>

  /** A query result: the document's id and its fields. */
  datatype Snapshot = Snapshot(id: string, data: Doc)

  /** Stand-in for the runtime's message when a typed getter meets a value of another type. */
  const WrongTypeMessage: string := "Field has the wrong type"

  /** `doc.get(key)`: a missing field reads as null. */
  function Field(d: Doc, key: string): (v: Value)
    ensures key !in d ==> v == Null
    ensures key in d ==> v == d[key]
  {
    if key in d then d[key] else Null
  }

  /** `v as? String` */
  function AsString(v: Value): (r: Option<string>)
    ensures r.Some? <==> v.Str?
    ensures r.Some? ==> v == Str(r.value)
  {
    if v.Str? then Some(v.s) else None
  }

  /** `(v as? Number)?.toDouble()` */
  function AsNumber(v: Value): (r: Option<real>)
    ensures r.Some? <==> v.Num?
    ensures r.Some? ==> v == Num(r.value)
  {
    if v.Num? then Some(v.n) else None
  }

  /** `v as? Map<String, Any>` */
  function AsMap(v: Value): (r: Option<map<string, Value>>)
    ensures r.Some? <==> v.Map?
    ensures r.Some? ==> v == Map(r.value)
  {
    if v.Map? then Some(v.fields) else None
  }

  /**
   * `v as? List<...>`: the element type is erased at run time, so every
   * list passes the cast whatever its elements are.
   */
  function AsList(v: Value): (r: Option<seq<Value>>)
    ensures r.Some? <==> v.List?
    ensures r.Some? ==> v == List(r.value)
  {
    if v.List? then Some(v.items) else None
  }

  /** `doc.getString(key)`: null when missing or null, throws on a non-string. */
  function GetString(d: Doc, key: string): (r: Result<Option<string>>)
    ensures r == Ok(None) <==> Field(d, key) == Null
    ensures forall s :: r == Ok(Some(s)) <==> Field(d, key) == Str(s)
    ensures r.Err? <==> !(Field(d, key).Null? || Field(d, key).Str?)
  {
    match Field(d, key)
    case Null => Ok(None)
    case Str(s) => Ok(Some(s))
    case _ => Err(Some(WrongTypeMessage))
  }

  /** `doc.getTimestamp(key)`, in milliseconds. */
  function GetTimestamp(d: Doc, key: string): (r: Result<Option<int>>)
    ensures r == Ok(None) <==> Field(d, key) == Null
    ensures forall t :: r == Ok(Some(t)) <==> Field(d, key) == Time(t)
    ensures r.Err? <==> !(Field(d, key).Null? || Field(d, key).Time?)
  {
    match Field(d, key)
    case Null => Ok(None)
    case Time(t) => Ok(Some(t))
    case _ => Err(Some(WrongTypeMessage))
  }

  const LongMin: int := -0x8000_0000_0000_0000
  const LongMax: int := 0x7FFF_FFFF_FFFF_FFFF

  /** `Number.longValue()`: a fractional number is truncated toward zero and saturated to the 64-bit range. */
  function TruncateToLong(x: real): (l: int)
    ensures LongMin <= l <= LongMax
    ensures LongMin as real <= x <= LongMax as real ==> -1.0 < x - l as real < 1.0
    ensures LongMin as real <= x <= LongMax as real && x >= 0.0 ==> 0.0 <= x - l as real
    ensures LongMin as real <= x <= LongMax as real && x <= 0.0 ==> x - l as real <= 0.0
    ensures x == x.Floor as real && LongMin <= x.Floor <= LongMax ==> l == x.Floor
  {
    var t := if x >= 0.0 then x.Floor else -((-x).Floor);
    if t < LongMin then LongMin else if t > LongMax then LongMax else t
  }

  /** `doc.getLong(key)`: null when missing or null, throws on a non-number. */
  function GetLong(d: Doc, key: string): (r: Result<Option<int>>)
    ensures r == Ok(None) <==> Field(d, key) == Null
    ensures r.Ok? && r.value.Some? ==> LongMin <= r.value.value <= LongMax
    ensures Field(d, key).Num? ==> r == Ok(Some(TruncateToLong(Field(d, key).n)))
    ensures r.Err? <==> !(Field(d, key).Null? || Field(d, key).Num?)
  {
    match Field(d, key)
    case Null => Ok(None)
    case Num(x) => Ok(Some(TruncateToLong(x)))
    case _ => Err(Some(WrongTypeMessage))
  }

  /** Kotlin's `Long.toInt()`: keeps the low 32 bits, as a two's complement number. */
  function ToInt32(l: int): (i: int)
    ensures -0x8000_0000 <= i < 0x8000_0000
    ensures (i - l) % 0x1_0000_0000 == 0
    ensures -0x8000_0000 <= l < 0x8000_0000 ==> i == l
  {
    var low := l % 0x1_0000_0000;
    if low >= 0x8000_0000 then low - 0x1_0000_0000 else low
  }

  /**
   * `FieldValue.arrayRemove(x)` applied to a stored array, and equally
   * Kotlin's `filter { it != x }`: every element equal to `x` goes, the rest
   * keep their order.
   */
  function ArrayRemove(list: seq<Value>, x: Value): (r: seq<Value>)
    ensures x !in r
    ensures forall y :: y in r <==> y in list && y != x
    ensures |r| <= |list|
    decreases |list|
  {
    if list == [] then []
    else (if list[0] == x then [] else [list[0]]) + ArrayRemove(list[1..], x)
  }

  /** `FieldValue.arrayUnion(x)` applied to a stored array: `x` is appended unless already there. */
  function ArrayUnion(list: seq<Value>, x: Value): (r: seq<Value>)
    ensures forall y :: y in r <==> y in list || y == x
    ensures x in list ==> r == list
    ensures x !in list ==> |r| == |list| + 1 && r[..|list|] == list
  {
    if x in list then list else list + [x]
  }

  /** How a Kotlin string template renders a nullable string: null becomes the text "null". */
  function Render(s: Option<string>): (r: string)
    ensures s.Some? ==> r == s.value
    ensures s.None? ==> r == "null"
  {
    match s
    case Some(v) => v
    case None => "null"
  }
}
