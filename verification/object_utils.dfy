/**
 The emptiness test the controller relies on: Spring's `ObjectUtils.isEmpty(Object)`.
 It is first described over every kind of argument it distinguishes, then
 specialised to the two kinds the controller passes it, a `String` and a
 `MultipartFile`.
 */
module ObjectUtils {
  import opened Wrappers

  /** The kinds of argument `isEmpty(Object)` tells apart, each with what it inspects. */
  datatype JavaObject =
    | Null
    | OptionalValue(present: bool)
    | CharSequence(chars: string)
    | Array(length: nat)
    | Collection(size: nat)
    | Map(size: nat)
      /** Any other object, such as a `MultipartFile`: its contents are not looked at. */
    | Other

  /** `isEmpty(Object)`: null, an absent `Optional`, or a zero-length sequence, array, collection or map. */
  predicate IsEmpty(o: JavaObject) {
    match o
    case Null => true
    case OptionalValue(present) => !present
    case CharSequence(chars) => |chars| == 0
    case Array(length) => length == 0
    case Collection(size) => size == 0
    case Map(size) => size == 0
    case Other => false
  }

  /** A nullable `String` seen as an `Object`. */
  function StringObject(s: Option<string>): JavaObject {
    match s
    case None => Null
    case Some(chars) => CharSequence(chars)
  }

  /** A nullable reference to an object of none of the special kinds seen as an `Object`. */
  function PlainObject<T>(o: Option<T>): JavaObject {
    if o.None? then Null else Other
  }

  /** The controller's test on a `String` field: null or the empty string; no trimming. */
  predicate IsEmptyString(s: Option<string>) {
    s.None? || s.value == ""
  }

  /** The controller's test on the file part: null only. */
  predicate IsEmptyObject<T>(o: Option<T>) {
    o.None?
  }

  /** The string test agrees with `isEmpty(Object)` on every nullable `String`. */
  lemma IsEmptyStringIsIsEmpty(s: Option<string>)
    ensures IsEmptyString(s) <==> IsEmpty(StringObject(s))
  {
  }

  /** The file test agrees with `isEmpty(Object)` on every nullable plain object. */
  lemma IsEmptyObjectIsIsEmpty<T>(o: Option<T>)
    ensures IsEmptyObject(o) <==> IsEmpty(PlainObject(o))
  {
  }

  /** Java's `String.valueOf(Object)`, as used by string concatenation: null prints as "null". */
  function StringValueOf(s: Option<string>): (r: string)
    ensures s.Some? ==> r == s.value
    ensures s.None? ==> r == "null"
  {
    s.GetOr("null")
  }
}
