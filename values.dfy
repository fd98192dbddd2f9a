/** The loosely typed values a Firestore document holds, and Swift's conditional
    cast `dictionary[key] as? T ?? default` over them. */
module Values {

  datatype Option<+T> = None | Some(value: T) {
    /** Swift's nil-coalescing operator `??`. */
    function GetOr(default: T): T {
      match this
      case Some(v) => v
      case None => default
    }
  }

  /** An IEEE 754 binary64 number, carried by its bit pattern only: the decoders
      never compute with it. */
  datatype Double = Double(bits: bv64)

  /** The literal `0.00`, which is +0.0: every bit clear. */
  const Zero: Double := Double(0)

  /** Foundation's `Date`, a point in time counted from the reference date. */
  datatype Date = Date(sinceReferenceDate: Double)

  /** Firebase's `Timestamp`: whole seconds since the epoch and nanoseconds. */
  datatype Timestamp = Timestamp(seconds: int, nanoseconds: int)

  /** A value stored under a key of a document; `VOther` stands for every value of
      any other dynamic type (integers, booleans, arrays, maps, null). The model
      treats all of them as failing `as? Double`, although Swift's bridging lets an
      integer-valued number or a boolean cast to a `Double`. */
  datatype Value =
    | VString(str: string)
    | VDouble(num: Double)
    | VDate(date: Date)
    | VTimestamp(stamp: Timestamp)
    | VOther

  /** The dynamic type of a value, as `as?` inspects it. */
  datatype Kind = StringKind | DoubleKind | DateKind | TimestampKind | OtherKind

  function KindOf(v: Value): Kind {
    match v
    case VString(_) => StringKind
    case VDouble(_) => DoubleKind
    case VDate(_) => DateKind
    case VTimestamp(_) => TimestampKind
    case VOther => OtherKind
  }

  /** A document's data, `[String: Any]`. */
  type Record = map<string, Value>

  /** `dictionary[key]`: the value under the key, or nil. */
  function Lookup(d: Record, key: string): Option<Value> {
    if key in d then Some(d[key]) else None
  }

  /** `as? String` */
  function AsString(o: Option<Value>): Option<string> {
    match o
    case Some(VString(s)) => Some(s)
    case _ => None
  }

  /** `as? Double` */
  function AsDouble(o: Option<Value>): Option<Double> {
    match o
    case Some(VDouble(x)) => Some(x)
    case _ => None
  }

  /** `as? Date` */
  function AsDate(o: Option<Value>): Option<Date> {
    match o
    case Some(VDate(t)) => Some(t)
    case _ => None
  }

  /** `as? Timestamp` */
  function AsTimestamp(o: Option<Value>): Option<Timestamp> {
    match o
    case Some(VTimestamp(t)) => Some(t)
    case _ => None
  }

  /** The reading rule the decoders follow, stated on values: the stored value
      when the key is present and holds a value of the wanted kind, and the
      default otherwise. */
  function Lenient(d: Record, key: string, kind: Kind, default: Value): Value {
    if key in d && KindOf(d[key]) == kind then d[key] else default
  }
}
