/** The dynamically typed Python values that reach the query layer as filter
    right-hand sides, fill values, resolutions and result cells, with the parts
    of `str()`, `repr()` and truthiness the renderers use. */
module Values {
  import opened Text

  /** A naive `datetime.datetime` (no tzinfo, no microseconds). */
  datatype DateTime = DateTime(year: nat, month: nat, day: nat, hour: nat, minute: nat, second: nat)
  {
    /** The component ranges `datetime` enforces at construction. */
    predicate Valid() {
      1 <= year <= 9999 && 1 <= month <= 12 && 1 <= day <= 31 && hour < 24 && minute < 60 && second < 60
    }
  }

  type Timestamp = t: DateTime | t.Valid() witness DateTime(1, 1, 1, 0, 0, 0)

  /** `YYYY-MM-DD<sep>HH:MM:SS`, every component zero-padded. */
  function DateText(t: Timestamp, sep: char): string {
    Pad(t.year, 4) + "-" + Pad(t.month, 2) + "-" + Pad(t.day, 2) + [sep]
      + Pad(t.hour, 2) + ":" + Pad(t.minute, 2) + ":" + Pad(t.second, 2)
  }

  /** An int, a str, a datetime, None, or a 2-tuple. */
  datatype Value =
    | Int(i: int)
    | Str(s: string)
    | Date(t: Timestamp)
    | Nothing
    | Pair(first: Value, second: Value)

  /** `str(v)`. */
  function ToStr(v: Value): string {
    match v
    case Int(i) => IntToString(i)
    case Str(s) => s
    case Date(t) => DateText(t, ' ')
    case Nothing => "None"
    case Pair(a, b) => "(" + Repr(a) + ", " + Repr(b) + ")"
  }

  /** `repr(v)`, which `str` uses for the items of a tuple. */
  function Repr(v: Value): string {
    match v
    case Int(i) => IntToString(i)
    case Str(s) => "'" + s + "'"
    case Date(t) => "datetime.datetime(" + Join(DateReprArgs(t), ", ") + ")"
    case Nothing => "None"
    case Pair(a, b) => "(" + Repr(a) + ", " + Repr(b) + ")"
  }

  /** `datetime.__repr__` drops a zero second (there are no microseconds here). */
  function DateReprArgs(t: Timestamp): seq<string> {
    [IntToString(t.year), IntToString(t.month), IntToString(t.day), IntToString(t.hour), IntToString(t.minute)]
      + (if t.second != 0 then [IntToString(t.second)] else [])
  }

  /** Python truthiness: zero, the empty string and None are false. */
  predicate Truthy(v: Value) {
    match v
    case Int(i) => i != 0
    case Str(s) => s != ""
    case Date(_) => true
    case Nothing => false
    case Pair(_, _) => true
  }
}
