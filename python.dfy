/**
 * The Python values a caller may pass as a field specification. Only the
 * shapes the parser distinguishes are kept apart: `str`, `tuple`, `list` and
 * `None`; every other object is `Other`, carrying the text `str()` gives it.
 */
module Python {

  datatype PyValue =
    | Str(s: string)
    | Tuple(items: seq<PyValue>)
    | List(items: seq<PyValue>)
    | NoneValue
    | Other(text: string)

  /** The text an f-string substitutes for the value: `str(v)`. */
  function StrOf(v: PyValue): (r: string)
    ensures v.Str? ==> r == v.s
  {
    match v
    case Str(s) => s
    case _ => Repr(v)
  }

  /**
   * `repr(v)`, which `str()` uses for everything but a `str`. A string is shown
   * between single quotes without escaping (Python picks the quote and escapes).
   */
  function Repr(v: PyValue): string
    decreases v
  {
    match v
    case Str(s) => "'" + s + "'"
    case NoneValue => "None"
    case Other(t) => t
    case List(xs) => "[" + ReprItems(xs) + "]"
    case Tuple(xs) => "(" + ReprItems(xs) + (if |xs| == 1 then "," else "") + ")"
  }

  /** The items of a container, shown as `repr` joined by `", "`. */
  function ReprItems(xs: seq<PyValue>): string
    decreases xs
  {
    if xs == [] then ""
    else if |xs| == 1 then Repr(xs[0])
    else Repr(xs[0]) + ", " + ReprItems(xs[1..])
  }
}
