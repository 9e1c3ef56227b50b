/** The Python values that the metadata files and command-line switches hold, as far
    as the converter inspects them. */
module PyValues {
  import PyStrings

  /** A value read from a metadata file.  A float other than NaN is kept as the text
      `str()` gives for it, since nothing but that text is ever used; a NaN float is
      always `NaN`, never `Float("nan")`. */
  datatype Value =
    | NoneValue
    | Bool(b: bool)
    | Int(i: int)
    | Float(text: string)
    | NaN
    | Str(s: string)
    | IntList(items: seq<int>)

  /** `', '.join(str(i) for i in items)`. */
  function JoinInts(items: seq<int>): string
  {
    PyStrings.Join(", ", seq(|items|, k requires 0 <= k < |items| => PyStrings.IntToString(items[k])))
  }

  /** Python's `str(v)`. */
  function Text(v: Value): string
  {
    match v
    case NoneValue => "None"
    case Bool(b) => if b then "True" else "False"
    case Int(i) => PyStrings.IntToString(i)
    case Float(text) => text
    case NaN => "nan"
    case Str(s) => s
    case IntList(items) => "[" + JoinInts(items) + "]"
  }
}
