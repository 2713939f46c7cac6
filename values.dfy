/** The Python values that flow between the components, and the catalog metadata of one function. */
module Values {

  /**
   * A Python value as far as the core inspects it: `None`, booleans, strings, dicts
   * with string keys, and any other value, known only by its `str()` text.
   */
  datatype Value =
    | Null
    | Bool(b: bool)
    | Text(s: string)
    | Other(shown: string)
    | Record(fields: map<string, Value>)

  /** Python's `str(v)` (dicts are shown as a fixed placeholder). */
  function Show(v: Value): string {
    match v
    case Null => "None"
    case Bool(b) => if b then "True" else "False"
    case Text(s) => s
    case Other(shown) => shown
    case Record(_) => "{...}"
  }

  /** The metadata stored for a function in the vector index (its source text is not modelled). */
  datatype Metadata = Metadata(name: string, moduleName: string, signature: string, docstring: string)
}
