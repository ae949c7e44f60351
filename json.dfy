/** The values that flow through the pipeline's open `extracted_data`
    mappings: what `json.loads` produces, plus Python's truthiness and `str()`. */
module Json {
  import opened Wrappers
  import opened Dicts

  datatype Value =
    | Null
    | Bool(b: bool)
    | Num(n: real)
    | Str(s: string)
    | Arr(items: seq<Value>)
    | Obj(fields: Dict<Value>)

  /** Python's `bool(v)`: None, False, zero and empty containers are false. */
  predicate Truthy(v: Value) {
    match v
    case Null => false
    case Bool(b) => b
    case Num(n) => n != 0.0
    case Str(s) => s != ""
    case Arr(xs) => |xs| > 0
    case Obj(fs) => |fs| > 0
  }

  /** Python's `v == 1`, which also holds of `1.0` and of `True`. */
  predicate EqualsOne(v: Value) {
    v == Num(1.0) || v == Bool(true)
  }

  /** What is expected of the `str` passed in: strings are themselves, and
      None and the booleans are written out. The rendering of numbers, lists
      and dicts is left open. */
  ghost predicate PyStr(str: Value -> string) {
    && (forall s :: str(Str(s)) == s)
    && str(Null) == "None"
    && str(Bool(true)) == "True"
    && str(Bool(false)) == "False"
  }

  /** What is expected of the JSON decoder passed in as `loads`: the empty
      document does not parse, and a text that begins with `{` parses, if at
      all, to an object. */
  ghost predicate JsonLoads(loads: string -> Option<Value>) {
    && loads("") == None
    && forall s :: |s| > 0 && s[0] == '{' && loads(s).Some? ==> loads(s).value.Obj?
  }
}
