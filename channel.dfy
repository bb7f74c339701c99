/**
 * The values that cross a Flutter method channel: the argument dictionary a
 * handler receives, the dictionary it replies with, and FlutterError replies.
 * A Swift handler reads an argument with a cast (`args["k"] as? String`);
 * here each cast is a test on the constructor of the stored value, and a
 * missing key or a value of another type both read as None.
 */
module Channel {

  datatype Option<+T> = None | Some(value: T) {
    function GetOr(default: T): T {
      match this
      case Some(v) => v
      case None => default
    }

    function Or(fallback: Option<T>): Option<T> {
      if Some? then this else fallback
    }
  }

  /** A dictionary value, by the Swift type that a cast recovers it as. */
  datatype Value =
    | Bool(b: bool)
    | Int(i: int)                  // `as? Int`
    | Decimal(x: real)             // `as? Float`, `as? TimeInterval`: carried, never computed with
    | Text(s: string)              // `as? String`
    | TextList(items: seq<string>) // `as? [String]`
    | DecimalList(xs: seq<real>)   // a `[Float]` in a reply
    | Other                        // a value none of the casts above recovers

  type Dict = map<string, Value>

  /** What a handler passes to its `FlutterResult`. */
  datatype Reply =
    | Success(fields: Dict)
    | Failure(code: string, message: string)  // FlutterError(code:message:details: nil)
    | NotImplemented                          // FlutterMethodNotImplemented

  function StringArg(args: Dict, key: string): Option<string> {
    if key in args && args[key].Text? then Some(args[key].s) else None
  }

  function IntArg(args: Dict, key: string): Option<int> {
    if key in args && args[key].Int? then Some(args[key].i) else None
  }

  function DecimalArg(args: Dict, key: string): Option<real> {
    if key in args && args[key].Decimal? then Some(args[key].x) else None
  }

  function StringListArg(args: Dict, key: string): Option<seq<string>> {
    if key in args && args[key].TextList? then Some(args[key].items) else None
  }

  /**
   * `guard let args = arguments as? [String: Any], let v = args[key] as? String`:
   * None when the arguments are not a dictionary or the key does not hold a string.
   */
  function StringParam(arguments: Option<Dict>, key: string): Option<string> {
    if arguments.None? then None else StringArg(arguments.value, key)
  }

  function DecimalParam(arguments: Option<Dict>, key: string): Option<real> {
    if arguments.None? then None else DecimalArg(arguments.value, key)
  }
}
