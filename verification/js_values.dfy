/** JavaScript values as they reach the request layer, and the few conversions
    the layer applies to them: truthiness, `String(v)` (what `+` does to a value
    next to a string), the text `Array.prototype.join` gives an element, and the
    lodash helpers `_.initial` and `_.last` over an argument list. */
module JsValues {

  datatype Option<+T> = None | Some(value: T)

  /** An argument or a payload. Numbers are not modelled; `Obj` is a plain object. */
  datatype Value =
    | Undefined
    | Null
    | Bool(b: bool)
    | Str(s: string)
    | Obj(fields: map<string, Value>)

  /** JavaScript truthiness: `undefined`, `null`, `false` and `""` are falsy,
      every object is truthy. */
  predicate Truthy(v: Value)
    ensures !Truthy(v) <==> v == Undefined || v == Null || v == Bool(false) || v == Str("")
  {
    match v
    case Undefined => false
    case Null => false
    case Bool(b) => b
    case Str(s) => s != ""
    case Obj(_) => true
  }

  /** `String(v)`: the conversion `+` applies to a value next to a string. */
  function ToStr(v: Value): (t: string)
    ensures Truthy(v) ==> t != ""
    ensures v.Str? ==> t == v.s
  {
    match v
    case Undefined => "undefined"
    case Null => "null"
    case Bool(b) => if b then "true" else "false"
    case Str(s) => s
    case Obj(_) => "[object Object]"
  }

  /** The text `Array.prototype.join` writes for one element: nothing for
      `undefined` and `null`, `String(v)` for everything else. */
  function JoinText(v: Value): (t: string)
    ensures t == ToStr(v) <==> !(v.Undefined? || v.Null?)
  {
    if v.Undefined? || v.Null? then "" else ToStr(v)
  }

  /** `_.initial(args)`: every argument but the last; empty for no arguments. */
  function Initial(args: seq<Value>): (r: seq<Value>)
    ensures |r| == if args == [] then 0 else |args| - 1
    ensures r <= args
  {
    if args == [] then [] else args[..|args| - 1]
  }

  /** `_.last(args)`: the last argument; `undefined` for no arguments. */
  function Last(args: seq<Value>): (v: Value)
    ensures args != [] ==> Initial(args) + [v] == args
    ensures args == [] ==> v == Undefined
  {
    if args == [] then Undefined else args[|args| - 1]
  }

  /** Splitting an argument list into `_.initial` and `_.last` undoes appending one argument. */
  lemma InitialLastOfAppend(args: seq<Value>, x: Value)
    ensures Initial(args + [x]) == args && Last(args + [x]) == x
  {
    assert (args + [x])[..|args|] == args;
  }
}
