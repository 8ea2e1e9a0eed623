/**
 The JSON values the client exchanges, with the partial accessors of the library it uses.
 A C++ exception derived from std::exception is the Err case of a Result; the texts of the
 library's own exceptions are abbreviated.
 */
module Json {

  datatype Result<+T> = Ok(value: T) | Err(what: string) {
    predicate IsFailure() {
      Err?
    }

    function PropagateFailure<U>(): Result<U>
      requires Err?
    {
      Err(what)
    }

    function Extract(): T
      requires Ok?
    {
      value
    }
  }

  // A C++ int.
  type Int32 = n: int | -0x8000_0000 <= n < 0x8000_0000

  datatype Value =
    | Null
    | Bool(b: bool)
    | Int(n: int)
    | Float(r: real)
    | Str(s: string)
    | Arr(elems: seq<Value>)
    | Obj(fields: map<string, Value>)

  const EMPTY_OBJECT := Obj(map[])

  // x.at(i)
  function At(x: Value, i: nat): Result<Value> {
    if !x.Arr? then Err("type_error.304")
    else if i < |x.elems| then Ok(x.elems[i])
    else Err("out_of_range.401")
  }

  // x.at("key")
  function AtKey(x: Value, key: string): Result<Value> {
    if !x.Obj? then Err("type_error.304")
    else if key in x.fields then Ok(x.fields[key])
    else Err("out_of_range.403")
  }

  // x.get<std::string>(), also the implicit conversion to std::string
  function AsString(x: Value): Result<string> {
    if x.Str? then Ok(x.s) else Err("type_error.302")
  }

  // x.get<int>(): every number and even a boolean is cast to int
  function AsInt(x: Value): (k: Result<Int32>)
    ensures k.Ok? <==> x.Int? || x.Float? || x.Bool?
    ensures x.Bool? ==> k.value == if x.b then 1 else 0
  {
    match x
    case Int(n) => Ok(CastToInt32(n))
    case Float(r) => Ok(CastToInt32(Truncate(r)))
    case Bool(b) => Ok(if b then 1 else 0)
    case _ => Err("type_error.302")
  }

  // static_cast<int> of a 64-bit integer keeps the low 32 bits
  function CastToInt32(n: int): (r: Int32)
    ensures -0x8000_0000 <= n < 0x8000_0000 ==> r == n
    ensures (r - n) % 0x1_0000_0000 == 0
  {
    (n + 0x8000_0000) % 0x1_0000_0000 - 0x8000_0000
  }

  // a cast from floating point drops the fraction
  function Truncate(r: real): (n: int)
    ensures r >= 0.0 ==> n as real <= r < n as real + 1.0
    ensures r < 0.0 ==> n as real - 1.0 < r <= n as real
  {
    if r >= 0.0 then r.Floor else -((-r).Floor)
  }
}
