/** Decoded JSON values and the small generic types the other modules share. */
module Values {

  datatype Option<+T> = None | Some(value: T)

  /** A decoded JSON/TOML value. `Null` also stands for an absent key read with `dict.get`. */
  datatype Value =
    | Null
    | Bool(b: bool)
    | Num(mantissa: int, exponent: int) // mantissa * 10^exponent, as JSON spells it: 80 is not 80.0
    | Str(s: string)
    | List(items: seq<Value>)
    | Obj(fields: map<string, Value>)

  type Config = map<string, Value>

  /** Python truth value of a decoded value. */
  predicate Truthy(v: Value) {
    match v
    case Null => false
    case Bool(b) => b
    case Num(mantissa, _) => mantissa != 0
    case Str(s) => s != ""
    case List(items) => items != []
    case Obj(fields) => fields != map[]
  }

  /** The false values are null, false, zero and the empty text, list and table. */
  lemma FalseValues(v: Value)
    ensures !Truthy(v) <==>
              || v == Null || v == Bool(false) || (v.Num? && v.mantissa == 0)
              || v == Str("") || v == List([]) || v == Obj(map[])
  {
  }

  /** `config.get(key)`. */
  function Get(config: Config, key: string): Value {
    if key in config then config[key] else Null
  }

  /** `config.get(key)` that still tells a stored null from an absent key. */
  function Lookup(config: Config, key: string): Option<Value> {
    if key in config then Some(config[key]) else None
  }
}
