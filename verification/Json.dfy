/** JSON values as the host language decodes them: integers and floats are different
    constructors, and a float may be non-finite. */
module JsonModel {

  datatype Option<+T> = None | Some(value: T)

  datatype Number = Finite(r: real) | NaN | PosInf | NegInf

  datatype Json =
    | Null
    | Bool(b: bool)
    | Int(i: int)
    | Float(f: Number)
    | Str(s: string)
    | Arr(items: seq<Json>)
    | Obj(fields: map<string, Json>)

  type Fields = map<string, Json>
}
