/** The runtime values that flow through patched attributes, proxied members
    and wrapper constructor arguments. */
module Values {

  /** A Python value as far as this model needs one: `None`, an integer or a string. */
  datatype Value = Null | Int(i: int) | Str(s: string)

  /** The arguments of one Python call: `*args` in order and `**kwargs` by name. */
  datatype Args = Args(positional: seq<Value>, keyword: map<string, Value>)

  /** A call with positional arguments only. */
  function Positional(vs: seq<Value>): (a: Args)
  {
    Args(vs, map[])
  }
}
