/** Values exchanged between the game client and the relay server.

    The JSON codec itself is not modelled: a message arrives already
    classified as text that does not parse, JSON that is not an object, or
    an object whose fields are JSON values. */
module Wire {

  datatype Option<+T> = None | Some(value: T)

  datatype Result<+T, +E> = Success(value: T) | Failure(error: E)

  /** The outcome of a step that returns nothing but may raise. */
  datatype Outcome<+E> = Pass | Fail(error: E)

  /** A JSON value as far as this protocol looks at it: numbers and strings
      are distinguished, everything else (null, booleans, arrays, objects)
      is lumped together because no code path inspects it. */
  datatype Value = Num(n: real) | Str(s: string) | Other

  /** One text frame received on a websocket, after `json.loads`. */
  datatype Payload =
    | Unparsable                           // json.loads raises
    | NotObject                            // valid JSON, but not a dict
    | Object(fields: map<string, Value>)
}
