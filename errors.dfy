/** The two errors the core raises, and the messages they carry. */
module Errors {

  /** Joins `parts` with `sep` between consecutive parts (Ruby's `Array#join`). */
  function Join(parts: seq<string>, sep: string): (r: string)
    ensures parts == [] ==> r == ""
    ensures |parts| == 1 ==> r == parts[0]
  {
    if parts == [] then ""
    else if |parts| == 1 then parts[0]
    else parts[0] + sep + Join(parts[1..], sep)
  }

  datatype Error<V> =
    /** `ArgumentError` raised by option validation, listing the unrecognised keys in the
        order they were given. */
    | ArgumentError(keys: seq<string>)
    /** `InvalidTransition` raised by the strict fire of event `event` when the record's
        state attribute reads `state`. */
    | InvalidTransition(event: V, state: V)
  {
    /** The exception message; `name` renders an event name (Ruby's `to_s`) and `inspect`
        renders a state value (Ruby's `inspect`). */
    function Message(name: V -> string, inspect: V -> string): string {
      match this
      case ArgumentError(keys) => "Invalid key(s): " + Join(keys, ", ")
      case InvalidTransition(event, state) =>
        "Cannot transition via :" + name(event) + " from " + inspect(state)
    }
  }
}
