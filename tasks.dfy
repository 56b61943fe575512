/**
 * The contract every polling task offers to the futures that wrap it:
 * a poll either has no answer yet (Java `null`), a value, or throws; an
 * abort returns whether it cancelled cleanly, or throws.
 */
module Tasks {
  import opened Files

  datatype Error =
    | Endit(lines: seq<string>)     // EnditException carrying diagnostic lines
    | IoError(path: Path)           // an IOException while touching `path`
    | Duplicate(path: Path)         // "Duplicate nearline requests on <path>"

  datatype Reply<+V> = Null | Value(value: V) | Thrown(error: Error)

  datatype AbortReply = Returned(ok: bool) | AbortThrown(error: Error)
}
