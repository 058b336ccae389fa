/** Failure-compatible results, used where the program returns None or raises. */
module Wrappers {
  datatype Option<+T> = None | Some(value: T)

  /** Success carries what the Python call returns; Failure stands for a raised, rolled back error. */
  datatype Result<+R, +E> = Success(value: R) | Failure(error: E) {
    predicate IsFailure() {
      Failure?
    }

    function PropagateFailure<U>(): Result<U, E>
      requires Failure?
    {
      Failure(error)
    }

    function Extract(): R
      requires Success?
    {
      value
    }
  }
}

/**
 JSON values as the database stores them.

 Text that the program builds in a fixed format is kept structured: `Id` is a prefixed ULID by its
 128-bit number, `Path` a project-relative path by its variable components, `Time` a UTC timestamp in
 milliseconds.  `Hash` is the SHA-256 of some file content, kept symbolic: it is a free constructor,
 so equal digests mean equal contents.
 */
module Json {
  import opened Wrappers

  datatype Json =
    | Null
    | Bool(b: bool)
    | Num(n: int)
    | Str(s: string)
    | Id(ulid: nat)
    | Path(parts: seq<nat>)
    | Time(stamp: int)
    | Hash(content: Bytes)
    | Arr(items: seq<Json>)
    | Obj(fields: map<string, Json>)

  /** The values that Python sees as `str`: plain text, identifiers, paths, timestamps and digests. */
  predicate IsText(j: Json) {
    j.Str? || j.Id? || j.Path? || j.Time? || j.Hash?
  }

  /** File content: either exactly the canonical encoding of a value or anything else. */
  datatype Bytes = Canonical(value: Json) | Raw(id: nat)

  type Memory = map<string, Json>

  const CONTINUATION := "continuation"
  const RESUME := "resume"
  const INTERRUPTS := "interrupts"

  /** The durable marker a shutdown or a human reply leaves for the next claim. */
  predicate Flagged(m: Memory) {
    CONTINUATION in m && m[CONTINUATION] == Bool(true)
  }

  /** The maps that workers write never carry the marker themselves. */
  predicate Clean(m: Memory) {
    CONTINUATION !in m
  }

  function PendingInterrupts(m: Memory): set<string> {
    if INTERRUPTS in m && m[INTERRUPTS].Obj? then m[INTERRUPTS].fields.Keys else {}
  }

  function Reply(interrupt: string, value: Json): Json {
    Obj(map["interrupt_id" := Str(interrupt), "value" := value])
  }
}
