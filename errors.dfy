/** The closed set of failures of the frontend and the result wrapper every
    operation returns. Each failure aborts the whole parse; no partial tree
    is ever returned. */
module Errors {

  datatype Error =
    | HeaderError        // first line is not the header sentinel
    | TabError           // a tab where indentation is read
    | IndentationError   // indent not a multiple of 4, or at the wrong depth
    | SyntaxError        // a line or token sequence of no known shape
    | TypeError          // a value of no known literal form
    | BadgesError        // a section opened without its parent stages
    | ReservedKeyError   // the forbidden key or section name
    | Crash              // a Go or Rust run-time panic (slice out of range, overflow)

  /** The text each failure carries; callers match on it. */
  function Message(e: Error): string
  {
    match e
    case HeaderError => "Status: Fainted"
    case TabError => "Poison Type: Tab character detected"
    case IndentationError => "The attack missed!"
    case SyntaxError => "It hurt itself in its confusion!"
    case TypeError => "Target is immune!"
    case BadgesError => "Not enough badges!"
    case ReservedKeyError => "It burns the bulb"
    case Crash => "panic"
  }

  /** Distinct failures carry distinct messages, so a message identifies its kind. */
  lemma MessageIdentifiesError(e1: Error, e2: Error)
    ensures Message(e1) == Message(e2) <==> e1 == e2
  {
  }

  datatype Option<+T> = None | Some(value: T)

  datatype Result<+T> = Ok(value: T) | Err(error: Error)
  {
    predicate IsFailure() { Err? }

    function PropagateFailure<U>(): Result<U>
      requires Err?
    {
      Err(error)
    }

    function Extract(): T
      requires Ok?
    {
      value
    }
  }
}
