/**
 * Values shared by every component: optional values, the outcome of a call
 * into code outside the model (a return value or a raised exception's text),
 * and the loosely typed values that the orchestrator's request dictionaries
 * and the research agent's enrichment selection carry.
 */
module Common {

  datatype Option<+T> = None | Some(value: T)

  /** What a call into an external collaborator gives back: a value, or the
      text of the exception it raised (Python's `str(e)`). */
  datatype Attempt<+T> = Ok(value: T) | Raised(error: string)

  /** A dictionary value as the request and selection dictionaries hold them:
      a boolean flag, a string, or Python's `None`. */
  datatype Value = Flag(b: bool) | Str(s: string) | Null

  /** Python truthiness of a dictionary value. */
  predicate Truthy(v: Value)
  {
    match v
    case Flag(b) => b
    case Str(s) => s != ""
    case Null => false
  }

  /** Python's `str(v)`, as an f-string interpolation renders it. */
  function Render(v: Value): string
  {
    match v
    case Flag(b) => if b then "True" else "False"
    case Str(s) => s
    case Null => "None"
  }
}
