/** Shared result types: an optional value, and the outcome of one query against the hosted store. */
module Common {

  datatype Option<T> = None | Some(value: T)

  /** The outcome of one store query: what it returned, or the error's message. */
  datatype Fetch<T> = Ok(data: T) | Err(message: string)

  /** `err.message || fallback`: an error without a message shows the page's default text. */
  function ErrorText(message: string, fallback: string): (r: string)
    ensures message != "" ==> r == message
    ensures message == "" ==> r == fallback
  {
    if message == "" then fallback else message
  }

  /** `xs || []`: a null list reads as the empty list. */
  function OrEmpty<T>(xs: Option<seq<T>>): (r: seq<T>)
    ensures xs.Some? ==> r == xs.value
    ensures xs.None? ==> r == []
  {
    match xs
    case Some(v) => v
    case None => []
  }
}
