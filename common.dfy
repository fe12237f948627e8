/** Values shared by every part of the dashboard model: optional values, results,
    the outcome of a network call, and the JavaScript truthiness tests the source
    relies on. */
module Common {

  datatype Option<T> = None | Some(value: T)

  /** The outcome of an operation that either yields a value or throws with a message. */
  datatype Result<T, E> = Success(value: T) | Failure(error: E)

  /** The JSON body of an error response; `message` is absent when the server sent none. */
  datatype ErrorBody = ErrorBody(message: Option<string>)

  /** The `response` part of a transport error: the HTTP status and the parsed body, if any. */
  datatype ErrorResponse = ErrorResponse(status: int, data: Option<ErrorBody>)

  /** A transport error as the HTTP library raises it: its own message, and the server's
      response when one arrived (a network failure has none). */
  datatype HttpError = HttpError(message: string, response: Option<ErrorResponse>)

  /** What a network call comes back with. Every call the model makes takes its outcome as
      a parameter of this type, so any server behaviour can be plugged in. */
  datatype Reply<T> = Ok(value: T) | Err(error: HttpError)

  /** A request a handler issues: update the record with the given id, or create one.
      `target == None` stands for an id that is not a number (`Number(undefined)`, NaN). */
  datatype Call<T> = Update(target: Option<int>, body: T) | Create(body: T)

  /** JavaScript truthiness of an optional string: present and non-empty. */
  predicate Truthy(s: Option<string>) {
    s.Some? && s.value != ""
  }

  /** JavaScript `a || b` on strings: `a` unless it is empty. */
  function OrElse(a: string, b: string): (r: string)
    ensures a != "" ==> r == a
    ensures a == "" ==> r == b
  {
    if a != "" then a else b
  }

  /** `xs.splice(i, 1)` on a copy of `xs`: exactly the element at `i` goes, the others keep
      their order. */
  function RemoveAt<T>(xs: seq<T>, i: nat): (r: seq<T>)
    requires i < |xs|
    ensures |r| == |xs| - 1
    ensures forall k :: 0 <= k < i ==> r[k] == xs[k]
    ensures forall k :: i <= k < |r| ==> r[k] == xs[k + 1]
    ensures multiset(r) + multiset{xs[i]} == multiset(xs)
  {
    assert xs == xs[..i] + [xs[i]] + xs[i + 1..];
    xs[..i] + xs[i + 1..]
  }
}
