/**
 The values that flow through a task's response handler: the received content,
 the transport's response descriptor, the decoded shapes, and the error a
 handler throws.
 */
module Values {

  /** Conventional optional value; used for the task's handler slot and for a thrown error. */
  datatype Option<T> = None | Some(value: T)

  /** The errors a handler invocation can throw. `InvalidResponse` is
      ConduletError.invalidResponse; `DecodingFailed` stands for whatever a
      delegate decoder (text, JSON, form, Decodable) throws on malformed input. */
  datatype Error = InvalidResponse | DecodingFailed(reason: string)

  /** Either a value or the error that was thrown instead of it. */
  datatype Result<T> = Ok(value: T) | Err(error: Error) {

    /** Applies `f` to a success value; an error passes through unchanged. */
    function Map<U>(f: T -> U): Result<U>
    {
      match this
      case Ok(v) => Ok(f(v))
      case Err(e) => Err(e)
    }
  }

  /** ServiceTask.Content: a response body that was either kept in memory or
      downloaded to a file. */
  datatype Content = Data(bytes: seq<bv8>) | File(url: string)

  /** URLResponse: passed through to every callback and never inspected by the handlers. */
  datatype UrlResponse = UrlResponse(url: string, statusCode: int, headers: map<string, string>)

  /** The dynamically typed tree a JSON decoder produces (Swift's `Any`).
      Numbers keep their literal text, so no floating point is modelled. */
  datatype Json =
    | Null
    | Bool(b: bool)
    | Number(literal: string)
    | String(s: string)
    | Array(items: seq<Json>)
    | Object(members: map<string, Json>)

  /** A value of the caller's Decodable type `T`, named by its type and given by its fields. */
  datatype Decoded = Decoded(typeName: string, fields: Json)
}
