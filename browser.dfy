/**
 * What the pages do to the outside world, recorded in order as effects,
 * and what the outside world answers, given to the handlers as inputs:
 * the outcome of a `fetch`, the answer to `confirm`, a list load.
 */
module Browser {
  import opened Wrappers

  datatype HttpMethod = GET | POST | DELETE

  /** Request bodies as `JSON.stringify` writes them; a numeric field that
      is NaN or infinite is written as `null` (None). */
  datatype Body =
    | MedicamentoBody(nombre: string, precio: Option<real>, stock: Option<real>, categoriaId: Option<real>)
    | CategoriaBody(nombre: string)

  datatype Request = Request(httpMethod: HttpMethod, url: string, body: Option<Body>)

  datatype Effect =
    | Fetch(request: Request)       // a `fetch` call issued
    | Confirm(question: string)     // a `confirm` dialog shown
    | Alert(message: string)        // an `alert` dialog shown
    | Navigate(path: string)        // `router.push(path)`
    | Refresh                       // `router.refresh()`

  /** The outcome of loading a list: `fetch` and `res.json()` both resolved
      with an array, or one of them rejected. */
  datatype Load<T> = Loaded(data: seq<T>) | LoadFailed

  /** Whether an awaited `fetch` resolved (with any status) or rejected. */
  datatype Settled = Resolved | Rejected

  /** The body of a non-ok response, as `response.json()` reads it. */
  datatype ErrorBody = Unreadable(reason: string) | Json(message: Option<string>)

  /** The outcome of a POST: `fetch` rejected with an error message, or a
      response arrived with its `ok` flag and its body. */
  datatype Response = NetworkFailure(reason: string) | Answered(ok: bool, body: ErrorBody)

  function GetRequest(url: string): Request {
    Request(GET, url, None)
  }
}
