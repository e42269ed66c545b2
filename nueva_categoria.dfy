/**
 * The new-category form: one name field, the required-name check, and
 * the submit flow over `error` and `isSubmitting` that either navigates
 * to the list or shows the server's message.
 */
module NuevaCategoria {
  import opened Wrappers
  import opened JsString
  import opened Browser

  const CreateUrl := "/api/categorias"
  const ListPath := "/categorias"
  const NombreRequerido := "El nombre es requerido"
  const CreateFailed := "Error al crear categoría"

  /** The message of the `Error` a non-ok response is turned into: the
      body's `message` when it is a non-empty string (`||` takes the
      default for a missing or empty one), the reason when the body could
      not be read as JSON. */
  function ServerError(body: ErrorBody): string {
    match body
    case Unreadable(reason) => reason
    case Json(message) => if message.Some? && message.value != "" then message.value else CreateFailed
  }

  /** The `error` a submission that reached the request ends with: "" on
      success, else the message of what was thrown. */
  function SubmitError(response: Response): string {
    match response
    case NetworkFailure(reason) => reason
    case Answered(ok, body) => if ok then "" else ServerError(body)
  }

  /** A rejection read from a JSON body shows the server's message when it
      sent a non-empty one and the default otherwise, so some message is
      always on screen. */
  lemma JsonRejectionShowsMessage(message: Option<string>)
    ensures message.Some? && message.value != "" ==> ServerError(Json(message)) == message.value
    ensures message.None? || message.value == "" ==> ServerError(Json(message)) == CreateFailed
    ensures ServerError(Json(message)) != ""
  {
  }

  /** Whether a response leads away from the form. */
  predicate Succeeded(response: Response) {
    response.Answered? && response.ok
  }

  /** The page `NuevaCategoria`, with the state its handlers change. */
  class NuevaCategoriaPage {
    var nombre: string
    var error: string
    var isSubmitting: bool
    var effects: seq<Effect>

    constructor ()
      ensures nombre == "" && error == "" && !isSubmitting && effects == []
    {
      nombre := "";
      error := "";
      isSubmitting := false;
      effects := [];
    }

    /** The input's and the submit button's `disabled`. */
    predicate ControlsDisabled()
      reads this
    {
      isSubmitting
    }

    /** The input's `onChange`. */
    method OnNombreChange(value: string)
      modifies this`nombre, this`error
      ensures nombre == value && error == ""
    {
      nombre := value;
      if error != "" {
        error := "";
      }
    }

    /** The `fetch` of the submit flow; it goes out only while the controls
        are disabled and no error is on screen. */
    method Send(request: Request)
      requires ControlsDisabled() && error == ""
      modifies this`effects
      ensures effects == old(effects) + [Fetch(request)]
    {
      effects := effects + [Fetch(request)];
    }

    /** `handleSubmit`, with the POST's outcome as input. A blank name sets
        the required message and sends nothing, leaving `isSubmitting`
        alone; otherwise the error is cleared and the POST of the trimmed
        name goes out while submitting, success navigates to the list and
        refreshes, failure shows the message, and submitting ends. */
    method HandleSubmit(response: Response)
      requires !ControlsDisabled()
      modifies this`error, this`isSubmitting, this`effects
      ensures !isSubmitting
      ensures Trim(nombre) == "" ==> error == NombreRequerido && effects == old(effects)
      ensures Trim(nombre) != "" ==>
        && error == SubmitError(response)
        && effects == old(effects) + [Fetch(Request(POST, CreateUrl, Some(CategoriaBody(Trim(nombre)))))]
             + (if Succeeded(response) then [Navigate(ListPath), Refresh] else [])
    {
      if Trim(nombre) == "" {
        error := NombreRequerido;
        return;
      }
      isSubmitting := true;
      error := "";
      Send(Request(POST, CreateUrl, Some(CategoriaBody(Trim(nombre)))));
      if response.NetworkFailure? {
        error := response.reason;
      } else if !response.ok {
        error := ServerError(response.body);
      } else {
        effects := effects + [Navigate(ListPath), Refresh];
      }
      isSubmitting := false;
    }
  }

  /** The form's state machine from idle: a blank name keeps it idle with
      the required message and no request; a filled one posts once and
      comes back idle, with no error exactly on success. */
  method SubmitFromIdle(value: string, response: Response) returns (page: NuevaCategoriaPage)
    ensures !page.isSubmitting && page.nombre == value
    ensures Trim(value) == "" ==> page.error == NombreRequerido && page.effects == []
    ensures Trim(value) != "" ==>
      && page.error == SubmitError(response)
      && page.effects == [Fetch(Request(POST, CreateUrl, Some(CategoriaBody(Trim(value)))))]
           + (if Succeeded(response) then [Navigate(ListPath), Refresh] else [])
    ensures Trim(value) != "" && response.Answered? && response.body.Json? ==> (page.error == "" <==> response.ok)
  {
    page := new NuevaCategoriaPage();
    page.OnNombreChange(value);
    page.HandleSubmit(response);
    if Trim(value) != "" && response.Answered? && response.body.Json? && !response.ok {
      JsonRejectionShowsMessage(response.body.message);
    }
  }
}
