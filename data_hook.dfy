/** The dashboard's data hook (bike-projecto/hooks/use-battery-data.ts): three
    state cells that one fetch of `GET /api/bike-data/latest` updates. The
    fetch itself and the polling timer are outside; each call of
    `FetchData` receives the outcome of one fetch. */
module DataHook {
  import opened Telemetry

  /** The text in the `error` cell: `Error: <status>` for a bad status, the
      message of a thrown `Error`, or 'Error desconocido' for anything else
      thrown. */
  datatype ErrorText = StatusError(status: int) | Thrown(message: string) | UnknownError

  /** What `response.json()` yields: the API's `{ success, data }` object,
      or a body that does not parse (its parse error's message). */
  datatype Body = Json(success: bool, data: Option<Reading>) | Malformed(message: string)

  /** What was thrown: an `Error` with its message, or some other value. */
  datatype Exception = ErrorValue(message: string) | NonError

  /** How one fetch ends: a response with its status and body, or a
      rejection. */
  datatype FetchOutcome = Responded(status: int, body: Body) | Rejected(thrown: Exception)

  /** `response.ok`: a status in the 2xx range. */
  predicate Ok(status: int) {
    200 <= status <= 299
  }

  /** The message the catch block stores for a thrown value. */
  function Message(e: Exception): ErrorText {
    match e
    case ErrorValue(m) => Thrown(m)
    case NonError => UnknownError
  }

  /** The hook's state: `data`, `loading`, `error`. */
  class BatteryDataHook {
    var data: Option<Reading>
    var loading: bool
    var error: Option<ErrorText>

    /** `useState(null)`, `useState(true)`, `useState(null)`. */
    constructor ()
      ensures data == None && loading && error == None
    {
      data := None;
      loading := true;
      error := None;
    }

    /** `fetchData`, given how the fetch ended. A 404 means "no data yet"
        and clears both cells; any other failure records its message and
        keeps the data; a usable body replaces the data and clears the
        error; an OK body without data clears the data and keeps the error.
        Whatever happens, loading ends. */
    method FetchData(outcome: FetchOutcome)
      modifies this
      ensures !loading
      ensures outcome.Responded? && outcome.status == 404 ==> data == None && error == None
      ensures outcome.Responded? && !Ok(outcome.status) && outcome.status != 404 ==>
        data == old(data) && error == Some(StatusError(outcome.status))
      ensures outcome.Responded? && Ok(outcome.status) && outcome.body.Malformed? ==>
        data == old(data) && error == Some(Thrown(outcome.body.message))
      ensures outcome.Responded? && Ok(outcome.status) && outcome.body.Json? ==>
        if outcome.body.success && outcome.body.data.Some?
        then data == outcome.body.data && error == None
        else data == None && error == old(error)
      ensures outcome.Rejected? ==> data == old(data) && error == Some(Message(outcome.thrown))
    {
      var thrown: Option<ErrorText> := None;
      match outcome {
        case Rejected(e) =>
          thrown := Some(Message(e));
        case Responded(status, body) =>
          if !Ok(status) {
            if status == 404 {
              data := None;
              error := None;
              loading := false;
              return;
            }
            thrown := Some(StatusError(status));
          } else {
            match body {
              case Malformed(m) =>
                thrown := Some(Thrown(m));
              case Json(success, d) =>
                if success && d.Some? {
                  data := d;
                  error := None;
                } else {
                  data := None;
                }
            }
          }
      }
      if thrown.Some? {
        error := thrown;
      }
      loading := false;
    }
  }
}
