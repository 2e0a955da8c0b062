/** The `useDiagnosticResults` hook: fetches a diagnostic from the results endpoint by its
    submission id and keeps the `data` / `loading` / `error` triple the results page renders. */
module UseDiagnosticResults {
  import opened Wrappers
  import opened JsText
  import opened JsValues

  /** The embedded training, as this hook declares it. */
  datatype RecommendedTraining = RecommendedTraining(nombreEntrenamiento: string, linkEntrenamiento: string)

  /** `DiagnosticData` as this hook declares it; the sixth score is `cambio_adaptabilidad`. */
  datatype DiagnosticData = DiagnosticData(
    email: string,
    claridadDireccion: real,
    dominioEmocional: real,
    energiaEnfoque: real,
    autoliderazgo: real,
    influenciaComunicacion: real,
    cambioAdaptabilidad: real,
    areaMasBaja: string,
    modelResponse: Option<string>,
    entrenamientosRecomendados: Option<RecommendedTraining>)

  /** The parsed answer: `response.json()` threw (or gave no object), or its `success` and its
      `data` (`None`: missing). */
  datatype ResultBody = Unparsable | Parsed(success: JsValue, data: Option<DiagnosticData>)

  /** What `fetch` did. */
  datatype HttpAnswer = FetchThrew | Http(ok: bool, body: ResultBody)

  /** The request the hook makes: a GET of the results endpoint with one query parameter. */
  datatype ResultsRequest = ResultsRequest(parameter: string, value: string)

  const SubmissionIdRequired := "Submission ID requerido"
  const LoadFailed := "Error al cargar los resultados del diagnóstico"

  /** The answer passes every check of the `try` block. */
  predicate Succeeds(a: HttpAnswer)
  {
    a.Http? && a.ok && a.body.Parsed? && Truthy(a.body.success)
  }

  class DiagnosticResultsHook {
    var data: Option<DiagnosticData>
    var loading: bool
    var error: Option<string>

    /** `useState(null)`, `useState(true)`, `useState(null)`. */
    constructor ()
      ensures data.None? && loading && error.None?
    {
      data := None;
      loading := true;
      error := None;
    }

    /** `fetchResults`. `answer` is what the fetch of the endpoint does; the result is the
        request made, `None` when none was. */
    method FetchResults(submissionId: Option<string>, answer: HttpAnswer) returns (request: Option<ResultsRequest>)
      modifies this
      ensures !loading
      ensures !Given(submissionId) ==>
        request.None? && error == Some(SubmissionIdRequired) && data == old(data)
      ensures Given(submissionId) ==> request == Some(ResultsRequest("submission_id", submissionId.value))
      ensures Given(submissionId) && Succeeds(answer) ==> data == answer.body.data && error == old(error)
      ensures Given(submissionId) && !Succeeds(answer) ==> data == old(data) && error == Some(LoadFailed)
    {
      if !Given(submissionId) {
        error := Some(SubmissionIdRequired);
        loading := false;
        return None;
      }
      request := Some(ResultsRequest("submission_id", submissionId.value));
      var threw := false;
      match answer {
        case FetchThrew =>
          threw := true;
        case Http(ok, body) =>
          if !ok {
            threw := true;
          } else if body.Unparsable? {
            threw := true;
          } else if !Truthy(body.success) {
            threw := true;
          } else {
            data := body.data;
          }
      }
      if threw {
        error := Some(LoadFailed);
      }
      loading := false;
    }
  }
}
