/** The `useTrainingData` hook: finds the training assigned to a submission in two lookups (the
    diagnostic row, then the catalogue entry it points at). */
module UseTrainingData {
  import opened Wrappers
  import opened JsText
  import opened Pillars
  import opened DiagnosticTables
  import opened ProcessDiagnostic

  /** `TrainingData` as this hook declares it. */
  datatype TrainingData = TrainingData(nombreEntrenamiento: string, descripcion: string)

  /** A lookup the hook issues, in order. */
  datatype Lookup = DiagnosticLookup(submissionId: string) | TrainingLookup(id: int)

  const SubmissionIdRequired := "Submission ID requerido"
  const LoadFailed := "Error al cargar los datos del entrenamiento"

  /** `.from('respuestas_diagnostico').eq('submission_id', id).single()`. */
  function DiagnosticOf(respuestas: seq<DiagnosticRow>, submissionId: string): (r: Option<DiagnosticRow>)
    ensures r.Some? ==> r.value in respuestas && r.value.submissionId == submissionId
  {
    Single(Filter(respuestas, (x: DiagnosticRow) => x.submissionId == submissionId))
  }

  /** `diagnostic?.id_entrenamiento` is truthy: present and not 0. */
  predicate AssignedTraining(id: Option<int>)
  {
    id.Some? && id.value != 0
  }

  /** The two-step join: the submission's single row, its truthy training id, the single
      catalogue entry with that id; `Descripcion || ''`. */
  function TrainingFor(respuestas: seq<DiagnosticRow>, entrenamientos: seq<TrainingRow>, submissionId: string)
    : (r: Option<TrainingData>)
    ensures r.Some? <==>
      DiagnosticOf(respuestas, submissionId).Some? &&
      AssignedTraining(DiagnosticOf(respuestas, submissionId).value.idEntrenamiento) &&
      TrainingWithId(entrenamientos, DiagnosticOf(respuestas, submissionId).value.idEntrenamiento.value).Some?
    ensures r.Some? ==> exists t | t in entrenamientos ::
      Some(t.id) == DiagnosticOf(respuestas, submissionId).value.idEntrenamiento &&
      r.value == TrainingData(t.nombreEntrenamiento, t.descripcion.GetOr(""))
  {
    match DiagnosticOf(respuestas, submissionId)
    case None => None
    case Some(d) =>
      if !AssignedTraining(d.idEntrenamiento) then None
      else match TrainingWithId(entrenamientos, d.idEntrenamiento.value)
        case None => None
        case Some(t) => Some(TrainingData(t.nombreEntrenamiento, t.descripcion.GetOr("")))
  }

  /** A training id of 0 is falsy and reads as no assigned training. */
  lemma TrainingIdZeroIsMissing(respuestas: seq<DiagnosticRow>, entrenamientos: seq<TrainingRow>, submissionId: string)
    requires DiagnosticOf(respuestas, submissionId).Some?
    requires DiagnosticOf(respuestas, submissionId).value.idEntrenamiento == Some(0)
    ensures TrainingFor(respuestas, entrenamientos, submissionId).None?
  {
  }

  /** End to end: the row `process-diagnostic` appends under a fresh submission id leads to the
      training it recorded, when catalogue ids are distinct and not 0. */
  lemma StoredRowLeadsToItsTraining(respuestas: seq<DiagnosticRow>, entrenamientos: seq<TrainingRow>, v: ValidSubmission,
                                    t: TrainingRow, submissionId: string, recordId: int)
    requires DistinctIds(entrenamientos) && t in entrenamientos && t.id != 0
    requires forall k :: 0 <= k < |respuestas| ==> respuestas[k].submissionId != submissionId
    ensures TrainingFor(respuestas + [InsertedRow(v, t, submissionId, recordId)], entrenamientos, submissionId) ==
      Some(TrainingData(t.nombreEntrenamiento, t.descripcion.GetOr("")))
  {
    var row := InsertedRow(v, t, submissionId, recordId);
    var all := respuestas + [row];
    assert all[|respuestas|] == row;
    FilterSingleton(all, (x: DiagnosticRow) => x.submissionId == submissionId, |respuestas|);
    TrainingWithOwnId(entrenamientos, t);
  }

  class TrainingDataHook {
    var data: Option<TrainingData>
    var loading: bool
    var error: Option<string>

    constructor ()
      ensures data.None? && loading && error.None?
    {
      data := None;
      loading := true;
      error := None;
    }

    /** `fetchTraining` against the two tables; the result lists the lookups issued. */
    method FetchTraining(submissionId: Option<string>, respuestas: seq<DiagnosticRow>, entrenamientos: seq<TrainingRow>)
      returns (lookups: seq<Lookup>)
      modifies this
      ensures !loading
      ensures !Given(submissionId) ==>
        lookups == [] && error == Some(SubmissionIdRequired) && data == old(data)
      ensures Given(submissionId) ==> |lookups| >= 1 && lookups[0] == DiagnosticLookup(submissionId.value)
      ensures (Given(submissionId) &&
               (DiagnosticOf(respuestas, submissionId.value).None? ||
                !AssignedTraining(DiagnosticOf(respuestas, submissionId.value).value.idEntrenamiento))) ==>
        lookups == [DiagnosticLookup(submissionId.value)]
      ensures (Given(submissionId) && DiagnosticOf(respuestas, submissionId.value).Some? &&
               AssignedTraining(DiagnosticOf(respuestas, submissionId.value).value.idEntrenamiento)) ==>
        lookups == [DiagnosticLookup(submissionId.value),
                    TrainingLookup(DiagnosticOf(respuestas, submissionId.value).value.idEntrenamiento.value)]
      ensures Given(submissionId) && TrainingFor(respuestas, entrenamientos, submissionId.value).Some? ==>
        data == TrainingFor(respuestas, entrenamientos, submissionId.value) && error == old(error)
      ensures Given(submissionId) && TrainingFor(respuestas, entrenamientos, submissionId.value).None? ==>
        data == old(data) && error == Some(LoadFailed)
    {
      if !Given(submissionId) {
        error := Some(SubmissionIdRequired);
        loading := false;
        return [];
      }
      var sid := submissionId.value;
      lookups := [DiagnosticLookup(sid)];
      var diagnostic := DiagnosticOf(respuestas, sid);
      if diagnostic.None? || !AssignedTraining(diagnostic.value.idEntrenamiento) {
        error := Some(LoadFailed);
        loading := false;
        return;
      }
      var id := diagnostic.value.idEntrenamiento.value;
      lookups := lookups + [TrainingLookup(id)];
      var training := TrainingWithId(entrenamientos, id);
      if training.None? {
        error := Some(LoadFailed);
        loading := false;
        return;
      }
      data := Some(TrainingData(training.value.nombreEntrenamiento, training.value.descripcion.GetOr("")));
      loading := false;
    }
  }
}
