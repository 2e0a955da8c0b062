/** The `get-diagnostic-results` edge function: checks the two query parameters, then looks up the
    one stored diagnostic with that exact e-mail and submission id, joined to its training. */
module GetDiagnosticResults {
  import opened Wrappers
  import opened JsText
  import opened EmailShape
  import opened Pillars
  import opened DiagnosticTables
  import opened ProcessDiagnostic

  /** `url.searchParams.get(...)` of `email` and `submissionId`; `None` is an absent parameter. */
  datatype Params = Params(email: Option<string>, submissionId: Option<string>)

  /** A request, or one whose handling throws before the lookup (an unparsable URL, say). */
  datatype Request = Query(params: Params) | Broken

  /** The embedded `entrenamientos_recomendados(nombre_entrenamiento, link_entrenamiento)`. */
  datatype EmbeddedTraining = EmbeddedTraining(nombreEntrenamiento: string, linkEntrenamiento: string)

  /** The nine fields of `data` in a successful answer. */
  datatype ResultsData = ResultsData(
    email: string,
    claridadDireccion: real,
    dominioEmocional: real,
    energiaEnfoque: real,
    autoliderazgo: real,
    influenciaComunicacion: real,
    conexionProposito: real,
    areaMasBaja: string,
    entrenamientosRecomendados: EmbeddedTraining)

  /** `{ success: true, data }` or `{ error }`. */
  datatype Body = Data(data: ResultsData) | Error(message: string)

  datatype Reply = Reply(status: int, body: Body)

  const ParamsRequired := "Email and submissionId are required"
  const NotFound := "Diagnostic results not found"
  const InternalError := "Internal server error"

  /** The training an `id_entrenamiento` points at; `id` is the catalogue's primary key. */
  function TrainingById(trainings: seq<TrainingRow>, id: Option<int>): (r: Option<TrainingRow>)
    ensures r.Some? ==> id.Some? && r.value in trainings && r.value.id == id.value
  {
    match id
    case None => None
    case Some(k) => TrainingWithId(trainings, k)
  }

  /** A row the query selects: both columns equal verbatim, and the inner join finds a training. */
  predicate Selected(r: DiagnosticRow, trainings: seq<TrainingRow>, email: string, submissionId: string)
  {
    r.email == email && r.submissionId == submissionId && TrainingById(trainings, r.idEntrenamiento).Some?
  }

  /** The rows the query chain selects, in table order. */
  function Joined(rows: seq<DiagnosticRow>, trainings: seq<TrainingRow>, email: string, submissionId: string)
    : (r: seq<DiagnosticRow>)
    ensures forall x :: x in r <==> x in rows && Selected(x, trainings, email, submissionId)
  {
    Filter(rows, (x: DiagnosticRow) => Selected(x, trainings, email, submissionId))
  }

  /** The answer's `data`, copied field by field from the row and its training. */
  function Project(r: DiagnosticRow, t: TrainingRow): (d: ResultsData)
    ensures d.email == r.email && d.areaMasBaja == r.areaMasBaja
    ensures Scores(d.claridadDireccion, d.dominioEmocional, d.energiaEnfoque, d.autoliderazgo,
                   d.influenciaComunicacion, d.conexionProposito) == r.scores
    ensures d.entrenamientosRecomendados == EmbeddedTraining(t.nombreEntrenamiento, t.linkEntrenamiento)
  {
    ResultsData(r.email, r.scores.claridadDireccion, r.scores.dominioEmocional, r.scores.energiaEnfoque,
                r.scores.autoliderazgo, r.scores.influenciaComunicacion, r.scores.conexionProposito,
                r.areaMasBaja, EmbeddedTraining(t.nombreEntrenamiento, t.linkEntrenamiento))
  }

  /** Both parameters are truthy and the e-mail has the accepted shape. */
  predicate ParamsAccepted(p: Params)
  {
    Given(p.email) && Given(p.submissionId) && IsEmail(p.email.value)
  }

  /** The handler. `lookupFails` is a store error on the query itself. */
  function GetDiagnosticResults(req: Request, rows: seq<DiagnosticRow>, trainings: seq<TrainingRow>, lookupFails: bool)
    : (reply: Reply)
    ensures req.Broken? ==> reply == Reply(500, Error(InternalError))
    ensures req.Query? && !(Given(req.params.email) && Given(req.params.submissionId)) ==>
      reply == Reply(400, Error(ParamsRequired))
    ensures (req.Query? && Given(req.params.email) && Given(req.params.submissionId) &&
             !IsEmail(req.params.email.value)) ==> reply == Reply(400, Error(InvalidEmail))
    ensures reply.status == 200 <==>
      req.Query? && ParamsAccepted(req.params) && !lookupFails &&
      |Joined(rows, trainings, req.params.email.value, req.params.submissionId.value)| == 1
    ensures (req.Query? && ParamsAccepted(req.params) && reply.status != 200) ==>
      reply == Reply(404, Error(NotFound))
    ensures reply.status == 200 <==> reply.body.Data?
    ensures reply.status == 200 ==>
      reply.body.data.email == req.params.email.value &&
      exists r | r in rows :: r.submissionId == req.params.submissionId.value &&
        Selected(r, trainings, req.params.email.value, req.params.submissionId.value) &&
        reply.body.data == Project(r, TrainingById(trainings, r.idEntrenamiento).value)
  {
    match req
    case Broken => Reply(500, Error(InternalError))
    case Query(p) =>
      if !Given(p.email) || !Given(p.submissionId) then Reply(400, Error(ParamsRequired))
      else if !IsEmail(p.email.value) then Reply(400, Error(InvalidEmail))
      else
        var found := Single(Joined(rows, trainings, p.email.value, p.submissionId.value));
        if lookupFails || found.None? then Reply(404, Error(NotFound))
        else
          var r := found.value;
          assert r in Joined(rows, trainings, p.email.value, p.submissionId.value);
          Reply(200, Data(Project(r, TrainingById(trainings, r.idEntrenamiento).value)))
  }

  /** The query for an e-mail and a submission id. */
  function Ask(email: string, submissionId: string): Request
  {
    Query(Params(Some(email), Some(submissionId)))
  }

  /** The one row with that e-mail and id, with a training, is answered with its data. */
  lemma FindsTheOnlyMatch(rows: seq<DiagnosticRow>, trainings: seq<TrainingRow>, i: nat, t: TrainingRow)
    requires i < |rows| && IsEmail(rows[i].email) && rows[i].submissionId != ""
    requires TrainingById(trainings, rows[i].idEntrenamiento) == Some(t)
    requires forall k :: 0 <= k < |rows| && k != i ==>
      rows[k].email != rows[i].email || rows[k].submissionId != rows[i].submissionId
    ensures GetDiagnosticResults(Ask(rows[i].email, rows[i].submissionId), rows, trainings, false) ==
      Reply(200, Data(Project(rows[i], t)))
  {
    var e, s := rows[i].email, rows[i].submissionId;
    FilterSingleton(rows, (x: DiagnosticRow) => Selected(x, trainings, e, s), i);
  }

  /** Two stored rows with the same e-mail and id, both joined, make `.single()` fail. */
  lemma DuplicatesAreNotFound(rows: seq<DiagnosticRow>, trainings: seq<TrainingRow>, email: string, submissionId: string, i: nat, j: nat)
    requires IsEmail(email) && submissionId != ""
    requires i < j < |rows|
    requires Selected(rows[i], trainings, email, submissionId) && Selected(rows[j], trainings, email, submissionId)
    ensures GetDiagnosticResults(Ask(email, submissionId), rows, trainings, false) == Reply(404, Error(NotFound))
  {
    JoinedKeepsTwo(rows, trainings, email, submissionId, i, j);
  }

  /** Two selected rows leave at least two rows after the filter. */
  lemma {:induction false} JoinedKeepsTwo(rows: seq<DiagnosticRow>, trainings: seq<TrainingRow>, email: string, submissionId: string, i: nat, j: nat)
    requires i < j < |rows|
    requires Selected(rows[i], trainings, email, submissionId) && Selected(rows[j], trainings, email, submissionId)
    ensures |Joined(rows, trainings, email, submissionId)| >= 2
  {
    var rest := Joined(rows[1..], trainings, email, submissionId);
    if i == 0 {
      assert rows[j] == rows[1..][j - 1];
      assert rows[j] in rest;
    } else {
      JoinedKeepsTwo(rows[1..], trainings, email, submissionId, i - 1, j - 1);
    }
  }

  /** A matching row without a catalogue training is dropped by the inner join. */
  lemma UnjoinedRowIsNotFound(rows: seq<DiagnosticRow>, trainings: seq<TrainingRow>, i: nat)
    requires i < |rows| && IsEmail(rows[i].email) && rows[i].submissionId != ""
    requires TrainingById(trainings, rows[i].idEntrenamiento).None?
    requires forall k :: 0 <= k < |rows| && k != i ==>
      rows[k].email != rows[i].email || rows[k].submissionId != rows[i].submissionId
    ensures GetDiagnosticResults(Ask(rows[i].email, rows[i].submissionId), rows, trainings, false) ==
      Reply(404, Error(NotFound))
  {
    var e, s := rows[i].email, rows[i].submissionId;
    FilterNone(rows, (x: DiagnosticRow) => Selected(x, trainings, e, s));
  }

  /** The query e-mail is compared as given: when the stored addresses are in lower case, as
      `process-diagnostic` writes them, an address with an upper-case letter finds nothing. */
  lemma QueryEmailIsNotLowercased(rows: seq<DiagnosticRow>, trainings: seq<TrainingRow>, email: string, submissionId: string, i: nat)
    requires i < |email| && 'A' <= email[i] <= 'Z'
    requires forall k :: 0 <= k < |rows| ==> rows[k].email == ToLowerAscii(rows[k].email)
    ensures GetDiagnosticResults(Ask(email, submissionId), rows, trainings, false).status != 200
  {
    forall k | 0 <= k < |rows| ensures !Selected(rows[k], trainings, email, submissionId) {
      assert ToLowerAscii(rows[k].email) == rows[k].email;
    }
    FilterNone(rows, (x: DiagnosticRow) => Selected(x, trainings, email, submissionId));
  }

  /** A row appended under a submission id no earlier row has is the one the query finds. */
  lemma AppendedRowIsFound(rows: seq<DiagnosticRow>, row: DiagnosticRow, trainings: seq<TrainingRow>, t: TrainingRow)
    requires IsEmail(row.email) && row.submissionId != ""
    requires TrainingById(trainings, row.idEntrenamiento) == Some(t)
    requires forall k :: 0 <= k < |rows| ==> rows[k].submissionId != row.submissionId
    ensures GetDiagnosticResults(Ask(row.email, row.submissionId), rows + [row], trainings, false) ==
      Reply(200, Data(Project(row, t)))
  {
    var all := rows + [row];
    assert all[|rows|] == row;
    FindsTheOnlyMatch(all, trainings, |rows|, t);
  }

  /** End to end: a submission `process-diagnostic` stores under a fresh submission id is found
      again with the stored (lower-cased) e-mail and that id, with the training it was given. */
  lemma StoredSubmissionIsFound(rows: seq<DiagnosticRow>, trainings: seq<TrainingRow>, sub: Submission, t: TrainingRow,
                                submissionId: string, recordId: int)
    requires Validate(sub).Success? && DistinctIds(trainings)
    requires t in trainings && t.area == Key(Weakest(Validate(sub).value))
    requires submissionId != ""
    requires forall k :: 0 <= k < |rows| ==> rows[k].submissionId != submissionId
    ensures var row := InsertedRow(Validate(sub).value, t, submissionId, recordId);
      GetDiagnosticResults(Ask(ToLowerAscii(sub.email.value), submissionId), rows + [row], trainings, false) ==
      Reply(200, Data(Project(row, t)))
  {
    var row := InsertedRow(Validate(sub).value, t, submissionId, recordId);
    InsertedRowNormalised(sub, t, trainings, submissionId, recordId);
    TrainingWithOwnId(trainings, t);
    RowFoundUnder(rows, row, trainings, t, ToLowerAscii(sub.email.value), submissionId);
  }

  /** `AppendedRowIsFound`, asked with the row's own e-mail and submission id given separately. */
  lemma RowFoundUnder(rows: seq<DiagnosticRow>, row: DiagnosticRow, trainings: seq<TrainingRow>, t: TrainingRow,
                      email: string, submissionId: string)
    requires row.email == email && row.submissionId == submissionId
    requires IsEmail(email) && submissionId != ""
    requires row.idEntrenamiento == Some(t.id) && TrainingById(trainings, Some(t.id)) == Some(t)
    requires forall k :: 0 <= k < |rows| ==> rows[k].submissionId != submissionId
    ensures GetDiagnosticResults(Ask(email, submissionId), rows + [row], trainings, false) ==
      Reply(200, Data(Project(row, t)))
  {
    AppendedRowIsFound(rows, row, trainings, t);
  }
}
