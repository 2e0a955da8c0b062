/** The `process-diagnostic` edge function: validates a submitted diagnostic, picks the weakest
    pillar, looks up its training and inserts one row into `respuestas_diagnostico`. */
module ProcessDiagnostic {
  import opened Wrappers
  import opened JsText
  import opened EmailShape
  import opened Pillars
  import opened DiagnosticTables

  /** A score field of the request body, as `=== undefined` and `isNaN(Number(x))` see it. */
  datatype ScoreField = Undefined | NotANumber | Number(value: real)

  /** The six score fields as they arrive, before any check. */
  datatype RawScores = RawScores(
    claridadDireccion: ScoreField,
    dominioEmocional: ScoreField,
    energiaEnfoque: ScoreField,
    autoliderazgo: ScoreField,
    influenciaComunicacion: ScoreField,
    conexionProposito: ScoreField)

  function RawScoreOf(r: RawScores, p: Pillar): ScoreField
  {
    match p
    case ClaridadDireccion => r.claridadDireccion
    case DominioEmocional => r.dominioEmocional
    case EnergiaEnfoque => r.energiaEnfoque
    case Autoliderazgo => r.autoliderazgo
    case InfluenciaComunicacion => r.influenciaComunicacion
    case ConexionProposito => r.conexionProposito
  }

  /** The fields the handler destructures from the JSON body; `None` is an absent field. */
  datatype Submission = Submission(
    nombre: Option<string>,
    email: Option<string>,
    telefono: Option<string>,
    scores: RawScores)

  /** A request whose body parses as JSON, or one whose `req.json()` throws with `message`. */
  datatype Request = Body(submission: Submission) | Unreadable(message: string)

  const MissingFields := "Missing required fields"
  const InvalidEmail := "Invalid email format"
  const InvalidPhone := "Invalid phone format"
  const InvalidScores := "Invalid score values. Scores must be between 0 and 10"
  const NoTrainingPrefix := "No training found for area: "

  /** `nombre` and `email` are truthy and no score field is `undefined`. */
  predicate HasRequiredFields(sub: Submission)
  {
    Given(sub.nombre) && Given(sub.email) &&
    forall p | p in Order :: !RawScoreOf(sub.scores, p).Undefined?
  }

  /** A character of the class `[\d\s\-\+\(\)]`. */
  predicate IsPhoneChar(c: char)
  {
    '0' <= c <= '9' || IsWhitespace(c) || c == '-' || c == '+' || c == '(' || c == ')'
  }

  /** `/^[\d\s\-\+\(\)]+$/.test(t)`. */
  predicate IsPhone(t: string)
  {
    |t| > 0 && forall i :: 0 <= i < |t| ==> IsPhoneChar(t[i])
  }

  /** The phone is only checked when it is truthy. */
  predicate PhoneAcceptable(t: Option<string>)
  {
    Given(t) ==> IsPhone(t.value)
  }

  /** Not rejected by `isNaN(Number(x)) || Number(x) < 0 || Number(x) > 10`. */
  predicate ScoreInRange(f: ScoreField)
  {
    f.Number? && 0.0 <= f.value <= 10.0
  }

  /** `!scoreValues.some(...)`: no score is rejected. */
  predicate AllScoresInRange(r: RawScores)
  {
    forall p | p in Order :: ScoreInRange(RawScoreOf(r, p))
  }

  /** A submission that passed every check, with its scores as numbers. */
  datatype ValidSubmission = ValidSubmission(
    nombre: string,
    email: string,
    telefono: Option<string>,
    scores: Scores)

  /** Each of the six fields passes when the list of them does. */
  lemma EachScoreInRange(r: RawScores)
    requires AllScoresInRange(r)
    ensures forall p :: ScoreInRange(RawScoreOf(r, p))
  {
    forall p ensures ScoreInRange(RawScoreOf(r, p)) {
      assert Order[Position(p)] == p;
    }
  }

  /** `Number(x)` of each field, once all six are in range. */
  function Numbers(r: RawScores): (s: Scores)
    requires AllScoresInRange(r)
    ensures forall p :: RawScoreOf(r, p) == Number(ScoreOf(s, p)) && 0.0 <= ScoreOf(s, p) <= 10.0
  {
    EachScoreInRange(r);
    Scores(RawScoreOf(r, ClaridadDireccion).value, RawScoreOf(r, DominioEmocional).value,
           RawScoreOf(r, EnergiaEnfoque).value, RawScoreOf(r, Autoliderazgo).value,
           RawScoreOf(r, InfluenciaComunicacion).value, RawScoreOf(r, ConexionProposito).value)
  }

  /** The checks in the order the handler makes them; the first that fails decides the error. */
  function Validate(sub: Submission): (r: Result<ValidSubmission>)
    ensures !HasRequiredFields(sub) ==> r == Failure(MissingFields)
    ensures HasRequiredFields(sub) && !IsEmail(sub.email.value) ==> r == Failure(InvalidEmail)
    ensures (HasRequiredFields(sub) && IsEmail(sub.email.value) && !PhoneAcceptable(sub.telefono))
      ==> r == Failure(InvalidPhone)
    ensures (HasRequiredFields(sub) && IsEmail(sub.email.value) && PhoneAcceptable(sub.telefono) &&
             !AllScoresInRange(sub.scores)) ==> r == Failure(InvalidScores)
    ensures r.Failure? ==> r.error != ""
    ensures r.Success? <==>
      HasRequiredFields(sub) && IsEmail(sub.email.value) && PhoneAcceptable(sub.telefono) &&
      AllScoresInRange(sub.scores)
    ensures r.Success? ==>
      r.value.nombre == sub.nombre.value && r.value.email == sub.email.value &&
      r.value.telefono == sub.telefono
    ensures r.Success? ==> forall p ::
      0.0 <= ScoreOf(r.value.scores, p) <= 10.0 &&
      RawScoreOf(sub.scores, p) == Number(ScoreOf(r.value.scores, p))
  {
    if !HasRequiredFields(sub) then Failure(MissingFields)
    else if !IsEmail(sub.email.value) then Failure(InvalidEmail)
    else if !PhoneAcceptable(sub.telefono) then Failure(InvalidPhone)
    else if !AllScoresInRange(sub.scores) then Failure(InvalidScores)
    else
      Success(ValidSubmission(sub.nombre.value, sub.email.value, sub.telefono, Numbers(sub.scores)))
  }

  /** `email.toLowerCase().trim()` (letters other than ASCII keep their case). */
  function NormalizeEmail(e: string): string
  {
    Trim(ToLowerAscii(e))
  }

  /** `telefono?.trim() || null`: absent and blank phones are stored as null. */
  function NormalizePhone(t: Option<string>): (r: Option<string>)
    ensures r.None? <==> t.None? || AllWhitespace(t.value)
    ensures r.Some? ==> r.value == Trim(t.value) && r.value != ""
  {
    match t
    case None => None
    case Some(v) =>
      TrimEmptyIffBlank(v);
      var u := Trim(v);
      if u == "" then None else Some(u)
  }

  /** The catalogue row at `i` is the only one whose `area` is the pillar's key. */
  predicate OnlyTrainingFor(trainings: seq<TrainingRow>, area: Pillar, i: int)
  {
    0 <= i < |trainings| && trainings[i].area == Key(area) &&
    forall j :: 0 <= j < |trainings| && j != i ==> trainings[j].area != Key(area)
  }

  /** The one training whose `area` is the pillar's key, as `.eq('area', ...).single()` finds it:
      found exactly when the catalogue has one training of that area, and then it is that one. */
  function FindTraining(trainings: seq<TrainingRow>, area: Pillar): (r: Option<TrainingRow>)
    ensures r.Some? ==> r.value in trainings && r.value.area == Key(area)
    ensures r.Some? <==> exists i :: OnlyTrainingFor(trainings, area, i)
    ensures forall i :: OnlyTrainingFor(trainings, area, i) ==> r == Some(trainings[i])
  {
    var keep := (t: TrainingRow) => t.area == Key(area);
    SingleFilter(trainings, keep);
    assert forall i :: OnlyPassAt(trainings, keep, i) <==> OnlyTrainingFor(trainings, area, i);
    Single(Filter(trainings, keep))
  }

  /** The pillar the handler recommends for: the first of the lowest scores. */
  function Weakest(v: ValidSubmission): Pillar
  {
    AreaWithLowestScore(v.scores)
  }

  /** The row the handler inserts for a validated submission. */
  function InsertedRow(v: ValidSubmission, t: TrainingRow, submissionId: string, recordId: int): DiagnosticRow
  {
    DiagnosticRow(recordId, Trim(v.nombre), NormalizeEmail(v.email), NormalizePhone(v.telefono),
                  submissionId, v.scores, Key(Weakest(v)), Some(t.id), None)
  }

  /** `error.message || 'Internal server error'`. */
  function ErrorMessage(m: string): (r: string)
    ensures r != ""
    ensures m != "" ==> r == m
  {
    OrElse(m, "Internal server error")
  }

  /** The `resultsUrl` of the answer, by its two query parameters (the site prefix comes from
      the environment). */
  datatype ResultsLink = ResultsLink(email: string, submissionId: string)

  /** The handler's answer: status 200 with the created record, or status 500 with a message. */
  datatype Response =
    | Created(recordId: int, resultsUrl: ResultsLink, areaToImprove: string, recommendedTraining: string)
    | Failed(error: string)
  {
    function Status(): int
    {
      if Created? then 200 else 500
    }
  }

  /** A stored row as the handler leaves it: an address of the accepted shape, scores in
      [0, 10], the argmin as its area and a catalogue training of that area. */
  ghost predicate WellFormedRow(r: DiagnosticRow, trainings: seq<TrainingRow>)
  {
    IsEmail(r.email) &&
    (forall p :: 0.0 <= ScoreOf(r.scores, p) <= 10.0) &&
    r.areaMasBaja == Key(AreaWithLowestScore(r.scores)) &&
    r.idEntrenamiento.Some? &&
    exists t | t in trainings :: t.id == r.idEntrenamiento.value && t.area == r.areaMasBaja
  }

  /** The stored address is the submitted one in lower case, and still of the accepted shape. */
  lemma NormalizedEmailIsLowerCaseAddress(e: string)
    requires IsEmail(e)
    ensures NormalizeEmail(e) == ToLowerAscii(e)
    ensures IsEmail(NormalizeEmail(e))
  {
    LowerKeepsEmail(e);
    EmailIsTrimmed(ToLowerAscii(e));
  }

  /** A row built from an accepted address, in-range scores and a training of the weakest
      pillar has the shape of a stored row. */
  lemma InsertedRowWellFormed(v: ValidSubmission, t: TrainingRow, trainings: seq<TrainingRow>, submissionId: string, recordId: int)
    requires IsEmail(v.email) && forall p :: 0.0 <= ScoreOf(v.scores, p) <= 10.0
    requires t in trainings && t.area == Key(Weakest(v))
    ensures WellFormedRow(InsertedRow(v, t, submissionId, recordId), trainings)
  {
    NormalizedEmailIsLowerCaseAddress(v.email);
  }

  /** What a validated submission is stored as: the normalised strings, the checked scores, the
      area the argmin chooses and the id of the training found for it. */
  lemma InsertedRowNormalised(sub: Submission, t: TrainingRow, trainings: seq<TrainingRow>, submissionId: string, recordId: int)
    requires Validate(sub).Success?
    requires t in trainings && t.area == Key(Weakest(Validate(sub).value))
    ensures InsertedRow(Validate(sub).value, t, submissionId, recordId).email == ToLowerAscii(sub.email.value)
    ensures InsertedRow(Validate(sub).value, t, submissionId, recordId).nombre == Trim(sub.nombre.value)
    ensures InsertedRow(Validate(sub).value, t, submissionId, recordId).telefono.None? <==>
      sub.telefono.None? || AllWhitespace(sub.telefono.value)
    ensures InsertedRow(Validate(sub).value, t, submissionId, recordId).idEntrenamiento == Some(t.id)
    ensures WellFormedRow(InsertedRow(Validate(sub).value, t, submissionId, recordId), trainings)
  {
    var v := Validate(sub).value;
    NormalizedEmailIsLowerCaseAddress(v.email);
    InsertedRowWellFormed(v, t, trainings, submissionId, recordId);
  }

  /** All six scores at the bounds 0 and 10 pass validation. */
  lemma BoundaryScoresAccepted(nombre: string, email: string)
    requires nombre != "" && IsEmail(email)
    ensures Validate(Submission(Some(nombre), Some(email), None,
      RawScores(Number(0.0), Number(10.0), Number(0.0), Number(10.0), Number(0.0), Number(10.0)))).Success?
    ensures Validate(Submission(Some(nombre), Some(email), None,
      RawScores(Number(0.0), Number(0.0), Number(0.0), Number(0.0), Number(0.0), Number(0.0)))).Success?
  {
  }

  /** A score of 11 or of -1 is rejected, with the score message. */
  lemma OutOfRangeScoresRejected(nombre: string, email: string)
    requires nombre != "" && IsEmail(email)
    ensures Validate(Submission(Some(nombre), Some(email), None,
      RawScores(Number(5.0), Number(11.0), Number(5.0), Number(5.0), Number(5.0), Number(5.0)))) == Failure(InvalidScores)
    ensures Validate(Submission(Some(nombre), Some(email), None,
      RawScores(Number(5.0), Number(5.0), Number(5.0), Number(5.0), Number(5.0), Number(-1.0)))) == Failure(InvalidScores)
  {
    assert ConexionProposito in Order;
    assert DominioEmocional in Order;
  }

  /** The persisted store: the rows of `respuestas_diagnostico` and the training catalogue. */
  class DiagnosticStore {
    var respuestas: seq<DiagnosticRow>
    const entrenamientos: seq<TrainingRow>

    /** Every stored row has the shape the handler gives it: a valid address, scores in range,
        the argmin as its area and a training of that area. */
    ghost predicate Consistent()
      reads this
    {
      forall r | r in respuestas :: WellFormedRow(r, entrenamientos)
    }

    constructor (trainings: seq<TrainingRow>)
      ensures entrenamientos == trainings && respuestas == [] && Consistent()
    {
      entrenamientos := trainings;
      respuestas := [];
    }

    /** `insert([...])` of one row that has the handler's shape. */
    method Insert(row: DiagnosticRow)
      requires WellFormedRow(row, entrenamientos)
      modifies this
      ensures respuestas == old(respuestas) + [row]
      ensures old(Consistent()) ==> Consistent()
    {
      respuestas := respuestas + [row];
    }

    /** Handles one POST. The submission id and the store-assigned record id are fresh values
        supplied by the caller, as is the outcome of the insert (`None`: it succeeds). */
    method ProcessDiagnostic(req: Request, submissionId: string, recordId: int, insertError: Option<string>)
      returns (resp: Response)
      modifies this
      ensures old(Consistent()) ==> Consistent()
      ensures resp.Failed? <==> respuestas == old(respuestas)
      ensures req.Unreadable? ==> resp == Failed(ErrorMessage(req.message))
      ensures req.Body? && Validate(req.submission).Failure? ==>
        resp == Failed(Validate(req.submission).error)
      ensures (req.Body? && Validate(req.submission).Success? &&
               FindTraining(entrenamientos, Weakest(Validate(req.submission).value)).None?) ==>
        resp == Failed(NoTrainingPrefix + Key(Weakest(Validate(req.submission).value)))
      ensures (req.Body? && Validate(req.submission).Success? &&
               FindTraining(entrenamientos, Weakest(Validate(req.submission).value)).Some? && insertError.Some?) ==>
        resp == Failed(ErrorMessage(insertError.value))
      ensures (req.Body? && Validate(req.submission).Success? &&
               FindTraining(entrenamientos, Weakest(Validate(req.submission).value)).Some? && insertError.None?) ==>
        var v := Validate(req.submission).value;
        var t := FindTraining(entrenamientos, Weakest(v)).value;
        respuestas == old(respuestas) + [InsertedRow(v, t, submissionId, recordId)] &&
        resp == Created(recordId, ResultsLink(NormalizeEmail(v.email), submissionId), Key(Weakest(v)), t.nombreEntrenamiento)
    {
      if req.Unreadable? {
        resp := Failed(ErrorMessage(req.message));
      } else {
        var checked := Validate(req.submission);
        if checked.Failure? {
          resp := Failed(ErrorMessage(checked.error));
        } else {
          var v := checked.value;
          var area := Weakest(v);
          var training := FindTraining(entrenamientos, area);
          if training.None? {
            var message := NoTrainingPrefix + Key(area);
            assert message[0] == 'N';
            resp := Failed(ErrorMessage(message));
          } else if insertError.Some? {
            resp := Failed(ErrorMessage(insertError.value));
          } else {
            var row := InsertedRow(v, training.value, submissionId, recordId);
            InsertedRowWellFormed(v, training.value, entrenamientos, submissionId, recordId);
            Insert(row);
            resp := Created(recordId, ResultsLink(row.email, submissionId), Key(area), training.value.nombreEntrenamiento);
          }
        }
      }
    }
  }
}
