/** The "processing" page: while the diagnostic is being written it polls for the stored row,
    rotates five phrases, counts attempts up to twelve and then shows a timeout message. */
module ProcessingPage {
  import opened Wrappers
  import opened JsText

  const Phrases: seq<string> := [
    "Escoger significa renunciar.",
    "La velocidad viene de la alineación, no del esfuerzo.",
    "Todo lo que existe, viene de un pensamiento.",
    "No se cambia lo que no se observa.",
    "Si quieres que algo suceda, debes liderarlo."
  ]

  const MaxAttempts := 12

  /** What `.select('id').eq('submission_id', id).single()` gives: whether `data` and `error`
      are set, or a throw. */
  datatype QueryAnswer = Answer(hasData: bool, hasError: bool) | QueryThrew

  predicate Found(a: QueryAnswer)
  {
    a.Answer? && a.hasData && !a.hasError
  }

  /** The page state `checkForDiagnosticResult` reads and writes, and where it navigated. */
  datatype PollState = PollState(phrase: nat, attempts: nat, isTimeout: bool, navigatedTo: Option<string>)

  const Initial := PollState(0, 0, false, None)

  const ResultsPrefix := "/resultados?submission_id="

  /** The results page for a submission: the prefix, then the id as it is. */
  function ResultsPath(submissionId: string): (path: string)
    ensures |path| == |ResultsPrefix| + |submissionId|
    ensures path[..|ResultsPrefix|] == ResultsPrefix && path[|ResultsPrefix|..] == submissionId
  {
    ResultsPrefix + submissionId
  }

  /** One tick's effect and whether it queried the table. */
  datatype Tick = Tick(next: PollState, queried: bool)

  /** One call of `checkForDiagnosticResult`. `observed` is the attempt count the calling closure
      sees; the updater functions work on the current state `s`. */
  function Step(s: PollState, submissionId: Option<string>, observed: nat, answer: QueryAnswer): (t: Tick)
    ensures observed >= MaxAttempts ==> t == Tick(s.(isTimeout := true), false)
    ensures !Given(submissionId) && observed < MaxAttempts ==> t == Tick(s, false)
    ensures t.queried <==> Given(submissionId) && observed < MaxAttempts
    ensures t.queried && Found(answer) ==>
      t.next == s.(navigatedTo := Some(ResultsPath(submissionId.value)))
    ensures t.queried && !Found(answer) ==>
      t.next == s.(phrase := (s.phrase + 1) % |Phrases|, attempts := s.attempts + 1)
  {
    if !Given(submissionId) || observed >= MaxAttempts then
      Tick(if observed >= MaxAttempts then s.(isTimeout := true) else s, false)
    else if Found(answer) then
      Tick(s.(navigatedTo := Some(ResultsPath(submissionId.value))), true)
    else
      Tick(s.(phrase := (s.phrase + 1) % |Phrases|, attempts := s.attempts + 1), true)
  }

  /** A miss and a thrown query change the state in the same way. */
  lemma MissAndThrowAgree(s: PollState, submissionId: Option<string>, observed: nat, hasData: bool)
    requires !hasData
    ensures Step(s, submissionId, observed, Answer(hasData, false)) == Step(s, submissionId, observed, QueryThrew)
    ensures Step(s, submissionId, observed, Answer(true, true)) == Step(s, submissionId, observed, QueryThrew)
  {
  }

  /** The phrase index stays a valid index of the five phrases. */
  lemma StepKeepsPhraseInRange(s: PollState, submissionId: Option<string>, observed: nat, answer: QueryAnswer)
    requires s.phrase < |Phrases|
    ensures Step(s, submissionId, observed, answer).next.phrase < |Phrases|
  {
  }

  /** The state after a run of ticks and the number of queries issued. `frozen` is the count
      every tick observes when the closure is stale; `None`: each tick sees the current count.
      A run is meant to end at its first hit: navigating away unmounts the page, whose cleanup
      clears the interval, so no answer after a hit is ever delivered. */
  function Run(s: PollState, submissionId: Option<string>, answers: seq<QueryAnswer>, frozen: Option<nat>)
    : (r: (PollState, nat))
    ensures r.1 <= |answers|
    decreases |answers|
  {
    if answers == [] then (s, 0)
    else
      var t := Step(s, submissionId, frozen.GetOr(s.attempts), answers[0]);
      var rest := Run(t.next, submissionId, answers[1..], frozen);
      (rest.0, rest.1 + (if t.queried then 1 else 0))
  }

  /** Every answer is a miss. */
  predicate AllMisses(answers: seq<QueryAnswer>)
  {
    forall i :: 0 <= i < |answers| ==> !Found(answers[i])
  }

  /** Misses with the current count observed: after `k <= 12` of them, `k` queries were made,
      the count is `k` and the phrase is `k mod 5`. */
  lemma {:induction false} LiveMisses(s: PollState, submissionId: Option<string>, answers: seq<QueryAnswer>)
    requires Given(submissionId) && AllMisses(answers)
    requires s.attempts + |answers| <= MaxAttempts && s.phrase < |Phrases|
    ensures Run(s, submissionId, answers, None).1 == |answers|
    ensures Run(s, submissionId, answers, None).0 ==
      s.(attempts := s.attempts + |answers|, phrase := (s.phrase + |answers|) % |Phrases|)
    decreases |answers|
  {
    if answers != [] {
      var rest := answers[1..];
      var next := s.(attempts := s.attempts + 1, phrase := (s.phrase + 1) % |Phrases|);
      assert Run(s, submissionId, answers, None) ==
        (Run(next, submissionId, rest, None).0, Run(next, submissionId, rest, None).1 + 1) by {
        MissStep(s, submissionId, answers[0]);
      }
      assert AllMisses(rest) by {
        forall i | 0 <= i < |rest| ensures !Found(rest[i]) {
          assert rest[i] == answers[i + 1];
        }
      }
      LiveMisses(next, submissionId, rest);
      PhraseAdvance(s.phrase, |rest|);
    }
  }

  /** A miss observed with the current count, below the ceiling, queries and advances. */
  lemma MissStep(s: PollState, submissionId: Option<string>, answer: QueryAnswer)
    requires Given(submissionId) && !Found(answer) && s.attempts < MaxAttempts
    ensures Step(s, submissionId, s.attempts, answer) ==
      Tick(s.(attempts := s.attempts + 1, phrase := (s.phrase + 1) % |Phrases|), true)
  {
  }

  /** Advancing the phrase by one and then by `k` is advancing it by `k + 1`. */
  lemma {:induction false} PhraseAdvance(p: nat, k: nat)
    ensures ((p + 1) % |Phrases| + k) % |Phrases| == (p + 1 + k) % |Phrases|
    decreases k
  {
    assert |Phrases| == 5;
    if k > 0 {
      PhraseAdvance(p, k - 1);
      SameRemainderNext((p + 1) % 5 + k - 1, p + 1 + k - 1);
    }
  }

  /** Numbers with the same remainder mod 5 keep it after adding one. */
  lemma SameRemainderNext(x: nat, y: nat)
    requires x % 5 == y % 5
    ensures (x + 1) % 5 == (y + 1) % 5
  {
  }

  /** With the current count observed, twelve misses end the polling: the thirteenth tick sets
      the timeout flag and issues no query, whatever it would have found. */
  lemma LiveCountTimesOutAfterTwelve(submissionId: Option<string>, answers: seq<QueryAnswer>)
    requires Given(submissionId) && |answers| == MaxAttempts + 1 && AllMisses(answers[..MaxAttempts])
    ensures Run(Initial, submissionId, answers, None).1 == MaxAttempts
    ensures Run(Initial, submissionId, answers, None).0 ==
      PollState(MaxAttempts % |Phrases|, MaxAttempts, true, None)
  {
    RunSplit(Initial, submissionId, answers[..MaxAttempts], answers[MaxAttempts..], None);
    assert answers[..MaxAttempts] + answers[MaxAttempts..] == answers;
    LiveMisses(Initial, submissionId, answers[..MaxAttempts]);
  }

  /** A run over `a + b` is a run over `a` followed by one over `b`. */
  lemma {:induction false} RunSplit(s: PollState, submissionId: Option<string>, a: seq<QueryAnswer>, b: seq<QueryAnswer>, frozen: Option<nat>)
    ensures Run(s, submissionId, a + b, frozen).0 == Run(Run(s, submissionId, a, frozen).0, submissionId, b, frozen).0
    ensures Run(s, submissionId, a + b, frozen).1 == Run(s, submissionId, a, frozen).1 + Run(Run(s, submissionId, a, frozen).0, submissionId, b, frozen).1
    decreases |a|
  {
    if a == [] {
      assert a + b == b;
    } else {
      assert (a + b)[0] == a[0] && (a + b)[1..] == a[1..] + b;
      var t := Step(s, submissionId, frozen.GetOr(s.attempts), a[0]);
      RunSplit(t.next, submissionId, a[1..], b, frozen);
    }
  }

  /** A record found at the twelfth query is still reached: the page navigates with the count
      at eleven. */
  lemma FoundOnTwelfthQuery(submissionId: Option<string>, answers: seq<QueryAnswer>)
    requires Given(submissionId) && |answers| == MaxAttempts && AllMisses(answers[..MaxAttempts - 1])
    requires Found(answers[MaxAttempts - 1])
    ensures Run(Initial, submissionId, answers, None).0 ==
      PollState((MaxAttempts - 1) % |Phrases|, MaxAttempts - 1, false, Some(ResultsPath(submissionId.value)))
  {
    var prefix := answers[..MaxAttempts - 1];
    RunSplit(Initial, submissionId, prefix, answers[MaxAttempts - 1..], None);
    assert prefix + answers[MaxAttempts - 1..] == answers;
    LiveMisses(Initial, submissionId, prefix);
  }

  /** The interval keeps the closure of the first render, which sees `attempts` as 0: however
      many misses there are, no tick sets the timeout flag and every tick queries again. */
  lemma {:induction false} FrozenCountNeverTimesOut(s: PollState, submissionId: Option<string>, answers: seq<QueryAnswer>)
    requires Given(submissionId) && AllMisses(answers) && !s.isTimeout
    ensures !Run(s, submissionId, answers, Some(0)).0.isTimeout
    ensures Run(s, submissionId, answers, Some(0)).1 == |answers|
    decreases |answers|
  {
    if answers != [] {
      var t := Step(s, submissionId, 0, answers[0]);
      FrozenCountNeverTimesOut(t.next, submissionId, answers[1..]);
    }
  }

  /** The five progress dots; the one at `phrase mod 5` is highlighted. */
  function ProgressDots(phrase: nat): (dots: seq<bool>)
    ensures |dots| == 5
  {
    seq(5, i requires 0 <= i < 5 => i == phrase % 5)
  }

  /** Exactly one dot is highlighted: the current phrase's. */
  lemma ExactlyOneDot(phrase: nat)
    ensures ProgressDots(phrase)[phrase % 5]
    ensures exists i :: 0 <= i < 5 && ProgressDots(phrase)[i]
    ensures forall i, j :: 0 <= i < 5 && 0 <= j < 5 && ProgressDots(phrase)[i] && ProgressDots(phrase)[j] ==> i == j
  {
    assert ProgressDots(phrase)[phrase % 5];
  }

  /** The page itself: its state fields, where it navigated and whether the interval runs. */
  class ProcessingPageView {
    const submissionId: Option<string>
    var currentPhraseIndex: nat
    var attempts: nat
    var isTimeout: bool
    var navigatedTo: Option<string>
    var polling: bool

    function State(): PollState
      reads this
    {
      PollState(currentPhraseIndex, attempts, isTimeout, navigatedTo)
    }

    /** The phrase lookup is always in bounds. */
    ghost predicate Valid()
      reads this
    {
      currentPhraseIndex < |Phrases|
    }

    /** The first render: `useState(0)`, `useState(0)`, `useState(false)`. */
    constructor (submissionId: Option<string>)
      ensures this.submissionId == submissionId && State() == Initial && !polling && Valid()
    {
      this.submissionId := submissionId;
      currentPhraseIndex := 0;
      attempts := 0;
      isTimeout := false;
      navigatedTo := None;
      polling := false;
    }

    /** `checkForDiagnosticResult`, run by a closure that sees `observed` as the count. */
    method CheckForDiagnosticResult(observed: nat, answer: QueryAnswer) returns (queried: bool)
      requires Valid()
      modifies this
      ensures Valid() && polling == old(polling)
      ensures Tick(State(), queried) == Step(old(State()), submissionId, observed, answer)
    {
      if !Given(submissionId) || observed >= MaxAttempts {
        if observed >= MaxAttempts {
          isTimeout := true;
        }
        return false;
      }
      queried := true;
      if Found(answer) {
        navigatedTo := Some(ResultsPath(submissionId.value));
        return;
      }
      currentPhraseIndex := (currentPhraseIndex + 1) % |Phrases|;
      attempts := attempts + 1;
    }

    /** The mount effect: without a submission id it goes home and starts nothing; otherwise it
        checks at once (`answer`) and starts the interval. */
    method Mount(answer: QueryAnswer) returns (queried: bool)
      requires Valid() && State() == Initial && !polling
      modifies this
      ensures Valid()
      ensures !Given(submissionId) ==>
        (navigatedTo == Some("/") && !polling && !queried &&
         currentPhraseIndex == 0 && attempts == 0 && !isTimeout)
      ensures Given(submissionId) ==> polling && Tick(State(), queried) == Step(Initial, submissionId, 0, answer)
    {
      if !Given(submissionId) {
        navigatedTo := Some("/");
        return false;
      }
      queried := CheckForDiagnosticResult(attempts, answer);
      polling := true;
    }

    /** The effect's cleanup clears the interval. */
    method Unmount()
      modifies this
      ensures !polling && State() == old(State())
    {
      polling := false;
    }

    /** The line under the spinner: the timeout message, or the current phrase. */
    function Message(): string
      reads this
      requires Valid()
    {
      if isTimeout then TimeoutMessage else Phrases[currentPhraseIndex]
    }
  }

  const TimeoutMessage := "Tu diagnóstico está tardando más de lo habitual. Pero no te preocupes, un miembro del equipo te contactará pronto con los resultados."
}
