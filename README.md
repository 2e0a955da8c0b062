# Lead diagnostic and GitHub connector: a Dafny model

This project models the logic of a small web application in Dafny 4.11 and proves
properties of that model. The application has two parts.

The first part is a lead-diagnostic pipeline:

- `process-diagnostic` is a server function. It validates a submitted self-assessment
  (a name, an e-mail address, an optional phone number and six "pillar" scores from 0 to 10).
  It picks the weakest pillar, finds the training recommended for it, and stores the
  normalised row in `respuestas_diagnostico`.
- `get-diagnostic-results` looks a stored row up by e-mail address and submission id.
- `forward-webhook` checks a visit report and forwards it to an analytics webhook.
- The landing page sends that visit report up to three times, with a growing pause between
  attempts.
- The "processing" page polls until the stored row appears.
- The results page shows the six pillar cards, their average, the zone of each score, the
  weakest pillar and the recommended training.
- Two data hooks fetch that data.

The second part is a small GitHub connector:

- a connection form with its validation;
- the `owner/repo` split and the links and commands of the dashboard;
- a `useGitHub` hook: a token-guarded request helper, its headers, error messages and REST
  paths, and the connect / disconnect session state;
- a repository view with its fetch, render order and display derivations.

The model follows the program file by file, with one module per file. There are also shared
modules:

- `Wrappers`: `Option` and `Result`;
- `JsText`: JavaScript's `trim`, `split`, `join`, ASCII case mapping and decimal printing,
  on `seq<char>`;
- `JsValues`: JSON values and JavaScript truthiness;
- `EmailShape`: the e-mail regular expression, as a decision procedure proved equal to a
  direct reading of the pattern;
- `Pillars`: the six scores, `Math.min`, and the `find` that picks the first minimum;
- `DiagnosticTables`: rows of the two tables, and the `.eq(...)` / `.single()` query primitives;
- `GitHubTypes`: the REST shapes of `types/github.ts`.

Code that computes a value is modelled as functions with lemmas.

Code that updates state is modelled as classes whose methods state the whole new state:

- the store of the submission handler;
- the polling page;
- the two data hooks;
- the connection form;
- the GitHub session;
- the repository view.

Each update is tied to a specification function, and the properties are proved about that
function. Database tables are sequences. The following are parameters of the operations,
never computed:

- the results of `fetch` and of store queries;
- fresh ids;
- parse failures;
- thrown messages.

Scores are Dafny `real`s.

## Model

| member | source | states |
|---|---|---|
| JsText.Trim | src/components/ConnectionForm.tsx:24-32 | `String.prototype.trim`: the input with a run of white space removed from each end, and a non-empty result starts and ends with a non-white-space character; `TrimEmptyIffBlank` and `TrimIdempotent` are proved about it |
| JsText.ToLowerAscii | supabase/functions/process-diagnostic/index.ts:91 | `toLowerCase()` on the letters A-Z: same length, each character lowered, no upper-case letter left |
| JsText.Split | src/components/ConnectedDashboard.tsx:16 | `split(sep)`: at least one piece, and no piece contains the separator; `JoinSplit` and `SplitJoin` tie it to `Join` |
| JsText.Join | src/components/ConnectedDashboard.tsx:16 | the pieces with the separator between them, the reference inverse of `split`; `JoinSplit` and `SplitJoin` state the round trips |
| JsText.TrimEmptyIffBlank | src/components/ConnectionForm.tsx:24-32 | `s.trim()` is empty exactly when every character of `s` is ECMAScript white space |
| JsText.TrimIdempotent | src/components/ConnectionForm.tsx:36-38 | trimming an already trimmed value changes nothing |
| JsText.JoinSplit | src/components/ConnectedDashboard.tsx:15-16 | joining the pieces of `split(sep)` with `sep` gives back the string |
| JsText.SplitJoin | src/components/ConnectedDashboard.tsx:15-16 | splitting a join of separator-free pieces gives back the pieces |
| JsText.DecimalRoundTrip | src/hooks/useGitHub.ts:28 | the decimal text of a status code reads back as that status code |
| EmailShape.IsEmail | supabase/functions/process-diagnostic/index.ts:36-39 | the decision procedure for the e-mail pattern: no white space, a non-empty local part before the first '@', no second '@', and a '.' strictly inside the domain; `IsEmailMatchesPattern` proves it equal to the regular expression |
| EmailShape.IsEmailMatchesPattern | supabase/functions/process-diagnostic/index.ts:35-39 | the decision procedure accepts exactly the strings `^[^\s@]+@[^\s@]+\.[^\s@]+$` matches |
| EmailShape.LowerKeepsEmail | supabase/functions/process-diagnostic/index.ts:91 | lower-casing an accepted address yields an accepted address |
| EmailShape.EmailIsTrimmed | supabase/functions/process-diagnostic/index.ts:91 | an accepted address has no white space, so `trim()` leaves it as it is |
| EmailShape.RejectsNotAnEmail | supabase/functions/process-diagnostic/index.ts:36-39 | "not-an-email" is rejected |
| EmailShape.AcceptsPlainAddress | supabase/functions/process-diagnostic/index.ts:36-39 | "ana@example.com" is accepted |
| Pillars.Values | supabase/functions/process-diagnostic/index.ts:53-64 | `Object.values(scores)` lists the six scores in declaration order |
| Pillars.MinOf | supabase/functions/process-diagnostic/index.ts:64 | `Math.min` of the list is one of its elements and no element is below it |
| Pillars.LowestScore | supabase/functions/process-diagnostic/index.ts:64 | `Math.min(...Object.values(scores))` is one of the six scores and no pillar scores below it |
| Pillars.FindWithScore | supabase/functions/process-diagnostic/index.ts:65-67 | `find` returns a key with the wanted score, at or before every key that has it |
| Pillars.AreaWithLowestScore | supabase/functions/process-diagnostic/index.ts:64-67 | the chosen area's score is the lowest score |
| Pillars.KeysAreDistinct | supabase/functions/process-diagnostic/index.ts:53-60 | two pillars share a key only if they are the same pillar |
| Pillars.LowestAreaIsMinimum | supabase/functions/process-diagnostic/index.ts:64-67 | the chosen area's score is at most every pillar's score |
| Pillars.LowestAreaTieBreak | supabase/functions/process-diagnostic/index.ts:65-67 | every pillar declared before the choice scores strictly higher, so ties go to the first key |
| Pillars.AreaWithLowestScoreCharacterised | supabase/functions/process-diagnostic/index.ts:64-67 | the choice is the first minimum (an independent definition), and nothing else is |
| Pillars.FirstMinimumUnique | supabase/functions/process-diagnostic/index.ts:64-67 | two first minima of the same scores are the same pillar |
| Pillars.IncreasingScoresChooseFirst | supabase/functions/process-diagnostic/index.ts:64-67 | scores 1..6 in key order choose `claridad_direccion` |
| Pillars.TieChoosesFirstKey | supabase/functions/process-diagnostic/index.ts:65-67 | a tie between the first two pillars goes to the first |
| Pillars.TieChoosesEarlierKey | supabase/functions/process-diagnostic/index.ts:65-67 | a tie between the fourth and sixth pillar goes to the fourth |
| DiagnosticTables.Filter | supabase/functions/process-diagnostic/index.ts:71-75 | the rows an `.eq` chain keeps are exactly the rows that pass it, no more rows than the table |
| DiagnosticTables.Single | supabase/functions/process-diagnostic/index.ts:75 | `.single()` yields a row exactly when one row is selected, and then that row |
| DiagnosticTables.FilterSingleton | supabase/functions/get-diagnostic-results/index.ts:44-55 | when only the row at `i` passes, exactly that row is selected |
| DiagnosticTables.FilterKeepsTwo | supabase/functions/process-diagnostic/index.ts:71-75 | when two rows pass, at least two rows are selected |
| DiagnosticTables.SingleFilter | supabase/functions/process-diagnostic/index.ts:71-75 | `.single()` after a filter finds a row exactly when one row of the table passes, and then it is that row |
| DiagnosticTables.TrainingWithId | src/hooks/useTrainingData.ts:40-44 | a training found by id is in the catalogue and has that id |
| DiagnosticTables.TrainingWithOwnId | src/hooks/useTrainingData.ts:40-44 | with distinct catalogue ids, every training is found by its own id |
| ProcessDiagnostic.HasRequiredFields | supabase/functions/process-diagnostic/index.ts:28-33 | the presence check: `nombre` and `email` truthy and none of the six scores `undefined`; `Validate` states its place among the checks |
| ProcessDiagnostic.IsPhone | supabase/functions/process-diagnostic/index.ts:42 | `^[\d\s\-\+\(\)]+$`: a non-empty string of digits, white space, `-`, `+`, `(` and `)`; `Validate` states its place among the checks |
| ProcessDiagnostic.PhoneAcceptable | supabase/functions/process-diagnostic/index.ts:41-44 | a phone is checked only when it is truthy; `Validate` states its place among the checks |
| ProcessDiagnostic.Validate | supabase/functions/process-diagnostic/index.ts:28-60 | the checks run in source order and the first failing check decides the message (missing fields, e-mail, phone, scores); success iff all pass, keeping the fields and giving every score as a number in [0, 10] |
| ProcessDiagnostic.EachScoreInRange | supabase/functions/process-diagnostic/index.ts:47-51 | when the list of six fields passes the range check, each field passes it |
| ProcessDiagnostic.Numbers | supabase/functions/process-diagnostic/index.ts:53-60 | each number is the field's value, in [0, 10] |
| ProcessDiagnostic.NormalizePhone | supabase/functions/process-diagnostic/index.ts:92 | an absent or blank phone is stored as null, otherwise as its non-empty trimmed text |
| ProcessDiagnostic.NormalizeEmail | supabase/functions/process-diagnostic/index.ts:91 | `email.toLowerCase().trim()`; `NormalizedEmailIsLowerCaseAddress` proves the stored address lower-case and of the accepted shape |
| ProcessDiagnostic.FindTraining | supabase/functions/process-diagnostic/index.ts:71-80 | a training is found exactly when the catalogue has one and only one training of the area, and then it is that training; a found training is in the catalogue and has that area |
| ProcessDiagnostic.ErrorMessage | supabase/functions/process-diagnostic/index.ts:127 | the error answer is never empty and keeps a non-empty thrown message |
| ProcessDiagnostic.NormalizedEmailIsLowerCaseAddress | supabase/functions/process-diagnostic/index.ts:91 | the stored address is the submitted one in lower case and still of the accepted shape |
| ProcessDiagnostic.InsertedRow | supabase/functions/process-diagnostic/index.ts:87-102 | the inserted columns; `InsertedRowWellFormed` and `InsertedRowNormalised` state what they hold |
| ProcessDiagnostic.InsertedRowWellFormed | supabase/functions/process-diagnostic/index.ts:87-102 | the inserted row has an accepted address, scores in range, the argmin as its area and a catalogue training of that area |
| ProcessDiagnostic.InsertedRowNormalised | supabase/functions/process-diagnostic/index.ts:89-102 | a validated submission is stored lower-cased, trimmed, the phone null iff blank, with the id of the training that was found |
| ProcessDiagnostic.BoundaryScoresAccepted | supabase/functions/process-diagnostic/index.ts:49 | scores of exactly 0 and 10 pass |
| ProcessDiagnostic.OutOfRangeScoresRejected | supabase/functions/process-diagnostic/index.ts:49-50 | a score of 11 or -1 is rejected with the score message |
| ProcessDiagnostic.Response.Status | supabase/functions/process-diagnostic/index.ts:113-129 | 200 for a created record, 500 for every failure; `DiagnosticStore.ProcessDiagnostic` states which answer each input gets |
| ProcessDiagnostic.DiagnosticStore.constructor | supabase/functions/process-diagnostic/index.ts:87-88 | an empty table of diagnostics over a given catalogue is consistent |
| ProcessDiagnostic.DiagnosticStore.Insert | supabase/functions/process-diagnostic/index.ts:87-104 | appends one well-formed row and keeps every stored row well-formed |
| ProcessDiagnostic.DiagnosticStore.ProcessDiagnostic | supabase/functions/process-diagnostic/index.ts:20-129 | an unreadable body, a failed check, a missing training and an insert error each give status 500 with their message and store nothing; otherwise exactly the normalised row is appended and the 200 answer names the record, the stored e-mail, the area and the training; the table stays well-formed |
| GetDiagnosticResults.TrainingById | supabase/functions/get-diagnostic-results/index.ts:44-55 | the embedded training exists only for a present id, and has that id |
| GetDiagnosticResults.Joined | supabase/functions/get-diagnostic-results/index.ts:44-55 | the query keeps exactly the rows with both columns equal and a joined training |
| GetDiagnosticResults.Project | supabase/functions/get-diagnostic-results/index.ts:68-84 | the answer's data carries the row's e-mail, area and six scores and the joined training |
| GetDiagnosticResults.GetDiagnosticResults | supabase/functions/get-diagnostic-results/index.ts:20-92 | a thrown request is 500; a missing parameter or a malformed e-mail is 400; status 200 iff the query selects exactly one row, then with that row's data and the query's e-mail; any other accepted query is 404 |
| GetDiagnosticResults.FindsTheOnlyMatch | supabase/functions/get-diagnostic-results/index.ts:44-84 | the only row with that e-mail and id, having a training, is answered with its data |
| GetDiagnosticResults.DuplicatesAreNotFound | supabase/functions/get-diagnostic-results/index.ts:54-63 | two joined rows with the same e-mail and id make the answer 404 |
| GetDiagnosticResults.JoinedKeepsTwo | supabase/functions/get-diagnostic-results/index.ts:44-55 | two selected rows survive the filter |
| GetDiagnosticResults.UnjoinedRowIsNotFound | supabase/functions/get-diagnostic-results/index.ts:46-63 | a matching row without a catalogue training is dropped by the inner join and answered 404 |
| GetDiagnosticResults.QueryEmailIsNotLowercased | supabase/functions/get-diagnostic-results/index.ts:35-55 | a query address with a capital letter never finds a lower-cased stored row |
| GetDiagnosticResults.AppendedRowIsFound | supabase/functions/get-diagnostic-results/index.ts:44-84 | a row appended under a new submission id is the one the query finds |
| GetDiagnosticResults.StoredSubmissionIsFound | supabase/functions/get-diagnostic-results/index.ts:44-84 | end to end: the row the submission handler stores is found by its stored e-mail and submission id |
| ForwardWebhook.CountryGiven | supabase/functions/forward-webhook/index.ts:18 | the country check `country && typeof country === 'string'`; `CountryCases` proves it accepts exactly the non-empty strings |
| ForwardWebhook.RefIdAcceptable | supabase/functions/forward-webhook/index.ts:26 | `ref_id` is null, undefined or a string; `RefIdCases` proves the cases |
| ForwardWebhook.Reply.Status | supabase/functions/forward-webhook/index.ts:18-89 | 400 for a rejected field, the downstream status (500 without an answer) for a failed webhook, 200 when forwarded, 500 for a thrown error; `FailureStatusAndSuccessFlag` ties the status to `success` |
| ForwardWebhook.ReplyJson | supabase/functions/forward-webhook/index.ts:18-89 | the JSON of each reply: `success`, then `error`, `details` and `status` for a failed webhook, `forwarded` and `response` when forwarded; `FailureStatusAndSuccessFlag` states that `success` is true only for a forwarded visit |
| ForwardWebhook.ResponseBody | supabase/functions/forward-webhook/index.ts:71-78 | an empty, unreadable or invalid downstream body is null; otherwise it is the parsed value |
| ForwardWebhook.Forward | supabase/functions/forward-webhook/index.ts:16-90 | a thrown read is 500; a bad country, then a bad `ref_id`, is 400 and sends nothing; a valid request sends exactly the four fields; a thrown fetch is 500, a non-2xx answer keeps its status and text, a 2xx answer is forwarded with its body |
| ForwardWebhook.FailureStatusAndSuccessFlag | supabase/functions/forward-webhook/index.ts:57-83 | a failed answer keeps the downstream status, 400 for rejections, and `success: true` only when forwarded |
| ForwardWebhook.RefIdCases | supabase/functions/forward-webhook/index.ts:26-31 | null, undefined and any string pass the `ref_id` check; everything else fails |
| ForwardWebhook.CountryCases | supabase/functions/forward-webhook/index.ts:18-23 | the country check accepts exactly the non-empty strings |
| VisitWebhook.GetUserCountry | src/pages/Index.tsx:19-28 | the country is the truthy `country_name`, otherwise "Unknown"; never falsy |
| VisitWebhook.ToRequest | src/pages/Index.tsx:42-47 | the body the page sends: the country, `ref_id` as a string or null, the URL and the timestamp; `VisitRequestChecks` states which of them the function accepts |
| VisitWebhook.Backoff | src/pages/Index.tsx:67 | the pause after attempt `k` is `k` seconds; `SendWebhook` states the pauses it takes |
| VisitWebhook.InvokeOf | src/pages/Index.tsx:53-60 | `functions.invoke` on a reply: the JSON for a 2xx status, an error otherwise; `DeliveredIffForwarded` proves an attempt succeeds exactly when the visit was forwarded |
| VisitWebhook.SendWebhook | src/pages/Index.tsx:41-73 | between one and three attempts; every attempt before the last failed; fewer than three means the last succeeded; the pauses are 1000 ms, 2000 ms, one per failed attempt before the last |
| VisitWebhook.DeliveredIffForwarded | src/pages/Index.tsx:57-60 | the page counts an attempt as delivered exactly when the function forwarded the visit |
| VisitWebhook.VisitRequestChecks | src/pages/Index.tsx:42-47 | the page's `ref_id` always passes; its country fails only if the lookup answers a truthy non-string |
| ProcessingPage.ResultsPath | src/pages/ProcesandoDiagnostico.tsx:42 | the path is the results prefix followed by the submission id unchanged |
| ProcessingPage.Step | src/pages/ProcesandoDiagnostico.tsx:23-55 | a count of 12 or more only sets the timeout; with no submission id nothing changes; otherwise it queries, navigates on a hit, and on a miss or a throw advances the phrase mod 5 and the count by one |
| ProcessingPage.MissAndThrowAgree | src/pages/ProcesandoDiagnostico.tsx:46-54 | a miss and a thrown query change the state the same way |
| ProcessingPage.StepKeepsPhraseInRange | src/pages/ProcesandoDiagnostico.tsx:47 | the phrase index stays an index of the five phrases |
| ProcessingPage.Run | src/pages/ProcesandoDiagnostico.tsx:57-70 | a run of ticks makes at most one query per tick |
| ProcessingPage.LiveMisses | src/pages/ProcesandoDiagnostico.tsx:23-48 | with the current count observed, `k` misses make `k` queries and advance the count by `k` |
| ProcessingPage.RunSplit | src/pages/ProcesandoDiagnostico.tsx:57-70 | a run over `a + b` is a run over `a` then one over `b` |
| ProcessingPage.LiveCountTimesOutAfterTwelve | src/pages/ProcesandoDiagnostico.tsx:24-29 | with the current count observed, twelve misses then one more tick end in a timeout after exactly twelve queries |
| ProcessingPage.FoundOnTwelfthQuery | src/pages/ProcesandoDiagnostico.tsx:40-44 | a record found by the twelfth query is still navigated to |
| ProcessingPage.FrozenCountNeverTimesOut | src/pages/ProcesandoDiagnostico.tsx:24-70 | the interval's closure sees the count as 0: any number of misses queries on every tick and never times out |
| ProcessingPage.ProgressDots | src/pages/ProcesandoDiagnostico.tsx:126-133 | five dots |
| ProcessingPage.ExactlyOneDot | src/pages/ProcesandoDiagnostico.tsx:126-133 | exactly one dot is highlighted, the one at the current phrase's index mod 5 |
| ProcessingPage.ProcessingPageView.constructor | src/pages/ProcesandoDiagnostico.tsx:19-21 | phrase 0, count 0, no timeout, not polling |
| ProcessingPage.ProcessingPageView.CheckForDiagnosticResult | src/pages/ProcesandoDiagnostico.tsx:23-55 | the new state and the query flag are those of `Step` on the old state |
| ProcessingPage.ProcessingPageView.Mount | src/pages/ProcesandoDiagnostico.tsx:57-70 | without a submission id it navigates home and starts nothing; otherwise it checks once with count 0 and starts polling |
| ProcessingPage.ProcessingPageView.Unmount | src/pages/ProcesandoDiagnostico.tsx:69 | clears the interval and leaves the state as it is |
| ProcessingPage.ProcessingPageView.Message | src/pages/ProcesandoDiagnostico.tsx:108-119 | the timeout message once the flag is set, otherwise the current phrase; `Valid` keeps the phrase index inside the five phrases |
| UseDiagnosticResults.DiagnosticResultsHook.constructor | src/hooks/useDiagnosticResults.ts:20-22 | no data, loading, no error |
| UseDiagnosticResults.DiagnosticResultsHook.FetchResults | src/hooks/useDiagnosticResults.ts:24-71 | without an id the error is set and nothing is requested; otherwise one request by `submission_id`; a successful answer stores its data, any failure keeps the data and sets the load error; loading ends false |
| UseTrainingData.DiagnosticOf | src/hooks/useTrainingData.ts:24-28 | a diagnostic found is in the table with that submission id |
| UseTrainingData.TrainingFor | src/hooks/useTrainingData.ts:24-58 | a training is found iff the submission has one row, a truthy training id and a catalogue entry with that id; it is that entry's name and description, with `''` for a missing description |
| UseTrainingData.TrainingIdZeroIsMissing | src/hooks/useTrainingData.ts:30-37 | a training id of 0 is falsy and reads as no training |
| UseTrainingData.StoredRowLeadsToItsTraining | src/hooks/useTrainingData.ts:24-58 | end to end: a row the submission handler appends under a new id leads to the training it recorded |
| UseTrainingData.TrainingDataHook.constructor | src/hooks/useTrainingData.ts:10-12 | no data, loading, no error |
| UseTrainingData.TrainingDataHook.FetchTraining | src/hooks/useTrainingData.ts:15-64 | the lookups issued in order (none without an id, the second only for a truthy training id); data is the joined training when found, otherwise the load error is set and the data kept; loading ends false |
| DiagnosticResultsPage.Cards | src/pages/DiagnosticResults.tsx:100-107 | six cards |
| DiagnosticResultsPage.CardsAreDistinct | src/pages/DiagnosticResults.tsx:100-107 | no two cards share a name or a key |
| DiagnosticResultsPage.AverageScore | src/pages/DiagnosticResults.tsx:109 | the left-fold average is the sum of the six scores divided by 6 |
| DiagnosticResultsPage.SumOfSix | src/pages/DiagnosticResults.tsx:109 | the fold over six cards is their sum |
| DiagnosticResultsPage.AverageBetweenExtremes | src/pages/DiagnosticResults.tsx:109 | the average lies between the lowest and the highest card score |
| DiagnosticResultsPage.GetZone | src/pages/DiagnosticResults.tsx:118-122 | optimal iff the score is at least 7, improvement iff in [4, 7), critical iff below 4 |
| DiagnosticResultsPage.FindByKey | src/pages/DiagnosticResults.tsx:110 | a card found has the key; none found iff no card has it |
| DiagnosticResultsPage.ReduceMinIndex | src/pages/DiagnosticResults.tsx:110 | the strict-`<` reduce ends on a card with the lowest score that every earlier card exceeds |
| DiagnosticResultsPage.Weakest | src/pages/DiagnosticResults.tsx:110 | `weakestPillar`: the card of the stored area, else the strict-`<` reduce minimum; `StoredAreaDecides`, `OtherwiseFirstMinimum` and `PageAgreesWithHandler` state which card it is |
| DiagnosticResultsPage.StoredAreaDecides | src/pages/DiagnosticResults.tsx:110 | a card whose key is the stored area is the weakest |
| DiagnosticResultsPage.OtherwiseFirstMinimum | src/pages/DiagnosticResults.tsx:110 | with no card for the stored area, the weakest is the first card with the lowest score |
| DiagnosticResultsPage.ConexionPropositoIsRecomputed | src/pages/DiagnosticResults.tsx:106-110 | the stored area `conexion_proposito` matches no card key, so the weakest is recomputed |
| DiagnosticResultsPage.RecomputationIsHandlerChoice | src/pages/DiagnosticResults.tsx:110 | the recomputed minimum sits at the place of the handler's choice |
| DiagnosticResultsPage.CardKeyIsColumn | src/pages/DiagnosticResults.tsx:101-105 | the first five cards carry the column names as keys |
| DiagnosticResultsPage.PageAgreesWithHandler | src/pages/DiagnosticResults.tsx:110 | given the six scores the handler saw, with the sixth under the page's name, and the area it stored, the page rings the pillar the handler chose |
| DiagnosticResultsPage.EveryCardHasFallback | src/pages/DiagnosticResults.tsx:14-43 | every card name has a fallback training |
| DiagnosticResultsPage.Recommended | src/pages/DiagnosticResults.tsx:113-116 | the stored training when the record has one, else the fallback for the weakest card |
| DiagnosticResultsPage.CardViews | src/pages/DiagnosticResults.tsx:194-197 | six card views |
| DiagnosticResultsPage.Render | src/pages/DiagnosticResults.tsx:45-240 | loading first, then "not found" for an error or no data, then the report: the average and its zone, the weakest pillar, the recommended training, the six card views, and the analysis panel exactly when `model_response` is truthy |
| DiagnosticResultsPage.ExactlyOneWeakestCard | src/pages/DiagnosticResults.tsx:196 | exactly one card is ringed as the weakest |
| DiagnosticResultsPage.RingedCardIsWeakest | src/pages/DiagnosticResults.tsx:110-196 | a card is ringed exactly when it is the weakest pillar's card |
| DiagnosticResultsPage.ZoneExamples | src/pages/DiagnosticResults.tsx:145-147 | six sevens average in the optimal zone, six threes in the critical one |
| ConnectedDashboard.OwnerAndRepo | src/components/ConnectedDashboard.tsx:15-17 | without '/', the login and the name; with '/', two '/'-free pieces whose `owner/repo` is a prefix of the name, ending at its end or at a further '/' |
| ConnectedDashboard.OwnerAndRepoRoundTrip | src/components/ConnectedDashboard.tsx:15-16 | an `owner/repo` name splits back into that owner and repo |
| ConnectedDashboard.PagePath | src/components/ConnectedDashboard.tsx:44-106 | the path after the repository for each of the four links; `PageLinksDiffer` proves the links distinct |
| ConnectedDashboard.PageLink | src/components/ConnectedDashboard.tsx:44-106 | the link is the GitHub site, then the name as typed, then the page's path |
| ConnectedDashboard.PageLinksDiffer | src/components/ConnectedDashboard.tsx:44-106 | the four links of a repository are four different addresses |
| ConnectedDashboard.PageLinkDeterminesRepository | src/components/ConnectedDashboard.tsx:44-106 | two repositories never share a link to the same page |
| ConnectedDashboard.CloneCommand | src/components/ConnectedDashboard.tsx:134 | `git clone https://github.com/<repository>.git`; `CloneThenCd` states what it shares with the `cd` line |
| ConnectedDashboard.CdCommand | src/components/ConnectedDashboard.tsx:143 | `cd <repo>`; `CloneThenCd` proves that for `owner/repo` it enters the `repo` whose `.git` segment ends the clone address |
| ConnectedDashboard.CloneThenCd | src/components/ConnectedDashboard.tsx:134-143 | for `owner/repo` the clone address ends in the segment `repo.git` and the `cd` enters `repo` |
| ConnectionForm.ConnectionForm.constructor | src/components/ConnectionForm.tsx:16-18 | empty fields, no error |
| ConnectionForm.ConnectionForm.SetToken | src/components/ConnectionForm.tsx:67 | the token field holds the typed value |
| ConnectionForm.ConnectionForm.SetRepository | src/components/ConnectionForm.tsx:81 | the repository field holds the typed value |
| ConnectionForm.ConnectionForm.HandleSubmit | src/components/ConnectionForm.tsx:20-43 | a blank token, then a blank repository, sets its message and calls nothing; otherwise `onConnect` gets the trimmed values and an empty username; the error is then cleared, the thrown `Error`'s message, or 'Connection failed'; a passed token and repository are non-empty and trimmed |
| UseGitHub.DefaultHeaders | src/hooks/useGitHub.ts:18-21 | the three default headers |
| UseGitHub.MergeHeaders | src/hooks/useGitHub.ts:18-23 | every header of either set is present, a caller's header replaces the default key by key, the other defaults stay |
| UseGitHub.BuildRequest | src/hooks/useGitHub.ts:16-24 | the URL is the API base followed by the path, the method defaults to GET, the bearer token is sent unless the caller overrides `Authorization`, and caller headers win |
| UseGitHub.FailureMessage | src/hooks/useGitHub.ts:26-29 | never empty: 'Request failed' for a body that is not JSON, the body's non-empty `message`, otherwise "HTTP " and the decimal text that reads back as the status |
| UseGitHub.MakeRequest | src/hooks/useGitHub.ts:11-32 | no config or an empty token fails with 'No token configured' and sends nothing; otherwise it sends the built request and succeeds iff the answer is 2xx JSON, with that value, failing with the network, parse or status message |
| UseGitHub.RepositoryPath | src/hooks/useGitHub.ts:84 | `/repos/<owner>/<repo>`; `RepositoryPathParses` proves it splits back into its parts |
| UseGitHub.BranchesPath | src/hooks/useGitHub.ts:88 | `/repos/<owner>/<repo>/branches`; `BranchesPathParses` proves it splits back into its parts |
| UseGitHub.CommitsPath | src/hooks/useGitHub.ts:92 | `/repos/<owner>/<repo>/commits` with `?sha=<branch>` only for a non-empty branch; `CommitsQueryIffBranch` proves that |
| UseGitHub.RepositoryPathParses | src/hooks/useGitHub.ts:83-85 | `/repos/o/r` splits back into the owner and repo |
| UseGitHub.BranchesPathParses | src/hooks/useGitHub.ts:87-89 | `/repos/o/r/branches` splits back into the owner, repo and `branches` |
| UseGitHub.CommitsQueryIffBranch | src/hooks/useGitHub.ts:91-94 | the commit path has a query iff the branch is non-empty, and the query is `sha=<branch>` |
| UseGitHub.GetRepository | src/hooks/useGitHub.ts:83-85 | a sent request is a GET of the repository path |
| UseGitHub.GetBranches | src/hooks/useGitHub.ts:87-89 | a sent request is a GET of the branches path |
| UseGitHub.GetCommits | src/hooks/useGitHub.ts:91-94 | a sent request is a GET of the commits path |
| UseGitHub.NewRepositoryBody | src/hooks/useGitHub.ts:99-104 | name, visibility and `auto_init: true`; a description only when one is given |
| UseGitHub.CreateRepository | src/hooks/useGitHub.ts:96-106 | a sent request is a POST of the new repository to `/user/repos` with exactly the default headers |
| UseGitHub.UserCheck | src/hooks/useGitHub.ts:38-43 | the token check sends the bearer token and `Accept`, and no `Content-Type` |
| UseGitHub.LoginOf | src/hooks/useGitHub.ts:51-59 | `userData.login` of a non-nullish body, read as a string; `GitHubSession.Connect` states the username and toast built from it |
| UseGitHub.ConnectFailure | src/hooks/useGitHub.ts:38-53 | `connect` throws unless the answer is 2xx JSON that is not null; an error status reads as an invalid token, a network error keeps its message, and a null body gives the `TypeError` of reading `login` |
| UseGitHub.AcceptedTokenIsSent | src/components/ConnectionForm.tsx:24-39 | a token the form accepted passes the request guard and is sent |
| UseGitHub.GitHubSession.constructor | src/hooks/useGitHub.ts:6-8 | disconnected, not loading, no config |
| UseGitHub.GitHubSession.Connect | src/hooks/useGitHub.ts:34-72 | on success the config is the input with the account's login and the session is connected, with a success toast; on failure (an error status, a network error, an unreadable or a null body) config and connection are unchanged, a destructive toast carries the message, and the error is rethrown; loading ends false; connected iff configured |
| UseGitHub.GitHubSession.Disconnect | src/hooks/useGitHub.ts:74-81 | no config, disconnected, one toast; connected iff configured |
| RepositoryInfo.RecentCommits | src/components/RepositoryInfo.tsx:49 | the first min(5, n) commits, in the order fetched |
| RepositoryInfo.ListedBranches | src/components/RepositoryInfo.tsx:226 | the first min(5, n) branches |
| RepositoryInfo.MoreBranches | src/components/RepositoryInfo.tsx:241-243 | shown iff there are more than 5 branches; listed plus more is the total |
| RepositoryInfo.ShortSha | src/components/RepositoryInfo.tsx:237 | a prefix of the sha of length min(7, n) |
| RepositoryInfo.Headline | src/components/RepositoryInfo.tsx:267 | the prefix of the message before its first line break, or all of it |
| RepositoryInfo.AvatarFallback | src/components/RepositoryInfo.tsx:110 | one character: the login's first, upper-cased; it needs a non-empty login |
| RepositoryInfo.FetchOutcome | src/components/RepositoryInfo.tsx:40-52 | no error iff all three calls succeed, then the repository, the branches and the recent commits; on a failure the data stays and the first failure's message is the error |
| RepositoryInfo.Render | src/components/RepositoryInfo.tsx:62-99 | loading, then a truthy error, then "not found", then the overview of the repository, the branch count, the listed branches, the "more" count and the commits |
| RepositoryInfo.OwnSessionAlwaysFails | src/components/RepositoryInfo.tsx:29-56 | through the view's own never-connected session nothing is sent and the view shows 'No token configured' whatever GitHub would answer |
| RepositoryInfo.ConnectedSessionLoads | src/components/RepositoryInfo.tsx:36-56 | through a connected session with good answers, three requests go out and the overview shows the repository and its first five commits |
| RepositoryInfo.RepositoryView.constructor | src/components/RepositoryInfo.tsx:30-34 | no repository, no branches or commits, loading, no error |
| RepositoryInfo.RepositoryView.StartFetch | src/components/RepositoryInfo.tsx:37-38 | loading, error cleared, data kept: the spinner shows |
| RepositoryInfo.RepositoryView.FinishFetch | src/components/RepositoryInfo.tsx:40-55 | the state is `FetchOutcome` of the three calls, the requests sent are recorded, and loading ends false |
| RepositoryInfo.RepositoryView.FetchData | src/components/RepositoryInfo.tsx:36-56 | the composition: the error is cleared and the state becomes `FetchOutcome` of the three calls |

## Left out

- Rendering: JSX, styling, icons, charts and embedded scripts are not modelled. Only the
  choice of screen and the values it shows are modelled.
- Case mapping: `toLowerCase` and `toUpperCase` are modelled for ASCII letters only.
  Letters outside ASCII keep their case.
- Input coercion: `Number()` is modelled on the values a field can take. The model has
  numbers, NaN, and absent fields. A `null` score coerces to 0 and passes the
  `=== undefined` check; this is not modelled separately.
- Arithmetic: scores are exact reals. IEEE-754 rounding of the average and the `Math.round`
  percentages are not modelled.
- Time and concurrency:
  - the 5-second polling interval, the landing page's pauses and the 10-second
    `AbortController` timeout become steps and numbers;
  - overlapping interval callbacks are not modelled;
  - `Promise.all` in the repository view runs its three calls one after another, so the
    first failure in argument order stands for the first to settle.
- Foreign calls:
  - store queries, `fetch`, `crypto.randomUUID()` and JSON parsing are inputs of the
    operations;
  - `encodeURIComponent`, `URLSearchParams` and the landing page's `getRefIdFromUrl` are not
    modelled, so the page's `ref_id` is a parameter;
  - the `SITE_URL` prefix of the results link is kept as the link's two query values;
  - CORS headers, `OPTIONS` handling and console logging are not modelled;
  - date formatting in the repository view is not modelled.
- Differences between the two diagnostic hooks and the endpoint they call are not
  reconciled:
  - `useDiagnosticResults` asks for `submission_id`, but `get-diagnostic-results` needs
    `email` and `submissionId`;
  - the page names the sixth score `cambio_adaptabilidad`, while the store uses
    `conexion_proposito`.
  Each side is modelled as written. `ConexionPropositoIsRecomputed` states what the
  mismatch of the stored area leads to. `PageAgreesWithHandler` assumes that the sixth
  score arrives under the page's name, `cambio_adaptabilidad`.
- UseDiagnosticResults.DiagnosticData: the sixth score is always a number, so the case the
  source produces is not modelled. The endpoint sends the score only as
  `conexion_proposito`, so on the page `data.cambio_adaptabilidad` is `undefined`. The
  average then is NaN, and the strict-`<` reduce never picks the sixth card. For a record
  whose stored area is `conexion_proposito`, the page therefore rings one of the first five
  cards, not the pillar the handler chose.
- RepositoryInfo.AvatarFallback: an empty login is not modelled. There the source throws a
  `TypeError` at `login[0].toUpperCase()`; GitHub logins are never empty.
- useTrainingData: a store error on either query is modelled as "no row", which gives the
  same load error.
- UseGitHub.FailureMessage: a truthy `message` that is not a string is modelled like a
  missing one. JavaScript would print it. A JSON `null` error body is also modelled like a
  body without a message; JavaScript throws a `TypeError` there.
- UseGitHub.LoginOf: a missing or non-string `login` becomes an empty username, not
  `undefined`. A `null` body fails in `ConnectFailure` with the `TypeError` text V8 gives;
  other engines word that message differently.
- ProcessDiagnostic.Submission: the text fields `nombre`, `email` and `telefono` are strings
  or absent. A non-string JSON value, such as a number or an object, is not modelled. The
  handler coerces such a value in its regular-expression tests and then throws a `TypeError`
  at `.trim()` or `.toLowerCase()`, which answers 500 and inserts nothing.
- UseGitHub.GitHubSession.Connect: every rejection is an `Error`, so the toast's
  'Unknown error occurred' branch is not modelled. The same holds for 'Failed to fetch
  repository data' in the repository view.
- UseGitHub.NewRepositoryBody: the body is the value handed to `JSON.stringify`, not its text.
- Headers: header names are compared exactly. `fetch` treats them case-insensitively.
- In two places the documented behaviour differs from the source; the model follows the source:
  - a name that is only white space passes the presence check, because it is truthy, and is
    stored trimmed to "";
  - on the processing page, a call with no submission id and a count of 12 or more still
    sets the timeout flag.

## Findings

| source | as written | input that shows it | evidently intended | confidence | as-written member | corrected member |
|---|---|---|---|---|---|---|
| src/components/RepositoryInfo.tsx:29 | the view calls `useGitHub()` itself, and that hook's state is local to the view, so its `config` is always `null` | any repository, once the user has connected: `makeRequest` throws 'No token configured' and no request is sent | fetch through the session the user connected, using its token | high, not executed | RepositoryInfo.OwnSessionAlwaysFails | RepositoryInfo.ConnectedSessionLoads |
| src/pages/ProcesandoDiagnostico.tsx:24-70 | the interval runs the closure of the first render (the effect depends only on `submissionId`), which always sees `attempts` as 0 | twelve or more consecutive misses for a submission id: the page keeps querying and never shows the timeout | stop after twelve attempts and show the timeout message | high, not executed | ProcessingPage.FrozenCountNeverTimesOut | ProcessingPage.LiveCountTimesOutAfterTwelve |
