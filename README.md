# Symptom-based disease prediction with follow-up questions

This project models the two pieces of the LifeLine2 health assistant that make decisions.

1. **The prediction endpoint.** This is `predict` in the Flask service (`PredictionService` in `prediction_service.dfy`). It:
   - keeps the supplied symptom tokens that belong to the vocabulary, in input order;
   - rejects a request with none left (400, "No valid symptoms provided.");
   - one-hot encodes the kept symptoms over the vocabulary;
   - takes the mode of three classifiers' votes and decodes the winning label;
   - collects, in dictionary order, the diseases whose symptom list shares a symptom with the input.

   With more than one such disease it answers "ask more": it returns those diseases and up to three of their symptoms that were not supplied. Otherwise it answers with the decoded disease. An exception anywhere is a 500. `get_symptoms` is modelled for its empty-vocabulary guard.

2. **The refinement dialogue of the dashboard page.** This is `Dashboard.DashboardState` in `dashboard.dfy`. The page state becomes a class with one field per React state variable the handlers set:
   - the selection;
   - the confirmed extra symptoms;
   - the prediction;
   - the candidate diseases;
   - the pending question;
   - the error text;
   - the refinement counter;
   - the chatbot flag.

   `handleChange`, `handlePredict` and `handleRefinePrediction` become methods. Each one states the whole new state for every kind of server reply. All of them keep the class invariant that the stored counter stays below `MAX_REFINEMENTS` (3). The guard on the question panel becomes the predicate `PromptVisible`, and the panel itself becomes the function `Prompt`.

Opaque parts are parameters:
- The three trained classifiers, the label decoder and scipy's choice when all three votes differ are function-valued fields of `Models`. A call that would raise returns `None`.
- Start-up binds its names one at a time, and the disease dictionary last. A load that fails before the vocabulary is bound is the `None` service. It still answers 400 to a request that supplies no symptoms at all, because the filter over an empty list never reads the unbound vocabulary; every other JSON request gets a 500. A load that fails only at the dictionary leaves `table` as `None`: the vocabulary is still listed, requests without a valid symptom still get 400, and the others get a 500 after classification.
- Python's set iteration order behind `list(set)[:3]` is a nondeterministic choice in `TakeFromSet`. So `Predict` is specified by `Admissible`, the set of every response the code may give.
- On the page, the server's reply is an argument of each handler: a `Reply` record or a thrown error. After a disease reply a handler refreshes the history list. The reply then also says whether that refresh threw, and with what reason.

Consequences of the code that the proofs make visible:
- The counter resets on an error or an unexpected reply while the question stays up. So it bounds consecutive questions, not questions in total (`HandleRefinePrediction`, the `Threw` case).
- An "ask more" reply whose follow-up list is empty leaves candidates stored but no question to show (`FirstOf`, `PromptVisible`).
- A history refresh that throws after a disease reply during refinement skips the clearing. The prediction is shown, the question panel stays up and the counter is 0 (`HandleRefinePrediction`).
- A failing decoder turns a request that would ask for more into a 500, because the label is decoded before the candidates are computed (`FailingModelIsServerError`).

## Model

| member | source | states |
|---|---|---|
| PredictionService.Status | health-ml-backend/app.py:43-44 | 200 exactly for the two success shapes, 400 exactly for the rejection |
| PredictionService.Requested | health-ml-backend/app.py:39 | the supplied list is the body's "symptoms" value, or empty when the key is missing |
| PredictionService.Filter | health-ml-backend/app.py:42 | a symptom is kept iff it was supplied and is in the vocabulary; the result is no longer than the input |
| PredictionService.FilterAppend | health-ml-backend/app.py:42 | filtering distributes over concatenation, so input order is preserved |
| PredictionService.FilterIdempotent | health-ml-backend/app.py:42 | filtering a filtered list changes nothing |
| PredictionService.Features | health-ml-backend/app.py:47 | one entry per vocabulary symptom, 1 where that symptom was supplied and 0 elsewhere |
| PredictionService.FeaturesRoundTrip | health-ml-backend/app.py:47 | the symptoms marked 1 in the vector are exactly the filtered symptoms |
| PredictionService.Majority | health-ml-backend/app.py:55 | the winner is one of the three votes and occurs at least as often as any other label (a mode) |
| PredictionService.MajorityKeepsAgreement | health-ml-backend/app.py:55 | a label that two of the three votes share wins the vote |
| PredictionService.Classify | health-ml-backend/app.py:50-58 | if any model raises there is no label; if two models agree on a label, the result is that label decoded |
| PredictionService.Matching | health-ml-backend/app.py:61-64 | a disease is a candidate iff its dictionary entry shares at least one symptom with the filtered input |
| PredictionService.MatchingAppend | health-ml-backend/app.py:61-64 | candidates follow dictionary iteration order (matching distributes over splitting the dictionary) |
| PredictionService.MatchingDistinct | health-ml-backend/app.py:61-64 | since dictionary keys are distinct, the candidate list has no duplicates |
| PredictionService.CollectPossibleDiseases | health-ml-backend/app.py:61-64 | the loop builds exactly the candidate list |
| PredictionService.Lookup | health-ml-backend/app.py:70 | `disease_symptom_map[disease]` is the symptom list of a dictionary entry whose key is that disease |
| PredictionService.LookupIsEntry | health-ml-backend/app.py:70 | since the dictionary's keys are distinct, the lookup is exactly the list stored under that key |
| PredictionService.PoolMembers | health-ml-backend/app.py:68-70 | a symptom is in the union iff it is on the symptom list of one of the candidates |
| PredictionService.DistinguishingSymptoms | health-ml-backend/app.py:68-73 | the loop builds the union of the candidates' symptom lists minus the supplied symptoms |
| PredictionService.TakeFromSet | health-ml-backend/app.py:77 | `min(n, size)` distinct members of the set, in unspecified order |
| PredictionService.Predict | health-ml-backend/app.py:36-83 | the response is one the endpoint may give (`Admissible`): 500 when the body is not JSON; 400 for a missing or empty symptom list, even when nothing loaded; 500 for any other request when the vocabulary did not load; 400 without valid symptoms; 500 when a model or the decoder raises, then 500 when the dictionary did not load; "ask more" with more than one candidate; otherwise the decoded label |
| PredictionService.GetSymptoms | health-ml-backend/app.py:29-33 | the vocabulary is listed iff it loaded and is non-empty, whether or not the dictionary loaded; an empty one gives "Symptoms data not found." |
| PredictionService.RejectedIffNoValidSymptom | health-ml-backend/app.py:42-44 | a loaded service rejects with 400 and "No valid symptoms provided." iff no supplied symptom is in the vocabulary |
| PredictionService.UnloadedServiceRejectsOnlyEmptyRequests | health-ml-backend/app.py:39-44 | when start-up failed before the vocabulary was bound, a JSON request is rejected with 400 iff its symptom list is missing or empty, and gets a 500 otherwise |
| PredictionService.AskMoreShape | health-ml-backend/app.py:61-78 | "ask more" carries at least two distinct candidates, each sharing a supplied symptom; it carries at most 3 distinct follow-ups, none supplied, each on some candidate's list |
| PredictionService.EmptyFollowUps | health-ml-backend/app.py:68-78 | an empty follow-up list means every symptom of every candidate was already supplied |
| PredictionService.DiagnosisShape | health-ml-backend/app.py:50-80 | a diagnosis comes with at most one candidate and is the decoded label that two models agree on |
| PredictionService.FailingModelIsServerError | health-ml-backend/app.py:50-58 | with valid symptoms, a raising model or decoder gives a 500 whatever the candidates |
| PredictionService.MissingTableIsServerError | health-ml-backend/app.py:42-62 | with the dictionary not loaded, the response is 400 iff no supplied symptom is valid and a 500 otherwise |
| Dashboard.KindOf | frontend/src/pages/Dashboard.jsx:118-132 | the branches are tested in the handlers' order: a disease reply iff it names a non-empty disease; otherwise a chatbot reply iff the chatbot flag is set; otherwise a question reply iff both the candidate and the follow-up lists are present; every other reply falls through |
| Dashboard.FirstOf | frontend/src/pages/Dashboard.jsx:128 | the pending symptom is the first follow-up, absent iff the list is empty |
| Dashboard.DashboardState.Prompt | frontend/src/pages/Dashboard.jsx:286-299 | the panel is shown iff there are candidates, the counter is below 3 and a pending symptom exists; it lists at most 6 candidates, a prefix of them, and numbers the question exactly counter+1 of 3, which lies between 1 and 3 |
| Dashboard.DashboardState.constructor | frontend/src/pages/Dashboard.jsx:11-21 | the initial state: empty selection and extras, no prediction, candidates or question, counter 0 |
| Dashboard.DashboardState.HandleChange | frontend/src/pages/Dashboard.jsx:63-74 | a new selection (a cleared picker counts as empty) empties the confirmed extras, zeroes the counter, clears prediction, candidates, question, error and chatbot flag |
| Dashboard.DashboardState.HandlePredict | frontend/src/pages/Dashboard.jsx:91-137 | an empty selection only sets "Please select at least one symptom." and sends nothing; otherwise it sends the selection with no extras and count 0 and sets exactly the fields of the reply's branch; a disease reply whose history refresh throws keeps the prediction and shows "Error predicting disease: …" |
| Dashboard.DashboardState.HandleRefinePrediction | frontend/src/pages/Dashboard.jsx:139-196 | "yes" appends exactly the pending symptom and "no" leaves the extras unchanged; the request keeps the selection apart from the extras and carries counter+1; the counter advances by one only on a question reply below 3 and is otherwise 0; a disease or chatbot reply clears candidates and question; the third answer without either clears them with no error; an error keeps the question up; a disease reply whose history refresh throws keeps candidates and question, shows "Error refining prediction: …" and zeroes the counter |

## Left out

- Loading the pickled models, encoder, vocabulary and dictionary (health-ml-backend/app.py:11-26): file I/O. Only where the load stopped is modelled: before the vocabulary (`None` service, which still rejects an empty symptom list with 400) or at the dictionary (`table` is `None`).
- The classifiers, the label encoder and scipy's choice when all three votes differ: foreign library code. They are the fields of `Models`. The model assumes only that scipy picks one of the three votes.
- The exception text in 500 responses: it is whatever the raised exception prints.
- Request bodies whose "symptoms" value is not a list of strings: JSON typing that the model does not represent.
- Flask routing, CORS and `jsonify`, beyond the response shapes.
- The Express proxy and the frontend API wrappers: HTTP plumbing. The proxy forwards only `symptoms`, and the service reads only `symptoms`, so the confirmed extras a refinement request carries never reach the classifier. The model does not connect the client's `Reply` to the service's `Response`, because the frontend wrapper as written returns only the `disease` field.
- Authentication, user identity (`username` in the payload), the contents of the history list (only whether its refresh threw is modelled), the details fetch (`fetchDetails`), `details` and `isDetailsOpen`, and the chatbot widget: I/O and presentation.
- React's asynchronous state batching and overlapping clicks: concurrency. Each handler is one atomic step.
- Dashboard.DashboardState.HandleRefinePrediction: requires the question panel to be visible, because the handler is only reachable through the Yes/No buttons inside that panel.
