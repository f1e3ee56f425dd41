# CureMate core, modelled in Dafny

CureMate is a symptom checker. A FastAPI back end normalises the symptom names a
user types, asks a trained classifier for a disease, looks up its description,
medications, diets, precautions and workouts, and keeps a per-user prediction
history in Firestore. A second small service offers autocomplete with
neighbour-based symptom groups, and an `/auth` router re-checks Firebase ID
tokens. A React front end drives all of this: the symptom checker page, an FAQ
accordion, the history list, a support form sent through EmailJS, and the
profile page.

This project models that core and proves what it promises:

- `Predictor` (predictor.dfy): symptom-name normalisation with its alias table, the
  cleaning of per-disease table cells, the valid/invalid split and the one-hot
  input vector of `predict_disease`.
- `MainApi` (main_api.dfy): the bearer-token dependency, `/suggest` with
  precomputed bundles, the top-3 co-occurrence bundle builder, and the history
  store as a class over a map `uid -> doc id -> document` with `/predict`,
  `DELETE /history/{id}` and `DELETE /history`.
- `NeighbourSuggestions` (neighbour_suggestions.dfy): the stand-alone `/suggest`,
  whose related group is the query and the next two entries of the symptom list.
- `Auth` (auth.dfy): the second token check, which splits the header differently,
  and the `/me` projection. Two lemmas pin down where the two parsers disagree.
- `SymptomCheckerPage`, `FaqPage`, `HistoryPage`, `SupportPage`, `ProfilePage`: one
  class per React component. Its fields are the component's state. Its methods
  are the event handlers. An awaited call is split into a method that issues it
  and a method that applies its outcome, or its outcome is a parameter.
- `Backend`, `Text`, `Common`: what these share. This covers HTTP errors, the
  claims of a token, the autocomplete list, Python's `strip`/`lower`/`split` and
  `sorted(set(...))` on ASCII strings, and the list filter behind every
  comprehension and `Array.filter`.

Outside code is passed in as a parameter. This covers the classifier, the CSV
tables, `ast.literal_eval`, Firebase's token check, the clock, and each network
call's outcome. The request log of a page is a `sent` field (`writes` on the
profile page, whose requests are Firestore writes), so "no request is made" is
`sent == old(sent)`.

## Model

| member | source | states |
|---|---|---|
| Predictor.AliasTargets | backend/model/predictor.py:43-54 | every alias target is already normal (no space, no upper case, no outer whitespace) and is not itself an alias key |
| Predictor.LookupKey | backend/model/predictor.py:61 | the lookup key has no space, no upper-case letter and no outer whitespace |
| Predictor.NormalizeSymptom | backend/model/predictor.py:59-62 | the result is the alias target when the stripped, lower-cased, underscored key is an alias key, else that key; it is never an alias key and has no space or outer whitespace |
| Predictor.NormalizeIdempotent | backend/model/predictor.py:43-62 | normalising a normalised name changes nothing |
| Predictor.SpacedAliasKeysUnreachable | backend/model/predictor.py:43-62 | no input ever looks up an alias key that contains a space |
| Predictor.UnderscoredNotKey | backend/model/predictor.py:43-54 | no alias key contains an underscore |
| Predictor.HeadPainNotAliased | backend/model/predictor.py:50-62 | "head pain" normalises to "head_pain", not to "headache" |
| Predictor.NormalizeIgnoresCase | backend/model/predictor.py:61 | a name typed in capitals normalises exactly as the name does |
| Predictor.NormalizeIgnoresOuterSpace | backend/model/predictor.py:61 | whitespace before and after a name does not change its normalisation |
| Predictor.NormalizeAll | backend/model/predictor.py:96 | same length as the input, each entry the normalisation of the input at that position |
| Predictor.StringItems | backend/model/predictor.py:80 | exactly the string items of a parsed list or tuple are kept |
| Predictor.NothingSurvives | backend/model/predictor.py:65-85 | cells that are all NaN or numbers collect nothing and clean to ["Not available"] |
| Predictor.PlainContribution | backend/model/predictor.py:73-84 | a stripped string cell that does not look like a list is kept as it is |
| Predictor.CollectedPlain | backend/model/predictor.py:68-84 | cells holding plain stripped strings that do not look like lists collect to exactly those strings, in order |
| Predictor.CleanedSortedStrings | backend/model/predictor.py:65-85 | a non-empty strictly sorted list of plain stripped strings, given as cells, cleans to itself |
| Predictor.CleanValues | backend/model/predictor.py:65-85 | the loop plus sort: the result is non-empty and strictly sorted (so duplicate-free); it is ["Not available"] when nothing was collected, otherwise it holds exactly the strings some cell contributes |
| Predictor.ValidInvalidPartition | backend/model/predictor.py:96-100 | valid and invalid together hold every normalised name as often as it occurs; every valid name is known and every invalid one unknown |
| Predictor.IndexOf | backend/model/predictor.py:113 | `list.index`: the first position holding the name |
| Predictor.InputVector | backend/model/predictor.py:110-114 | the vector has one 0/1 entry per column, and entry i is 1 exactly when column i is the first occurrence of a valid name |
| Predictor.PredictDisease | backend/model/predictor.py:90-153 | `Predicts`: the error dictionary, with the normalised list and "No valid symptoms provided.", exactly when no name is valid; otherwise the model's verdict on the one-hot vector of the valid names, with the invalid ones, the description or "Not available", and the four cleaned lists |
| Predictor.PredictsUnique | backend/model/predictor.py:90-153 | that description fixes the whole result: two results meeting it are equal |
| Text.StripEmptyIffBlank | backend/main.py:142 | `not s.strip()` holds exactly when every character is whitespace |
| Text.Slug | backend/main.py:144 | `lower().replace(" ", "_")` keeps the length, leaves no space and no upper-case letter, and keeps every other whitespace character in place |
| Text.SlugIdempotent | backend/model/predictor.py:61 | a string without spaces or capitals is its own slug |
| Text.SplitOnce | backend/main.py:124 | `split(" ", 1)` gives two parts exactly when there is a space, and they rebuild the string around its first space |
| Text.SplitAfterFirst | backend/auth.py:31 | `split(" ")[1]` of `p + " " + rest` is the text of `rest` up to its first space |
| Text.SortedSet | backend/model/predictor.py:85 | `sorted(set(xs))` is strictly increasing and holds exactly the elements of xs |
| Text.StrictlySortedUnique | backend/model/predictor.py:85 | two strictly sorted lists with the same elements are equal |
| Backend.Autocomplete | backend/main.py:145 | a prefix of the matches in list order, of length ten or the number of matches (repeats counted) when that is smaller; fewer than ten only when no other symptom contains the query |
| Backend.AutocompleteAllMatch | backend/symptom_suggestions.py:44 | when every symptom contains the query, the list is the first ten symptoms |
| Backend.AutocompleteInOrder | backend/main.py:145 | matches from an earlier part of the list come first, and ten of them there shut out everything later |
| MainApi.BearerSplitOnce | backend/main.py:122-124 | on a header with the bearer prefix, `split(" ", 1)[1]` is everything after "Bearer " |
| MainApi.IdToken | backend/main.py:124 | the token is the text after "Bearer ", stripped |
| MainApi.VerifyFirebaseToken | backend/main.py:119-129 | every failure is 401; a missing or empty header gives "Missing Authorization header"; a header without the prefix gives "Invalid Authorization header"; it succeeds exactly when the prefix is there and Firebase accepts the stripped token, and then returns Firebase's claims |
| MainApi.Suggest | backend/main.py:140-149 | 400 "Query cannot be empty" exactly for a blank query; otherwise the input is the slug of the query (not stripped), the autocomplete list is that of the slug, and there is one pair suggestion exactly when the slug is a bundle key, and it is that bundle |
| MainApi.Others | backend/main.py:102 | dropping the symptom leaves exactly the columns with another name, each once |
| MainApi.ArgMax | backend/main.py:101 | a candidate whose count no other candidate exceeds |
| MainApi.Top | backend/main.py:101-103 | `head(k)` takes min(k, n) candidates, all drawn from the candidates |
| MainApi.TopNonIncreasing | backend/main.py:101-103 | the chosen candidates come in non-increasing count order |
| MainApi.TopMaximal | backend/main.py:101-103 | no candidate left out has a larger count than a chosen one |
| MainApi.TopDistinct | backend/main.py:101-103 | no candidate is chosen twice |
| MainApi.RelatedRanked | backend/main.py:99-103 | at most three other columns, distinct, never the symptom itself, in non-increasing co-occurrence count, none beaten by a column left out; non-empty exactly when there are two columns or more |
| MainApi.RelatedNonEmpty | backend/main.py:103-104 | `top_related` is non-empty exactly when there is another column |
| MainApi.BundleShape | backend/main.py:103-105 | a bundle is its symptom followed by one to three other symptoms, none twice |
| MainApi.BuildBundles | backend/main.py:98-105 | a bundle is stored for every column when there are two or more columns and for none otherwise, and each stored value is that column's bundle |
| MainApi.HistoryStore.Predict | backend/main.py:155-175 | a failed token check or an empty list (400) writes nothing; a failure inside the try is 500 "Prediction failed: ..." and writes nothing; otherwise exactly one document joins the caller's history, and the reply echoes the symptoms and holds the predictor's result as `Predicts` describes it, field by field; the stored document holds the same result |
| MainApi.HistoryStore.DeleteHistory | backend/main.py:205-213 | 404 "Not found" with the store unchanged for an id the caller does not have; otherwise that document alone goes and other users are untouched |
| MainApi.HistoryStore.ClearAllHistory | backend/main.py:219-233 | 404 "No history found" with nothing changed when the caller has no documents; otherwise all of them go, the count is their number, and other users are untouched |
| NeighbourSuggestions.NormalizeSymptomList | backend/symptom_suggestions.py:18-24 | each entry is the stripped, lower-cased, underscored symptom cell |
| NeighbourSuggestions.NormalizeSymptomListIdempotent | backend/symptom_suggestions.py:18-24 | normalising the list again changes nothing |
| NeighbourSuggestions.Neighbours | backend/symptom_suggestions.py:50-55 | a group of one to three entries starting at the given index, cut off at the end of the list |
| NeighbourSuggestions.Suggest | backend/symptom_suggestions.py:36-58 | the input is the slug of the query; autocomplete as in the main service; one group exactly when the slug is a symptom, and it is the neighbours of its first occurrence |
| NeighbourSuggestions.EmptyQueryMatchesAll | backend/symptom_suggestions.py:41-44 | there is no emptiness check, and the empty query yields the first ten symptoms |
| NeighbourSuggestions.BlankQueryIsUnderscores | backend/symptom_suggestions.py:41 | there is no strip, and two blanks are searched for as "__" |
| Auth.IdToken | backend/auth.py:31 | the token is the text after "Bearer " up to the next space, so it holds no space |
| Auth.VerifyFirebaseToken | backend/auth.py:24-39 | every failure is 401 with a detail starting "Token verification failed: "; a header without the prefix gives "... 401: Invalid auth header"; it succeeds exactly when the prefix is there and Firebase accepts the token, and then returns its claims |
| Auth.GetCurrentUser | backend/auth.py:41-46 | exactly the uid, e-mail and phone number of the claims, or the token check's error |
| Auth.ParsersAgree | backend/auth.py:31 | on "Bearer " plus a token without spaces or outer whitespace, both checks extract that token ("" for "Bearer ") |
| Auth.ParsersDisagreeOnDoubleSpace | backend/auth.py:31 | on "Bearer " followed by a second space and a token, the main check extracts the token and this one "" |
| Auth.ParsersDisagreeOnSecondWord | backend/auth.py:31 | on "Bearer " followed by two space-separated words, the main check extracts both words and this one only the first |
| SymptomCheckerPage.Added | frontend/src/pages/SymptomChecker.jsx:46 | the symptom is appended only when absent, so the selection stays duplicate-free and extends the old one |
| SymptomCheckerPage.Removed | frontend/src/pages/SymptomChecker.jsx:138 | exactly the other entries remain, duplicate-free |
| SymptomCheckerPage.RemovedInOrder | frontend/src/pages/SymptomChecker.jsx:138 | what survives of an earlier part of the selection comes before what survives of a later part |
| SymptomCheckerPage.RemovedAt | frontend/src/pages/SymptomChecker.jsx:138 | removing the one occurrence of a symptom leaves the entries before and after it, in order |
| SymptomCheckerPage.RemoveUndoesAdd | frontend/src/pages/SymptomChecker.jsx:46-138 | removing a symptom just added gives the previous selection back |
| SymptomCheckerPage.AddIdempotent | frontend/src/pages/SymptomChecker.jsx:46 | adding the same symptom twice is adding it once |
| SymptomCheckerPage.SymptomChecker.QueryEffect | frontend/src/pages/SymptomChecker.jsx:22-42 | a new run aborts the previous request; a query under two characters clears the suggestions and sends nothing; a longer one sends `/suggest` for it |
| SymptomCheckerPage.SymptomChecker.ChangeQuery | frontend/src/pages/SymptomChecker.jsx:105 | the query becomes the typed value, and the effect runs only when it changed |
| SymptomCheckerPage.SymptomChecker.SuggestionArrived | frontend/src/pages/SymptomChecker.jsx:28-41 | only the latest run's response counts: it sets the suggestions (none when missing) and leaves the error; an abort sets nothing; another failure sets "Failed to fetch suggestions. Try again." |
| SymptomCheckerPage.SymptomChecker.AddSymptom | frontend/src/pages/SymptomChecker.jsx:45-50 | the selection gains the symptom if absent; query, suggestions and error are cleared |
| SymptomCheckerPage.SymptomChecker.RemoveSymptom | frontend/src/pages/SymptomChecker.jsx:138 | the selection loses that symptom and nothing else changes |
| SymptomCheckerPage.SymptomChecker.ClearAll | frontend/src/pages/SymptomChecker.jsx:160-164 | selection, result and error are cleared; the query stays |
| SymptomCheckerPage.SymptomChecker.ClickPredict | frontend/src/pages/SymptomChecker.jsx:53-73 | disabled while loading; an empty selection only sets its error; otherwise loading starts with error and result cleared; no user or a failed token fetch sets the matching error and stops loading; with a token the selection is POSTed with the bearer header |
| SymptomCheckerPage.SymptomChecker.PredictArrived | frontend/src/pages/SymptomChecker.jsx:74-79 | the response becomes the result, or the error says the prediction failed; loading ends false |
| FaqPage.FilteredFaqs | frontend/src/pages/FAQPage.jsx:113-117 | exactly the entries whose question or answer contains the query, ignoring case |
| FaqPage.FilteredInOrder | frontend/src/pages/FAQPage.jsx:113-117 | the filter keeps the original order |
| FaqPage.EmptySearchShowsAll | frontend/src/pages/FAQPage.jsx:113-117 | an empty query shows every entry |
| FaqPage.EmptySearchShowsSixteen | frontend/src/pages/FAQPage.jsx:9-117 | an empty query shows all sixteen questions |
| FaqPage.SearchIgnoresCase | frontend/src/pages/FAQPage.jsx:115-116 | typing the query in capitals lists the same entries |
| FaqPage.Toggled | frontend/src/pages/FAQPage.jsx:108-110 | toggling the open entry closes it; toggling any other opens that one |
| FaqPage.ToggleTwice | frontend/src/pages/FAQPage.jsx:108-110 | toggling the same entry twice restores the state exactly when nothing or that entry was open, and otherwise leaves nothing open |
| FaqPage.FaqList.Toggle | frontend/src/pages/FAQPage.jsx:108-110 | the open entry becomes the toggled one; the query is kept |
| FaqPage.FaqList.SearchChange | frontend/src/pages/FAQPage.jsx:120-122 | only the query changes; the open index is kept |
| FaqPage.FaqList.ClearSearch | frontend/src/pages/FAQPage.jsx:125-127 | the query becomes ""; the open index is kept |
| HistoryPage.WithoutId | frontend/src/pages/History.jsx:53 | exactly the rows with another id remain |
| HistoryPage.WithoutAbsentId | frontend/src/pages/History.jsx:53 | deleting an id no row has leaves the list as it is |
| HistoryPage.WithoutIdInOrder | frontend/src/pages/History.jsx:53 | the kept rows stay in order |
| HistoryPage.FormatDateTime | frontend/src/pages/History.jsx:80-92 | "—" for a missing or empty date, an unparseable date unchanged, otherwise the locale rendering; never blank unless the rendering is |
| HistoryPage.History.FetchHistory | frontend/src/pages/History.jsx:19-39 | the error is cleared; with no user, the login message and no request; otherwise the list from the response (empty when missing) or the fetch-failed error, and loading ends false |
| HistoryPage.History.HandleDelete | frontend/src/pages/History.jsx:41-58 | a declined confirm changes nothing; with no user, "Please login."; a successful delete removes exactly the rows with that id; a failed one only alerts |
| HistoryPage.History.HandleClearAll | frontend/src/pages/History.jsx:61-78 | as for delete, but a success empties the list and a failure alerts "Failed to delete all history." |
| SupportPage.WithField | frontend/src/pages/SupportPage.jsx:15-21 | only the named field takes the new value |
| SupportPage.WithFieldSameValue | frontend/src/pages/SupportPage.jsx:15-21 | writing a field back with the value it has changes nothing |
| SupportPage.WithFieldLastWins | frontend/src/pages/SupportPage.jsx:15-21 | the last write to a field wins |
| SupportPage.ParamsOf | frontend/src/pages/SupportPage.jsx:40-45 | the three fields are copied and the subject is "Support Request" |
| SupportPage.SupportForm.InputChange | frontend/src/pages/SupportPage.jsx:15-21 | the form changes in the named field only |
| SupportPage.SupportForm.Submit | frontend/src/pages/SupportPage.jsx:24-49 | an incomplete form only sets "Please fill in all fields." and sends nothing; a complete one shows "Submitting..." and sends its parameters |
| SupportPage.SupportForm.SendSettled | frontend/src/pages/SupportPage.jsx:49-57 | success shows the sent message and empties the form; failure shows the failure message and keeps the form |
| SupportPage.SupportForm.Clear | frontend/src/pages/SupportPage.jsx:129 | the form is emptied, the status kept |
| ProfilePage.AvatarLetter | frontend/src/pages/Profile.jsx:111-113 | one character: the upper-cased first letter of the name, else of the e-mail, else "?" |
| ProfilePage.UserId | frontend/src/pages/Profile.jsx:129 | the phone number, else the e-mail, else "N/A"; never empty |
| ProfilePage.Loaded | frontend/src/pages/Profile.jsx:31-35 | each field is the stored value, "" when missing or empty |
| ProfilePage.LoadSaveRoundTrip | frontend/src/pages/Profile.jsx:31-56 | loading the four saved fields gives them back |
| ProfilePage.DeleteErrorMessage | frontend/src/pages/Profile.jsx:100-104 | the sign-in-again message exactly for "auth/requires-recent-login", the generic one otherwise |
| ProfilePage.Profile.LoadProfile | frontend/src/pages/Profile.jsx:24-42 | the stored fields when there is a user and a document, nothing changed otherwise |
| ProfilePage.Profile.SaveClicked | frontend/src/pages/Profile.jsx:45-58 | with no user, an alert and no write with `saving` untouched; otherwise `saving` is set and exactly the four fields are merged into the user's document |
| ProfilePage.Profile.SaveSettled | frontend/src/pages/Profile.jsx:59-65 | an alert reports the outcome and `saving` ends false |
| ProfilePage.Profile.HandleDeleteAccount | frontend/src/pages/Profile.jsx:69-108 | a declined confirm does nothing; an empty password prompt cancels; success alerts and goes to /login; a failure sets the error its code maps to; `deleting` ends false |

## Left out

- Firebase: the Admin SDK, `verify_id_token`, Firestore and client auth. The token check is a function parameter (`TokenVerifier`). The history collection is a map. A page learns whether a user is signed in through a parameter.
- The trained classifier, the pandas CSV loading and the per-disease row lookups are parameters (`model`, `Tables`). A row's cells arrive already flattened.
- `ast.literal_eval` is a parameter (`literalEval`). A cell that is neither NaN, a number nor a string is not modelled, because the CSV tables hold only those.
- MainApi.HistoryStore.Predict, DeleteHistory and ClearAllHistory take the token check's result as an argument, as FastAPI's `Depends` supplies it. An exception inside the try of `/predict` is the parameter `failure`. The server clock is `now`. The new document id is `newId`.
- MainApi.HistoryStore.ClearAllHistory: the count is returned as a number. The text "Deleted N history records" is not modelled.
- MainApi.Suggest and NeighbourSuggestions.Suggest: a pair suggestion is the bundle's list itself. The `{"symptoms": ...}` wrapper around it is not modelled.
- MainApi.BuildBundles requires distinct column names. With a repeated name, pandas returns a frame instead of a column.
- MainApi.BuildBundles indexes the training rows by column position. The KeyError that `train_df[symptom]` raises when a raw column name differs from its lower-cased, stripped form is not modelled.
- MainApi.BuildBundles loads bundles from the JSON file when it exists and writes them back otherwise. Neither the file read nor the write is modelled.
- MainApi.Top: `sort_values` does not fix the order among equal counts. The model takes the first largest candidate, and TopNonIncreasing, TopMaximal and TopDistinct are proved for that choice only. Other tie orders are not modelled.
- `get_history` (listing and ordering by date) and the root endpoints are not modelled.
- Auth.VerifyFirebaseToken takes the header as a string. A missing header is rejected by FastAPI with 422 before the function runs, and that is not modelled.
- Case mapping and whitespace are ASCII only. Unicode `lower()`/`toLowerCase()` and non-ASCII whitespace are not modelled.
- Async and abort mechanics are not modelled as concurrency. "Last query wins" is a run counter. Awaited calls are split into an issuing method and a settling method, or their outcome is a parameter.
- HistoryPage.History handlers run to their end in one step. The intermediate `loading == true` of `fetchHistory` is not observable in the model. A failed token fetch and a failed request are one outcome.
- SymptomCheckerPage.SymptomChecker.QueryEffect compares the number of characters with 2. JavaScript's `query.length` counts UTF-16 code units, so a query of one character outside the Basic Multilingual Plane searches there and is cleared here.
- SymptomCheckerPage.SymptomChecker.ClickPredict: a failed `getIdToken` is the outcome `Failed`, handled like a failed POST.
- SymptomCheckerPage.SymptomChecker.PredictArrived leaves `error` as it is on success, as the code does. A suggestion error that arrives while a prediction is in flight therefore survives it.
- SupportPage.SupportForm: browser-side `required` and `type="email"` validation is not modelled. Only the handler's own emptiness check is.
- SupportPage.SupportForm.SendSettled requires a send in flight. A settle without a send cannot happen.
- Locale date formatting (`toLocaleString`) and the account-creation date, time and weekday displays on the profile page are not modelled. FormatDateTime takes `new Date` parsing and rendering as parameters.
- The profile form's per-field `onChange` setters, the account-details toggle and the history detail modal are not modelled. They only set one field each.
