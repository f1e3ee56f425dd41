/** The symptom checker page (frontend/src/pages/SymptomChecker.jsx): the query
    box with its abortable autocomplete fetch, the duplicate-free list of
    selected symptoms, and the prediction request. Each awaited call is split
    at its `await`: one method issues the request, another applies its outcome. */
module SymptomCheckerPage {
  import opened Common

  /** A response body, uninterpreted. */
  type Json = string

  /** A request the page sends: a `/suggest` query (tagged with the run of the
      effect that issued it) or a `/predict` POST with its bearer header. */
  datatype Request =
    | SuggestRequest(symptom: string, run: nat)
    | PredictRequest(symptoms: seq<string>, authorization: string)

  /** Why a suggestion request failed: it was aborted, or anything else. */
  datatype FetchError = Canceled | OtherError

  const MinQueryLength := 2
  const SuggestionsFailed := "Failed to fetch suggestions. Try again."
  const NoSymptoms := "Please add at least one symptom."
  const NotLoggedIn := "Please log in before predicting."
  const PredictionFailed := "Prediction failed. Please try again."

  /** `addSymptom`'s new selection: `s` appended unless already there. */
  function Added(selected: seq<string>, s: string): (r: seq<string>)
    ensures Distinct(selected) ==> Distinct(r)
    ensures forall x :: x in r <==> x in selected || x == s
    ensures selected <= r && |r| <= |selected| + 1
  {
    if s in selected then selected else selected + [s]
  }

  /** The remove button's new selection: every entry but `s`, in order. */
  function Removed(selected: seq<string>, s: string): (r: seq<string>)
    ensures Distinct(selected) ==> Distinct(r)
    ensures forall x :: x in r <==> x in selected && x != s
  {
    var r := Filter(selected, x => x != s);
    assert Distinct(selected) ==> Distinct(r) by {
      if Distinct(selected) {
        FilterDistinct(selected, x => x != s);
      }
    }
    r
  }

  /** Removing keeps the order of the selection: what survives of an earlier
      part comes before what survives of a later part. */
  lemma RemovedInOrder(front: seq<string>, back: seq<string>, s: string)
    ensures Removed(front + back, s) == Removed(front, s) + Removed(back, s)
  {
    FilterAppend(front, back, x => x != s);
  }

  /** Removing the one occurrence of `s` closes the gap it leaves: the entries
      before it and after it stay, in order. */
  lemma RemovedAt(before: seq<string>, s: string, after: seq<string>)
    requires s !in before && s !in after
    ensures Removed(before + [s] + after, s) == before + after
  {
    assert Removed(before + [s] + after, s) == Removed(before + [s], s) + Removed(after, s) by {
      RemovedInOrder(before + [s], after, s);
    }
    assert Removed(before + [s], s) == before by {
      RemoveUndoesAdd(before, s);
    }
    assert Removed(after, s) == after by {
      FilterAll(after, x => x != s);
    }
  }

  /** Removing a symptom just added to a selection that lacked it gives the
      selection back. */
  lemma RemoveUndoesAdd(selected: seq<string>, s: string)
    requires s !in selected
    ensures Removed(Added(selected, s), s) == selected
  {
    FilterAppend(selected, [s], x => x != s);
    FilterAll(selected, x => x != s);
    assert Filter([s], x => x != s) == [];
  }

  /** Adding a symptom that is already selected changes nothing. */
  lemma AddIdempotent(selected: seq<string>, s: string)
    ensures Added(Added(selected, s), s) == Added(selected, s)
  {
  }

  class SymptomChecker {
    var query: string
    var autocomplete: seq<string>
    var selected: seq<string>
    var result: Option<Json>
    var loading: bool
    var error: Option<string>
    /** How often the autocomplete effect has run; each run aborts the last. */
    var run: nat
    /** Whether the request of the current run is still awaited. */
    var awaiting: bool
    /** Every request sent so far, oldest first. */
    var sent: seq<Request>

    /** The selection has no duplicates; a query too short to search shows no
        suggestions and has no request in flight; the request in flight was
        sent for the current query and run. */
    predicate Valid()
      reads this
    {
      && Distinct(selected)
      && (|query| < MinQueryLength ==> autocomplete == [] && !awaiting)
      && (awaiting ==> SuggestRequest(query, run) in sent)
    }

    /** The first render: everything empty, the effect having run once on the
        empty query. */
    constructor()
      ensures Valid()
      ensures query == "" && autocomplete == [] && selected == [] && result == None
      ensures !loading && error == None && sent == [] && !awaiting
    {
      query, autocomplete, selected, result := "", [], [], None;
      loading, error := false, None;
      run, awaiting, sent := 0, false, [];
    }

    /** The effect on `query`: it aborts the request of the previous run,
        and either clears the suggestions of a short query without a request
        or sends `/suggest` for it. */
    method QueryEffect()
      requires Distinct(selected)
      modifies this
      ensures Valid()
      ensures run == old(run) + 1
      ensures |query| < MinQueryLength ==>
        autocomplete == [] && !awaiting && sent == old(sent)
      ensures |query| >= MinQueryLength ==>
        awaiting && autocomplete == old(autocomplete) && sent == old(sent) + [SuggestRequest(query, run)]
      ensures query == old(query) && selected == old(selected) && result == old(result)
      ensures loading == old(loading) && error == old(error)
    {
      run := run + 1;
      awaiting := false;
      if |query| < MinQueryLength {
        autocomplete := [];
      } else {
        sent := sent + [SuggestRequest(query, run)];
        awaiting := true;
      }
    }

    /** Typing: `setQuery(value)`; React skips the effect when the value is
        unchanged. */
    method ChangeQuery(value: string)
      requires Valid()
      modifies this
      ensures Valid()
      ensures query == value
      ensures value == old(query) ==> run == old(run) && sent == old(sent) && autocomplete == old(autocomplete)
      ensures value != old(query) ==> run == old(run) + 1
      ensures value != old(query) && |value| < MinQueryLength ==>
        autocomplete == [] && sent == old(sent)
      ensures value != old(query) && |value| >= MinQueryLength ==>
        sent == old(sent) + [SuggestRequest(value, run)] && autocomplete == old(autocomplete)
      ensures selected == old(selected) && result == old(result)
      ensures loading == old(loading) && error == old(error)
    {
      if value != query {
        query := value;
        QueryEffect();
      }
    }

    /** The `/suggest` request of run `r` settles. Only the request of the
        latest run still counts; an aborted one changes nothing. A response
        sets the suggestions (an absent list counting as none) and leaves the
        error alone; a failure other than the abort sets the error. */
    method SuggestionArrived(r: nat, outcome: Result<Option<seq<string>>, FetchError>)
      requires Valid()
      modifies this
      ensures Valid()
      ensures !(r == old(run) && old(awaiting)) ==>
        autocomplete == old(autocomplete) && error == old(error) && awaiting == old(awaiting)
      ensures r == old(run) && old(awaiting) && outcome.Success? ==>
        autocomplete == outcome.value.GetOr([]) && error == old(error) && !awaiting
      ensures r == old(run) && old(awaiting) && outcome == Failure(Canceled) ==>
        autocomplete == old(autocomplete) && error == old(error) && !awaiting
      ensures r == old(run) && old(awaiting) && outcome == Failure(OtherError) ==>
        autocomplete == old(autocomplete) && error == Some(SuggestionsFailed) && !awaiting
      ensures query == old(query) && selected == old(selected) && result == old(result)
      ensures loading == old(loading) && run == old(run) && sent == old(sent)
    {
      if r == run && awaiting {
        awaiting := false;
        match outcome {
          case Success(list) => autocomplete := list.GetOr([]);
          case Failure(Canceled) =>
          case Failure(OtherError) => error := Some(SuggestionsFailed);
        }
      }
    }

    /** `addSymptom(s)`: the symptom joins the selection unless it is there
        already; the query, the suggestions and the error are cleared. */
    method AddSymptom(s: string)
      requires Valid()
      modifies this
      ensures Valid()
      ensures selected == Added(old(selected), s)
      ensures query == "" && autocomplete == [] && error == None
      ensures old(query) == "" ==> run == old(run) && sent == old(sent)
      ensures old(query) != "" ==> run == old(run) + 1 && sent == old(sent)
      ensures result == old(result) && loading == old(loading)
    {
      selected := Added(selected, s);
      autocomplete := [];
      error := None;
      if query != "" {
        query := "";
        QueryEffect();
      }
    }

    /** The remove button of `s`: the others stay, in order. */
    method RemoveSymptom(s: string)
      requires Valid()
      modifies this
      ensures Valid()
      ensures selected == Removed(old(selected), s)
      ensures query == old(query) && autocomplete == old(autocomplete) && result == old(result)
      ensures loading == old(loading) && error == old(error) && sent == old(sent)
      ensures run == old(run) && awaiting == old(awaiting)
    {
      selected := Removed(selected, s);
    }

    /** The Clear button: selection, result and error go; the query stays. */
    method ClearAll()
      requires Valid()
      modifies this
      ensures Valid()
      ensures selected == [] && result == None && error == None
      ensures query == old(query) && autocomplete == old(autocomplete)
      ensures loading == old(loading) && sent == old(sent)
      ensures run == old(run) && awaiting == old(awaiting)
    {
      selected, result, error := [], None, None;
    }

    /** The Predict button up to the POST. It is disabled while loading. An
        empty selection only sets its error. Otherwise loading starts with
        error and result cleared; without a signed-in user (`user` is None)
        the error says so and loading stops; a failure to get the ID token
        fails the prediction; with a token the selection is POSTed and the
        page waits for `PredictArrived`. */
    method ClickPredict(user: Option<Outcome<string>>)
      requires Valid()
      modifies this
      ensures Valid()
      ensures old(loading) ==>
        selected == old(selected) && result == old(result) && loading && error == old(error) && sent == old(sent)
      ensures !old(loading) && old(selected) == [] ==>
        error == Some(NoSymptoms) && result == old(result) && !loading && sent == old(sent)
      ensures !old(loading) && old(selected) != [] && user.None? ==>
        error == Some(NotLoggedIn) && result == None && !loading && sent == old(sent)
      ensures !old(loading) && old(selected) != [] && user == Some(Failed) ==>
        error == Some(PredictionFailed) && result == None && !loading && sent == old(sent)
      ensures !old(loading) && old(selected) != [] && user.Some? && user.value.Done? ==>
        && error == None && result == None && loading
        && sent == old(sent) + [PredictRequest(old(selected), "Bearer " + user.value.value)]
      ensures selected == old(selected) && query == old(query) && autocomplete == old(autocomplete)
      ensures run == old(run) && awaiting == old(awaiting)
    {
      if loading {
        return;
      }
      if selected == [] {
        error := Some(NoSymptoms);
        return;
      }
      loading, error, result := true, None, None;
      match user {
        case None =>
          error := Some(NotLoggedIn);
          loading := false;
        case Some(Failed) =>
          error := Some(PredictionFailed);
          loading := false;
        case Some(Done(token)) =>
          sent := sent + [PredictRequest(selected, "Bearer " + token)];
      }
    }

    /** The `/predict` POST settles: the response becomes the result, or the
        error says the prediction failed; loading ends either way. Nothing
        happens when no prediction is in flight. */
    method PredictArrived(outcome: Outcome<Json>)
      requires Valid()
      modifies this
      ensures Valid()
      ensures !old(loading) ==> result == old(result) && error == old(error) && !loading
      ensures old(loading) && outcome.Done? ==> result == Some(outcome.value) && error == old(error) && !loading
      ensures old(loading) && outcome.Failed? ==> result == old(result) && error == Some(PredictionFailed) && !loading
      ensures selected == old(selected) && query == old(query) && autocomplete == old(autocomplete)
      ensures sent == old(sent) && run == old(run) && awaiting == old(awaiting)
    {
      if loading {
        match outcome {
          case Done(body) => result := Some(body);
          case Failed => error := Some(PredictionFailed);
        }
        loading := false;
      }
    }
  }
}
