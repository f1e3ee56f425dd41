/** The history page (frontend/src/pages/History.jsx): the list of past
    predictions with delete-one and delete-all, and the date shown for each.
    Each handler runs to its end in one step: `signedIn` says whether a user
    is signed in, `outcome` how the awaited token fetch and request ended. */
module HistoryPage {
  import opened Common

  /** One history row as the back end returns it; only the id matters here. */
  datatype Entry = Entry(id: string, data: string)

  /** A request the page sends to the back end. */
  datatype Request = GetHistory | DeleteEntry(id: string) | DeleteAll

  const LoginToView := "Please login to view history."
  const FetchFailed := "Failed to fetch history."
  const PleaseLogin := "Please login."
  const DeleteFailed := "Failed to delete entry."
  const ClearFailed := "Failed to delete all history."
  const Dash := "\U{2014}"

  /** The list after a successful delete of `id`: every other row, in order. */
  function WithoutId(history: seq<Entry>, id: string): (r: seq<Entry>)
    ensures |r| <= |history|
    ensures forall k :: 0 <= k < |r| ==> r[k] in history && r[k].id != id
    ensures forall k :: 0 <= k < |history| && history[k].id != id ==> history[k] in r
  {
    Filter(history, (h: Entry) => h.id != id)
  }

  /** Deleting an id that no row has leaves the list as it is. */
  lemma WithoutAbsentId(history: seq<Entry>, id: string)
    requires forall k :: 0 <= k < |history| ==> history[k].id != id
    ensures WithoutId(history, id) == history
  {
    FilterAll(history, (h: Entry) => h.id != id);
  }

  /** Deleting is order-preserving: the rows kept from an earlier part of the
      list come first. */
  lemma WithoutIdInOrder(front: seq<Entry>, back: seq<Entry>, id: string)
    ensures WithoutId(front + back, id) == WithoutId(front, id) + WithoutId(back, id)
  {
    FilterAppend(front, back, (h: Entry) => h.id != id);
  }

  /** `formatDateTime`: "—" for a missing or empty date, an unparseable date
      unchanged, otherwise the locale rendering (`parses` and `render` stand
      for `new Date` and `toLocaleString`). A date shows as blank only when
      it parses and the locale renders it blank. */
  function FormatDateTime(date: Option<string>, parses: string -> bool, render: string -> string): (r: string)
    ensures date.None? || date == Some("") ==> r == Dash
    ensures date.Some? && date.value != "" && !parses(date.value) ==> r == date.value
    ensures date.Some? && date.value != "" && parses(date.value) ==> r == render(date.value)
    ensures r == "" ==> date.Some? && date.value != "" && parses(date.value) && render(date.value) == ""
  {
    match date
    case None => Dash
    case Some(s) =>
      if s == "" then Dash
      else if !parses(s) then s
      else render(s)
  }

  class History {
    var history: seq<Entry>
    var loading: bool
    var error: string
    /** The `alert` messages shown so far, oldest first. */
    var alerts: seq<string>
    /** Every request sent so far, oldest first. */
    var sent: seq<Request>

    constructor()
      ensures history == [] && !loading && error == "" && alerts == [] && sent == []
    {
      history, loading, error, alerts, sent := [], false, "", [], [];
    }

    /** `fetchHistory`. The error is cleared first. Without a user the page
        asks to log in, with loading untouched and no request. Otherwise the
        response list (none counting as empty) replaces the history, or the
        error reports the failure; loading ends false either way. */
    method FetchHistory(signedIn: bool, outcome: Outcome<Option<seq<Entry>>>)
      modifies this
      ensures !signedIn ==>
        error == LoginToView && loading == old(loading) && history == old(history) && sent == old(sent)
      ensures signedIn ==> !loading && sent == old(sent) + [GetHistory]
      ensures signedIn && outcome.Done? ==> history == outcome.value.GetOr([]) && error == ""
      ensures signedIn && outcome.Failed? ==> history == old(history) && error == FetchFailed
      ensures alerts == old(alerts)
    {
      error := "";
      if !signedIn {
        error := LoginToView;
        return;
      }
      loading := true;
      sent := sent + [GetHistory];
      match outcome {
        case Done(list) => history := list.GetOr([]);
        case Failed => error := FetchFailed;
      }
      loading := false;
    }

    /** `handleDelete(id)`. A declined confirmation changes nothing; without
        a user the page asks to log in; a successful delete drops exactly the
        rows with that id; a failed one only raises an alert. */
    method HandleDelete(id: string, confirmed: bool, signedIn: bool, succeeded: bool)
      modifies this
      ensures !confirmed ==>
        history == old(history) && error == old(error) && alerts == old(alerts) && sent == old(sent)
      ensures confirmed && !signedIn ==>
        history == old(history) && error == PleaseLogin && alerts == old(alerts) && sent == old(sent)
      ensures confirmed && signedIn ==> error == old(error) && sent == old(sent) + [DeleteEntry(id)]
      ensures confirmed && signedIn && succeeded ==>
        history == WithoutId(old(history), id) && alerts == old(alerts)
      ensures confirmed && signedIn && !succeeded ==>
        history == old(history) && alerts == old(alerts) + [DeleteFailed]
      ensures loading == old(loading)
    {
      if !confirmed {
        return;
      }
      if !signedIn {
        error := PleaseLogin;
        return;
      }
      sent := sent + [DeleteEntry(id)];
      if succeeded {
        history := WithoutId(history, id);
      } else {
        alerts := alerts + [DeleteFailed];
      }
    }

    /** `handleClearAll`: as `HandleDelete`, but a success empties the list. */
    method HandleClearAll(confirmed: bool, signedIn: bool, succeeded: bool)
      modifies this
      ensures !confirmed ==>
        history == old(history) && error == old(error) && alerts == old(alerts) && sent == old(sent)
      ensures confirmed && !signedIn ==>
        history == old(history) && error == PleaseLogin && alerts == old(alerts) && sent == old(sent)
      ensures confirmed && signedIn ==> error == old(error) && sent == old(sent) + [DeleteAll]
      ensures confirmed && signedIn && succeeded ==> history == [] && alerts == old(alerts)
      ensures confirmed && signedIn && !succeeded ==>
        history == old(history) && alerts == old(alerts) + [ClearFailed]
      ensures loading == old(loading)
    {
      if !confirmed {
        return;
      }
      if !signedIn {
        error := PleaseLogin;
        return;
      }
      sent := sent + [DeleteAll];
      if succeeded {
        history := [];
      } else {
        alerts := alerts + [ClearFailed];
      }
    }
  }
}
