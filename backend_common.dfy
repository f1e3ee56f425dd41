/** What the two FastAPI suggestion services and the two token checks of the
    back end share: HTTP errors, the claims of a Firebase ID token, the shape
    of a `/suggest` response and its autocomplete list. */
module Backend {
  import opened Common
  import opened Text

  /** An `HTTPException(status_code, detail)`. */
  datatype HttpError = HttpError(status: int, detail: string)

  /** The claims `firebase_auth.verify_id_token` decodes from a valid token. */
  datatype Claims = Claims(uid: string, email: Option<string>, phoneNumber: Option<string>)

  /** Firebase's token check: the decoded claims, or the text of the exception
      it raised. */
  type TokenVerifier = string -> Result<Claims, string>

  /** The header prefix both token checks demand. */
  const BearerPrefix := "Bearer "

  /** A `/suggest` response: the normalised query, the autocomplete list and at
      most one related-symptom group. */
  datatype SuggestResponse = SuggestResponse(input: string, autocomplete: seq<string>,
                                             pairSuggestions: seq<seq<string>>)

  const AutocompleteLimit := 10

  /** `[s for s in ALL_SYMPTOMS if query in s]`. */
  function Matches(symptoms: seq<string>, query: string): seq<string> {
    Filter(symptoms, s => Contains(s, query))
  }

  /** `[s for s in ALL_SYMPTOMS if query in s][:10]`: the first ten matches
      (repeats included), in list order, or all of them when there are fewer.
      Fewer than ten only when no other symptom contains the query. */
  function Autocomplete(symptoms: seq<string>, query: string): (r: seq<string>)
    ensures |r| == if |Matches(symptoms, query)| <= AutocompleteLimit then |Matches(symptoms, query)|
                   else AutocompleteLimit
    ensures r <= Matches(symptoms, query)
    ensures forall s :: s in r ==> s in symptoms && Contains(s, query)
    ensures |r| < AutocompleteLimit ==>
      forall s :: s in symptoms && Contains(s, query) ==> s in r
  {
    var m := Matches(symptoms, query);
    if |m| <= AutocompleteLimit then m else m[..AutocompleteLimit]
  }

  /** The autocomplete list of a query that every symptom contains (the empty
      query, say) is the first ten symptoms. */
  lemma AutocompleteAllMatch(symptoms: seq<string>, query: string)
    requires forall i :: 0 <= i < |symptoms| ==> Contains(symptoms[i], query)
    ensures Autocomplete(symptoms, query) ==
      if |symptoms| <= AutocompleteLimit then symptoms else symptoms[..AutocompleteLimit]
  {
    FilterAll(symptoms, s => Contains(s, query));
  }

  /** The autocomplete list keeps the order of the symptom list: the matches
      in an earlier part of the list come first, and once that part has ten
      matches nothing later can enter. */
  lemma AutocompleteInOrder(front: seq<string>, back: seq<string>, query: string)
    ensures |Matches(front, query)| <= AutocompleteLimit ==>
      Matches(front, query) <= Autocomplete(front + back, query)
    ensures |Matches(front, query)| >= AutocompleteLimit ==>
      Autocomplete(front + back, query) == Autocomplete(front, query)
  {
    FilterAppend(front, back, s => Contains(s, query));
    var m := Matches(front, query);
    assert Matches(front + back, query) == m + Matches(back, query);
    if |m| >= AutocompleteLimit {
      assert (m + Matches(back, query))[..AutocompleteLimit] == m[..AutocompleteLimit];
    }
  }
}
