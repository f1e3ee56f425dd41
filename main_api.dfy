/** The main FastAPI service (backend/main.py): the bearer-token dependency,
    `/suggest` with precomputed symptom bundles, the bundle builder, and the
    per-user prediction history kept in Firestore, here an in-memory map from
    user id to document id to document. */
module MainApi {
  import opened Common
  import opened Text
  import opened Backend
  import Predictor

  // ---------------------------------------------------------------------------
  // verify_firebase_token

  const MissingHeader := HttpError(401, "Missing Authorization header")
  const InvalidHeader := HttpError(401, "Invalid Authorization header")
  const VerificationFailed := "Token verification failed: "

  /** Splitting a bearer header once at a space cuts right after "Bearer". */
  lemma BearerSplitOnce(authorization: string)
    requires BearerPrefix <= authorization
    ensures |SplitOnce(authorization, ' ')| == 2
    ensures SplitOnce(authorization, ' ')[1] == authorization[|BearerPrefix|..]
  {
    var rest := authorization[|BearerPrefix|..];
    assert authorization == "Bearer" + " " + rest;
    FirstSpace("Bearer", rest);
  }

  /** `authorization.split(" ", 1)[1].strip()`: for a header with the bearer
      prefix, everything after "Bearer " with outer whitespace removed. */
  function IdToken(authorization: string): (token: string)
    requires BearerPrefix <= authorization
    ensures token == Strip(authorization[|BearerPrefix|..])
  {
    BearerSplitOnce(authorization);
    Strip(SplitOnce(authorization, ' ')[1])
  }

  /** `verify_firebase_token`: a missing or empty header and a header without
      the bearer prefix are rejected with 401 before the token is looked at;
      otherwise the claims Firebase decodes, any verification failure becoming
      401 too. */
  function VerifyFirebaseToken(authorization: Option<string>, verify: TokenVerifier): (r: Result<Claims, HttpError>)
    ensures r.Failure? ==> r.error.status == 401
    ensures authorization.None? || authorization == Some("") ==> r == Failure(MissingHeader)
    ensures authorization.Some? && authorization.value != "" && !(BearerPrefix <= authorization.value) ==>
      r == Failure(InvalidHeader)
    ensures r.Success? <==>
      && authorization.Some? && BearerPrefix <= authorization.value
      && verify(Strip(authorization.value[|BearerPrefix|..])).Success?
    ensures r.Success? ==> r.value == verify(Strip(authorization.value[|BearerPrefix|..])).value
  {
    match authorization
    case None => Failure(MissingHeader)
    case Some(header) =>
      if header == "" then Failure(MissingHeader)
      else if !(BearerPrefix <= header) then Failure(InvalidHeader)
      else
        match verify(IdToken(header))
        case Success(claims) => Success(claims)
        case Failure(message) => Failure(HttpError(401, VerificationFailed + message))
  }

  // ---------------------------------------------------------------------------
  // /suggest

  const EmptyQuery := HttpError(400, "\U{274C} Query cannot be empty")

  /** `suggest`: a blank query is rejected with 400; otherwise the query is
      lower-cased with spaces turned into underscores (but not stripped), the
      autocomplete list is the first ten symptoms containing it, and the pair
      suggestions hold the stored bundle when the query is a bundle key. */
  function Suggest(allSymptoms: seq<string>, bundles: map<string, seq<string>>, symptom: string)
    : (r: Result<SuggestResponse, HttpError>)
    ensures r.Failure? <==> forall k :: 0 <= k < |symptom| ==> IsSpace(symptom[k])
    ensures r.Failure? ==> r.error == EmptyQuery
    ensures r.Success? ==>
      && r.value.input == Slug(symptom)
      && r.value.autocomplete == Autocomplete(allSymptoms, Slug(symptom))
      && |r.value.pairSuggestions| <= 1
      && (|r.value.pairSuggestions| == 1 <==> Slug(symptom) in bundles)
      && (Slug(symptom) in bundles ==> r.value.pairSuggestions[0] == bundles[Slug(symptom)])
  {
    StripEmptyIffBlank(symptom);
    if Strip(symptom) == "" then Failure(EmptyQuery)
    else
      var normalized := Slug(symptom);
      var autocomplete := Autocomplete(allSymptoms, normalized);
      Success(SuggestResponse(normalized, autocomplete,
                              if normalized in bundles then [bundles[normalized]] else []))
  }

  // ---------------------------------------------------------------------------
  // The bundle builder: for each symptom column, the three other columns that
  // occur with it most often in the training rows.

  /** A training-table cell; a row without column `j` contributes 0. */
  function Cell(row: seq<int>, j: nat): int {
    if j < |row| then row[j] else 0
  }

  /** `train_df[train_df[symptom] == 1][other].sum()`: column `j` summed over
      the rows whose column `i` is 1. */
  function CoCount(rows: seq<seq<int>>, i: nat, j: nat): int {
    if rows == [] then 0
    else (if Cell(rows[0], i) == 1 then Cell(rows[0], j) else 0) + CoCount(rows[1..], i, j)
  }

  /** The co-occurrence counts with column `i`, by column position. */
  function Score(rows: seq<seq<int>>, i: nat): nat -> int {
    (j: nat) => CoCount(rows, i, j)
  }

  /** The positions 0 .. n-1, in order. */
  function Range(n: nat): (r: seq<nat>)
    ensures |r| == n && forall k :: 0 <= k < n ==> r[k] == k
  {
    if n == 0 then [] else Range(n - 1) + [n - 1]
  }

  /** `co_counts.drop(symptom)`: the positions of the columns whose name
      differs from that of column `i`, in column order. */
  function Others(columns: seq<string>, i: nat): (r: seq<nat>)
    requires i < |columns|
    ensures Distinct(r)
    ensures forall j: nat :: j in r <==> j < |columns| && columns[j] != columns[i]
  {
    var all := Range(|columns|);
    var other := (j: nat) => j < |columns| && columns[j] != columns[i];
    FilterDistinct(all, other);
    var r := Filter(all, other);
    forall j: nat ensures j in r <==> other(j) {
      if other(j) {
        assert all[j] == j;
      }
      if j in r {
        var k :| 0 <= k < |r| && r[k] == j;
        assert other(r[k]);
      }
    }
    r
  }

  /** The position of a candidate with the largest score, the first among ties. */
  function ArgMax(candidates: seq<nat>, score: nat -> int): (m: nat)
    requires candidates != []
    ensures m < |candidates|
    ensures forall j :: 0 <= j < |candidates| ==> score(candidates[j]) <= score(candidates[m])
  {
    if |candidates| == 1 then 0
    else
      var tail := candidates[1..];
      var m := ArgMax(tail, score) + 1;
      assert forall j :: 1 <= j < |candidates| ==> candidates[j] == tail[j - 1];
      if score(candidates[0]) >= score(candidates[m]) then 0 else m
  }

  /** `s` without its element at position `m`. */
  function Without(s: seq<nat>, m: nat): (r: seq<nat>)
    requires m < |s|
    ensures |r| == |s| - 1
    ensures forall a :: 0 <= a < |r| ==> r[a] == if a < m then s[a] else s[a + 1]
    ensures forall x :: x in r ==> x in s
    ensures forall x :: x in s && x != s[m] ==> x in r
  {
    var r := s[..m] + s[m + 1..];
    assert forall x :: x in s && x != s[m] ==> x in r by {
      forall x | x in s && x != s[m] ensures x in r {
        var a :| 0 <= a < |s| && s[a] == x;
        if a < m { assert r[a] == x; } else { assert r[a - 1] == x; }
      }
    }
    r
  }

  /** `sort_values(ascending=False).head(k)`: repeatedly take a candidate of
      largest score; the first `k` candidates, or all if there are fewer. */
  function Top(candidates: seq<nat>, score: nat -> int, k: nat): (r: seq<nat>)
    ensures |r| == if k < |candidates| then k else |candidates|
    ensures forall x :: x in r ==> x in candidates
    decreases k
  {
    if k == 0 || candidates == [] then []
    else
      var m := ArgMax(candidates, score);
      [candidates[m]] + Top(Without(candidates, m), score, k - 1)
  }

  /** The scores along `s` never increase. */
  predicate NonIncreasing(s: seq<nat>, score: nat -> int) {
    forall a, b :: 0 <= a < b < |s| ==> score(s[a]) >= score(s[b])
  }

  /** The chosen candidates come in non-increasing score order. */
  lemma {:induction false} TopNonIncreasing(candidates: seq<nat>, score: nat -> int, k: nat)
    ensures NonIncreasing(Top(candidates, score, k), score)
    decreases k
  {
    if k > 0 && candidates != [] {
      var m := ArgMax(candidates, score);
      var rest := Without(candidates, m);
      TopNonIncreasing(rest, score, k - 1);
      var r, t := Top(candidates, score, k), Top(rest, score, k - 1);
      assert r == [candidates[m]] + t;
      forall a, b | 0 <= a < b < |r| ensures score(r[a]) >= score(r[b]) {
        assert r[b] == t[b - 1];
        if a == 0 {
          assert t[b - 1] in candidates;
          var j :| 0 <= j < |candidates| && candidates[j] == t[b - 1];
        } else {
          assert r[a] == t[a - 1];
        }
      }
    }
  }

  /** No candidate left out has a larger score than the one chosen at
      position `a`. */
  lemma {:induction false} TopMaximal(candidates: seq<nat>, score: nat -> int, k: nat, c: nat, a: nat)
    requires c in candidates && c !in Top(candidates, score, k) && a < |Top(candidates, score, k)|
    ensures score(c) <= score(Top(candidates, score, k)[a])
    decreases k
  {
    var m := ArgMax(candidates, score);
    var rest := Without(candidates, m);
    var t := Top(rest, score, k - 1);
    assert Top(candidates, score, k) == [candidates[m]] + t;
    if a == 0 {
      assert score(c) <= score(candidates[m]) by {
        var j :| 0 <= j < |candidates| && candidates[j] == c;
      }
    } else {
      assert c in rest && c !in t && a - 1 < |t| by {
        assert c != candidates[m];
      }
      TopMaximal(rest, score, k - 1, c, a - 1);
      assert Top(candidates, score, k)[a] == t[a - 1];
    }
  }

  /** Choosing from distinct candidates chooses no candidate twice. */
  lemma {:induction false} TopDistinct(candidates: seq<nat>, score: nat -> int, k: nat)
    requires Distinct(candidates)
    ensures Distinct(Top(candidates, score, k))
    decreases k
  {
    if k > 0 && candidates != [] {
      var m := ArgMax(candidates, score);
      var rest := Without(candidates, m);
      assert Distinct(rest) by {
        forall a, b | 0 <= a < b < |rest| ensures rest[a] != rest[b] {
          if b < m { } else if a < m { } else { }
        }
      }
      assert candidates[m] !in rest by {
        forall a | 0 <= a < |rest| ensures rest[a] != candidates[m] {
          if a < m { } else { }
        }
      }
      TopDistinct(rest, score, k - 1);
    }
  }

  const BundleSize := 3

  /** `co_counts.head(3).index`: the positions of the (at most three) other
      columns that occur most often with column `i`. */
  function Related(columns: seq<string>, rows: seq<seq<int>>, i: nat): seq<nat>
    requires i < |columns|
  {
    Top(Others(columns, i), Score(rows, i), BundleSize)
  }

  /** The names at the given column positions. */
  function Names(columns: seq<string>, positions: seq<nat>): (r: seq<string>)
    requires forall k :: 0 <= k < |positions| ==> positions[k] < |columns|
    ensures |r| == |positions| && forall k :: 0 <= k < |r| ==> r[k] == columns[positions[k]]
  {
    seq(|positions|, k requires 0 <= k < |positions| => columns[positions[k]])
  }

  /** `[symptom] + top_related`. */
  function Bundle(columns: seq<string>, rows: seq<seq<int>>, i: nat): seq<string>
    requires i < |columns|
  {
    var top := Related(columns, rows, i);
    assert forall k :: 0 <= k < |top| ==> top[k] in Others(columns, i);
    [columns[i]] + Names(columns, top)
  }

  /** What `Related` chooses: at most three other columns, none twice, in
      non-increasing co-occurrence count, no other column occurring more often
      with column `i` than a chosen one; with distinct column names, at least
      one exactly when there are at least two columns. */
  lemma RelatedRanked(columns: seq<string>, rows: seq<seq<int>>, i: nat)
    requires Distinct(columns) && i < |columns|
    ensures var top := Related(columns, rows, i);
      && |top| <= BundleSize
      && (top != [] <==> |columns| >= 2)
      && Distinct(top)
      && (forall k :: 0 <= k < |top| ==> top[k] < |columns| && top[k] != i)
      && (forall a, b :: 0 <= a < b < |top| ==> CoCount(rows, i, top[a]) >= CoCount(rows, i, top[b]))
      && (forall j, k :: 0 <= j < |columns| && j != i && j !in top && 0 <= k < |top|
            ==> CoCount(rows, i, j) <= CoCount(rows, i, top[k]))
  {
    var others := Others(columns, i);
    var score := Score(rows, i);
    var top := Related(columns, rows, i);
    RelatedNonEmpty(columns, rows, i);
    TopNonIncreasing(others, score, BundleSize);
    TopDistinct(others, score, BundleSize);
    forall j, k | 0 <= j < |columns| && j != i && j !in top && 0 <= k < |top|
      ensures CoCount(rows, i, j) <= CoCount(rows, i, top[k])
    {
      assert j in others;
      TopMaximal(others, score, BundleSize, j, k);
    }
    assert forall k :: 0 <= k < |top| ==> top[k] in others;
  }

  /** With distinct column names, some other column is related exactly when
      there are at least two columns. */
  lemma RelatedNonEmpty(columns: seq<string>, rows: seq<seq<int>>, i: nat)
    requires Distinct(columns) && i < |columns|
    ensures Related(columns, rows, i) != [] <==> |columns| >= 2
  {
    var others := Others(columns, i);
    var top := Related(columns, rows, i);
    if top != [] {
      assert top[0] in others;
    }
    if |columns| >= 2 {
      var j := if i == 0 then 1 else 0;
      assert j in others;
    }
  }

  /** A stored bundle begins with its symptom, followed by one to three other
      symptoms, never the symptom itself and none twice. */
  lemma BundleShape(columns: seq<string>, rows: seq<seq<int>>, i: nat)
    requires Distinct(columns) && i < |columns| && |columns| >= 2
    ensures var b := Bundle(columns, rows, i);
      && 2 <= |b| <= 1 + BundleSize
      && b[0] == columns[i]
      && (forall k :: 1 <= k < |b| ==> b[k] in columns && b[k] != columns[i])
      && Distinct(b)
  {
    RelatedRanked(columns, rows, i);
    var top := Related(columns, rows, i);
    var b := Bundle(columns, rows, i);
    forall k | 1 <= k < |b| ensures b[k] in columns && b[k] != columns[i] {
      assert b[k] == columns[top[k - 1]];
    }
    forall a, c | 0 <= a < c < |b| ensures b[a] != b[c] {
      assert b[c] == columns[top[c - 1]];
      if a > 0 {
        assert b[a] == columns[top[a - 1]];
      }
    }
  }

  /** What the bundle loop has built after the first `n` columns: when
      `store` holds, the bundle `expected[k]` under the name of each column
      `k < n`; otherwise nothing. */
  ghost predicate FilledUpTo(columns: seq<string>, expected: seq<seq<string>>, store: bool,
                             bundles: map<string, seq<string>>, n: nat)
    requires n <= |columns| == |expected|
  {
    && (forall s :: s in bundles <==> s in columns[..n] && store)
    && (forall k :: 0 <= k < n && columns[k] in bundles ==> bundles[columns[k]] == expected[k])
  }

  /** One turn of the bundle loop keeps `FilledUpTo`: the new key is not
      among the earlier names, so no earlier bundle is overwritten. */
  lemma FillStep(columns: seq<string>, expected: seq<seq<string>>, store: bool,
                 bundles: map<string, seq<string>>, n: nat)
    requires Distinct(columns) && n < |columns| == |expected|
    requires FilledUpTo(columns, expected, store, bundles, n)
    ensures store ==> FilledUpTo(columns, expected, store, bundles[columns[n] := expected[n]], n + 1)
    ensures !store ==> FilledUpTo(columns, expected, store, bundles, n + 1)
  {
    assert columns[..n + 1] == columns[..n] + [columns[n]];
    assert forall k :: 0 <= k < n ==> columns[k] != columns[n];
  }

  /** The loop that fills SYMPTOM_BUNDLES when no bundle file exists: with
      distinct column names, a bundle is stored for every column once there
      are at least two columns, and for none otherwise. */
  method BuildBundles(columns: seq<string>, rows: seq<seq<int>>) returns (bundles: map<string, seq<string>>)
    requires Distinct(columns)
    ensures forall s :: s in bundles <==> s in columns && |columns| >= 2
    ensures forall i :: 0 <= i < |columns| && columns[i] in bundles ==>
      bundles[columns[i]] == Bundle(columns, rows, i)
  {
    ghost var expected := seq(|columns|, k requires 0 <= k < |columns| => Bundle(columns, rows, k));
    ghost var store := |columns| >= 2;
    bundles := map[];
    for i := 0 to |columns|
      invariant FilledUpTo(columns, expected, store, bundles, i)
    {
      var related := Related(columns, rows, i);
      RelatedNonEmpty(columns, rows, i);
      FillStep(columns, expected, store, bundles, i);
      if related != [] {
        bundles := bundles[columns[i] := Bundle(columns, rows, i)];
      }
    }
    assert columns[..|columns|] == columns;
  }

  // ---------------------------------------------------------------------------
  // Per-user prediction history: users/{uid}/history/{doc_id}

  /** A stored history document (`created_at` is the server clock, given). */
  datatype HistoryDoc = HistoryDoc(symptoms: seq<string>, result: Predictor.Prediction,
                                   predictedDisease: Option<string>, description: Option<string>,
                                   createdAt: int)

  /** `{"input_symptoms": req.symptoms, **result}`. */
  datatype PredictReply = PredictReply(inputSymptoms: seq<string>, result: Predictor.Prediction)

  const EmptySymptoms := HttpError(400, "\U{274C} Symptoms list cannot be empty")
  const PredictionFailed := "Prediction failed: "
  const NotFound := HttpError(404, "Not found")
  const NoHistory := HttpError(404, "No history found")

  /** The document `predict_endpoint` writes for a result. */
  function DocFor(symptoms: seq<string>, result: Predictor.Prediction, now: int): HistoryDoc {
    HistoryDoc(symptoms, result, result.PredictedDisease(), result.Description(), now)
  }

  class HistoryStore {
    /** uid -> doc id -> document. */
    var docs: map<string, map<string, HistoryDoc>>

    constructor()
      ensures docs == map[]
    {
      docs := map[];
    }

    /** The history collection of one user; empty when the user has none. */
    function UserDocs(uid: string): map<string, HistoryDoc>
      reads this
    {
      if uid in docs then docs[uid] else map[]
    }

    /** `predict_endpoint`. The token is checked first, then the emptiness of
        the list (both outside the try, so no write); `failure` is the message
        of an exception raised inside the try (by the predictor or the
        Firestore write), which becomes 500 with nothing written. Otherwise
        exactly one document, under the fresh id `newId`, joins the caller's
        history, the error dictionary for unknown symptoms included. */
    method Predict(user: Result<Claims, HttpError>, symptoms: seq<string>,
                   t: Predictor.Tables, model: seq<int> -> string,
                   literalEval: string -> Predictor.Literal,
                   failure: Option<string>, newId: string, now: int)
      returns (r: Result<PredictReply, HttpError>)
      requires forall u :: u in docs ==> newId !in docs[u]
      modifies this
      ensures user.Failure? ==> r == Failure(user.error) && docs == old(docs)
      ensures (user.Success? && symptoms == [] ==> r == Failure(EmptySymptoms) && docs == old(docs))
      ensures (user.Success? && symptoms != [] && failure.Some? ==>
              r == Failure(HttpError(500, PredictionFailed + failure.value)) && docs == old(docs))
      ensures (user.Success? && symptoms != [] && failure.None? ==>
              && r.Success?
              && r.value.inputSymptoms == symptoms
              && Predictor.Predicts(r.value.result, symptoms, t, model, literalEval)
              && docs == old(docs)[user.value.uid :=
                   old(UserDocs(user.value.uid))[newId := DocFor(symptoms, r.value.result, now)]]
              && |UserDocs(user.value.uid)| == |old(UserDocs(user.value.uid))| + 1)
    {
      if user.Failure? {
        return Failure(user.error);
      }
      if symptoms == [] {
        return Failure(EmptySymptoms);
      }
      if failure.Some? {
        return Failure(HttpError(500, PredictionFailed + failure.value));
      }
      var result := Predictor.PredictDisease(symptoms, t, model, literalEval);
      var uid := user.value.uid;
      assert newId !in UserDocs(uid);
      docs := docs[uid := UserDocs(uid)[newId := DocFor(symptoms, result, now)]];
      r := Success(PredictReply(symptoms, result));
    }

    /** `delete_history`: 404 "Not found", with nothing changed, when the
        caller has no document `docId`; otherwise that document alone goes. */
    method DeleteHistory(user: Result<Claims, HttpError>, docId: string)
      returns (r: Result<string, HttpError>)
      modifies this
      ensures user.Failure? ==> r == Failure(user.error) && docs == old(docs)
      ensures (user.Success? && docId !in old(UserDocs(user.value.uid)) ==>
              r == Failure(NotFound) && docs == old(docs))
      ensures (user.Success? && docId in old(UserDocs(user.value.uid)) ==>
              && r == Success(docId)
              && docs == old(docs)[user.value.uid := old(UserDocs(user.value.uid)) - {docId}]
              && |UserDocs(user.value.uid)| == |old(UserDocs(user.value.uid))| - 1
              && (forall u :: u != user.value.uid ==> UserDocs(u) == old(UserDocs(u))))
    {
      if user.Failure? {
        return Failure(user.error);
      }
      var uid := user.value.uid;
      if docId !in UserDocs(uid) {
        return Failure(NotFound);
      }
      docs := docs[uid := UserDocs(uid) - {docId}];
      r := Success(docId);
    }

    /** `clear_all_history`: deletes the caller's documents one by one,
        counting them; 404 "No history found" when there were none, otherwise
        the count, which is the size of the history before. */
    method ClearAllHistory(user: Result<Claims, HttpError>)
      returns (r: Result<nat, HttpError>)
      modifies this
      ensures user.Failure? ==> r == Failure(user.error) && docs == old(docs)
      ensures (user.Success? && old(UserDocs(user.value.uid)) == map[] ==>
              r == Failure(NoHistory) && docs == old(docs))
      ensures (user.Success? && old(UserDocs(user.value.uid)) != map[] ==>
              && r == Success(|old(UserDocs(user.value.uid))|)
              && docs == old(docs)[user.value.uid := map[]]
              && (forall u :: u != user.value.uid ==> UserDocs(u) == old(UserDocs(u))))
    {
      if user.Failure? {
        return Failure(user.error);
      }
      var uid := user.value.uid;
      ghost var before, orig := docs, UserDocs(uid);
      var pending := UserDocs(uid).Keys;
      var deleted: nat := 0;
      while pending != {}
        invariant UserDocs(uid).Keys == pending
        invariant deleted + |pending| == |orig.Keys|
        invariant deleted == 0 ==> docs == before
        invariant deleted > 0 ==> docs == before[uid := UserDocs(uid)]
        decreases |pending|
      {
        var id :| id in pending;
        docs := docs[uid := UserDocs(uid) - {id}];
        pending := pending - {id};
        deleted := deleted + 1;
      }
      assert |orig| == |orig.Keys| == deleted;
      if deleted == 0 {
        return Failure(NoHistory);
      }
      assert UserDocs(uid) == map[] && docs == before[uid := map[]];
      r := Success(deleted);
    }
  }
}
