/** The stand-alone suggestion service (backend/symptom_suggestions.py): the
    same autocomplete as the main service, but no check on the query and a
    related group taken from the neighbours of the query in the symptom list. */
module NeighbourSuggestions {
  import opened Common
  import opened Text
  import opened Backend
  import Predictor

  /** `ALL_SYMPTOMS`: every `Symptom` cell stripped, lower-cased and with its
      spaces turned into underscores, in file order. */
  function NormalizeSymptomList(raw: seq<string>): (r: seq<string>)
    ensures |r| == |raw|
    ensures forall k :: 0 <= k < |r| ==> r[k] == Predictor.LookupKey(raw[k])
    ensures forall k :: 0 <= k < |r| ==> ' ' !in r[k] && IsLower(r[k]) && NoOuterSpace(r[k])
  {
    seq(|raw|, k requires 0 <= k < |raw| => Predictor.LookupKey(raw[k]))
  }

  /** The list is already in normal form: normalising it again changes nothing. */
  lemma NormalizeSymptomListIdempotent(raw: seq<string>)
    ensures NormalizeSymptomList(NormalizeSymptomList(raw)) == NormalizeSymptomList(raw)
  {
    var r := NormalizeSymptomList(raw);
    forall k | 0 <= k < |r| ensures Predictor.LookupKey(r[k]) == r[k] {
      StripNoOuterSpace(r[k]);
      SlugIdempotent(r[k]);
    }
  }

  /** The neighbour group of the entry at `idx`: it and at most the next two
      entries, cut off at the end of the list. */
  function Neighbours(symptoms: seq<string>, idx: nat): (g: seq<string>)
    requires idx < |symptoms|
    ensures 1 <= |g| <= 3 && g[0] == symptoms[idx]
    ensures |g| == if idx + 3 <= |symptoms| then 3 else |symptoms| - idx
  {
    symptoms[idx..if idx + 3 <= |symptoms| then idx + 3 else |symptoms|]
  }

  /** `suggest`: the query is lower-cased with spaces turned into underscores,
      nothing more; the autocomplete list is the first ten symptoms containing
      it; and when the query is exactly a symptom, one group follows: the query
      and the (up to) two entries after its first occurrence. */
  method Suggest(allSymptoms: seq<string>, symptom: string) returns (r: SuggestResponse)
    ensures r.input == Slug(symptom)
    ensures r.autocomplete == Autocomplete(allSymptoms, Slug(symptom))
    ensures |r.pairSuggestions| <= 1
    ensures |r.pairSuggestions| == 1 <==> Slug(symptom) in allSymptoms
    ensures |r.pairSuggestions| == 1 ==>
      r.pairSuggestions[0] == Neighbours(allSymptoms, Predictor.IndexOf(allSymptoms, Slug(symptom)))
  {
    var query := Slug(symptom);
    var autocomplete := Autocomplete(allSymptoms, query);
    var pairs: seq<seq<string>> := [];
    if query in allSymptoms {
      var idx := Predictor.IndexOf(allSymptoms, query);
      var group := [query];
      if idx + 1 < |allSymptoms| {
        group := group + [allSymptoms[idx + 1]];
      }
      if idx + 2 < |allSymptoms| {
        group := group + [allSymptoms[idx + 2]];
      }
      assert group == Neighbours(allSymptoms, idx);
      pairs := pairs + [group];
    }
    r := SuggestResponse(query, autocomplete, pairs);
  }

  /** There is no emptiness check: the empty query is contained in every
      symptom, so its autocomplete list is simply the first ten symptoms. */
  lemma EmptyQueryMatchesAll(allSymptoms: seq<string>)
    ensures Slug("") == ""
    ensures Autocomplete(allSymptoms, Slug("")) ==
      if |allSymptoms| <= AutocompleteLimit then allSymptoms else allSymptoms[..AutocompleteLimit]
  {
    assert Slug("") == "";
    forall i | 0 <= i < |allSymptoms| ensures Contains(allSymptoms[i], "") {
      ContainsEmpty(allSymptoms[i]);
    }
    AutocompleteAllMatch(allSymptoms, "");
  }

  /** There is no strip either: a query of blanks is searched for as
      underscores. */
  lemma BlankQueryIsUnderscores()
    ensures Slug("  ") == "__"
  {
  }
}
