/** The symptom predictor (backend/model/predictor.py): symptom-name
    normalisation, the cleaning of the per-disease table cells, and the part of
    `predict_disease` that turns the user's symptoms into the model's input.
    The trained classifier, the CSV tables and `ast.literal_eval` are
    parameters: `model`, `Tables` and `literalEval`. */
module Predictor {
  import opened Common
  import opened Text

  // ---------------------------------------------------------------------------
  // Symptom names

  /** SYMPTOM_ALIASES: user-friendly names mapped to dataset names. */
  const Aliases: map<string, string> := map[
    "fever" := "high_fever",
    "high fever" := "high_fever",
    "cold" := "chills",
    "chill" := "chills",
    "tired" := "fatigue",
    "tiredness" := "fatigue",
    "head pain" := "headache",
    "stomach ache" := "stomach_pain",
    "vomit" := "vomiting",
    "loss of appetite" := "loss_of_appetite"
  ]

  /** Every alias target is already in normal form and is not itself a key. */
  lemma AliasTargets()
    ensures forall k :: k in Aliases ==>
      var v := Aliases[k];
      ' ' !in v && IsLower(v) && NoOuterSpace(v) && v !in Aliases
  {
    forall k | k in Aliases
      ensures ' ' !in Aliases[k] && IsLower(Aliases[k]) && NoOuterSpace(Aliases[k]) && Aliases[k] !in Aliases
    {
      TargetIsNormal(Aliases[k]);
      TargetIsNotKey(Aliases[k]);
    }
  }

  /** The seven distinct alias targets are in normal form. */
  lemma TargetIsNormal(v: string)
    requires v in ["high_fever", "chills", "fatigue", "headache", "stomach_pain", "vomiting", "loss_of_appetite"]
    ensures ' ' !in v && IsLower(v) && NoOuterSpace(v)
  {
  }

  /** None of the seven alias targets is an alias key. */
  lemma TargetIsNotKey(v: string)
    requires v in ["high_fever", "chills", "fatigue", "headache", "stomach_pain", "vomiting", "loss_of_appetite"]
    ensures v !in Aliases
  {
  }

  /** The dictionary key `normalize_symptom` looks up:
      `symptom.strip().lower().replace(" ", "_")`. */
  function LookupKey(symptom: string): (k: string)
    ensures ' ' !in k && IsLower(k) && NoOuterSpace(k)
  {
    Slug(Strip(symptom))
  }

  /** `normalize_symptom`: the lookup key, or its alias target when it is an
      alias key. The result has no space, no upper-case letter and no outer
      whitespace, and is never an alias key itself. */
  function NormalizeSymptom(symptom: string): (r: string)
    ensures ' ' !in r && IsLower(r) && NoOuterSpace(r)
    ensures r !in Aliases
    ensures LookupKey(symptom) in Aliases ==> r == Aliases[LookupKey(symptom)]
    ensures LookupKey(symptom) !in Aliases ==> r == LookupKey(symptom)
  {
    AliasTargets();
    var s := LookupKey(symptom);
    if s in Aliases then Aliases[s] else s
  }

  /** Normalising twice is normalising once. */
  lemma NormalizeIdempotent(symptom: string)
    ensures NormalizeSymptom(NormalizeSymptom(symptom)) == NormalizeSymptom(symptom)
  {
    var r := NormalizeSymptom(symptom);
    StripNoOuterSpace(r);
    SlugIdempotent(r);
    assert LookupKey(r) == r;
  }

  /** The alias keys that contain a space ("high fever", "head pain",
      "stomach ache", "loss of appetite") are never looked up: spaces have
      already become underscores by the time the dictionary is consulted. */
  lemma SpacedAliasKeysUnreachable(symptom: string, key: string)
    requires key in Aliases && ' ' in key
    ensures LookupKey(symptom) != key
  {
  }

  /** Hence "head pain" normalises to "head_pain", not to "headache". */
  lemma HeadPainNotAliased()
    ensures NormalizeSymptom("head pain") == "head_pain"
  {
    assert LookupKey("head pain") == "head_pain" by {
      StripNoOuterSpace("head pain");
      SlugOf("head pain", "head_pain");
    }
    assert "head_pain"[4] == '_';
    UnderscoredNotKey("head_pain");
  }

  /** No alias key contains an underscore. */
  lemma UnderscoredNotKey(s: string)
    requires '_' in s
    ensures s !in Aliases
  {
  }

  /** Checks a slug character by character. */
  lemma SlugOf(s: string, r: string)
    requires |s| == |r|
    requires forall i :: 0 <= i < |s| ==> r[i] == (if LowerChar(s[i]) == ' ' then '_' else LowerChar(s[i]))
    ensures Slug(s) == r
  {
  }

  /** Normalisation ignores letter case: a name typed in capitals ("FEVER")
      normalises as the name itself does. */
  lemma NormalizeIgnoresCase(symptom: string)
    ensures NormalizeSymptom(Upper(symptom)) == NormalizeSymptom(symptom)
  {
    StripUpper(symptom);
    LowerUpper(Strip(symptom));
    assert LookupKey(Upper(symptom)) == LookupKey(symptom);
  }

  /** Normalisation ignores whitespace around the name (" fever\n"). */
  lemma NormalizeIgnoresOuterSpace(before: string, symptom: string, after: string)
    requires forall k :: 0 <= k < |before| ==> IsSpace(before[k])
    requires forall k :: 0 <= k < |after| ==> IsSpace(after[k])
    ensures NormalizeSymptom(before + symptom + after) == NormalizeSymptom(symptom)
  {
    assert before + symptom + after == before + (symptom + after);
    StripLeadingSpaces(before, symptom + after);
    StripTrailingSpaces(symptom, after);
    assert LookupKey(before + symptom + after) == LookupKey(symptom);
  }

  /** `[normalize_symptom(s) for s in symptoms]`. */
  function NormalizeAll(symptoms: seq<string>): (r: seq<string>)
    ensures |r| == |symptoms|
    ensures forall i :: 0 <= i < |r| ==> r[i] == NormalizeSymptom(symptoms[i])
  {
    seq(|symptoms|, i requires 0 <= i < |symptoms| => NormalizeSymptom(symptoms[i]))
  }

  // ---------------------------------------------------------------------------
  // clean_values

  /** One cell of a per-disease table as pandas hands it over: NaN (or None),
      a number, or a string. */
  datatype Value = Missing | Number | Str(s: string)

  /** What `ast.literal_eval` makes of a string: it raises, or yields something
      other than a list or tuple, or yields a list or tuple of items. */
  datatype Literal = Raises | NotASequence | Sequence(items: seq<Item>)
  datatype Item = StrItem(s: string) | OtherItem

  const NotAvailable := "Not available"

  /** `[x for x in v_list if isinstance(x, str)]`. */
  function StringItems(items: seq<Item>): (r: seq<string>)
    ensures forall x :: x in r <==> StrItem(x) in items
  {
    if items == [] then []
    else
      assert items == [items[0]] + items[1..];
      (if items[0].StrItem? then [items[0].s] else []) + StringItems(items[1..])
  }

  /** `v.startswith("[") and v.endswith("]")`. */
  predicate Bracketed(v: string) {
    "[" <= v && EndsWith(v, "]")
  }

  /** What one cell adds to `cleaned`: nothing for NaN and numbers; for a
      string that looks like a list and parses as one, its string items;
      for any other string, the string stripped. */
  function Contribution(v: Value, literalEval: string -> Literal): seq<string> {
    match v
    case Missing => []
    case Number => []
    case Str(raw) =>
      var t := Strip(raw);
      if Bracketed(t) && literalEval(t).Sequence? then StringItems(literalEval(t).items)
      else [t]
  }

  /** The list `cleaned` holds after the loop of `clean_values` has seen `values`. */
  function Collected(values: seq<Value>, literalEval: string -> Literal): seq<string> {
    FlatMap(values, v => Contribution(v, literalEval))
  }

  /** The value `clean_values` returns: `sorted(set(cleaned))`, or
      `["Not available"]` when `cleaned` is empty. */
  function Cleaned(values: seq<Value>, literalEval: string -> Literal): seq<string> {
    var c := Collected(values, literalEval);
    if c == [] then [NotAvailable] else SortedSet(c)
  }

  /** Cells that are all NaN or numbers leave nothing: the result is
      `["Not available"]`. */
  lemma {:induction false} NothingSurvives(values: seq<Value>, literalEval: string -> Literal)
    requires forall i :: 0 <= i < |values| ==> !values[i].Str?
    ensures Collected(values, literalEval) == []
    ensures Cleaned(values, literalEval) == [NotAvailable]
  {
    if values != [] {
      var init := values[..|values| - 1];
      assert forall i :: 0 <= i < |init| ==> init[i] == values[i];
      NothingSurvives(init, literalEval);
    }
  }

  /** A string cell already stripped and not looking like a list adds itself. */
  lemma PlainContribution(x: string, literalEval: string -> Literal)
    requires NoOuterSpace(x) && !Bracketed(x)
    ensures Contribution(Str(x), literalEval) == [x]
  {
    StripNoOuterSpace(x);
  }

  /** A column of string cells. */
  function Cells(xs: seq<string>): seq<Value> {
    seq(|xs|, i requires 0 <= i < |xs| => Str(xs[i]))
  }

  /** String cells already stripped and not looking like lists are collected
      as they are, in order. */
  lemma {:induction false} CollectedPlain(xs: seq<string>, literalEval: string -> Literal)
    requires forall i :: 0 <= i < |xs| ==> NoOuterSpace(xs[i]) && !Bracketed(xs[i])
    ensures Collected(Cells(xs), literalEval) == xs
  {
    if xs != [] {
      var n := |xs| - 1;
      var cells := Cells(xs);
      assert cells[..n] == Cells(xs[..n]);
      assert Collected(Cells(xs[..n]), literalEval) == xs[..n] by {
        CollectedPlain(xs[..n], literalEval);
      }
      assert Contribution(cells[n], literalEval) == [xs[n]] by {
        PlainContribution(xs[n], literalEval);
      }
      assert Collected(cells, literalEval) == Collected(cells[..n], literalEval) + Contribution(cells[n], literalEval);
      assert xs == xs[..n] + [xs[n]];
    }
  }

  /** Cleaning is stable on its own kind of output: a non-empty, strictly
      sorted list of strings without outer whitespace that do not look like
      lists cleans to itself. */
  lemma CleanedSortedStrings(xs: seq<string>, literalEval: string -> Literal)
    requires xs != [] && StrictlySorted(xs)
    requires forall i :: 0 <= i < |xs| ==> NoOuterSpace(xs[i]) && !Bracketed(xs[i])
    ensures Cleaned(Cells(xs), literalEval) == xs
  {
    CollectedPlain(xs, literalEval);
    StrictlySortedUnique(SortedSet(xs), xs);
  }

  /** One more cell extends the collected list by that cell's contribution. */
  lemma CollectedStep(values: seq<Value>, i: nat, literalEval: string -> Literal)
    requires i < |values|
    ensures Collected(values[..i + 1], literalEval) ==
      Collected(values[..i], literalEval) + Contribution(values[i], literalEval)
  {
    assert values[..i + 1][..i] == values[..i];
  }

  /** `clean_values`: the loop over the cells, then sorting. The result is
      strictly increasing (hence free of duplicates) and holds exactly the
      collected strings, or only "Not available" when nothing was collected. */
  method CleanValues(values: seq<Value>, literalEval: string -> Literal) returns (r: seq<string>)
    ensures r == Cleaned(values, literalEval)
    ensures r != [] && StrictlySorted(r)
    ensures Collected(values, literalEval) == [] ==> r == [NotAvailable]
    ensures Collected(values, literalEval) != [] ==>
      forall x :: x in r <==> exists i :: 0 <= i < |values| && x in Contribution(values[i], literalEval)
  {
    var cleaned: seq<string> := [];
    var i := 0;
    while i < |values|
      invariant 0 <= i <= |values|
      invariant cleaned == Collected(values[..i], literalEval)
    {
      ghost var before := cleaned;
      match values[i] {
        case Missing =>
        case Number =>
        case Str(raw) =>
          var v := Strip(raw);
          if Bracketed(v) && literalEval(v).Sequence? {
            cleaned := cleaned + StringItems(literalEval(v).items);
          } else {
            cleaned := cleaned + [v];
          }
      }
      assert cleaned == Collected(values[..i + 1], literalEval) by {
        assert cleaned == before + Contribution(values[i], literalEval);
        CollectedStep(values, i, literalEval);
      }
      i := i + 1;
    }
    assert values[..i] == values;
    if cleaned == [] {
      r := [NotAvailable];
    } else {
      r := SortedSet(cleaned);
      forall x ensures x in r <==> exists i :: 0 <= i < |values| && x in Contribution(values[i], literalEval) {
        FlatMapMembership(values, v => Contribution(v, literalEval), x);
      }
    }
  }

  // ---------------------------------------------------------------------------
  // predict_disease

  /** The data `predict_disease` reads, as loaded from the CSV files:
      SYMPTOM_COLUMNS, VALID_SYMPTOMS, and per disease the description and the
      flattened cells of the medication, diet, precaution and workout rows. */
  datatype Tables = Tables(
    columns: seq<string>,
    severity: set<string>,
    descriptions: map<string, string>,
    medications: map<string, seq<Value>>,
    diets: map<string, seq<Value>>,
    precautions: map<string, seq<Value>>,
    workouts: map<string, seq<Value>>)

  /** The dictionary `predict_disease` returns. */
  datatype Prediction =
    | NoValidSymptoms(symptoms: seq<string>, normalized: seq<string>, error: string)
    | Predicted(symptoms: seq<string>, normalized: seq<string>, invalid: seq<string>,
                disease: string, description: string,
                medications: seq<string>, diets: seq<string>,
                precautions: seq<string>, workouts: seq<string>)
  {
    /** `result.get("predicted_disease")`. */
    function PredictedDisease(): Option<string> {
      if Predicted? then Some(disease) else None
    }

    /** `result.get("description")`. */
    function Description(): Option<string> {
      if Predicted? then Some(description) else None
    }
  }

  const NoValidMessage := "No valid symptoms provided."

  /** A normalised name the predictor knows: in VALID_SYMPTOMS or SYMPTOM_COLUMNS. */
  predicate Known(t: Tables, s: string) {
    s in t.severity || s in t.columns
  }

  /** `valid`: the known normalised names, in input order. */
  function ValidSymptoms(t: Tables, symptoms: seq<string>): seq<string> {
    Filter(NormalizeAll(symptoms), s => Known(t, s))
  }

  /** `invalid`: the unknown normalised names, in input order. */
  function InvalidSymptoms(t: Tables, symptoms: seq<string>): seq<string> {
    Filter(NormalizeAll(symptoms), s => !Known(t, s))
  }

  /** `valid` and `invalid` partition the normalised list: every normalised
      name lands in exactly one of them, as often as it occurs. */
  lemma ValidInvalidPartition(t: Tables, symptoms: seq<string>)
    ensures multiset(ValidSymptoms(t, symptoms)) + multiset(InvalidSymptoms(t, symptoms))
         == multiset(NormalizeAll(symptoms))
    ensures forall s :: s in ValidSymptoms(t, symptoms) ==> s in NormalizeAll(symptoms) && Known(t, s)
    ensures forall s :: s in InvalidSymptoms(t, symptoms) ==> s in NormalizeAll(symptoms) && !Known(t, s)
    ensures forall s :: s in NormalizeAll(symptoms) ==>
      (s in ValidSymptoms(t, symptoms) || s in InvalidSymptoms(t, symptoms))
  {
    var n := NormalizeAll(symptoms);
    FilterPartition(n, s => Known(t, s), s => !Known(t, s));
    forall s | s in n ensures s in ValidSymptoms(t, symptoms) || s in InvalidSymptoms(t, symptoms) {
      var i :| 0 <= i < |n| && n[i] == s;
    }
  }

  /** `SYMPTOM_COLUMNS.index(s)`: the first position of `s`. */
  function IndexOf(xs: seq<string>, s: string): (i: nat)
    requires s in xs
    ensures i < |xs| && xs[i] == s && s !in xs[..i]
  {
    if xs[0] == s then 0
    else
      var k := IndexOf(xs[1..], s);
      assert xs[..k + 1] == [xs[0]] + xs[1..][..k];
      k + 1
  }

  /** The model input for the valid names: 1 at the first position of each
      valid name among the columns, 0 elsewhere. */
  function OneHot(columns: seq<string>, valid: seq<string>): seq<int> {
    seq(|columns|, i requires 0 <= i < |columns| =>
      if columns[i] in valid && IndexOf(columns, columns[i]) == i then 1 else 0)
  }

  /** The loop of `predict_disease` that fills `input_data`: a list of
      `len(SYMPTOM_COLUMNS)` zeros with a 1 at the first column index of each
      valid name found among the columns. */
  method InputVector(columns: seq<string>, valid: seq<string>) returns (v: seq<int>)
    ensures v == OneHot(columns, valid)
    ensures |v| == |columns|
    ensures forall i :: 0 <= i < |v| ==> v[i] == 0 || v[i] == 1
    ensures forall i :: 0 <= i < |v| ==>
      (v[i] == 1 <==> columns[i] in valid && IndexOf(columns, columns[i]) == i)
  {
    var input := new int[|columns|](_ => 0);
    for k := 0 to |valid|
      invariant forall i :: 0 <= i < input.Length ==>
        input[i] == if columns[i] in valid[..k] && IndexOf(columns, columns[i]) == i then 1 else 0
    {
      var s := valid[k];
      assert valid[..k + 1] == valid[..k] + [s];
      if s in columns {
        var idx := IndexOf(columns, s);
        input[idx] := 1;
      }
    }
    assert valid[..|valid|] == valid;
    v := input[..];
  }

  /** The flattened row cells of a disease in one table, or [] when the
      disease has no row. */
  function Rows(table: map<string, seq<Value>>, disease: string): seq<Value> {
    if disease in table then table[disease] else []
  }

  /** What `predict_disease` returns for `symptoms`: the error dictionary,
      with the normalised names and "No valid symptoms provided.", exactly
      when no name is valid; otherwise the valid and invalid names, the
      model's verdict on the one-hot vector of the valid ones, its
      description or "Not available", and the four cleaned detail lists. */
  predicate Predicts(r: Prediction, symptoms: seq<string>, t: Tables, model: seq<int> -> string,
                     literalEval: string -> Literal)
  {
    && r.symptoms == symptoms
    && (r.NoValidSymptoms? <==> ValidSymptoms(t, symptoms) == [])
    && (r.NoValidSymptoms? ==>
          r.normalized == NormalizeAll(symptoms) && r.error == NoValidMessage)
    && (r.Predicted? ==>
          && r.normalized == ValidSymptoms(t, symptoms)
          && r.invalid == InvalidSymptoms(t, symptoms)
          && r.disease == model(OneHot(t.columns, r.normalized))
          && r.description == (if r.disease in t.descriptions then t.descriptions[r.disease] else NotAvailable)
          && r.medications == Cleaned(Rows(t.medications, r.disease), literalEval)
          && r.diets == Cleaned(Rows(t.diets, r.disease), literalEval)
          && r.precautions == Cleaned(Rows(t.precautions, r.disease), literalEval)
          && r.workouts == Cleaned(Rows(t.workouts, r.disease), literalEval))
  }

  /** The description of `predict_disease`'s value leaves no freedom: two
      results that both meet it are the same dictionary. */
  lemma PredictsUnique(r1: Prediction, r2: Prediction, symptoms: seq<string>, t: Tables,
                       model: seq<int> -> string, literalEval: string -> Literal)
    requires Predicts(r1, symptoms, t, model, literalEval)
    requires Predicts(r2, symptoms, t, model, literalEval)
    ensures r1 == r2
  {
  }

  /** `predict_disease`. With no valid name the result is the error dictionary
      and the model is not consulted; otherwise the model's verdict on the
      one-hot input, with the looked-up and cleaned details. */
  method PredictDisease(symptoms: seq<string>, t: Tables, model: seq<int> -> string,
                        literalEval: string -> Literal) returns (r: Prediction)
    ensures Predicts(r, symptoms, t, model, literalEval)
  {
    var normalized := NormalizeAll(symptoms);
    var valid := ValidSymptoms(t, symptoms);
    var invalid := InvalidSymptoms(t, symptoms);
    if valid == [] {
      return NoValidSymptoms(symptoms, normalized, NoValidMessage);
    }
    var input := InputVector(t.columns, valid);
    var disease := model(input);
    var description := if disease in t.descriptions then t.descriptions[disease] else NotAvailable;
    var medications := CleanValues(Rows(t.medications, disease), literalEval);
    var diets := CleanValues(Rows(t.diets, disease), literalEval);
    var precautions := CleanValues(Rows(t.precautions, disease), literalEval);
    var workouts := CleanValues(Rows(t.workouts, disease), literalEval);
    r := Predicted(symptoms, valid, invalid, disease, description, medications, diets, precautions, workouts);
  }
}
