/**
 * The string-catalog scripts: merging the `strings` sections of several catalogs, extracting the keys
 * with a given prefix, and deleting one localization from every entry. A catalog is a JSON value;
 * reading and writing files is left to the caller, and a Python exception becomes an error result.
 */
module Localizable {
  import opened Wrappers
  import opened Text

  /** A JSON value as `json.load` returns it; objects are maps, so key order is not modelled. */
  datatype Json =
    | JNull
    | JBool(b: bool)
    | JNumber(n: int)
    | JString(s: string)
    | JArray(items: seq<Json>)
    | JObject(fields: map<string, Json>)

  /** The Python exception a script would stop with. */
  datatype ScriptError =
    | KeyError(key: string)
    | TypeError
    | AttributeError
    | ValueError
    | NotAMapping
    | OutsideModel

  /** `data[key]` on a loaded value: only an object can be indexed by a string key. */
  function Field(data: Json, key: string): (r: Result<Json, ScriptError>)
    ensures r.Ok? <==> data.JObject? && key in data.fields
    ensures r.Ok? ==> r.value == data.fields[key]
  {
    if !data.JObject? then Err(TypeError)
    else if key !in data.fields then Err(KeyError(key))
    else Ok(data.fields[key])
  }

  /** `data['strings'].items()`: only an object has items; anything else has no such attribute. */
  function StringsOf(data: Json): (r: Result<map<string, Json>, ScriptError>)
    ensures r.Ok? <==> Field(data, "strings").Ok? && Field(data, "strings").value.JObject?
    ensures r.Ok? ==> r.value == data.fields["strings"].fields
  {
    match Field(data, "strings")
    case Err(e) => Err(e)
    case Ok(JObject(fields)) => Ok(fields)
    case Ok(_) => Err(NotAMapping)
  }

  /** The catalog both templates produce: source language "en", version "1.0", and the given strings. */
  function Catalog(strings: map<string, Json>): (r: Json)
    ensures StringsOf(r) == Ok(strings)
    ensures Field(r, "sourceLanguage") == Ok(JString("en")) && Field(r, "version") == Ok(JString("1.0"))
    ensures r.JObject? && r.fields.Keys == {"sourceLanguage", "strings", "version"}
  {
    JObject(map["sourceLanguage" := JString("en"), "strings" := JObject(strings), "version" := JString("1.0")])
  }

  // ---- Merge_localizable.py ----

  /**
   * One element of the sequence `dict.update` is given when its argument is not a mapping: a list of two
   * items is a key and its value, a two-character string is a one-character key and value, and anything
   * that cannot be iterated is a `TypeError`. Any other length is a `ValueError`, and a list or object
   * cannot be a key. A number, boolean or null key, and the keys of a two-key object, are accepted by
   * Python but give keys this model does not have (`OutsideModel`).
   */
  function PairOf(item: Json): (r: Result<(string, Json), ScriptError>)
    ensures item.JArray? && |item.items| == 2 && item.items[0].JString? ==> r == Ok((item.items[0].s, item.items[1]))
    ensures item.JArray? && |item.items| != 2 ==> r == Err(ValueError)
    ensures (item.JNull? || item.JBool? || item.JNumber?) ==> r == Err(TypeError)
  {
    match item
    case JArray(kv) =>
      if |kv| != 2 then Err(ValueError)
      else (match kv[0]
        case JString(key) => Ok((key, kv[1]))
        case JArray(_) => Err(TypeError)
        case JObject(_) => Err(TypeError)
        case _ => Err(OutsideModel))
    case JString(chars) =>
      if |chars| == 2 then Ok(([chars[0]], JString([chars[1]]))) else Err(ValueError)
    case JObject(fields) => if |fields| == 2 then Err(OutsideModel) else Err(ValueError)
    case _ => Err(TypeError)
  }

  /**
   * `dict.update` over a sequence of pairs: the pairs are stored in order, a later pair replacing an
   * earlier one with the same key, and the first bad element stops the update.
   */
  function PairsUpdate(items: seq<Json>): (r: Result<map<string, Json>, ScriptError>)
    ensures r.Ok? <==> forall i :: 0 <= i < |items| ==> PairOf(items[i]).Ok?
    ensures r.Ok? ==> forall k :: k in r.value <==> exists i :: 0 <= i < |items| && PairOf(items[i]).value.0 == k
  {
    if items == [] then Ok(map[])
    else
      var init := items[..|items| - 1];
      assert forall i :: 0 <= i < |init| ==> init[i] == items[i];
      match PairsUpdate(init)
      case Err(e) => Err(e)
      case Ok(m) =>
        match PairOf(items[|items| - 1])
        case Err(e) => Err(e)
        case Ok(kv) => Ok(m[kv.0 := kv.1])
  }

  /** For each key, the value stored is the one of the last pair with that key. */
  lemma {:induction false} LastPairWins(items: seq<Json>, i: nat)
    requires PairsUpdate(items).Ok? && i < |items|
    requires forall j :: i < j < |items| ==> PairOf(items[j]).value.0 != PairOf(items[i]).value.0
    ensures PairsUpdate(items).value[PairOf(items[i]).value.0] == PairOf(items[i]).value.1
  {
    var init := items[..|items| - 1];
    assert forall j :: 0 <= j < |init| ==> init[j] == items[j];
    if i < |items| - 1 {
      LastPairWins(init, i);
    }
  }

  /**
   * What `merged['strings'].update(data['strings'])` adds: an object's entries, the pairs of a list, and
   * nothing for the empty string. A non-empty string is a `ValueError` (its first character is not a
   * pair), a number, boolean or null a `TypeError`.
   */
  function UpdateSource(data: Json): Result<map<string, Json>, ScriptError> {
    match Field(data, "strings")
    case Err(e) => Err(e)
    case Ok(JObject(fields)) => Ok(fields)
    case Ok(JArray(items)) => PairsUpdate(items)
    case Ok(JString(chars)) => if chars == "" then Ok(map[]) else Err(ValueError)
    case Ok(_) => Err(TypeError)
  }

  /**
   * The sections `update` accepts: an object gives its entries as `items()` reads them, a list gives its
   * pairs, `[]` and `""` give nothing, and a missing section is the lookup's own error.
   */
  lemma UpdateSourceCases(data: Json)
    ensures Field(data, "strings").Err? ==> UpdateSource(data) == Err(Field(data, "strings").error)
    ensures Field(data, "strings").Ok? && Field(data, "strings").value.JObject? ==> UpdateSource(data) == StringsOf(data)
    ensures Field(data, "strings") == Ok(JArray([])) || Field(data, "strings") == Ok(JString("")) ==> UpdateSource(data) == Ok(map[])
    ensures Field(data, "strings").Ok? && Field(data, "strings").value.JArray? ==>
              UpdateSource(data) == PairsUpdate(data.fields["strings"].items)
    ensures Field(data, "strings").Ok? && (data.fields["strings"].JNull? || data.fields["strings"].JBool? || data.fields["strings"].JNumber?) ==>
              UpdateSource(data) == Err(TypeError)
  {
  }

  /** A section written as a list of pairs is stored pair by pair, the later pair for a key winning. */
  lemma PairListExample()
    ensures UpdateSource(JObject(map["strings" := JArray([JArray([JString("a"), JNumber(1)]), JArray([JString("a"), JNumber(2)])])]))
            == Ok(map["a" := JNumber(2)])
  {
    var items := [JArray([JString("a"), JNumber(1)]), JArray([JString("a"), JNumber(2)])];
    assert items[..1][..0] == [];
    assert PairOf(items[0]) == Ok(("a", JNumber(1))) && PairOf(items[1]) == Ok(("a", JNumber(2)));
    assert PairsUpdate(items[..1]) == Ok(map["a" := JNumber(1)]);
    assert items[..|items| - 1] == items[..1];
    assert map["a" := JNumber(1)]["a" := JNumber(2)] == map["a" := JNumber(2)];
  }

  /**
   * The `strings` sections of the catalogs, merged in list order with `dict.update`: a later catalog's
   * entry replaces an earlier one. The first catalog whose section `update` refuses stops the script.
   */
  function MergedStrings(files: seq<Json>): (r: Result<map<string, Json>, ScriptError>)
    ensures r.Ok? <==> forall i :: 0 <= i < |files| ==> UpdateSource(files[i]).Ok?
  {
    if files == [] then Ok(map[])
    else
      match MergedStrings(files[..|files| - 1])
      case Err(e) => Err(e)
      case Ok(m) =>
        match UpdateSource(files[|files| - 1])
        case Err(e) => Err(e)
        case Ok(s) => Ok(m + s)
  }

  /** The merged keys are exactly the keys of all the catalogs. */
  lemma {:induction false} MergedKeys(files: seq<Json>)
    requires MergedStrings(files).Ok?
    ensures forall k :: k in MergedStrings(files).value <==>
                        exists i :: 0 <= i < |files| && k in UpdateSource(files[i]).value
  {
    if files != [] {
      var init := files[..|files| - 1];
      assert forall i :: 0 <= i < |init| ==> init[i] == files[i];
      MergedKeys(init);
    }
  }

  /** Maps merged left to right, as repeated `dict.update` calls do. */
  function UpdateAll(ms: seq<map<string, Json>>): map<string, Json> {
    if ms == [] then map[] else UpdateAll(ms[..|ms| - 1]) + ms[|ms| - 1]
  }

  /** Each key's merged value is the one of the last map holding the key. */
  lemma {:induction false} LastMapWins(ms: seq<map<string, Json>>, k: string)
    requires k in UpdateAll(ms)
    ensures exists i :: 0 <= i < |ms| && k in ms[i] && UpdateAll(ms)[k] == ms[i][k] &&
                        forall j :: i < j < |ms| ==> k !in ms[j]
  {
    var init := ms[..|ms| - 1];
    if k !in ms[|ms| - 1] {
      LastMapWins(init, k);
      var i :| 0 <= i < |init| && k in init[i] && UpdateAll(init)[k] == init[i][k] &&
               forall j :: i < j < |init| ==> k !in init[j];
      assert init[i] == ms[i];
      assert forall j :: i < j < |ms| ==> k !in ms[j] by {
        assert forall j :: i < j < |init| ==> init[j] == ms[j];
      }
    }
  }

  /** What each catalog adds to the merge, as far as it is accepted. */
  function SectionMaps(files: seq<Json>): (r: seq<map<string, Json>>)
    ensures |r| == |files|
    ensures forall i :: 0 <= i < |files| && UpdateSource(files[i]).Ok? ==> r[i] == UpdateSource(files[i]).value
  {
    seq(|files|, i requires 0 <= i < |files| => match UpdateSource(files[i]) case Ok(m) => m case Err(_) => map[])
  }

  /** A successful merge is the left-to-right update with every catalog's section. */
  lemma {:induction false} MergedIsUpdateAll(files: seq<Json>)
    requires MergedStrings(files).Ok?
    ensures MergedStrings(files).value == UpdateAll(SectionMaps(files))
  {
    if files != [] {
      var init := files[..|files| - 1];
      assert SectionMaps(init) == SectionMaps(files)[..|files| - 1];
      MergedIsUpdateAll(init);
    }
  }

  /** For each merged key, the value comes from the last catalog in the list that has the key. */
  lemma LastFileWins(files: seq<Json>, k: string)
    requires MergedStrings(files).Ok? && k in MergedStrings(files).value
    ensures exists i :: 0 <= i < |files| && k in UpdateSource(files[i]).value &&
                        MergedStrings(files).value[k] == UpdateSource(files[i]).value[k] &&
                        forall j :: i < j < |files| ==> k !in UpdateSource(files[j]).value
  {
    var ms := SectionMaps(files);
    MergedIsUpdateAll(files);
    LastMapWins(ms, k);
    var i :| 0 <= i < |ms| && k in ms[i] && UpdateAll(ms)[k] == ms[i][k] && forall j :: i < j < |ms| ==> k !in ms[j];
    assert ms[i] == UpdateSource(files[i]).value;
  }

  /** Catalogs whose sections `update` reads alike merge to the same result. */
  lemma {:induction false} SameSourcesMergeAlike(files: seq<Json>, others: seq<Json>)
    requires |files| == |others|
    requires forall i :: 0 <= i < |files| ==> UpdateSource(files[i]) == UpdateSource(others[i])
    ensures MergedStrings(files) == MergedStrings(others)
  {
    if files != [] {
      SameSourcesMergeAlike(files[..|files| - 1], others[..|others| - 1]);
    }
  }

  /** Only each catalog's `strings` section is read: catalogs that agree on it merge to the same result. */
  lemma OnlyStringsAreRead(files: seq<Json>, others: seq<Json>)
    requires |files| == |others|
    requires forall i :: 0 <= i < |files| ==> Field(files[i], "strings") == Field(others[i], "strings")
    ensures MergedStrings(files) == MergedStrings(others)
  {
    forall i | 0 <= i < |files| ensures UpdateSource(files[i]) == UpdateSource(others[i]) {
      assert Field(files[i], "strings") == Field(others[i], "strings");
    }
    SameSourcesMergeAlike(files, others);
  }

  /** The script's loop: merge each catalog's `strings` into the template, in list order. */
  method MergeLocalizable(files: seq<Json>) returns (r: Result<Json, ScriptError>)
    ensures r.Ok? <==> MergedStrings(files).Ok?
    ensures r.Ok? ==> r.value == Catalog(MergedStrings(files).value)
    ensures r.Err? ==> r.error == MergedStrings(files).error
  {
    var merged: map<string, Json> := map[];
    var i := 0;
    while i < |files|
      invariant 0 <= i <= |files|
      invariant MergedStrings(files[..i]) == Ok(merged)
    {
      assert files[..i + 1][..i] == files[..i];
      match UpdateSource(files[i]) {
        case Err(e) =>
          assert files[..i + 1] == files[..i] + [files[i]];
          FirstErrorStops(files, i + 1);
          return Err(e);
        case Ok(s) =>
          merged := merged + s;
      }
      i := i + 1;
    }
    assert files[..i] == files;
    return Ok(Catalog(merged));
  }

  /** An error in the first `n` catalogs is the error of the whole list. */
  lemma {:induction false} FirstErrorStops(files: seq<Json>, n: nat)
    requires n <= |files| && MergedStrings(files[..n]).Err?
    ensures MergedStrings(files) == MergedStrings(files[..n])
  {
    if n < |files| {
      var init := files[..|files| - 1];
      assert init[..n] == files[..n];
      FirstErrorStops(init, n);
    } else {
      assert files[..n] == files;
    }
  }

  // ---- Extract_keys.py ----

  const FilterStartKey: string := "paywall_"

  /** The template filled with the entries whose key starts with `paywall_`, values untouched. */
  function ExtractKeys(data: Json): (r: Result<Json, ScriptError>)
    ensures r.Ok? <==> StringsOf(data).Ok?
    ensures r.Ok? ==>
              (StringsOf(r.value).Ok? &&
               var out, all := StringsOf(r.value).value, StringsOf(data).value;
               (forall k :: k in out <==> k in all && StartsWith(k, FilterStartKey)) &&
               (forall k :: k in out ==> out[k] == all[k]))
    ensures r.Ok? ==> Field(r.value, "sourceLanguage") == Ok(JString("en")) && Field(r.value, "version") == Ok(JString("1.0"))
  {
    match StringsOf(data)
    case Err(e) => Err(e)
    case Ok(all) => Ok(Catalog(map k | k in all && StartsWith(k, FilterStartKey) :: all[k]))
  }

  /** Extracting from an extract changes nothing. */
  lemma ExtractIdempotent(data: Json)
    requires ExtractKeys(data).Ok?
    ensures ExtractKeys(ExtractKeys(data).value) == ExtractKeys(data)
  {
    var out := StringsOf(ExtractKeys(data).value).value;
    var again := StringsOf(ExtractKeys(ExtractKeys(data).value).value).value;
    assert again == out;
  }

  // ---- Del_language.py ----

  const Language: string := "es"

  /** Python's `'es' in x`: a key of a mapping, an element of a list, a substring of a string. */
  function PyContains(x: Json, item: string): (r: Result<bool, ScriptError>)
    ensures x.JObject? ==> r == Ok(item in x.fields)
    ensures r.Err? <==> !(x.JObject? || x.JArray? || x.JString?)
  {
    match x
    case JObject(f) => Ok(item in f)
    case JArray(items) => Ok(JString(item) in items)
    case JString(s) => Ok(Contains(s, item))
    case _ => Err(TypeError)
  }

  /**
   * The loop body for one entry: drop its `es` localization, if it has one. An entry that is not
   * an object has no `get`, an `AttributeError`.
   */
  function WithoutLanguage(value: Json): (r: Result<Json, ScriptError>)
    ensures value.JObject? && "localizations" !in value.fields ==> r == Ok(value)
    ensures value.JObject? && "localizations" in value.fields && value.fields["localizations"].JObject? ==>
              var loc := value.fields["localizations"].fields;
              r.Ok? && r.value.JObject? && r.value.fields.Keys == value.fields.Keys &&
              (forall f :: f in value.fields && f != "localizations" ==> r.value.fields[f] == value.fields[f]) &&
              r.value.fields["localizations"].JObject? &&
              var loc' := r.value.fields["localizations"].fields;
              Language !in loc' && (forall l :: l in loc' <==> l in loc && l != Language) &&
              (forall l :: l in loc' ==> loc'[l] == loc[l])
    ensures !value.JObject? ==> r == Err(AttributeError)
  {
    if !value.JObject? then Err(AttributeError)
    else
      var loc := if "localizations" in value.fields then value.fields["localizations"] else JObject(map[]);
      match PyContains(loc, Language)
      case Err(e) => Err(e)
      case Ok(false) => Ok(value)
      case Ok(true) =>
        if loc.JObject? then Ok(JObject(value.fields["localizations" := JObject(loc.fields - {Language})]))
        else Err(TypeError)
  }

  /** Every entry of a `strings` mapping without its `es` localization; nothing when an entry fails. */
  ghost function WithoutLanguageAll(strings: map<string, Json>): (r: Result<map<string, Json>, ScriptError>)
    ensures r.Ok? <==> forall k :: k in strings ==> WithoutLanguage(strings[k]).Ok?
    ensures r.Ok? ==> r.value.Keys == strings.Keys && forall k :: k in strings ==> r.value[k] == WithoutLanguage(strings[k]).value
  {
    if forall k :: k in strings ==> WithoutLanguage(strings[k]).Ok? then
      Ok(map k | k in strings :: WithoutLanguage(strings[k]).value)
    else
      var k :| k in strings && WithoutLanguage(strings[k]).Err?;
      Err(WithoutLanguage(strings[k]).error)
  }

  /** After the deletion no entry with a localization mapping has an `es` localization left. */
  lemma NoEntryKeepsLanguage(strings: map<string, Json>)
    requires WithoutLanguageAll(strings).Ok?
    ensures forall k :: k in strings && strings[k].JObject? && "localizations" in strings[k].fields &&
                        strings[k].fields["localizations"].JObject? ==>
                          Language !in WithoutLanguageAll(strings).value[k].fields["localizations"].fields
  {
  }

  /**
   * The script's loop over `data['strings'].items()`, deleting in place. The order the entries are visited
   * in only decides which failing entry stops the script.
   */
  method DeleteLanguage(data: Json) returns (r: Result<Json, ScriptError>)
    ensures r.Ok? <==> StringsOf(data).Ok? && WithoutLanguageAll(StringsOf(data).value).Ok?
    ensures r.Ok? ==> r.value == JObject(data.fields["strings" := JObject(WithoutLanguageAll(StringsOf(data).value).value)])
  {
    var strings := StringsOf(data);
    if strings.Err? {
      return Err(strings.error);
    }
    var entries := DeleteFromEntries(strings.value);
    if entries.Err? {
      return Err(entries.error);
    }
    return Ok(JObject(data.fields["strings" := JObject(entries.value)]));
  }

  /** The loop itself: each entry in turn loses its localization, until one of them fails. */
  method DeleteFromEntries(strings: map<string, Json>) returns (r: Result<map<string, Json>, ScriptError>)
    ensures r.Ok? <==> WithoutLanguageAll(strings).Ok?
    ensures r.Ok? ==> r.value == WithoutLanguageAll(strings).value
  {
    var entries := strings;
    var remaining := entries.Keys;
    while remaining != {}
      invariant remaining <= entries.Keys
      invariant entries.Keys == strings.Keys
      invariant forall k :: k in remaining ==> entries[k] == strings[k]
      invariant forall k :: k in strings && k !in remaining ==>
                  WithoutLanguage(strings[k]).Ok? && entries[k] == WithoutLanguage(strings[k]).value
      decreases remaining
    {
      var k :| k in remaining;
      var value := entries[k];
      var step := WithoutLanguage(value);
      if step.Err? {
        assert k in strings && WithoutLanguage(strings[k]).Err?;
        return Err(step.error);
      }
      entries := entries[k := step.value];
      remaining := remaining - {k};
    }
    AllEntriesStripped(strings, entries);
    return Ok(entries);
  }

  /** Entries each stripped of the localization are the result of stripping them all. */
  lemma AllEntriesStripped(strings: map<string, Json>, entries: map<string, Json>)
    requires entries.Keys == strings.Keys
    requires forall k :: k in strings ==> WithoutLanguage(strings[k]).Ok? && entries[k] == WithoutLanguage(strings[k]).value
    ensures WithoutLanguageAll(strings) == Ok(entries)
  {
    assert WithoutLanguageAll(strings).value == entries;
  }
}
