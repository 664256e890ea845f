/**
 * `reducegeojson.py`: the loop that cuts every feature's `properties` down to
 * a fixed keep-list, and the loop that counts features whose `owner_1` is
 * missing or blank. The loaded document is a JSON value; Python's
 * exceptions on malformed input become `ScriptError`s.
 */
module ReduceGeoJson {
  import opened Wrappers
  import opened Seqs
  import opened Text

  /** A JSON value as `json.load` returns it (objects as maps: key order is not modelled). */
  datatype Json =
    | Null
    | Bool(truth: bool)
    | Number(num: real)
    | Str(str: string)
    | Array(items: seq<Json>)
    | Object(fields: map<string, Json>)

  /** The property names the cleaning keeps. */
  const PropertiesToKeep: seq<string> := [
    "X_pred_1", "locatin", "owner_1",
    "cnss_tr", "dominant_language", "dominant_pct",
    "sm_ddrs", "rntl_lc", "cmmrcl_", "avg_mr_",
    "GEOID", "ownr_c_", "lmtd_n_", "pp_dnst",
    "mdn_ncm"
  ]

  const FeaturesKey: string := "features"
  const PropertiesKey: string := "properties"
  const OwnerKey: string := "owner_1"

  /** Why a loop raised: `data.get` on a non-object, a non-iterable `features`, or a feature it cannot index at `index`. */
  datatype ScriptError = RootNotObject | FeaturesNotIterable | MalformedFeature(index: nat)

  /**
   * What `for feature in data.get('features', [])` visits. A missing key
   * visits nothing; a list visits its items. Iterating a string or an
   * object yields strings, which neither loop can index, so a non-empty one
   * fails at the first feature and an empty one visits nothing. Numbers,
   * booleans and `null` are not iterable.
   */
  function FeaturesOf(root: Json): (r: Result<seq<Json>, ScriptError>)
    ensures r.Err? && r.error == RootNotObject <==> !root.Object?
    ensures r.Ok? && r.value != [] ==> root.Object? && FeaturesKey in root.fields && root.fields[FeaturesKey] == Array(r.value)
    ensures root.Object? && FeaturesKey !in root.fields ==> r == Ok([])
    ensures r.Err? && r.error.MalformedFeature? ==> r.error.index == 0
    ensures root.Object? && FeaturesKey in root.fields && root.fields[FeaturesKey].Array? ==>
              r == Ok(root.fields[FeaturesKey].items)
    ensures root.Object? && FeaturesKey in root.fields && root.fields[FeaturesKey].Str? ==>
              r == if root.fields[FeaturesKey].str == "" then Ok([]) else Err(MalformedFeature(0))
    ensures root.Object? && FeaturesKey in root.fields && root.fields[FeaturesKey].Object? ==>
              r == if root.fields[FeaturesKey].fields == map[] then Ok([]) else Err(MalformedFeature(0))
    ensures root.Object? && FeaturesKey in root.fields &&
            (root.fields[FeaturesKey].Null? || root.fields[FeaturesKey].Bool? || root.fields[FeaturesKey].Number?) ==>
              r == Err(FeaturesNotIterable)
  {
    if !root.Object? then Err(RootNotObject)
    else if FeaturesKey !in root.fields then Ok([])
    else match root.fields[FeaturesKey]
      case Array(items) => Ok(items)
      case Str(s) => if s == "" then Ok([]) else Err(MalformedFeature(0))
      case Object(m) => if m == map[] then Ok([]) else Err(MalformedFeature(0))
      case _ => Err(FeaturesNotIterable)
  }

  /** The document with its `features` member set to the list `features`. */
  function WithFeatures(root: Json, features: seq<Json>): (r: Json)
    requires root.Object?
    ensures r.Object? && FeaturesKey in r.fields && r.fields[FeaturesKey] == Array(features)
  {
    Object(root.fields[FeaturesKey := Array(features)])
  }

  /** Setting the features leaves every other member of the document as it was. */
  lemma WithFeaturesKeepsRest(root: Json, features: seq<Json>)
    requires root.Object?
    ensures WithFeatures(root, features).fields.Keys == root.fields.Keys + {FeaturesKey}
    ensures forall k | k in root.fields && k != FeaturesKey :: WithFeatures(root, features).fields[k] == root.fields[k]
  {
  }

  // ---------------------------------------------------------------------------
  // The cleaning loop
  // ---------------------------------------------------------------------------

  /** The keep-list as a set of names (membership is all the cleaning asks of it). */
  const KeptNames: set<string> := set k | k in PropertiesToKeep

  /** `{k: v for k, v in props.items() if k in properties_to_keep}`: every other member is dropped. */
  function Project(props: map<string, Json>): (kept: map<string, Json>)
    ensures kept.Keys <= props.Keys
  {
    props - (props.Keys - KeptNames)
  }

  /** Projection keeps exactly the keep-list keys that were present, each with its value. */
  lemma ProjectExactly(props: map<string, Json>, k: string)
    ensures k in Project(props) <==> k in props && k in PropertiesToKeep
    ensures k in Project(props) ==> Project(props)[k] == props[k]
  {
  }

  /** Projecting twice is projecting once. */
  lemma ProjectIdempotent(props: map<string, Json>)
    ensures Project(Project(props)) == Project(props)
  {
  }

  /** `feature['properties'].items()` succeeds: the feature is an object whose `properties` is an object. */
  predicate HasPropertyObject(feature: Json)
    ensures HasPropertyObject(feature) ==> CanLookUpOwner(feature)
  {
    feature.Object? && PropertiesKey in feature.fields && feature.fields[PropertiesKey].Object?
  }

  /** `feature['properties'] = {...}` on a feature the loop can index; any other value is left as it is. */
  function CleanFeature(feature: Json): (cleaned: Json)
    ensures HasPropertyObject(cleaned) <==> HasPropertyObject(feature)
  {
    if HasPropertyObject(feature) then
      Object(feature.fields[PropertiesKey := Object(Project(feature.fields[PropertiesKey].fields))])
    else feature
  }

  /**
   * The whole first script on a loaded document: the cleaned document, or
   * the error the loop raises (the first feature it cannot index).
   */
  function CleanDocument(root: Json): (r: Result<Json, ScriptError>)
    ensures r.Ok? ==> FeaturesOf(root).Ok?
    ensures FeaturesOf(root).Err? ==> r == Err(FeaturesOf(root).error)
  {
    match FeaturesOf(root)
    case Err(e) => Err(e)
    case Ok(items) =>
      match FirstFailing(items, HasPropertyObject)
      case Some(k) => Err(MalformedFeature(k))
      case None => Ok(if items == [] then root else WithFeatures(root, Map(CleanFeature, items)))
  }

  /** The feature list after the loop has replaced, in place, the properties of its first `k` features. */
  function CleanedPrefix(items: seq<Json>, k: nat): (current: seq<Json>)
    requires k <= |items|
    ensures |current| == |items|
    decreases k
  {
    if k == 0 then items else CleanedPrefix(items, k - 1)[k - 1 := CleanFeature(items[k - 1])]
  }

  /** After `k` in-place steps the first `k` features are cleaned and the rest are untouched. */
  lemma {:induction false} CleanedPrefixSplits(items: seq<Json>, k: nat)
    requires k <= |items|
    ensures CleanedPrefix(items, k) == Map(CleanFeature, items[..k]) + items[k..]
    decreases k
  {
    if k == 0 {
      assert Map(CleanFeature, items[..0]) == [];
    } else {
      CleanedPrefixSplits(items, k - 1);
      var before := Map(CleanFeature, items[..k - 1]) + items[k - 1..];
      var after := Map(CleanFeature, items[..k]) + items[k..];
      assert |before[k - 1 := CleanFeature(items[k - 1])]| == |after|;
      forall j | 0 <= j < |after|
        ensures before[k - 1 := CleanFeature(items[k - 1])][j] == after[j]
      {
        if j < k - 1 {
          assert before[j] == Map(CleanFeature, items[..k - 1])[j] == CleanFeature(items[j]);
          assert after[j] == Map(CleanFeature, items[..k])[j] == CleanFeature(items[j]);
        } else if j == k - 1 {
          assert after[j] == Map(CleanFeature, items[..k])[j];
        } else {
          assert before[j] == items[k - 1..][j - (k - 1)] == items[j];
          assert after[j] == items[k..][j - k] == items[j];
        }
      }
    }
  }

  /** The document after the loop has replaced the properties of its first `k` features. */
  function CleanedBefore(root: Json, k: nat): (doc: Json)
  {
    if root.Object? && FeaturesKey in root.fields && root.fields[FeaturesKey].Array?
       && k <= |root.fields[FeaturesKey].items| then
      WithFeatures(root, CleanedPrefix(root.fields[FeaturesKey].items, k))
    else root
  }

  /** Before the loop has cleaned anything the document is as loaded. */
  lemma CleanedBeforeNothing(root: Json)
    ensures CleanedBefore(root, 0) == root
  {
    if root.Object? && FeaturesKey in root.fields && root.fields[FeaturesKey].Array? {
      assert root.fields[FeaturesKey := root.fields[FeaturesKey]] == root.fields;
    }
  }

  /** Cleaning feature `i` in place takes the document from `i` cleaned features to `i + 1`. */
  lemma CleanedBeforeStep(root: Json, items: seq<Json>, i: nat)
    requires FeaturesOf(root) == Ok(items) && i < |items|
    ensures var doc := CleanedBefore(root, i);
      doc.Object? && FeaturesKey in doc.fields && doc.fields[FeaturesKey].Array? &&
      |doc.fields[FeaturesKey].items| == |items| && doc.fields[FeaturesKey].items[i] == items[i] &&
      WithFeatures(doc, doc.fields[FeaturesKey].items[i := CleanFeature(items[i])]) == CleanedBefore(root, i + 1)
  {
    CleanedPrefixSplits(items, i);
    assert CleanedPrefix(items, i)[i] == items[i..][0];
  }

  /** When the loop has cleaned every feature the document is the cleaned one. */
  lemma CleanedBeforeAll(root: Json, items: seq<Json>)
    requires FeaturesOf(root) == Ok(items) && forall j | 0 <= j < |items| :: HasPropertyObject(items[j])
    ensures CleanDocument(root) == Ok(CleanedBefore(root, |items|))
  {
    if items == [] {
      CleanedBeforeNothing(root);
    } else {
      CleanedPrefixSplits(items, |items|);
      assert items[..|items|] == items && items[|items|..] == [];
      assert CleanedPrefix(items, |items|) == Map(CleanFeature, items);
      assert FirstFailing(items, HasPropertyObject) == None;
    }
  }

  /** A feature the loop accepts keeps every member but `properties`, whose keys fall in the keep-list and keep their values. */
  lemma CleanFeatureProperties(feature: Json)
    requires HasPropertyObject(feature)
    ensures HasPropertyObject(CleanFeature(feature))
    ensures CleanFeature(feature).fields.Keys == feature.fields.Keys
    ensures forall k | k in feature.fields && k != PropertiesKey :: CleanFeature(feature).fields[k] == feature.fields[k]
    ensures CleanFeature(feature).fields[PropertiesKey].fields.Keys
            == set k | k in feature.fields[PropertiesKey].fields && k in PropertiesToKeep
    ensures forall k | k in CleanFeature(feature).fields[PropertiesKey].fields ::
              CleanFeature(feature).fields[PropertiesKey].fields[k] == feature.fields[PropertiesKey].fields[k]
  {
  }

  /**
   * After a successful cleaning the document has the same features in the
   * same order, each with only its `properties` replaced by their keep-list
   * part, and the rest of the document is unchanged.
   */
  lemma CleanKeepsShape(root: Json)
    requires CleanDocument(root).Ok?
    ensures var items, out := FeaturesOf(root).value, CleanDocument(root).value;
      out.Object? && out.fields.Keys == root.fields.Keys &&
      (forall k | k in root.fields && k != FeaturesKey :: out.fields[k] == root.fields[k]) &&
      FeaturesOf(out) == Ok(Map(CleanFeature, items)) &&
      forall i | 0 <= i < |items| :: HasPropertyObject(items[i])
  {
    var items := FeaturesOf(root).value;
    if items == [] {
      assert Map(CleanFeature, items) == [];
    } else {
      WithFeaturesKeepsRest(root, Map(CleanFeature, items));
    }
  }

  /** After cleaning, every feature's property keys lie in the keep-list, with their original values. */
  lemma CleanedWithinKeepList(root: Json, i: nat, k: string)
    requires CleanDocument(root).Ok? && i < |FeaturesOf(root).value|
    ensures var before, after := FeaturesOf(root).value[i], FeaturesOf(CleanDocument(root).value).value[i];
      HasPropertyObject(after) &&
      (k in after.fields[PropertiesKey].fields <==> k in before.fields[PropertiesKey].fields && k in PropertiesToKeep) &&
      (k in after.fields[PropertiesKey].fields ==> after.fields[PropertiesKey].fields[k] == before.fields[PropertiesKey].fields[k])
  {
    CleanKeepsShape(root);
    CleanFeatureProperties(FeaturesOf(root).value[i]);
  }

  /** Cleaning an already cleaned document changes nothing. */
  lemma CleanIdempotent(root: Json)
    requires CleanDocument(root).Ok?
    ensures CleanDocument(CleanDocument(root).value) == CleanDocument(root)
  {
    CleanKeepsShape(root);
    var items := FeaturesOf(root).value;
    var out := CleanDocument(root).value;
    if items != [] {
      var cleaned := Map(CleanFeature, items);
      forall i | 0 <= i < |cleaned|
        ensures HasPropertyObject(cleaned[i]) && CleanFeature(cleaned[i]) == cleaned[i]
      {
        CleanFeatureProperties(items[i]);
        ProjectIdempotent(items[i].fields[PropertiesKey].fields);
        assert cleaned[i].fields[PropertiesKey := cleaned[i].fields[PropertiesKey]] == cleaned[i].fields;
      }
      assert Map(CleanFeature, cleaned) == cleaned;
      assert out.fields[FeaturesKey := Array(cleaned)] == out.fields;
    }
  }

  /** A document without a `features` member is left exactly as it is. */
  lemma CleanWithoutFeatures(root: Json)
    requires root.Object? && FeaturesKey !in root.fields
    ensures CleanDocument(root) == Ok(root)
  {
  }

  /** The in-memory `data` of `reducegeojson.py` (only the part the loops touch). */
  class GeoJsonDocument {
    var root: Json

    constructor (root: Json)
      ensures this.root == root
    {
      this.root := root;
    }

    /**
     * The cleaning loop, replacing each feature's `properties` in place.
     * On success the document is `CleanDocument` of the old one; when the
     * loop raises, the features before the failing one are already cleaned.
     */
    method CleanFeatures() returns (error: Option<ScriptError>)
      modifies this
      ensures CleanDocument(old(root)).Ok? ==> error == None && root == CleanDocument(old(root)).value
      ensures CleanDocument(old(root)).Err? ==> error == Some(CleanDocument(old(root)).error)
      ensures error.Some? && error.value.MalformedFeature? ==> root == CleanedBefore(old(root), error.value.index)
      ensures error.Some? && !error.value.MalformedFeature? ==> root == old(root)
    {
      CleanedBeforeNothing(root);
      var found := FeaturesOf(root);
      if found.Err? {
        return Some(found.error);
      }
      var items := found.value;
      var original := root;
      var i := 0;
      while i < |items|
        invariant 0 <= i <= |items|
        invariant forall j | 0 <= j < i :: HasPropertyObject(items[j])
        invariant root == CleanedBefore(original, i)
      {
        var feature := items[i];
        if !HasPropertyObject(feature) {
          FirstFailingAt(items, HasPropertyObject, i);
          return Some(MalformedFeature(i));
        }
        CleanedBeforeStep(original, items, i);
        var current := root.fields[FeaturesKey].items;
        root := WithFeatures(root, current[i := CleanFeature(feature)]);
        i := i + 1;
      }
      CleanedBeforeAll(original, items);
      return None;
    }

    /**
     * The counting loop over the document's features: the number of features
     * whose `owner_1` is missing or blank, or the error the loop raises.
     */
    method CountMissingOwners() returns (r: Result<nat, ScriptError>)
      ensures r == MissingOwnerCount(root)
    {
      var found := FeaturesOf(root);
      if found.Err? {
        return Err(found.error);
      }
      var items := found.value;
      var missingLocationCount := 0;
      for i := 0 to |items|
        invariant forall j | 0 <= j < i :: CanLookUpOwner(items[j])
        invariant missingLocationCount == |Filter(items[..i], IsMissingOwner)|
      {
        var feature := items[i];
        if !CanLookUpOwner(feature) {
          FirstFailingAt(items, CanLookUpOwner, i);
          return Err(MalformedFeature(i));
        }
        var loc := OwnerOf(feature);
        assert items[..i + 1] == items[..i] + [feature];
        FilterAppend(items[..i], feature, IsMissingOwner);
        if IsBlankOwner(loc) {
          missingLocationCount := missingLocationCount + 1;
        }
      }
      assert items[..|items|] == items;
      return Ok(missingLocationCount);
    }
  }

  // ---------------------------------------------------------------------------
  // The counting loop
  // ---------------------------------------------------------------------------

  /** `feature.get('properties', {}).get('owner_1')` succeeds: the feature and its properties, when present, are objects. */
  predicate CanLookUpOwner(feature: Json)
    ensures feature.Object? && PropertiesKey !in feature.fields ==> CanLookUpOwner(feature)
  {
    feature.Object? && (PropertiesKey in feature.fields ==> feature.fields[PropertiesKey].Object?)
  }

  /** The value of `owner_1`, `None` when it or `properties` is absent. */
  function OwnerOf(feature: Json): (owner: Option<Json>)
    requires CanLookUpOwner(feature)
    ensures owner.Some? <==> PropertiesKey in feature.fields && OwnerKey in feature.fields[PropertiesKey].fields
    ensures owner.Some? ==> owner.value == feature.fields[PropertiesKey].fields[OwnerKey]
  {
    if PropertiesKey !in feature.fields then None
    else
      var props := feature.fields[PropertiesKey].fields;
      if OwnerKey in props then Some(props[OwnerKey]) else None
  }

  /** `loc is None or (isinstance(loc, str) and loc.strip() == '')`. */
  predicate IsBlankOwner(loc: Option<Json>)
    ensures IsBlankOwner(loc) && loc.Some? ==> loc.value.Null? || loc.value.Str?
  {
    loc.None? || loc.value.Null? || (loc.value.Str? && PyStrip(loc.value.str) == "")
  }

  /** A feature the count includes. */
  predicate IsMissingOwner(feature: Json)
    ensures feature.Object? && PropertiesKey !in feature.fields ==> IsMissingOwner(feature)
  {
    CanLookUpOwner(feature) && IsBlankOwner(OwnerOf(feature))
  }

  /** What the second script computes for a loaded document. */
  function MissingOwnerCount(root: Json): (r: Result<nat, ScriptError>)
    ensures r.Ok? ==> FeaturesOf(root).Ok? && r.value <= |FeaturesOf(root).value|
    ensures FeaturesOf(root).Err? ==> r == Err(FeaturesOf(root).error)
  {
    match FeaturesOf(root)
    case Err(e) => Err(e)
    case Ok(items) =>
      match FirstFailing(items, CanLookUpOwner)
      case Some(k) => Err(MalformedFeature(k))
      case None => Ok(|Filter(items, IsMissingOwner)|)
  }

  /** An owner counts as missing exactly when it is absent, `null`, or a string of whitespace only; numbers and booleans never count. */
  lemma BlankOwnerExactly(loc: Option<Json>)
    ensures IsBlankOwner(loc) <==>
      loc.None? || loc.value.Null? || (loc.value.Str? && AllSpace(loc.value.str, IsPySpace))
  {
    if loc.Some? && loc.value.Str? {
      TrimEmptyIff(loc.value.str, IsPySpace);
    }
  }

  /**
   * A readable feature is counted exactly when it has no `properties`, its
   * `properties` have no `owner_1`, or `owner_1` is `null` or a string of
   * Python whitespace.
   */
  lemma MissingOwnerExactly(feature: Json)
    requires CanLookUpOwner(feature)
    ensures IsMissingOwner(feature) <==>
      PropertiesKey !in feature.fields ||
      OwnerKey !in feature.fields[PropertiesKey].fields ||
      feature.fields[PropertiesKey].fields[OwnerKey].Null? ||
      (feature.fields[PropertiesKey].fields[OwnerKey].Str? &&
       AllSpace(feature.fields[PropertiesKey].fields[OwnerKey].str, IsPySpace))
  {
    BlankOwnerExactly(OwnerOf(feature));
  }

  /** A document without a `features` member counts nothing. */
  lemma MissingOwnerCountWithoutFeatures(root: Json)
    requires root.Object? && FeaturesKey !in root.fields
    ensures MissingOwnerCount(root) == Ok(0)
  {
    assert Filter<Json>([], IsMissingOwner) == [];
  }

  /**
   * `owner_1` is in the keep-list, so the count over the cleaned document
   * that the first script writes is the count over the original.
   */
  lemma CleaningKeepsMissingOwnerCount(root: Json)
    requires CleanDocument(root).Ok?
    ensures MissingOwnerCount(CleanDocument(root).value) == MissingOwnerCount(root)
  {
    CleanKeepsShape(root);
    var items := FeaturesOf(root).value;
    var cleaned := Map(CleanFeature, items);
    forall i | 0 <= i < |items|
      ensures CanLookUpOwner(items[i]) && CanLookUpOwner(cleaned[i])
      ensures IsMissingOwner(cleaned[i]) == IsMissingOwner(items[i])
    {
      CleanFeatureProperties(items[i]);
      ProjectExactly(items[i].fields[PropertiesKey].fields, OwnerKey);
    }
    FilterMapLength(CleanFeature, items, IsMissingOwner);
  }
}
