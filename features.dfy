/**
 * The not-yet-enrolled property features loaded from
 * `property_without_exemption_tractdata_reduced.geojson`, and the two
 * filters applied to them: by eligibility score alone (the map layer) and by
 * tract and score (the dashboard's tract count).
 */
module Features {
  import opened Seqs

  /** A GeoJSON point position, in GeoJSON's own order: longitude first. */
  datatype Position = Position(lng: real, lat: real)

  /**
   * The `properties` of a feature that the model reads: `objectid` (as the text
   * `join` produces for it), `GEOID` (the census tract), and `_pred1` (the
   * predicted eligibility probability).
   */
  datatype PropertyRecord = PropertyRecord(objectId: string, geoid: string, score: real)

  datatype PropertyFeature = PropertyFeature(coordinates: Position, properties: PropertyRecord)

  /** The map layer's test `feature.properties._pred1 >= threshold`. */
  function MeetsThreshold(threshold: real): (test: PropertyFeature -> bool)
  {
    (f: PropertyFeature) => f.properties.score >= threshold
  }

  /** The dashboard's test: same tract (strict equality) and score at least the threshold. */
  function InTractMeeting(tract: string, threshold: real): (test: PropertyFeature -> bool)
  {
    (f: PropertyFeature) => f.properties.geoid == tract && f.properties.score >= threshold
  }

  /** The features the map shows at `threshold`, in feature order. */
  function AboveThreshold(features: seq<PropertyFeature>, threshold: real): (shown: seq<PropertyFeature>)
    ensures |shown| <= |features|
    ensures forall i | 0 <= i < |shown| :: shown[i].properties.score >= threshold
  {
    Filter(features, MeetsThreshold(threshold))
  }

  /** The features of `tract` counted by the dashboard at `threshold`, in feature order. */
  function Matches(features: seq<PropertyFeature>, tract: string, threshold: real): (matches: seq<PropertyFeature>)
    ensures |matches| <= |features|
    ensures forall i | 0 <= i < |matches| ::
              matches[i].properties.geoid == tract && matches[i].properties.score >= threshold
  {
    Filter(features, InTractMeeting(tract, threshold))
  }

  function ObjectIdOf(f: PropertyFeature): (id: string) { f.properties.objectId }

  /** `features.map(feature => feature.properties.objectid)`. */
  function ObjectIds(features: seq<PropertyFeature>): (ids: seq<string>)
    ensures |ids| == |features|
    ensures forall i | 0 <= i < |features| :: ids[i] == features[i].properties.objectId
  {
    Map(ObjectIdOf, features)
  }

  /** The tract filter keeps exactly the features of the tract whose score meets the (inclusive) bound. */
  lemma MatchesExactly(features: seq<PropertyFeature>, tract: string, threshold: real, f: PropertyFeature)
    ensures f in Matches(features, tract, threshold) <==>
            f in features && f.properties.geoid == tract && f.properties.score >= threshold
  {
    FilterMembership(features, InTractMeeting(tract, threshold), f);
  }

  /** The score filter keeps exactly the features whose score meets the (inclusive) bound. */
  lemma AboveThresholdExactly(features: seq<PropertyFeature>, threshold: real, f: PropertyFeature)
    ensures f in AboveThreshold(features, threshold) <==> f in features && f.properties.score >= threshold
  {
    FilterMembership(features, MeetsThreshold(threshold), f);
  }

  /**
   * Raising the threshold only drops features: the selection at the higher
   * threshold is a subsequence of the one at the lower threshold, so are its
   * object ids, and the count cannot grow.
   */
  lemma MatchesShrink(features: seq<PropertyFeature>, tract: string, low: real, high: real)
    requires low <= high
    ensures IsSubsequence(Matches(features, tract, high), Matches(features, tract, low))
    ensures IsSubsequence(ObjectIds(Matches(features, tract, high)), ObjectIds(Matches(features, tract, low)))
    ensures |Matches(features, tract, high)| <= |Matches(features, tract, low)|
  {
    FilterStronger(features, InTractMeeting(tract, high), InTractMeeting(tract, low));
    MapSubsequence(ObjectIdOf, Matches(features, tract, high), Matches(features, tract, low));
    SubsequenceLength(Matches(features, tract, high), Matches(features, tract, low));
  }

  /** The same for the map's score-only filter. */
  lemma AboveThresholdShrink(features: seq<PropertyFeature>, low: real, high: real)
    requires low <= high
    ensures IsSubsequence(AboveThreshold(features, high), AboveThreshold(features, low))
    ensures |AboveThreshold(features, high)| <= |AboveThreshold(features, low)|
  {
    FilterStronger(features, MeetsThreshold(high), MeetsThreshold(low));
    SubsequenceLength(AboveThreshold(features, high), AboveThreshold(features, low));
  }

  /** A tract's selection is part of the map's selection at the same threshold, in the same order. */
  lemma MatchesWithinAboveThreshold(features: seq<PropertyFeature>, tract: string, threshold: real)
    ensures IsSubsequence(Matches(features, tract, threshold), AboveThreshold(features, threshold))
  {
    FilterStronger(features, InTractMeeting(tract, threshold), MeetsThreshold(threshold));
  }
}
