/**
 * `dashboard.js`: the selection state behind the side panel (the loaded
 * features, the last clicked tract, the slider threshold and the object ids
 * of the current selection), the tract update that recomputes the count and
 * the outreach estimate, the slider handler, and the CSV export.
 */
module Dashboard {
  import opened Wrappers
  import opened Seqs
  import opened Text
  import opened Features
  import opened Outreach
  import opened PropertyMap
  import opened LayerMap

  /** The slider's initial value and the initial `threshold`. */
  const DefaultThreshold: real := 0.7

  const CsvHeader: string := "objectid"
  const SelectPropertyFirst: string := "Please select a property first."
  const NoPropertiesMeetThreshold: string := "No properties meet the current threshold in this tract."

  /** The exported text: the header line, then one object id per line. */
  function ExportCsv(ids: seq<string>): (csv: string)
    ensures |csv| > |CsvHeader| && csv[..|CsvHeader| + 1] == CsvHeader + "\n"
  {
    CsvHeader + "\n" + JoinLines(ids)
  }

  /** Splitting the exported text on newlines gives back the header followed by exactly the ids. */
  lemma ExportCsvLines(ids: seq<string>)
    requires |ids| >= 1
    requires forall i | 0 <= i < |ids| :: '\n' !in ids[i]
    ensures SplitLines(ExportCsv(ids)) == [CsvHeader] + ids
  {
    SplitAtNewline(CsvHeader, JoinLines(ids));
    SplitWithoutNewline(CsvHeader);
    SplitJoinLines(ids);
  }

  /** The download name `tract_<GEOID>_<threshold>.csv`, by its two parts (JavaScript's number-to-text is not modelled). */
  datatype ExportFileName = ExportFileName(tract: string, threshold: real)

  /** What a click on the export button leads to: an alert, a download, or an uncaught exception. */
  datatype ExportOutcome =
    | Alert(message: string)
    | Download(fileName: ExportFileName, csv: string)
    | ExportThrew

  /** What `updateTractCharacteristics` leads to: an early return, an uncaught exception, or the refreshed panel. */
  datatype TractUpdate =
    | NoPanel
    | UpdateThrew
    | Shown(count: nat, estimate: OutreachEstimate)

  /** JavaScript truthiness of `lastClickedGEOID`: `null` and the empty string are falsy. */
  predicate IsSelected(geoid: Option<string>)
    ensures geoid == Some("") ==> !IsSelected(geoid)
  {
    geoid.Some? && geoid.value != ""
  }

  class DashboardState {
    /** `withoutExemptionData`, this module's own copy of the features; absent until loaded. */
    var data: Option<seq<PropertyFeature>>
    var selectedObjectIds: seq<string>
    var lastClickedGEOID: Option<string>
    /** The module-level `threshold`, written by the slider handler. */
    var threshold: real
    var currentTractData: Option<PropertyRecord>
    /** Whether `renderDashboardPanel` has built the panel (its table body, slider and button). */
    var panelRendered: bool
    /** The value of the `threshold-slider` input, as `parseFloat` reads it. */
    var slider: real
    /**
     * Whether the page holds an element of class `benefit-table-container`.
     * No code of the dashboard creates one (the panel's benefit table goes
     * straight into `#left-panel`), so it is given by the page. Without it the
     * last step of every tract update, appending the uptake message, throws.
     */
    const benefitContainer: bool

    /** The module's initial state on a page that has (or lacks) the benefit-table container. */
    constructor (benefitContainer: bool)
      ensures data == None && selectedObjectIds == [] && lastClickedGEOID == None
      ensures threshold == DefaultThreshold && currentTractData == None && !panelRendered
      ensures this.benefitContainer == benefitContainer
    {
      this.benefitContainer := benefitContainer;
      data := None;
      selectedObjectIds := [];
      lastClickedGEOID := None;
      threshold := DefaultThreshold;
      currentTractData := None;
      panelRendered := false;
      slider := DefaultThreshold;
    }

    /** The features' fetch completes. */
    method LoadData(features: seq<PropertyFeature>)
      modifies this`data
      ensures data == Some(features)
    {
      data := Some(features);
    }

    /** `renderDashboardPanel`: the panel exists and its new slider starts at 0.7. */
    method RenderDashboardPanel()
      modifies this`panelRendered, this`slider
      ensures panelRendered && slider == DefaultThreshold
    {
      panelRendered := true;
      slider := DefaultThreshold;
    }

    /**
     * `countPropertiesInTract(tract, threshold)`: the number of features of the
     * tract whose score meets the threshold, with their object ids stored for
     * the export in feature order. Before the data has loaded the call throws
     * (`None`) and the stored ids stay as they were.
     */
    method CountPropertiesInTract(tract: string, threshold: real) returns (count: Option<nat>)
      modifies this`selectedObjectIds
      ensures data.None? ==> count == None && selectedObjectIds == old(selectedObjectIds)
      ensures data.Some? ==>
                var matches := Matches(data.value, tract, threshold);
                count == Some(|matches|) && selectedObjectIds == ObjectIds(matches) &&
                |selectedObjectIds| == count.value
    {
      if data.None? {
        return None;
      }
      var matches := Matches(data.value, tract, threshold);
      selectedObjectIds := ObjectIds(matches);
      count := Some(|matches|);
    }

    /**
     * `updateTractCharacteristics(tractData)`: stores the tract, and once the
     * panel exists records its GEOID as the last clicked tract, recounts at the
     * slider's value and shows the count with its outreach estimate. Without
     * tract data (reading a field of `null`) or without loaded features the
     * call throws; on a page without the benefit-table container it throws at
     * its last step, after the GEOID and the ids have been stored.
     */
    method UpdateTractCharacteristics(tractData: Option<PropertyRecord>) returns (r: TractUpdate)
      modifies this`currentTractData, this`lastClickedGEOID, this`selectedObjectIds
      ensures currentTractData == tractData
      ensures !panelRendered ==>
                r == NoPanel && lastClickedGEOID == old(lastClickedGEOID) && selectedObjectIds == old(selectedObjectIds)
      ensures panelRendered && tractData.None? ==>
                r == UpdateThrew && lastClickedGEOID == old(lastClickedGEOID) && selectedObjectIds == old(selectedObjectIds)
      ensures panelRendered && tractData.Some? ==> lastClickedGEOID == Some(tractData.value.geoid)
      ensures panelRendered && tractData.Some? && data.None? ==>
                r == UpdateThrew && selectedObjectIds == old(selectedObjectIds)
      ensures panelRendered && tractData.Some? && data.Some? ==>
                var matches := Matches(data.value, tractData.value.geoid, slider);
                selectedObjectIds == ObjectIds(matches) &&
                r == if benefitContainer then Shown(|matches|, Estimate(|matches|)) else UpdateThrew
    {
      currentTractData := tractData;
      if !panelRendered {
        return NoPanel;
      }
      if tractData.None? {
        return UpdateThrew;
      }
      lastClickedGEOID := Some(tractData.value.geoid);
      var count := CountPropertiesInTract(tractData.value.geoid, slider);
      if count.None? || !benefitContainer {
        return UpdateThrew;
      }
      r := Shown(count.value, Estimate(count.value));
    }

    /**
     * The slider's `oninput` at value `v`: rebuilds the map's cluster layer at
     * `v`, re-runs the tract update, and only if that did not throw stores `v`
     * in `threshold` (so never on a page without the benefit-table container).
     */
    method SliderInput(v: real, layers: PropertyLayers)
      requires panelRendered && layers.Valid()
      modifies this`slider, this`currentTractData, this`lastClickedGEOID, this`selectedObjectIds, this`threshold
      modifies layers, layers.view
      ensures slider == v
      ensures currentTractData == old(currentTractData)
      ensures layers.Valid() && layers.data == old(layers.data)
      ensures layers.exemptionsLoaded == old(layers.exemptionsLoaded) && layers.hotspotsLoaded == old(layers.hotspotsLoaded)
      ensures layers.view.zoom == old(layers.view.zoom) && layers.view.center == old(layers.view.center)
      ensures layers.data.None? ==>
                layers.view.layers == Without(old(layers.view.layers), old(layers.clusterLayer)) &&
                layers.clusterLayer == old(layers.clusterLayer) && layers.clusterMarkers == old(layers.clusterMarkers)
      ensures layers.data.Some? ==>
                layers.clusterLayer == Some(PropertyClusters(old(layers.generations))) &&
                layers.view.layers == Without(old(layers.view.layers), old(layers.clusterLayer)) + {layers.clusterLayer.value} &&
                layers.clusterMarkers == Map(MarkerFor, AboveThreshold(layers.data.value, v))
      ensures threshold == if currentTractData.Some? && data.Some? && benefitContainer then v else old(threshold)
      ensures currentTractData.Some? ==> lastClickedGEOID == Some(currentTractData.value.geoid)
      ensures currentTractData.Some? && data.Some? ==>
                selectedObjectIds == ObjectIds(Matches(data.value, currentTractData.value.geoid, v))
      ensures currentTractData.Some? && data.None? ==> selectedObjectIds == old(selectedObjectIds)
      ensures currentTractData.None? ==>
                lastClickedGEOID == old(lastClickedGEOID) && selectedObjectIds == old(selectedObjectIds)
    {
      slider := v;
      layers.UpdateWithoutExemptionLayer(v);
      RetallyAfterSlide();
    }

    /**
     * The rest of the slider handler, once the layer is rebuilt: the tract
     * update at the slider's value, then `threshold = parseFloat(slider.value)`,
     * which is reached only when the update did not throw.
     */
    method RetallyAfterSlide()
      requires panelRendered
      modifies this`currentTractData, this`lastClickedGEOID, this`selectedObjectIds, this`threshold
      ensures currentTractData == old(currentTractData)
      ensures threshold == if currentTractData.Some? && data.Some? && benefitContainer then slider else old(threshold)
      ensures currentTractData.Some? ==> lastClickedGEOID == Some(currentTractData.value.geoid)
      ensures currentTractData.Some? && data.Some? ==>
                selectedObjectIds == ObjectIds(Matches(data.value, currentTractData.value.geoid, slider))
      ensures currentTractData.Some? && data.None? ==> selectedObjectIds == old(selectedObjectIds)
      ensures currentTractData.None? ==>
                lastClickedGEOID == old(lastClickedGEOID) && selectedObjectIds == old(selectedObjectIds)
    {
      var r := UpdateTractCharacteristics(currentTractData);
      if r.UpdateThrew? {
        return;
      }
      threshold := slider;
    }

    /**
     * The export button's click handler as written: alerts when no tract is
     * selected, recounts at the slider's value, alerts when nothing matches,
     * and otherwise downloads the ids, naming the file after the module-level
     * `threshold`.
     */
    method ExportAsWritten() returns (out: ExportOutcome)
      requires panelRendered
      modifies this`selectedObjectIds
      ensures !IsSelected(lastClickedGEOID) ==>
                out == Alert(SelectPropertyFirst) && selectedObjectIds == old(selectedObjectIds)
      ensures IsSelected(lastClickedGEOID) && data.None? ==>
                out == ExportThrew && selectedObjectIds == old(selectedObjectIds)
      ensures IsSelected(lastClickedGEOID) && data.Some? ==>
                var matches := Matches(data.value, lastClickedGEOID.value, slider);
                selectedObjectIds == ObjectIds(matches) &&
                out == if |matches| == 0 then Alert(NoPropertiesMeetThreshold)
                       else Download(ExportFileName(lastClickedGEOID.value, threshold), ExportCsv(selectedObjectIds))
    {
      if !IsSelected(lastClickedGEOID) {
        return Alert(SelectPropertyFirst);
      }
      var currentThreshold := slider;
      var count := CountPropertiesInTract(lastClickedGEOID.value, currentThreshold);
      if count.None? {
        return ExportThrew;
      }
      if count.value == 0 {
        return Alert(NoPropertiesMeetThreshold);
      }
      out := Download(ExportFileName(lastClickedGEOID.value, threshold), ExportCsv(selectedObjectIds));
    }

    /**
     * The export handler with the file named after the threshold the ids were
     * selected at: a download always holds exactly the tract's matches at the
     * slider's value and is named after that same tract and value.
     */
    method Export() returns (out: ExportOutcome)
      requires panelRendered
      modifies this`selectedObjectIds
      ensures !IsSelected(lastClickedGEOID) ==>
                out == Alert(SelectPropertyFirst) && selectedObjectIds == old(selectedObjectIds)
      ensures IsSelected(lastClickedGEOID) && data.None? ==>
                out == ExportThrew && selectedObjectIds == old(selectedObjectIds)
      ensures IsSelected(lastClickedGEOID) && data.Some? ==>
                var matches := Matches(data.value, lastClickedGEOID.value, slider);
                selectedObjectIds == ObjectIds(matches) &&
                out == if |matches| == 0 then Alert(NoPropertiesMeetThreshold)
                       else Download(ExportFileName(lastClickedGEOID.value, slider), ExportCsv(ObjectIds(matches)))
    {
      out := ExportAsWritten();
      if out.Download? {
        out := Download(ExportFileName(lastClickedGEOID.value, slider), out.csv);
      }
    }
  }

  /** The scenario's tract and its two properties: "17" scores 0.95, "18" scores 0.75. */
  const ScenarioTract: string := "42101000100"

  function ScenarioLikely(): (likely: PropertyFeature)
  {
    PropertyFeature(Position(-75.16, 39.95), PropertyRecord("17", ScenarioTract, 0.95))
  }

  function ScenarioPossible(): (possible: PropertyFeature)
  {
    PropertyFeature(Position(-75.17, 39.96), PropertyRecord("18", ScenarioTract, 0.75))
  }

  /**
   * On a page with the benefit-table container (without it the threshold is
   * never stored at all): the data loads, the panel opens, the slider moves to 0.9 while no tract
   * is selected (the handler throws before storing the threshold), and then a
   * property of the tract is clicked.
   */
  method SlideBeforeFirstClick() returns (dashboard: DashboardState)
    ensures fresh(dashboard)
    ensures dashboard.panelRendered && dashboard.data == Some([ScenarioLikely(), ScenarioPossible()])
    ensures dashboard.threshold == DefaultThreshold && dashboard.slider == 0.9
    ensures dashboard.lastClickedGEOID == Some(ScenarioTract)
  {
    var features := [ScenarioLikely(), ScenarioPossible()];
    dashboard := new DashboardState(true);
    dashboard.LoadData(features);
    var layers := new PropertyLayers();
    dashboard.RenderDashboardPanel();
    dashboard.SliderInput(0.9, layers);
    var shown := dashboard.UpdateTractCharacteristics(Some(ScenarioLikely().properties));
  }

  /**
   * After `SlideBeforeFirstClick` the as-written export names its file after
   * 0.7 although it holds only the ids selected at 0.9 ("17"; at 0.7 it would
   * hold "17" and "18"). The corrected export names it 0.9.
   */
  method StaleFileNameScenario() returns (asWritten: ExportOutcome, corrected: ExportOutcome)
    ensures asWritten == Download(ExportFileName(ScenarioTract, 0.7), "objectid\n17")
    ensures corrected == Download(ExportFileName(ScenarioTract, 0.9), "objectid\n17")
  {
    var dashboard := SlideBeforeFirstClick();
    ScenarioSelection();
    asWritten := dashboard.ExportAsWritten();
    corrected := dashboard.Export();
  }

  /** The scenario's selection at 0.9 and its exported text. */
  lemma ScenarioSelection()
    ensures Matches([ScenarioLikely(), ScenarioPossible()], ScenarioTract, 0.9) == [ScenarioLikely()]
    ensures ExportCsv(ObjectIds([ScenarioLikely()])) == "objectid\n17"
  {
    var likely, possible := ScenarioLikely(), ScenarioPossible();
    var features := [likely, possible];
    var inTract := InTractMeeting(ScenarioTract, 0.9);
    assert features[1..] == [possible] && [possible][1..] == [];
    assert Filter([possible], inTract) == [] by {
      assert !inTract(possible);
    }
    assert Filter(features, inTract) == [likely] + Filter([possible], inTract) by {
      assert inTract(likely);
    }
    assert ObjectIds([likely]) == ["17"];
  }
}
