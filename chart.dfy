/** The React component of src/App.js: the two pieces of state
    (`selectedClass`, `selectedParam`), the values derived from them on every
    render for given tables, and the two setters the page calls. The inline
    dataset itself is in ChartData. */
module Chart {
  import opened Records
  import opened Queries
  import opened Text

  /** A molar weight of the inline dataset: a number of grams per mole, or
      the dash the table shows for solutions. */
  datatype MolarWeight = Grams(value: real) | Dash(text: string)

  /** The property names of the six parameter objects in this file. */
  const CamelKeys: map<string, Param> := map[
    "pSpeed" := PSpeed, "dSpeed" := DSpeed, "airGap" := AirGap,
    "blowout" := Blowout, "zOffset" := ZOffset, "tips" := Tips]

  /** The key each of the six tiles passes to `setSelectedParam`. */
  function TileKey(p: Param): (key: string)
    ensures key in CamelKeys && CamelKeys[key] == p
    ensures key != "name" && key != "description"
  {
    match p
    case PSpeed => "pSpeed"
    case DSpeed => "dSpeed"
    case AirGap => "airGap"
    case Blowout => "blowout"
    case ZOffset => "zOffset"
    case Tips => "tips"
  }

  /** The two constant arrays the component closes over. The derived values
      below are defined for any such tables; `ChartData.Inline()` is the one the file
      declares. */
  datatype Tables = Tables(liquidsData: seq<Liquid<MolarWeight>>, liquidClasses: seq<LiquidClass>)

  /** The component state; both values start as the empty string. */
  datatype State = State(selectedClass: string, selectedParam: string)

  const Initial := State("", "")

  /** The selector's `onChange`: `setSelectedClass(e.target.value)`. */
  function SelectClass(st: State, value: string): State {
    st.(selectedClass := value)
  }

  /** A tile's `onClick`: `setSelectedParam(key)`. */
  function ClickTile(st: State, p: Param): State {
    st.(selectedParam := TileKey(p))
  }

  /** `filteredLiquids`: every liquid when no class is selected (the empty
      string is falsy), otherwise those whose class is the selected one. */
  function FilteredLiquids(t: Tables, st: State): seq<Liquid<MolarWeight>> {
    if st.selectedClass != "" then OfClass(t.liquidsData, st.selectedClass) else t.liquidsData
  }

  /** `selectedClassDetails`: `find` returns the first match or `undefined`. */
  function SelectedClassDetails(t: Tables, st: State): Option<LiquidClass> {
    FindClass(t.liquidClasses, st.selectedClass)
  }

  /** `getSelectedParamDetails()`: `null` (here `None`) without a class record
      or without a selected key, otherwise the record's property of that name
      (which is `undefined`, here `Some(Missing)`, for an unknown key). */
  function GetSelectedParamDetails(t: Tables, st: State): Option<Prop> {
    var details := SelectedClassDetails(t, st);
    if details.None? || st.selectedParam == "" then None
    else Some(PropOf(details.value, CamelKeys, st.selectedParam))
  }

  /** The class block: heading, description and the six tile texts. */
  datatype ClassPanel = ClassPanel(title: string, description: string, tiles: seq<string>)

  /** The caption in front of each tile's label and value. */
  function Caption(p: Param): string {
    match p
    case PSpeed => "Pipetting Speed"
    case DSpeed => "Dispensing Speed"
    case AirGap => "Air Gap"
    case Blowout => "Blowout"
    case ZOffset => "Z-Offset"
    case Tips => "Recommended Tips"
  }

  /** A tile: its caption, then the label and the value in parentheses. */
  function Tile(c: LiquidClass, p: Param): string {
    Caption(p) + ": " + TileText(c.Setting(p))
  }

  /** The parameter block: heading and settings text. */
  datatype ParamPanel = ParamPanel(heading: string, settings: string)

  /** The class block is rendered exactly when `selectedClassDetails` is. */
  function ClassPanelOf(t: Tables, st: State): Option<ClassPanel> {
    match SelectedClassDetails(t, st)
    case None => None
    case Some(c) =>
      Some(ClassPanel(c.name + " Settings", c.description,
        seq(|AllParams|, k requires 0 <= k < |AllParams| => Tile(c, AllParams[k]))))
  }

  /** The parameter block is rendered when `paramDetails` is truthy; its
      heading is the formatted key. */
  function ParamPanelOf(t: Tables, st: State): Option<ParamPanel> {
    match GetSelectedParamDetails(t, st)
    case Some(p) =>
      if Truthy(p) then
        Some(ParamPanel(Heading(st.selectedParam), VenusText(p)))
      else None
    case None => None
  }

  /** The parameter block's heading for a key. */
  function Heading(key: string): string {
    "Venus Parameter Details: " + FormatParameterName(key)
  }

  // Properties of the derived values, for any tables

  /** With no class selected the table lists every liquid; with a class
      selected it lists exactly the liquids of that class, in order. */
  lemma FilteredLiquidsSelects(t: Tables, st: State)
    ensures st.selectedClass == "" ==> FilteredLiquids(t, st) == t.liquidsData
    ensures st.selectedClass != "" ==>
      IsSelection(FilteredLiquids(t, st), t.liquidsData, st.selectedClass,
                  MatchIndices(t.liquidsData, st.selectedClass))
  {
    if st.selectedClass != "" {
      OfClassIsSelection(t.liquidsData, st.selectedClass);
    }
  }

  /** The class block is shown exactly when some class has the selected
      name, and then for the first such class. */
  lemma SelectedClassDetailsExact(t: Tables, st: State)
    ensures SelectedClassDetails(t, st).None? <==> st.selectedClass !in ClassNames(t.liquidClasses)
    ensures ClassPanelOf(t, st).Some? <==> SelectedClassDetails(t, st).Some?
  {
    var names := ClassNames(t.liquidClasses);
    if st.selectedClass in names {
      var i :| 0 <= i < |names| && names[i] == st.selectedClass;
      assert t.liquidClasses[i].name == st.selectedClass;
    }
  }

  /** A rendered class block is headed by the selected name itself, carries
      that class's description, and has one tile per parameter kind in the
      order pipetting speed, dispensing speed, air gap, blowout, Z-offset,
      tips, each showing that parameter's label and value of the class that
      has the selected name. */
  lemma ClassPanelShowsSelectedClass(t: Tables, st: State)
    requires ClassPanelOf(t, st).Some?
    ensures var panel := ClassPanelOf(t, st).value;
      && panel.title == st.selectedClass + " Settings"
      && (exists i :: 0 <= i < |t.liquidClasses| && t.liquidClasses[i].name == st.selectedClass
            && panel.description == t.liquidClasses[i].description)
      && |panel.tiles| == 6
      && forall k :: 0 <= k < 6 ==>
           panel.tiles[k] == Caption(AllParams[k]) + ": "
             + SelectedClassDetails(t, st).value.Setting(AllParams[k]).labelText + " ("
             + SelectedClassDetails(t, st).value.Setting(AllParams[k]).value + ")"
  {
    var c := SelectedClassDetails(t, st).value;
    assert c in t.liquidClasses;
    var i :| 0 <= i < |t.liquidClasses| && t.liquidClasses[i] == c;
  }

  /** `getSelectedParamDetails` is `null` exactly without a class record or a
      key; for one of the six keys it is that parameter of the selected
      class. */
  lemma GetSelectedParamDetailsCases(t: Tables, st: State)
    ensures GetSelectedParamDetails(t, st).None? <==>
      (SelectedClassDetails(t, st).None? || st.selectedParam == "")
    ensures SelectedClassDetails(t, st).Some? && st.selectedParam in CamelKeys ==>
      GetSelectedParamDetails(t, st)
        == Some(Settings(SelectedClassDetails(t, st).value.Setting(CamelKeys[st.selectedParam])))
  {
  }

  /** With a class shown and a tile's key selected, the parameter block
      shows that parameter of the class under the key's heading. */
  lemma TileKeyShowsParameter(t: Tables, st: State, p: Param)
    requires SelectedClassDetails(t, st).Some? && st.selectedParam == TileKey(p)
    ensures ParamPanelOf(t, st)
         == Some(ParamPanel(Heading(TileKey(p)), SelectedClassDetails(t, st).value.Setting(p).venusSettings))
  {
    var c := SelectedClassDetails(t, st).value;
    assert PropOf(c, CamelKeys, TileKey(p)) == Settings(c.Setting(p));
    assert GetSelectedParamDetails(t, st) == Some(Settings(c.Setting(p)));
  }

  /** A tile click shows that parameter of the displayed class. */
  lemma ClickTileShowsParameter(t: Tables, st: State, p: Param)
    requires SelectedClassDetails(t, st).Some?
    ensures ParamPanelOf(t, ClickTile(st, p))
         == Some(ParamPanel(Heading(TileKey(p)), SelectedClassDetails(t, st).value.Setting(p).venusSettings))
  {
    assert SelectedClassDetails(t, ClickTile(st, p)) == SelectedClassDetails(t, st);
    TileKeyShowsParameter(t, ClickTile(st, p), p);
  }

  /** Changing the class leaves `selectedParam` as it was: when the new class
      exists, the parameter block shows the NEW class's entry for the SAME
      key, and when it does not (or the selector is cleared) nothing is
      shown. */
  lemma SelectClassKeepsParameter(t: Tables, st: State, value: string, p: Param)
    requires st.selectedParam == TileKey(p)
    ensures SelectClass(st, value).selectedParam == st.selectedParam
    ensures var c := FindClass(t.liquidClasses, value);
      c.Some? ==> ParamPanelOf(t, SelectClass(st, value))
                  == Some(ParamPanel(Heading(TileKey(p)), c.value.Setting(p).venusSettings))
    ensures FindClass(t.liquidClasses, value).None? ==> ParamPanelOf(t, SelectClass(st, value)).None?
  {
    var next := SelectClass(st, value);
    assert SelectedClassDetails(t, next) == FindClass(t.liquidClasses, value);
    if SelectedClassDetails(t, next).Some? {
      TileKeyShowsParameter(t, next, p);
    }
  }

  /** The keys the page can hold: the initial empty string and the six tile
      keys. */
  predicate Reachable(st: State) {
    st.selectedParam == "" || st.selectedParam in CamelKeys
  }

  /** The initial state is reachable and both setters keep it so. */
  lemma ReachableClosed(st: State, value: string, p: Param)
    ensures Reachable(Initial)
    ensures Reachable(st) ==> Reachable(SelectClass(st, value))
    ensures Reachable(ClickTile(st, p))
  {
  }

  /** No camelCase parameter key is one of the record's two string fields. */
  lemma CamelKeysAreParameters(key: string)
    requires key in CamelKeys
    ensures key != "name" && key != "description"
    ensures TileKey(CamelKeys[key]) == key
  {
  }

  /** In every reachable state, a visible parameter block shows the settings
      of one of the six parameters of the selected class, under that key's
      heading. */
  lemma ReachablePanelIsSetting(t: Tables, st: State)
    requires Reachable(st)
    ensures ParamPanelOf(t, st).Some? ==>
      SelectedClassDetails(t, st).Some? && st.selectedParam in CamelKeys
      && ParamPanelOf(t, st) == Some(ParamPanel(Heading(st.selectedParam),
           SelectedClassDetails(t, st).value.Setting(CamelKeys[st.selectedParam]).venusSettings))
  {
    if ParamPanelOf(t, st).Some? {
      assert GetSelectedParamDetails(t, st).Some? && st.selectedParam != "";
      CamelKeysAreParameters(st.selectedParam);
      TileKeyShowsParameter(t, st, CamelKeys[st.selectedParam]);
    }
  }

  /** The tile keys are the six camelCase names, one per parameter. */
  lemma TileKeysExact()
    ensures forall p, q :: TileKey(p) == TileKey(q) ==> p == q
    ensures forall key :: key in CamelKeys <==> exists p :: TileKey(p) == key
    ensures CamelKeys.Keys == {"pSpeed", "dSpeed", "airGap", "blowout", "zOffset", "tips"}
  {
    forall key | key in CamelKeys ensures exists p :: TileKey(p) == key {
      assert TileKey(CamelKeys[key]) == key;
    }
  }

  /** The formatted keys of the six tiles. */
  lemma TileHeadings()
    ensures FormatParameterName(TileKey(PSpeed)) == "P Speed"
    ensures FormatParameterName(TileKey(DSpeed)) == "D Speed"
    ensures FormatParameterName(TileKey(AirGap)) == "Air Gap"
    ensures FormatParameterName(TileKey(Blowout)) == "Blowout"
    ensures FormatParameterName(TileKey(ZOffset)) == "Z Offset"
    ensures FormatParameterName(TileKey(Tips)) == "Tips"
  {
    PSpeedHeading();
    DSpeedHeading();
    AirGapHeading();
    BlowoutHeading();
    ZOffsetHeading();
    TipsHeading();
  }
}
