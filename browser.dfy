/** The fetch-based page script liquid_class_library/static/js/app.js: the
    module-level selection state, the panels and texts the handlers write,
    and the four handlers. Every `fetch` (with its `response.json()`) is an
    input outcome, so a handler is a method over the page state and the
    outcomes of the requests it makes. */
module Browser {
  import opened Records

  /** The outcome of one request: the decoded body, or a failure (network
      error, non-ok status or undecodable body), which the script handles
      the same way in every case. */
  datatype Fetch<T> = Ok(body: T) | Failed

  /** The two messages `showError` can be given. */
  const DetailsError := "Failed to load liquid class details"
  const LiquidsError := "Failed to load liquids data"

  /** The property names of the six parameter objects in the server's JSON
      (and in the `data-param` attributes the cards pass to the click
      handler). */
  const SnakeKeys: map<string, Param> := map[
    "p_speed" := PSpeed, "d_speed" := DSpeed, "air_gap" := AirGap,
    "blowout" := Blowout, "z_offset" := ZOffset, "tips" := Tips]

  function SnakeKey(p: Param): (key: string)
    ensures key in SnakeKeys && SnakeKeys[key] == p
    ensures key != "name" && key != "description"
  {
    match p
    case PSpeed => "p_speed"
    case DSpeed => "d_speed"
    case AirGap => "air_gap"
    case Blowout => "blowout"
    case ZOffset => "z_offset"
    case Tips => "tips"
  }

  /** The `displayNames` object of `getParameterDisplayName`. */
  const DisplayNames: map<string, string> := map[
    "p_speed" := "Pipetting Speed", "d_speed" := "Dispensing Speed", "air_gap" := "Air Gap",
    "blowout" := "Blowout", "z_offset" := "Z-Offset", "tips" := "Tips"]

  /** `displayNames[param] || param`: the fixed label of a known key, and the
      key itself otherwise (every label is non-empty, so `||` never falls
      through for a known key). */
  function GetParameterDisplayName(param: string): (name: string)
    ensures param in DisplayNames ==> name == DisplayNames[param]
    ensures param !in DisplayNames ==> name == param
    ensures name != "" <==> param != ""
  {
    if param in DisplayNames && DisplayNames[param] != "" then DisplayNames[param] else param
  }

  /** The labels of the six parameter kinds; the display names cover exactly
      the server's keys. */
  lemma DisplayNamesOfKeys()
    ensures DisplayNames.Keys == SnakeKeys.Keys
    ensures GetParameterDisplayName(SnakeKey(PSpeed)) == "Pipetting Speed"
    ensures GetParameterDisplayName(SnakeKey(DSpeed)) == "Dispensing Speed"
    ensures GetParameterDisplayName(SnakeKey(AirGap)) == "Air Gap"
    ensures GetParameterDisplayName(SnakeKey(Blowout)) == "Blowout"
    ensures GetParameterDisplayName(SnakeKey(ZOffset)) == "Z-Offset"
    ensures GetParameterDisplayName(SnakeKey(Tips)) == "Tips"
  {
  }

  /** The six tile texts the details loader writes. */
  function Tiles(c: LiquidClass): map<Param, string> {
    map[PSpeed := TileText(c.pSpeed), DSpeed := TileText(c.dSpeed), AirGap := TileText(c.airGap),
        Blowout := TileText(c.blowout), ZOffset := TileText(c.zOffset), Tips := TileText(c.tips)]
  }

  /** Each of the six tiles shows the label and value of its own parameter. */
  lemma TilesShowTheirParameter(c: LiquidClass, p: Param)
    ensures p in Tiles(c) && Tiles(c)[p] == c.Setting(p).labelText + " (" + c.Setting(p).value + ")"
  {
    match p
    case PSpeed =>
    case DSpeed =>
    case AirGap =>
    case Blowout =>
    case ZOffset =>
    case Tips =>
  }

  /** The filter `loadLiquids` puts in the request URL: only a truthy class
      name adds the `liquid_class` query parameter. */
  function RequestFilter(liquidClass: Option<string>): (q: Option<string>)
    ensures q.Some? <==> liquidClass.Some? && liquidClass.value != ""
    ensures q.Some? ==> q == liquidClass
  {
    if liquidClass.Some? && liquidClass.value != "" then liquidClass else None
  }

  /** The messages one class change shows, given the outcomes of the
      requests it makes: the class-details request is made only for a
      non-empty selection, and the liquids request only when that one
      succeeded (or was not needed). */
  function ChangeErrors(selectedClass: string, details: Fetch<LiquidClass>,
                        liquids: Fetch<seq<Liquid<string>>>): seq<string>
  {
    if selectedClass == "" then (if liquids.Failed? then [LiquidsError] else [])
    else if details.Failed? then [DetailsError]
    else if liquids.Failed? then [LiquidsError]
    else []
  }

  /** A class change shows at most one error: a failed liquids request is
      caught inside `loadLiquids`, and a failed details request skips the
      liquids request. It shows one exactly when a request it made failed. */
  lemma AtMostOneErrorPerChange(selectedClass: string, details: Fetch<LiquidClass>,
                                liquids: Fetch<seq<Liquid<string>>>)
    ensures |ChangeErrors(selectedClass, details, liquids)| <= 1
    ensures |ChangeErrors(selectedClass, details, liquids)| == 1 <==>
      (selectedClass != "" && details.Failed?) || ((selectedClass == "" || details.Ok?) && liquids.Failed?)
    ensures ChangeErrors(selectedClass, details, liquids) == [DetailsError] <==>
      selectedClass != "" && details.Failed?
  {
  }

  /** The page: the two module-level variables, the visibility of the two
      panels, the text contents the handlers write, the table rows, and the
      requests and error notifications so far. */
  class Page {
    var currentLiquidClass: Option<LiquidClass>
    var currentSelectedParam: Option<string>
    var detailsVisible: bool
    var parameterVisible: bool
    var classTitle: string
    var classDescription: string
    var tileInfo: map<Param, string>
    var parameterTitle: string
    var venusSettingsText: string
    var tableRows: seq<Liquid<string>>
    /** The class names requested from `/api/liquid-class/`, in order. */
    var classRequests: seq<string>
    /** The filters of the requests to `/api/liquids`, in order. */
    var liquidRequests: seq<Option<string>>
    /** The messages passed to `showError`, in order. */
    var errors: seq<string>
    /** The key whose settings the parameter panel shows. */
    ghost var shownParam: string

    /** What the page shows is consistent with the state: the class panel
        texts describe `currentLiquidClass`, a selected key and a visible
        details panel imply a loaded class, and a visible parameter panel
        shows that class's entry for `shownParam`. */
    ghost predicate Valid()
      reads this
    {
      && (currentLiquidClass.Some? ==>
            var c := currentLiquidClass.value;
            classTitle == c.name + " Settings" && classDescription == c.description
            && tileInfo == Tiles(c))
      && (currentSelectedParam.Some? ==> currentLiquidClass.Some?)
      && (detailsVisible ==> currentLiquidClass.Some?)
      && (parameterVisible ==>
            currentLiquidClass.Some?
            && var data := PropOf(currentLiquidClass.value, SnakeKeys, shownParam);
            Truthy(data)
            && parameterTitle == "Venus Parameter Details: " + GetParameterDisplayName(shownParam)
            && venusSettingsText == VenusText(data))
      && (forall e :: e in errors ==> e == DetailsError || e == LiquidsError)
    }

    /** The page as loaded: nothing selected, both panels hidden, and the
        table as the server rendered it. */
    constructor (rows: seq<Liquid<string>>)
      ensures Valid()
      ensures currentLiquidClass == None && currentSelectedParam == None
      ensures !detailsVisible && !parameterVisible
      ensures tableRows == rows && classRequests == [] && liquidRequests == [] && errors == []
    {
      currentLiquidClass := None;
      currentSelectedParam := None;
      detailsVisible := false;
      parameterVisible := false;
      classTitle := "";
      classDescription := "";
      tileInfo := map[];
      parameterTitle := "";
      venusSettingsText := "";
      tableRows := rows;
      classRequests := [];
      liquidRequests := [];
      errors := [];
      shownParam := "";
    }

    /** `updateLiquidsTable`: clears the rows, then appends one row per
        liquid, in order. */
    method UpdateLiquidsTable(liquids: seq<Liquid<string>>)
      modifies this`tableRows
      ensures tableRows == liquids
    {
      tableRows := [];
      var i := 0;
      while i < |liquids|
        invariant 0 <= i <= |liquids|
        invariant tableRows == liquids[..i]
      {
        tableRows := tableRows + [liquids[i]];
        i := i + 1;
      }
    }

    /** `loadLiquids`: requests the liquids (filtered when the class is
        truthy); on success the table shows the answer, on failure one error
        is shown and nothing is rethrown. */
    method LoadLiquids(liquidClass: Option<string>, outcome: Fetch<seq<Liquid<string>>>)
      modifies this`tableRows, this`liquidRequests, this`errors
      ensures liquidRequests == old(liquidRequests) + [RequestFilter(liquidClass)]
      ensures outcome.Ok? ==> tableRows == outcome.body && errors == old(errors)
      ensures outcome.Failed? ==> tableRows == old(tableRows) && errors == old(errors) + [LiquidsError]
    {
      liquidRequests := liquidRequests + [RequestFilter(liquidClass)];
      match outcome
      case Ok(liquids) => UpdateLiquidsTable(liquids);
      case Failed => ShowError(LiquidsError);
    }

    /** `loadLiquidClassDetails`: requests the class; on success it becomes
        `currentLiquidClass` and its title, description and six tile texts
        are written; on failure nothing changes and the failure is passed
        on to the caller (`ok` is false). */
    method LoadLiquidClassDetails(className: string, outcome: Fetch<LiquidClass>) returns (ok: bool)
      modifies this`classRequests, this`currentLiquidClass, this`classTitle,
               this`classDescription, this`tileInfo
      ensures classRequests == old(classRequests) + [className]
      ensures ok <==> outcome.Ok?
      ensures outcome.Ok? ==>
        var c := outcome.body;
        currentLiquidClass == Some(c) && classTitle == c.name + " Settings"
        && classDescription == c.description && tileInfo == Tiles(c)
      ensures outcome.Failed? ==>
        currentLiquidClass == old(currentLiquidClass) && classTitle == old(classTitle)
        && classDescription == old(classDescription) && tileInfo == old(tileInfo)
    {
      classRequests := classRequests + [className];
      match outcome
      case Ok(c) =>
        currentLiquidClass := Some(c);
        classTitle := c.name + " Settings";
        classDescription := c.description;
        tileInfo := Tiles(c);
        ok := true;
      case Failed =>
        ok := false;
    }

    /** `handleLiquidClassChange` for the selected option and the outcomes of
        the requests it makes (an outcome for a request it does not make is
        ignored). The two branches are the two methods below. */
    method HandleLiquidClassChange(selectedClass: string, details: Fetch<LiquidClass>,
                                   liquids: Fetch<seq<Liquid<string>>>)
      requires Valid()
      modifies this`detailsVisible, this`parameterVisible, this`currentSelectedParam,
               this`currentLiquidClass, this`classTitle, this`classDescription, this`tileInfo,
               this`tableRows, this`classRequests, this`liquidRequests, this`errors
      ensures Valid()
      ensures errors == old(errors) + ChangeErrors(selectedClass, details, liquids)
      // The empty option: hide the details and reload every liquid; the
      // selection and the class panel texts are kept.
      ensures selectedClass == "" ==>
        && !detailsVisible && parameterVisible == old(parameterVisible)
        && currentLiquidClass == old(currentLiquidClass)
        && currentSelectedParam == old(currentSelectedParam)
        && classTitle == old(classTitle) && classDescription == old(classDescription)
        && tileInfo == old(tileInfo)
        && classRequests == old(classRequests) && liquidRequests == old(liquidRequests) + [None]
      // A failed details request: only the request and the error.
      ensures selectedClass != "" && details.Failed? ==>
        && currentLiquidClass == old(currentLiquidClass)
        && currentSelectedParam == old(currentSelectedParam)
        && classTitle == old(classTitle) && classDescription == old(classDescription)
        && tileInfo == old(tileInfo)
        && detailsVisible == old(detailsVisible) && parameterVisible == old(parameterVisible)
        && classRequests == old(classRequests) + [selectedClass]
        && liquidRequests == old(liquidRequests)
      // A successful details request: the new class is shown with its
      // filtered liquids and the parameter selection is reset.
      ensures selectedClass != "" && details.Ok? ==>
        && currentLiquidClass == Some(details.body)
        && classTitle == details.body.name + " Settings" && tileInfo == Tiles(details.body)
        && detailsVisible && currentSelectedParam == None && !parameterVisible
        && classRequests == old(classRequests) + [selectedClass]
        && liquidRequests == old(liquidRequests) + [Some(selectedClass)]
      // The table shows the liquids answer whenever that request was made
      // and succeeded, and is left alone otherwise.
      ensures tableRows ==
        if (selectedClass == "" || details.Ok?) && liquids.Ok? then liquids.body else old(tableRows)
    {
      if selectedClass == "" {
        HandleClearedSelection(liquids);
      } else {
        HandleClassSelection(selectedClass, details, liquids);
      }
    }

    /** The empty option (falsy `selectedClass`): the details panel is hidden
        and every liquid is requested. */
    method HandleClearedSelection(liquids: Fetch<seq<Liquid<string>>>)
      requires Valid()
      modifies this`detailsVisible, this`tableRows, this`liquidRequests, this`errors
      ensures Valid()
      ensures !detailsVisible && liquidRequests == old(liquidRequests) + [None]
      ensures liquids.Ok? ==> tableRows == liquids.body && errors == old(errors)
      ensures liquids.Failed? ==> tableRows == old(tableRows) && errors == old(errors) + [LiquidsError]
    {
      detailsVisible := false;
      LoadLiquids(None, liquids);
    }

    /** A class name: load its details, and only if that succeeds load its
        liquids, show the details and reset the parameter selection; a
        failure of the details request is reported once. */
    method HandleClassSelection(selectedClass: string, details: Fetch<LiquidClass>,
                                liquids: Fetch<seq<Liquid<string>>>)
      requires Valid() && selectedClass != ""
      modifies this`detailsVisible, this`parameterVisible, this`currentSelectedParam,
               this`currentLiquidClass, this`classTitle, this`classDescription, this`tileInfo,
               this`tableRows, this`classRequests, this`liquidRequests, this`errors
      ensures Valid()
      ensures classRequests == old(classRequests) + [selectedClass]
      ensures details.Failed? ==>
        && currentLiquidClass == old(currentLiquidClass)
        && currentSelectedParam == old(currentSelectedParam)
        && classTitle == old(classTitle) && classDescription == old(classDescription)
        && tileInfo == old(tileInfo)
        && detailsVisible == old(detailsVisible) && parameterVisible == old(parameterVisible)
        && liquidRequests == old(liquidRequests) && tableRows == old(tableRows)
        && errors == old(errors) + [DetailsError]
      ensures details.Ok? ==>
        && currentLiquidClass == Some(details.body)
        && classTitle == details.body.name + " Settings" && tileInfo == Tiles(details.body)
        && detailsVisible && currentSelectedParam == None && !parameterVisible
        && liquidRequests == old(liquidRequests) + [Some(selectedClass)]
        && (liquids.Ok? ==> tableRows == liquids.body && errors == old(errors))
        && (liquids.Failed? ==> tableRows == old(tableRows) && errors == old(errors) + [LiquidsError])
    {
      var ok := LoadLiquidClassDetails(selectedClass, details);
      if !ok {
        ShowError(DetailsError);
        return;
      }
      ShowLoadedClass(selectedClass, liquids);
    }

    /** The rest of a class change once the details have loaded: the liquids
        of the class are requested, the details panel is shown and the
        parameter selection is cleared and its panel hidden. */
    method ShowLoadedClass(selectedClass: string, liquids: Fetch<seq<Liquid<string>>>)
      requires currentLiquidClass.Some?
      requires var c := currentLiquidClass.value;
        classTitle == c.name + " Settings" && classDescription == c.description && tileInfo == Tiles(c)
      requires forall e :: e in errors ==> e == DetailsError || e == LiquidsError
      modifies this`detailsVisible, this`parameterVisible, this`currentSelectedParam,
               this`tableRows, this`liquidRequests, this`errors
      ensures Valid()
      ensures detailsVisible && currentSelectedParam == None && !parameterVisible
      ensures liquidRequests == old(liquidRequests) + [RequestFilter(Some(selectedClass))]
      ensures liquids.Ok? ==> tableRows == liquids.body && errors == old(errors)
      ensures liquids.Failed? ==> tableRows == old(tableRows) && errors == old(errors) + [LiquidsError]
    {
      LoadLiquids(Some(selectedClass), liquids);
      detailsVisible := true;
      currentSelectedParam := None;
      parameterVisible := false;
    }

    /** `showError`: one more notification. */
    method ShowError(message: string)
      modifies this`errors
      ensures errors == old(errors) + [message]
    {
      errors := errors + [message];
    }

    /** `handleParameterClick`: without a loaded class nothing happens; with
        one the key is recorded, and when the class has a truthy property of
        that name its settings are shown under the key's display name. For
        an unknown key the parameter panel keeps whatever it showed. */
    method HandleParameterClick(param: string)
      requires Valid()
      modifies this`currentSelectedParam, this`parameterTitle, this`venusSettingsText,
               this`parameterVisible, this`shownParam
      ensures Valid()
      ensures old(currentLiquidClass).None? ==>
        && currentSelectedParam == old(currentSelectedParam)
        && parameterVisible == old(parameterVisible) && parameterTitle == old(parameterTitle)
        && venusSettingsText == old(venusSettingsText)
      ensures old(currentLiquidClass).Some? ==>
        var data := PropOf(currentLiquidClass.value, SnakeKeys, param);
        && currentSelectedParam == Some(param)
        && (Truthy(data) ==>
              parameterVisible && shownParam == param
              && parameterTitle == "Venus Parameter Details: " + GetParameterDisplayName(param)
              && venusSettingsText == VenusText(data))
        && (!Truthy(data) ==>
              parameterVisible == old(parameterVisible) && parameterTitle == old(parameterTitle)
              && venusSettingsText == old(venusSettingsText))
    {
      if currentLiquidClass.None? {
        return;
      }
      currentSelectedParam := Some(param);
      var paramData := PropOf(currentLiquidClass.value, SnakeKeys, param);
      if !Truthy(paramData) {
        return;
      }
      parameterTitle := "Venus Parameter Details: " + GetParameterDisplayName(param);
      venusSettingsText := VenusText(paramData);
      parameterVisible := true;
      shownParam := param;
    }
  }

  /** Clicking a card of one of the six kinds with a class loaded shows that
      parameter's settings of the loaded class. */
  lemma ParameterCardsShowSettings(c: LiquidClass, p: Param)
    ensures Truthy(PropOf(c, SnakeKeys, SnakeKey(p)))
    ensures VenusText(PropOf(c, SnakeKeys, SnakeKey(p))) == c.Setting(p).venusSettings
  {
  }

  /** The two string keys of a class record are truthy only when non-empty,
      and every other key outside the six is missing. */
  lemma OtherKeys(c: LiquidClass, key: string)
    requires key !in SnakeKeys
    ensures key == "name" ==> (Truthy(PropOf(c, SnakeKeys, key)) <==> c.name != "")
    ensures key == "description" ==> (Truthy(PropOf(c, SnakeKeys, key)) <==> c.description != "")
    ensures key != "name" && key != "description" ==> !Truthy(PropOf(c, SnakeKeys, key))
    ensures VenusText(PropOf(c, SnakeKeys, key)) == ""
  {
  }
}
