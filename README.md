# Liquid class library: a verified model

The repository is a small laboratory reference for pipetting on a Hamilton STAR
robot. It lists 20 laboratory liquids and 11 recommended liquid classes. Each
class holds six pipetting parameters: pipetting speed, dispensing speed, air
gap, blowout, Z-offset and tips. Each parameter has a short label, a value and
a block of Venus instrument settings. The data appears in three places, and
this project models all three:

- **`liquid_class_library/models.py`**: the server-side `LiquidDatabase`. It
  builds the two collections once and answers three queries:
  - the liquids of a class, or all liquids for an empty filter;
  - the first class with a given name;
  - the list of class names.

  Modules `Catalog` (the data, column by column) and `Database` (the class,
  its queries and the facts about the stock data).
- **`src/App.js`**: a React component with the same dataset inline. It has
  two state values, `selectedClass` and `selectedParam`. The filtered table,
  the selected class record, the selected parameter record and the
  parameter title are all derived from them. Modules `Chart` (the derivations
  for any pair of tables) and `ChartData` (the inline tables).
- **`liquid_class_library/static/js/app.js`**: the page script served by
  the Flask app. It keeps `currentLiquidClass` and `currentSelectedParam`,
  fills in the class and parameter panels, and reloads the table through two
  JSON endpoints. Module `Browser`, in which the class `Page` holds that state
  and the panel texts.

Shared pieces:

- Module `Records`: the record types and the JavaScript view of a record as
  a string-keyed object.
- Module `Queries`: the filter, the lookup and the name projection, with
  their algebra.
- Module `Text`: the parameter-name formatter. The React component applies it to the selected key in the parameter heading at src/App.js:612. The page script defines the same two replacements as `formatParameterName` at liquid_class_library/static/js/app.js:210-212 but never calls it; its parameter title comes from `getParameterDisplayName` instead.

Every network request of the page script is an input to the handler that
makes it. Each request either succeeds with the decoded body or fails.
Failures cover network errors, non-ok statuses and bodies that do not parse,
and the script handles all of them the same way. The page records which
requests it made and which error messages it showed, so the contracts can
state these effects as well.

## Model

| member | source | states |
|---|---|---|
| Queries.OfClass | liquid_class_library/models.py:591 | every liquid the filter keeps has the requested class and comes from the input list; the result is never longer than the input |
| Queries.OfClassIsSelection | liquid_class_library/models.py:591 | the filter result is the input's entries at strictly increasing positions, and those positions are exactly the ones whose class equals the filter (order kept, nothing missed, nothing extra) |
| Queries.MatchIndicesExact | liquid_class_library/models.py:591 | the matching positions increase strictly, and a position is among them if and only if its liquid has the requested class |
| Queries.OfClassAtMatchIndices | liquid_class_library/models.py:591 | the k-th kept liquid is the liquid at the k-th matching position |
| Queries.SelectionUnique | liquid_class_library/models.py:591 | any list and positions that meet that description are the filter's own result and positions, so the description determines the result |
| Queries.OfClassKeepsMatching | liquid_class_library/models.py:591 | a list whose liquids all have the requested class passes the filter unchanged |
| Queries.OfClassIdempotent | liquid_class_library/models.py:591 | filtering the filter's result again by the same class changes nothing |
| Queries.OfClassEmpty | liquid_class_library/models.py:591 | when no liquid has the class, the filter returns the empty list |
| Queries.OfClassAppend | liquid_class_library/models.py:591 | filtering a concatenation gives the concatenation of the two filtered parts |
| Queries.OfClassNamesAgree | src/App.js:551-553 | two lists with the same names and classes position by position keep the same names (so the two datasets, which differ in molar-weight type, filter alike) |
| Queries.ClassNames | liquid_class_library/models.py:601-603 | the name list has one entry per class, in table order, and entry i is the name of class i |
| Queries.FindClass | liquid_class_library/models.py:594-599 | the lookup returns nothing exactly when no class has the name; a class it returns has exactly that name and belongs to the table |
| Queries.FindClassFirst | liquid_class_library/models.py:594-599 | when class i is the first one with the name, the lookup returns class i |
| Queries.FindClassNamesRoundTrip | liquid_class_library/models.py:594-603 | with unique names, looking up the i-th listed name returns the i-th class |
| Catalog.InitialLiquids | liquid_class_library/models.py:44-207 | the liquid initialiser returns 20 records |
| Catalog.InitialLiquidClasses | liquid_class_library/models.py:209-586 | the class initialiser returns 11 records |
| Database.LiquidDatabase.constructor | liquid_class_library/models.py:40-42 | the constructor stores the two initialiser results |
| Database.LiquidDatabase.GetLiquidsByClass | liquid_class_library/models.py:588-592 | with a truthy filter (present and non-empty) the result is the class filter of the stored liquids; for `None` or "" it is the stored list itself |
| Database.LiquidDatabase.GetLiquidClassByName | liquid_class_library/models.py:594-599 | the early-return loop returns nothing exactly when no class has the name; otherwise it returns a class at some position i with that name, no earlier class has the name, and the result is the first-match lookup |
| Database.LiquidDatabase.GetAllLiquidClassNames | liquid_class_library/models.py:601-603 | the names have the same length and order as the stored classes |
| Database.IsSet | liquid_class_library/models.py:590 | definition only: Python truthiness of the optional class name, false for `None` and for ""; `Database.LiquidDatabase.GetLiquidsByClass` and `Database.GetLiquidsByClassSelects` state what each outcome returns |
| Database.GetLiquidsByClassSelects | liquid_class_library/models.py:588-592 | with a truthy filter, the query returns the order-preserving selection of exactly the liquids of that class; without one, it returns the stored list |
| Database.GetLiquidsByClassIdempotent | liquid_class_library/models.py:591 | the result is never longer than the stored list, and filtering it again by the same class gives it back |
| Database.NamesLookUpTheirClass | liquid_class_library/models.py:594-603 | on the stock data, every listed name looks up its own class |
| Database.LiquidNamesUnique | liquid_class_library/models.py:44-207 | the 20 liquid names are pairwise distinct |
| Database.ClassNamesUnique | liquid_class_library/models.py:209-586 | the 11 class names are pairwise distinct and none is empty |
| Database.EveryLiquidHasClass | liquid_class_library/models.py:44-586 | every liquid's class is the name of a listed class |
| Database.OrganicLowSelection | liquid_class_library/models.py:55-126 | filtering by "Organic-Low" keeps exactly the liquids at positions 1, 2, 3, 6, 7, 8 and 9, in that order; Diethyl Ether ("Organic-Low-Volatile") is excluded because the match is exact |
| Database.OrganicLowLiquids | liquid_class_library/models.py:55-126 | the names of that selection are Ethanol, Methanol, Acetone, Isopropanol, Acetonitrile, Hexane and Toluene |
| Database.ViscousAirGap | liquid_class_library/models.py:416-434 | the lookup of "Viscous" succeeds, and its air gap has label "Small", value "5-10 µL" and settings that begin with "Pre-Aspirate Air Gap: 0-5 µL" |
| Text.FormatParameterName | liquid_class_library/static/js/app.js:210-212 | definition only: the first replacement followed by the second, as `formatParameterName` defines it (the page script never calls it) and as the parameter heading at src/App.js:612 applies it; `Text.SpacingRoundTrip`, `Text.CapitalsArePreceded`, `Text.TwoWordHeading` and the six heading lemmas state what it yields |
| Text.Upper | src/App.js:612 | upper-casing maps an ASCII lower-case letter to its capital and leaves every other character alone |
| Text.SpaceBeforeCapitals | src/App.js:612 | the first replacement adds exactly one character per capital and never leaves a capital first |
| Text.CapitalizeFirst | src/App.js:612 | the second replacement keeps the length and every character after the first; it upper-cases the first character unless the text is empty or starts with a line terminator, which `.` does not match |
| Text.SpacingRoundTrip | src/App.js:612 | removing one space before each capital gives the key back, so the first replacement loses nothing and reorders nothing |
| Text.CapitalsArePreceded | src/App.js:612 | every capital of the spaced text has a space right before it |
| Text.NoCapitalsNoSpaces | src/App.js:612 | a key without capitals gets no spaces |
| Text.LeadingCapitalLeadingSpace | src/App.js:612 | a key that starts with a capital gets a title that starts with a space |
| Text.SpacingAppend | src/App.js:612 | the spacing of a concatenation is the concatenation of the spacings |
| Text.CapitalizeLowercaseFirst | src/App.js:612 | a text that starts with a lower-case letter gets that letter upper-cased and keeps the rest |
| Text.TwoWordSpacing | src/App.js:612 | a two-word camelCase key gets exactly one space, between the words |
| Text.TwoWordHeading | src/App.js:612 | the title of a two-word camelCase key is the first word capitalised, a space, then the second word |
| Text.PSpeedHeading | src/App.js:612 | "pSpeed" is titled "P Speed" |
| Text.DSpeedHeading | src/App.js:612 | "dSpeed" is titled "D Speed" |
| Text.AirGapHeading | src/App.js:612 | "airGap" is titled "Air Gap" |
| Text.BlowoutHeading | src/App.js:612 | "blowout" is titled "Blowout" |
| Text.ZOffsetHeading | src/App.js:612 | "zOffset" is titled "Z Offset" |
| Text.TipsHeading | src/App.js:612 | "tips" is titled "Tips" |
| Chart.TileKey | src/App.js:590-607 | each tile's key names its own parameter in the record's camelCase properties and is neither "name" nor "description" |
| Chart.TileKeysExact | src/App.js:590-607 | the six tile keys are distinct and are exactly "pSpeed", "dSpeed", "airGap", "blowout", "zOffset" and "tips" |
| Chart.SelectClass | src/App.js:575 | definition only: the selector writes the chosen value into `selectedClass` and nothing else; `Chart.SelectClassKeepsParameter` and `Chart.ReachableClosed` state its effect |
| Chart.ClickTile | src/App.js:590-607 | definition only: a tile click writes that tile's key into `selectedParam` and nothing else; `Chart.ClickTileShowsParameter` and `Chart.ReachableClosed` state its effect |
| Chart.FilteredLiquids | src/App.js:551-553 | definition only; `Chart.FilteredLiquidsSelects` states it is every liquid for "" and otherwise the exact order-preserving selection of the class |
| Chart.SelectedClassDetails | src/App.js:556 | definition only; `Chart.SelectedClassDetailsExact` states it is absent exactly when no class has the selected name, and `Queries.FindClassFirst` that it is otherwise the first class with that name |
| Chart.GetSelectedParamDetails | src/App.js:559-562 | definition only; `Chart.GetSelectedParamDetailsCases` states it is `null` exactly without a class record or a key, and each camelCase key's parameter otherwise |
| Chart.Caption | src/App.js:591-606 | definition only: the six bold captions of the tiles; `Chart.ClassPanelShowsSelectedClass` states where they appear |
| Chart.Tile | src/App.js:591-606 | definition only: caption, ": ", label and value in parentheses; `Chart.ClassPanelShowsSelectedClass` states each tile's text |
| Chart.ClassPanelOf | src/App.js:584-608 | definition only; `Chart.SelectedClassDetailsExact` states it renders exactly when a class has the selected name, and `Chart.ClassPanelShowsSelectedClass` states its heading, description and six tiles |
| Chart.ParamPanelOf | src/App.js:610-613 | definition only; `Chart.TileKeyShowsParameter` states the block a selected tile shows, and `Chart.ReachablePanelIsSetting` that every reachable block shows one of the class's six parameters |
| Chart.Heading | src/App.js:612 | definition only: "Venus Parameter Details: " followed by the formatted key; `Chart.TileKeyShowsParameter` states the heading a selected tile gets, and `Chart.TileHeadings` the formatted titles of the six tile keys |
| Chart.FilteredLiquidsSelects | src/App.js:551-553 | with "" selected the table lists every liquid; otherwise it lists the order-preserving selection of exactly the liquids of the selected class |
| Chart.SelectedClassDetailsExact | src/App.js:556 | there is no class record exactly when no class has the selected name, and the class block is rendered exactly when there is one |
| Chart.ClassPanelShowsSelectedClass | src/App.js:584-608 | a rendered class block is headed by the selected name followed by " Settings", carries the description of a class with that name, and has six tiles in the order Pipetting Speed, Dispensing Speed, Air Gap, Blowout, Z-Offset, Recommended Tips, each showing its caption, the label and the value in parentheses |
| Chart.GetSelectedParamDetailsCases | src/App.js:559-562 | the parameter record is null exactly when there is no class record or no key; for one of the six keys it is that parameter of the class |
| Chart.TileKeyShowsParameter | src/App.js:610-613 | with a class shown and a tile's key selected, the parameter block shows that parameter's settings under the key's title |
| Chart.ClickTileShowsParameter | src/App.js:590-607 | clicking a tile while a class is shown displays that parameter's settings of the same class |
| Chart.SelectClassKeepsParameter | src/App.js:575 | changing the class keeps the selected key; when the new class exists, the parameter block shows the new class's settings for the same key, and otherwise nothing is shown |
| Chart.ReachableClosed | src/App.js:547-548 | the initial state and both setters keep the key either empty or one of the six tile keys |
| Chart.ReachablePanelIsSetting | src/App.js:610-613 | in every reachable state, a visible parameter block shows one of the six parameters of the selected class under its key's title |
| Chart.TileHeadings | src/App.js:612 | the six tile keys are titled "P Speed", "D Speed", "Air Gap", "Blowout", "Z Offset" and "Tips" |
| ChartData.LiquidsData | src/App.js:5-166 | the inline liquid array has 20 entries |
| ChartData.LiquidClasses | src/App.js:169-544 | the inline class array has 11 entries |
| ChartData.InlineShape | src/App.js:5-544 | the inline dataset has 20 liquids and 11 classes, and every liquid's class is a listed class |
| ChartData.InlineClearedSelection | src/App.js:556 | with the selector cleared there is no class record, so neither block is rendered |
| ChartData.InlineOrganicLowTable | src/App.js:551-553 | selecting "Organic-Low" lists the seven low-viscosity organics by name |
| Browser.SnakeKey | liquid_class_library/static/js/app.js:100-105 | each parameter's snake_case property names that parameter and is neither "name" nor "description" |
| Browser.GetParameterDisplayName | liquid_class_library/static/js/app.js:184-195 | a known key gets its fixed label and any other key is returned unchanged; the name is empty only for the empty key |
| Browser.DisplayNamesOfKeys | liquid_class_library/static/js/app.js:185-192 | the display names cover exactly the six snake_case keys, with labels "Pipetting Speed", "Dispensing Speed", "Air Gap", "Blowout", "Z-Offset" and "Tips" |
| Browser.Tiles | liquid_class_library/static/js/app.js:100-105 | definition only; `Browser.TilesShowTheirParameter` states each of the six tiles shows its own parameter's label and value |
| Browser.TilesShowTheirParameter | liquid_class_library/static/js/app.js:100-105 | each of the six tile texts is its own parameter's label followed by its value in parentheses |
| Browser.RequestFilter | liquid_class_library/static/js/app.js:115-118 | the liquids request carries a class filter exactly when the class is present and non-empty, and then carries that class |
| Browser.ChangeErrors | liquid_class_library/static/js/app.js:54-135 | definition only; `Browser.AtMostOneErrorPerChange` states a change shows at most one error, which one, and exactly when, and `Browser.Page.HandleLiquidClassChange` states that the page shows exactly these |
| Browser.AtMostOneErrorPerChange | liquid_class_library/static/js/app.js:54-135 | one class change shows at most one error; it shows one exactly when a request it made failed, and the details error exactly when the details request failed |
| Browser.Page.constructor | liquid_class_library/static/js/app.js:1-3 | the page starts with nothing selected, both panels hidden, the server-rendered rows, and no requests or errors |
| Browser.Page.UpdateLiquidsTable | liquid_class_library/static/js/app.js:137-157 | after clearing and appending row by row, the table holds exactly the given liquids in order |
| Browser.Page.LoadLiquids | liquid_class_library/static/js/app.js:113-135 | one liquids request is made, with the truthy class as its filter; on success the table shows the answer; on failure the table is kept and exactly one liquids error is shown, without rethrowing |
| Browser.Page.LoadLiquidClassDetails | liquid_class_library/static/js/app.js:84-111 | one details request is made; on success the class becomes current and its title, description and six tile texts are written; on failure none of these change and the failure is passed on |
| Browser.Page.HandleLiquidClassChange | liquid_class_library/static/js/app.js:54-82 | keeps the page consistent. The errors shown are exactly those of `ChangeErrors`. The empty option hides the details, reloads every liquid and keeps both selections and the class panel texts. A failed details request adds only that request and one error, and leaves the class, its texts and tiles, the selection and both panels as they were. A successful one shows the new class, requests its liquids, resets the selection and hides the parameter panel. The table changes only on a successful liquids request |
| Browser.Page.HandleClearedSelection | liquid_class_library/static/js/app.js:57-62 | the empty option hides the details panel and makes one unfiltered liquids request |
| Browser.Page.HandleClassSelection | liquid_class_library/static/js/app.js:64-81 | a class name is requested. On failure only one details error follows: no liquids request, no visibility change, no new selection, and the class title, description and tiles stay as they were. On success the class is shown, its liquids are requested, and the parameter selection is reset with its panel hidden |
| Browser.Page.ShowLoadedClass | liquid_class_library/static/js/app.js:69-76 | after the details load, the class's liquids are requested, the details panel is shown, and the selection is cleared with its panel hidden |
| Browser.Page.ShowError | liquid_class_library/static/js/app.js:203-207 | each call adds exactly one notification with its message |
| Browser.Page.HandleParameterClick | liquid_class_library/static/js/app.js:159-182 | keeps the page consistent. With no class loaded, nothing changes. With one, the key is recorded. When the class has a truthy property of that name, the title becomes "Venus Parameter Details: " followed by the key's display name, the settings text is written and the panel is shown. Otherwise the panel, title and text are left as they were |
| Records.PropOf | src/App.js:561 | definition only: the property read `selectedClassDetails[selectedParam]`, and `currentLiquidClass[param]` at liquid_class_library/static/js/app.js:167 with the snake_case keys; `Chart.GetSelectedParamDetailsCases`, `Browser.ParameterCardsShowSettings` and `Browser.OtherKeys` state what each key reads |
| Records.Truthy | src/App.js:610 | definition only: JavaScript truthiness of the property read, also tested at liquid_class_library/static/js/app.js:168; `Chart.ReachablePanelIsSetting` states that a rendered block always shows the settings of one of the class's six parameters, and `Browser.ParameterCardsShowSettings` and `Browser.OtherKeys` state which keys pass it |
| Browser.ParameterCardsShowSettings | liquid_class_library/static/js/app.js:167-175 | each of the six snake_case keys reads a truthy parameter object whose settings text is that parameter's Venus settings |
| Browser.OtherKeys | liquid_class_library/static/js/app.js:167-170 | any other key reads a string field (truthy only when non-empty) or `undefined`, and never yields a settings text |

## Left out

- `liquid_class_library/app.py`, the Flask routes, is not part of this model. Its routes are modelled only as the request outcomes that the page-script handlers take as inputs.
- Network I/O is not modelled: `fetch`, `response.json()`, `encodeURIComponent` and the HTTP status. Each request is a success carrying the decoded body, or a failure.
- Asynchronous interleaving is not modelled. Each handler runs to completion before the next event. Out-of-order responses after quick reselection are outside the model.
- DOM effects are modelled only as the values they write: text contents, panel visibility and table rows. `escapeHtml`, `innerHTML`, `scrollIntoView`, `alert`, `console.error`, row striping, the event-listener and keyboard wiring, and the React rendering itself are left out.
- The initial visibility of the two panels comes from the page template, which is not part of this model. The model assumes both panels start hidden. The `data-param` attributes of the cards are also in the template, so the card keys are taken to be the six snake_case keys.
- Density and viscosity are kept as `real` constants. Nothing computes with them.
- Malformed JSON records are not modelled. The page script can fail after its first assignment, for example on a class record missing `p_speed`, and that partial update is not captured. A successful details request always carries a complete class record.
- Property reads on JavaScript objects see only the record's own fields. Inherited keys of `Object.prototype`, such as `toString` on the class record or in `displayNames`, are treated as missing.
- A card without a `data-param` attribute, where `getAttribute` returns `null`, is not modelled. The click handler always receives a string.
- Text.Upper: upper-cases ASCII letters only. `toUpperCase` also maps non-ASCII letters, and some of them to two characters, so `Upper` and `FormatParameterName` agree with the source only on keys that start with an ASCII character.

## Notes

- The two scripts differ on a class change. The page script clears `currentSelectedParam` after a successful details load, at liquid_class_library/static/js/app.js:75. The React component keeps `selectedParam`, at src/App.js:575, so the parameter block then shows the new class's entry for the old key. `Chart.SelectClassKeepsParameter` states the component's behaviour and `Browser.Page.HandleClassSelection` states the script's.
- In the page script, a click on a key the loaded class lacks still records the key, but the parameter panel is left as it was. It can go on showing an earlier parameter. `Browser.Page.HandleParameterClick` states this, and the ghost field `shownParam` records which key the visible panel belongs to.
- The class table of src/App.js:169-544 matches liquid_class_library/models.py:211-586 field for field, so the model keeps one copy of it. The liquid tables match except for the molar weight, which is a string on the server and a number or a dash in the component.
