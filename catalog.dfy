/** The server-side reference database of liquid_class_library/models.py: the
    two immutable collections built once by the constructor, and the three
    queries over them.

    The records are assembled from per-column tables (one list per field, and
    the parameter blocks indexed by class position and parameter kind). The
    assembled values are exactly the records the database lists; the column
    layout only lets a proof about one field of one record unfold that field
    and not the whole table. */
module Catalog {
  import opened Records
  import opened Queries

  const LiquidCount := 20
  const ClassCount := 11

  // Columns of the liquid table, in database order.

  const LiquidNameColumn: seq<string> := [
    "Water", "Ethanol", "Methanol", "Acetone", "Dimethyl Sulfoxide (DMSO)", "Glycerol",
    "Isopropanol", "Acetonitrile", "Hexane", "Toluene", "Chloroform", "Dichloromethane",
    "10% Glycerol Solution", "50% Glycerol Solution", "Serum", "Phosphate Buffered Saline",
    "70% Ethanol", "n-Butanol", "Acetic Acid (Glacial)", "Diethyl Ether"
  ]

  const DensityColumn: seq<real> := [
    1.0, 0.79, 0.79, 0.78, 1.1, 1.26, 0.78, 0.78, 0.66, 0.87, 1.49, 1.33, 1.02, 1.13, 1.02, 1.01,
    0.86, 0.81, 1.05, 0.71
  ]

  const ViscosityColumn: seq<real> := [
    0.89, 1.07, 0.54, 0.31, 1.99, 934.0, 2.04, 0.37, 0.3, 0.59, 0.54, 0.41, 1.31, 6.0, 1.5, 0.9,
    2.43, 2.54, 1.13, 0.22
  ]

  const MolarWeightColumn: seq<string> := [
    "18.02", "46.07", "32.04", "58.08", "78.13", "92.09", "60.10", "41.05", "86.18", "92.14",
    "119.38", "84.93", "—", "—", "—", "—", "—", "74.12", "60.05", "74.12"
  ]

  const LiquidClassColumn: seq<string> := [
    "Aqueous", "Organic-Low", "Organic-Low", "Organic-Low", "Organic-Medium", "Viscous",
    "Organic-Low", "Organic-Low", "Organic-Low", "Organic-Low", "Organic-High-Density",
    "Organic-High-Density", "Aqueous-Viscous", "Viscous", "Serum", "Aqueous-Buffer",
    "Aqueous-Organic", "Organic-Medium", "Organic-Corrosive", "Organic-Low-Volatile"
  ]

  const NotesColumn: seq<string> := [
    "Standard reference liquid",
    "Volatile, adjust for evaporation",
    "Highly volatile",
    "Very volatile, use slower aspiration",
    "Common solvent for compounds",
    "Very viscous, requires slow handling",
    "Moderate volatility",
    "Common HPLC solvent",
    "Low surface tension, difficult to pipette",
    "May affect plastic labware",
    "High density, may affect plastics",
    "Volatile, high density",
    "Common buffer additive",
    "Requires slow aspiration/dispensing",
    "Protein-rich, adjust for tip wetting",
    "Common biological buffer",
    "Common disinfectant",
    "Moderate viscosity",
    "Corrosive, adjust for volatility",
    "Extremely volatile, difficult to pipette"
  ]

  /** The i-th liquid of the database. */
  function LiquidAt(i: nat): Liquid<string>
    requires i < LiquidCount
  {
    Liquid(LiquidNameColumn[i], DensityColumn[i], ViscosityColumn[i], MolarWeightColumn[i],
           LiquidClassColumn[i], NotesColumn[i])
  }

  /** The list the database's liquid initialiser returns. */
  function InitialLiquids(): (r: seq<Liquid<string>>)
    ensures |r| == LiquidCount
  {
    seq(LiquidCount, i requires 0 <= i < LiquidCount => LiquidAt(i))
  }

  // Columns of the liquid-class table, in database order.

  const ClassNameColumn: seq<string> := [
    "Aqueous", "Organic-Low", "Organic-Medium", "Organic-High-Density", "Organic-Low-Volatile",
    "Organic-Corrosive", "Viscous", "Aqueous-Viscous", "Serum", "Aqueous-Buffer", "Aqueous-Organic"
  ]

  const DescriptionColumn: seq<string> := [
    "For water and water-like solutions",
    "For low viscosity organic solvents",
    "For medium viscosity organic solvents",
    "For dense organic solvents like chloroform",
    "For highly volatile organics",
    "For corrosive organic solvents",
    "For highly viscous liquids like glycerol",
    "For moderately viscous aqueous solutions",
    "For serum and protein-rich solutions",
    "For common laboratory buffers",
    "For water-organic mixtures"
  ]

  /** The parameter block `p` of the i-th liquid class. */
  function SettingsAt(i: nat, p: Param): ParameterSettings
    requires i < ClassCount
  {
    if i == 0 then  // Aqueous
      match p
        case PSpeed => ParameterSettings("Standard", "100-200 µL/s",
          Lines(["Aspirate Speed: 100-200 µL/s", "Delay Aspirate: 0-50 ms", "Mixing Cycles: 3-5"]))
        case DSpeed => ParameterSettings("Standard", "100-200 µL/s",
          Lines(["Dispense Speed: 100-200 µL/s", "Delay Dispense: 0-50 ms", "Empty Speed: 200-400 µL/s"]))
        case AirGap => ParameterSettings("Small", "5-10 µL",
          Lines(["Pre-Aspirate Air Gap: 5-10 µL", "Post-Aspirate Air Gap: 0-5 µL", "Empty Air Gap: 0 µL"]))
        case Blowout => ParameterSettings("Required", "Standard",
          Lines(["Blowout Volume: 5-10 µL", "Blowout Speed: 200-400 µL/s", "Channel Pattern: All enabled"]))
        case ZOffset => ParameterSettings("Standard", "0.5-1.0 mm",
          Lines(["Aspiration Immersion Depth: 0.5-1.0 mm", "Dispense Immersion Depth: 0.5-1.0 mm", "Bottom Report Offset: 0 mm"]))
        case Tips => ParameterSettings("Standard", "Standard",
          Lines(["Tip Type: Standard", "Tip Pattern: Full", "Filter Tips: Optional"]))
    else if i == 1 then  // Organic-Low
      match p
        case PSpeed => ParameterSettings("Slow", "50-100 µL/s",
          Lines(["Aspirate Speed: 50-100 µL/s", "Delay Aspirate: 100-200 ms", "Mixing Cycles: 2-3"]))
        case DSpeed => ParameterSettings("Slow", "50-100 µL/s",
          Lines(["Dispense Speed: 50-100 µL/s", "Delay Dispense: 100-200 ms", "Empty Speed: 100-200 µL/s"]))
        case AirGap => ParameterSettings("Large", "15-30 µL",
          Lines(["Pre-Aspirate Air Gap: 5-10 µL", "Post-Aspirate Air Gap: 10-20 µL", "Empty Air Gap: 0 µL"]))
        case Blowout => ParameterSettings("Required", "Enhanced",
          Lines(["Blowout Volume: 15-20 µL", "Blowout Speed: 100-150 µL/s", "Channel Pattern: All enabled"]))
        case ZOffset => ParameterSettings("Low", "0.2-0.5 mm",
          Lines(["Aspiration Immersion Depth: 0.2-0.5 mm", "Dispense Immersion Depth: 0.2-0.5 mm", "Bottom Report Offset: 0.2 mm"]))
        case Tips => ParameterSettings("Conductive", "Black conductive",
          Lines(["Tip Type: Conductive", "Tip Pattern: Full", "Filter Tips: Recommended for volatile solvents"]))
    else if i == 2 then  // Organic-Medium
      match p
        case PSpeed => ParameterSettings("Slow", "40-80 µL/s",
          Lines(["Aspirate Speed: 40-80 µL/s", "Delay Aspirate: 200-300 ms", "Mixing Cycles: 2-3"]))
        case DSpeed => ParameterSettings("Medium", "80-150 µL/s",
          Lines(["Dispense Speed: 80-150 µL/s", "Delay Dispense: 100-200 ms", "Empty Speed: 100-200 µL/s"]))
        case AirGap => ParameterSettings("Medium", "10-20 µL",
          Lines(["Pre-Aspirate Air Gap: 5-10 µL", "Post-Aspirate Air Gap: 5-10 µL", "Empty Air Gap: 0 µL"]))
        case Blowout => ParameterSettings("Required", "Enhanced",
          Lines(["Blowout Volume: 15-20 µL", "Blowout Speed: 100-150 µL/s", "Channel Pattern: All enabled"]))
        case ZOffset => ParameterSettings("Low", "0.2-0.5 mm",
          Lines(["Aspiration Immersion Depth: 0.2-0.5 mm", "Dispense Immersion Depth: 0.2-0.5 mm", "Bottom Report Offset: 0.2 mm"]))
        case Tips => ParameterSettings("Conductive", "Black conductive",
          Lines(["Tip Type: Conductive", "Tip Pattern: Full", "Filter Tips: Recommended"]))
    else if i == 3 then  // Organic-High-Density
      match p
        case PSpeed => ParameterSettings("Very Slow", "20-40 µL/s",
          Lines(["Aspirate Speed: 20-40 µL/s", "Delay Aspirate: 300-500 ms", "Mixing Cycles: 1-2"]))
        case DSpeed => ParameterSettings("Slow", "40-80 µL/s",
          Lines(["Dispense Speed: 40-80 µL/s", "Delay Dispense: 200-300 ms", "Empty Speed: 80-120 µL/s"]))
        case AirGap => ParameterSettings("Large", "20-30 µL",
          Lines(["Pre-Aspirate Air Gap: 5-10 µL", "Post-Aspirate Air Gap: 15-20 µL", "Empty Air Gap: 0 µL"]))
        case Blowout => ParameterSettings("Required", "Extended",
          Lines(["Blowout Volume: 20-30 µL", "Blowout Speed: 80-120 µL/s", "Channel Pattern: All enabled"]))
        case ZOffset => ParameterSettings("Low", "0.1-0.3 mm",
          Lines(["Aspiration Immersion Depth: 0.1-0.3 mm", "Dispense Immersion Depth: 0.1-0.3 mm", "Bottom Report Offset: 0.2 mm"]))
        case Tips => ParameterSettings("Conductive", "Chemical-resistant",
          Lines(["Tip Type: Conductive, Chemical-resistant", "Tip Pattern: Full", "Filter Tips: Required"]))
    else if i == 4 then  // Organic-Low-Volatile
      match p
        case PSpeed => ParameterSettings("Very Slow", "10-30 µL/s",
          Lines(["Aspirate Speed: 10-30 µL/s", "Delay Aspirate: 500-1000 ms", "Mixing Cycles: 0-1"]))
        case DSpeed => ParameterSettings("Very Slow", "10-30 µL/s",
          Lines(["Dispense Speed: 10-30 µL/s", "Delay Dispense: 300-500 ms", "Empty Speed: 50-100 µL/s"]))
        case AirGap => ParameterSettings("Extra Large", "30-50 µL",
          Lines(["Pre-Aspirate Air Gap: 10-15 µL", "Post-Aspirate Air Gap: 20-35 µL", "Empty Air Gap: 0 µL"]))
        case Blowout => ParameterSettings("Required", "Maximum",
          Lines(["Blowout Volume: 25-40 µL", "Blowout Speed: 50-100 µL/s", "Channel Pattern: All enabled"]))
        case ZOffset => ParameterSettings("Low", "0.1-0.3 mm",
          Lines(["Aspiration Immersion Depth: 0.1-0.3 mm", "Dispense Immersion Depth: 0.1-0.3 mm", "Bottom Report Offset: 0.3 mm"]))
        case Tips => ParameterSettings("Conductive", "Chemical-resistant",
          Lines(["Tip Type: Conductive, Chemical-resistant", "Tip Pattern: Full", "Filter Tips: Required", "Disable Tip Touch: Yes"]))
    else if i == 5 then  // Organic-Corrosive
      match p
        case PSpeed => ParameterSettings("Slow", "40-80 µL/s",
          Lines(["Aspirate Speed: 40-80 µL/s", "Delay Aspirate: 200-300 ms", "Mixing Cycles: 1-2"]))
        case DSpeed => ParameterSettings("Medium", "80-120 µL/s",
          Lines(["Dispense Speed: 80-120 µL/s", "Delay Dispense: 100-200 ms", "Empty Speed: 100-150 µL/s"]))
        case AirGap => ParameterSettings("Large", "15-25 µL",
          Lines(["Pre-Aspirate Air Gap: 5-10 µL", "Post-Aspirate Air Gap: 10-15 µL", "Empty Air Gap: 0 µL"]))
        case Blowout => ParameterSettings("Required", "Enhanced",
          Lines(["Blowout Volume: 15-25 µL", "Blowout Speed: 100-150 µL/s", "Channel Pattern: All enabled"]))
        case ZOffset => ParameterSettings("Medium", "0.5-1.0 mm",
          Lines(["Aspiration Immersion Depth: 0.5-1.0 mm", "Dispense Immersion Depth: 0.5-1.0 mm", "Bottom Report Offset: 0.2 mm"]))
        case Tips => ParameterSettings("Resistant", "Chemical-resistant",
          Lines(["Tip Type: Chemical-resistant", "Tip Pattern: Full", "Filter Tips: Required", "Enable Extra Wash Steps: Yes"]))
    else if i == 6 then  // Viscous
      match p
        case PSpeed => ParameterSettings("Very Slow", "5-20 µL/s",
          Lines(["Aspirate Speed: 5-20 µL/s", "Delay Aspirate: 1000-3000 ms", "Mixing Cycles: 0-1"]))
        case DSpeed => ParameterSettings("Very Slow", "5-20 µL/s",
          Lines(["Dispense Speed: 5-20 µL/s", "Delay Dispense: 1000-3000 ms", "Empty Speed: 20-40 µL/s"]))
        case AirGap => ParameterSettings("Small", "5-10 µL",
          Lines(["Pre-Aspirate Air Gap: 0-5 µL", "Post-Aspirate Air Gap: 5-10 µL", "Empty Air Gap: 0 µL"]))
        case Blowout => ParameterSettings("Extended", "Maximum",
          Lines(["Blowout Volume: 30-50 µL", "Blowout Speed: 20-40 µL/s", "Channel Pattern: All enabled", "Extend Blowout Time: Yes"]))
        case ZOffset => ParameterSettings("High", "1.0-2.0 mm",
          Lines(["Aspiration Immersion Depth: 1.0-2.0 mm", "Dispense Immersion Depth: 1.0-2.0 mm", "Bottom Report Offset: 0 mm"]))
        case Tips => ParameterSettings("Wide Bore", "Wide Bore",
          Lines(["Tip Type: Wide Bore", "Tip Pattern: Full", "Filter Tips: Not recommended", "Tip Size: Use larger volume tip if possible"]))
    else if i == 7 then  // Aqueous-Viscous
      match p
        case PSpeed => ParameterSettings("Medium", "50-100 µL/s",
          Lines(["Aspirate Speed: 50-100 µL/s", "Delay Aspirate: 300-500 ms", "Mixing Cycles: 2-3"]))
        case DSpeed => ParameterSettings("Medium", "50-100 µL/s",
          Lines(["Dispense Speed: 50-100 µL/s", "Delay Dispense: 300-500 ms", "Empty Speed: 100-150 µL/s"]))
        case AirGap => ParameterSettings("Small", "5-10 µL",
          Lines(["Pre-Aspirate Air Gap: 0-5 µL", "Post-Aspirate Air Gap: 5-10 µL", "Empty Air Gap: 0 µL"]))
        case Blowout => ParameterSettings("Extended", "Enhanced",
          Lines(["Blowout Volume: 15-25 µL", "Blowout Speed: 100-150 µL/s", "Channel Pattern: All enabled", "Extend Blowout Time: Yes"]))
        case ZOffset => ParameterSettings("Medium", "0.5-1.0 mm",
          Lines(["Aspiration Immersion Depth: 0.5-1.0 mm", "Dispense Immersion Depth: 0.5-1.0 mm", "Bottom Report Offset: 0 mm"]))
        case Tips => ParameterSettings("Standard", "Standard or Wide Bore",
          Lines(["Tip Type: Standard or Wide Bore", "Tip Pattern: Full", "Filter Tips: Optional", "Tip Size: Match to volume"]))
    else if i == 8 then  // Serum
      match p
        case PSpeed => ParameterSettings("Medium", "50-100 µL/s",
          Lines(["Aspirate Speed: 50-100 µL/s", "Delay Aspirate: 200-400 ms", "Mixing Cycles: 3-5"]))
        case DSpeed => ParameterSettings("Medium", "50-100 µL/s",
          Lines(["Dispense Speed: 50-100 µL/s", "Delay Dispense: 200-400 ms", "Empty Speed: 100-200 µL/s"]))
        case AirGap => ParameterSettings("Medium", "10-15 µL",
          Lines(["Pre-Aspirate Air Gap: 5 µL", "Post-Aspirate Air Gap: 5-10 µL", "Empty Air Gap: 0 µL"]))
        case Blowout => ParameterSettings("Required", "Enhanced",
          Lines(["Blowout Volume: 15-20 µL", "Blowout Speed: 100-150 µL/s", "Channel Pattern: All enabled", "Tip Touch: Enabled"]))
        case ZOffset => ParameterSettings("Medium", "0.5-1.0 mm",
          Lines(["Aspiration Immersion Depth: 0.5-1.0 mm", "Dispense Immersion Depth: 0.5-1.0 mm", "Bottom Report Offset: 0 mm"]))
        case Tips => ParameterSettings("Low Retention", "Low Retention",
          Lines(["Tip Type: Low Retention", "Tip Pattern: Full", "Filter Tips: Recommended", "Tip Touch Mode: Side wall"]))
    else if i == 9 then  // Aqueous-Buffer
      match p
        case PSpeed => ParameterSettings("Standard", "100-200 µL/s",
          Lines(["Aspirate Speed: 100-200 µL/s", "Delay Aspirate: 50-100 ms", "Mixing Cycles: 3-5"]))
        case DSpeed => ParameterSettings("Standard", "100-200 µL/s",
          Lines(["Dispense Speed: 100-200 µL/s", "Delay Dispense: 50-100 ms", "Empty Speed: 200-300 µL/s"]))
        case AirGap => ParameterSettings("Small", "5-10 µL",
          Lines(["Pre-Aspirate Air Gap: 0-5 µL", "Post-Aspirate Air Gap: 5 µL", "Empty Air Gap: 0 µL"]))
        case Blowout => ParameterSettings("Required", "Standard",
          Lines(["Blowout Volume: 10-15 µL", "Blowout Speed: 150-250 µL/s", "Channel Pattern: All enabled"]))
        case ZOffset => ParameterSettings("Standard", "0.5-1.0 mm",
          Lines(["Aspiration Immersion Depth: 0.5-1.0 mm", "Dispense Immersion Depth: 0.5-1.0 mm", "Bottom Report Offset: 0 mm"]))
        case Tips => ParameterSettings("Standard", "Standard",
          Lines(["Tip Type: Standard", "Tip Pattern: Full", "Filter Tips: Optional for sterile applications"]))
    else  // Aqueous-Organic
      match p
        case PSpeed => ParameterSettings("Medium", "75-150 µL/s",
          Lines(["Aspirate Speed: 75-150 µL/s", "Delay Aspirate: 100-200 ms", "Mixing Cycles: 3-4"]))
        case DSpeed => ParameterSettings("Medium", "75-150 µL/s",
          Lines(["Dispense Speed: 75-150 µL/s", "Delay Dispense: 100-200 ms", "Empty Speed: 150-250 µL/s"]))
        case AirGap => ParameterSettings("Medium", "10-15 µL",
          Lines(["Pre-Aspirate Air Gap: 5 µL", "Post-Aspirate Air Gap: 5-10 µL", "Empty Air Gap: 0 µL"]))
        case Blowout => ParameterSettings("Required", "Enhanced",
          Lines(["Blowout Volume: 10-20 µL", "Blowout Speed: 150-200 µL/s", "Channel Pattern: All enabled"]))
        case ZOffset => ParameterSettings("Low", "0.3-0.8 mm",
          Lines(["Aspiration Immersion Depth: 0.3-0.8 mm", "Dispense Immersion Depth: 0.3-0.8 mm", "Bottom Report Offset: 0.1 mm"]))
        case Tips => ParameterSettings("Conductive", "Conductive",
          Lines(["Tip Type: Conductive", "Tip Pattern: Full", "Filter Tips: Recommended", "Enable Tip Touch: Yes"]))
  }

  /** The i-th liquid class of the database. */
  function ClassAt(i: nat): LiquidClass
    requires i < ClassCount
  {
    LiquidClass(ClassNameColumn[i], DescriptionColumn[i],
      SettingsAt(i, PSpeed), SettingsAt(i, DSpeed), SettingsAt(i, AirGap),
      SettingsAt(i, Blowout), SettingsAt(i, ZOffset), SettingsAt(i, Tips))
  }

  /** The list the database's liquid-class initialiser returns. */
  function InitialLiquidClasses(): (r: seq<LiquidClass>)
    ensures |r| == ClassCount
  {
    seq(ClassCount, i requires 0 <= i < ClassCount => ClassAt(i))
  }
}

/** The database object and the facts its source promises about the data. */
module Database {
  import opened Records
  import opened Queries
  import opened Catalog

  /** Python truthiness of an optional string: `None` and `""` are falsy. */
  predicate IsSet(filter: Option<string>) {
    filter.Some? && filter.value != ""
  }

  class LiquidDatabase {
    const liquidsData: seq<Liquid<string>>
    const liquidClasses: seq<LiquidClass>

    /** Both collections are built once and never changed afterwards. */
    constructor ()
      ensures liquidsData == InitialLiquids() && liquidClasses == InitialLiquidClasses()
    {
      liquidsData := InitialLiquids();
      liquidClasses := InitialLiquidClasses();
    }

    /** The liquids of the given class, or every liquid when the filter is
        `None` or empty. */
    function GetLiquidsByClass(liquidClass: Option<string>): (r: seq<Liquid<string>>)
      ensures IsSet(liquidClass) ==> r == OfClass(liquidsData, liquidClass.value)
      ensures !IsSet(liquidClass) ==> r == liquidsData
    {
      if IsSet(liquidClass) then OfClass(liquidsData, liquidClass.value) else liquidsData
    }

    /** The first class whose name is exactly `name`, or `None`. */
    method GetLiquidClassByName(name: string) returns (r: Option<LiquidClass>)
      ensures r == FindClass(liquidClasses, name)
      ensures r.None? <==> forall i :: 0 <= i < |liquidClasses| ==> liquidClasses[i].name != name
      ensures r.Some? ==> exists i :: 0 <= i < |liquidClasses| && liquidClasses[i] == r.value
                                      && r.value.name == name
                                      && forall j :: 0 <= j < i ==> liquidClasses[j].name != name
    {
      for i := 0 to |liquidClasses|
        invariant forall j :: 0 <= j < i ==> liquidClasses[j].name != name
      {
        if liquidClasses[i].name == name {
          FindClassFirst(liquidClasses, name, i);
          return Some(liquidClasses[i]);
        }
      }
      return None;
    }

    /** The class names, in table order. */
    function GetAllLiquidClassNames(): (r: seq<string>)
      ensures |r| == |liquidClasses|
      ensures forall i :: 0 <= i < |r| ==> r[i] == liquidClasses[i].name
    {
      ClassNames(liquidClasses)
    }
  }

  /** With a filter set, the result is exactly the order-preserving
      subsequence of the stored liquids of that class; without one it is the
      stored list itself. */
  lemma GetLiquidsByClassSelects(db: LiquidDatabase, filter: Option<string>)
    ensures IsSet(filter) ==>
      IsSelection(db.GetLiquidsByClass(filter), db.liquidsData, filter.value,
                  MatchIndices(db.liquidsData, filter.value))
    ensures !IsSet(filter) ==> db.GetLiquidsByClass(filter) == db.liquidsData
  {
    if IsSet(filter) {
      OfClassIsSelection(db.liquidsData, filter.value);
    }
  }

  /** Filtering is never longer than the stored list and filtering the result
      again by the same class changes nothing. */
  lemma GetLiquidsByClassIdempotent(db: LiquidDatabase, c: string)
    requires c != ""
    ensures |db.GetLiquidsByClass(Some(c))| <= |db.liquidsData|
    ensures OfClass(db.GetLiquidsByClass(Some(c)), c) == db.GetLiquidsByClass(Some(c))
  {
    OfClassIdempotent(db.liquidsData, c);
  }

  /** The names list and the lookup are inverse on the stock data. */
  lemma NamesLookUpTheirClass(db: LiquidDatabase, i: nat)
    requires db.liquidClasses == InitialLiquidClasses()
    requires i < |db.liquidClasses|
    ensures FindClass(db.liquidClasses, db.GetAllLiquidClassNames()[i]) == Some(db.liquidClasses[i])
  {
    ClassNamesUnique();
    FindClassNamesRoundTrip(db.liquidClasses, i);
  }

  lemma LiquidNameColumnDistinct()
    ensures Distinct(LiquidNameColumn)
  {
    var names := LiquidNameColumn;
    // Any two names differ in length or in their first letter.
    forall i, j | 0 <= i < j < |names| ensures names[i] != names[j] {
      assert |names[i]| != |names[j]| || names[i][0] != names[j][0];
    }
  }

  lemma ClassNameColumnDistinct()
    ensures Distinct(ClassNameColumn)
  {}

  /** The liquid names are unique. */
  lemma LiquidNamesUnique()
    ensures LiquidNames(InitialLiquids()) == LiquidNameColumn
    ensures Distinct(LiquidNames(InitialLiquids()))
  {
    LiquidNameColumnDistinct();
  }

  /** The class names are unique and none of them is empty. */
  lemma ClassNamesUnique()
    ensures ClassNames(InitialLiquidClasses()) == ClassNameColumn
    ensures Distinct(ClassNames(InitialLiquidClasses()))
    ensures forall i :: 0 <= i < ClassCount ==> InitialLiquidClasses()[i].name != ""
  {
    ClassNameColumnDistinct();
  }

  /** Every liquid's class is one of the listed classes. */
  lemma EveryLiquidHasClass()
    ensures forall i :: 0 <= i < LiquidCount ==>
      InitialLiquids()[i].liquidClass in ClassNames(InitialLiquidClasses())
  {
    ClassNamesUnique();
  }

  /** The positions of the "Organic-Low" entries of the class column. */
  lemma OrganicLowPositions(idx: seq<nat>)
    requires idx == [1, 2, 3, 6, 7, 8, 9]
    ensures Increasing(idx)
    ensures forall i :: 0 <= i < LiquidCount ==> (LiquidClassColumn[i] == "Organic-Low" <==> i in idx)
  {
    IncreasingFromSteps(idx);
  }

  /** The entries of a 20-element list at those positions. */
  lemma OrganicLowPicks<W>(s: seq<Liquid<W>>, idx: seq<nat>, r: seq<Liquid<W>>)
    requires |s| == LiquidCount && idx == [1, 2, 3, 6, 7, 8, 9]
    requires r == [s[1], s[2], s[3], s[6], s[7], s[8], s[9]]
    ensures |idx| == |r| && forall k :: 0 <= k < |idx| ==> idx[k] < |s| && r[k] == s[idx[k]]
  {
  }

  /** Any list whose classes are the class column keeps, under the
      "Organic-Low" filter, its entries at those positions. */
  lemma OrganicLowOfColumn<W>(s: seq<Liquid<W>>)
    requires |s| == LiquidCount
    requires forall i :: 0 <= i < |s| ==> s[i].liquidClass == LiquidClassColumn[i]
    ensures OfClass(s, "Organic-Low") == [s[1], s[2], s[3], s[6], s[7], s[8], s[9]]
  {
    var idx: seq<nat> := [1, 2, 3, 6, 7, 8, 9];
    var r := [s[1], s[2], s[3], s[6], s[7], s[8], s[9]];
    OrganicLowPicks(s, idx, r);
    OrganicLowPositions(idx);
    assert forall i :: 0 <= i < |s| ==> (s[i].liquidClass == "Organic-Low" <==> i in idx);
    SelectionUnique(r, s, "Organic-Low", idx);
  }

  /** Filtering by "Organic-Low" gives the seven low-viscosity organics, in
      table order; Diethyl Ether ("Organic-Low-Volatile") is not among them. */
  lemma OrganicLowSelection()
    ensures OfClass(InitialLiquids(), "Organic-Low")
         == [LiquidAt(1), LiquidAt(2), LiquidAt(3), LiquidAt(6), LiquidAt(7), LiquidAt(8), LiquidAt(9)]
  {
    OrganicLowOfColumn(InitialLiquids());
  }

  /** The names at those positions of the name column. */
  lemma OrganicLowNames()
    ensures [LiquidNameColumn[1], LiquidNameColumn[2], LiquidNameColumn[3], LiquidNameColumn[6],
             LiquidNameColumn[7], LiquidNameColumn[8], LiquidNameColumn[9]]
         == ["Ethanol", "Methanol", "Acetone", "Isopropanol", "Acetonitrile", "Hexane", "Toluene"]
  {
  }

  /** The names of that selection. */
  lemma OrganicLowLiquids()
    ensures LiquidNames(OfClass(InitialLiquids(), "Organic-Low"))
         == ["Ethanol", "Methanol", "Acetone", "Isopropanol", "Acetonitrile", "Hexane", "Toluene"]
  {
    OrganicLowSelection();
    var r := [LiquidAt(1), LiquidAt(2), LiquidAt(3), LiquidAt(6), LiquidAt(7), LiquidAt(8), LiquidAt(9)];
    assert LiquidNames(r) == [LiquidNameColumn[1], LiquidNameColumn[2], LiquidNameColumn[3],
      LiquidNameColumn[6], LiquidNameColumn[7], LiquidNameColumn[8], LiquidNameColumn[9]];
    OrganicLowNames();
  }

  /** The lookup of "Viscous" finds the seventh class. */
  lemma ViscousIsSeventh()
    ensures FindClass(InitialLiquidClasses(), "Viscous") == Some(ClassAt(6))
  {
    var cs := InitialLiquidClasses();
    ClassNamesUnique();
    assert forall j :: 0 <= j < 6 ==> cs[j].name == ClassNameColumn[j] != "Viscous";
    FindClassFirst(cs, "Viscous", 6);
  }

  /** The air-gap block of the seventh class. */
  lemma SeventhAirGap()
    ensures var g := SettingsAt(6, AirGap);
      g.labelText == "Small" && g.value == "5-10 µL"
      && "Pre-Aspirate Air Gap: 0-5 µL" <= g.venusSettings
  {
    LinesBeginWithFirst(["Pre-Aspirate Air Gap: 0-5 µL", "Post-Aspirate Air Gap: 5-10 µL", "Empty Air Gap: 0 µL"]);
  }

  /** The "Viscous" class recommends a small air gap of 5-10 µL whose
      settings begin with a 0-5 µL pre-aspirate air gap. */
  lemma ViscousAirGap()
    ensures FindClass(InitialLiquidClasses(), "Viscous").Some?
    ensures var g := FindClass(InitialLiquidClasses(), "Viscous").value.airGap;
      g.labelText == "Small" && g.value == "5-10 µL"
      && "Pre-Aspirate Air Gap: 0-5 µL" <= g.venusSettings
  {
    ViscousIsSeventh();
    SeventhAirGap();
  }
}
