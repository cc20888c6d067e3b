/** The inline dataset of src/App.js (`liquidsData` and `liquidClasses`) and
    what the component shows for it. */
module ChartData {
  import opened Records
  import opened Queries
  import opened Chart
  import Catalog
  import Database

  const MolarWeights: seq<MolarWeight> := [
    Grams(18.02), Grams(46.07), Grams(32.04), Grams(58.08), Grams(78.13), Grams(92.09),
    Grams(60.10), Grams(41.05), Grams(86.18), Grams(92.14), Grams(119.38), Grams(84.93),
    Dash("—"), Dash("—"), Dash("—"), Dash("—"), Dash("—"), Grams(74.12), Grams(60.05),
    Grams(74.12)
  ]

  /** The i-th entry of `liquidsData`. Apart from the molar weight, every field
      is the one the server-side database lists at the same position. */
  function LiquidAt(i: nat): Liquid<MolarWeight>
    requires i < Catalog.LiquidCount
  {
    Liquid(Catalog.LiquidNameColumn[i], Catalog.DensityColumn[i], Catalog.ViscosityColumn[i],
           MolarWeights[i], Catalog.LiquidClassColumn[i], Catalog.NotesColumn[i])
  }

  /** `liquidsData`. */
  function LiquidsData(): (r: seq<Liquid<MolarWeight>>)
    ensures |r| == Catalog.LiquidCount
  {
    seq(Catalog.LiquidCount, i requires 0 <= i < Catalog.LiquidCount => LiquidAt(i))
  }

  /** `liquidClasses`: field for field the server-side class table. */
  function LiquidClasses(): (r: seq<LiquidClass>)
    ensures |r| == Catalog.ClassCount
  {
    Catalog.InitialLiquidClasses()
  }

  /** The two arrays the file declares. */
  function Inline(): Tables {
    Tables(LiquidsData(), LiquidClasses())
  }

  // Properties of the inline tables

  /** 20 liquids and 11 classes, and every liquid's class is a listed class. */
  lemma InlineShape()
    ensures |Inline().liquidsData| == 20 && |Inline().liquidClasses| == 11
    ensures forall i :: 0 <= i < |Inline().liquidsData| ==>
      Inline().liquidsData[i].liquidClass in ClassNames(Inline().liquidClasses)
  {
    Database.EveryLiquidHasClass();
    assert forall i :: 0 <= i < |LiquidsData()| ==>
      LiquidsData()[i].liquidClass == Catalog.InitialLiquids()[i].liquidClass;
  }

  /** No class is named "", so with the selector cleared neither block is
      shown. */
  lemma InlineClearedSelection(st: State)
    requires st.selectedClass == ""
    ensures SelectedClassDetails(Inline(), st).None?
    ensures ClassPanelOf(Inline(), st).None? && ParamPanelOf(Inline(), st).None?
  {
    Database.ClassNamesUnique();
  }

  /** Selecting "Organic-Low" lists the seven low-viscosity organics. */
  lemma InlineOrganicLowTable(st: State)
    requires st.selectedClass == "Organic-Low"
    ensures LiquidNames(FilteredLiquids(Inline(), st))
         == ["Ethanol", "Methanol", "Acetone", "Isopropanol", "Acetonitrile", "Hexane", "Toluene"]
  {
    var a, b := LiquidsData(), Catalog.InitialLiquids();
    assert forall i :: 0 <= i < |a| ==> a[i].name == b[i].name && a[i].liquidClass == b[i].liquidClass;
    OfClassNamesAgree(a, b, "Organic-Low");
    Database.OrganicLowLiquids();
  }
}
