/** The size guide: four measurement tables keyed by tab, the tab chosen
    from the product category when the guide is created, and the tab
    buttons. */
module SizeGuide {
  import Ascii
  import opened Wrappers

  datatype SizeTable = SizeTable(title: string, headers: seq<string>, rows: seq<seq<string>>)

  /** A table whose first column is the size and whose every row has one
      cell per header. */
  predicate WellFormed(t: SizeTable) {
    && |t.headers| > 0 && t.headers[0] == "Size"
    && forall r :: 0 <= r < |t.rows| ==> |t.rows[r]| == |t.headers|
  }

  const Jackets: SizeTable := SizeTable(
    "Jackets & Outerwear",
    ["Size", "Chest", "Shoulders", "Length", "Sleeve"],
    [ ["S", "36-38\"", "17\"", "26\"", "24\""],
      ["M", "38-40\"", "18\"", "27\"", "25\""],
      ["L", "40-42\"", "19\"", "28\"", "26\""],
      ["XL", "42-44\"", "20\"", "29\"", "27\""] ])

  const Sweaters: SizeTable := SizeTable(
    "Sweaters & Fleece",
    ["Size", "Chest", "Length", "Sleeve"],
    [ ["S", "36-38\"", "25\"", "32\""],
      ["M", "38-40\"", "26\"", "33\""],
      ["L", "40-42\"", "27\"", "34\""],
      ["XL", "42-44\"", "28\"", "35\""] ])

  const TShirts: SizeTable := SizeTable(
    "T-Shirts",
    ["Size", "Chest", "Length", "Sleeve"],
    [ ["S", "35-37\"", "27\"", "8\""],
      ["M", "38-40\"", "28\"", "8.5\""],
      ["L", "41-43\"", "29\"", "9\""],
      ["XL", "44-46\"", "30\"", "9.5\""] ])

  const Headwear: SizeTable := SizeTable(
    "Headwear",
    ["Size", "Circumference", "Depth"],
    [ ["S/M", "21-22\"", "4\""],
      ["L/XL", "22.5-23.5\"", "4.5\""],
      ["One Size", "Adjustable", "-"] ])

  /** The tab keys in the order the tab buttons appear. */
  const TabKeys: seq<string> := ["jackets", "sweaters", "tshirts", "headwear"]

  const SizeData: map<string, SizeTable> :=
    map["jackets" := Jackets, "sweaters" := Sweaters, "tshirts" := TShirts, "headwear" := Headwear]

  /** The tab buttons are exactly the tables, each once. */
  lemma TabsAreTables()
    ensures forall k :: k in SizeData <==> k in TabKeys
    ensures forall i, j :: 0 <= i < j < |TabKeys| ==> TabKeys[i] != TabKeys[j]
  {
  }

  /** Every table is well formed; the garment tables list S, M, L and XL. */
  lemma TablesWellFormed()
    ensures forall k :: k in SizeData ==> WellFormed(SizeData[k])
    ensures forall k :: k in SizeData && k != "headwear" ==>
      |SizeData[k].rows| == 4
      && SizeData[k].rows[0][0] == "S" && SizeData[k].rows[1][0] == "M"
      && SizeData[k].rows[2][0] == "L" && SizeData[k].rows[3][0] == "XL"
  {
    assert WellFormed(Jackets);
    assert WellFormed(Sweaters);
    assert WellFormed(TShirts);
    assert WellFormed(Headwear);
  }

  /** sizeData[activeTab]: the table shown for a tab. */
  function CurrentData(tab: string): (t: SizeTable)
    requires tab in SizeData
    ensures WellFormed(t) && t == SizeData[tab]
  {
    TablesWellFormed();
    SizeData[tab]
  }

  /** The initial tab as the component computes it: a missing category is
      "jackets", otherwise the category lower-cased, with the empty string
      falling back to "jackets". Nothing checks the result against the
      table keys. */
  function InitialTabAsWritten(category: Option<string>): (tab: string)
    ensures tab != ""
    ensures forall i :: 0 <= i < |tab| ==> !('A' <= tab[i] <= 'Z')
    ensures category.None? || category.value == "" ==> tab == "jackets"
    ensures category.Some? && category.value != "" ==> tab == Ascii.ToLower(category.value)
  {
    var lowered := Ascii.ToLower(if category.None? then "jackets" else category.value);
    if lowered == "" then "jackets" else lowered
  }

  /** Two of the catalog's categories, "T-Shirts" and "Hoodies", have no
      table under the computed tab, while "Headwear" has one. */
  lemma CatalogCategoriesMissTables()
    ensures InitialTabAsWritten(Some("T-Shirts")) == "t-shirts" && "t-shirts" !in SizeData
    ensures InitialTabAsWritten(Some("Hoodies")) == "hoodies" && "hoodies" !in SizeData
    ensures InitialTabAsWritten(Some("Headwear")) == "headwear" && "headwear" in SizeData
  {
    assert Ascii.ToLower("T-Shirts") == "t-shirts";
    assert Ascii.ToLower("Hoodies") == "hoodies";
    assert Ascii.ToLower("Headwear") == "headwear";
  }

  /** The initial tab with the fallback applied to every category that names
      no table, so that the tab always has a table. */
  function InitialTab(category: Option<string>): (tab: string)
    ensures tab in SizeData
    ensures InitialTabAsWritten(category) in SizeData ==> tab == InitialTabAsWritten(category)
    ensures InitialTabAsWritten(category) !in SizeData ==> tab == "jackets"
  {
    var computed := InitialTabAsWritten(category);
    if computed in SizeData then computed else "jackets"
  }

  class SizeGuidePanel {
    var activeTab: string

    predicate Valid()
      reads this
    {
      activeTab in SizeData
    }

    constructor (category: Option<string>)
      ensures Valid() && activeTab == InitialTab(category)
    {
      activeTab := InitialTab(category);
    }

    /** The tab button at a position in the row. */
    method SelectTab(position: nat)
      requires position < |TabKeys|
      modifies this
      ensures Valid() && activeTab == TabKeys[position]
    {
      activeTab := TabKeys[position];
    }

    function Shown(): (t: SizeTable)
      requires Valid()
      reads this
      ensures t == SizeData[activeTab] && WellFormed(t)
    {
      CurrentData(activeTab)
    }
  }
}
