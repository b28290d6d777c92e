/** The weight summary panel: one row per category with its share of the
    total and a bar coloured after the category. */
module SummaryDisplay {
  import opened Base
  import opened CategoryTypes
  import WeightLedger

  /** The summary the server reports, keyed by category value. */
  type Summary = WeightLedger.WeightSummary<string>

  /** `getPercentage`: the category's share of the total, in percent; zero
      when the total is zero or the category has no entry. */
  function GetPercentage(s: Summary, c: Category): (p: real)
    ensures s.totalWeight == 0.0 || c.Value() !in s.weights ==> p == 0.0
    ensures s.totalWeight != 0.0 && c.Value() in s.weights ==> p * s.totalWeight == s.weights[c.Value()] * 100.0
  {
    if s.totalWeight == 0.0 || c.Value() !in s.weights then 0.0
    else (s.weights[c.Value()] / s.totalWeight) * 100.0
  }

  /** A share of a total that is at least the part lies between 0 and 100. */
  lemma ShareBounds(w: real, total: real)
    requires 0.0 <= w <= total && total != 0.0
    ensures 0.0 <= (w / total) * 100.0 <= 100.0
  {
    assert w / total <= 1.0 by {
      assert w / total * total == w;
    }
  }

  /** For a summary the ledger reports, where no weight is negative and the
      total is their sum, every percentage lies between 0 and 100. */
  lemma PercentageBounds(l: WeightLedger.Ledger<string>, c: Category)
    requires WeightLedger.Valid(l)
    requires forall k :: k in l.weights ==> l.weights[k] >= 0.0
    ensures 0.0 <= GetPercentage(WeightLedger.GetWeightSummary(l).1, c) <= 100.0
  {
    WeightLedger.TotalBounds(l);
    var r := WeightLedger.GetWeightSummary(l).1;
    if r.totalWeight != 0.0 && c.Value() in r.weights {
      ShareBounds(r.weights[c.Value()], r.totalWeight);
    }
  }

  /** The colours `getBarColorClass` lists. */
  const BarColors: set<string> := {"red", "blue", "green", "orange", "yellow"}

  /** `getBarColorClass` on the colour it looks up: a listed colour's bar is
      `bg-<colour>-500`, any other string's the gray one. */
  function BarColorClass(color: string): (r: string)
    ensures color in BarColors ==> r == "bg-" + color + "-500"
    ensures color !in BarColors ==> r == "bg-gray-500"
  {
    match color
    case "red" => "bg-red-500"
    case "blue" => "bg-blue-500"
    case "green" => "bg-green-500"
    case "orange" => "bg-orange-500"
    case "yellow" => "bg-yellow-500"
    case _ => "bg-gray-500"
  }

  /** Every category's bar is `bg-<colour>-500` for its own colour, and the
      yellow bar is never drawn. */
  lemma BarFollowsCategoryColor(c: Category)
    ensures BarColorClass(GetCategoryColor(Some(c.Value()))) == "bg-" + GetCategoryColor(Some(c.Value())) + "-500"
    ensures BarColorClass(GetCategoryColor(Some(c.Value()))) != "bg-yellow-500"
  {
  }

  /** Whatever string arrives, no bar is yellow: the only way to it would be
      a yellow category colour. */
  lemma NoYellowBar(category: Option<string>)
    ensures BarColorClass(GetCategoryColor(category)) != "bg-yellow-500"
  {
    ColorRange(category);
  }

  /** One row of the panel. */
  datatype Row = Row(category: Category, caption: string, percentage: real, barClass: string)

  function RowFor(s: Summary, c: Category): Row
  {
    Row(c, GetCategoryLabel(Some(c.Value())), GetPercentage(s, c), BarColorClass(GetCategoryColor(Some(c.Value()))))
  }

  /** `Object.values(WasteCategory).map(...)`: one row per category, in
      declaration order. */
  function Rows(s: Summary): (rows: seq<Row>)
    ensures |rows| == |AllCategories|
    ensures forall i :: 0 <= i < |rows| ==> rows[i] == RowFor(s, AllCategories[i])
  {
    seq(|AllCategories|, i requires 0 <= i < |AllCategories| => RowFor(s, AllCategories[i]))
  }

  /** Each category has exactly one row. */
  lemma OneRowPerCategory(s: Summary, c: Category)
    ensures exists i :: 0 <= i < |Rows(s)| && Rows(s)[i].category == c
    ensures forall i, j :: 0 <= i < |Rows(s)| && 0 <= j < |Rows(s)| && Rows(s)[i].category == c && Rows(s)[j].category == c ==> i == j
  {
    AllCategoriesListed();
    var i := if c == EWaste then 0 else if c == NonOrganic then 1 else if c == OrganicVegetableFruit then 2 else 3;
    assert Rows(s)[i].category == c;
  }
}
