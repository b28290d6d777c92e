/** The upload flow's waste categories and their display label and colour.
    A category arrives from the API as a string that may be `null`, empty
    or a value the enum does not list, so the helpers take that string. */
module CategoryTypes {
  import opened Base

  /** `WasteCategory`, in declaration order. */
  datatype Category = EWaste | NonOrganic | OrganicVegetableFruit | OrganicDairyMeat
  {
    /** The string value the API uses. */
    function Value(): string
    {
      match this
      case EWaste => "e-waste"
      case NonOrganic => "non-organic"
      case OrganicVegetableFruit => "organic-vegetable-fruit"
      case OrganicDairyMeat => "organic-dairy-meat"
    }
  }

  /** `Object.values(WasteCategory)`: every category once, in declaration order. */
  const AllCategories: seq<Category> := [EWaste, NonOrganic, OrganicVegetableFruit, OrganicDairyMeat]

  lemma AllCategoriesListed()
    ensures forall c: Category :: c in AllCategories
    ensures forall i, j :: 0 <= i < j < |AllCategories| ==> AllCategories[i] != AllCategories[j]
  {
    forall c: Category ensures c in AllCategories {
      assert c == AllCategories[0] || c == AllCategories[1] || c == AllCategories[2] || c == AllCategories[3];
    }
  }

  /** The category a string names, if any. */
  function Parse(s: string): (r: Option<Category>)
    ensures r.Some? ==> r.value.Value() == s
    ensures r.None? ==> forall c: Category :: c.Value() != s
  {
    if s == EWaste.Value() then Some(EWaste)
    else if s == NonOrganic.Value() then Some(NonOrganic)
    else if s == OrganicVegetableFruit.Value() then Some(OrganicVegetableFruit)
    else if s == OrganicDairyMeat.Value() then Some(OrganicDairyMeat)
    else None
  }

  /** Each category parses back from its value. */
  lemma ParseValue(c: Category)
    ensures Parse(c.Value()) == Some(c)
  {
  }

  /** The category behind a possibly `null`, possibly empty string: `null`
      and the empty string are falsy and name no category. */
  function Named(category: Option<string>): (r: Option<Category>)
    ensures category.None? || category.value == "" ==> r.None?
  {
    match category
    case None => None
    case Some(s) => if s == "" then None else Parse(s)
  }

  /** `getCategoryLabel`: `Unknown` exactly when the string names no
      category. */
  function GetCategoryLabel(category: Option<string>): (r: string)
    ensures r == "Unknown" <==> Named(category).None?
  {
    match Named(category)
    case None => "Unknown"
    case Some(EWaste) => "Electronic Waste"
    case Some(NonOrganic) => "Non-organic Waste"
    case Some(OrganicVegetableFruit) => "Organic Waste (Vegetable/Fruit)"
    case Some(OrganicDairyMeat) => "Organic Waste (Dairy/Meat)"
  }

  /** `getCategoryColor`: one of the palette's colours, and `gray` exactly
      when the string names no category. */
  function GetCategoryColor(category: Option<string>): (r: string)
    ensures r in Palette
    ensures r == "gray" <==> Named(category).None?
  {
    match Named(category)
    case None => "gray"
    case Some(EWaste) => "red"
    case Some(NonOrganic) => "blue"
    case Some(OrganicVegetableFruit) => "green"
    case Some(OrganicDairyMeat) => "orange"
  }

  /** `null`, the empty string and any string the enum does not list get
      the label `Unknown` and the colour `gray`. */
  lemma FallbacksForNoCategory(s: string)
    requires forall c: Category :: c.Value() != s
    ensures GetCategoryLabel(None) == "Unknown" && GetCategoryColor(None) == "gray"
    ensures GetCategoryLabel(Some(s)) == "Unknown" && GetCategoryColor(Some(s)) == "gray"
  {
  }

  /** The four categories get four different labels, none of them
      `Unknown`. */
  lemma LabelsDistinct(a: Category, b: Category)
    ensures GetCategoryLabel(Some(a.Value())) == GetCategoryLabel(Some(b.Value())) <==> a == b
    ensures GetCategoryLabel(Some(a.Value())) != "Unknown"
  {
  }

  /** The four categories get four different colours, none of them
      `gray`. */
  lemma ColorsDistinct(a: Category, b: Category)
    ensures GetCategoryColor(Some(a.Value())) == GetCategoryColor(Some(b.Value())) <==> a == b
    ensures GetCategoryColor(Some(a.Value())) != "gray"
  {
  }

  /** The colours `getCategoryColor` can return: exactly red, blue, green,
      orange and gray, so never yellow. */
  const Palette: set<string> := {"red", "blue", "green", "orange", "gray"}

  lemma ColorRange(category: Option<string>)
    ensures GetCategoryColor(category) in Palette
    ensures GetCategoryColor(category) != "yellow"
  {
  }

  /** Every colour of the palette is returned for some input. */
  lemma ColorRangeIsExact(color: string)
    requires color in Palette
    ensures exists category :: GetCategoryColor(category) == color
  {
    if color == "gray" {
      assert GetCategoryColor(None) == color;
    } else if color == "red" {
      assert GetCategoryColor(Some(EWaste.Value())) == color;
    } else if color == "blue" {
      assert GetCategoryColor(Some(NonOrganic.Value())) == color;
    } else if color == "green" {
      assert GetCategoryColor(Some(OrganicVegetableFruit.Value())) == color;
    } else {
      assert GetCategoryColor(Some(OrganicDairyMeat.Value())) == color;
    }
  }
}
