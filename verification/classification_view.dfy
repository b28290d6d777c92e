/** The upload flow's classification card: the confidence gate, the
    buttons each branch offers and the badge colour of the category. */
module ClassificationView {
  import opened Base
  import opened CategoryTypes

  /** The confidence at and above which the card trusts the classifier. */
  const ConfidenceGate: real := 0.75

  /** `isConfident`: the gate is inclusive, so exactly 0.75 is confident
      and anything below is not. */
  function IsConfident(confidence: real): (b: bool)
    ensures confidence >= 0.75 ==> b
    ensures confidence < 0.75 ==> !b
  {
    confidence >= ConfidenceGate
  }

  /** The buttons a card can show. */
  datatype Action = Next | Retry

  /** The buttons of each branch: a confident card only moves on; a
      low-confidence card also offers to try again. */
  function Actions(confidence: real): (r: set<Action>)
    ensures Next in r
    ensures Retry in r <==> !IsConfident(confidence)
  {
    if IsConfident(confidence) then {Next} else {Retry, Next}
  }

  const YellowBadge := "bg-yellow-100-text-yellow-800-border-orange-200"

  /** The badge of a listed colour: background, text and border in shades
      of that colour. */
  function ColorBadge(color: string): string
  {
    "bg-" + color + BadgeShades(color)
  }

  function BadgeShades(color: string): string
  {
    "-100 text-" + color + "-800 border-" + color + "-200"
  }

  const GrayBadge := ColorBadge("gray")

  /** The colours `getBadgeClass` gives a badge of their own shades. */
  const ShadedColors: set<string> := {"red", "blue", "green", "orange"}

  /** `getBadgeClass` on the category's colour: the listed colours get their
      own shades, yellow its mixed badge, and every other string the gray
      one. */
  function BadgeClass(color: string): (r: string)
    ensures color in ShadedColors ==> r == ColorBadge(color)
    ensures r == YellowBadge <==> color == "yellow"
    ensures r == GrayBadge <==> color !in ShadedColors && color != "yellow"
  {
    NotYellowBadge(color);
    NotYellowBadge("gray");
    ShadedIsNotGray(color);
    match color
    case "red" => ColorBadge(color)
    case "blue" => ColorBadge(color)
    case "green" => ColorBadge(color)
    case "orange" => ColorBadge(color)
    case "yellow" => YellowBadge
    case _ => GrayBadge
  }

  /** A colour name has no hyphen. */
  predicate NoHyphen(s: string)
  {
    forall i :: 0 <= i < |s| ==> s[i] != '-'
  }

  /** A listed colour's badge is not the gray one. */
  lemma ShadedIsNotGray(color: string)
    ensures color in ShadedColors ==> ColorBadge(color) != GrayBadge
  {
    if color in ShadedColors && ColorBadge(color) == GrayBadge {
      assert NoHyphen(color) && NoHyphen("gray");
      ColorBadgeInjective(color, "gray");
    }
  }

  /** Different colour names give different badges: the name is what
      stands between `bg-` and the first hyphen after it. */
  lemma ColorBadgeInjective(a: string, b: string)
    requires NoHyphen(a) && NoHyphen(b)
    requires ColorBadge(a) == ColorBadge(b)
    ensures a == b
  {
    var x := ColorBadge(a);
    assert forall k :: 0 <= k < |a| ==> x[3 + k] == a[k];
    assert forall k :: 0 <= k < |b| ==> x[3 + k] == b[k];
    assert |x| > 3 + |a| && x[3 + |a|] == BadgeShades(a)[0] == '-';
    assert |x| > 3 + |b| && x[3 + |b|] == BadgeShades(b)[0] == '-';
    assert |a| == |b|;
    assert a == x[3..3 + |a|] == b;
  }

  /** No colour's badge is the yellow one: that one has a hyphen where
      every colour badge of the same length has a space. */
  lemma NotYellowBadge(color: string)
    ensures ColorBadge(color) != YellowBadge
  {
    var x := ColorBadge(color);
    assert |x| == 29 + 3 * |color|;
    assert |YellowBadge| == 47;
    if |color| == 6 {
      assert x[13] == BadgeShades(color)[4] == ' ';
      assert YellowBadge[13] == '-';
    }
  }

  /** Each colour `getCategoryColor` can return has its own badge, and a
      colour the switch does not list gets the gray one. */
  lemma BadgesPerColor(a: string, b: string)
    requires a in Palette && b in Palette
    ensures BadgeClass(a) == BadgeClass(b) <==> a == b
    ensures a != "gray" ==> BadgeClass(a) != GrayBadge
  {
    assert NoHyphen(a) && NoHyphen(b) && NoHyphen("gray");
    assert a != "yellow" && b != "yellow";
    assert a != "gray" ==> BadgeClass(a) == ColorBadge(a);
    assert b != "gray" ==> BadgeClass(b) == ColorBadge(b);
    if BadgeClass(a) == BadgeClass(b) {
      ColorBadgeInjective(if a == "gray" then "gray" else a, if b == "gray" then "gray" else b);
    }
    if a != "gray" && BadgeClass(a) == GrayBadge {
      ColorBadgeInjective(a, "gray");
    }
  }

  lemma UnlistedColorIsGray(color: string)
    requires color !in Palette && color != "yellow"
    ensures BadgeClass(color) == GrayBadge
  {
  }

  /** The card's badge for the category it shows; the yellow branch is
      never taken, because no category is coloured yellow. */
  function CategoryBadge(category: Option<string>): (r: string)
    ensures r != YellowBadge
    ensures r == GrayBadge <==> GetCategoryColor(category) == "gray"
  {
    var color := GetCategoryColor(category);
    ColorRange(category);
    BadgesPerColor(color, "gray");
    assert color != "gray" ==> BadgeClass(color) == ColorBadge(color);
    NotYellowBadge(color);
    NotYellowBadge("gray");
    BadgeClass(color)
  }
}
