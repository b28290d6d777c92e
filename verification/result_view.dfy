/** The result panel of the live-scan page, in both of its versions: which
    view it shows, the colour and description it looks up for the top
    detection, the heading it writes, and the list of runners-up. */
module ResultView {
  import opened Base
  import opened DetectionLoop
  import opened ScanPage

  /** `s.split(c)`: the pieces between the occurrences of `c`; one piece
      more than there are occurrences, so the empty string gives one empty
      piece. */
  function Split(s: string, c: char): (r: seq<string>)
    ensures |r| >= 1
    ensures forall i :: 0 <= i < |r| ==> c !in r[i]
    decreases |s|
  {
    if |s| == 0 then [""]
    else
      var rest := Split(s[1..], c);
      if s[0] == c then [""] + rest else [[s[0]] + rest[0]] + rest[1..]
  }

  /** `ws.join(c)`. */
  function Join(ws: seq<string>, c: char): string
    decreases |ws|
  {
    if |ws| == 0 then "" else if |ws| == 1 then ws[0] else ws[0] + [c] + Join(ws[1..], c)
  }

  /** Joining the pieces back with the separator gives the string again. */
  lemma {:induction false} JoinSplit(s: string, c: char)
    ensures Join(Split(s, c), c) == s
    decreases |s|
  {
    if |s| > 0 {
      JoinSplit(s[1..], c);
      var rest := Split(s[1..], c);
      if s[0] == c {
        assert Split(s, c) == [""] + rest;
        assert ([""] + rest)[1..] == rest;
      } else {
        assert Split(s, c) == [[s[0]] + rest[0]] + rest[1..];
        if |rest| > 1 {
          assert ([[s[0]] + rest[0]] + rest[1..])[1..] == rest[1..];
          assert Join(rest, c) == rest[0] + [c] + Join(rest[1..], c);
        }
      }
    }
  }

  /** Splitting a join of pieces that do not hold the separator gives the
      pieces again. */
  lemma {:induction false} SplitJoin(ws: seq<string>, c: char)
    requires |ws| >= 1
    requires forall i :: 0 <= i < |ws| ==> c !in ws[i]
    ensures Split(Join(ws, c), c) == ws
    decreases |ws|
  {
    if |ws| == 1 {
      SplitPiece(ws[0], c);
    } else {
      SplitJoin(ws[1..], c);
      SplitAround(ws[0], Join(ws[1..], c), c);
      assert Join(ws, c) == ws[0] + [c] + Join(ws[1..], c);
      assert [ws[0]] + ws[1..] == ws;
    }
  }

  /** A string without the separator is a single piece. */
  lemma {:induction false} SplitPiece(w: string, c: char)
    requires c !in w
    ensures Split(w, c) == [w]
    decreases |w|
  {
    if |w| > 0 {
      assert c !in w[1..] by {
        forall k | 0 <= k < |w[1..]| ensures w[1..][k] != c { assert w[1..][k] == w[k + 1]; }
      }
      SplitPiece(w[1..], c);
      assert [w[0]] + w[1..] == w;
    }
  }

  /** A piece without the separator, then the separator, then any text: the
      piece comes first, then the pieces of the text. */
  lemma {:induction false} SplitAround(w: string, t: string, c: char)
    requires c !in w
    ensures Split(w + [c] + t, c) == [w] + Split(t, c)
    decreases |w|
  {
    if |w| == 0 {
      assert w + [c] + t == [c] + t;
      assert ([c] + t)[1..] == t;
    } else {
      var s := w + [c] + t;
      assert s[0] == w[0];
      assert s[1..] == w[1..] + [c] + t;
      assert c !in w[1..] by {
        forall k | 0 <= k < |w[1..]| ensures w[1..][k] != c { assert w[1..][k] == w[k + 1]; }
      }
      SplitAround(w[1..], t, c);
      assert [w[0]] + w[1..] == w;
    }
  }

  /** `word.charAt(0).toUpperCase() + word.slice(1)`. */
  function Capitalize(w: string): (r: string)
    ensures |r| == |w|
    ensures |w| > 0 ==> r[0] == UpperChar(w[0]) && r[1..] == w[1..]
  {
    if |w| == 0 then "" else [UpperChar(w[0])] + w[1..]
  }

  /** Capitalising never brings in a character other than an upper-case
      letter, so it cannot bring in a separator. */
  lemma CapitalizeKeepsOut(w: string, c: char)
    requires c !in w && !IsUpperAscii(c)
    ensures c !in Capitalize(w)
  {
    if |w| > 0 {
      assert Capitalize(w) == [UpperChar(w[0])] + w[1..];
      assert c !in w[1..] by {
        forall k | 0 <= k < |w[1..]| ensures w[1..][k] != c { assert w[1..][k] == w[k + 1]; }
      }
    }
  }

  function CapitalizeAll(ws: seq<string>): (r: seq<string>)
    ensures |r| == |ws|
    ensures forall i :: 0 <= i < |ws| ==> r[i] == Capitalize(ws[i])
  {
    seq(|ws|, i requires 0 <= i < |ws| => Capitalize(ws[i]))
  }

  /** Capitalising every piece keeps out what no piece holds. */
  lemma CapitalizeAllKeepsOut(ws: seq<string>, c: char)
    requires !IsUpperAscii(c)
    requires forall i :: 0 <= i < |ws| ==> c !in ws[i]
    ensures forall i :: 0 <= i < |ws| ==> c !in CapitalizeAll(ws)[i]
  {
    forall i | 0 <= i < |ws| ensures c !in CapitalizeAll(ws)[i] {
      CapitalizeKeepsOut(ws[i], c);
    }
  }

  /** `formatCategoryName`: the hyphenated pieces, each capitalised, joined
      with spaces, so the heading never holds a hyphen. */
  function FormatCategoryName(category: string): (r: string)
    ensures '-' !in r
  {
    var words := CapitalizeAll(Split(category, '-'));
    CapitalizeAllKeepsOut(Split(category, '-'), '-');
    JoinChars(words, ' ', '-');
    Join(words, ' ')
  }

  /** Every character of a join is the separator or one of the pieces'. */
  lemma {:induction false} JoinChars(ws: seq<string>, c: char, x: char)
    requires x != c
    requires forall i :: 0 <= i < |ws| ==> x !in ws[i]
    ensures x !in Join(ws, c)
    decreases |ws|
  {
    if |ws| > 1 {
      JoinChars(ws[1..], c, x);
      assert Join(ws, c) == ws[0] + [c] + Join(ws[1..], c);
    }
  }

  /** A character missing from the string is missing from every piece. */
  lemma {:induction false} SplitKeepsOut(s: string, c: char, x: char)
    requires x !in s
    ensures forall i :: 0 <= i < |Split(s, c)| ==> x !in Split(s, c)[i]
    decreases |s|
  {
    if |s| > 0 {
      assert x !in s[1..] by {
        forall k | 0 <= k < |s[1..]| ensures s[1..][k] != x { assert s[1..][k] == s[k + 1]; }
      }
      SplitKeepsOut(s[1..], c, x);
    }
  }

  /** For a category without spaces the heading has one word per hyphenated
      piece, each the piece capitalised. */
  lemma FormatWords(category: string)
    requires ' ' !in category
    ensures Split(FormatCategoryName(category), ' ') == CapitalizeAll(Split(category, '-'))
    ensures |Split(FormatCategoryName(category), ' ')| == |Split(category, '-')|
  {
    var pieces := Split(category, '-');
    var words := CapitalizeAll(pieces);
    SplitKeepsOut(category, '-', ' ');
    CapitalizeAllKeepsOut(pieces, ' ');
    SplitJoin(words, ' ');
  }

  lemma SplitThree(a: string, b: string, d: string, c: char)
    requires c !in a && c !in b && c !in d
    ensures Split(a + [c] + b + [c] + d, c) == [a, b, d]
  {
    var t := b + [c] + d;
    SplitPiece(d, c);
    SplitAround(b, d, c);
    assert Split(t, c) == [b, d];
    SplitAround(a, t, c);
    assert [a] + [b, d] == [a, b, d];
    assert a + [c] + b + [c] + d == a + [c] + t;
  }

  lemma SplitExample()
    ensures Split("e-waste-useful", '-') == ["e", "waste", "useful"]
  {
    var a, b, d := "e", "waste", "useful";
    assert a + ['-'] + b + ['-'] + d == "e-waste-useful";
    SplitThree(a, b, d, '-');
  }

  lemma JoinExample()
    ensures Join(["E", "Waste", "Useful"], ' ') == "E Waste Useful"
  {
    assert ["E", "Waste", "Useful"][1..] == ["Waste", "Useful"];
    assert ["Waste", "Useful"][1..] == ["Useful"];
  }

  lemma CapitalizeExample()
    ensures CapitalizeAll(["e", "waste", "useful"]) == ["E", "Waste", "Useful"]
  {
    assert UpperChar('e') == 'E' && UpperChar('w') == 'W' && UpperChar('u') == 'U';
    assert Capitalize("e") == "E";
    assert Capitalize("waste") == ['W'] + "waste"[1..] == "Waste";
    assert Capitalize("useful") == ['U'] + "useful"[1..] == "Useful";
  }

  /** `e-waste-useful` is headed `E Waste Useful`. */
  lemma FormatExample()
    ensures FormatCategoryName("e-waste-useful") == "E Waste Useful"
  {
    SplitExample();
    CapitalizeExample();
    JoinExample();
  }

  /** The runners-up: `all_detections.slice(1, 4)`, shown only when there
      are at least two detections. */
  function OtherItems(all: Option<seq<Detection>>): (r: Option<seq<Detection>>)
    ensures r.Some? <==> all.Some? && |all.value| > 1
    ensures r.Some? ==> |r.value| == (if |all.value| - 1 < 3 then |all.value| - 1 else 3)
    ensures r.Some? ==> forall i :: 0 <= i < |r.value| ==> r.value[i] == all.value[i + 1]
  {
    match all
    case Some(ds) =>
      if |ds| > 1 then Some(ds[1..if |ds| < 4 then |ds| else 4]) else None
    case None => None
  }

  /** For a result the page built, the runners-up follow the top detection
      in confidence and never repeat its place in the list. */
  lemma RunnersUpRankBelowTop(ds: seq<Detection>)
    requires |ds| > 1
    ensures var r := HandleDetection(ds);
      && OtherItems(r.all).Some?
      && SortedByConfidence(r.all.value)
      && (forall i :: 0 <= i < |OtherItems(r.all).value| ==>
            OtherItems(r.all).value[i].confidence <= r.top.value.confidence
            && OtherItems(r.all).value[i] == r.all.value[i + 1])
  {
    var r := HandleDetection(ds);
    assert |multiset(r.all.value)| == |multiset(ds)|;
  }

  /** Which of the two versions of the panel. */
  datatype Variant =
    | ScanVariant(othersKey: string)  // the scan page's panel; `WasteCategory.OTHERS` is its fallback colour key
    | PlainVariant                    // the older panel, falling back to the `Unknown` colour entry

  function FallbackKey(v: Variant): string
  {
    match v
    case ScanVariant(othersKey) => othersKey
    case PlainVariant => "Unknown"
  }

  /** The panel's text tables: colour classes and descriptions by category. */
  datatype Tables = Tables(colors: map<string, string>, descriptions: map<string, string>)

  /** A JavaScript property read on a table: missing is `undefined`. */
  function Read(m: map<string, string>, k: string): Option<string>
  {
    if k in m then Some(m[k]) else None
  }

  /** Truthy: present and not the empty string. */
  predicate Truthy(v: Option<string>)
  {
    v.Some? && v.value != ""
  }

  /** `colors[category] || colors[fallback]`. */
  function CategoryColor(v: Variant, t: Tables, category: string): (r: Option<string>)
    ensures Truthy(Read(t.colors, category)) ==> r == Some(t.colors[category])
    ensures !Truthy(Read(t.colors, category)) ==> r == Read(t.colors, FallbackKey(v))
  {
    if Truthy(Read(t.colors, category)) then Read(t.colors, category) else Read(t.colors, FallbackKey(v))
  }

  /** `descriptions[category] || ''`. */
  function CategoryDescription(t: Tables, category: string): (r: string)
    ensures category in t.descriptions ==> r == t.descriptions[category]
    ensures category !in t.descriptions ==> r == ""
  {
    if Truthy(Read(t.descriptions, category)) then t.descriptions[category] else ""
  }

  /** The heading: the scan page's panel formats the category, the older one
      shows it as it is. */
  function Heading(v: Variant, category: string): (r: string)
    ensures v.ScanVariant? ==> r == FormatCategoryName(category) && '-' !in r
    ensures v.PlainVariant? ==> r == category
  {
    if v.ScanVariant? then FormatCategoryName(category) else category
  }

  /** What the panel shows. */
  datatype View =
    | Spinner
    | Prompt
    | NoWaste(message: string)
    | Blank
    | RenderError
    | Detail(top: Detection, color: Option<string>, description: string, heading: string, others: Option<seq<Detection>>)

  /** The panel.  Loading wins over everything, then a missing result, then
      a failed one, then a missing top detection; only then the detail.  The
      older panel calls `replace` on the colour it looked up, so when neither
      the category nor `Unknown` has a colour, rendering throws. */
  function SelectView(v: Variant, t: Tables, result: Option<ScanResult>, isLoading: bool): (r: View)
    ensures isLoading <==> r.Spinner?
    ensures r.Prompt? <==> !isLoading && result.None?
    ensures r.NoWaste? <==> !isLoading && result.Some? && !result.value.success
    ensures r.NoWaste? ==> r.message == result.value.message
    ensures r.Blank? <==> !isLoading && result.Some? && result.value.success && result.value.top.None?
    ensures r.RenderError? <==>
      && !isLoading && result.Some? && result.value.success && result.value.top.Some?
      && v.PlainVariant? && CategoryColor(v, t, result.value.top.value.category).None?
    ensures r.Detail? ==> result.Some? && r.top == result.value.top.value && r.others == OtherItems(result.value.all)
    ensures r.Detail? ==> r.color == CategoryColor(v, t, r.top.category) && (v.PlainVariant? ==> r.color.Some?)
  {
    if isLoading then Spinner
    else match result
      case None => Prompt
      case Some(res) =>
        if !res.success then NoWaste(res.message)
        else match res.top
          case None => Blank
          case Some(top) =>
            if v.PlainVariant? && CategoryColor(v, t, top.category).None? then RenderError
            else Detail(top, CategoryColor(v, t, top.category), CategoryDescription(t, top.category),
                   Heading(v, top.category), OtherItems(res.all))
  }

  /** The results the page builds never hit the blank branch: an empty list
      shows the no-waste view with its message, any other list the detail of
      its most confident detection, unless the older panel finds no colour
      for it. */
  lemma ViewOfHandled(v: Variant, t: Tables, ds: seq<Detection>)
    ensures |ds| == 0 ==> SelectView(v, t, Some(HandleDetection(ds)), false) == NoWaste(NoWasteMessage)
    ensures |ds| > 0 ==> var view := SelectView(v, t, Some(HandleDetection(ds)), false);
      && (view.Detail? || view.RenderError?)
      && (view.RenderError? <==> v.PlainVariant? && CategoryColor(v, t, HandleDetection(ds).top.value.category).None?)
    ensures |ds| > 0 ==> var view := SelectView(v, t, Some(HandleDetection(ds)), false);
      view.Detail? ==>
      && view.top in ds
      && (forall d :: d in ds ==> view.top.confidence >= d.confidence)
      && (view.others.Some? <==> |ds| > 1)
  {
    if |ds| > 0 {
      var r := HandleDetection(ds);
      assert |multiset(r.all.value)| == |multiset(ds)|;
    }
  }
}
