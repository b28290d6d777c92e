/** The server-side detector's post-processing: the COCO→waste-category
    table and its lookup with the `unknown` fallback, the conversion of
    boxes from corner form to origin-and-size form, the loop that turns the
    model's boxes into detections, and the stripping of a data-URL header
    from a base64 image. */
module BackendDetection {
  import opened Base
  import opened NameGroups
  import opened CocoTable

  /** The names of two to five letters. */
  const ShortNames: NameTable := NamesOfLength2 + NamesOfLength3 + NamesOfLength4 + NamesOfLength5

  /** The names of seven letters or more. */
  const LongNames: NameTable :=
    NamesOfLength7 + NamesOfLength8 + NamesOfLength9 + NamesOfLength10 +
    NamesOfLength11 + NamesOfLength12 + NamesOfLength13 + NamesOfLength14

  /** `COCO_TO_WASTE_CATEGORY`: all 80 names, the six-letter ones (which
      the sample lookups use) between the shorter and the longer ones. */
  const CocoToWasteCategory: NameTable := ShortNames + NamesOfLength6 + LongNames

  /** `table.get(name, WasteCategory.UNKNOWN)`. */
  function Get(table: NameTable, name: string): (c: WasteCategory)
    ensures name in table ==> c == table[name]
    ensures name !in table ==> c == Unknown
  {
    if name in table then table[name] else Unknown
  }

  /** `COCO_TO_WASTE_CATEGORY.get(name, WasteCategory.UNKNOWN)`: exact,
      case-sensitive lookup with the `unknown` fallback. */
  function Lookup(name: string): (c: WasteCategory)
    ensures name in CocoToWasteCategory ==> c == CocoToWasteCategory[name]
    ensures name !in CocoToWasteCategory ==> c == Unknown
  {
    Get(CocoToWasteCategory, name)
  }

  /** The names of each band have the band's lengths. */
  lemma BandLengths()
    ensures Shorter(ShortNames, 6) && AllOfLength(NamesOfLength6, 6) && AtLeast(LongNames, 7)
  {
    Group2Lengths(); Group3Lengths(); Group4Lengths(); Group5Lengths();
    ShortBand(NamesOfLength2, NamesOfLength3, NamesOfLength4, NamesOfLength5);
    Group6Lengths();
    Group7Lengths(); Group8Lengths(); Group9Lengths(); Group10Lengths();
    Group11Lengths(); Group12Lengths(); Group13Lengths(); Group14Lengths();
    LongBand(
      NamesOfLength7, NamesOfLength8, NamesOfLength9, NamesOfLength10,
      NamesOfLength11, NamesOfLength12, NamesOfLength13, NamesOfLength14);
  }

  lemma ShortNamesCount()
    ensures |ShortNames.Keys| == 36
  {
    Group2Lengths(); Group3Lengths(); Group4Lengths(); Group5Lengths();
    Group2Size(); Group3Size(); Group4Size(); Group5Size();
    ShortGroupsAddUp(NamesOfLength2, NamesOfLength3, NamesOfLength4, NamesOfLength5);
  }

  lemma LongNamesCount()
    ensures |LongNames.Keys| == 36
  {
    Group7Lengths(); Group8Lengths(); Group9Lengths(); Group10Lengths();
    Group11Lengths(); Group12Lengths(); Group13Lengths(); Group14Lengths();
    Group7Size(); Group8Size(); Group9Size(); Group10Size();
    Group11Size(); Group12Size(); Group13Size(); Group14Size();
    LongGroupsAddUp(
      NamesOfLength7, NamesOfLength8, NamesOfLength9, NamesOfLength10,
      NamesOfLength11, NamesOfLength12, NamesOfLength13, NamesOfLength14);
  }

  /** The table has exactly 80 distinct class names. */
  lemma CocoTableSize()
    ensures |CocoToWasteCategory.Keys| == 80
  {
    BandsAddUp();
  }

  lemma BandsAddUp()
    ensures |(ShortNames + NamesOfLength6 + LongNames).Keys| == 80
  {
    BandLengths();
    ShortNamesCount(); LongNamesCount(); Group6Size();
    SumOfBands(ShortNames, NamesOfLength6, LongNames);
  }

  /** A name of six letters is looked up in the six-letter group: the
      shorter and the longer names cannot hide or supply it. */
  lemma SixLetterLookup(name: string)
    requires |name| == 6
    ensures name in CocoToWasteCategory <==> name in NamesOfLength6
    ensures Lookup(name) == Get(NamesOfLength6, name)
  {
    BandLengths();
    MiddleBand(ShortNames, NamesOfLength6, LongNames, 6, name);
  }

  /** Sample lookups: a bottle is non-organic, a banana goes to compost, a
      laptop is useful e-waste, a person is a COCO class without a waste
      category, and neither an unlisted name nor a differently cased one is
      found. */
  lemma LookupExamples()
    ensures Lookup("bottle") == NonOrganic
    ensures Lookup("banana") == Compost
    ensures Lookup("laptop") == EWasteUseful
    ensures Lookup("person") == Unknown && "person" in CocoToWasteCategory
    ensures Lookup("hammer") == Unknown && "hammer" !in CocoToWasteCategory
    ensures Lookup("Bottle") == Unknown && "Bottle" !in CocoToWasteCategory
  {
    SampleGroupEntries();
    SixLetterLookup("bottle"); SixLetterLookup("banana"); SixLetterLookup("laptop");
    SixLetterLookup("person"); SixLetterLookup("hammer"); SixLetterLookup("Bottle");
  }

  /** A box given by two opposite corners, as the model reports it (`xyxy`). */
  datatype Corners = Corners(x1: real, y1: real, x2: real, y2: real)

  /** A box given by its origin and its size, as the API reports it. */
  datatype Xywh = Xywh(x: real, y: real, width: real, height: real)

  /** `[x1, y1, x2 - x1, y2 - y1]`. */
  function ToXywh(c: Corners): (b: Xywh)
    ensures b.x == c.x1 && b.y == c.y1
    ensures b.x + b.width == c.x2 && b.y + b.height == c.y2
  {
    Xywh(c.x1, c.y1, c.x2 - c.x1, c.y2 - c.y1)
  }

  /** The opposite corners of a box given by origin and size. */
  function ToCorners(b: Xywh): (c: Corners)
    ensures c.x1 == b.x && c.y1 == b.y
    ensures c.x2 - c.x1 == b.width && c.y2 - c.y1 == b.height
  {
    Corners(b.x, b.y, b.x + b.width, b.y + b.height)
  }

  /** The conversion loses nothing: each form converts back to itself. */
  lemma BoxRoundTrips(c: Corners, b: Xywh)
    ensures ToCorners(ToXywh(c)) == c
    ensures ToXywh(ToCorners(b)) == b
  {
  }

  /** Corners in the usual order give a box of non-negative size. */
  lemma OrderedCornersGiveNonNegativeSize(c: Corners)
    requires c.x1 <= c.x2 && c.y1 <= c.y2
    ensures ToXywh(c).width >= 0.0 && ToXywh(c).height >= 0.0
  {
  }

  /** One box of the model's result: corners, confidence and class index. */
  datatype ModelBox = ModelBox(corners: Corners, conf: real, cls: int)

  /** One detection in the API's format. */
  datatype ServerDetection = ServerDetection(className: string, category: WasteCategory, confidence: real, bbox: Xywh)

  /** The detection built from one box; the class index must name a class
      (`result.names[cls]`). */
  function Convert(b: ModelBox, names: map<int, string>): (d: ServerDetection)
    requires b.cls in names
    ensures d.className == names[b.cls] && d.category == Lookup(d.className)
    ensures d.confidence == b.conf && ToCorners(d.bbox) == b.corners
  {
    ServerDetection(names[b.cls], Lookup(names[b.cls]), b.conf, ToXywh(b.corners))
  }

  /** Every class index in `boxes` has a name. */
  predicate AllNamed(boxes: seq<ModelBox>, names: map<int, string>)
  {
    forall i :: 0 <= i < |boxes| ==> boxes[i].cls in names
  }

  /** `_process_results`: one detection per box, in box order; no boxes
      gives an empty list.  A class index without a name raises, which is
      reported as `None`. */
  method ProcessResults(boxes: Option<seq<ModelBox>>, names: map<int, string>)
    returns (r: Option<seq<ServerDetection>>)
    ensures boxes.None? ==> r == Some([])
    ensures boxes.Some? ==> (r.Some? <==> AllNamed(boxes.value, names))
    ensures r.Some? && boxes.Some? ==>
      && |r.value| == |boxes.value|
      && forall i :: 0 <= i < |boxes.value| ==> boxes.value[i].cls in names && r.value[i] == Convert(boxes.value[i], names)
  {
    if boxes.None? {
      return Some([]);
    }
    var bs := boxes.value;
    var detections: seq<ServerDetection> := [];
    var i := 0;
    while i < |bs|
      invariant 0 <= i <= |bs|
      invariant |detections| == i
      invariant forall j :: 0 <= j < i ==> bs[j].cls in names && detections[j] == Convert(bs[j], names)
    {
      if bs[i].cls !in names {
        return None;
      }
      detections := detections + [Convert(bs[i], names)];
      i := i + 1;
    }
    return Some(detections);
  }

  /** What the model and the image decoder produce for one payload: the
      boxes of the first result and the class names. */
  datatype Inference = Inference(boxes: Option<seq<ModelBox>>, names: map<int, string>)

  /** The separator `split` is called with. */
  const Marker := "base64,"

  predicate OccursAt(s: string, i: int)
  {
    0 <= i && i + |Marker| <= |s| && s[i..i + |Marker|] == Marker
  }

  /** `i` is the first occurrence of the marker at or after `from`. */
  ghost predicate FirstFrom(s: string, from: int, i: int)
  {
    from <= i && OccursAt(s, i) && forall j :: from <= j < i ==> !OccursAt(s, j)
  }

  /** The marker does not occur at or after `from`. */
  ghost predicate NoneFrom(s: string, from: int)
  {
    forall j :: from <= j ==> !OccursAt(s, j)
  }

  /** `j` is the next occurrence of the marker after the one at `i`. */
  ghost predicate NextAfter(s: string, i: int, j: int)
  {
    FirstFrom(s, i + |Marker|, j)
  }

  /** The first occurrence of the marker at or after `from`. */
  function FindFrom(s: string, from: nat): (r: Option<nat>)
    ensures r.Some? ==> FirstFrom(s, from, r.value)
    ensures r.None? ==> NoneFrom(s, from)
    decreases |s| - from
  {
    if from + |Marker| > |s| then None
    else if OccursAt(s, from) then Some(from)
    else FindFrom(s, from + 1)
  }

  /** `if "base64," in s: s = s.split("base64,")[1]`: the text between the
      first occurrence of the marker and the next one (or the end); the
      input unchanged when the marker does not occur. */
  function StripBase64Prefix(s: string): (r: string)
    ensures NoneFrom(s, 0) ==> r == s
    ensures forall i :: FirstFrom(s, 0, i) && NoneFrom(s, i + |Marker|) ==> r == s[i + |Marker|..]
    ensures forall i, j :: FirstFrom(s, 0, i) && NextAfter(s, i, j) ==> r == s[i + |Marker|..j]
  {
    match FindFrom(s, 0)
    case None => s
    case Some(i) =>
      match FindFrom(s, i + |Marker|)
      case None => s[i + |Marker|..]
      case Some(j) => s[i + |Marker|..j]
  }

  /** The marker ends in a comma, so it cannot occur where no comma follows. */
  lemma NoCommaNoOccurrence(s: string, i: int)
    requires 0 <= i
    requires i + |Marker| > |s| || s[i + |Marker| - 1] != ','
    ensures !OccursAt(s, i)
  {
    if i + |Marker| <= |s| {
      assert s[i..i + |Marker|][|Marker| - 1] == s[i + |Marker| - 1];
    }
  }

  /** A data URL `data:<type>;base64,<payload>` gives its payload back: the
      header and a base64 payload hold no comma. */
  lemma StripDataUrl(header: string, payload: string)
    requires ',' !in header && ',' !in payload
    ensures StripBase64Prefix(header + Marker + payload) == payload
  {
    var s := header + Marker + payload;
    var n := |header|;
    assert s[n..n + |Marker|] == Marker;
    forall j | 0 <= j && j != n
      ensures !OccursAt(s, j)
    {
      var c := j + |Marker| - 1;
      if c < n {
        assert s[c] == header[c];
      } else if n + |Marker| <= c < |s| {
        assert s[c] == payload[c - n - |Marker|];
      } else if c < |s| {
        assert s[c] == Marker[c - n];
      }
      NoCommaNoOccurrence(s, j);
    }
    assert FirstFrom(s, 0, n);
    assert NoneFrom(s, n + |Marker|);
    assert s[n + |Marker|..] == payload;
  }

  /** Bare base64 text, which holds no comma, is left as it is. */
  lemma StripBarePayload(payload: string)
    requires ',' !in payload
    ensures StripBase64Prefix(payload) == payload
  {
    forall j | 0 <= j
      ensures !OccursAt(payload, j)
    {
      if j + |Marker| <= |payload| {
        assert payload[j + |Marker| - 1] in payload;
      }
      NoCommaNoOccurrence(payload, j);
    }
  }

  /** `detect_from_base64`: strip the data-URL header, decode, run the
      model and post-process.  `infer` stands for decoding, opening the
      image and running the model, `None` when any of them raises; every
      failure, including a class index without a name, gives an empty
      list. */
  method DetectFromBase64(image: string, infer: string -> Option<Inference>)
    returns (r: seq<ServerDetection>)
    ensures infer(StripBase64Prefix(image)).None? ==> r == []
    ensures infer(StripBase64Prefix(image)).Some? ==>
      var inf := infer(StripBase64Prefix(image)).value;
      && (inf.boxes.None? ==> r == [])
      && (inf.boxes.Some? && !AllNamed(inf.boxes.value, inf.names) ==> r == [])
      && (inf.boxes.Some? && AllNamed(inf.boxes.value, inf.names) ==>
            |r| == |inf.boxes.value| &&
            forall i :: 0 <= i < |r| ==> r[i] == Convert(inf.boxes.value[i], inf.names))
  {
    var payload := StripBase64Prefix(image);
    var inference := infer(payload);
    if inference.None? {
      return [];
    }
    var processed := ProcessResults(inference.value.boxes, inference.value.names);
    if processed.None? {
      return [];
    }
    return processed.value;
  }
}
