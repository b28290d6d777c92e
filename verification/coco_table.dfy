/** The backend's waste categories and its COCO→waste-category table.
    The source writes the table as one dictionary literal of 80 entries.
    Here the same entries are split into one map per name length, and
    `BackendDetection.CocoToWasteCategory` is their union.  The split is
    only a proof device: maps of different name lengths cannot share a
    key, so the number of distinct names can be counted one small group
    at a time. */
module CocoTable {
  import opened NameGroups

  /** The backend's six waste categories. */
  datatype WasteCategory = EWasteUseful | EWasteNotUseful | NonOrganic | Biogas | Compost | Unknown
  {
    /** The wire value of the category. */
    function Value(): string
    {
      match this
      case EWasteUseful => "e-waste-useful"
      case EWasteNotUseful => "e-waste-not-useful"
      case NonOrganic => "non-organic"
      case Biogas => "biogas"
      case Compost => "compost"
      case Unknown => "unknown"
    }
  }

  /** No two categories share a wire value. */
  lemma ValuesDistinct(a: WasteCategory, b: WasteCategory)
    ensures a.Value() == b.Value() <==> a == b
  {
  }

  type NameTable = map<string, WasteCategory>

  // The table of the 80 COCO class names, written as one map per name
  // length (in the source's order inside each group), so that the number
  // of distinct names can be counted one group at a time.

  const NamesOfLength2: NameTable := map[
    "tv" := EWasteNotUseful
  ]

  const NamesOfLength3: NameTable := map[
    "car" := Unknown, "bus" := Unknown, "cat" := Unknown, "dog" := Unknown, "cow" := Unknown,
    "tie" := NonOrganic, "cup" := NonOrganic, "bed" := NonOrganic
  ]

  const NamesOfLength4: NameTable := map[
    "boat" := Unknown, "bird" := Unknown, "bear" := Unknown, "skis" := NonOrganic,
    "kite" := NonOrganic, "fork" := NonOrganic, "bowl" := NonOrganic, "cake" := Biogas,
    "oven" := EWasteNotUseful, "sink" := NonOrganic, "book" := NonOrganic, "vase" := NonOrganic
  ]

  const NamesOfLength5: NameTable := map[
    "train" := Unknown, "truck" := Unknown, "horse" := Unknown, "sheep" := Unknown,
    "zebra" := Unknown, "knife" := NonOrganic, "spoon" := NonOrganic, "apple" := Compost,
    "pizza" := Biogas, "donut" := Biogas, "chair" := NonOrganic, "couch" := NonOrganic,
    "mouse" := EWasteNotUseful, "clock" := EWasteUseful, "bench" := NonOrganic
  ]

  const NamesOfLength6: NameTable := map[
    "person" := Unknown, "bottle" := NonOrganic, "banana" := Compost, "orange" := Compost,
    "carrot" := Compost, "toilet" := NonOrganic, "laptop" := EWasteUseful,
    "remote" := EWasteUseful
  ]

  const NamesOfLength7: NameTable := map[
    "bicycle" := EWasteUseful, "giraffe" := Unknown, "handbag" := NonOrganic,
    "frisbee" := NonOrganic, "hot dog" := Biogas, "toaster" := EWasteNotUseful
  ]

  const NamesOfLength8: NameTable := map[
    "airplane" := Unknown, "elephant" := Unknown, "backpack" := NonOrganic,
    "umbrella" := NonOrganic, "suitcase" := NonOrganic, "sandwich" := Biogas,
    "broccoli" := Compost, "keyboard" := EWasteNotUseful, "scissors" := NonOrganic
  ]

  const NamesOfLength9: NameTable := map[
    "snowboard" := NonOrganic, "surfboard" := NonOrganic, "microwave" := EWasteNotUseful,
    "stop sign" := NonOrganic
  ]

  const NamesOfLength10: NameTable := map[
    "motorcycle" := Unknown, "skateboard" := NonOrganic, "wine glass" := NonOrganic,
    "cell phone" := EWasteUseful, "teddy bear" := NonOrganic, "hair drier" := EWasteNotUseful,
    "toothbrush" := NonOrganic
  ]

  const NamesOfLength11: NameTable := map[
    "sports ball" := NonOrganic
  ]

  const NamesOfLength12: NameTable := map[
    "baseball bat" := NonOrganic, "potted plant" := Compost, "dining table" := NonOrganic,
    "refrigerator" := EWasteNotUseful, "fire hydrant" := Unknown
  ]

  const NamesOfLength13: NameTable := map[
    "tennis racket" := NonOrganic, "traffic light" := EWasteNotUseful,
    "parking meter" := EWasteNotUseful
  ]

  const NamesOfLength14: NameTable := map[
    "baseball glove" := NonOrganic
  ]

  // Every group holds names of its own length only.

  lemma Group2Lengths() ensures AllOfLength(NamesOfLength2, 2) { }
  lemma Group3Lengths() ensures AllOfLength(NamesOfLength3, 3) { }
  lemma Group4Lengths() ensures AllOfLength(NamesOfLength4, 4) { }
  lemma Group5Lengths() ensures AllOfLength(NamesOfLength5, 5) { }
  lemma Group6Lengths() ensures AllOfLength(NamesOfLength6, 6) { }
  lemma Group7Lengths() ensures AllOfLength(NamesOfLength7, 7) { }
  lemma Group8Lengths() ensures AllOfLength(NamesOfLength8, 8) { }
  lemma Group9Lengths() ensures AllOfLength(NamesOfLength9, 9) { }
  lemma Group10Lengths() ensures AllOfLength(NamesOfLength10, 10) { }
  lemma Group11Lengths() ensures AllOfLength(NamesOfLength11, 11) { }
  lemma Group12Lengths() ensures AllOfLength(NamesOfLength12, 12) { }
  lemma Group13Lengths() ensures AllOfLength(NamesOfLength13, 13) { }
  lemma Group14Lengths() ensures AllOfLength(NamesOfLength14, 14) { }

  // Each group's size, counted one name at a time.

  lemma Group2Size() ensures |NamesOfLength2.Keys| == 1 { }
  lemma Group3Keys()
    ensures NamesOfLength3.Keys == {
        "car", "bus", "cat", "dog", "cow", "tie", "cup", "bed"
      }
  {
  }
  lemma Group3Distinct()
    ensures |{
        "car", "bus", "cat", "dog", "cow", "tie", "cup", "bed"
      }| == 8
  {
    assert |{"car", "bus"}| == 2;
    assert |{"car", "bus", "cat"}| == 3;
    assert |{"car", "bus", "cat", "dog"}| == 4;
    assert |{"car", "bus", "cat", "dog", "cow"}| == 5;
    assert |{"car", "bus", "cat", "dog", "cow", "tie"}| == 6;
    assert |{"car", "bus", "cat", "dog", "cow", "tie", "cup"}| == 7;
  }
  lemma Group3Size() ensures |NamesOfLength3.Keys| == 8
  {
    Group3Keys();
    Group3Distinct();
  }
  lemma Group4Keys()
    ensures NamesOfLength4.Keys == {
        "boat", "bird", "bear", "skis", "kite", "fork", "bowl", "cake", "oven", "sink", "book",
        "vase"
      }
  {
  }
  lemma Group4Distinct()
    ensures |{
        "boat", "bird", "bear", "skis", "kite", "fork", "bowl", "cake", "oven", "sink", "book",
        "vase"
      }| == 12
  {
    assert |{"boat", "bird"}| == 2;
    assert |{"boat", "bird", "bear"}| == 3;
    assert |{"boat", "bird", "bear", "skis"}| == 4;
    assert |{"boat", "bird", "bear", "skis", "kite"}| == 5;
    assert |{"boat", "bird", "bear", "skis", "kite", "fork"}| == 6;
    assert |{"boat", "bird", "bear", "skis", "kite", "fork", "bowl"}| == 7;
    assert |{"boat", "bird", "bear", "skis", "kite", "fork", "bowl", "cake"}| == 8;
    assert |{"boat", "bird", "bear", "skis", "kite", "fork", "bowl", "cake", "oven"}| == 9;
    assert |{"boat", "bird", "bear", "skis", "kite", "fork", "bowl", "cake", "oven", "sink"}| == 10;
    assert |{"boat", "bird", "bear", "skis", "kite", "fork", "bowl", "cake", "oven", "sink", "book"}| == 11;
  }
  lemma Group4Size() ensures |NamesOfLength4.Keys| == 12
  {
    Group4Keys();
    Group4Distinct();
  }
  lemma Group5Keys()
    ensures NamesOfLength5.Keys == {
        "train", "truck", "horse", "sheep", "zebra", "knife", "spoon", "apple", "pizza",
        "donut", "chair", "couch", "mouse", "clock", "bench"
      }
  {
  }
  lemma Group5Distinct()
    ensures |{
        "train", "truck", "horse", "sheep", "zebra", "knife", "spoon", "apple", "pizza",
        "donut", "chair", "couch", "mouse", "clock", "bench"
      }| == 15
  {
    assert |{"train", "truck"}| == 2;
    assert |{"train", "truck", "horse"}| == 3;
    assert |{"train", "truck", "horse", "sheep"}| == 4;
    assert |{"train", "truck", "horse", "sheep", "zebra"}| == 5;
    assert |{"train", "truck", "horse", "sheep", "zebra", "knife"}| == 6;
    assert |{"train", "truck", "horse", "sheep", "zebra", "knife", "spoon"}| == 7;
    assert |{"train", "truck", "horse", "sheep", "zebra", "knife", "spoon", "apple"}| == 8;
    assert |{"train", "truck", "horse", "sheep", "zebra", "knife", "spoon", "apple", "pizza"}| == 9;
    assert |{"train", "truck", "horse", "sheep", "zebra", "knife", "spoon", "apple", "pizza", "donut"}| == 10;
    assert |{"train", "truck", "horse", "sheep", "zebra", "knife", "spoon", "apple", "pizza", "donut", "chair"}| == 11;
    assert |{"train", "truck", "horse", "sheep", "zebra", "knife", "spoon", "apple", "pizza", "donut", "chair", "couch"}| == 12;
    assert |{"train", "truck", "horse", "sheep", "zebra", "knife", "spoon", "apple", "pizza", "donut", "chair", "couch", "mouse"}| == 13;
    assert |{"train", "truck", "horse", "sheep", "zebra", "knife", "spoon", "apple", "pizza", "donut", "chair", "couch", "mouse", "clock"}| == 14;
  }
  lemma Group5Size() ensures |NamesOfLength5.Keys| == 15
  {
    Group5Keys();
    Group5Distinct();
  }
  lemma Group6Keys()
    ensures NamesOfLength6.Keys == {
        "person", "bottle", "banana", "orange", "carrot", "toilet", "laptop", "remote"
      }
  {
  }
  lemma Group6Distinct()
    ensures |{
        "person", "bottle", "banana", "orange", "carrot", "toilet", "laptop", "remote"
      }| == 8
  {
    assert |{"person", "bottle"}| == 2;
    assert |{"person", "bottle", "banana"}| == 3;
    assert |{"person", "bottle", "banana", "orange"}| == 4;
    assert |{"person", "bottle", "banana", "orange", "carrot"}| == 5;
    assert |{"person", "bottle", "banana", "orange", "carrot", "toilet"}| == 6;
    assert |{"person", "bottle", "banana", "orange", "carrot", "toilet", "laptop"}| == 7;
  }
  lemma Group6Size() ensures |NamesOfLength6.Keys| == 8
  {
    Group6Keys();
    Group6Distinct();
  }
  lemma Group7Keys()
    ensures NamesOfLength7.Keys == {
        "bicycle", "giraffe", "handbag", "frisbee", "hot dog", "toaster"
      }
  {
  }
  lemma Group7Distinct()
    ensures |{
        "bicycle", "giraffe", "handbag", "frisbee", "hot dog", "toaster"
      }| == 6
  {
    assert |{"bicycle", "giraffe"}| == 2;
    assert |{"bicycle", "giraffe", "handbag"}| == 3;
    assert |{"bicycle", "giraffe", "handbag", "frisbee"}| == 4;
    assert |{"bicycle", "giraffe", "handbag", "frisbee", "hot dog"}| == 5;
  }
  lemma Group7Size() ensures |NamesOfLength7.Keys| == 6
  {
    Group7Keys();
    Group7Distinct();
  }
  lemma Group8Keys()
    ensures NamesOfLength8.Keys == {
        "airplane", "elephant", "backpack", "umbrella", "suitcase", "sandwich", "broccoli",
        "keyboard", "scissors"
      }
  {
  }
  lemma Group8Distinct()
    ensures |{
        "airplane", "elephant", "backpack", "umbrella", "suitcase", "sandwich", "broccoli",
        "keyboard", "scissors"
      }| == 9
  {
    assert |{"airplane", "elephant"}| == 2;
    assert |{"airplane", "elephant", "backpack"}| == 3;
    assert |{"airplane", "elephant", "backpack", "umbrella"}| == 4;
    assert |{"airplane", "elephant", "backpack", "umbrella", "suitcase"}| == 5;
    assert |{"airplane", "elephant", "backpack", "umbrella", "suitcase", "sandwich"}| == 6;
    assert |{"airplane", "elephant", "backpack", "umbrella", "suitcase", "sandwich", "broccoli"}| == 7;
    assert |{"airplane", "elephant", "backpack", "umbrella", "suitcase", "sandwich", "broccoli", "keyboard"}| == 8;
  }
  lemma Group8Size() ensures |NamesOfLength8.Keys| == 9
  {
    Group8Keys();
    Group8Distinct();
  }
  lemma Group9Keys()
    ensures NamesOfLength9.Keys == {
        "snowboard", "surfboard", "microwave", "stop sign"
      }
  {
  }
  lemma Group9Distinct()
    ensures |{
        "snowboard", "surfboard", "microwave", "stop sign"
      }| == 4
  {
    assert |{"snowboard", "surfboard"}| == 2;
    assert |{"snowboard", "surfboard", "microwave"}| == 3;
  }
  lemma Group9Size() ensures |NamesOfLength9.Keys| == 4
  {
    Group9Keys();
    Group9Distinct();
  }
  lemma Group10Keys()
    ensures NamesOfLength10.Keys == {
        "motorcycle", "skateboard", "wine glass", "cell phone", "teddy bear", "hair drier",
        "toothbrush"
      }
  {
  }
  lemma Group10Distinct()
    ensures |{
        "motorcycle", "skateboard", "wine glass", "cell phone", "teddy bear", "hair drier",
        "toothbrush"
      }| == 7
  {
    assert |{"motorcycle", "skateboard"}| == 2;
    assert |{"motorcycle", "skateboard", "wine glass"}| == 3;
    assert |{"motorcycle", "skateboard", "wine glass", "cell phone"}| == 4;
    assert |{"motorcycle", "skateboard", "wine glass", "cell phone", "teddy bear"}| == 5;
    assert |{"motorcycle", "skateboard", "wine glass", "cell phone", "teddy bear", "hair drier"}| == 6;
  }
  lemma Group10Size() ensures |NamesOfLength10.Keys| == 7
  {
    Group10Keys();
    Group10Distinct();
  }
  lemma Group11Size() ensures |NamesOfLength11.Keys| == 1 { }
  lemma Group12Keys()
    ensures NamesOfLength12.Keys == {
        "baseball bat", "potted plant", "dining table", "refrigerator", "fire hydrant"
      }
  {
  }
  lemma Group12Distinct()
    ensures |{
        "baseball bat", "potted plant", "dining table", "refrigerator", "fire hydrant"
      }| == 5
  {
    assert |{"baseball bat", "potted plant"}| == 2;
    assert |{"baseball bat", "potted plant", "dining table"}| == 3;
    assert |{"baseball bat", "potted plant", "dining table", "refrigerator"}| == 4;
  }
  lemma Group12Size() ensures |NamesOfLength12.Keys| == 5
  {
    Group12Keys();
    Group12Distinct();
  }
  lemma Group13Keys()
    ensures NamesOfLength13.Keys == {
        "tennis racket", "traffic light", "parking meter"
      }
  {
  }
  lemma Group13Distinct()
    ensures |{
        "tennis racket", "traffic light", "parking meter"
      }| == 3
  {
    assert |{"tennis racket", "traffic light"}| == 2;
  }
  lemma Group13Size() ensures |NamesOfLength13.Keys| == 3
  {
    Group13Keys();
    Group13Distinct();
  }
  lemma Group14Size() ensures |NamesOfLength14.Keys| == 1 { }

  /** Sample entries of the groups. */
  lemma SampleGroupEntries()
    ensures "bottle" in NamesOfLength6 && NamesOfLength6["bottle"] == NonOrganic
    ensures "banana" in NamesOfLength6 && NamesOfLength6["banana"] == Compost
    ensures "laptop" in NamesOfLength6 && NamesOfLength6["laptop"] == EWasteUseful
    ensures "person" in NamesOfLength6 && NamesOfLength6["person"] == Unknown
    ensures "Bottle" !in NamesOfLength6 && "hammer" !in NamesOfLength6
  {
  }
}
