/** The live-scan page: it turns each list the detector forwards into a
    result (sorted by confidence, highest first, with a summary message)
    and switches detection on and off. */
module ScanPage {
  import opened Base
  import opened DetectionLoop

  /** The page's result.  A failure carries neither a top detection nor a list. */
  datatype ScanResult = ScanResult(success: bool, top: Option<Detection>, all: Option<seq<Detection>>, message: string)

  const NoWasteMessage := "No waste detected"

  /** Confidence never increases along the list. */
  predicate SortedByConfidence(s: seq<Detection>)
  {
    forall i, j :: 0 <= i < j < |s| ==> s[i].confidence >= s[j].confidence
  }

  /** The detections of `s` with confidence exactly `c`, in list order. */
  function WithConfidence(s: seq<Detection>, c: real): seq<Detection>
  {
    if |s| == 0 then []
    else (if s[0].confidence == c then [s[0]] else []) + WithConfidence(s[1..], c)
  }

  /** Putting `x` in front of a sorted list keeps it sorted when `x` is at
      least its head. */
  lemma ConsSorted(x: Detection, s: seq<Detection>)
    requires SortedByConfidence(s)
    requires |s| == 0 || x.confidence >= s[0].confidence
    ensures SortedByConfidence([x] + s)
  {
    var r := [x] + s;
    forall i, j | 0 <= i < j < |r| ensures r[i].confidence >= r[j].confidence {
      if i == 0 && j > 1 {
        assert r[1].confidence >= r[j].confidence;
      }
    }
  }

  /** Puts `d` into a list sorted highest first, ahead of every entry whose
      confidence does not exceed its own. */
  function Insert(d: Detection, s: seq<Detection>): (r: seq<Detection>)
    ensures |r| == |s| + 1
    decreases |s|
  {
    if |s| == 0 || s[0].confidence <= d.confidence then [d] + s
    else [s[0]] + Insert(d, s[1..])
  }

  /** Insertion adds `d` and loses nothing. */
  lemma {:induction false} InsertPermutes(d: Detection, s: seq<Detection>)
    ensures multiset(Insert(d, s)) == multiset(s) + multiset{d}
    decreases |s|
  {
    if |s| > 0 && s[0].confidence > d.confidence {
      InsertPermutes(d, s[1..]);
      assert s == [s[0]] + s[1..];
    }
  }

  /** Insertion into a sorted list keeps it sorted, and the new head is
      either `d` or the old head. */
  lemma {:induction false} InsertSorted(d: Detection, s: seq<Detection>)
    requires SortedByConfidence(s)
    ensures SortedByConfidence(Insert(d, s))
    ensures Insert(d, s)[0] == d || (|s| > 0 && Insert(d, s)[0] == s[0])
    decreases |s|
  {
    if |s| == 0 || s[0].confidence <= d.confidence {
      ConsSorted(d, s);
    } else {
      var tail := s[1..];
      assert SortedByConfidence(tail) by {
        forall i, j | 0 <= i < j < |tail| ensures tail[i].confidence >= tail[j].confidence {
          assert tail[i] == s[i + 1] && tail[j] == s[j + 1];
        }
      }
      InsertSorted(d, tail);
      var rest := Insert(d, tail);
      assert rest[0] == d || rest[0] == s[1];
      ConsSorted(s[0], rest);
    }
  }

  /** `[...detections].sort((a, b) => b.confidence - a.confidence)`: a stable
      sort, highest confidence first, of a copy of the list. */
  function SortByConfidence(s: seq<Detection>): (r: seq<Detection>)
    ensures multiset(r) == multiset(s)
    ensures SortedByConfidence(r)
  {
    if |s| == 0 then []
    else
      var rest := SortByConfidence(s[1..]);
      InsertPermutes(s[0], rest);
      InsertSorted(s[0], rest);
      assert s == [s[0]] + s[1..];
      Insert(s[0], rest)
  }

  /** The ties of a list with a new head: the head, if it is one, then the
      ties of the rest. */
  lemma WithConfidenceCons(x: Detection, s: seq<Detection>, c: real)
    ensures WithConfidence([x] + s, c) == (if x.confidence == c then [x] else []) + WithConfidence(s, c)
  {
    assert ([x] + s)[1..] == s;
  }

  /** Insertion puts `d` after every entry of higher confidence, so among the
      entries of any one confidence it keeps the order, with `d` first. */
  lemma {:induction false} InsertKeepsTies(d: Detection, s: seq<Detection>, c: real)
    ensures WithConfidence(Insert(d, s), c) == (if d.confidence == c then [d] else []) + WithConfidence(s, c)
    decreases |s|
  {
    if |s| == 0 || s[0].confidence <= d.confidence {
      WithConfidenceCons(d, s, c);
    } else {
      var rest := Insert(d, s[1..]);
      InsertKeepsTies(d, s[1..], c);
      WithConfidenceCons(s[0], rest, c);
      WithConfidenceCons(s[0], s[1..], c);
      assert [s[0]] + s[1..] == s;
    }
  }

  /** The sort is stable: detections of equal confidence keep the order
      the detector gave them. */
  lemma {:induction false} SortIsStable(s: seq<Detection>, c: real)
    ensures WithConfidence(SortByConfidence(s), c) == WithConfidence(s, c)
    decreases |s|
  {
    if |s| > 0 {
      SortIsStable(s[1..], c);
      InsertKeepsTies(s[0], SortByConfidence(s[1..]), c);
    }
  }

  function ClassifiedMessage(top: Detection): string
  {
    "Classified as " + top.category + " (from " + top.className + ")"
  }

  /** `handleDetection`: an empty list is a failure; otherwise the result
      lists every detection, highest confidence first, and leads with one
      that no other detection beats. */
  function HandleDetection(ds: seq<Detection>): (r: ScanResult)
    ensures r.success <==> |ds| > 0
    ensures |ds| == 0 ==> r == ScanResult(false, None, None, NoWasteMessage)
    ensures |ds| > 0 ==>
      && r.all.Some? && multiset(r.all.value) == multiset(ds) && SortedByConfidence(r.all.value)
      && r.top == Some(r.all.value[0]) && r.top.value in ds
      && (forall d :: d in ds ==> r.top.value.confidence >= d.confidence)
      && r.message == ClassifiedMessage(r.top.value)
  {
    if |ds| == 0 then ScanResult(false, None, None, NoWasteMessage)
    else
      var sorted := SortByConfidence(ds);
      assert sorted[0] in multiset(ds);
      assert forall d :: d in ds ==> d in sorted by {
        forall d | d in ds ensures d in sorted {
          assert d in multiset(sorted);
        }
      }
      ScanResult(true, Some(sorted[0]), Some(sorted), ClassifiedMessage(sorted[0]))
  }

  function ExampleFrame(b: Box): seq<RawDetection>
  {
    [RawDetection("bottle", 0.9, b), RawDetection("cup", 0.3, b), RawDetection("Fork", 0.6, b)]
  }

  lemma ExampleFiltered(t: LabelTable, b: Box)
    ensures ProcessDetections(t, ExampleFrame(b)) == [Classify(t, ExampleFrame(b)[0]), Classify(t, ExampleFrame(b)[2])]
  {
    var raw := ExampleFrame(b);
    assert raw[..2][..1] == [raw[0]] && [raw[0]][..0] == [];
    assert ProcessDetections(t, raw[..2][..1]) == [Classify(t, raw[0])];
    assert ProcessDetections(t, raw[..2]) == [Classify(t, raw[0])];
  }

  /** Scores 0.9, 0.3 and 0.6: the 0.3 detection is filtered out, and the
      result lists 0.9 then 0.6 and leads with 0.9. */
  lemma WorkedExample(t: LabelTable, b: Box)
    ensures var r := HandleDetection(ProcessDetections(t, ExampleFrame(b)));
      r.success && r.top.value.confidence == 0.9 && |r.all.value| == 2 && r.all.value[1].confidence == 0.6
  {
    ExampleFiltered(t, b);
    var p := ProcessDetections(t, ExampleFrame(b));
    var all := HandleDetection(p).all.value;
    assert multiset(all) == multiset(p);
    assert |all| == 2 by {
      assert |multiset(all)| == |multiset(p)|;
    }
    assert all[0] in multiset(p) && all[1] in multiset(p);
    assert p[0].confidence == 0.9 && p[1].confidence == 0.6;
    assert all[0].confidence >= all[1].confidence;
  }

  /** The page's detection state. */
  datatype ScanSession = ScanSession(detecting: bool, result: Option<ScanResult>, error: Option<string>)

  /** `handleStartDetection`: detection on, error cleared. */
  function StartDetection(s: ScanSession): (r: ScanSession)
    ensures r.detecting && r.error.None? && r.result == s.result
  {
    s.(detecting := true, error := None)
  }

  /** `handleStopDetection`: detection off, nothing else touched. */
  function StopDetection(s: ScanSession): (r: ScanSession)
    ensures !r.detecting && r.error == s.error && r.result == s.result
  {
    s.(detecting := false)
  }

  /** Starting twice is starting once, and likewise stopping. */
  lemma StartStopIdempotent(s: ScanSession)
    ensures StartDetection(StartDetection(s)) == StartDetection(s)
    ensures StopDetection(StopDetection(s)) == StopDetection(s)
  {
  }

  /** The callback the detector calls with each forwarded list. */
  function OnDetection(s: ScanSession, ds: seq<Detection>): (r: ScanSession)
    ensures r.detecting == s.detecting && r.error == s.error
    ensures r.result.Some? && (r.result.value.success <==> |ds| > 0)
  {
    s.(result := Some(HandleDetection(ds)))
  }
}
