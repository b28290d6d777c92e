/** One cycle of the live webcam detector, as both `WebcamDetection`
    components run it: the detector's raw output is filtered by score,
    each survivor's label is looked up in the label→category table, boxes
    are drawn, the non-empty list is forwarded, and the cycle decides
    whether another one is scheduled.  The two components differ only in
    the category used for labels the table lacks, which is part of the
    `LabelTable` here. */
module DetectionLoop {
  import opened Base

  /** `[x, y, width, height]` in frame pixels. */
  datatype Box = Box(x: real, y: real, width: real, height: real)

  /** One entry of the in-browser detector's output. */
  datatype RawDetection = RawDetection(cls: string, score: real, bbox: Box)

  /** A classified detection as the page consumes it; `bbox` may be absent
      on detections that come back from the server. */
  datatype Detection = Detection(className: string, category: string, confidence: real, bbox: Option<Box>)

  /** The label→category table (keys are lower-case labels) and the
      category used when a label has no usable entry. */
  datatype LabelTable = LabelTable(entries: map<string, string>, fallback: string)

  /** Raw detections must score strictly above this to survive. */
  const ScoreThreshold: real := 0.5

  /** `table[name.toLowerCase()] || fallback`: an absent key and an empty
      entry both give the fallback. */
  function Categorize(t: LabelTable, name: string): (r: string)
    ensures r == t.fallback || r in t.entries.Values
    ensures Lower(name) in t.entries && t.entries[Lower(name)] != "" ==> r == t.entries[Lower(name)]
    ensures Lower(name) !in t.entries || t.entries[Lower(name)] == "" ==> r == t.fallback
  {
    var key := Lower(name);
    if key in t.entries && t.entries[key] != "" then t.entries[key] else t.fallback
  }

  /** The lookup does not see the case of the name. */
  lemma CategorizeIgnoresCase(t: LabelTable, a: string, b: string)
    requires Lower(a) == Lower(b)
    ensures Categorize(t, a) == Categorize(t, b)
  {
  }

  /** The detection built from one surviving raw detection: the class name
      in its own case, its score and its box, and the category of its
      lower-cased name. */
  function Classify(t: LabelTable, raw: RawDetection): (d: Detection)
    ensures d.className == raw.cls && d.confidence == raw.score && d.bbox == Some(raw.bbox)
    ensures d.category == Categorize(t, raw.cls)
    ensures d.category == t.fallback || d.category in t.entries.Values
  {
    Detection(raw.cls, Categorize(t, raw.cls), raw.score, Some(raw.bbox))
  }

  /** `detections.filter(d => d.score > 0.5).map(...)`. */
  function ProcessDetections(t: LabelTable, raw: seq<RawDetection>): (r: seq<Detection>)
    ensures |r| <= |raw|
    ensures forall d :: d in r ==> d.confidence > ScoreThreshold && d.bbox.Some?
    decreases |raw|
  {
    if |raw| == 0 then []
    else
      var last := raw[|raw| - 1];
      ProcessDetections(t, raw[..|raw| - 1]) + (if last.score > ScoreThreshold then [Classify(t, last)] else [])
  }

  /** The positions of the raw detections that pass the score filter, in
      detector order. */
  ghost function Survivors(raw: seq<RawDetection>): (idx: seq<nat>)
    ensures forall k :: 0 <= k < |idx| ==> idx[k] < |raw| && raw[idx[k]].score > ScoreThreshold
    ensures forall k, m :: 0 <= k < m < |idx| ==> idx[k] < idx[m]
    ensures forall i :: 0 <= i < |raw| && raw[i].score > ScoreThreshold ==> i in idx
    decreases |raw|
  {
    if |raw| == 0 then []
    else Survivors(raw[..|raw| - 1]) + (if raw[|raw| - 1].score > ScoreThreshold then [|raw| - 1] else [])
  }

  /** One processed detection per survivor. */
  lemma {:induction false} ProcessedCount(t: LabelTable, raw: seq<RawDetection>)
    ensures |ProcessDetections(t, raw)| == |Survivors(raw)|
    decreases |raw|
  {
    if |raw| > 0 {
      ProcessedCount(t, raw[..|raw| - 1]);
    }
  }

  /** The processed list is exactly the survivors, in detector order, each
      keeping its original class name, score and box and getting the
      table's category for its lower-cased name. */
  lemma {:induction false} ProcessedAreSurvivors(t: LabelTable, raw: seq<RawDetection>)
    ensures |ProcessDetections(t, raw)| == |Survivors(raw)|
    ensures forall k :: 0 <= k < |Survivors(raw)| ==>
      ProcessDetections(t, raw)[k] == Classify(t, raw[Survivors(raw)[k]])
    decreases |raw|
  {
    ProcessedCount(t, raw);
    if |raw| > 0 {
      var init := raw[..|raw| - 1];
      var last := raw[|raw| - 1];
      ProcessedAreSurvivors(t, init);
      var p, s := ProcessDetections(t, init), Survivors(init);
      if last.score > ScoreThreshold {
        assert ProcessDetections(t, raw) == p + [Classify(t, last)];
        assert Survivors(raw) == s + [|raw| - 1];
        forall k | 0 <= k < |Survivors(raw)|
          ensures ProcessDetections(t, raw)[k] == Classify(t, raw[Survivors(raw)[k]])
        {
          if k < |s| {
            assert (p + [Classify(t, last)])[k] == p[k];
            assert (s + [|raw| - 1])[k] == s[k];
            assert raw[s[k]] == init[s[k]];
          } else {
            assert (p + [Classify(t, last)])[k] == Classify(t, last);
            assert (s + [|raw| - 1])[k] == |raw| - 1;
          }
        }
      } else {
        assert ProcessDetections(t, raw) == p + [];
        assert Survivors(raw) == s + [];
        forall k | 0 <= k < |s|
          ensures p[k] == Classify(t, raw[s[k]])
        {
          assert raw[s[k]] == init[s[k]];
        }
      }
    }
  }

  /** A raw detection scoring exactly the threshold is dropped. */
  lemma ThresholdIsStrict(t: LabelTable, cls: string, b: Box)
    ensures ProcessDetections(t, [RawDetection(cls, ScoreThreshold, b)]) == []
  {
    assert [RawDetection(cls, ScoreThreshold, b)][..0] == [];
  }

  /** The boxes `drawBoundingBoxes` strokes, in list order: detections
      without a box are skipped. */
  function DrawnBoxes(ds: seq<Detection>): (r: seq<Box>)
    ensures |r| <= |ds|
  {
    if |ds| == 0 then []
    else (if ds[0].bbox.Some? then [ds[0].bbox.value] else []) + DrawnBoxes(ds[1..])
  }

  /** Every box drawn is some detection's box. */
  lemma {:induction false} DrawnBoxesFromDetections(ds: seq<Detection>)
    ensures forall b :: b in DrawnBoxes(ds) ==> exists d :: d in ds && d.bbox == Some(b)
    decreases |ds|
  {
    if |ds| > 0 {
      var tail := ds[1..];
      DrawnBoxesFromDetections(tail);
      assert forall d :: d in tail ==> d in ds;
      assert ds[0] in ds;
    }
  }

  /** When every detection has a box, the boxes drawn are theirs, one for
      one and in order. */
  lemma {:induction false} DrawnBoxesOneForOne(ds: seq<Detection>)
    requires forall d :: d in ds ==> d.bbox.Some?
    ensures |DrawnBoxes(ds)| == |ds|
    ensures forall i :: 0 <= i < |ds| ==> DrawnBoxes(ds)[i] == ds[i].bbox.value
    decreases |ds|
  {
    if |ds| > 0 {
      var tail := ds[1..];
      assert forall d :: d in tail ==> d in ds;
      DrawnBoxesOneForOne(tail);
      assert ds[0] in ds;
      assert DrawnBoxes(ds) == [ds[0].bbox.value] + DrawnBoxes(tail);
      forall i | 0 <= i < |ds| ensures DrawnBoxes(ds)[i] == ds[i].bbox.value {
        if i > 0 { assert ds[i] == tail[i - 1]; }
      }
    }
  }

  /** The positions, from `from` on, of the detections that carry a box, in
      list order. */
  ghost function BoxedFrom(ds: seq<Detection>, from: nat): (idx: seq<nat>)
    requires from <= |ds|
    ensures forall k :: 0 <= k < |idx| ==> from <= idx[k] < |ds| && ds[idx[k]].bbox.Some?
    ensures forall k, m :: 0 <= k < m < |idx| ==> idx[k] < idx[m]
    ensures forall i :: from <= i < |ds| && ds[i].bbox.Some? ==> i in idx
    decreases |ds| - from
  {
    if from == |ds| then []
    else (if ds[from].bbox.Some? then [from] else []) + BoxedFrom(ds, from + 1)
  }

  /** The boxes drawn for a suffix are the boxes of its boxed detections. */
  lemma {:induction false} DrawnBoxesFrom(ds: seq<Detection>, from: nat)
    requires from <= |ds|
    ensures |DrawnBoxes(ds[from..])| == |BoxedFrom(ds, from)|
    ensures forall k :: 0 <= k < |BoxedFrom(ds, from)| ==>
      DrawnBoxes(ds[from..])[k] == ds[BoxedFrom(ds, from)[k]].bbox.value
    decreases |ds| - from
  {
    if from < |ds| {
      DrawnBoxesFrom(ds, from + 1);
      assert ds[from..][1..] == ds[from + 1..];
      assert ds[from..][0] == ds[from];
      var rest, restIdx := DrawnBoxes(ds[from + 1..]), BoxedFrom(ds, from + 1);
      if ds[from].bbox.Some? {
        var b := ds[from].bbox.value;
        assert DrawnBoxes(ds[from..]) == [b] + rest;
        assert BoxedFrom(ds, from) == [from] + restIdx;
        forall k | 0 <= k < |[from] + restIdx|
          ensures ([b] + rest)[k] == ds[([from] + restIdx)[k]].bbox.value
        {
          if k > 0 {
            assert ([b] + rest)[k] == rest[k - 1];
            assert ([from] + restIdx)[k] == restIdx[k - 1];
          }
        }
      } else {
        assert DrawnBoxes(ds[from..]) == [] + rest;
        assert BoxedFrom(ds, from) == [] + restIdx;
      }
    }
  }

  /** Drawing skips exactly the detections without a box: the boxes drawn
      are, one for one and in list order, the boxes of the detections that
      have one, and every such box is drawn. */
  lemma DrawnBoxesAreBoxed(ds: seq<Detection>)
    ensures |DrawnBoxes(ds)| == |BoxedFrom(ds, 0)|
    ensures forall k :: 0 <= k < |BoxedFrom(ds, 0)| ==>
      DrawnBoxes(ds)[k] == ds[BoxedFrom(ds, 0)[k]].bbox.value
    ensures forall i :: 0 <= i < |ds| && ds[i].bbox.Some? ==> ds[i].bbox.value in DrawnBoxes(ds)
  {
    DrawnBoxesFrom(ds, 0);
    assert ds[0..] == ds;
    var idx := BoxedFrom(ds, 0);
    forall i | 0 <= i < |ds| && ds[i].bbox.Some?
      ensures ds[i].bbox.value in DrawnBoxes(ds)
    {
      var k :| 0 <= k < |idx| && idx[k] == i;
      assert DrawnBoxes(ds)[k] == ds[i].bbox.value;
    }
  }

  /** What one cycle does: `drawn` is None when the canvas is left alone,
      otherwise the boxes drawn after clearing it; `emitted` is the list
      handed to `onDetection`, if any; `reschedule` says whether another
      cycle is queued. */
  datatype CycleOutcome = CycleOutcome(drawn: Option<seq<Box>>, emitted: Option<seq<Detection>>, reschedule: bool)

  const Halted := CycleOutcome(None, None, false)

  /** The world one client-side cycle sees.  `detecting` is the value of
      `isDetecting` captured when the cycle's callback was created; `raw` is
      the detector's output, None when `model.detect` rejects;
      `detectingNow` is the page's flag at the moment the detector returns. */
  datatype ClientInputs = ClientInputs(
    detecting: bool, modelLoaded: bool, refsMounted: bool, videoReady: bool,
    raw: Option<seq<RawDetection>>, detectingNow: bool)

  predicate ClientGuardsPass(inp: ClientInputs)
  {
    inp.detecting && inp.modelLoaded && inp.refsMounted && inp.videoReady
  }

  /** `detectObjectsClientSide` as written: the closing `if (isDetecting)`
      reads the captured flag, which the opening guard has already seen true.
      The detector call has no `catch`, so a rejection ends the callback
      before it draws, forwards or schedules anything. */
  function ClientCycle(t: LabelTable, inp: ClientInputs): (r: CycleOutcome)
    ensures !ClientGuardsPass(inp) || inp.raw.None? ==> r == Halted
    ensures r.reschedule <==> ClientGuardsPass(inp) && inp.raw.Some?
    ensures r.emitted.Some? ==> |r.emitted.value| > 0 && r.drawn.Some?
    ensures r.emitted.Some? ==> forall d :: d in r.emitted.value ==> d.confidence > ScoreThreshold
  {
    if !ClientGuardsPass(inp) || inp.raw.None? then Halted
    else
      var processed := ProcessDetections(t, inp.raw.value);
      CycleOutcome(
        Some(DrawnBoxes(processed)),
        if |processed| > 0 then Some(processed) else None,
        inp.detecting)
  }

  /** The processed list is non-empty exactly when some raw detection
      clears the threshold. */
  lemma {:induction false} ProcessedNonEmpty(t: LabelTable, raw: seq<RawDetection>)
    ensures |ProcessDetections(t, raw)| > 0 <==> exists i :: 0 <= i < |raw| && raw[i].score > ScoreThreshold
    decreases |raw|
  {
    if |raw| > 0 {
      var init := raw[..|raw| - 1];
      ProcessedNonEmpty(t, init);
      if raw[|raw| - 1].score <= ScoreThreshold {
        assert ProcessDetections(t, raw) == ProcessDetections(t, init) + [];
        if exists i :: 0 <= i < |raw| && raw[i].score > ScoreThreshold {
          var i :| 0 <= i < |raw| && raw[i].score > ScoreThreshold;
          assert init[i] == raw[i];
        }
        if exists i :: 0 <= i < |init| && init[i].score > ScoreThreshold {
          var i :| 0 <= i < |init| && init[i].score > ScoreThreshold;
          assert raw[i] == init[i];
        }
      }
    }
  }

  /** A cycle that passes its guards forwards exactly when some raw
      detection clears the threshold, and draws one box per forwarded
      detection. */
  lemma ClientCycleForwardsSurvivors(t: LabelTable, inp: ClientInputs)
    requires ClientGuardsPass(inp)
    ensures ClientCycle(t, inp).emitted.Some? <==>
      inp.raw.Some? && exists i :: 0 <= i < |inp.raw.value| && inp.raw.value[i].score > ScoreThreshold
    ensures ClientCycle(t, inp).emitted.Some? ==>
      ClientCycle(t, inp).emitted.value == ProcessDetections(t, inp.raw.value)
      && |ClientCycle(t, inp).drawn.value| == |ClientCycle(t, inp).emitted.value|
  {
    if inp.raw.Some? {
      ProcessedNonEmpty(t, inp.raw.value);
      DrawnBoxesOneForOne(ProcessDetections(t, inp.raw.value));
    }
  }

  /** Finding, as written: a stop that lands while the detector is busy does
      not stop the client loop, because the reschedule test ignores the
      page's current flag. */
  lemma ClientStopIgnoredWhileDetecting(t: LabelTable)
    ensures ClientCycle(t, ClientInputs(true, true, true, true, Some([]), false)).reschedule
  {
  }

  /** The client cycle with the closing test reading the page's current
      flag, as the loop's stop is evidently meant to work. */
  function ClientCycleFixed(t: LabelTable, inp: ClientInputs): (r: CycleOutcome)
    ensures r.reschedule <==> ClientGuardsPass(inp) && inp.raw.Some? && inp.detectingNow
    ensures r.emitted == ClientCycle(t, inp).emitted && r.drawn == ClientCycle(t, inp).drawn
  {
    var written := ClientCycle(t, inp);
    written.(reschedule := written.reschedule && inp.detectingNow)
  }

  /** The response of the server's detection endpoint, as the client sees it. */
  datatype ServerResponse = ServerResponse(success: bool, allDetections: Option<seq<Detection>>)

  /** The world one server-side cycle sees.  `screenshot` is None when the
      camera yields no image; `response` is None when the call threw. */
  datatype ServerInputs = ServerInputs(
    detecting: bool, refsMounted: bool, videoReady: bool,
    screenshot: Option<string>, response: Option<ServerResponse>, detectingNow: bool)

  predicate ServerGuardsPass(inp: ServerInputs)
  {
    inp.detecting && inp.refsMounted && inp.videoReady
  }

  /** True when the screenshot is present and non-empty (`if (!imageSrc) return`). */
  predicate HasScreenshot(inp: ServerInputs)
  {
    inp.screenshot.Some? && inp.screenshot.value != ""
  }

  /** True when the response is forwarded: `success`, a list, and a non-empty one. */
  predicate Forwardable(resp: ServerResponse)
  {
    resp.success && resp.allDetections.Some? && |resp.allDetections.value| > 0
  }

  /** `detectObjectsServerSide` as written: the server's list is forwarded
      unchanged, and the next cycle is queued on both the normal and the
      error path from the captured flag. */
  function ServerCycle(inp: ServerInputs): (r: CycleOutcome)
    ensures !ServerGuardsPass(inp) || !HasScreenshot(inp) ==> r == Halted
    ensures r.reschedule <==> ServerGuardsPass(inp) && HasScreenshot(inp)
    ensures r.emitted.Some? <==> ServerGuardsPass(inp) && HasScreenshot(inp) && inp.response.Some? && Forwardable(inp.response.value)
    ensures r.emitted.Some? ==> r.emitted == inp.response.value.allDetections && r.drawn == Some(DrawnBoxes(r.emitted.value))
    ensures r.emitted.None? ==> r.drawn.None?
  {
    if !ServerGuardsPass(inp) || !HasScreenshot(inp) then Halted
    else match inp.response
      case None => CycleOutcome(None, None, inp.detecting)
      case Some(resp) =>
        if Forwardable(resp) then
          CycleOutcome(Some(DrawnBoxes(resp.allDetections.value)), resp.allDetections, inp.detecting)
        else CycleOutcome(None, None, inp.detecting)
  }

  /** Finding, as written: the server loop is also queued again after a stop
      that lands while the request is in flight. */
  lemma ServerStopIgnoredWhileRequesting()
    ensures ServerCycle(ServerInputs(true, true, true, Some("data:image/jpeg;base64,"), None, false)).reschedule
  {
  }

  /** The server cycle with the queueing test reading the page's current flag. */
  function ServerCycleFixed(inp: ServerInputs): (r: CycleOutcome)
    ensures r.reschedule <==> ServerGuardsPass(inp) && HasScreenshot(inp) && inp.detectingNow
    ensures r.emitted == ServerCycle(inp).emitted && r.drawn == ServerCycle(inp).drawn
  {
    var written := ServerCycle(inp);
    written.(reschedule := written.reschedule && inp.detectingNow)
  }

  /** Which loop the component's effect starts. */
  datatype LoopKind = ClientLoop | ServerLoop

  /** The effect: with `useBackend` the server loop starts at once; the client
      loop waits for the model. */
  function LoopStarted(detecting: bool, useBackend: bool, modelLoaded: bool, modelLoading: bool): (r: Option<LoopKind>)
    ensures r.Some? ==> detecting
    ensures r == Some(ServerLoop) <==> detecting && useBackend
    ensures r == Some(ClientLoop) <==> detecting && !useBackend && modelLoaded && !modelLoading
  {
    if !detecting then None
    else if useBackend then Some(ServerLoop)
    else if modelLoaded && !modelLoading then Some(ClientLoop)
    else None
  }
}
