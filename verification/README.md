# sort-iq decision logic in Dafny

sort-iq is a waste-sorting demo. A webcam page detects objects frame by frame
and turns them into a waste category. An upload page classifies one photo and
then asks for the item's weight. A small backend keeps a running ledger of
kilograms per category.

This project models the pure decision logic inside that system; it does not
model the UI or the HTTP glue. Every module is a set of functions over
immutable datatypes. Confidences, weights and percentages are exact `real`s.
The page flows are reducers of the form state × event → state.

| module | models |
|---|---|
| `Base` | `Option`, `Result`, the classification record, ASCII case mapping |
| `CategoryTypes` | the frontend `WasteCategory` enum, `getCategoryLabel`, `getCategoryColor` |
| `ClassificationView` | the 0.75 confidence gate, the buttons each branch offers, `getBadgeClass` |
| `CocoTable`, `NameGroups` | the backend `WasteCategory` constants and the 80-name COCO table (its 80 entries split into one map per name length, only so that the names can be counted), with generic counting lemmas |
| `BackendDetection` | table lookup, corner-to-size box conversion, `_process_results`, the `base64,` prefix strip, `detect_from_base64` |
| `DetectionLoop` | one cycle of the client-side and the server-side detection loops of both `WebcamDetection` components, and `drawBoundingBoxes` |
| `ScanPage` | `handleDetection` (stable sort by confidence, top detection, message), start/stop |
| `ResultView` | view selection of both `ResultDisplay` components, `formatCategoryName`, colour/description fallbacks, the other-items slice |
| `WeightLedger` | the backend weight store: update, reset, summary, and the empty-image guard of `classify_waste` |
| `SummaryDisplay` | `getPercentage`, `getBarColorClass`, one row per category |
| `WeightInput` | the keystroke regex `^\d*\.?\d*$`, `parseFloat` on that language, and submit validation |
| `Toast` | `handleApiError` and the message choice in `notifyError` |
| `StepMachine` | the `start → upload → result → weight` state machine shared by both upload pages |
| `UploadFlow` | the upload page's notifications on top of the step machine |

Parts that cannot be seen, or that are not logic, become parameters:
- The object detector's output is an input sequence of raw detections, or None when the detector call rejects.
- The frontend label table (`@/types/scan/index`) is a `LabelTable`: a map plus a fallback string. The fallback is `OTHERS` in one component and `UNKNOWN` in the other.
- Base64 decoding plus YOLO inference is a function `infer` that may fail.
- The classifier is a function from the image string.
- Whether the browser is online is a `bool`.
- Each request's outcome is a `Result` event fed to the reducer.

## Model

| member | source | states |
|---|---|---|
| `CategoryTypes.AllCategoriesListed` | frontend/src/types/index.ts:2-7 | the enum has exactly four members, listed once each in declaration order |
| `CategoryTypes.Parse` | frontend/src/types/index.ts:2-7 | a string names a category only when it is that member's value; any other string names none |
| `CategoryTypes.ParseValue` | frontend/src/types/index.ts:2-7 | every member's value parses back to that member |
| `CategoryTypes.Named` | frontend/src/types/index.ts:41 | a null or empty category is treated as no category |
| `CategoryTypes.GetCategoryLabel` | frontend/src/types/index.ts:40-55 | the label is 'Unknown' exactly when the string names no category |
| `CategoryTypes.GetCategoryColor` | frontend/src/types/index.ts:57-72 | the colour is one of red/blue/green/orange/gray, and 'gray' exactly when the string names no category |
| `CategoryTypes.FallbacksForNoCategory` | frontend/src/types/index.ts:40-58 | no category, or an unknown string, gets label 'Unknown' and colour 'gray' |
| `CategoryTypes.LabelsDistinct` | frontend/src/types/index.ts:43-51 | the four categories get four distinct labels, none of them 'Unknown' |
| `CategoryTypes.ColorsDistinct` | frontend/src/types/index.ts:60-68 | the four categories get four distinct colours, none of them 'gray' |
| `CategoryTypes.ColorRange` | frontend/src/types/index.ts:57-72 | every colour returned is one of red/blue/green/orange/gray, and never yellow |
| `CategoryTypes.ColorRangeIsExact` | frontend/src/types/index.ts:57-72 | every palette colour is returned for some input, so the range is exactly the palette |
| `ClassificationView.IsConfident` | frontend/src/app/upload/_components/ClassificationResult.tsx:19 | the gate is inclusive: a confidence of 0.75 or more is confident, anything below is not |
| `ClassificationView.Actions` | frontend/src/app/upload/_components/ClassificationResult.tsx:87-120 | 'next' is always offered; 'retry' is offered exactly when the result is not confident |
| `ClassificationView.BadgeClass` | frontend/src/app/upload/_components/ClassificationResult.tsx:26-41 | red, blue, green and orange get badges in their own shades; the yellow badge is returned exactly for 'yellow'; the gray badge exactly for every other string |
| `ClassificationView.ColorBadgeInjective` | frontend/src/app/upload/_components/ClassificationResult.tsx:26-41 | two hyphen-free colour names with the same badge class are the same colour |
| `ClassificationView.NotYellowBadge` | frontend/src/app/upload/_components/ClassificationResult.tsx:36-37 | no colour's generated badge equals the yellow branch's class |
| `ClassificationView.BadgesPerColor` | frontend/src/app/upload/_components/ClassificationResult.tsx:26-41 | palette colours have pairwise distinct badges, and only gray gets the gray badge |
| `ClassificationView.UnlistedColorIsGray` | frontend/src/app/upload/_components/ClassificationResult.tsx:38-39 | an unmatched colour falls to the gray badge |
| `ClassificationView.CategoryBadge` | frontend/src/app/upload/_components/ClassificationResult.tsx:36-37 | a category's badge is never the yellow one, and is gray exactly when the category's colour is gray |
| `CocoTable.ValuesDistinct` | backend/app/models/detection.py:10-16 | the six waste-category constants are pairwise distinct strings |
| `CocoTable.SampleGroupEntries` | backend/app/models/detection.py:20-118 | sample entries of the table, such as 'bottle' → non-organic and 'person' → unknown |
| `BackendDetection.Get` | backend/app/models/detection.py:183 | `dict.get` with a default: the table value for a present name, `unknown` otherwise |
| `BackendDetection.Lookup` | backend/app/models/detection.py:183 | a name in the table maps to its entry; every other name, including a differently cased one, maps to `unknown` |
| `BackendDetection.CocoTableSize` | backend/app/models/detection.py:19-118 | the table has exactly 80 distinct keys |
| `BackendDetection.SixLetterLookup` | backend/app/models/detection.py:20-118 | a six-letter name is in the whole table exactly when it is in its six-letter group, and looks up the same value there |
| `BackendDetection.LookupExamples` | backend/app/models/detection.py:183 | 'bottle' → non-organic, 'banana' → compost, 'laptop' → e-waste-useful; absent or differently cased names → unknown |
| `BackendDetection.ToXywh` | backend/app/models/detection.py:190 | the box keeps its corner: x + width = x2 and y + height = y2 |
| `BackendDetection.ToCorners` | backend/app/models/detection.py:190 | the inverse conversion recovers the corners from origin plus size |
| `BackendDetection.BoxRoundTrips` | backend/app/models/detection.py:177-190 | the two box forms convert into each other without loss, in both directions |
| `BackendDetection.OrderedCornersGiveNonNegativeSize` | backend/app/models/detection.py:190 | ordered corners give a non-negative width and height |
| `BackendDetection.Convert` | backend/app/models/detection.py:177-191 | a detection keeps the model's class name, confidence and box, and takes its category from the table |
| `BackendDetection.ProcessResults` | backend/app/models/detection.py:168-195 | no boxes gives an empty list; otherwise one detection per box, in box order; a class missing from the name map is an error |
| `BackendDetection.FindFrom` | backend/app/models/detection.py:144-145 | finds the first occurrence of the marker at or after a position, or reports that there is none |
| `BackendDetection.StripBase64Prefix` | backend/app/models/detection.py:144-145 | without the marker the input is unchanged; otherwise the result is the text after the first marker, up to the next marker or the end |
| `BackendDetection.NoCommaNoOccurrence` | backend/app/models/detection.py:144 | the marker cannot occur where the seventh character is not a comma |
| `BackendDetection.StripDataUrl` | backend/app/models/detection.py:144-145 | a data URL `header + "base64," + payload` strips to the payload |
| `BackendDetection.StripBarePayload` | backend/app/models/detection.py:144-145 | a bare base64 payload passes through unchanged |
| `BackendDetection.DetectFromBase64` | backend/app/models/detection.py:140-166 | failed decoding or inference gives `[]`; otherwise the result is exactly the processed boxes of the stripped image |
| `DetectionLoop.Categorize` | frontend/src/app/scan/_components/WebcamDetection.tsx:85-87 | the category is the table's entry for the lower-cased label, or the fallback when that entry is absent or empty |
| `DetectionLoop.CategorizeIgnoresCase` | frontend/src/components/WebcamDetection.tsx:97-99 | labels that differ only in ASCII case get the same category |
| `DetectionLoop.ProcessDetections` | frontend/src/app/scan/_components/WebcamDetection.tsx:82-95 | every output has confidence strictly above 0.5 and a box, and there are no more outputs than inputs |
| `DetectionLoop.Survivors` | frontend/src/app/scan/_components/WebcamDetection.tsx:83 | the strictly increasing indices of exactly the raw detections scoring above 0.5 |
| `DetectionLoop.ProcessedCount` | frontend/src/components/WebcamDetection.tsx:94-95 | there is one output per raw detection scoring above 0.5 |
| `DetectionLoop.ProcessedAreSurvivors` | frontend/src/app/scan/_components/WebcamDetection.tsx:82-95 | the k-th output is the classified k-th survivor, so detector order is kept and nothing is sorted or deduplicated |
| `DetectionLoop.Classify` | frontend/src/app/scan/_components/WebcamDetection.tsx:89-94 | the class name keeps its case, the confidence and box are copied unchanged, and the category is the lower-cased name's entry or the fallback |
| `DetectionLoop.ThresholdIsStrict` | frontend/src/components/WebcamDetection.tsx:95 | a score of exactly 0.5 is dropped |
| `DetectionLoop.DrawnBoxes` | frontend/src/app/scan/_components/WebcamDetection.tsx:176-195 | drawing draws at most one box per detection; `DetectionLoop.DrawnBoxesAreBoxed` states exactly which |
| `DetectionLoop.BoxedFrom` | frontend/src/components/WebcamDetection.tsx:225-226 | an independent account of the detections drawing keeps: the increasing positions of exactly those that carry a box |
| `DetectionLoop.DrawnBoxesFrom` | frontend/src/components/WebcamDetection.tsx:214-235 | for every suffix of the list, the k-th box drawn is the box of the k-th detection that has one |
| `DetectionLoop.DrawnBoxesAreBoxed` | frontend/src/app/scan/_components/WebcamDetection.tsx:185-186 | for any mix of boxed and unboxed detections, the boxes drawn are exactly those of the boxed ones, one for one and in list order, so every present box is drawn |
| `DetectionLoop.DrawnBoxesFromDetections` | frontend/src/app/scan/_components/WebcamDetection.tsx:185-186 | every drawn box is the box of some detection |
| `DetectionLoop.DrawnBoxesOneForOne` | frontend/src/components/WebcamDetection.tsx:214-235 | when every detection has a box, exactly those boxes are drawn, in order |
| `DetectionLoop.ClientCycle` | frontend/src/app/scan/_components/WebcamDetection.tsx:66-105 | failing guards, or a rejected detector call (there is no `catch`), halt without drawing or rescheduling; otherwise the cycle reschedules, and emits only non-empty lists of confident detections |
| `DetectionLoop.ProcessedNonEmpty` | frontend/src/components/WebcamDetection.tsx:113-115 | processing yields a non-empty list exactly when some raw score exceeds 0.5 |
| `DetectionLoop.ClientCycleForwardsSurvivors` | frontend/src/app/scan/_components/WebcamDetection.tsx:97-101 | the cycle emits exactly when the detector returns and some score exceeds 0.5; it emits the processed list and draws one box per detection |
| `DetectionLoop.ClientStopIgnoredWhileDetecting` | frontend/src/app/scan/_components/WebcamDetection.tsx:103-105 | a stop that arrives during a cycle does not prevent the next cycle |
| `DetectionLoop.ClientCycleFixed` | frontend/src/components/WebcamDetection.tsx:118-120 | the corrected cycle reschedules only when the detector returned and detection is still on at the end, and emits and draws as before |
| `DetectionLoop.ServerCycle` | frontend/src/app/scan/_components/WebcamDetection.tsx:109-147 | it reschedules exactly when the guards pass and a screenshot exists, error path included; it forwards `all_detections` unchanged only on success with a non-empty list |
| `DetectionLoop.ServerStopIgnoredWhileRequesting` | frontend/src/app/scan/_components/WebcamDetection.tsx:140-147 | a stop that arrives during a request does not prevent the next request |
| `DetectionLoop.ServerCycleFixed` | frontend/src/components/WebcamDetection.tsx:162-171 | the corrected server cycle reschedules only when detection is still on, and forwards as before |
| `DetectionLoop.LoopStarted` | frontend/src/app/scan/_components/WebcamDetection.tsx:151-160 | the server loop runs when detecting with the backend; the client loop runs only when detecting with a loaded model |
| `ScanPage.ConsSorted` | frontend/src/app/scan/page.tsx:32-34 | putting a detection at least as confident as the head in front keeps the list sorted |
| `ScanPage.Insert` | frontend/src/app/scan/page.tsx:32-34 | insertion adds exactly one element |
| `ScanPage.InsertPermutes` | frontend/src/app/scan/page.tsx:32-34 | insertion adds the element and keeps all the others |
| `ScanPage.InsertSorted` | frontend/src/app/scan/page.tsx:32-34 | inserting into a sorted list keeps it sorted |
| `ScanPage.SortByConfidence` | frontend/src/app/scan/page.tsx:32-34 | the result is a permutation of the input, sorted by non-increasing confidence |
| `ScanPage.WithConfidenceCons` | frontend/src/app/scan/page.tsx:32-34 | the detections of a given confidence in a list headed by x are x (if it has that confidence) followed by those of the tail |
| `ScanPage.InsertKeepsTies` | frontend/src/app/scan/page.tsx:32-34 | an inserted detection goes before its ties and keeps their order |
| `ScanPage.SortIsStable` | frontend/src/app/scan/page.tsx:32-34 | detections of equal confidence keep their input order, as `Array.prototype.sort` guarantees |
| `ScanPage.HandleDetection` | frontend/src/app/scan/page.tsx:22-43 | empty input gives the 'No waste detected' failure; otherwise all detections sorted, the most confident one on top, and the fixed message |
| `ScanPage.ExampleFiltered` | frontend/src/app/scan/_components/WebcamDetection.tsx:82-95 | on a sample frame scored 0.9, 0.3 and 0.6, only the first and third detections survive, in that order |
| `ScanPage.WorkedExample` | frontend/src/app/scan/page.tsx:32-41 | that frame's result has the 0.9 detection on top and the 0.6 one second |
| `ScanPage.StartDetection` | frontend/src/app/scan/page.tsx:13-16 | start turns detection on and clears the error, keeping the result |
| `ScanPage.StopDetection` | frontend/src/app/scan/page.tsx:18-20 | stop turns detection off and changes nothing else |
| `ScanPage.StartStopIdempotent` | frontend/src/app/scan/page.tsx:13-20 | starting twice is the same as starting once, and stopping twice the same as stopping once |
| `ScanPage.OnDetection` | frontend/src/app/scan/page.tsx:22-43 | a forwarded list always sets a result, successful exactly when the list is non-empty |
| `ResultView.Split` | frontend/src/app/scan/_components/ResultDisplay.tsx:186 | `split` yields at least one piece, and no piece contains the separator |
| `ResultView.JoinSplit` | frontend/src/app/scan/_components/ResultDisplay.tsx:186-188 | joining the pieces of a split with the same separator gives back the string |
| `ResultView.SplitJoin` | frontend/src/app/scan/_components/ResultDisplay.tsx:186-188 | splitting a join of separator-free pieces gives back the pieces |
| `ResultView.SplitPiece` | frontend/src/app/scan/_components/ResultDisplay.tsx:186 | a string without the separator splits into itself alone |
| `ResultView.SplitAround` | frontend/src/app/scan/_components/ResultDisplay.tsx:186 | a split at the first separator puts the text before it first, then the split of the rest |
| `ResultView.Capitalize` | frontend/src/app/scan/_components/ResultDisplay.tsx:187 | only the first character is upper-cased; length and the rest are kept |
| `ResultView.CapitalizeKeepsOut` | frontend/src/app/scan/_components/ResultDisplay.tsx:187 | capitalising adds no character other than an upper-case letter |
| `ResultView.CapitalizeAll` | frontend/src/app/scan/_components/ResultDisplay.tsx:187 | the mapping capitalises every word in place |
| `ResultView.JoinChars` | frontend/src/app/scan/_components/ResultDisplay.tsx:188 | joining introduces no character other than the separator |
| `ResultView.FormatCategoryName` | frontend/src/app/scan/_components/ResultDisplay.tsx:184-189 | a formatted category name contains no '-' |
| `ResultView.SplitKeepsOut` | frontend/src/app/scan/_components/ResultDisplay.tsx:186 | pieces of a split contain no character that the string lacks |
| `ResultView.FormatWords` | frontend/src/app/scan/_components/ResultDisplay.tsx:184-189 | the words of the formatted name are the capitalised hyphen-separated segments, one word per segment |
| `ResultView.SplitThree` | frontend/src/app/scan/_components/ResultDisplay.tsx:186 | a string with two separators splits into its three parts |
| `ResultView.SplitExample` | frontend/src/app/scan/_components/ResultDisplay.tsx:186 | 'e-waste-useful' splits into 'e', 'waste', 'useful' |
| `ResultView.JoinExample` | frontend/src/app/scan/_components/ResultDisplay.tsx:188 | 'E', 'Waste', 'Useful' join to 'E Waste Useful' |
| `ResultView.CapitalizeExample` | frontend/src/app/scan/_components/ResultDisplay.tsx:187 | 'e', 'waste', 'useful' capitalise to 'E', 'Waste', 'Useful' |
| `ResultView.FormatExample` | frontend/src/app/scan/_components/ResultDisplay.tsx:184-189 | 'e-waste-useful' formats as 'E Waste Useful' |
| `ResultView.Heading` | frontend/src/app/scan/_components/ResultDisplay.tsx:201-203 | the scan page's panel heads the detail with the formatted, hyphen-free name; the older panel (frontend/src/components/ResultDisplay.tsx:168-170) shows the category as it arrives |
| `ResultView.OtherItems` | frontend/src/app/scan/_components/ResultDisplay.tsx:225-231 | the list appears only with more than one detection, and shows entries 1 to 3: min(3, n − 1) of them, never entry 0 |
| `ResultView.RunnersUpRankBelowTop` | frontend/src/components/ResultDisplay.tsx:192-198 | after `handleDetection`, every other item shown ranks no higher than the top detection and is the next entry of the sorted list |
| `ResultView.CategoryColor` | frontend/src/app/scan/_components/ResultDisplay.tsx:68-70 | a present, non-empty colour is used; otherwise the colour of the fallback key (`OTHERS` or `Unknown`) is used |
| `ResultView.CategoryDescription` | frontend/src/components/ResultDisplay.tsx:70-71 | a present description is used; otherwise '' |
| `ResultView.SelectView` | frontend/src/components/ResultDisplay.tsx:14-83 | the view order: loading → spinner, no result → prompt, failure → no-waste with the result's message, no top → blank, otherwise the detail view with the looked-up colour; the older panel throws while rendering when neither the category nor `Unknown` has a colour |
| `ResultView.ViewOfHandled` | frontend/src/app/scan/_components/ResultDisplay.tsx:15-72 | for a page result, an empty list shows 'No waste detected', and a non-empty one is never blank: it shows the most confident detection, with others exactly when there are two or more, unless the older panel finds no colour and fails |
| `WeightLedger.SumUpdate` | backend/app/routers/classification.py:50-52 | changing one entry changes the sum by exactly that entry's change |
| `WeightLedger.SumOfZeros` | backend/app/routers/classification.py:67-72 | an all-zero store sums to 0 |
| `WeightLedger.SumBounds` | backend/app/routers/classification.py:52 | with non-negative entries the sum is non-negative and at least every entry |
| `WeightLedger.UpdateWeight` | backend/app/routers/classification.py:45-57 | an unknown key is an error (the `KeyError` surfaces as HTTP 500); otherwise only that key grows by the weight, keys are kept, and the total is the old total plus the weight |
| `WeightLedger.ResetWeights` | backend/app/routers/classification.py:60-73 | every entry becomes 0, keys and order are kept, and the reported total is 0 |
| `WeightLedger.ResetIdempotent` | backend/app/routers/classification.py:67-68 | resetting twice equals resetting once |
| `WeightLedger.GetWeightSummary` | backend/app/routers/classification.py:76-86 | the store is unchanged, and the summary reports its entries and their sum |
| `WeightLedger.TotalBounds` | backend/app/routers/classification.py:81 | with non-negative entries the total is non-negative and bounds every entry |
| `WeightLedger.Apply` | backend/app/routers/classification.py:45-73 | any single request keeps the store's keys and their order |
| `WeightLedger.Run` | backend/app/routers/classification.py:45-73 | any request sequence keeps the store well formed |
| `WeightLedger.RunKeepsCategories` | backend/app/routers/classification.py:16-22 | over any sequence of updates and resets the key set never changes |
| `WeightLedger.RunKeepsNonNegative` | backend/app/routers/classification.py:50 | with non-negative updates, entries stay non-negative |
| `WeightLedger.StoreCategoriesListed` | backend/app/routers/classification.py:16-22 | the store lists the five categories other than `unknown`, each once |
| `WeightLedger.InitialStore` | backend/app/routers/classification.py:16-22 | the initial store has exactly those five keys, all 0.0, and total 0 |
| `WeightLedger.ClassifyWaste` | backend/app/routers/classification.py:25-42 | empty image data is rejected with 400 'No image data provided'; anything else is the classifier's answer |
| `WeightLedger.EmptyImageNeverClassified` | backend/app/routers/classification.py:30-31 | for empty image data the classifier makes no difference: it is never consulted |
| `SummaryDisplay.GetPercentage` | frontend/src/components/SummaryDisplay.tsx:18-25 | 0 for a zero total or a missing entry; otherwise weight / total × 100 |
| `SummaryDisplay.BarColorClass` | frontend/src/components/SummaryDisplay.tsx:27-44 | a listed colour (red, blue, green, orange, yellow) gets `bg-<colour>-500`; any other string gets the gray bar |
| `SummaryDisplay.ShareBounds` | frontend/src/components/SummaryDisplay.tsx:24 | a share of a total it does not exceed lies in [0, 100] |
| `SummaryDisplay.PercentageBounds` | frontend/src/components/SummaryDisplay.tsx:18-25 | with the ledger's summary and non-negative weights, every percentage is in [0, 100] |
| `SummaryDisplay.BarFollowsCategoryColor` | frontend/src/components/SummaryDisplay.tsx:27-44 | a category's bar is `bg-<colour>-500` for its own colour, never the yellow bar |
| `SummaryDisplay.NoYellowBar` | frontend/src/components/SummaryDisplay.tsx:39-40 | no input reaches the yellow bar class |
| `SummaryDisplay.Rows` | frontend/src/components/SummaryDisplay.tsx:56-70 | one row per enum category, in enum order |
| `SummaryDisplay.OneRowPerCategory` | frontend/src/components/SummaryDisplay.tsx:56 | every category has a row, and only one |
| `WeightInput.PointAt` | frontend/src/app/upload/_components/WeightInput.tsx:26 | the index of the first '.', or the length when there is none |
| `WeightInput.WholeAndFraction` | frontend/src/app/upload/_components/WeightInput.tsx:26 | a string is its whole part, then '.' and its fraction when it has a point |
| `WeightInput.SplitAtPoint` | frontend/src/app/upload/_components/WeightInput.tsx:26 | a string with a '.' at i is the text before, '.', and the text after |
| `WeightInput.AcceptedMatches` | frontend/src/app/upload/_components/WeightInput.tsx:26 | an accepted value matches `^\d*\.?\d*$` |
| `WeightInput.MatchedAccepts` | frontend/src/app/upload/_components/WeightInput.tsx:26 | digits, an optional point and digits are accepted |
| `WeightInput.AcceptsIffPattern` | frontend/src/app/upload/_components/WeightInput.tsx:26 | the keystroke check accepts exactly the strings matching the regex |
| `WeightInput.Pow10` | frontend/src/app/upload/_components/WeightInput.tsx:38 | powers of ten are positive, so a fraction's scale is well defined |
| `WeightInput.DigitsValuePositive` | frontend/src/app/upload/_components/WeightInput.tsx:38 | a digit string has a positive value exactly when some digit is not '0' |
| `WeightInput.ParseWeight` | frontend/src/app/upload/_components/WeightInput.tsx:38 | on the accepted language, `parseFloat` is NaN exactly for '' and '.', and is otherwise non-negative |
| `WeightInput.ParseExamples` | frontend/src/app/upload/_components/WeightInput.tsx:38 | '5.' is 5, '.5' is 0.5, '1.25' is 1.25, '.' is NaN |
| `WeightInput.Change` | frontend/src/app/upload/_components/WeightInput.tsx:22-30 | an accepted value is stored and clears the error; a rejected one changes nothing; the form invariant is kept |
| `WeightInput.Submit` | frontend/src/app/upload/_components/WeightInput.tsx:32-46 | a submitted value is the parse of the current text and strictly positive; otherwise the one error message is set |
| `WeightInput.NonZeroDigitInPart` | frontend/src/app/upload/_components/WeightInput.tsx:38 | a non-zero digit lies in the whole part or in the fraction |
| `WeightInput.ParsePositiveIffNonZeroDigit` | frontend/src/app/upload/_components/WeightInput.tsx:38-43 | the parse is a positive number exactly when the text has a non-zero digit |
| `WeightInput.SubmitsIffNonZeroDigit` | frontend/src/app/upload/_components/WeightInput.tsx:33-45 | submit calls back exactly when the text has a non-zero digit, so '', '0', '00', '0.000' and '.' are all refused |
| `WeightInput.InvariantKept` | frontend/src/app/upload/_components/WeightInput.tsx:22-46 | the stored text always matches the regex: initially, after a change, and after a submit |
| `Toast.HandleApiError` | frontend/src/app/upload/_components/ToastProvider.tsx:86-110 | never 'weight'; a missing error is 'unknown'; offline or 'Network Error' is 'network' |
| `Toast.StatusDecides` | frontend/src/app/upload/_components/ToastProvider.tsx:93-109 | online, 413/415 → image, 400/422 → classification, 403 → session, anything else or no response → unknown, each both ways |
| `Toast.NetworkTakesPrecedence` | frontend/src/app/upload/_components/ToastProvider.tsx:89-91 | once the network check fires, the status makes no difference |
| `Toast.RethrownIsUnknown` | frontend/src/app/upload/_components/ToastProvider.tsx:109 | an online error without a response is 'unknown' |
| `Toast.NotifyErrorText` | frontend/src/app/upload/_components/ToastProvider.tsx:21-32 | a non-empty message wins; otherwise the fixed text of the type |
| `StepMachine.Start` | frontend/src/app/upload/page.tsx:52-54 | start moves to 'upload' and changes nothing else |
| `StepMachine.CaptureBegin` | frontend/src/app/upload/page.tsx:57-62 | capture stores the image, sets loading and clears the error, keeping the rest |
| `StepMachine.CaptureEnd` | frontend/src/app/upload/page.tsx:67-86 | success goes to 'result' with the classification; failure keeps the step and sets the error; loading ends either way |
| `StepMachine.ContinueToWeight` | frontend/src/app/upload/page.tsx:89-91 | continue moves to 'weight' and changes nothing else |
| `StepMachine.Retry` | frontend/src/app/upload/page.tsx:93-101 | retry returns to 'upload' and clears image, classification and error, keeping the summary |
| `StepMachine.WeightBegin` | frontend/src/app/upload/page.tsx:103-106 | a weight submit that passes its guard turns loading on and changes nothing else |
| `StepMachine.WeightEnd` | frontend/src/app/upload/page.tsx:114-135 | success stores the summary, clears image and classification, returns to 'upload' and leaves the error alone; failure only sets the error |
| `StepMachine.StopSession` | frontend/src/app/upload/page.tsx:138-140 | stop moves to 'start' and changes nothing else, so image, classification and summary survive |
| `StepMachine.SummaryUpdate` | frontend/src/app/upload/page.tsx:142-144 | a summary update replaces the summary and changes nothing else |
| `StepMachine.Next` | frontend/src/app/upload/page.tsx:52-144 | no event leads into the 'result' step without a classification; a weight submit without a category and a failed summary fetch change nothing |
| `StepMachine.Run` | frontend/src/app/page.tsx:42-120 | no events leave the page as it is, and over any sequence of events 'result' keeps its classification |
| `StepMachine.RunConcat` | frontend/src/app/page.tsx:42-120 | running two event sequences one after the other is running them joined |
| `StepMachine.Capture` | frontend/src/app/page.tsx:46-70 | a whole capture leaves the image set, loading off, and either the 'result' step with the classification or the error |
| `StepMachine.WeightSubmit` | frontend/src/app/upload/page.tsx:103-136 | without a category a weight submit is a complete no-op; otherwise success and failure change exactly the listed fields |
| `StepMachine.FullRound` | frontend/src/app/page.tsx:42-104 | start, a successful capture, continue and a successful weight submit end in 'upload' with only the new summary kept |
| `StepMachine.StopThenStartResumes` | frontend/src/app/upload/page.tsx:52-140 | starting after a stop is the same as starting without it: the session resumes |
| `StepMachine.SummaryChangesOnlySummary` | frontend/src/app/upload/page.tsx:142-144 | a summary update changes only the summary; a failed fetch changes nothing |
| `StepMachine.InitialIsEmpty` | frontend/src/app/page.tsx:17-24 | the initial state is 'start', all fields empty, not loading, no error |
| `UploadFlow.FailureNotice` | frontend/src/app/upload/page.tsx:75-86 | a failed request raises an error notice of the classified type with its fixed text |
| `UploadFlow.NoticeFor` | frontend/src/app/upload/page.tsx:35-136 | only request results and a failed summary fetch raise a notice, and a success notice exactly for a successful result |
| `UploadFlow.Session` | frontend/src/app/upload/page.tsx:35-144 | the notifications change nothing: the upload page goes through the same states as the plain page, raising at most one notice per event |
| `UploadFlow.OneNoticePerResult` | frontend/src/app/upload/page.tsx:35-136 | the i-th notice is the notice of the i-th result event, in order, and no other event raises one |
| `UploadFlow.NoWeightNotice` | frontend/src/app/upload/_components/ToastProvider.tsx:8-14 | no notice is ever of the weight type |
| `UploadFlow.RethrownWeightFailure` | frontend/src/app/upload/page.tsx:124-135 | while online, a failed weight update rethrown by the wrapper is reported as unexpected |
| `UploadFlow.FailedClassifyLooksClassified` | frontend/src/app/upload/page.tsx:64-74 | a failure the wrapper returns as a value reaches 'result' with the success notice, and the weight submit after it is a no-op |

## Left out

- Object detection itself is left out because it lives in foreign libraries: COCO-SSD/TF.js loading, YOLO, PIL/numpy and base64 decoding. The detector's output is an input sequence, absent when the call rejects; `detect_from_base64`'s decoding and inference are the `infer` parameter, whose failure stands for any exception.
- The backend's YOLO confidence threshold (0.25, backend/app/models/detection.py:121) is applied inside the model call, so the boxes fed to `ProcessResults` are taken as already filtered.
- Timers and animation frames are left out because they are timing, not logic. Only each cycle's "reschedule?" decision is modelled. The code has no in-flight guard, and none is added.
- HTTP clients are left out as I/O: `services/scan/api.ts` and `services/upload/api.ts`. A request's outcome is a reducer input. The upload wrappers' observable behaviour is kept: classify returns an error object, and the weight update rethrows a bare `Error` (`UploadFlow.FailedClassifyLooksClassified`, `UploadFlow.RethrownWeightFailure`).
- `backend/app/services/classifier.py` is not part of this model. It wraps an external service, so the classifier is a function parameter of `WeightLedger.ClassifyWaste`. `sam.py` and `main.py` are not part of this model either: one is a plotting script, the other app wiring.
- The router types its store with `schemas.WasteCategory`, whose members (schemas.py:6-10) do not match the keys the router uses. The ledger is generic in its key type and is instantiated with the five detection-module categories the router names.
- The frontend label, colour and description tables of `@/types/scan/index` are not shown. They are parameters (`LabelTable`, `ResultView.Tables`), not concrete entries.
- JavaScript's `toLowerCase`/`toUpperCase` are modelled for ASCII letters only; other characters are left unchanged.
- Display formatting is left out as presentation: `Math.round`/`toFixed` percentages, the weight shown in the success toast (a text parameter), canvas label geometry, toast styling, and the components Navbar, Loader, ImageUpload, StartScreen, WebcamCapture and the layout.
- `WeightInput.ParseWeight` is `parseFloat` only on strings the keystroke regex accepts. The form only ever stores such strings (`WeightInput.InvariantKept`), so no other strings reach it.
- `WeightLedger.UpdateWeight` works on exact reals, so float rounding in `sum` is not modelled.

## Findings

| source | as written | input that shows it | evidently intended | confidence | as-written member | corrected member |
|---|---|---|---|---|---|---|
| frontend/src/app/scan/_components/WebcamDetection.tsx:103-105 | after awaiting the detector, the client cycle (here and at frontend/src/components/WebcamDetection.tsx:118-120) reschedules if `isDetecting`, read from the closure of the render that started the loop, where it is always true | a stop pressed while a frame is being detected (`ClientInputs(true, true, true, true, Some([]), false)`): the next frame is still scheduled, so stop never ends a running loop | reschedule only if detection is still on when the cycle ends | not executed | `DetectionLoop.ClientStopIgnoredWhileDetecting` | `DetectionLoop.ClientCycleFixed` |
| frontend/src/components/WebcamDetection.tsx:162-171 | the server cycle (here and at frontend/src/app/scan/_components/WebcamDetection.tsx:140-147) reschedules in both the success and error paths on the same captured `isDetecting` | a stop pressed while the request is in flight, with a screenshot taken: the next request is still scheduled | reschedule only if detection is still on when the response arrives | not executed | `DetectionLoop.ServerStopIgnoredWhileRequesting` | `DetectionLoop.ServerCycleFixed` |
