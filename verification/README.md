# Client-side image pipeline and analysis panel of octoaipus-front

This project models the client-side logic of a pneumonia-detection web app in Dafny.

**Image processor.** It computes three statistics of an RGBA image:
- mean brightness;
- mean contrast against the previous pixel in raster order;
- edge density.

It uses them in two ways:
- to decide whether an upload is plausibly a chest X-ray;
- to derive and apply automatic corrections: a brightness shift, a linear contrast stretch and a 3×3 unsharp mask on interior pixels.

**Heatmap generators.** There are three:
- Grad-CAM, with channel weights, a ReLU and min-max normalisation;
- a luminance "attention" fallback scaled by its maximum;
- a pseudo map that selects one feature channel or averages them, then paints a turbo colour, an alpha and a yellow outline.

The generators share:
- the planar (CHW) ImageNet standardisation of the model input;
- the RGBA encodings of the maps;
- the one-hot gradient vector.

**UI state machines.**
- The analysis panel (`CardDeal`):
  - confidence colour bands;
  - the choice of the main result;
  - the six-step progress tracker of `performFullAnalysis`, with its error marking;
  - the reset on upload;
  - the placement of detection boxes.
- The auto-advancing capture guide (`Business`).
- The footer's link dispatcher (`Footer`).

**How the model represents things.**
- Numbers are `real`. Where the browser stores into a `Uint8ClampedArray`, the store is modelled explicitly as a clamp followed by rounding half to even (`Numeric.StoreByte`). `Math.round` is `floor(x + 0.5)` (`Numeric.JsRound`).
- An image is a `Bitmap` of `seq<Rgba>` in raster order. Pixel `i` of the model stands for bytes `4i .. 4i+3` of the browser's buffer.
- Anything the browser or a server supplies is a parameter:
  - decoded pixels;
  - the validator's answer;
  - which request fails;
  - feature and gradient tensors;
  - the target score.
- A zero-size image makes `getImageData` throw. The model represents it as `Err(EmptyImage)` of `Results.Result`.

Modules follow the source files:

| module | file | models |
|---|---|---|
| `Numeric`, `Results`, `Bitmaps` | numeric.dfy, results.dfy, bitmap.dfy | JS rounding, clamped byte stores, results, pixels |
| `ImageAnalysis` | image_analysis.dfy | `analyzeImage` and the colour spread of `isChestXray` |
| `XrayCheck` | xray_check.dfy | `isChestXray` |
| `AutoCorrection` | auto_correction.dfy | `calculate*`, `applyCorrections`, `applySharpness`, `processImage` |
| `Heatmaps` | heatmap.dfy | `generateHeatmap`, `createAttentionHeatmap`, the pseudo map, colormap index, RGBA encodings, one-hot |
| `Preprocessing` | preprocess.dfy | `preprocessImage` |
| `AnalysisPanel` | analysis_panel.dfy | `CardDeal` helpers and the progress tracker |
| `GuideStepper` | guide_stepper.dfy | the guide timer of `Business` |
| `FooterLinks` | footer_links.dfy | `Footer.handleLinkClick` and the configured links |

## Model

| member | source | states |
|---|---|---|
| Numeric.JsRound | utils/gradcam.ts:203 | `Math.round` gives an integer within half a unit of its argument: x − 0.5 < r ≤ x + 0.5 |
| Numeric.StoreByte | utils/imageProcessing.ts:217-225 | A store into the clamped byte buffer gives a byte. Values ≤ 0 give 0 and values ≥ 255 give 255. Anything between ends up within 0.5 of the value |
| Numeric.StoreByteOfByte | utils/imageProcessing.ts:217-225 | Storing an integer that is already a byte leaves it unchanged |
| Numeric.StoreByteMonotone | utils/imageProcessing.ts:217-225 | The clamped store preserves order |
| Numeric.SeqMax | utils/gradcam.ts:103 | `Math.max.apply` over a non-empty array returns one of its elements, and that element bounds every element |
| Numeric.SeqMin | utils/gradcam.ts:104 | `Math.min.apply` returns an element that is below every element |
| Bitmaps.Brightness | utils/imageProcessing.ts:128 | The brightness (r+g+b)/3 of a byte pixel lies in [0, 255] |
| ImageAnalysis.BrightnessSum | utils/imageProcessing.ts:122-129 | The running brightness total over k pixels lies in [0, 255·k] |
| ImageAnalysis.StepContrast | utils/imageProcessing.ts:133-134 | The brightness difference to the previous pixel lies in [0, 255] |
| ImageAnalysis.ContrastSum | utils/imageProcessing.ts:132-135 | Only pixels other than the first and the last contribute. So the total is at most 255·(n − 2) for the whole image |
| ImageAnalysis.EdgeCount | utils/imageProcessing.ts:132-138 | At most n − 2 edges. Each counted edge has a contrast above 30, so 30·edges ≤ the contrast total |
| ImageAnalysis.Statistics | utils/imageProcessing.ts:105-153 | Fails exactly on a zero-size image. Otherwise avgBrightness ∈ [0,255], avgContrast ∈ [0,255), edgeDensity ∈ [0,1), and 30·edgeDensity ≤ avgContrast |
| ImageAnalysis.MeanBounds | utils/imageProcessing.ts:141-144 | Dividing by the full pixel count, not by the number of compared pixels, keeps both means strictly below their maxima |
| ImageAnalysis.AnalyzeImage | utils/imageProcessing.ts:117-144 | The single pixel loop computes exactly the statistics defined by the recursive sums |
| ImageAnalysis.UniformContrast | utils/imageProcessing.ts:132-138 | An image of one colour has contrast total 0 and no edges |
| ImageAnalysis.UniformBrightness | utils/imageProcessing.ts:122-129 | For an image of one colour, the brightness total is k times that colour's brightness |
| ImageAnalysis.UniformStatistics | utils/imageProcessing.ts:117-144 | An image of one colour has its colour's brightness as mean, contrast 0 and edge density 0 |
| ImageAnalysis.RowWrapIsCompared | utils/imageProcessing.ts:132-138 | The comparison crosses row ends: a 2×2 image with a black top row and a white bottom row has contrast 255/4 and edge density 1/4 |
| ImageAnalysis.ChannelSpread | utils/imageProcessing.ts:339 | The largest of \|r−g\|, \|r−b\| and \|g−b\|. It is 0 exactly for a grey pixel |
| ImageAnalysis.SpreadSum | utils/imageProcessing.ts:334-341 | The colour-difference total is 0 when every pixel is grey |
| ImageAnalysis.AvgColorDiff | utils/imageProcessing.ts:342 | The mean colour difference is non-negative |
| XrayCheck.IsChestXray | utils/imageProcessing.ts:307-351 | Accepts exactly when the image loaded and all four tests pass: 0.6 ≤ w/h ≤ 1.8 (JS Infinity/NaN for h = 0), 40 ≤ avgBrightness ≤ 180, avgContrast ≤ 80, mean colour difference ≤ 30. A load or decode error rejects |
| XrayCheck.AcceptedAspect | utils/imageProcessing.ts:312-313 | An accepted image has a positive height and an aspect ratio in [0.6, 1.8] |
| XrayCheck.UniformGreyAccepted | utils/imageProcessing.ts:307-347 | A uniform grey image with a plausible aspect ratio and a grey level in [40, 180] is accepted |
| XrayCheck.GreySpread | utils/imageProcessing.ts:334-342 | A uniform grey image has colour-difference total 0 |
| AutoCorrection.Rotation | utils/imageProcessing.ts:158-166 | The rotation is one of −90, 0 and 90. It is 90 iff w/h < 0.5 and −90 iff w/h > 2, where a zero height gives Infinity or NaN as in JS |
| AutoCorrection.BrightnessShift | utils/imageProcessing.ts:171-177 | Lies in [−50, 50] and has the sign of 128 − b. Inside the clamp window it moves b halfway to 128, and it saturates outside |
| AutoCorrection.ContrastShift | utils/imageProcessing.ts:182-188 | Lies in [−30, 30] and has the sign of 50 − c. It is exactly (50 − c)/2 inside the window and saturates outside |
| AutoCorrection.SharpnessAmount | utils/imageProcessing.ts:193-199 | Lies in [−20, 20] and has the sign of 0.1 − e. It is exactly (0.1 − e)·100 inside the window and saturates outside |
| AutoCorrection.Derive | utils/imageProcessing.ts:90-100 | `autoCorrect` combines the four parameters, and all of them lie in their ranges |
| AutoCorrection.AcceptedImageIsNotRotated | utils/imageProcessing.ts:158-166 | Every image that `isChestXray` accepts gets rotation 0, because [0.6, 1.8] lies inside [0.5, 2] |
| AutoCorrection.UniformImageCorrections | utils/imageProcessing.ts:182-199 | An image of one colour gets contrast +25 and sharpness +10. If its brightness is 128 it also gets brightness shift 0 |
| AutoCorrection.ContrastFactor | utils/imageProcessing.ts:222 | 259(c+255)/(255(259−c)) is positive on [−30, 30]. It is exactly 1 at c = 0, above 1 for c > 0 and below 1 for c < 0 |
| AutoCorrection.ShiftStore | utils/imageProcessing.ts:217-219 | Stores v + brightness: 0 when that is ≤ 0, 255 when it is ≥ 255, and a byte within 0.5 of it in between |
| AutoCorrection.StretchStore | utils/imageProcessing.ts:223-225 | Stores factor·(s − 128) + 128, saturated at 0 and 255 and within 0.5 of it in between |
| AutoCorrection.AdjustChannel | utils/imageProcessing.ts:215-226 | Brightness followed by contrast yields a byte |
| AutoCorrection.AdjustChannelIdentity | utils/imageProcessing.ts:217-225 | With brightness 0 and factor 1, every byte value is unchanged |
| AutoCorrection.ShiftStoreMonotone | utils/imageProcessing.ts:217-219 | The brightness store preserves channel order |
| AutoCorrection.StretchStoreMonotone | utils/imageProcessing.ts:223-225 | With a non-negative factor, the contrast store preserves channel order |
| AutoCorrection.AdjustChannelMonotone | utils/imageProcessing.ts:215-226 | The combined per-channel adjustment preserves channel order |
| AutoCorrection.AdjustPixel | utils/imageProcessing.ts:215-226 | A byte pixel stays a byte pixel, and alpha is untouched |
| AutoCorrection.BrightnessContrastPass | utils/imageProcessing.ts:215-226 | Every pixel becomes the shifted and stretched version of the original pixel at the same index (`AdjustPixel` with the clamped brightness and the contrast factor), so the size is kept and no alpha byte changes. With zero brightness and contrast the image is unchanged |
| AutoCorrection.SharpenChannel | utils/imageProcessing.ts:295-297 | Stores v + factor·(v − mean), saturated at 0 and 255 and within 0.5 of it in between |
| AutoCorrection.SharpenChannelDirection | utils/imageProcessing.ts:295-297 | A value equal to its neighbourhood mean is kept. With a non-negative amount, values move away from the mean: up when above it, down when below it |
| AutoCorrection.SharpenAt | utils/imageProcessing.ts:278-297 | Sharpening one interior pixel keeps it a byte pixel and keeps its alpha |
| AutoCorrection.UniformMean | utils/imageProcessing.ts:281-292 | In an image of one colour, the 3×3 mean of each channel is that channel's value |
| AutoCorrection.SharpenUniformCell | utils/imageProcessing.ts:276-299 | In an image of one colour, sharpening a pixel leaves it unchanged |
| AutoCorrection.Sharpened | utils/imageProcessing.ts:266-302 | The in-place sweep: every interior cell is sharpened once, rows from the top and cells from the left, each reading the buffer as the earlier cells left it. The result is a valid image of the same size. No border pixel and no alpha byte changes, and an image of one colour comes back unchanged |
| AutoCorrection.SharpenRowsKeeps | utils/imageProcessing.ts:276-299 | Any prefix of the sweep keeps bytes as bytes, changes only interior cells, keeps every alpha and leaves a one-colour buffer as it is |
| AutoCorrection.InPlaceDiffersFromCopy | utils/imageProcessing.ts:276-297 | The sweep reads cells it has already written. On a 4×3 canvas with amount 20, the second interior cell ends at red 101, while sharpening it against the untouched buffer gives 102 |
| AutoCorrection.SharpenRowInPlace | utils/imageProcessing.ts:277-298 | The loop over x computes exactly one row of the in-place sweep |
| AutoCorrection.ApplySharpness | utils/imageProcessing.ts:266-302 | The nested loop computes exactly the in-place sweep, so the size, border, alpha and one-colour guarantees above hold for it |
| AutoCorrection.PutImageDataCells | utils/imageProcessing.ts:228 | `putImageData` at (0, 0): inside the overlap of canvas and buffer each cell is the buffer's, and elsewhere the canvas keeps what it held |
| AutoCorrection.Corrected | utils/imageProcessing.ts:204-234 | The canvas stays valid. Without rotation it has the input's size. With a quarter turn it has the turned size h×w, because `rotateCanvas` resizes the canvas (lines 245-259) |
| AutoCorrection.ApplyCorrections | utils/imageProcessing.ts:204-234 | The method computes `Corrected`. Without rotation, alpha is kept and every border pixel is exactly the adjusted original. Sharpening runs only when \|sharpness\| > 5 and leaves a one-colour adjusted image alone. All-zero corrections return the image unchanged |
| AutoCorrection.TurnedCornerIsUnturned | utils/imageProcessing.ts:206-228 | With a quarter turn and no sharpening, every cell of the top-left corner shared by both orientations holds the adjusted pixel of the unturned image at the same coordinates, whatever the turned drawing put there |
| AutoCorrection.TurnedColumnExample | utils/imageProcessing.ts:204-228 | A 1×3 column, black on top, gets rotation 90. Its turned drawing is a 3×1 row, black on the right. The corrected canvas is black at both ends |
| AutoCorrection.CorrectedIntended | utils/imageProcessing.ts:204-234 | The intended order, correcting the turned canvas: valid, with the same sizes as the code's result |
| AutoCorrection.IntendedCorrectsTurnedImage | utils/imageProcessing.ts:204-234 | Without a turn, the intended order and the code agree. With a turn and no sharpening, every pixel is the adjusted pixel of the turned drawing |
| AutoCorrection.ProcessImage | utils/imageProcessing.ts:38-61 | Succeeds exactly on a non-empty loaded image. It returns the original, the in-range corrections derived from the image's statistics, and the canvas `applyCorrections` leaves. That canvas has the input's size without rotation and the turned size h×w with a quarter turn |
| Heatmaps.UnitRescale | utils/gradcam.ts:109 | A value between min and max maps into [0, 1]. The minimum maps to 0 and the maximum to 1 |
| Heatmaps.RescaleFacts | utils/gradcam.ts:107-111 | The rescaled array lies in [0, 1], sends min to 0 and max to 1, and preserves order in both directions |
| Heatmaps.MinMaxNormalize | utils/gradcam.ts:103-111 | If max > min, the output lies in [0, 1] with min ↦ 0 and max ↦ 1, and the order is kept both ways. Otherwise every element is equal and the array is returned unchanged |
| Heatmaps.ConstantPlaneSum | utils/gradcam.ts:78-85 | A constant plane sums to k·v |
| Heatmaps.ConstantGradientWeight | utils/gradcam.ts:78-87 | A constant gradient plane has that constant as weight |
| Heatmaps.PlaneSumBounds | utils/gradcam.ts:79-84 | A sum of k gradients that all lie in [lo, hi] lies in [k·lo, k·hi] |
| Heatmaps.WeightBetween | utils/gradcam.ts:78-87 | A channel's weight, the mean of its gradient plane, lies between the plane's smallest and largest gradient |
| Heatmaps.GradView | utils/gradcam.ts:69-83 | The flat gradient buffer read with the activations' shape: it has that shape, and its entries are the buffer's leading C·H·W values |
| Heatmaps.CamMap | utils/gradcam.ts:74-100 | The gradient buffer is flat and is indexed with the activations' shape. The map is numeric exactly when the buffer covers every index c·H·W + p that is read; otherwise all H·W positions are NaN. A numeric map is the ReLU of the weighted channel sum: at least 0, at least the sum, and equal to one of the two |
| Heatmaps.GradCamHeatmap | utils/gradcam.ts:69-114 | NaN at every position exactly when the gradient buffer is too short. Otherwise the map is non-negative. With a spread it lies in [0, 1]; with a flat map it is the raw ReLU map |
| Heatmaps.Intensity | utils/gradcam.ts:335 | (r+g+b)/3/255 lies in [0, 1] |
| Heatmaps.AttentionValueSign | utils/gradcam.ts:338 | The value is non-negative. It is 0 when score ≤ 0 or the pixel is black, and positive otherwise |
| Heatmaps.AttentionValueOrder | utils/gradcam.ts:338 | For a positive score, brighter pixels get larger values, in both directions |
| Heatmaps.AttentionFacts | utils/gradcam.ts:329-339 | The raw attention map is non-negative and zero for black pixels or score ≤ 0. It is positive elsewhere and ordered like brightness |
| Heatmaps.AttentionScaled | utils/gradcam.ts:342-347 | Dividing by a positive maximum gives values in [0, 1]. The order is kept both ways, and 1 is attained |
| Heatmaps.AttentionHeatmap | utils/gradcam.ts:320-350 | The output lies in [0, 1]. A score ≤ 0 or an all-black image gives all zeros. For a positive score the order follows brightness both ways, and a bright pixel makes 1 attained |
| Heatmaps.PseudoMap | utils/gradcam.ts:454-475 | When classIndex < channels, the map is exactly plane classIndex. Otherwise map·channels equals the channel sum at each position |
| Heatmaps.EqualChannelsSum | utils/gradcam.ts:468-472 | When all channels agree at a position, the channel sum is k times that value |
| Heatmaps.EqualChannelsAt | utils/gradcam.ts:468-472 | When all channels agree at a position, the mean fallback there is the common value |
| Heatmaps.EqualChannelsMean | utils/gradcam.ts:463-475 | When all channels are equal, the mean fallback gives the same map as channel 0 |
| Heatmaps.PseudoHeatmap | utils/gradcam.ts:454-484 | The selected map, min-max normalised: in [0, 1] when it has a spread, unchanged when flat |
| Heatmaps.ColormapIndex | utils/gradcam.ts:555 | The turbo index always lies in [0, 255]. It is round(255v) on [0, 1] and saturates outside |
| Heatmaps.ColormapIndexMonotone | utils/gradcam.ts:555 | A larger value never selects an earlier table entry |
| Heatmaps.PaintAt | utils/gradcam.ts:489-513 | A pixel is painted yellow iff it is above 0.7 and an existing raster neighbour is ≤ 0.7. Otherwise it is tinted with table index round(255v) clamped to [0, 255], and its alpha is opaque iff v > 0.85 |
| Heatmaps.PseudoPaint | utils/gradcam.ts:487-513 | Pixel i is painted yellow exactly when it lies on the outline. Every other pixel is tinted with the turbo index of its value, opaque iff the value is above 0.85 |
| Heatmaps.RunOutline | utils/gradcam.ts:496-508 | In a run of values above 0.7 bounded by low values, exactly the two ends are outlined |
| Heatmaps.GradCamRgba | utils/gradcam.ts:201-208 | Written pixels are (R, 0, 0, 255), where R is what the clamped byte array stores for round(255v): round(255v) for v in [0, 1], 0 for v ≤ 0 and 255 for v ≥ 1. Pixels of the target beyond the map stay (0, 0, 0, 0) |
| Heatmaps.GradCamHeatRgba | utils/gradcam.ts:193-208 | A finite map is encoded as above. A NaN map (a gradient buffer too short for the activations) stores 0 for R, so every written pixel is opaque black (0, 0, 0, 255) and the rest stays (0, 0, 0, 0) |
| Heatmaps.SimpleRgba | utils/gradcam.ts:299-306 | Written pixels are (R, 0, B, 255) with R the stored round(255v) as above and R + B = 255 for every value, saturating ones included. The rest of the target stays (0, 0, 0, 0) |
| Heatmaps.RgbaKeepsOrder | utils/gradcam.ts:201-208 | A hotter value never gets a smaller red byte in either encoding, nor a larger blue byte in the attention one |
| Heatmaps.OneHot | utils/gradcam.ts:53-55 | 14 entries, with 1.0 exactly at targetClass and 0 elsewhere. An out-of-range class gives all zeros |
| Preprocessing.NormalizedRoundTrip | utils/gradcam.ts:231-232 | Standardisation is invertible: the channel byte is recovered from its score |
| Preprocessing.NormalizedOrder | utils/gradcam.ts:231-232 | Standardisation preserves channel order, both ways |
| Preprocessing.ElementAt | utils/gradcam.ts:232 | Channel c of pixel i is stored at offset c·n + i, inside the 3n buffer |
| Preprocessing.Preprocess | utils/gradcam.ts:222-237 | The tensor is 3×H×W. Plane c at position p holds the standardised channel c of pixel p |
| Preprocessing.PreprocessImage | utils/gradcam.ts:227-234 | The nested pixel/channel loop fills the buffer with exactly that layout |
| Preprocessing.NormalizedIgnoresAlpha | utils/gradcam.ts:230-232 | The standardised value does not depend on alpha |
| Preprocessing.AlphaIgnored | utils/gradcam.ts:222-237 | Two images differing only in alpha give the same tensor |
| AnalysisPanel.ConfidenceColor | components/CardDeal.tsx:38-42 | Green iff ≥ 70, yellow iff in [40, 70), red iff < 40 |
| AnalysisPanel.ConfidenceColorMonotone | components/CardDeal.tsx:38-42 | A higher confidence never gets a worse band |
| AnalysisPanel.BestIndex | components/CardDeal.tsx:374 | The `reduce` winner is at least every earlier element and strictly above those before it |
| AnalysisPanel.MainResult | components/CardDeal.tsx:374 | None iff there are no results or the list is empty. Otherwise it is a member of maximal confidence |
| AnalysisPanel.MainResultIsEarliestMax | components/CardDeal.tsx:374 | Ties go to the earliest maximum: the main result is exactly the first element of maximal confidence |
| AnalysisPanel.FirstWithLabel | components/CardDeal.tsx:375-376 | `find` returns the first index with that label, or none if no element has it |
| AnalysisPanel.LabelConfidence | components/CardDeal.tsx:375-376 | The confidence of the first prediction with that label, as `find` returns it, or 0 when there are no results or the label is missing |
| AnalysisPanel.InitialSteps | components/CardDeal.tsx:172-179 | Six steps, all pending at 0% |
| AnalysisPanel.ApplyCheckpoint | components/CardDeal.tsx:187-190 | A checkpoint writes the status and progress of its step and changes nothing else |
| AnalysisPanel.FirstProcessing | components/CardDeal.tsx:303 | `findIndex` of the first processing step, or none when no step is processing |
| AnalysisPanel.FirstProcessingAt | components/CardDeal.tsx:303 | A processing step with no processing step before it is the one found |
| AnalysisPanel.MarkError | components/CardDeal.tsx:303-307 | Only the first processing step becomes `error`, with its progress kept; with none, nothing changes |
| AnalysisPanel.AnalysisRun | components/CardDeal.tsx:170-312 | `loading` ends false. The rejection notice appears iff validation rejects, the alert iff a later stage throws, and results are stored iff all stages succeed |
| AnalysisPanel.PerformFullAnalysis | components/CardDeal.tsx:170-312 | The same, for the tracker's script as written |
| AnalysisPanel.ScriptShape | components/CardDeal.tsx:185-298 | Checkpoints 2i and 2i+1 write step i, and 2i starts it. No checkpoint writes `error`. Every step is concluded `completed` at 100 except step 2, which stays `processing` at 70 |
| AnalysisPanel.RunClosedForm | components/CardDeal.tsx:185-298 | After k checkpoints each step is either untouched or as its latest checkpoint left it |
| AnalysisPanel.RunHasNoError | components/CardDeal.tsx:185-298 | Before the catch block runs, no step is ever `error` |
| AnalysisPanel.TracePrefix | components/CardDeal.tsx:181-298 | A run cut short shows a prefix of the full run's progress values |
| AnalysisPanel.ScriptTrace | components/CardDeal.tsx:181-298 | After k checkpoints, progress is the first k+1 of 0,5,10,15,25,35,45,55,70,80,90,95,100. It is nondecreasing and reaches 100 only at the end |
| AnalysisPanel.ProgressIsPrefix | components/CardDeal.tsx:181-298 | For any outcome, the progress shown is a nondecreasing prefix of that sequence, and it ends at 100 iff the run succeeded |
| AnalysisPanel.RejectionStopsAtValidation | components/CardDeal.tsx:186-197 | On rejection, progress stops at 5 and step 0 stays `processing` at 50%. Every other step is untouched |
| AnalysisPanel.FinishedRun | components/CardDeal.tsx:185-298 | After the whole script each step shows the status and progress of its concluding checkpoint |
| AnalysisPanel.SuccessLeavesStepTwoProcessing | components/CardDeal.tsx:219-298 | After success, five steps are `completed` at 100, and step 2 is still `processing` at 70 in the step list |
| AnalysisPanel.FirstProcessingAtFailure | components/CardDeal.tsx:300-307 | When a stage throws, the first processing step is 1 if enhancement failed and 2 for every later stage |
| AnalysisPanel.MarkErrorOnly | components/CardDeal.tsx:303-307 | Marking an error-free list makes exactly the found step the only `error` |
| AnalysisPanel.FailureMarksFirstProcessing | components/CardDeal.tsx:300-307 | On any failure exactly one step is `error`: step 1 for enhancement, step 2 for every later stage |
| AnalysisPanel.FailingStageProcessing | components/CardDeal.tsx:185-298 | When a stage throws, its own step has been started and not yet concluded, so it is `processing` |
| AnalysisPanel.LaterFailureBlamesAnalysis | components/CardDeal.tsx:238-307 | When the heatmap, boxes or finalisation stage throws, step 2 (analysis) is marked `error` while the failing stage's own step stays `processing` |
| AnalysisPanel.IntendedShape | components/CardDeal.tsx:234-236 | The corrected script has the same pairing, writes no `error` and concludes every step `completed` |
| AnalysisPanel.PerformFullAnalysisIntended | components/CardDeal.tsx:234-236 | The run with step 2 completed after the prediction returns keeps the same panel shape and alert condition |
| AnalysisPanel.IntendedSuccessCompletesAll | components/CardDeal.tsx:234-236 | With step 2 completed, success leaves all six steps `completed` |
| AnalysisPanel.IntendedFirstProcessing | components/CardDeal.tsx:300-307 | With step 2 completed, the first processing step at a failure is the failing stage's own step |
| AnalysisPanel.IntendedTrackerMarksFailingStage | components/CardDeal.tsx:300-307 | With step 2 completed, a failure marks exactly the step of the stage that failed, and no other step |
| AnalysisPanel.Upload | components/CardDeal.tsx:156-168 | No file means no change. A file sets the image and the preview, which is the object URL minted for it (line 160). It clears the result, correction, analysis, steps and progress; the heatmap and box toggles are kept |
| AnalysisPanel.UploadSupersedes | components/CardDeal.tsx:156-168 | A second upload leaves no trace of the first: the state equals a single upload of the second file with its own preview URL. Uploading the same file again therefore changes only the preview URL, which `URL.createObjectURL` mints afresh (line 160) |
| AnalysisPanel.UploadClearsResult | components/CardDeal.tsx:156-168 | After an upload there is no main result, and NORMAL reads 0, until a run still in flight writes again (see Findings) |
| AnalysisPanel.ResumeOverwrites | components/CardDeal.tsx:185-298 | The rest of a successful run, from any checkpoint, writes its own predictions, analysis results, finished step list and final progress over the panel, plus the correction if it had not yet been stored; file, preview and view flags are left alone |
| AnalysisPanel.StaleRunRestoresResult | components/CardDeal.tsx:400-418 | A file chosen at any `await` of a run (the input stays enabled, only Predict is disabled) is followed, if that run succeeds, by the old file's predictions, results and step list under the new file's name and preview |
| AnalysisPanel.StaleDiagnosisExample | components/CardDeal.tsx:291-292 | Concretely, the first file's PNEUMONIA finding is the main result next to the second file's preview |
| AnalysisPanel.GuardedRunUnchanged | components/CardDeal.tsx:185-298 | With no upload in between, a run that checks an upload counter writes exactly what the run as written does |
| AnalysisPanel.GuardedUploadSurvives | components/CardDeal.tsx:156-168 | With that check, an upload during a run is final: the old run changes nothing after it |
| AnalysisPanel.Percent | components/CardDeal.tsx:699-702 | Maps the 224-pixel model frame onto the displayed image: 0 maps to 0% and 224 to 100%, and only they do, and a coordinate in the frame lands in [0, 100] |
| AnalysisPanel.PlaceBox | components/CardDeal.tsx:699-702 | The right edge (left + width) is the percentage of x + w, and the bottom edge likewise. A box inside the model frame is placed inside the displayed image |
| AnalysisPanel.PercentBounds | components/CardDeal.tsx:699-702 | Coordinates in [0, 224] map in order into [0, 100] percent |
| GuideStepper.Tick | components/Business.tsx:131-140 | The active step stays below 5. Below the last step a tick advances and appends the step it left. From the last step it resets to (0, []) |
| GuideStepper.StartConsistent | components/Business.tsx:92-93 | The mounted state (0, []) satisfies completed = [0..active−1] |
| GuideStepper.TickConsistent | components/Business.tsx:131-140 | A tick preserves completed = [0..active−1] |
| GuideStepper.ReachableConsistent | components/Business.tsx:131-140 | Any number of ticks preserves it |
| GuideStepper.CompletedIffBefore | components/Business.tsx:200-201 | In a consistent state an entry is completed iff it lies before the active one, so none is both active and completed |
| GuideStepper.TicksAdd | components/Business.tsx:131-140 | m + n ticks are m ticks followed by n ticks |
| GuideStepper.TicksAdvance | components/Business.tsx:132-134 | Below the last step, m ticks advance the guide by m |
| GuideStepper.CycleReturns | components/Business.tsx:131-140 | Five ticks return every consistent state to itself |
| FooterLinks.Classify | components/Footer.tsx:11-32 | Exactly one branch per link, by prefix in the order `mailto:`, `#`, `/` |
| FooterLinks.HandleLinkClick | components/Footer.tsx:11-32 | A mail link opens a window. An anchor off the home page pushes `/` + link. On `/` the anchor is queried: it scrolls when an element is found, does nothing on `null`, and throws when the link is not a valid selector. A route is pushed unchanged, and anything else opens a window. The handler throws exactly for an invalid anchor selector on `/` |
| FooterLinks.ContextOnlyMattersForAnchors | components/Footer.tsx:11-32 | Pathname and document matter only for anchors, and the document only on the home page |
| FooterLinks.ThrowsOnlyForInvalidSelectors | components/Footer.tsx:21 | On `/` an anchor throws iff its query is invalid; no other link throws there; a plain id selector whose query behaves as the browser's (`Conforms`: a valid selector is never `Invalid`) does not throw |
| FooterLinks.ConfiguredAnchorsArePlain | constants/index.ts:92-169 | Every configured anchor is `#` and a plain CSS identifier |
| FooterLinks.ConfiguredFooterNeverThrows | components/Footer.tsx:11-32 | No configured footer link throws, on any page, provided the selector query conforms to the browser (a valid selector is never reported invalid) |
| FooterLinks.PushesAbsolutePaths | components/Footer.tsx:15-28 | Every pushed path starts with `/` |
| FooterLinks.PrefixesExclusive | components/Footer.tsx:12-26 | The three prefixes exclude each other, so the order of the tests decides nothing |
| FooterLinks.MailboxIsMail | constants/index.ts:128 | Every link built on the support mailbox is a mail link |
| FooterLinks.UsefulLinksInternal | constants/index.ts:92-121 | Every link of the "Useful Links" column is classified as an anchor or a route, so none is external |
| FooterLinks.SupportLinksInternal | constants/index.ts:122-147 | Every link of the "Support" column is classified as a mail link |
| FooterLinks.PartnerLinksInternal | constants/index.ts:148-169 | The first "Partners" link is classified as an anchor and every later one as a mail link |
| FooterLinks.NoConfiguredLinkIsExternal | constants/index.ts:91-170 | No configured footer link reaches the external branch |

## Left out

- Canvas and DOM work is not modelled: `drawImage` resizing, `createImageBitmap`, `toDataURL`, `FileReader`, `loadImage`. Decoded pixels are a parameter. A decode failure is `Err(Undecodable)`.
- The drawing done by `rotateCanvas` is not modelled: the cos/sin transform and the browser's resampling. The canvas it leaves is a parameter `drawn` of the turned size h×w. For a quarter turn, cos(±π/2) is about 6·10⁻¹⁷ in floating point, so the computed sizes exceed h and w by less than one; assigning them to the integer canvas size truncates that away. `AcceptedImageIsNotRotated` shows that every image passing the X-ray check gets rotation 0.
- AutoCorrection.ApplyCorrections: the per-pixel statements (alpha, border, identity) are stated for rotation 0. For a quarter turn, `TurnedCornerIsUnturned` states what the top-left corner holds; the rest of the turned canvas is whatever the browser drew.
- Heatmaps.CamMap: a NaN map is represented by its size only. Which positions carry which NaN is not modelled; every position is NaN.
- `createOverlay` in both generators, and the final blend of the pseudo map, are not modelled. They consist of compositing (`multiply`, `screen`, `globalAlpha`) and canvas scaling, which are browser internals.
- The ONNX session (creation, `run`, output-name lookup and backpropagation) is not modelled. Feature and gradient tensors and the target score are parameters. `computeGradients` is modelled only as far as its one-hot vector.
- Heatmaps.PaintAt: the alpha of a tinted pixel is round(180·v^1.5), a transcendental on floats. It is abstracted to `Opaque` (v > 0.85, alpha 255) versus `Faded`.
- Heatmaps.PaintAt: the turbo table contents are data, not logic. The paint records the table index, not the colour.
- Float32 rounding of tensors and heatmaps is not modelled. Values are exact reals.
- The following parts of `CardDeal` are not modelled: `fetch`, JSON and blob handling, the `setTimeout` that hides the notice, and JSX rendering. Which stage throws is a parameter. Validation (`isLikelyChestXray`) is a boolean parameter.
- AnalysisPanel.PerformFullAnalysis: a run is otherwise treated as one transition. Interleaving with an upload is modelled only for a run that succeeds (`Resume`); a rejected or failed run interleaved with an upload writes its own step list too, but that path is not modelled.
- Business.tsx `setInterval` scheduling is not modelled. One tick is one atomic transition.
- The static pages, Navbar, Updates, Clients and Button are not modelled. They contain no logic beyond what the footer dispatcher already shows.
- Heatmaps.PseudoMap requires at least one feature channel. With zero channels the source divides 0 by 0 and yields NaN.
- Heatmaps.MinMaxNormalize: the code returns a flat map unchanged instead of mapping it to zeros. The model follows the code.
- Heatmaps.AttentionHeatmap: the code divides the attention map by its maximum only, with no subtraction of the minimum. The model follows the code.
- Numeric.StoreByte: the contract bounds the stored byte to within half a unit. It does not state the tie-breaking to even that the body implements, as the browser does.
- ImageAnalysis.AvgColorDiff is stated only as non-negative; `XrayCheck.IsChestXray` states how it decides acceptance.

## Findings

| source | as written | input that shows it | evidently intended | confidence | as-written member | corrected member |
|---|---|---|---|---|---|---|
| components/CardDeal.tsx:234-236 | Step 2 ("Running AI analysis") is moved to 70% but never set to `completed`. It therefore stays the first processing step for the rest of the run. While stages 3 to 5 run, the tracker shows step 2 still spinning next to the later steps. When the heatmap, boxes or finalisation stage throws, the catch block (lines 303-307) marks step 2 as `error` instead of the failing step. The tracker is rendered only while `loading` is true (line 428), and `finally` clears it (line 310), so this wrong marking is in the step list but may never be on screen. A successful run likewise leaves step 2 `processing` in the state, though the tracker is then hidden | The heatmap request fails after the prediction returned: step 2 becomes `error` and step 3 stays `processing` | Complete step 2 once the prediction returns, as every other step is completed, so that a failure marks the step that failed | not executed | AnalysisPanel.LaterFailureBlamesAnalysis | AnalysisPanel.IntendedTrackerMarksFailingStage |
| utils/imageProcessing.ts:206-228 | The pixels are read before `rotateCanvas` runs, and after it the brightness/contrast result is written back with `putImageData` at (0, 0). The turned drawing is overwritten in its top-left corner by the unturned, adjusted image, and the canvas beyond that corner stays uncorrected. `CardDeal` never reaches this path: it corrects only images the X-ray check accepted (components/CardDeal.tsx, lines 192-211), and those all get rotation 0 | A 1×3 column, black on top, gets rotation 90. Its turned drawing is a 3×1 row, black on the right, and the result is black at both ends | Read the pixels after the turn and correct the turned canvas | not executed | AutoCorrection.TurnedColumnExample | AutoCorrection.IntendedCorrectsTurnedImage |
| components/CardDeal.tsx:400-418 | The file input stays enabled during a run; only Predict is disabled (line 418). `handleImageUpload` clears the result, but the old run keeps its own step array and, when it succeeds, writes `setProcessingSteps`, `setAnalysisResults` and `setResult` (lines 189-297) with nothing telling it a new file was chosen | Choose `second.png` while the prediction for `first.png` is pending: the first file's PNEUMONIA result is shown under the second file's preview | Ignore a run's writes once a newer upload has happened (a run counter in a ref, or an abort) | not executed | AnalysisPanel.StaleDiagnosisExample | AnalysisPanel.GuardedUploadSurvives |
