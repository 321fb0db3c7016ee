# Diamond pickup pipeline — a Dafny model

This project models the core of a diamond-sorting pipeline. The pipeline takes a photograph of a plate of loose diamonds and does the following:

- it segments the diamonds (FastSAM masks, optionally merged, filtered by area, with nested detections removed);
- it measures each diamond's outline, reflections, spots and aspect ratio;
- a random-forest model decides whether each diamond lies table-up or tilted;
- each diamond is graded for robotic pickup by its edge-to-edge distance to its nearest neighbour;
- an operator confirms or corrects each verdict with single key presses;
- the verdicts are exported as training rows.

One Dafny module stands for each source file:

| module | file | source |
|---|---|---|
| `Labels` | labels.dfy | orientation and type words, Python's `max`/`min` and the axis ratio shared by several files |
| `Detection` | detection.dfy | src/preprocessing/sam_detector.py |
| `Grading` | grading.dfy | src/grading/pickup_grader.py |
| `ShapeSymmetry` | shape_symmetry.dfy | src/classification/shape_based_symmetry.py |
| `GeometricClassifier` | geometric_classifier.dfy | src/classification/pure_geometric_classifier.py |
| `Core` | core.dfy | src/core.py |
| `Verification` | verify_interactive.dfy | verify_interactive.py |
| `Export` | export_training.dfy | export_training_data.py |

Masks are sets of pixel coordinates. Raw FastSAM masks are maps from pixels to reals, binarised at `> 0.5`.

Everything OpenCV, numpy or the trained models compute is an input. This covers contours, ellipse fits, moments, percentiles, connected components, mirror-correlation scores, square roots and distances, and the forest's prediction. Each such result is passed either as a value or as a function-typed parameter, for example:

- `measure: Mask -> Shape`;
- `centreInside` for `pointPolygonTest`;
- `radius: nat -> real` for `sqrt(area/pi)`;
- `dist` for `np.linalg.norm`;
- `mirror` for `compute_mirror_symmetry`;
- `Model.predictTable` and `Model.probability`.

The operator's key presses and typed answers are parameters (`KeyEvent`). The typed answers are taken as already stripped and lower-cased. File-system lookups are a predicate `fileExists` and a loader `load`.

Where the source changes state step by step, the model does too:

- `DiamondClassifier` and `InteractiveVerifier` are classes whose methods update their fields.
- Merging, nested-ROI removal, the nearest-neighbour scans, the bright-spot and symmetric-axis counts, the classification loop, the re-prompt loops, the grouping dictionary and the first-match searches are loops with invariants.
- The merging, removal, scan, count, classification, prompt, grouping, matching, lookup and export loops are proved against specification functions. The key-press session is proved against Step and Replay, pure functions of the session state. The batch loop is proved against Outcome: each image's records and quit flag are Replay of its key presses after it is classified under the set-up the earlier images left.
- The branching rules (`_make_decision`, `_get_safety_threshold`, `is_circular_diamond`, the type and padding rules) are functions.

## Model

| member | source | states |
|---|---|---|
| Labels.ParseOrientation | verify_interactive.py:118-120 | an answer is accepted exactly when it is "table" or "tilted", and it is read as the orientation it names |
| Labels.ParseType | verify_interactive.py:125-126 | an answer is accepted exactly when it is "round", "emerald" or "other", and it is read as the type it names |
| Labels.OrientationNameRoundTrip | verify_interactive.py:118-120 | reading an orientation's own word gives that orientation back |
| Labels.TypeNameRoundTrip | verify_interactive.py:122-126 | reading a type's own word gives that type back, so the predicted-type default always passes the re-prompt test |
| Labels.AxisRatio | src/preprocessing/sam_detector.py:222-224 | minor/major lies in [0,1] for non-negative axes and is 0 when the major axis is not positive |
| Detection.BinariseIndicator | src/preprocessing/sam_detector.py:149-154 | a merged 0/1 mask binarises back to exactly the pixel set it was built from |
| Detection.IoU | src/preprocessing/sam_detector.py:62-66 | 0 when the union is empty, otherwise in [0,1] |
| Detection.IoUSymmetric | src/preprocessing/sam_detector.py:62-66 | IoU(a,b) = IoU(b,a) |
| Detection.IoUOneIffEqual | src/preprocessing/sam_detector.py:62-66 | for a non-empty union, IoU is 1 exactly when the masks are equal |
| Detection.NestedMaskMerges | src/preprocessing/sam_detector.py:139-146 | a non-empty mask lying inside the current merged mask always satisfies the merge test (containment 1 > 0.5) |
| Detection.DisjointMasksStayApart | src/preprocessing/sam_detector.py:139-146 | disjoint masks never satisfy the merge test for a non-negative overlap threshold |
| Detection.AbsorbKeepsBookkeeping | src/preprocessing/sam_detector.py:148-152 | absorbing unused mask j adds exactly its pixels to the open group, marks it used and leaves one fewer unused mask |
| Detection.AbsorbPass | src/preprocessing/sam_detector.py:130-152 | one pass of the inner loop absorbs unused masks into the open group, keeping every group the union of its members and recording each absorbed mask as tested against the group as it stood then. A pass that absorbs something leaves fewer unused masks. A pass that absorbs nothing leaves no unused mask that passes the merge test against the open group |
| Detection.GrowMerged | src/preprocessing/sam_detector.py:128-152 | the `while changed` loop ends with the open group the union of the masks it owns, the masks up to the seed still used, the absorption history kept, and no unused mask that would pass the merge test against the open group |
| Detection.AbsorbStep | src/preprocessing/sam_detector.py:148-152 | absorbing an unused mask that passes the merge test against the open group keeps the bookkeeping and the history and leaves one fewer unused mask |
| Detection.SeedKeepsHistory | src/preprocessing/sam_detector.py:119-125 | opening a new output on the lowest unused mask makes it that output's seed, after all earlier seeds, and keeps what every absorbed mask was tested against |
| Detection.AbsorbKeepsHistory | src/preprocessing/sam_detector.py:139-152 | absorbing mask j records it as tested against exactly the open group before it joined, which it passed, after the seed; no earlier test record changes |
| Detection.AbsorbingIsOpenOutput | src/preprocessing/sam_detector.py:139-152 | the group mask j is recorded as tested against is the open group as it stood just before j joined it |
| Detection.AbsorbingBetween | src/preprocessing/sam_detector.py:123-152 | the group an absorbed mask was tested against contains its output's seed and lies within the finished output |
| Detection.IsolatedMaskIsSeed | src/preprocessing/sam_detector.py:139-152 | with a non-negative overlap threshold, a mask disjoint from all others is never absorbed: it is the seed of its own output |
| Detection.DisjointMasksGetOwnOutputs | src/preprocessing/sam_detector.py:116-156 | with a non-negative overlap threshold, pairwise disjoint masks all end up in different outputs |
| Detection.FinishKeepsBookkeeping | src/preprocessing/sam_detector.py:128-154 | closing a group when no unused mask passes the merge test keeps every closed group equal to the union of its members |
| Detection.GroupsCoverUnion | src/preprocessing/sam_detector.py:116-156 | when every input belongs to one output and each output is the union of its members, the outputs cover the same pixels as the inputs |
| Detection.MergeBinary | src/preprocessing/sam_detector.py:116-156 | each input is owned by exactly one output and each output is the union of its owned masks. Output k is opened on seed mask `seeds[k]`, seeds increase, and every mask before a seed belongs to an earlier output. Every other mask of an output has a higher index than its seed and passed the merge test against the output as grown when it was absorbed, which holds at least the seed and at most the finished output. An input owned by a later group fails the merge test against an earlier finished group. No more outputs than inputs, and the overall union is unchanged |
| Detection.EachMaskItsOwnSeed | src/preprocessing/sam_detector.py:113-114 | with merging off, every mask is the seed of its own output and the merge history holds |
| Detection.MergeMasks | src/preprocessing/sam_detector.py:111-156 | returns the input unchanged when merging is off or the list is empty, each mask then its own seed. Otherwise it gives at most as many 0/1 masks as inputs, with the same binarised union, each the union of the inputs assigned to it, and no merged mask would still absorb an input that went to a later one (the absorption loop stops only when nothing more merges). Either way the seed-and-absorption history of MergeBinary holds over the binarised inputs; MergedFrom collects all of this |
| Detection.DetectedType | src/preprocessing/sam_detector.py:226-231 | round exactly when the aspect ratio exceeds 0.85, never emerald |
| Detection.PadWindow | src/preprocessing/sam_detector.py:233-237 | the padded crop is clamped into the image, and it contains the bounding box when the box lies in the image |
| Detection.MakeRoi | src/preprocessing/sam_detector.py:242-257 | a new ROI carries the mask's area and the given id, no orientation yet, the round/other rule and the clamped crop |
| Detection.BuildRois | src/preprocessing/sam_detector.py:186-260 | exactly the masks that pass the area filter and the shape checks become ROIs, in input order, with ids 0..n-1 |
| Detection.RemovalRuleStable | src/preprocessing/sam_detector.py:270-298 | marking a later index does not change whether an earlier index should have been marked |
| Detection.ArgMaxArea | src/preprocessing/sam_detector.py:280-281 | picks an index whose area is at least every other ROI's area, so the strict area test here never lets another ROI swallow it |
| Detection.MarkNested | src/preprocessing/sam_detector.py:270-298 | index i is marked exactly when a strictly larger ROI, still unmarked when i is examined, contains i's centre and bounding box |
| Detection.FilterUnmarked | src/preprocessing/sam_detector.py:300 | keeps exactly the unmarked ROIs, in their original order |
| Detection.RemoveNestedRois | src/preprocessing/sam_detector.py:265-305 | lists of at most one ROI come back unchanged. Otherwise the unmarked ROIs are kept in order and renumbered 0..n-1, and a largest ROI is never removed, so a non-empty input gives a non-empty output |
| Detection.Detect | src/preprocessing/sam_detector.py:180-263 | the masks are merged only when merging is on, keeping the union of their pixels, with a merge history as MergeMasks states (MergedFrom). The ROIs built are exactly the accepted merged masks, in order, each made by MakeRoi with its position as id. The result is exactly the built ROIs the removal rule spares, in order and renumbered 0..n-1, so a largest built ROI survives and a built ROI means a non-empty result. At most one ROI per mask, each well formed | |
| Grading.NewGrader | src/grading/pickup_grader.py:29-56 | a pixel distance exists exactly when the image width is given, and then min_distance_px × plate_width_mm = min_distance_mm × width |
| Grading.SafetyThreshold | src/grading/pickup_grader.py:115-140 | the pixel constant when known. Otherwise the radius for a round table-up ROI, and a third of the radius for any other ROI |
| Grading.ThresholdUniformWithWidth | src/grading/pickup_grader.py:125-127 | with a known image width every ROI gets the same threshold |
| Grading.EdgeScan | src/grading/pickup_grader.py:157-176 | the running minimum has no value exactly when every ROI shares the target's id. Otherwise it is ≤ every other ROI's edge distance and attained by one of them, with the required threshold being the smaller of the two thresholds at that ROI. The required threshold never exceeds the target's |
| Grading.FindNearestEdgeDistance | src/grading/pickup_grader.py:142-179 | the loop computes the scan. The edge distance is 0.0 when there is no other ROI and otherwise ≤ each other ROI's edge distance; the threshold is ≤ the target's |
| Grading.CentreScan | src/grading/pickup_grader.py:189-202 | the minimum centre distance over ROIs with another id: absent exactly when there are none, ≤ each such distance, and attained |
| Grading.FindNearestNeighborDistance | src/grading/pickup_grader.py:181-204 | 0.0 with no other ROI. Otherwise a lower bound of every other ROI's centre distance that one of them attains |
| Grading.IsolationGrade | src/grading/pickup_grader.py:96-103 | the isolation grade always lies in [0,10], including the zero-span case numpy turns into ±inf or NaN |
| Grading.IsolationGradeShape | src/grading/pickup_grader.py:96-103 | grade 0 at the threshold and 10 from 6·radius on, and non-decreasing in the edge distance |
| Grading.GradeOne | src/grading/pickup_grader.py:70-111 | with check_orientation a tilted ROI has no grade and no distance. Every other ROI gets its nearest edge distance and grade -1 exactly when that distance is below the required threshold, otherwise a grade in [0,10] |
| Grading.GradeDiamonds | src/grading/pickup_grader.py:58-113 | one graded diamond per ROI, in input order, each graded by GradeOne |
| Grading.LoneDiamondGradedInvalid | src/grading/pickup_grader.py:178 | as written, a single non-tilted ROI with a positive threshold is graded -1 (distance 0.0 falls below the threshold) |
| Grading.LoneDiamondExample | src/grading/pickup_grader.py:88-94 | with the default grader on a 2592-pixel-wide image, a lone table-up ROI is graded -1 |
| Grading.GradeOneCorrected | src/grading/pickup_grader.py:87-111 | tilted ROIs as before. Every other ROI gets a grade that is -1 or in [0,10] |
| Grading.CorrectedInvalidNeedsNeighbour | src/grading/pickup_grader.py:90-94 | in the corrected grading, -1 requires a neighbour closer than the threshold, and a lone non-tilted ROI is graded 10 |
| Grading.CorrectionAgreesWithNeighbours | src/grading/pickup_grader.py:142-179 | whenever another ROI exists, the corrected grading equals the grading as written |
| Grading.GradeRoiCorrected | src/grading/pickup_grader.py:70-111 | one pass of the corrected grading loop computes the corrected grade of that ROI |
| Grading.GradeDiamondsCorrected | src/grading/pickup_grader.py:58-113 | one graded diamond per ROI, in input order, each graded by GradeOneCorrected |
| ShapeSymmetry.IsCircularDiamond | src/classification/shape_based_symmetry.py:455-509 | false when either measure is below its threshold. Without the dark-centre test, true exactly when both thresholds are met. With it, true exactly when the ring is brighter than the centre by more than 0.05 or both measures exceed 0.92 |
| ShapeSymmetry.Angles | src/classification/shape_based_symmetry.py:533 | num_angles angles i·180/num_angles, each in [0,180) |
| ShapeSymmetry.CountAbove | src/classification/shape_based_symmetry.py:536-543 | at most the number of scores. It equals that number exactly when every score is above the threshold, and is 0 exactly when none is |
| ShapeSymmetry.ComputeMultiAxisSymmetry | src/classification/shape_based_symmetry.py:511-547 | the count of scores > 0.75 over the tested angles, at most num_angles. The mean is absent (numpy's NaN) exactly when no angle is tested, and otherwise the mean of the scores |
| ShapeSymmetry.MeanInUnit | src/classification/shape_based_symmetry.py:545 | the mean of unit-interval scores lies in [0,1] |
| ShapeSymmetry.CountInRange | src/classification/shape_based_symmetry.py:213-218 | at most the number of components, and equal to it exactly when every area is in the window |
| ShapeSymmetry.CountInRangeMonotone | src/classification/shape_based_symmetry.py:213-218 | widening the area window never lowers the spot count |
| ShapeSymmetry.CountBrightSpots | src/classification/shape_based_symmetry.py:172-220 | 0 spots for an empty mask. Otherwise the number of components whose area lies in [min_bright_area, max_bright_area] |
| ShapeSymmetry.CentralWindow | src/classification/shape_based_symmetry.py:307-314 | 0 ≤ y1, y2 ≤ h, 0 ≤ x1 and x2 ≤ w, and y1 ≤ y2 and x1 ≤ x2 for a non-negative radius fraction |
| ShapeSymmetry.WindowPixels | src/classification/shape_based_symmetry.py:316-317 | with no mask value above 127 in the window, no pixel is masked in. Gray values in [0,255] stay in range |
| ShapeSymmetry.MaskedGray | src/classification/shape_based_symmetry.py:322 | the selected gray values are empty exactly when no mask value exceeds 127, and stay in [0,255] |
| ShapeSymmetry.SumIntBounds | src/classification/shape_based_symmetry.py:327 | a sum of values in [0,255] lies in [0, 255·n] |
| ShapeSymmetry.CentralBrightness | src/classification/shape_based_symmetry.py:290-327 | 0.0 when the window holds no mask pixel. With gray values in [0,255], the brightness lies in [0,1] |
| ShapeSymmetry.AnalyzeSymmetry | src/classification/shape_based_symmetry.py:549-678 | default axes (0,90) and ratio 1 without an ellipse. Otherwise the angle ± 90 and min/max of the ellipse sides, or 1 when degenerate. best = max(major, minor), circularity capped at 1, is_circular by the rule above. Circular shapes get the mean of the eight mirror scores and the count of those above 0.75; non-circular shapes get multi-axis = best with 0 axes. The bright-spot count is the number of component areas in [10, 1000], or 0 for an empty mask |
| GeometricClassifier.WeakCount | src/classification/pure_geometric_classifier.py:518-524 | at most 3, and 0 exactly when outline ≥ 0.60, reflection ≥ 0.55 and aspect ≥ 0.52 |
| GeometricClassifier.MakeDecision | src/classification/pure_geometric_classifier.py:497-549 | strong table gives table with the mean. Otherwise two weak scores give tilted with 1 − mean. Otherwise table with the final score exactly when it is ≥ 0.60, else tilted with 1 − final. Inputs in [0,1] give a confidence in [0,1] |
| GeometricClassifier.DefaultStrongTableHasNoWeakScore | src/classification/pure_geometric_classifier.py:510-524 | with the default thresholds, a strong table has no weak score |
| GeometricClassifier.SpotNeverDemotesTable | src/classification/pure_geometric_classifier.py:533-549 | with a spot threshold of at least 0.60, finding a large spot never turns a table verdict of the mixed rule into tilted |
| GeometricClassifier.TableConfidenceFloor | src/classification/pure_geometric_classifier.py:510-549 | a table verdict's confidence is at least the smaller of 0.60 and the mean of the three primary thresholds |
| GeometricClassifier.CalculateAspectRatio | src/classification/pure_geometric_classifier.py:475-495 | 0 for fewer than 5 contour points. Otherwise min/max of the axes, in [0,1] |
| GeometricClassifier.AspectRatioSymmetric | src/classification/pure_geometric_classifier.py:492-493 | the ratio ignores the order of the axes and is 1 exactly for equal positive axes |
| GeometricClassifier.OutlineSymmetry | src/classification/pure_geometric_classifier.py:147-173 | (0,0) for fewer than 5 points. Otherwise the best symmetry with the axis of the better side, major on ties |
| GeometricClassifier.AnalyzeLargeSpots | src/classification/pure_geometric_classifier.py:341-435 | no spot for an empty mask. A spot exists exactly when the light or dark largest component exceeds 15% of the mask area. The light one wins when large and not smaller than the dark one. The symmetry is 0 without a spot |
| GeometricClassifier.LargerSpotChosen | src/classification/pure_geometric_classifier.py:417-428 | when both spots are large, the chosen spot is the larger one, and the light spot wins a tie |
| GeometricClassifier.Analyze | src/classification/pure_geometric_classifier.py:94-145 | the four metrics feed `_make_decision`, and the result carries its orientation and confidence |
| GeometricClassifier.ClassifyOrientation | src/classification/pure_geometric_classifier.py:71-92 | (tilted, 0.0) when the image or mask is missing or the contour has fewer than 5 points. Otherwise the analysis's decision |
| Core.DetectorFor | src/core.py:75-90 | min_area ≥ 30, max_area ≥ 1000, min ≤ max, padding 10, no merging |
| Core.DetectorAtReferenceResolution | src/core.py:79-83 | at 2592×1944 the area window is 200..20000 |
| Core.EncodeFeatures | src/core.py:146-155 | eight features in the model's order. has_spot is 0 or 1, and the emerald and other flags are 0/1 and never both 1 |
| Core.EncodeFeaturesRoundTrip | src/core.py:151-155 | the type flags decode back to the detected type, and the spot flag is 1 exactly when there is a spot |
| Core.ClassifyRoi | src/core.py:138-191 | carries the ROI's id, type, box, centre and area. Table exactly when the model predicts 1, with the probability of the predicted class as confidence |
| Core.CountOrientation | src/core.py:168-172 | a tally never exceeds the number of classifications |
| Core.TableAndTiltedPartition | src/core.py:168-172 | table_count + tilted_count = number of classifications |
| Core.Pickable | src/core.py:195 | only diamonds with a grade ≥ 0, all from the input |
| Core.InvalidCount | src/core.py:196 | at most the number of graded diamonds |
| Core.PickableAndInvalidDisjoint | src/core.py:195-196 | pickable_count + invalid_count ≤ total |
| Core.AverageGradeInRange | src/core.py:197 | the average grade (0.0 with nothing pickable) lies in [0,10] |
| Core.ClassifyRois | src/core.py:134-191 | for any per-ROI classifier: one classification per ROI in order, each ROI copied with its predicted orientation, and table and tilted tallies that count the classifications and sum to the ROI count |
| Core.GradeAndSummarise | src/core.py:193-197 | one graded diamond per oriented ROI, in order, graded by `grade_diamonds` as written (GradeOne). The pickable count, invalid count and mean pickable grade are those of that list, pickable + invalid ≤ the ROI count, and the mean lies in [0,10] |
| Core.GradedSplitTableCount | src/core.py:193-196 | when exactly the tilted predictions go ungraded and every grade is -1 or ≥ 0, pickable + invalid = the table count |
| Core.AsWrittenAgreesWithCorrected | src/core.py:194 | on an image with two or more ROIs numbered by position, `grade_diamonds` as written and the corrected grading give every ROI the same grade, so the two differ only on a lone diamond |
| Core.SummariseRois | src/core.py:121-212 | no ROIs give the all-zero result and no graded diamonds. Otherwise each ROI is classified in order by the model, the tallies count the classifications and sum to the total, each ROI carrying its predicted orientation is graded by GradeOne among all of them, and the pickable, invalid and average figures are those of these grades. pickable + invalid ≤ total, the average lies in [0,10], and with check_orientation pickable + invalid = the table count |
| Core.DiamondClassifier.constructor | src/core.py:59-73 | keeps the model, default geometric thresholds, and no detector, grader or graded diamonds yet |
| Core.ClassifyWith | src/core.py:117-212 | with the detector and grader set up, the ROIs are what Detect finds, numbered by position and well formed. Each is classified by the model, the oriented ROIs are graded with `grade_diamonds` as written, and the result summarises them (ClassifiedWith). No detections give the all-zero result. Pickable plus invalid never exceed the total, the average grade lies in [0, 10], and with the orientation check pickable plus invalid equal the table count |
| Core.DiamondClassifier.ClassifyImage | src/core.py:99-212 | the set-up afterwards is SetUpFor of the set-up before: the detector and grader are created from the first image's size and then kept. The ROIs are exactly what Detect finds with that detector, and the result is their classification, grading with `grade_diamonds` as written and summary (ClassifiedWith). No detections give the all-zero result and keep the last graded diamonds. Otherwise the graded diamonds are kept for `get_roi_image` | |
| Core.DiamondClassifier.SetUp | src/core.py:110-116 | a detector sized for the image is made only when there is none, and likewise a grader for its width; whatever was set up is kept, and the graded diamonds are untouched |
| Core.SetUpFor | src/core.py:110-116 | after any image is classified, both a detector and a grader exist |
| Core.ChainSnoc | src/core.py:110-116 | a chain of set-ups grows by what offering the next image leaves |
| Core.NoLoadNoSetup | src/core.py:110-116 | starting from nothing, no detector or grader exists while no offered image has loaded |
| Core.FirstLoadedFixesSetup | src/core.py:75-116 | after the first image that loads, the detector is the one `_initialize_detector` makes for that image's height and width and the pickup grader is the one `_initialize_grader` makes for its width, for every later image |
| Core.LoadedUnderFirstSetup | src/core.py:75-116 | every image that loads, from the first one on, is classified under the detector and grader made for the first loaded image's size |
| Core.DiamondClassifier.GetRoiImage | src/core.py:229-246 | None before any graded image or when no ROI has the id. Otherwise the crop of the first graded ROI with that id |
| Verification.PromptOrientation | verify_interactive.py:118-120 | the first typed answer naming an orientation, with how many answers it took (FirstParsed). None, after reading every answer, when none names one |
| Verification.PromptType | verify_interactive.py:122-126 | an empty first answer keeps the predicted type. Otherwise the first answer naming a type (FirstParsed), so a later empty answer is no default. None, after reading every answer, when none names one |
| Verification.CountCorrectBounds | verify_interactive.py:245 | correct ≤ total, with equality exactly when every record is confirmed and 0 exactly when none is |
| Verification.Percent | verify_interactive.py:246 | 100·correct/total lies in [0,100], times total gives 100·correct, and is 100 exactly when all are correct |
| Verification.FirstParsed | verify_interactive.py:118-126 | no answer is accepted exactly when the result is None. Otherwise the answer at the reported position is accepted, gives the result, and every earlier answer is rejected |
| Verification.CorrectionNeedsAnswers | verify_interactive.py:110-141 | n records a correction exactly when some answer is the first to name an orientation and, after it, the next answer is empty or a later answer names a type |
| Verification.CorrectionLabels | verify_interactive.py:118-126 | a recorded correction carries the orientation of the first answer that names one, and the predicted type when the answer after it is empty |
| Verification.Correction | verify_interactive.py:128-138 | the n record is for the current classification and image, marked not correct, and keeps the predicted type, orientation and confidence |
| Verification.Confirmed | verify_interactive.py:94-106 | a y record is marked correct and repeats the prediction as the verified labels |
| Verification.InteractiveVerifier.constructor | verify_interactive.py:25-32 | no verdicts, cursor 0, quit flag off |
| Verification.Step | verify_interactive.py:87-165 | one key press on a session: old records kept as a prefix and at most one added, only by y or n at a valid cursor, for the classification under the cursor with the image's name, the cursor then advancing by one. The cursor moves at most one and never past the end, quit is never cleared and is newly set only by q or by reaching the end, and any other key changes nothing |
| Verification.Replay | verify_interactive.py:79-165 | the key presses handled in order until they run out or quit is set: old records kept as a prefix, the cursor never past the end, nothing handled once quit is set, and a newly set quit comes from reaching the end or from some q |
| Verification.Confirmations | verify_interactive.py:94-106 | one confirmed record per classification, in order |
| Verification.ReplayFirst | verify_interactive.py:79-165 | while quit is clear, replaying presses is handling the first and replaying the rest |
| Verification.StepConfirms | verify_interactive.py:94-108 | y at a valid cursor appends the confirmed record and advances |
| Verification.ConfirmEveryClassification | verify_interactive.py:87-165 | pressing y once per remaining classification confirms each of them in order, ends at the last one and sets quit |
| Verification.SkipEveryClassification | verify_interactive.py:147-165 | pressing s once per remaining classification records nothing, ends at the last one and sets quit |
| Verification.QuitRecordsNothing | verify_interactive.py:153-157 | q as the first press sets quit and records nothing, leaving the cursor where it was |
| Verification.InteractiveVerifier.OnKey | verify_interactive.py:87-165 | past the end, or on any key other than y/n/s/q, nothing changes. y appends the confirmed record and advances by one. n appends exactly the Correction read from the typed answers and advances by one, or, when the answers run out before both labels are read, changes nothing. s advances without a record. q only sets quit. An advance that reaches the end sets quit, quit is never cleared, and a consistent list stays consistent |. The new session state is Step of the old one |
| Verification.InteractiveVerifier.RunSession | verify_interactive.py:79-85 | with the quit flag clear at the start, the cursor restarts at 0 and moves at most one per handled key press. Presses are handled in order until they run out or quit is set, and any unhandled press means quit is set. Old records are kept as a prefix. Each new record traces back to a distinct classification before the cursor, in increasing order, with the image's name and that classification's id. Reaching the last classification sets quit, and handling no press records nothing |. The final records, cursor and quit flag are exactly Replay of the presses from cursor 0 on the old records |
| Verification.InteractiveVerifier.SessionStep | verify_interactive.py:87-165 | one key press keeps the session state: the record it adds, if any, is for the classification at the cursor before the press, and y at a valid position always adds one |. The new session state is Step of the old one |
| Verification.InteractiveVerifier.VerifyImage | verify_interactive.py:34-64 | the image name is set, and the classifier's set-up is what offering the image leaves (Offered): unchanged when the image cannot be read, otherwise the detector and grader already set up, or made for this image's size. An unreadable image changes nothing else. Otherwise the current classifications are exactly those of `classify_image`'s result on this image under that set-up (ClassifiedWith: detected, classified, graded and summarised). No diamonds adds no verdict and leaves the quit flag clear. Otherwise the records, cursor and quit flag are exactly Replay of the key presses from cursor 0 on the old records: earlier verdicts are kept as a prefix, a first y confirms classification 0, and each new verdict carries this image's name and the id of a distinct classification of it, in order |
| Verification.InteractiveVerifier.VerifyLoaded | verify_interactive.py:49-64 | for a loaded image: the classifier's set-up becomes SetUpFor of the old one, and the current classifications are those of `classify_image`'s result on the image under it (ClassifiedWith). No diamonds adds nothing and leaves quit clear; otherwise the records, cursor and quit flag are Replay of the key presses from cursor 0 on the old records |
| Verification.InteractiveVerifier.VerifyImageInBatch | verify_interactive.py:310-316 | `verify_image` on image n as the batch loop uses it extends the batch facts (BatchSoFar) by one image: earlier verdicts unchanged, new verdicts under the image's name and none for an unreadable image, the set-up chain extended by what offering the image leaves, and image n's Outcome: its records and quit flag are those of classifying it under set-up n and replaying its key presses |
| Verification.InteractiveVerifier.SaveVerifications | verify_interactive.py:226-259 | nothing for an empty list. Otherwise total, correct = number of confirmed records, wrong = total − correct, and accuracy = 100·correct/total in [0,100], 100 exactly when all are correct |
| Verification.VerifyBatch | verify_interactive.py:262-322 | a fresh verifier goes through the images in order and stops after the first image that sets the quit flag. A non-empty list processes at least one image; the quit flag is clear after every processed image but the last, and stopping before the end means it was set after the last processed one. The set-ups start from nothing and follow SetupChain, so every loadable image is classified under the detector and grader fixed by the first loadable one (LoadedUnderFirstSetup). For every processed image k, Outcome holds: its records `snaps[k+1]` and its quit flag are `classify_image` on image k under `setups[k]` followed by Replay of its key presses from `snaps[k]`. The verdicts of image k lie between `starts[k]` and `starts[k+1]`, all under its name, with none for an unreadable image. There is a summary exactly when there are verdicts, and it counts all of them, the confirmed ones, and their percentage |
| Verification.OutcomesSnoc | verify_interactive.py:310-316 | the outcomes of the earlier images survive appending the next image's set-up, records and quit flag, and the next image's outcome joins them |
| Verification.BatchGrows | verify_interactive.py:310-316 | one more image whose new records extend the old ones under its name (none when unreadable), with its outcome and the set-up offering it leaves, extends the batch facts by one image |
| Verification.Loads | verify_interactive.py:310-312 | the image each entry offers, in order |
| Verification.AddedUnderName | verify_interactive.py:94-138 | records traced to an image's classifications leave the earlier records unchanged and all carry that image's name |
| Export.Images | export_training_data.py:64-70 | the image names, without repeats |
| Export.ForImage | export_training_data.py:64-70 | a group holds only verdicts of its image, taken from the input |
| Export.FirstIndex | export_training_data.py:66-69 | the first position where an image name occurs |
| Export.NotListedNotPresent | export_training_data.py:68-69 | a name not among the keys has no verdict and an empty group |
| Export.EveryImageListed | export_training_data.py:64-70 | every verdict's image is a key |
| Export.ImagesInFirstAppearanceOrder | export_training_data.py:64-72 | groups are processed in the order their images first appear |
| Export.GroupsCoverAll | export_training_data.py:64-70 | the group sizes add up to the number of verdicts, so each verdict lies in exactly one group |
| Export.GroupByImage | export_training_data.py:64-70 | the dictionary's keys in insertion order are the images by first appearance. Each value is that image's verdicts in input order |
| Export.FirstMatch | export_training_data.py:99-104 | absent exactly when no classification has the id. Otherwise a classification with that id |
| Export.FirstMatchIsEarliest | export_training_data.py:99-104 | the match found is the earliest classification with the id |
| Export.FindClassification | export_training_data.py:98-108 | the search loop with its break finds the first match |
| Export.MakeSample | export_training_data.py:110-125 | label 1 exactly for table. The emerald and other flags are 0/1, never both, and round gives 0/0. has_spot is 0/1, and the features are copied from the classification |
| Export.LabelsRoundTrip | export_training_data.py:120-122 | the numeric label and flags decode back to the verified orientation and type |
| Export.MatchGroup | export_training_data.py:98-127 | the rows are MatchedRows: one per verdict with a matching classification, in group order, each built from its first match. So there are no more rows than verdicts, and every row agrees with a verdict's image, ROI id and labels |
| Export.MatchedHas | export_training_data.py:98-125 | every verdict with a matching classification yields the row built from it and its first match |
| Export.MatchedRowsTraceable | export_training_data.py:110-125 | every row of MatchedRows agrees with a verdict of the group: image, ROI id and verified labels, which the numeric columns decode back to |
| Export.Stem | export_training_data.py:80 | a prefix of the name. When shorter, it is cut at the last dot, never at a leading or trailing one |
| Export.StemOfSuffixed | export_training_data.py:80 | the stem of base.ext is base for a non-empty base and a dot-free extension |
| Export.Candidates | export_training_data.py:76-83 | the name itself, then stem + .jp2, .jpg, .jpeg, .png |
| Export.FirstExisting | export_training_data.py:76-87 | None exactly when no name exists. Otherwise the first existing name, every earlier one missing |
| Export.FindImageFile | export_training_data.py:75-87 | the first existing candidate in that order, or none when no candidate exists |
| Export.FirstExistingAt | export_training_data.py:76-83 | a name that exists after names that do not is the first existing one |
| Export.FoundFileFacts | export_training_data.py:75-87 | the lookup finds nothing exactly when no candidate exists, and otherwise the first existing candidate |
| Export.LoadedImage | export_training_data.py:75-93 | an image exactly when its file is found and loads, and then the loaded image |
| Export.LoadsOf | export_training_data.py:72-93 | what each image loads to, in order |
| Export.TraceableAppend | export_training_data.py:127 | appending rows that trace to a group of the verdicts keeps every row traceable to the verdicts |
| Export.ExportImage | export_training_data.py:73-127 | no rows when none of the image's candidate files exists or the found file does not load, and the classifier's set-up is then unchanged. Otherwise the set-up becomes SetUpFor of the old one (detector and grader made for this image's size only when missing), the classifications are those of `classify_image`'s result on the loaded image under it (Classified), numbered by position, and the rows are exactly MatchedRows of its group against them |
| Export.ExportGroups | export_training_data.py:72-127 | image g is offered under `setups[g]`, starting from the classifier's own set-up, following SetupChain and ending at its set-up afterwards. The rows are the export of the images in order: each image's MatchedRows when it loads, none otherwise, and each loaded image's classifications are `classify_image`'s result on it under the set-up it was offered with (AllClassified) |
| Export.ExportTrainingData | export_training_data.py:61-131 | for the images in order of first appearance, with set-ups starting from nothing and following SetupChain (so the first image that loads fixes the detector and grader for all later ones, LoadedUnderFirstSetup), the rows are exactly each loadable image's verdicts matched against the classifications `classify_image` gives it under its set-up, and none for an image that cannot be found or loaded. No more rows than verdicts, every row agrees with a verdict's image, id and labels, the CSV is written exactly when there is a row, and no image found means no rows |
| Export.AllClassifiedEach | export_training_data.py:72-96 | the per-image classification facts hold at every position |
| Export.AllClassifiedLonger | export_training_data.py:72-96 | the per-image classification facts look only at the set-ups of the images covered |
| Export.ExportedWithinGroups | export_training_data.py:72-127 | the export holds no more rows than the groups hold verdicts, and every row agrees with a verdict |
| Export.NothingFoundNothingExported | export_training_data.py:73-87 | when no image loads, the export has no rows |
| Export.VerdictExported | export_training_data.py:98-125 | a verdict of a loadable image whose ROI id is a position among its classifications yields the row built from that classification |

## Left out

- OpenCV and numpy numerics are not modelled: contours, morphology, `fitEllipse`, moments, CLAHE, percentiles, connected components, mirror correlation, ring brightness, uniformity and gradients. Their results are inputs.
- `sqrt`, `pi` and `np.linalg.norm` are not modelled. Radii and distances are given functions.
- `_initialize_detector`'s `sqrt(x)**2` is taken as exactly `x` before the `int()` truncation. Floating-point rounding in that product is not modelled.
- FastSAM inference and the joblib random forest are opaque. The model is assumed to predict one of the two classes 0/1.
- `_is_valid_diamond_shape`, the empty-contour, `len(contour) < 5` and zero-moment skips in `detect` are folded into the `measure` oracle's `usable` flag.
- When FastSAM returns no masks, the mask list is taken as empty.
- matplotlib rendering, `_update_display`, figure closing and reopening, `print` and the prompts' wording are not modelled. `input()` is modelled as a finite list of answers.
- GeometricClassifier.MakeDecision: scores and thresholds are exact reals, so IEEE rounding at the threshold tests is not modelled. For outline = reflection = aspect = 0.55 with a spot of symmetry 1.0, Python computes `abs(0.55 - 0.60)` as 0.04999999999999993 < 0.05 and blends in the spot, giving ('table', 0.685); in reals the distance is exactly 0.05, so the model gives ('tilted', 0.45).
- Verification.InteractiveVerifier.OnKey: when the answers run out, the handler ends without a record, standing for the exception `input()` would raise.
- Verification.InteractiveVerifier.RunSession: requires the quit flag to be clear when the session starts, as `verify_batch` ensures by stopping once it is set. A session opened after quitting, whose key presses `_on_key` would still handle, is not modelled.
- Verification.InteractiveVerifier.VerifyImage: requires the quit flag to be clear, for the same reason as RunSession.
- Timestamps in verification records are not modelled.
- File and JSON/CSV I/O, `mkdir`, `glob` and the directory listing in `verify_batch` are not modelled. Neither are the missing-path and missing-model error returns in `verify_batch` and `export_training_data`. Images arrive as an already-listed sequence, and the CSV write is a boolean.
- `visualize_grades`, `visualize_pickup_order`, `get_visualization` and `create_*` factory functions are drawing or convenience code and are not part of this model.
- process_batch.py and classify_diamond.py are not part of this model: they are I/O orchestration around `classify_image`.
- The `__init__.py` files only re-export names and are not part of this model.
- `PickupGrader.invalid_threshold` and `diamond_type` are stored but never read, so they are not fields of the model.
- Mutation of ROI objects in place (`roi.orientation`, `roi.id`) is modelled by returning updated copies. Aliasing between the caller's list and the returned list is not captured.
- Stem: models `Path.stem` for a bare file name. Names containing a directory separator are not modelled.
- ShapeSymmetry.AnalyzeSymmetry: the CLAHE normalisation is not modelled. The gray image is taken as already normalised.

## Findings

| source | as written | input that shows it | evidently intended | confidence | as-written member | corrected member |
|---|---|---|---|---|---|---|
| src/grading/pickup_grader.py:178 | with no other ROI the nearest edge distance falls back to 0.0, which is below any positive threshold, so the diamond is graded -1 (invalid) | one table-up ROI on a 2592-pixel-wide image with the default grader (threshold 51.84 px) | a diamond with no neighbour is fully isolated: grade 10, no nearest distance | not executed | Grading.LoneDiamondGradedInvalid | Grading.GradeOneCorrected |
