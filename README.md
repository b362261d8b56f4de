# Fast R-CNN box-head loss, modelled in Dafny

This project models `FastRCNNLossComputation` from
`rcnn/modeling/fast_rcnn/loss.py`, the loss object of the Fast R-CNN box head.
The object is used in two phases:

1. **Subsample.** `subsample(proposals, targets)` matches every proposal of an
   image to a ground-truth box. It then derives a per-proposal class label
   (0 for background, -1 for ignored) and a regression target. The
   positive/negative sampler picks the proposals to keep. The method attaches
   the labels and targets as fields and re-indexes each image at the kept
   positions. The result is stored as the object's session (`_proposals`).
2. **Loss call.** The call `(class_logits, box_regression)` reads that session.
   It concatenates the labels image by image and returns:
   - `loss_classifier`, the cross-entropy, when class logits are present;
   - `loss_box_reg`, when box regression is present. This is the smooth-L1 sum
     over the foreground rows only, reading columns `4*label .. 4*label+3`
     (or 4..7 when regression is class-agnostic). The sum is divided by the
     total number of sampled proposals.

`box_loss_evaluator` builds the object from the global configuration.

Files, one module each:

| file | module | contents |
|---|---|---|
| `outcomes.dfy` | `Outcomes` | `Option`, `Result` and the error kinds the Python code raises |
| `structures.dfy` | `Structures` | boxes, `BoxList` with its three optional fields, `Index` (`BoxList.__getitem__`), `Flatten` (`cat`), `NonZero` (`torch.nonzero`) |
| `collaborators.dfy` | `Collaborators` | matcher, sampler, box coder and numeric kernels as function values, each with a contract predicate; the configuration |
| `targets.dfy` | `Targets` | `match_targets_to_proposals` and `prepare_targets` as functions |
| `sampling.dfy` | `Sampling` | `subsample` as a function, with its properties |
| `losses.dfy` | `Losses` | `__call__` as a function, with its properties |
| `loss_computation.dfy` | `FastRcnn` | the class with its mutable session, the loops of `prepare_targets`, `subsample` and `__call__` as methods proved equal to those functions, and `box_loss_evaluator` |

Collaborators whose code is not part of this model are parameters. They are
assumed to keep the contracts stated in `Collaborators`:
- `boxlist_iou` returns a targets-by-proposals matrix.
- The matcher returns, per proposal, -1, -2 or an index in `[0, numTargets)`.
- The sampler returns masks of the label shapes. It selects positives only where a label is > 0 and negatives only where it is 0.
- The box coder returns one delta per proposal.

The sampler's randomness is a `Seed` argument. The code reads two separate flag
pairs, and the model keeps them apart:
- `prepare_targets` reads `self.cls_on` / `self.reg_on`;
- `subsample` reads `cfg.FAST_RCNN.CLS_ON` / `REG_ON`.

Where the two disagree, the model shows the consequences:
- If `self.cls_on` is off and there is at least one image, the sampler receives `None` labels.
- If `cfg.FAST_RCNN.REG_ON` is on but `self.reg_on` is off, a `None` field is attached, and re-indexing it fails.

**Code and design disagree on images without ground truth.** The design
describes such an image as all background. In the code, the matcher is
followed by `target[matched_idxs.clamp(min=0)]`, and on an empty target list
that index is out of range for every proposal. So an image with proposals but
no ground truth raises an index error. The model follows the code:
`Targets.MatchedTargetsAreGathered` states that matching succeeds exactly when
`|target| > 0 || |proposal| == 0`.

Assumptions about helpers whose code is not part of this model:
- `rcnn/utils/misc.py` `cat` fails on an empty list and on a `None` entry, and otherwise concatenates in list order.
- `BoxList.__getitem__` indexes the boxes and every field with the same indices. It fails on an out-of-range index and on a `None` field.
- The sampler rejects a `None` label tensor.
- `F.cross_entropy` checks that logits and labels have the same number of rows, and that every label is a class index or the ignore index -100.

## Model

| member | source | states |
|---|---|---|
| `Structures.Index` | rcnn/modeling/fast_rcnn/loss.py:45 | indexing a box list succeeds exactly when the indices are in range and no field holds None; the boxes and every field are gathered at the same positions, so field lengths stay equal to the box count |
| `Structures.FlattenLength` | rcnn/modeling/fast_rcnn/loss.py:140 | the concatenation of per-image tensors has the summed length |
| `Structures.FlattenAt` | rcnn/modeling/fast_rcnn/loss.py:140 | element k of image i sits at the summed length of the images before i, plus k (image-major order) |
| `Structures.FlattenMember` | rcnn/modeling/fast_rcnn/loss.py:140 | an element of the concatenation comes from some image |
| `Structures.NonZeroSpec` | rcnn/modeling/fast_rcnn/loss.py:114 | the nonzero positions of a mask are in range and strictly increasing, and are exactly the positions where the mask is true |
| `Targets.Clamp` | rcnn/modeling/fast_rcnn/loss.py:45 | negative match indices become 0 and the others are kept |
| `Targets.ClampedIndexValid` | rcnn/modeling/fast_rcnn/loss.py:42-45 | for a valid matcher output, the clamped indices are valid target indices exactly when the image has a target or no proposal |
| `Targets.MatchTargetsToProposals` | rcnn/modeling/fast_rcnn/loss.py:36-47 | a target list without a labels field fails; otherwise the result has one box per proposal, carries the labels, and its matched_idxs field is the unclamped matcher output |
| `Targets.MatchedTargetsAreGathered` | rcnn/modeling/fast_rcnn/loss.py:37-46 | matching succeeds exactly when the image has a target or no proposal, and fails with an index error otherwise; the boxes and labels are the targets' at the clamped indices |
| `Targets.Overwrite` | rcnn/modeling/fast_rcnn/loss.py:66-71 | a masked assignment writes the value where the match equals the sentinel and leaves every other position unchanged |
| `Targets.AssignLabels` | rcnn/modeling/fast_rcnn/loss.py:62-71 | proposals below the low threshold get label 0, those between the thresholds get -1, and every other proposal keeps the label of its matched ground truth |
| `Targets.PrepareImage` | rcnn/modeling/fast_rcnn/loss.py:53-77 | per image, labels are produced exactly when cls_on is set and regression targets exactly when reg_on is set |
| `Targets.PreparedImage` | rcnn/modeling/fast_rcnn/loss.py:53-77 | one image succeeds exactly when its targets carry labels and matching succeeds; each proposal's label follows the threshold rules with the matched ground-truth label; regression targets encode the matched boxes against every proposal, foreground or not |
| `Targets.PrepareTargetsUpTo` | rcnn/modeling/fast_rcnn/loss.py:49-82 | after n image pairs, both lists have exactly n entries |
| `Targets.PrepareErrorPersists` | rcnn/modeling/fast_rcnn/loss.py:52-55 | once an image fails, every longer run fails with the same error |
| `Targets.PrepareTargetsPerImage` | rcnn/modeling/fast_rcnn/loss.py:49-82 | prepare_targets succeeds exactly when every image pair succeeds, returning one entry per pair in image order; otherwise it fails with the first failing image's error |
| `Sampling.SamplerInput` | rcnn/modeling/fast_rcnn/loss.py:95 | the sampler input fails when any image's labels are None, and otherwise holds every image's labels |
| `Sampling.AttachFields` | rcnn/modeling/fast_rcnn/loss.py:102-107 | labels are attached exactly when the configuration's CLS_ON is set and regression targets exactly when REG_ON is set (None when prepare_targets produced none); the boxes are unchanged |
| `Sampling.Attach` | rcnn/modeling/fast_rcnn/loss.py:97-107 | one box list per proposal image; images beyond the prepared ones are left as they were |
| `Sampling.AttachWellFormed` | rcnn/modeling/fast_rcnn/loss.py:99-107 | attaching per-proposal fields keeps every box list well formed |
| `Sampling.KeptSpec` | rcnn/modeling/fast_rcnn/loss.py:114 | the kept positions are strictly increasing and are exactly those where the positive or the negative mask is true |
| `Sampling.Distribute` | rcnn/modeling/fast_rcnn/loss.py:111-116 | re-indexing the first n images keeps the list length |
| `Sampling.DistributeErrorPersists` | rcnn/modeling/fast_rcnn/loss.py:111-116 | once an image's re-indexing fails, every longer run fails with the same error |
| `Sampling.DistributeKeeps` | rcnn/modeling/fast_rcnn/loss.py:111-116 | re-indexing succeeds exactly when every image's indexing succeeds; each of the first n images is its indexed box list and the rest are unchanged |
| `Sampling.PreparedFits` | rcnn/modeling/fast_rcnn/loss.py:94 | prepared labels and regression targets have one entry per proposal of their image |
| `Sampling.SubsampleSpec` | rcnn/modeling/fast_rcnn/loss.py:84-119 | a successful subsample returns one box list per input proposal list |
| `Sampling.SubsampleKeepsSampledPositions` | rcnn/modeling/fast_rcnn/loss.py:94-116 | each sampled image keeps exactly the positions its positive or negative mask selects, in increasing original order; its boxes and attached fields are gathered at those positions, so every kept label is 0 or positive; images beyond the paired ones are unchanged |
| `Sampling.SubsampleWellFormed` | rcnn/modeling/fast_rcnn/loss.py:111-118 | every box list of a successful subsample is well formed |
| `Sampling.PrepareTargetsSucceed` | rcnn/modeling/fast_rcnn/loss.py:49-82 | when no field holds None, prepare_targets succeeds exactly when every target list has labels and every image has a target or no proposal |
| `Sampling.SamplerInputReadable` | rcnn/modeling/fast_rcnn/loss.py:59-95 | the sampler gets labels exactly when cls_on is set or there is no image |
| `Sampling.DistributeSucceeds` | rcnn/modeling/fast_rcnn/loss.py:104-116 | the re-indexing loop succeeds exactly when no image carries a None regression field, which happens when REG_ON is set but reg_on is not |
| `Sampling.SubsampleSucceeds` | rcnn/modeling/fast_rcnn/loss.py:84-119 | when no input field holds None, subsample succeeds exactly when every image can be matched and, if there is an image, cls_on is set and REG_ON implies reg_on |
| `Losses.FieldParts` | rcnn/modeling/fast_rcnn/loss.py:140-152 | reading a field from every session box list fails when any list lacks it; otherwise one part per box list, None where the field holds None |
| `Losses.Cat` | rcnn/modeling/fast_rcnn/loss.py:140-152 | concatenation fails on an empty list or a None part, and otherwise is the image-major flattening |
| `Losses.FlattenRectangular` | rcnn/modeling/fast_rcnn/loss.py:145-150 | stacking rows of one width gives rows of that width |
| `Losses.CatRows` | rcnn/modeling/fast_rcnn/loss.py:145-150 | row concatenation fails on an empty list, a None entry or a width mismatch, and otherwise gives a rectangular tensor of all rows in order |
| `Losses.PositiveRows` | rcnn/modeling/fast_rcnn/loss.py:157 | the foreground rows are strictly increasing, in range, and are exactly the rows whose label is > 0 |
| `Losses.RegressionColumns` | rcnn/modeling/fast_rcnn/loss.py:159-162 | the four selected columns are 4*label .. 4*label+3, or 4..7 when regression is class-agnostic |
| `Losses.SelectRegression` | rcnn/modeling/fast_rcnn/loss.py:164-166 | the selection succeeds exactly when every row and column is in range, and gives the box-regression cells at those rows and columns |
| `Losses.CatOfTensors` | rcnn/modeling/fast_rcnn/loss.py:140-152 | when every session box list holds the field as a tensor, the concatenation succeeds and is their image-major flattening |
| `Losses.SessionLabelsAreTensors` | rcnn/modeling/fast_rcnn/loss.py:140 | when the session labels concatenate, every box list holds labels and the result is their flattening |
| `Losses.PartsCount` | rcnn/modeling/fast_rcnn/loss.py:140-170 | the concatenated length is the total box count of the session |
| `Losses.SessionLabelsImageMajor` | rcnn/modeling/fast_rcnn/loss.py:140 | label k of session image i sits at the total box count of the images before i, plus k |
| `Losses.RegressionTargetsAligned` | rcnn/modeling/fast_rcnn/loss.py:140-166 | labels and regression targets concatenate to the same length, the total box count; the box loss succeeds exactly when box regression concatenates and its foreground cells can be selected |
| `Losses.LossKeys` | rcnn/modeling/fast_rcnn/loss.py:142-171 | a successful call has loss_classifier exactly when class logits are present, and loss_box_reg exactly when box regression is present |
| `Losses.NoBranchRejected` | rcnn/modeling/fast_rcnn/loss.py:142 | a call with neither branch present fails |
| `Losses.ClassifierSeesEveryLabel` | rcnn/modeling/fast_rcnn/loss.py:140-147 | the classifier loss is the cross-entropy of the concatenated logits over all concatenated session labels, background included; the two have the same row count and every label is a class index or the ignore index |
| `Losses.BoxLossOnForeground` | rcnn/modeling/fast_rcnn/loss.py:149-171 | the box loss sums smooth-L1 over exactly the rows with label > 0, against the regression targets at those rows, and divides by the total number of sampled labels |
| `FastRcnn.CollectField` | rcnn/modeling/fast_rcnn/loss.py:140-152 | the list comprehension over the session returns exactly the field parts |
| `FastRcnn.AttachAll` | rcnn/modeling/fast_rcnn/loss.py:97-107 | the attach loop yields exactly the attached box lists |
| `FastRcnn.DistributeAll` | rcnn/modeling/fast_rcnn/loss.py:111-116 | the in-place re-indexing loop yields exactly the re-indexed list or the first image's error |
| `FastRcnn.FastRCNNLossComputation.constructor` | rcnn/modeling/fast_rcnn/loss.py:18-34 | stores the collaborators and flags; no session yet |
| `FastRcnn.FastRCNNLossComputation.PrepareTargets` | rcnn/modeling/fast_rcnn/loss.py:49-82 | the appending loop computes exactly prepare_targets |
| `FastRcnn.FastRCNNLossComputation.Subsample` | rcnn/modeling/fast_rcnn/loss.py:84-119 | returns exactly subsample's result; on success stores it as the session, on failure leaves the session unchanged; the object stays valid |
| `FastRcnn.FastRCNNLossComputation.Call` | rcnn/modeling/fast_rcnn/loss.py:121-172 | returns exactly the loss of the stored session, fails before any subsample, and modifies nothing, so it can be repeated |
| `FastRcnn.BoxLossEvaluator` | rcnn/modeling/fast_rcnn/loss.py:175-197 | builds a fresh object without a session: the matcher from the two IoU thresholds without low-quality matches, the coder from the regression weights, the sampler from batch size and positive fraction, and all flags from the configuration (so the two flag pairs agree) |

## Left out

- Floating point: `boxlist_iou`, `BoxCoder.encode`, `F.cross_entropy` and `smooth_l1_loss` are function values with shape-only contracts. Their numeric results are not modelled.
- The matcher's thresholding (`rcnn/utils/matcher.py`) is not part of this model. Only the range of its output is assumed.
- The sampler's random choice and its per-image quota (`BATCH_SIZE_PER_IMAGE`, `POSITIVE_FRACTION`) are not modelled. Only the shape and positive/negative placement of its masks are assumed.
- `Losses.BoxRegressionLoss`: the division by `labels.numel()` is kept as a (sum, count) pair. An empty session would divide 0 by 0, giving NaN in the source; that value is not interpreted.
- `FastRcnn.FastRCNNLossComputation.Subsample`: `add_field` mutates the caller's `BoxList` objects in place, so after subsample the caller's proposals also carry the attached fields. The model works on values and does not capture this aliasing.
- `BoxList` fields other than labels, regression_targets and matched_idxs are not modelled, and neither are image size, mode, device or dtype.
- The copy and `to(dtype=torch.int64)` conversions have no effect on the modelled values.
- `models/ops/roi_pool.py`, `models/ops/mixture_batchnorm.py` and the CUDA dispatch stubs are not part of this model. They are numeric or native code outside the loss logic.
