/**
 * Matching ground truth to proposals and turning the match into labels and
 * regression targets, image by image (match_targets_to_proposals and
 * prepare_targets).
 */
module Targets {
  import opened Outcomes
  import opened Structures
  import opened Collaborators

  /** `matched_idxs.clamp(min=0)`. */
  function Clamp(m: seq<int>): (r: seq<nat>)
    ensures |r| == |m|
  {
    seq(|m|, i requires 0 <= i < |m| => if m[i] < 0 then 0 else m[i])
  }

  /** The matcher's verdict for one image: IoU of targets against proposals, then matched. */
  function MatchOf(s: Setup, proposal: BoxList, target: BoxList): seq<int> {
    s.matcher(s.kernels.iou(target.bbox, proposal.bbox))
  }

  /**
   * The clamped gather index is valid for every proposal exactly when the image
   * has a ground-truth box or has no proposal at all.
   */
  lemma ClampedIndexValid(m: seq<int>, numTargets: nat, numProposals: nat)
    requires IsMatchResult(m, numTargets, numProposals)
    ensures InRange(Clamp(m), numTargets) <==> numTargets > 0 || numProposals == 0
  {
    if numTargets == 0 && numProposals > 0 {
      assert Clamp(m)[0] == 0;
    }
  }

  /**
   * The targets gathered for each proposal: the "labels" field of the targets
   * (alone) and their boxes, taken at the clamped match, with the unclamped match
   * attached as "matched_idxs".
   */
  function MatchTargetsToProposals(s: Setup, proposal: BoxList, target: BoxList): (r: Result<BoxList>)
    requires WellFormed(target)
    ensures r.Ok? ==> WellFormed(r.value) && r.value.labels.Tensor?
    ensures r.Ok? ==> r.value.matchedIdxs == Tensor(MatchOf(s, proposal, target))
    ensures r.Ok? ==> |r.value.bbox| == |MatchOf(s, proposal, target)|
    ensures target.labels.Absent? ==> r == Err(MissingField("labels"))
  {
    var matched := MatchOf(s, proposal, target);
    if target.labels.Absent? then Err(MissingField("labels"))
    else
      var gathered :- Index(BoxList(target.bbox, target.labels, Absent, Absent), Clamp(matched));
      Ok(gathered.(matchedIdxs := Tensor(matched)))
  }

  /**
   * With honest collaborators and a "labels" tensor on the targets, matching
   * fails exactly for an image without ground truth that has proposals; otherwise
   * every proposal gets the box and label of the ground truth at its clamped match,
   * and "matched_idxs" is the matcher output unchanged.
   */
  lemma MatchedTargetsAreGathered(s: Setup, proposal: BoxList, target: BoxList)
    requires HonestIou(s.kernels.iou) && HonestMatcher(s.matcher)
    requires WellFormed(target) && target.labels.Tensor?
    ensures IsMatchResult(MatchOf(s, proposal, target), |target.bbox|, |proposal.bbox|)
    ensures MatchTargetsToProposals(s, proposal, target).Ok? <==> |target.bbox| > 0 || |proposal.bbox| == 0
    ensures MatchTargetsToProposals(s, proposal, target).Err? ==>
              MatchTargetsToProposals(s, proposal, target).error == IndexOutOfRange
    ensures var m := MatchOf(s, proposal, target);
            var r := MatchTargetsToProposals(s, proposal, target);
            r.Ok? ==>
              |r.value.bbox| == |proposal.bbox| && r.value.matchedIdxs == Tensor(m) &&
              r.value.bbox == Gather(target.bbox, Clamp(m)) &&
              r.value.labels == Tensor(Gather(target.labels.values, Clamp(m)))
  {
    var q := s.kernels.iou(target.bbox, proposal.bbox);
    assert q.rows == |target.bbox| && q.cols == |proposal.bbox|;
    assert IsMatchResult(s.matcher(q), q.rows, q.cols);
    ClampedIndexValid(MatchOf(s, proposal, target), |target.bbox|, |proposal.bbox|);
  }

  /** Masked assignment `v[m == sentinel] = value`. */
  function Overwrite(v: seq<int>, m: seq<int>, sentinel: int, value: int): (r: seq<int>)
    requires |v| == |m|
    ensures |r| == |v|
  {
    seq(|v|, i requires 0 <= i < |v| => if m[i] == sentinel then value else v[i])
  }

  /**
   * The labels of one image: background (0) below the low threshold, ignore (-1)
   * between the thresholds, and otherwise the matched ground truth's label.
   */
  function AssignLabels(matchedLabels: seq<int>, matched: seq<int>): (r: seq<int>)
    requires |matchedLabels| == |matched|
    ensures |r| == |matched|
    ensures forall i :: 0 <= i < |r| ==>
              (matched[i] == BELOW_LOW_THRESHOLD ==> r[i] == 0) &&
              (matched[i] == BETWEEN_THRESHOLDS ==> r[i] == -1) &&
              (matched[i] != BELOW_LOW_THRESHOLD && matched[i] != BETWEEN_THRESHOLDS ==> r[i] == matchedLabels[i])
  {
    var background := Overwrite(matchedLabels, matched, BELOW_LOW_THRESHOLD, 0);
    Overwrite(background, matched, BETWEEN_THRESHOLDS, -1)
  }

  /** What prepare_targets produces for one image; None where a branch is switched off. */
  datatype ImageTargets = ImageTargets(labels: Option<seq<int>>, regressionTargets: Option<seq<Delta>>)

  /** One iteration of prepare_targets. */
  function PrepareImage(s: Setup, proposal: BoxList, target: BoxList): (r: Result<ImageTargets>)
    requires WellFormed(target)
    ensures r.Ok? ==> (r.value.labels.Some? <==> s.clsOn) && (r.value.regressionTargets.Some? <==> s.regOn)
  {
    var matched :- MatchTargetsToProposals(s, proposal, target);
    Ok(ImageTargets(
      if s.clsOn then Some(AssignLabels(matched.labels.values, matched.matchedIdxs.values)) else None,
      if s.regOn then Some(s.boxCoder(matched.bbox, proposal.bbox)) else None))
  }

  /**
   * For one image, with honest collaborators: the labels follow the matcher
   * verdict proposal by proposal, and regression targets are encoded for every
   * proposal (foreground or not) against the gathered ground-truth box.
   */
  lemma PreparedImage(s: Setup, proposal: BoxList, target: BoxList)
    requires HonestIou(s.kernels.iou) && HonestMatcher(s.matcher) && HonestEncoder(s.boxCoder)
    requires WellFormed(target)
    ensures var r := PrepareImage(s, proposal, target);
            r.Ok? <==> target.labels.Tensor? && (|target.bbox| > 0 || |proposal.bbox| == 0)
    ensures var r := PrepareImage(s, proposal, target);
            var m := MatchOf(s, proposal, target);
            r.Ok? ==>
              (s.clsOn ==>
                 |r.value.labels.value| == |proposal.bbox| &&
                 forall i :: 0 <= i < |proposal.bbox| ==>
                   (m[i] == BELOW_LOW_THRESHOLD ==> r.value.labels.value[i] == 0) &&
                   (m[i] == BETWEEN_THRESHOLDS ==> r.value.labels.value[i] == -1) &&
                   (m[i] >= 0 ==> r.value.labels.value[i] == target.labels.values[m[i]])) &&
              (s.regOn ==>
                 |r.value.regressionTargets.value| == |proposal.bbox| &&
                 r.value.regressionTargets.value == s.boxCoder(Gather(target.bbox, Clamp(m)), proposal.bbox))
  {
    if target.labels.NoneValue? {
      assert HoldsNone(BoxList(target.bbox, target.labels, Absent, Absent));
    } else if target.labels.Tensor? {
      MatchedTargetsAreGathered(s, proposal, target);
    }
  }

  /** The two lists prepare_targets returns. */
  datatype TargetLists = TargetLists(labels: seq<Option<seq<int>>>, regressionTargets: seq<Option<seq<Delta>>>)

  /** Images are the pairs `zip(proposals, targets)` forms. */
  function NumImages(proposals: seq<BoxList>, targets: seq<BoxList>): nat {
    if |proposals| < |targets| then |proposals| else |targets|
  }

  /** prepare_targets over the first `n` image pairs; the first failing image raises. */
  function PrepareTargetsUpTo(s: Setup, proposals: seq<BoxList>, targets: seq<BoxList>, n: nat): (r: Result<TargetLists>)
    requires n <= |proposals| && n <= |targets| && AllWellFormed(targets)
    ensures r.Ok? ==> |r.value.labels| == n && |r.value.regressionTargets| == n
    decreases n
  {
    if n == 0 then Ok(TargetLists([], []))
    else
      var prev :- PrepareTargetsUpTo(s, proposals, targets, n - 1);
      var image :- PrepareImage(s, proposals[n - 1], targets[n - 1]);
      Ok(TargetLists(prev.labels + [image.labels], prev.regressionTargets + [image.regressionTargets]))
  }

  function PrepareTargetsSpec(s: Setup, proposals: seq<BoxList>, targets: seq<BoxList>): Result<TargetLists>
    requires AllWellFormed(targets)
  {
    PrepareTargetsUpTo(s, proposals, targets, NumImages(proposals, targets))
  }

  /** Once an image fails, every longer run fails with the same error. */
  lemma {:induction false} PrepareErrorPersists(s: Setup, proposals: seq<BoxList>, targets: seq<BoxList>, k: nat, n: nat)
    requires k <= n <= |proposals| && n <= |targets| && AllWellFormed(targets)
    requires PrepareTargetsUpTo(s, proposals, targets, k).Err?
    ensures PrepareTargetsUpTo(s, proposals, targets, n) == PrepareTargetsUpTo(s, proposals, targets, k)
    decreases n
  {
    if n > k {
      PrepareErrorPersists(s, proposals, targets, k, n - 1);
    }
  }

  /**
   * prepare_targets yields one entry per image pair, in image order, each the
   * result for that image; it fails exactly when some image fails, with the
   * error of the first one.
   */
  lemma {:induction false} PrepareTargetsPerImage(s: Setup, proposals: seq<BoxList>, targets: seq<BoxList>, n: nat)
    requires n <= |proposals| && n <= |targets| && AllWellFormed(targets)
    ensures var r := PrepareTargetsUpTo(s, proposals, targets, n);
            r.Ok? <==> forall i :: 0 <= i < n ==> PrepareImage(s, proposals[i], targets[i]).Ok?
    ensures var r := PrepareTargetsUpTo(s, proposals, targets, n);
            r.Ok? ==> forall i :: 0 <= i < n ==>
              r.value.labels[i] == PrepareImage(s, proposals[i], targets[i]).value.labels &&
              r.value.regressionTargets[i] == PrepareImage(s, proposals[i], targets[i]).value.regressionTargets
    ensures var r := PrepareTargetsUpTo(s, proposals, targets, n);
            r.Err? ==>
              exists i ::
                0 <= i < n && PrepareImage(s, proposals[i], targets[i]) == Err(r.error) &&
                forall j :: 0 <= j < i ==> PrepareImage(s, proposals[j], targets[j]).Ok?
    decreases n
  {
    if n > 0 {
      PrepareTargetsPerImage(s, proposals, targets, n - 1);
    }
  }
}
