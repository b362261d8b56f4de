/**
 * The subsample stage: labels and regression targets are attached to each
 * image's proposals, then each image is cut down to the positions its positive
 * or negative mask selects, in their original order.
 */
module Sampling {
  import opened Outcomes
  import opened Structures
  import opened Collaborators
  import opened Targets

  /**
   * The sampler reads every image's labels as a tensor; an image whose labels
   * are None (classification switched off) cannot be read.
   */
  function SamplerInput(labels: seq<Option<seq<int>>>): (r: Result<seq<seq<int>>>)
    ensures r.Ok? <==> forall i :: 0 <= i < |labels| ==> labels[i].Some?
    ensures r.Ok? ==> |r.value| == |labels| && forall i :: 0 <= i < |labels| ==> r.value[i] == labels[i].value
    ensures r.Err? ==> r.error == NoneTensor
  {
    if exists i :: 0 <= i < |labels| && labels[i].None? then Err(NoneTensor)
    else Ok(seq(|labels|, i requires 0 <= i < |labels| => labels[i].value))
  }

  /**
   * The fields subsample attaches to one image's proposals. It consults the
   * configuration's flags, not the object's own: "labels" when cfg.clsOn, and
   * "regression_targets" when cfg.regOn, holding None if the object computed none.
   */
  function AttachFields(s: Setup, proposal: BoxList, labels: seq<int>, regressionTargets: Option<seq<Delta>>): (r: BoxList)
    ensures r.bbox == proposal.bbox && r.matchedIdxs == proposal.matchedIdxs
    ensures r.labels == if s.cfg.clsOn then Tensor(labels) else proposal.labels
    ensures r.regressionTargets ==
              if !s.cfg.regOn then proposal.regressionTargets
              else if regressionTargets.Some? then Tensor(regressionTargets.value)
              else NoneValue
  {
    var withLabels := if s.cfg.clsOn then proposal.(labels := Tensor(labels)) else proposal;
    if s.cfg.regOn then
      withLabels.(regressionTargets := if regressionTargets.Some? then Tensor(regressionTargets.value) else NoneValue)
    else withLabels
  }

  /** The first loop of subsample: fields attached to the first |labels| images. */
  function Attach(s: Setup, proposals: seq<BoxList>, labels: seq<seq<int>>, regressionTargets: seq<Option<seq<Delta>>>): (r: seq<BoxList>)
    requires |labels| <= |proposals| && |regressionTargets| == |labels|
    ensures |r| == |proposals|
  {
    seq(|proposals|, i requires 0 <= i < |proposals| =>
      if i < |labels| then AttachFields(s, proposals[i], labels[i], regressionTargets[i]) else proposals[i])
  }

  /** Attaching fields as long as the boxes keeps every box list well formed. */
  lemma AttachWellFormed(s: Setup, proposals: seq<BoxList>, labels: seq<seq<int>>, regressionTargets: seq<Option<seq<Delta>>>)
    requires |labels| <= |proposals| && |regressionTargets| == |labels| && AllWellFormed(proposals)
    requires forall i :: 0 <= i < |labels| ==>
               |labels[i]| == |proposals[i].bbox| &&
               (regressionTargets[i].Some? ==> |regressionTargets[i].value| == |proposals[i].bbox|)
    ensures AllWellFormed(Attach(s, proposals, labels, regressionTargets))
  {
  }

  function Or(a: seq<bool>, b: seq<bool>): (r: seq<bool>)
    requires |a| == |b|
    ensures |r| == |a|
  {
    seq(|a|, i requires 0 <= i < |a| => a[i] || b[i])
  }

  /** `torch.nonzero(pos | neg)`: the positions one image keeps. */
  function Kept(pos: seq<bool>, neg: seq<bool>): seq<nat>
    requires |pos| == |neg|
  {
    NonZero(Or(pos, neg))
  }

  /** The kept positions are exactly those either mask selects, strictly increasing. */
  lemma KeptSpec(pos: seq<bool>, neg: seq<bool>)
    requires |pos| == |neg|
    ensures InRange(Kept(pos, neg), |pos|) && StrictlyIncreasing(Kept(pos, neg))
    ensures forall x :: x in Kept(pos, neg) <==> 0 <= x < |pos| && (pos[x] || neg[x])
  {
    NonZeroSpec(Or(pos, neg));
  }

  predicate MasksFit(masks: Masks, n: nat) {
    |masks.pos| >= n && |masks.neg| >= n &&
    forall i :: 0 <= i < n ==> |masks.pos[i]| == |masks.neg[i]|
  }

  /**
   * The second loop of subsample over the first `n` images: each is replaced by
   * its box list indexed at the kept positions; the first failing image raises.
   */
  function Distribute(proposals: seq<BoxList>, masks: Masks, n: nat): (r: Result<seq<BoxList>>)
    requires n <= |proposals| && AllWellFormed(proposals) && MasksFit(masks, n)
    ensures r.Ok? ==> |r.value| == |proposals|
    decreases n
  {
    if n == 0 then Ok(proposals)
    else
      var prev :- Distribute(proposals, masks, n - 1);
      var image :- Index(proposals[n - 1], Kept(masks.pos[n - 1], masks.neg[n - 1]));
      Ok(prev[n - 1 := image])
  }

  /** Once an image fails, every longer run fails with the same error. */
  lemma {:induction false} DistributeErrorPersists(proposals: seq<BoxList>, masks: Masks, k: nat, n: nat)
    requires k <= n <= |proposals| && AllWellFormed(proposals) && MasksFit(masks, n)
    requires Distribute(proposals, masks, k).Err?
    ensures Distribute(proposals, masks, n) == Distribute(proposals, masks, k)
    decreases n
  {
    if n > k {
      DistributeErrorPersists(proposals, masks, k, n - 1);
    }
  }

  /**
   * Distribution succeeds exactly when every image can be indexed; it then
   * replaces each of the first `n` images by its indexed box list and leaves the
   * others as they were.
   */
  lemma {:induction false} DistributeKeeps(proposals: seq<BoxList>, masks: Masks, n: nat)
    requires n <= |proposals| && AllWellFormed(proposals) && MasksFit(masks, n)
    ensures Distribute(proposals, masks, n).Ok? <==>
              forall i :: 0 <= i < n ==> Index(proposals[i], Kept(masks.pos[i], masks.neg[i])).Ok?
    ensures var r := Distribute(proposals, masks, n);
            r.Ok? ==> forall i :: 0 <= i < |proposals| ==>
              r.value[i] == if i < n then Index(proposals[i], Kept(masks.pos[i], masks.neg[i])).value else proposals[i]
    decreases n
  {
    if n > 0 {
      DistributeKeeps(proposals, masks, n - 1);
    }
  }

  /** With honest collaborators, every image's labels and regression targets have one entry per proposal. */
  lemma PreparedFits(s: Setup, proposals: seq<BoxList>, targets: seq<BoxList>)
    requires HonestIou(s.kernels.iou) && HonestMatcher(s.matcher) && HonestEncoder(s.boxCoder)
    requires AllWellFormed(targets) && PrepareTargetsSpec(s, proposals, targets).Ok?
    ensures var p := PrepareTargetsSpec(s, proposals, targets).value;
            |p.labels| == NumImages(proposals, targets) &&
            forall i :: 0 <= i < |p.labels| ==>
              (p.labels[i].Some? ==> |p.labels[i].value| == |proposals[i].bbox|) &&
              (p.regressionTargets[i].Some? ==> |p.regressionTargets[i].value| == |proposals[i].bbox|)
  {
    var n := NumImages(proposals, targets);
    PrepareTargetsPerImage(s, proposals, targets, n);
    forall i | 0 <= i < n
      ensures PrepareImage(s, proposals[i], targets[i]).Ok? ==>
                var image := PrepareImage(s, proposals[i], targets[i]).value;
                (image.labels.Some? ==> |image.labels.value| == |proposals[i].bbox|) &&
                (image.regressionTargets.Some? ==> |image.regressionTargets.value| == |proposals[i].bbox|)
    {
      PreparedImage(s, proposals[i], targets[i]);
    }
  }

  /**
   * subsample: prepare the targets, let the sampler choose, attach the fields,
   * then keep each image's chosen positions.
   */
  function SubsampleSpec(s: Setup, proposals: seq<BoxList>, targets: seq<BoxList>, seed: Seed): (r: Result<seq<BoxList>>)
    requires Honest(s) && AllWellFormed(proposals) && AllWellFormed(targets)
    ensures r.Ok? ==> |r.value| == |proposals|
  {
    var prepared :- PrepareTargetsSpec(s, proposals, targets);
    var labels :- SamplerInput(prepared.labels);
    var masks := s.sampler(labels, seed);
    PreparedFits(s, proposals, targets);
    assert IsSample(labels, masks);
    AttachWellFormed(s, proposals, labels, prepared.regressionTargets);
    Distribute(Attach(s, proposals, labels, prepared.regressionTargets), masks, |labels|)
  }

  /**
   * After subsample, image `i` (one of the image pairs) holds exactly the
   * proposals at the positions its positive or negative mask selects, in strictly
   * increasing original order; every attached field is re-indexed by the same
   * positions; and no kept proposal carries the ignore label -1. Proposals beyond
   * the image pairs are left as they were.
   */
  lemma SubsampleKeepsSampledPositions(s: Setup, proposals: seq<BoxList>, targets: seq<BoxList>, seed: Seed, i: nat)
    requires Honest(s) && AllWellFormed(proposals) && AllWellFormed(targets)
    requires SubsampleSpec(s, proposals, targets, seed).Ok? && i < |proposals|
    ensures PrepareTargetsSpec(s, proposals, targets).Ok?
    ensures SamplerInput(PrepareTargetsSpec(s, proposals, targets).value.labels).Ok?
    ensures var prepared := PrepareTargetsSpec(s, proposals, targets).value;
            var labels := SamplerInput(prepared.labels).value;
            var masks := s.sampler(labels, seed);
            var out := SubsampleSpec(s, proposals, targets, seed).value;
            IsSample(labels, masks) && |labels| == NumImages(proposals, targets) &&
            WellFormed(out[i]) &&
            (i >= |labels| ==> out[i] == proposals[i]) &&
            (i < |labels| ==>
               var kept := Kept(masks.pos[i], masks.neg[i]);
               var attached := AttachFields(s, proposals[i], labels[i], prepared.regressionTargets[i]);
               |labels[i]| == |proposals[i].bbox| && WellFormed(attached) &&
               InRange(kept, |proposals[i].bbox|) && StrictlyIncreasing(kept) &&
               (forall x :: x in kept <==> 0 <= x < |proposals[i].bbox| && (masks.pos[i][x] || masks.neg[i][x])) &&
               Index(attached, kept) == Ok(out[i]) &&
               out[i].bbox == Gather(proposals[i].bbox, kept) &&
               (s.cfg.clsOn ==> out[i].labels == Tensor(Gather(labels[i], kept))) &&
               (s.cfg.regOn ==>
                  prepared.regressionTargets[i].Some? &&
                  out[i].regressionTargets == Tensor(Gather(prepared.regressionTargets[i].value, kept))) &&
               forall k :: 0 <= k < |kept| ==> labels[i][kept[k]] >= 0)
  {
    var prepared := PrepareTargetsSpec(s, proposals, targets).value;
    var labels := SamplerInput(prepared.labels).value;
    var masks := s.sampler(labels, seed);
    PreparedFits(s, proposals, targets);
    assert IsSample(labels, masks);
    var attachedAll := Attach(s, proposals, labels, prepared.regressionTargets);
    AttachWellFormed(s, proposals, labels, prepared.regressionTargets);
    DistributeKeeps(attachedAll, masks, |labels|);
    if i < |labels| {
      var kept := Kept(masks.pos[i], masks.neg[i]);
      KeptSpec(masks.pos[i], masks.neg[i]);
      forall k | 0 <= k < |kept|
        ensures labels[i][kept[k]] >= 0
      {
        assert kept[k] in kept;
      }
    }
  }

  /** Every box list subsample returns is well formed. */
  lemma SubsampleWellFormed(s: Setup, proposals: seq<BoxList>, targets: seq<BoxList>, seed: Seed)
    requires Honest(s) && AllWellFormed(proposals) && AllWellFormed(targets)
    requires SubsampleSpec(s, proposals, targets, seed).Ok?
    ensures AllWellFormed(SubsampleSpec(s, proposals, targets, seed).value)
  {
    forall i | 0 <= i < |proposals|
      ensures WellFormed(SubsampleSpec(s, proposals, targets, seed).value[i])
    {
      SubsampleKeepsSampledPositions(s, proposals, targets, seed, i);
    }
  }

  /** prepare_targets succeeds exactly when every image pair can be matched. */
  lemma PrepareTargetsSucceed(s: Setup, proposals: seq<BoxList>, targets: seq<BoxList>)
    requires HonestIou(s.kernels.iou) && HonestMatcher(s.matcher) && HonestEncoder(s.boxCoder)
    requires AllWellFormed(targets)
    ensures PrepareTargetsSpec(s, proposals, targets).Ok? <==>
              forall i :: 0 <= i < NumImages(proposals, targets) ==>
                targets[i].labels.Tensor? && (|targets[i].bbox| > 0 || |proposals[i].bbox| == 0)
  {
    var n := NumImages(proposals, targets);
    PrepareTargetsPerImage(s, proposals, targets, n);
    forall i | 0 <= i < n
      ensures PrepareImage(s, proposals[i], targets[i]).Ok? <==>
                targets[i].labels.Tensor? && (|targets[i].bbox| > 0 || |proposals[i].bbox| == 0)
    {
      PreparedImage(s, proposals[i], targets[i]);
    }
  }

  /** The sampler can read the prepared labels exactly when there is no image pair or classification is on. */
  lemma SamplerInputReadable(s: Setup, proposals: seq<BoxList>, targets: seq<BoxList>)
    requires AllWellFormed(targets) && PrepareTargetsSpec(s, proposals, targets).Ok?
    ensures SamplerInput(PrepareTargetsSpec(s, proposals, targets).value.labels).Ok? <==>
              NumImages(proposals, targets) == 0 || s.clsOn
  {
    var n := NumImages(proposals, targets);
    PrepareTargetsPerImage(s, proposals, targets, n);
    var prepared := PrepareTargetsSpec(s, proposals, targets).value;
    if n > 0 {
      assert prepared.labels[0] == PrepareImage(s, proposals[0], targets[0]).value.labels;
    }
  }

  /**
   * Once the sampler has chosen, re-indexing fails only on a "regression_targets"
   * field holding None, which the configuration attaches when it asks for regression
   * targets that the object did not compute.
   */
  lemma DistributeSucceeds(s: Setup, proposals: seq<BoxList>, targets: seq<BoxList>, seed: Seed)
    requires Honest(s) && AllWellFormed(proposals) && AllWellFormed(targets)
    requires forall i :: 0 <= i < |proposals| ==> !HoldsNone(proposals[i])
    requires PrepareTargetsSpec(s, proposals, targets).Ok?
    requires SamplerInput(PrepareTargetsSpec(s, proposals, targets).value.labels).Ok?
    ensures SubsampleSpec(s, proposals, targets, seed).Ok? <==>
              NumImages(proposals, targets) == 0 || !(s.cfg.regOn && !s.regOn)
  {
    var n := NumImages(proposals, targets);
    var prepared := PrepareTargetsSpec(s, proposals, targets).value;
    var labels := SamplerInput(prepared.labels).value;
    var masks := s.sampler(labels, seed);
    PreparedFits(s, proposals, targets);
    PrepareTargetsPerImage(s, proposals, targets, n);
    assert IsSample(labels, masks);
    var attachedAll := Attach(s, proposals, labels, prepared.regressionTargets);
    AttachWellFormed(s, proposals, labels, prepared.regressionTargets);
    assert SubsampleSpec(s, proposals, targets, seed) == Distribute(attachedAll, masks, n);
    DistributeKeeps(attachedAll, masks, n);
    forall i | 0 <= i < n
      ensures Index(attachedAll[i], Kept(masks.pos[i], masks.neg[i])).Ok? <==> !(s.cfg.regOn && !s.regOn)
    {
      KeptSpec(masks.pos[i], masks.neg[i]);
      assert prepared.regressionTargets[i] == PrepareImage(s, proposals[i], targets[i]).value.regressionTargets;
    }
    if n > 0 {
      assert Index(attachedAll[0], Kept(masks.pos[0], masks.neg[0])).Ok? <==> !(s.cfg.regOn && !s.regOn);
    }
  }

  /**
   * For inputs carrying no None field, subsample succeeds exactly when every
   * image pair's targets carry a "labels" tensor and have a ground-truth box
   * unless the image has no proposal, and, when there is an image pair at all,
   * classification is on and the configuration does not ask for a
   * "regression_targets" field the object did not compute.
   */
  lemma SubsampleSucceeds(s: Setup, proposals: seq<BoxList>, targets: seq<BoxList>, seed: Seed)
    requires Honest(s) && AllWellFormed(proposals) && AllWellFormed(targets)
    requires forall i :: 0 <= i < |proposals| ==> !HoldsNone(proposals[i])
    ensures SubsampleSpec(s, proposals, targets, seed).Ok? <==>
              (forall i :: 0 <= i < NumImages(proposals, targets) ==>
                 targets[i].labels.Tensor? && (|targets[i].bbox| > 0 || |proposals[i].bbox| == 0)) &&
              (NumImages(proposals, targets) > 0 ==> s.clsOn && (s.cfg.regOn ==> s.regOn))
  {
    PrepareTargetsSucceed(s, proposals, targets);
    var prep := PrepareTargetsSpec(s, proposals, targets);
    if prep.Ok? {
      SamplerInputReadable(s, proposals, targets);
      if SamplerInput(prep.value.labels).Ok? {
        DistributeSucceeds(s, proposals, targets, seed);
      }
    }
  }
}
