/**
 * FastRCNNLossComputation: the loss object, its two-state protocol (no session,
 * then a session stored by subsample) and the loops of prepare_targets,
 * subsample and the loss call; and box_loss_evaluator, which wires one up from
 * the configuration.
 */
module FastRcnn {
  import opened Outcomes
  import opened Structures
  import opened Collaborators
  import opened Targets
  import opened Sampling
  import opened Losses

  /** `[p.get_field(name) for p in session]`, one box list at a time. */
  method CollectField<T>(fields: seq<Field<T>>, name: string) returns (r: Result<seq<Option<seq<T>>>>)
    ensures r == FieldParts(fields, name)
  {
    var parts: seq<Option<seq<T>>> := [];
    var i := 0;
    while i < |fields|
      invariant 0 <= i <= |fields|
      invariant forall j :: 0 <= j < i ==> !fields[j].Absent?
      invariant parts == seq(i, j requires 0 <= j < i => Part(fields[j]))
    {
      if fields[i].Absent? {
        return Err(MissingField(name));
      }
      parts := parts + [Part(fields[i])];
      i := i + 1;
    }
    r := Ok(parts);
  }

  /** The first loop of subsample: attach the per-image fields in place. */
  method AttachAll(s: Setup, proposals: seq<BoxList>, labels: seq<seq<int>>, regressionTargets: seq<Option<seq<Delta>>>)
    returns (r: seq<BoxList>)
    requires |labels| <= |proposals| && |regressionTargets| == |labels|
    ensures r == Attach(s, proposals, labels, regressionTargets)
  {
    r := proposals;
    var i := 0;
    while i < |labels|
      invariant 0 <= i <= |labels| && |r| == |proposals|
      invariant forall j :: 0 <= j < |proposals| ==>
                  r[j] == if j < i then AttachFields(s, proposals[j], labels[j], regressionTargets[j]) else proposals[j]
    {
      r := r[i := AttachFields(s, r[i], labels[i], regressionTargets[i])];
      i := i + 1;
    }
  }

  /** The second loop of subsample: replace each image by its sampled positions. */
  method DistributeAll(proposals: seq<BoxList>, masks: Masks, n: nat) returns (r: Result<seq<BoxList>>)
    requires n <= |proposals| && AllWellFormed(proposals) && MasksFit(masks, n)
    ensures r == Distribute(proposals, masks, n)
  {
    var sampled := proposals;
    var i := 0;
    while i < n
      invariant 0 <= i <= n && |sampled| == |proposals|
      invariant Distribute(proposals, masks, i) == Ok(sampled)
      invariant forall j :: i <= j < |sampled| ==> sampled[j] == proposals[j]
    {
      var image := Index(sampled[i], Kept(masks.pos[i], masks.neg[i]));
      if image.Err? {
        DistributeErrorPersists(proposals, masks, i + 1, n);
        return Err(image.error);
      }
      sampled := sampled[i := image.value];
      i := i + 1;
    }
    r := Ok(sampled);
  }

  class FastRCNNLossComputation {
    const proposalMatcher: Matcher
    const fgBgSampler: Sampler
    const boxCoder: Encoder
    const clsAgnosticBboxReg: bool
    const clsOn: bool
    const regOn: bool
    /** The global configuration, which subsample and the loss call read directly. */
    const cfg: Config
    /** boxlist_iou, cross_entropy and smooth_l1_loss. */
    const kernels: Kernels
    /** `_proposals`: None until subsample stores a session. */
    var session: Option<seq<BoxList>>

    function AsSetup(): Setup {
      Setup(proposalMatcher, fgBgSampler, boxCoder, kernels, clsAgnosticBboxReg, clsOn, regOn, cfg)
    }

    /** The collaborators keep their contracts and a stored session is well formed. */
    ghost predicate Valid()
      reads this
    {
      Honest(AsSetup()) && (session.Some? ==> AllWellFormed(session.value))
    }

    constructor (proposalMatcher: Matcher, fgBgSampler: Sampler, boxCoder: Encoder,
                 clsAgnosticBboxReg: bool, clsOn: bool, regOn: bool, cfg: Config, kernels: Kernels)
      requires Honest(Setup(proposalMatcher, fgBgSampler, boxCoder, kernels, clsAgnosticBboxReg, clsOn, regOn, cfg))
      ensures Valid() && session.None?
      ensures this.proposalMatcher == proposalMatcher && this.fgBgSampler == fgBgSampler && this.boxCoder == boxCoder
      ensures this.clsAgnosticBboxReg == clsAgnosticBboxReg && this.clsOn == clsOn && this.regOn == regOn
      ensures this.cfg == cfg && this.kernels == kernels
    {
      this.proposalMatcher := proposalMatcher;
      this.fgBgSampler := fgBgSampler;
      this.boxCoder := boxCoder;
      this.clsAgnosticBboxReg := clsAgnosticBboxReg;
      this.clsOn := clsOn;
      this.regOn := regOn;
      this.cfg := cfg;
      this.kernels := kernels;
      session := None;
    }

    /** prepare_targets: one pass over the image pairs, appending to two lists. */
    method PrepareTargets(proposals: seq<BoxList>, targets: seq<BoxList>) returns (r: Result<TargetLists>)
      requires AllWellFormed(targets)
      ensures r == PrepareTargetsSpec(AsSetup(), proposals, targets)
    {
      var s := AsSetup();
      var n := NumImages(proposals, targets);
      var labels: seq<Option<seq<int>>> := [];
      var regressionTargets: seq<Option<seq<Delta>>> := [];
      var i := 0;
      while i < n
        invariant 0 <= i <= n
        invariant PrepareTargetsUpTo(s, proposals, targets, i) == Ok(TargetLists(labels, regressionTargets))
      {
        var image := PrepareImage(s, proposals[i], targets[i]);
        if image.Err? {
          PrepareErrorPersists(s, proposals, targets, i + 1, n);
          return Err(image.error);
        }
        labels := labels + [image.value.labels];
        regressionTargets := regressionTargets + [image.value.regressionTargets];
        i := i + 1;
      }
      r := Ok(TargetLists(labels, regressionTargets));
    }

    /**
     * subsample: prepare the targets, sample, attach the fields image by image,
     * replace each image by its sampled positions, and store the result as the
     * session. A failure raises before the session is touched.
     */
    method Subsample(proposals: seq<BoxList>, targets: seq<BoxList>, seed: Seed) returns (r: Result<seq<BoxList>>)
      requires Valid() && AllWellFormed(proposals) && AllWellFormed(targets)
      modifies this
      ensures Valid()
      ensures r == SubsampleSpec(AsSetup(), proposals, targets, seed)
      ensures session == if r.Ok? then Some(r.value) else old(session)
    {
      var s := AsSetup();
      var prepared :- PrepareTargets(proposals, targets);
      var labels :- SamplerInput(prepared.labels);
      var masks := fgBgSampler(labels, seed);
      PreparedFits(s, proposals, targets);
      assert IsSample(labels, masks);

      AttachWellFormed(s, proposals, labels, prepared.regressionTargets);
      var attached := AttachAll(s, proposals, labels, prepared.regressionTargets);
      var sampled :- DistributeAll(attached, masks, |labels|);
      SubsampleWellFormed(s, proposals, targets, seed);
      session := Some(sampled);
      r := Ok(sampled);
    }

    /**
     * The loss call (`__call__`). It reads the session and changes nothing, so
     * it can be repeated with fresh logits.
     */
    method Call(classLogits: seq<Option<Tensor2>>, boxRegression: seq<Option<Tensor2>>) returns (r: Result<LossDict>)
      requires AllRectangular(classLogits) && AllRectangular(boxRegression)
      ensures r == LossSpec(AsSetup(), session, classLogits, boxRegression)
      ensures session.None? ==> r == Err(SubsampleNotCalled)
    {
      if session.None? {
        return Err(SubsampleNotCalled);
      }
      var current := session.value;
      var labelParts :- CollectField(LabelFields(current), "labels");
      var labels :- Cat(labelParts);
      if |classLogits| == 0 {
        return Err(IndexOutOfRange);
      }
      if classLogits[0].None? && |boxRegression| == 0 {
        return Err(IndexOutOfRange);
      }
      if classLogits[0].None? && boxRegression[0].None? {
        return Err(NoBranch);
      }
      var lossClassifier: Option<real> := None;
      if classLogits[0].Some? {
        var loss :- ClassifierLoss(kernels.crossEntropy, classLogits, labels);
        lossClassifier := Some(loss);
      }
      if |boxRegression| == 0 {
        return Err(IndexOutOfRange);
      }
      var lossBoxReg: Option<BoxLoss> := None;
      if boxRegression[0].Some? {
        var loss :- BoxRegressionLoss(AsSetup(), current, boxRegression, labels);
        lossBoxReg := Some(loss);
      }
      r := Ok(LossDict(lossClassifier, lossBoxReg));
    }
  }

  /** The constructors box_loss_evaluator builds the collaborators with. */
  datatype Factories = Factories(
    matcher: (real, real, bool) -> Matcher,
    sampler: (nat, real) -> Sampler,
    boxCoder: seq<real> -> Encoder)

  ghost predicate HonestFactories(make: Factories) {
    (forall high, low, allowLowQuality :: HonestMatcher(make.matcher(high, low, allowLowQuality))) &&
    (forall batchSize, fraction :: HonestSampler(make.sampler(batchSize, fraction))) &&
    (forall weights :: HonestEncoder(make.boxCoder(weights)))
  }

  /**
   * box_loss_evaluator: the matcher from the two IoU thresholds without
   * low-quality matches, the coder from the regression weights, the sampler from
   * the batch size and positive fraction, and every flag from the configuration.
   */
  method BoxLossEvaluator(cfg: Config, make: Factories, kernels: Kernels) returns (evaluator: FastRCNNLossComputation)
    requires HonestFactories(make) && HonestIou(kernels.iou)
    ensures fresh(evaluator) && evaluator.Valid() && evaluator.session.None?
    ensures evaluator.proposalMatcher == make.matcher(cfg.fgIouThreshold, cfg.bgIouThreshold, false)
    ensures evaluator.boxCoder == make.boxCoder(cfg.bboxRegWeights)
    ensures evaluator.fgBgSampler == make.sampler(cfg.batchSizePerImage, cfg.positiveFraction)
    ensures evaluator.clsAgnosticBboxReg == cfg.clsAgnosticBboxReg && evaluator.cfg == cfg
    ensures evaluator.clsOn == evaluator.cfg.clsOn && evaluator.regOn == evaluator.cfg.regOn
  {
    var matcher := make.matcher(cfg.fgIouThreshold, cfg.bgIouThreshold, false);
    var boxCoder := make.boxCoder(cfg.bboxRegWeights);
    var sampler := make.sampler(cfg.batchSizePerImage, cfg.positiveFraction);
    evaluator := new FastRCNNLossComputation(matcher, sampler, boxCoder, cfg.clsAgnosticBboxReg, cfg.clsOn, cfg.regOn, cfg, kernels);
  }
}
