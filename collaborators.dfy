/**
 * The collaborators of the loss computation whose code is not part of this
 * model: the IoU kernel, the proposal matcher, the balanced positive/negative
 * sampler, the box coder and the two loss kernels. Each is a function value;
 * what the loss code relies on is stated as a contract predicate over it.
 * Also the configuration entries the loss code reads.
 */
module Collaborators {
  import opened Structures

  /** Matcher sentinel: the best overlap is below the low threshold. */
  const BELOW_LOW_THRESHOLD: int := -1
  /** Matcher sentinel: the best overlap is between the two thresholds. */
  const BETWEEN_THRESHOLDS: int := -2

  /** A match-quality matrix: one row per ground-truth box, one column per proposal. */
  datatype Matrix = Matrix(rows: nat, cols: nat, iou: seq<seq<real>>)

  /** The random state one sampler call draws from. */
  type Seed = nat

  /** Per image, the positive and the negative mask chosen by the sampler. */
  datatype Masks = Masks(pos: seq<seq<bool>>, neg: seq<seq<bool>>)

  type IouKernel = (seq<Box>, seq<Box>) -> Matrix
  type Matcher = Matrix -> seq<int>
  type Sampler = (seq<seq<int>>, Seed) -> Masks
  type Encoder = (seq<Box>, seq<Box>) -> seq<Delta>
  type CrossEntropyKernel = (Tensor2, seq<int>) -> real
  type SmoothL1Kernel = (seq<seq<real>>, seq<Delta>, real) -> real

  /** The numeric kernels called as library functions: boxlist_iou, cross_entropy, smooth_l1_loss. */
  datatype Kernels = Kernels(iou: IouKernel, crossEntropy: CrossEntropyKernel, smoothL1: SmoothL1Kernel)

  /** The FAST_RCNN section of the global configuration. */
  datatype Config = Config(
    fgIouThreshold: real,
    bgIouThreshold: real,
    batchSizePerImage: nat,
    positiveFraction: real,
    bboxRegWeights: seq<real>,
    clsAgnosticBboxReg: bool,
    clsOn: bool,
    regOn: bool,
    smoothL1Beta: real)

  /**
   * Everything one loss object works with: its constructor arguments, the
   * global configuration (read directly by subsample and by the loss call) and
   * the kernels. The object's own flag pair (clsOn, regOn) and the
   * configuration's pair (cfg.clsOn, cfg.regOn) are kept apart.
   */
  datatype Setup = Setup(
    matcher: Matcher,
    sampler: Sampler,
    boxCoder: Encoder,
    kernels: Kernels,
    clsAgnosticBboxReg: bool,
    clsOn: bool,
    regOn: bool,
    cfg: Config)

  /** One matcher output: per proposal a sentinel or a ground-truth index. */
  predicate IsMatchResult(m: seq<int>, numTargets: nat, numProposals: nat) {
    |m| == numProposals &&
    forall i :: 0 <= i < |m| ==>
      m[i] == BELOW_LOW_THRESHOLD || m[i] == BETWEEN_THRESHOLDS || 0 <= m[i] < numTargets
  }

  /**
   * One sampler output: a positive and a negative mask per image, as long as
   * that image's labels; positives only at foreground labels, negatives only at
   * background labels.
   */
  predicate IsSample(labels: seq<seq<int>>, m: Masks) {
    |m.pos| == |labels| && |m.neg| == |labels| &&
    forall i :: 0 <= i < |labels| ==>
      |m.pos[i]| == |labels[i]| && |m.neg[i]| == |labels[i]| &&
      forall j :: 0 <= j < |labels[i]| ==>
        (m.pos[i][j] ==> labels[i][j] > 0) && (m.neg[i][j] ==> labels[i][j] == 0)
  }

  ghost predicate HonestIou(iou: IouKernel) {
    forall targets, proposals :: iou(targets, proposals).rows == |targets| && iou(targets, proposals).cols == |proposals|
  }

  ghost predicate HonestMatcher(matcher: Matcher) {
    forall q :: IsMatchResult(matcher(q), q.rows, q.cols)
  }

  ghost predicate HonestSampler(sampler: Sampler) {
    forall labels, seed :: IsSample(labels, sampler(labels, seed))
  }

  ghost predicate HonestEncoder(encode: Encoder) {
    forall gt, reference :: |gt| == |reference| ==> |encode(gt, reference)| == |reference|
  }

  /** Every collaborator keeps its contract. */
  ghost predicate Honest(s: Setup) {
    HonestIou(s.kernels.iou) && HonestMatcher(s.matcher) && HonestSampler(s.sampler) && HonestEncoder(s.boxCoder)
  }
}
