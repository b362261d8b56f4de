/**
 * The loss call: labels and regression targets of the stored session are
 * concatenated image by image, the classifier loss sees every sampled proposal,
 * and the box loss sees only foreground rows, at the four columns of their class,
 * summed and divided by the number of sampled proposals.
 */
module Losses {
  import opened Outcomes
  import opened Structures
  import opened Collaborators

  /** cross_entropy's default ignore_index. */
  const IGNORE_INDEX: int := -100

  /** `box_loss / labels.numel()`, kept as its two operands. */
  datatype BoxLoss = BoxLoss(sum: real, count: nat) {
    function Value(): real
      requires count > 0
    {
      sum / count as real
    }
  }

  /** The loss dictionary: each entry present or not. */
  datatype LossDict = LossDict(lossClassifier: Option<real>, lossBoxReg: Option<BoxLoss>)

  function Keys(d: LossDict): set<string> {
    (if d.lossClassifier.Some? then {"loss_classifier"} else {}) +
    (if d.lossBoxReg.Some? then {"loss_box_reg"} else {})
  }

  predicate AllRectangular(ts: seq<Option<Tensor2>>) {
    forall i :: 0 <= i < |ts| && ts[i].Some? ==> Rectangular(ts[i].value)
  }

  /** What `get_field` hands back for an attached field: the tensor, or None. */
  function Part<T>(f: Field<T>): Option<seq<T>> {
    if f.Tensor? then Some(f.values) else None
  }

  /** `[p.get_field(name) for p in session]`: a box list without the field raises a KeyError. */
  function FieldParts<T>(fields: seq<Field<T>>, name: string): (r: Result<seq<Option<seq<T>>>>)
    ensures r.Ok? <==> forall i :: 0 <= i < |fields| ==> !fields[i].Absent?
    ensures r.Err? ==> r.error == MissingField(name)
    ensures r.Ok? ==> |r.value| == |fields| && forall i :: 0 <= i < |fields| ==> r.value[i] == Part(fields[i])
  {
    if exists i :: 0 <= i < |fields| && fields[i].Absent? then Err(MissingField(name))
    else Ok(seq(|fields|, i requires 0 <= i < |fields| => Part(fields[i])))
  }

  function LabelFields(session: seq<BoxList>): seq<Field<int>> {
    seq(|session|, i requires 0 <= i < |session| => session[i].labels)
  }

  function TargetFields(session: seq<BoxList>): seq<Field<Delta>> {
    seq(|session|, i requires 0 <= i < |session| => session[i].regressionTargets)
  }

  /** Concatenation of per-image tensors; an empty list or a None entry cannot be concatenated. */
  function Cat<T>(parts: seq<Option<seq<T>>>): (r: Result<seq<T>>)
    ensures r.Ok? <==> |parts| > 0 && forall i :: 0 <= i < |parts| ==> parts[i].Some?
  {
    if parts == [] then Err(EmptyConcat)
    else if exists i :: 0 <= i < |parts| && parts[i].None? then Err(NoneTensor)
    else Ok(Flatten(seq(|parts|, i requires 0 <= i < |parts| => parts[i].value)))
  }

  /** Rows of equal width stay of that width when concatenated. */
  lemma FlattenRectangular(parts: seq<seq<seq<real>>>, width: nat)
    requires forall i, row :: 0 <= i < |parts| && row in parts[i] ==> |row| == width
    ensures Rectangular(Tensor2(width, Flatten(parts)))
  {
    forall row | row in Flatten(parts)
      ensures |row| == width
    {
      FlattenMember(parts, row);
    }
  }

  /** Concatenation of two-dimensional tensors along rows; widths must agree. */
  function CatRows(ts: seq<Option<Tensor2>>): (r: Result<Tensor2>)
    requires AllRectangular(ts)
    ensures r.Ok? <==> |ts| > 0 && (forall i :: 0 <= i < |ts| ==> ts[i].Some?) &&
                       forall i :: 0 <= i < |ts| ==> ts[i].value.width == ts[0].value.width
    ensures r.Ok? ==> Rectangular(r.value) && r.value.width == ts[0].value.width
  {
    if ts == [] then Err(EmptyConcat)
    else if exists i :: 0 <= i < |ts| && ts[i].None? then Err(NoneTensor)
    else if exists i :: 0 <= i < |ts| && ts[i].value.width != ts[0].value.width then Err(ShapeMismatch)
    else
      var parts := seq(|ts|, i requires 0 <= i < |ts| => ts[i].value.rows);
      FlattenRectangular(parts, ts[0].value.width);
      Ok(Tensor2(ts[0].value.width, Flatten(parts)))
  }

  /** `torch.nonzero(labels > 0)`: exactly the foreground rows, in increasing order. */
  function PositiveRows(labels: seq<int>): (r: seq<nat>)
    ensures InRange(r, |labels|) && StrictlyIncreasing(r)
    ensures forall k :: k in r <==> 0 <= k < |labels| && labels[k] > 0
  {
    var mask := seq(|labels|, i requires 0 <= i < |labels| => labels[i] > 0);
    NonZeroSpec(mask);
    NonZero(mask)
  }

  /**
   * `map_inds`: the four regression columns read for a foreground row, those of
   * its class, or the fixed columns 4..7 when regression is class-agnostic.
   */
  function RegressionColumns(classId: int, clsAgnostic: bool): (cols: seq<int>)
    ensures |cols| == 4
    ensures forall j :: 0 <= j < 4 ==> cols[j] == (if clsAgnostic then 4 else 4 * classId) + j
  {
    if clsAgnostic then [4, 5, 6, 7] else [4 * classId, 4 * classId + 1, 4 * classId + 2, 4 * classId + 3]
  }

  predicate ColumnsFit(classId: int, clsAgnostic: bool, width: nat) {
    forall j :: 0 <= j < 4 ==> 0 <= RegressionColumns(classId, clsAgnostic)[j] < width
  }

  /**
   * `box_regression[rows[:, None], map_inds]`: for each selected row, its four
   * class columns; an index past the tensor raises an IndexError.
   */
  function SelectRegression(regression: Tensor2, rows: seq<nat>, labelsPos: seq<int>, clsAgnostic: bool): (r: Result<seq<seq<real>>>)
    requires Rectangular(regression) && |rows| == |labelsPos|
    ensures r.Ok? <==> InRange(rows, |regression.rows|) &&
                       forall k :: 0 <= k < |rows| ==> ColumnsFit(labelsPos[k], clsAgnostic, regression.width)
    ensures r.Ok? ==> |r.value| == |rows| &&
                      forall k :: 0 <= k < |rows| ==>
                        |r.value[k]| == 4 &&
                        forall j :: 0 <= j < 4 ==>
                          r.value[k][j] == regression.rows[rows[k]][RegressionColumns(labelsPos[k], clsAgnostic)[j]]
  {
    if !InRange(rows, |regression.rows|) then Err(IndexOutOfRange)
    else if exists k :: 0 <= k < |rows| && !ColumnsFit(labelsPos[k], clsAgnostic, regression.width) then Err(IndexOutOfRange)
    else
      Ok(seq(|rows|, k requires 0 <= k < |rows| =>
        assert regression.rows[rows[k]] in regression.rows;
        seq(4, j requires 0 <= j < 4 => regression.rows[rows[k]][RegressionColumns(labelsPos[k], clsAgnostic)[j]])))
  }

  predicate ValidTarget(classId: int, classes: nat) {
    classId == IGNORE_INDEX || 0 <= classId < classes
  }

  /** `F.cross_entropy(cat(class_logits), labels)` with the kernel's shape checks. */
  function ClassifierLoss(crossEntropy: CrossEntropyKernel, classLogits: seq<Option<Tensor2>>, labels: seq<int>): (r: Result<real>)
    requires AllRectangular(classLogits)
  {
    var logits :- CatRows(classLogits);
    if |logits.rows| != |labels| then Err(ShapeMismatch)
    else if exists k :: 0 <= k < |labels| && !ValidTarget(labels[k], logits.width) then Err(TargetOutOfBounds)
    else Ok(crossEntropy(logits, labels))
  }

  /** `cat([p.get_field("labels") for p in session])`. */
  function SessionLabels(session: seq<BoxList>): Result<seq<int>> {
    var labelParts :- FieldParts(LabelFields(session), "labels");
    Cat(labelParts)
  }

  /** `cat([p.get_field("regression_targets") for p in session])`. */
  function SessionTargets(session: seq<BoxList>): Result<seq<Delta>> {
    var targetParts :- FieldParts(TargetFields(session), "regression_targets");
    Cat(targetParts)
  }

  /** The box-regression branch of the loss call. */
  function BoxRegressionLoss(s: Setup, session: seq<BoxList>, boxRegression: seq<Option<Tensor2>>, labels: seq<int>): (r: Result<BoxLoss>)
    requires AllRectangular(boxRegression)
  {
    var regression :- CatRows(boxRegression);
    var regressionTargets :- SessionTargets(session);
    var rows := PositiveRows(labels);
    var selected :- SelectRegression(regression, rows, Gather(labels, rows), s.clsAgnosticBboxReg);
    if !InRange(rows, |regressionTargets|) then Err(IndexOutOfRange)
    else Ok(BoxLoss(s.kernels.smoothL1(selected, Gather(regressionTargets, rows), s.cfg.smoothL1Beta), |labels|))
  }


  /** The loss call, given the stored session (None before any subsample). */
  function LossSpec(s: Setup, session: Option<seq<BoxList>>, classLogits: seq<Option<Tensor2>>, boxRegression: seq<Option<Tensor2>>): (r: Result<LossDict>)
    requires AllRectangular(classLogits) && AllRectangular(boxRegression)
  {
    if session.None? then Err(SubsampleNotCalled)
    else
      var labels :- SessionLabels(session.value);
      if |classLogits| == 0 then Err(IndexOutOfRange)
      else if classLogits[0].None? && |boxRegression| == 0 then Err(IndexOutOfRange)
      else if classLogits[0].None? && boxRegression[0].None? then Err(NoBranch)
      else
        var lossClassifier :-
          if classLogits[0].Some? then ClassifierLoss(s.kernels.crossEntropy, classLogits, labels).Lift() else Ok(None);
        if |boxRegression| == 0 then Err(IndexOutOfRange)
        else
          var lossBoxReg :-
            if boxRegression[0].Some? then BoxRegressionLoss(s, session.value, boxRegression, labels).Lift() else Ok(None);
          Ok(LossDict(lossClassifier, lossBoxReg))
  }

  /** Concatenating fields that all hold tensors flattens those tensors in image order. */
  lemma CatOfTensors<T>(fields: seq<Field<T>>, name: string, values: seq<seq<T>>)
    requires |fields| == |values| && forall j :: 0 <= j < |fields| ==> fields[j] == Tensor(values[j])
    ensures FieldParts(fields, name).Ok?
    ensures Cat(FieldParts(fields, name).value) == if fields == [] then Err(EmptyConcat) else Ok(Flatten(values))
  {
    var parts := FieldParts(fields, name).value;
    assert seq(|parts|, i requires 0 <= i < |parts| => parts[i].value) == values;
  }

  /** Readable session labels mean every image carries a "labels" tensor; they are those tensors concatenated. */
  lemma SessionLabelsAreTensors(session: seq<BoxList>)
    requires SessionLabels(session).Ok?
    ensures |session| > 0 && forall j :: 0 <= j < |session| ==> session[j].labels.Tensor?
    ensures SessionLabels(session).value == Flatten(seq(|session|, j requires 0 <= j < |session| => session[j].labels.values))
  {
    var parts := FieldParts(LabelFields(session), "labels").value;
    forall j | 0 <= j < |session|
      ensures session[j].labels.Tensor?
    {
      assert parts[j] == Part(session[j].labels);
    }
    CatOfTensors(LabelFields(session), "labels", seq(|session|, j requires 0 <= j < |session| => session[j].labels.values));
  }

  /** The number of boxes over all images of a session. */
  function TotalBoxes(session: seq<BoxList>): nat {
    Sum(seq(|session|, i requires 0 <= i < |session| => |session[i].bbox|))
  }

  /** Per-image parts as long as the images' box lists concatenate to the session's box count. */
  lemma PartsCount<T>(parts: seq<seq<T>>, session: seq<BoxList>)
    requires |parts| == |session| && forall i :: 0 <= i < |parts| ==> |parts[i]| == |session[i].bbox|
    ensures |Flatten(parts)| == TotalBoxes(session)
  {
    FlattenLength(parts);
    assert Lengths(parts) == seq(|session|, i requires 0 <= i < |session| => |session[i].bbox|);
  }

  /**
   * A session whose images all carry a "labels" tensor concatenates its labels
   * image-major: one per box over all images, and label `k` of image `i` right
   * after every label of images 0..i-1.
   */
  lemma SessionLabelsImageMajor(session: seq<BoxList>, i: nat, k: nat)
    requires AllWellFormed(session) && |session| > 0
    requires forall j :: 0 <= j < |session| ==> session[j].labels.Tensor?
    requires i < |session| && k < |session[i].bbox|
    ensures SessionLabels(session).Ok?
    ensures |SessionLabels(session).value| == TotalBoxes(session)
    ensures TotalBoxes(session[..i]) + k < TotalBoxes(session)
    ensures SessionLabels(session).value[TotalBoxes(session[..i]) + k] == session[i].labels.values[k]
  {
    var parts := seq(|session|, j requires 0 <= j < |session| => session[j].labels.values);
    CatOfTensors(LabelFields(session), "labels", parts);
    PartsCount(parts, session);
    PartsCount(parts[..i], session[..i]);
    FlattenLength(parts[..i]);
    FlattenAt(parts, i, k);
  }

  /**
   * In a well-formed session, labels and regression targets concatenate to the
   * same length, the session's box count, so the regression targets can always be
   * read at the foreground rows of the labels.
   */
  lemma RegressionTargetsAligned(s: Setup, session: seq<BoxList>, boxRegression: seq<Option<Tensor2>>)
    requires AllRectangular(boxRegression) && AllWellFormed(session) && |session| > 0
    requires forall j :: 0 <= j < |session| ==> session[j].labels.Tensor? && session[j].regressionTargets.Tensor?
    ensures SessionLabels(session).Ok? && SessionTargets(session).Ok?
    ensures |SessionLabels(session).value| == |SessionTargets(session).value| == TotalBoxes(session)
    ensures var labels := SessionLabels(session).value;
            var rows := PositiveRows(labels);
            BoxRegressionLoss(s, session, boxRegression, labels).Ok? <==>
              CatRows(boxRegression).Ok? &&
              SelectRegression(CatRows(boxRegression).value, rows, Gather(labels, rows), s.clsAgnosticBboxReg).Ok?
  {
    var labelParts := seq(|session|, j requires 0 <= j < |session| => session[j].labels.values);
    var targetParts := seq(|session|, j requires 0 <= j < |session| => session[j].regressionTargets.values);
    CatOfTensors(LabelFields(session), "labels", labelParts);
    CatOfTensors(TargetFields(session), "regression_targets", targetParts);
    PartsCount(labelParts, session);
    PartsCount(targetParts, session);
  }

  /**
   * A successful loss call has a session, non-empty logits and regression lists
   * and at least one branch; "loss_classifier" is present exactly when class
   * logits are given and "loss_box_reg" exactly when box regression is given.
   */
  lemma LossKeys(s: Setup, session: Option<seq<BoxList>>, classLogits: seq<Option<Tensor2>>, boxRegression: seq<Option<Tensor2>>)
    requires AllRectangular(classLogits) && AllRectangular(boxRegression)
    requires LossSpec(s, session, classLogits, boxRegression).Ok?
    ensures session.Some? && |classLogits| > 0 && |boxRegression| > 0
    ensures classLogits[0].Some? || boxRegression[0].Some?
    ensures var d := LossSpec(s, session, classLogits, boxRegression).value;
            ("loss_classifier" in Keys(d) <==> classLogits[0].Some?) &&
            ("loss_box_reg" in Keys(d) <==> boxRegression[0].Some?)
  {
  }

  /** With readable labels and both branches absent, the loss call fails its assertion. */
  lemma NoBranchRejected(s: Setup, session: seq<BoxList>, classLogits: seq<Option<Tensor2>>, boxRegression: seq<Option<Tensor2>>)
    requires AllRectangular(classLogits) && AllRectangular(boxRegression)
    requires SessionLabels(session).Ok?
    requires |classLogits| > 0 && |boxRegression| > 0 && classLogits[0].None? && boxRegression[0].None?
    ensures LossSpec(s, Some(session), classLogits, boxRegression) == Err(NoBranch)
  {
  }

  /** The classifier loss is the cross-entropy of the concatenated logits against every sampled label. */
  lemma ClassifierSeesEveryLabel(s: Setup, session: seq<BoxList>, classLogits: seq<Option<Tensor2>>, boxRegression: seq<Option<Tensor2>>)
    requires AllRectangular(classLogits) && AllRectangular(boxRegression)
    requires LossSpec(s, Some(session), classLogits, boxRegression).Ok?
    requires LossSpec(s, Some(session), classLogits, boxRegression).value.lossClassifier.Some?
    ensures SessionLabels(session).Ok? && CatRows(classLogits).Ok?
    ensures var labels := SessionLabels(session).value;
            var logits := CatRows(classLogits).value;
            |logits.rows| == |labels| &&
            (forall k :: 0 <= k < |labels| ==> ValidTarget(labels[k], logits.width)) &&
            LossSpec(s, Some(session), classLogits, boxRegression).value.lossClassifier.value ==
              s.kernels.crossEntropy(logits, labels)
  {
  }

  /**
   * The box loss is the smooth-L1 sum over the foreground rows only (label > 0),
   * read at their class columns, against their regression targets, divided by the
   * number of all sampled proposals, background included.
   */
  lemma BoxLossOnForeground(s: Setup, session: seq<BoxList>, classLogits: seq<Option<Tensor2>>, boxRegression: seq<Option<Tensor2>>)
    requires AllRectangular(classLogits) && AllRectangular(boxRegression) && AllWellFormed(session)
    requires LossSpec(s, Some(session), classLogits, boxRegression).Ok?
    requires LossSpec(s, Some(session), classLogits, boxRegression).value.lossBoxReg.Some?
    ensures SessionLabels(session).Ok? && SessionTargets(session).Ok? && CatRows(boxRegression).Ok?
    ensures var labels := SessionLabels(session).value;
            var rows := PositiveRows(labels);
            var loss := LossSpec(s, Some(session), classLogits, boxRegression).value.lossBoxReg.value;
            var selected := SelectRegression(CatRows(boxRegression).value, rows, Gather(labels, rows), s.clsAgnosticBboxReg);
            loss.count == |labels| == TotalBoxes(session) &&
            (forall k :: k in rows <==> 0 <= k < |labels| && labels[k] > 0) &&
            selected.Ok? && InRange(rows, |SessionTargets(session).value|) &&
            loss.sum == s.kernels.smoothL1(selected.value, Gather(SessionTargets(session).value, rows), s.cfg.smoothL1Beta)
  {
    SessionLabelsAreTensors(session);
    PartsCount(seq(|session|, j requires 0 <= j < |session| => session[j].labels.values), session);
  }
}
