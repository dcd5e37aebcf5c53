/**
 * The evaluator: `test_model`, `topk_acc`, `test_model_withT` and
 * `topk_acc_withT`.
 *
 * The network and `torch.max`/`torch.topk` are abstracted: each batch
 * arrives with the true label indices and, per example, the predicted
 * index (top-1) or the list of the k best indices (top-k). Accuracy is
 * kept as the pair of counters the source divides.
 */
module Evaluation {
  import opened Results
  import OneHot

  /** One batch of the test loader with the network's reduced output. */
  datatype Batch =
    | Top1(labels: seq<int>, argmax: seq<int>)
    | TopK(labels: seq<int>, topk: seq<seq<int>>)

  /** One prediction per example, as the tensors of one batch have. */
  predicate WellShaped(b: Batch) {
    match b
    case Top1(labels, argmax) => |argmax| == |labels|
    case TopK(labels, topk) => |topk| == |labels|
  }

  /** A batch of the template-conditioned loader: the template ids beside the batch. */
  datatype TBatch = TBatch(templates: seq<int>, batch: Batch)

  datatype Accuracy = Accuracy(correct: nat, total: nat)

  /** `correct / total` with `total == 0` raises `ZeroDivisionError`. */
  datatype EvalError = ZeroDivision

  /** Example `i` is counted: its argmax is its label, or its label is among its k best. */
  predicate Hit(b: Batch, i: nat)
    requires WellShaped(b) && i < |b.labels|
  {
    match b
    case Top1(labels, argmax) => argmax[i] == labels[i]
    case TopK(labels, topk) => labels[i] in topk[i]
  }

  /** Number of hits among the first `n` examples of a batch. */
  function HitsUpTo(b: Batch, n: nat): (h: nat)
    requires WellShaped(b) && n <= |b.labels|
    ensures h <= n
  {
    if n == 0 then 0 else HitsUpTo(b, n - 1) + (if Hit(b, n - 1) then 1 else 0)
  }

  function Hits(b: Batch): nat
    requires WellShaped(b)
  {
    HitsUpTo(b, |b.labels|)
  }

  /** `total`: the summed sizes of the batches. */
  function Total(bs: seq<Batch>): nat {
    if bs == [] then 0 else Total(bs[..|bs| - 1]) + |bs[|bs| - 1].labels|
  }

  predicate AllWellShaped(bs: seq<Batch>) {
    forall k :: 0 <= k < |bs| ==> WellShaped(bs[k])
  }

  /** The batches of a top-1 pass: argmax outputs of the right shape. */
  predicate Top1Pass(bs: seq<Batch>) {
    forall k :: 0 <= k < |bs| ==> bs[k].Top1? && WellShaped(bs[k])
  }

  /** `correct`: the summed hits of the batches; never more than `total`. */
  function Correct(bs: seq<Batch>): (c: nat)
    requires AllWellShaped(bs)
    ensures c <= Total(bs)
  {
    if bs == [] then 0 else Correct(bs[..|bs| - 1]) + Hits(bs[|bs| - 1])
  }

  /** Index of the last batch a bounded pass visits (`step >= 100` breaks). */
  const LastBoundedStep: nat := 100

  /** The batches a pass visits: all of them, or the first 101 when `use_all` is false. */
  function Visited(bs: seq<Batch>, useAll: bool): (v: seq<Batch>)
    ensures |v| <= |bs| && v == bs[..|v|]
    ensures useAll ==> v == bs
    ensures !useAll ==> |v| == if |bs| <= LastBoundedStep + 1 then |bs| else LastBoundedStep + 1
  {
    if useAll || |bs| <= LastBoundedStep + 1 then bs else bs[..LastBoundedStep + 1]
  }

  /** The division the source prints: an error when no example was seen. */
  function Ratio(correct: nat, total: nat): (r: Result<Accuracy, EvalError>)
    ensures r.Err? <==> total == 0
  {
    if total == 0 then Err(ZeroDivision) else Ok(Accuracy(correct, total))
  }

  lemma CorrectStep(bs: seq<Batch>, k: nat)
    requires AllWellShaped(bs)
    requires k < |bs|
    ensures Total(bs[..k + 1]) == Total(bs[..k]) + |bs[k].labels|
    ensures Correct(bs[..k + 1]) == Correct(bs[..k]) + Hits(bs[k])
  {
    assert bs[..k + 1][..k] == bs[..k];
  }

  /**
   * `test_model`: top-1 counting over the visited batches, with the early
   * stop after step 100 unless `use_all`.
   */
  method TestModel(batches: seq<Batch>, useAll: bool) returns (r: Result<Accuracy, EvalError>)
    requires Top1Pass(batches)
    ensures r == Ratio(Correct(Visited(batches, useAll)), Total(Visited(batches, useAll)))
    ensures r.Ok? ==> r.value.correct <= r.value.total
  {
    var correct, total := 0, 0;
    var step := 0;
    while step < |batches|
      invariant 0 <= step <= |batches|
      invariant !useAll ==> step <= LastBoundedStep
      invariant total == Total(batches[..step]) && correct == Correct(batches[..step])
    {
      var b := batches[step];
      CorrectStep(batches, step);
      total := total + |b.labels|;
      correct := correct + HitsUpTo(b, |b.labels|);
      if !useAll && step >= LastBoundedStep {
        step := step + 1;
        break;
      }
      step := step + 1;
    }
    assert batches[..step] == Visited(batches, useAll);
    r := Ratio(correct, total);
  }

  /**
   * `topk_acc`: every batch is visited, and the examples of a batch are
   * counted one by one.
   */
  method TopKAcc(batches: seq<Batch>) returns (r: Result<Accuracy, EvalError>)
    requires forall b :: b in batches ==> b.TopK? && WellShaped(b)
    ensures r == Ratio(Correct(batches), Total(batches))
    ensures r.Ok? ==> r.value.correct <= r.value.total
  {
    var correct, total := 0, 0;
    var step := 0;
    while step < |batches|
      invariant 0 <= step <= |batches|
      invariant total == Total(batches[..step]) && correct == Correct(batches[..step])
    {
      var b := batches[step];
      CorrectStep(batches, step);
      total := total + |b.labels|;
      var i := 0;
      while i < |b.topk|
        invariant 0 <= i <= |b.topk|
        invariant correct == Correct(batches[..step]) + HitsUpTo(b, i)
      {
        if b.labels[i] in b.topk[i] {
          correct := correct + 1;
        }
        i := i + 1;
      }
      step := step + 1;
    }
    assert batches[..step] == batches;
    r := Ratio(correct, total);
  }

  /** The batches of a template-conditioned pass, templates dropped. */
  function Unwrap(tbs: seq<TBatch>): (bs: seq<Batch>)
    ensures |bs| == |tbs| && forall k :: 0 <= k < |tbs| ==> bs[k] == tbs[k].batch
  {
    seq(|tbs|, k requires 0 <= k < |tbs| => tbs[k].batch)
  }

  /** Every template id of the pass fits a one-hot row of length `teml`. */
  predicate TemplatesFit(tbs: seq<TBatch>, teml: nat) {
    forall tb :: tb in tbs ==> forall k :: 0 <= k < |tb.templates| ==> 0 <= tb.templates[k] < teml
  }

  /**
   * `test_model_withT`: as `test_model`, after one-hot encoding each
   * batch's templates for the network (whose output the batch carries).
   */
  method TestModelWithT(teml: nat, batches: seq<TBatch>, useAll: bool) returns (r: Result<Accuracy, EvalError>)
    requires forall tb :: tb in batches ==> tb.batch.Top1? && WellShaped(tb.batch)
    requires TemplatesFit(batches, teml)
    ensures r == Ratio(Correct(Visited(Unwrap(batches), useAll)), Total(Visited(Unwrap(batches), useAll)))
    ensures r.Ok? ==> r.value.correct <= r.value.total
  {
    ghost var bs := Unwrap(batches);
    var correct, total := 0, 0;
    var step := 0;
    while step < |batches|
      invariant 0 <= step <= |batches|
      invariant !useAll ==> step <= LastBoundedStep
      invariant total == Total(bs[..step]) && correct == Correct(bs[..step])
    {
      var tb := batches[step];
      var oneHot := OneHot.GetOneHotTem(tb.templates, teml);
      var b := tb.batch;
      CorrectStep(bs, step);
      total := total + |b.labels|;
      correct := correct + HitsUpTo(b, |b.labels|);
      if !useAll && step >= LastBoundedStep {
        step := step + 1;
        break;
      }
      step := step + 1;
    }
    assert bs[..step] == Visited(bs, useAll);
    r := Ratio(correct, total);
  }

  /** `topk_acc_withT`: as `topk_acc`, after one-hot encoding each batch's templates. */
  method TopKAccWithT(teml: nat, batches: seq<TBatch>) returns (r: Result<Accuracy, EvalError>)
    requires forall tb :: tb in batches ==> tb.batch.TopK? && WellShaped(tb.batch)
    requires TemplatesFit(batches, teml)
    ensures r == Ratio(Correct(Unwrap(batches)), Total(Unwrap(batches)))
    ensures r.Ok? ==> r.value.correct <= r.value.total
  {
    ghost var bs := Unwrap(batches);
    var correct, total := 0, 0;
    var step := 0;
    while step < |batches|
      invariant 0 <= step <= |batches|
      invariant total == Total(bs[..step]) && correct == Correct(bs[..step])
    {
      var tb := batches[step];
      var oneHot := OneHot.GetOneHotTem(tb.templates, teml);
      var b := tb.batch;
      CorrectStep(bs, step);
      total := total + |b.labels|;
      var i := 0;
      while i < |b.topk|
        invariant 0 <= i <= |b.topk|
        invariant correct == Correct(bs[..step]) + HitsUpTo(b, i)
      {
        if b.labels[i] in b.topk[i] {
          correct := correct + 1;
        }
        i := i + 1;
      }
      step := step + 1;
    }
    assert bs[..step] == bs;
    r := Ratio(correct, total);
  }

  /** `b2` counts every example `b1` counts, over the same labels. */
  ghost predicate CountsAtLeast(b1: Batch, b2: Batch) {
    WellShaped(b1) && WellShaped(b2) && b1.labels == b2.labels &&
    forall i :: 0 <= i < |b1.labels| && Hit(b1, i) ==> Hit(b2, i)
  }

  lemma {:induction false} HitsMonotone(b1: Batch, b2: Batch, n: nat)
    requires CountsAtLeast(b1, b2) && n <= |b1.labels|
    ensures HitsUpTo(b1, n) <= HitsUpTo(b2, n)
  {
    if n > 0 {
      HitsMonotone(b1, b2, n - 1);
    }
  }

  /**
   * Batch by batch, if the second pass counts every example the first
   * does, it has the same total and at least as many correct.
   */
  lemma {:induction false} CorrectMonotone(bs1: seq<Batch>, bs2: seq<Batch>)
    requires |bs1| == |bs2|
    requires forall k :: 0 <= k < |bs1| ==> CountsAtLeast(bs1[k], bs2[k])
    ensures AllWellShaped(bs1) && AllWellShaped(bs2)
    ensures Total(bs1) == Total(bs2)
    ensures Correct(bs1) <= Correct(bs2)
  {
    if bs1 != [] {
      var n := |bs1| - 1;
      CorrectMonotone(bs1[..n], bs2[..n]);
      HitsMonotone(bs1[n], bs2[n], |bs1[n].labels|);
    }
  }

  /** The top-k lists of `small` are prefixes of those of `large` (top-3 against top-10). */
  ghost predicate PrefixLists(small: Batch, large: Batch) {
    small.TopK? && large.TopK? && WellShaped(small) && WellShaped(large) &&
    small.labels == large.labels &&
    forall i :: 0 <= i < |small.topk| ==> small.topk[i] <= large.topk[i]
  }

  /**
   * Top-k accuracy grows with k: with the shorter lists prefixes of the
   * longer ones, the counts over the same batches can only grow.
   */
  lemma TopKMonotone(small: seq<Batch>, large: seq<Batch>)
    requires |small| == |large| && AllWellShaped(small) && AllWellShaped(large)
    requires forall k :: 0 <= k < |small| ==> PrefixLists(small[k], large[k])
    ensures Total(small) == Total(large)
    ensures Correct(small) <= Correct(large)
  {
    forall k | 0 <= k < |small| ensures CountsAtLeast(small[k], large[k]) {
      var s, l := small[k], large[k];
      forall i | 0 <= i < |s.labels| && Hit(s, i) ensures Hit(l, i) {
        assert s.topk[i] == l.topk[i][..|s.topk[i]|];
        var j :| 0 <= j < |s.topk[i]| && s.topk[i][j] == s.labels[i];
        assert l.topk[i][j] == l.labels[i];
      }
    }
    CorrectMonotone(small, large);
  }

  /** The argmax of each example heads its top-k list. */
  ghost predicate ArgmaxHeads(top1: Batch, topk: Batch) {
    top1.Top1? && topk.TopK? && WellShaped(top1) && WellShaped(topk) &&
    top1.labels == topk.labels &&
    forall i :: 0 <= i < |top1.argmax| ==> |topk.topk[i]| >= 1 && topk.topk[i][0] == top1.argmax[i]
  }

  /** Top-1 accuracy never exceeds top-k accuracy over the same batches. */
  lemma Top1AtMostTopK(top1: seq<Batch>, topk: seq<Batch>)
    requires |top1| == |topk| && AllWellShaped(top1) && AllWellShaped(topk)
    requires forall k :: 0 <= k < |top1| ==> ArgmaxHeads(top1[k], topk[k])
    ensures Total(top1) == Total(topk)
    ensures Correct(top1) <= Correct(topk)
  {
    forall k | 0 <= k < |top1| ensures CountsAtLeast(top1[k], topk[k]) {
      var a, b := top1[k], topk[k];
      forall i | 0 <= i < |a.labels| && Hit(a, i) ensures Hit(b, i) {
        assert b.topk[i][0] == b.labels[i];
      }
    }
    CorrectMonotone(top1, topk);
  }
}
