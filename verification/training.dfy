/**
 * The training loops `train_model` and `train_model_withT`, reduced to
 * what they decide by themselves: the running-loss counter that is logged
 * and reset every 900 steps, and the bounded validation pass after each
 * epoch.
 *
 * The optimiser, the forward and backward passes and the loss function
 * are abstracted: each training step contributes a given loss, and each
 * epoch's validation pass is given as the batches the network produced.
 */
module Training {
  import opened Results
  import Evaluation
  import OneHot

  /** The logging period: a line is printed after every 900th step of an epoch. */
  const LogEvery: nat := 900

  /**
   * One printed line `[epoch, step] loss`: the 1-based epoch and step, and
   * the running loss accumulated over the window (the source prints it
   * divided by 900).
   */
  datatype LossLog = LossLog(epoch: nat, step: nat, windowSum: int)

  function Sum(xs: seq<int>): int {
    if xs == [] then 0 else Sum(xs[..|xs| - 1]) + xs[|xs| - 1]
  }

  lemma SumStep(xs: seq<int>, a: nat, b: nat)
    requires a <= b < |xs|
    ensures Sum(xs[a..b + 1]) == Sum(xs[a..b]) + xs[b]
  {
    assert xs[a..b + 1][..b - a] == xs[a..b];
  }

  /**
   * The lines logged during the first `n` steps of epoch `e`: one per
   * complete window of 900 steps, each carrying that window's loss sum.
   */
  function LogsUpTo(e: nat, losses: seq<int>, n: nat): seq<LossLog>
    requires n <= |losses|
  {
    seq(n / LogEvery, k requires 0 <= k < n / LogEvery =>
      LossLog(e + 1, LogEvery * (k + 1), Sum(losses[LogEvery * k..LogEvery * (k + 1)])))
  }

  /** The lines logged in a whole epoch. */
  function EpochLogs(e: nat, losses: seq<int>): seq<LossLog> {
    LogsUpTo(e, losses, |losses|)
  }

  lemma LogsStep(e: nat, losses: seq<int>, step: nat)
    requires step < |losses|
    ensures step % LogEvery != LogEvery - 1 ==> LogsUpTo(e, losses, step + 1) == LogsUpTo(e, losses, step)
    ensures step % LogEvery == LogEvery - 1 ==>
              LogsUpTo(e, losses, step + 1) ==
              LogsUpTo(e, losses, step) + [LossLog(e + 1, step + 1, Sum(losses[step + 1 - LogEvery..step + 1]))]
  {
  }

  /** Where the current window starts after one more step. */
  lemma WindowAfterStep(step: nat)
    ensures step % LogEvery == LogEvery - 1 ==> (step + 1) % LogEvery == 0
    ensures step % LogEvery != LogEvery - 1 ==> (step + 1) - (step + 1) % LogEvery == step - step % LogEvery
  {
  }

  /**
   * The body of the epoch loop for step `step` (0-based): the step's loss is
   * added to the running loss, which is logged and reset to 0 after the
   * steps with `step % 900 == 899`.
   */
  method CountStep(epoch: nat, losses: seq<int>, step: nat, logs: seq<LossLog>, running: int)
    returns (logs': seq<LossLog>, running': int)
    requires step < |losses|
    requires logs == LogsUpTo(epoch, losses, step)
    requires running == Sum(losses[step - step % LogEvery..step])
    ensures logs' == LogsUpTo(epoch, losses, step + 1)
    ensures running' == Sum(losses[(step + 1) - (step + 1) % LogEvery..step + 1])
  {
    WindowAfterStep(step);
    SumStep(losses, step - step % LogEvery, step);
    LogsStep(epoch, losses, step);
    logs', running' := logs, running + losses[step];
    if step % LogEvery == LogEvery - 1 {
      logs' := logs' + [LossLog(epoch + 1, step + 1, running')];
      running' := 0;
    }
  }

  /**
   * One epoch of the training loop: the running loss is summed step by
   * step, logged and reset to 0 exactly after the steps with
   * `step % 900 == 899`. At the end it holds the losses of the fewer than
   * 900 steps since the last reset.
   */
  method RunEpoch(epoch: nat, losses: seq<int>) returns (logs: seq<LossLog>, running: int)
    ensures logs == EpochLogs(epoch, losses)
    ensures running == Sum(losses[|losses| - |losses| % LogEvery..])
  {
    logs, running := [], 0;
    var step := 0;
    while step < |losses|
      invariant 0 <= step <= |losses|
      invariant logs == LogsUpTo(epoch, losses, step)
      invariant running == Sum(losses[step - step % LogEvery..step])
    {
      logs, running := CountStep(epoch, losses, step, logs, running);
      step := step + 1;
    }
    assert losses[step - step % LogEvery..step] == losses[|losses| - |losses| % LogEvery..];
  }

  /** Lemma form of what a logged line means within its epoch. */
  lemma EpochLogsMeaning(e: nat, losses: seq<int>)
    ensures |EpochLogs(e, losses)| == |losses| / LogEvery
    ensures forall k :: 0 <= k < |EpochLogs(e, losses)| ==>
              var l := EpochLogs(e, losses)[k];
              l.epoch == e + 1 && l.step % LogEvery == 0 && LogEvery <= l.step <= |losses| &&
              l.windowSum == Sum(losses[l.step - LogEvery..l.step])
  {
  }

  /** What the printed report of a training run amounts to. */
  datatype TrainReport = TrainReport(logs: seq<LossLog>, accuracies: seq<Evaluation.Accuracy>)

  /**
   * A run stopped by a validation pass that saw no example: what had been
   * printed by then (the log lines up to and including the failing epoch,
   * the accuracies of the epochs before it) and the error raised.
   */
  datatype Aborted = Aborted(printed: TrainReport, error: Evaluation.EvalError)

  /** Each epoch's validation batches are top-1 batches of the right shape. */
  predicate ValidationShaped(validation: seq<seq<Evaluation.Batch>>) {
    forall e :: 0 <= e < |validation| ==> Evaluation.Top1Pass(validation[e])
  }

  /** The bounded validation pass after an epoch (`use_all = False`). */
  function Validate(batches: seq<Evaluation.Batch>): (r: Result<Evaluation.Accuracy, Evaluation.EvalError>)
    requires Evaluation.AllWellShaped(batches)
    ensures r.Err? <==> Evaluation.Total(Evaluation.Visited(batches, false)) == 0
    ensures r.Ok? ==> 0 < r.value.total && r.value.correct <= r.value.total
  {
    var v := Evaluation.Visited(batches, false);
    Evaluation.Ratio(Evaluation.Correct(v), Evaluation.Total(v))
  }

  /**
   * The outcome of training for `|losses|` epochs: every epoch's log lines
   * and validation accuracy, or, when a validation pass saw no example, the
   * error it raised together with what had been printed before it.
   */
  function Trained(losses: seq<seq<int>>, validation: seq<seq<Evaluation.Batch>>)
    : Result<TrainReport, Aborted>
    requires |validation| == |losses| && ValidationShaped(validation)
  {
    if losses == [] then Ok(TrainReport([], []))
    else
      var n := |losses| - 1;
      match Trained(losses[..n], validation[..n])
      case Err(x) => Err(x)
      case Ok(rep) =>
        var logs := rep.logs + EpochLogs(n, losses[n]);
        match Validate(validation[n])
        case Err(x) => Err(Aborted(TrainReport(logs, rep.accuracies), x))
        case Ok(a) => Ok(TrainReport(logs, rep.accuracies + [a]))
  }

  lemma TrainedStep(losses: seq<seq<int>>, validation: seq<seq<Evaluation.Batch>>, n: nat)
    requires |validation| == |losses| && ValidationShaped(validation) && n < |losses|
    ensures Trained(losses[..n + 1], validation[..n + 1]) ==
            match Trained(losses[..n], validation[..n])
            case Err(x) => Err(x)
            case Ok(rep) =>
              var logs := rep.logs + EpochLogs(n, losses[n]);
              match Validate(validation[n])
              case Err(x) => Err(Aborted(TrainReport(logs, rep.accuracies), x))
              case Ok(a) => Ok(TrainReport(logs, rep.accuracies + [a]))
  {
    assert losses[..n + 1][..n] == losses[..n];
    assert validation[..n + 1][..n] == validation[..n];
  }

  /** Once an epoch's validation has raised, the run as a whole has raised. */
  lemma {:induction false} TrainedErrSticks(losses: seq<seq<int>>, validation: seq<seq<Evaluation.Batch>>, m: nat)
    requires |validation| == |losses| && ValidationShaped(validation) && m <= |losses|
    requires Trained(losses[..m], validation[..m]).Err?
    ensures Trained(losses, validation) == Trained(losses[..m], validation[..m])
    decreases |losses|
  {
    if m < |losses| {
      var n := |losses| - 1;
      assert losses[..n][..m] == losses[..m] && validation[..n][..m] == validation[..m];
      TrainedErrSticks(losses[..n], validation[..n], m);
    } else {
      assert losses[..m] == losses && validation[..m] == validation;
    }
  }

  /**
   * `train_model`: each epoch runs the logging counter over its steps, then
   * the bounded validation pass; a pass that sees no example raises.
   */
  method TrainModel(losses: seq<seq<int>>, validation: seq<seq<Evaluation.Batch>>)
    returns (r: Result<TrainReport, Aborted>)
    requires |validation| == |losses| && ValidationShaped(validation)
    ensures r == Trained(losses, validation)
  {
    var logs: seq<LossLog> := [];
    var accs: seq<Evaluation.Accuracy> := [];
    var epoch := 0;
    while epoch < |losses|
      invariant 0 <= epoch <= |losses|
      invariant Trained(losses[..epoch], validation[..epoch]) == Ok(TrainReport(logs, accs))
    {
      TrainedStep(losses, validation, epoch);
      var epochLogs, _ := RunEpoch(epoch, losses[epoch]);
      logs := logs + epochLogs;
      var acc := Evaluation.TestModel(validation[epoch], false);
      if acc.Err? {
        TrainedErrSticks(losses, validation, epoch + 1);
        return Err(Aborted(TrainReport(logs, accs), acc.error));
      }
      accs := accs + [acc.value];
      epoch := epoch + 1;
    }
    assert losses[..epoch] == losses && validation[..epoch] == validation;
    r := Ok(TrainReport(logs, accs));
  }

  /**
   * A run raises exactly when some epoch's bounded validation pass saw no
   * example at all.
   */
  lemma {:induction false} TrainedFailsIffEmptyPass(losses: seq<seq<int>>, validation: seq<seq<Evaluation.Batch>>)
    requires |validation| == |losses| && ValidationShaped(validation)
    ensures Trained(losses, validation).Err? <==>
            exists e :: 0 <= e < |losses| && Evaluation.Total(Evaluation.Visited(validation[e], false)) == 0
  {
    if losses != [] {
      var n := |losses| - 1;
      var ls, vs := losses[..n], validation[..n];
      assert ValidationShaped(vs);
      TrainedFailsIffEmptyPass(ls, vs);
      ghost var empty := Evaluation.Total(Evaluation.Visited(validation[n], false)) == 0;
      assert Validate(validation[n]).Err? <==> empty;
      assert Trained(losses, validation).Err? <==> Trained(ls, vs).Err? || empty;
      if exists e :: 0 <= e < n && Evaluation.Total(Evaluation.Visited(vs[e], false)) == 0 {
        var e :| 0 <= e < n && Evaluation.Total(Evaluation.Visited(vs[e], false)) == 0;
        assert vs[e] == validation[e];
      } else {
        forall e | 0 <= e < n
          ensures Evaluation.Total(Evaluation.Visited(validation[e], false)) != 0
        {
          assert vs[e] == validation[e];
        }
      }
    }
  }

  /**
   * An aborted run has printed every log line of the epochs up to and
   * including the failing one, and the accuracies of the epochs before it,
   * all of which completed; the error is the failing pass's.
   */
  lemma {:induction false} TrainedAborted(losses: seq<seq<int>>, validation: seq<seq<Evaluation.Batch>>)
    requires |validation| == |losses| && ValidationShaped(validation)
    requires Trained(losses, validation).Err?
    ensures var ab := Trained(losses, validation).error;
      var m := |ab.printed.accuracies|;
      m < |losses| && ValidationShaped(validation[..m]) && Trained(losses[..m], validation[..m]).Ok? &&
      Validate(validation[m]) == Err(ab.error) &&
      ab.printed == TrainReport(Trained(losses[..m], validation[..m]).value.logs + EpochLogs(m, losses[m]),
                                Trained(losses[..m], validation[..m]).value.accuracies)
  {
    var n := |losses| - 1;
    var ls, vs := losses[..n], validation[..n];
    assert ValidationShaped(vs);
    if Trained(ls, vs).Err? {
      TrainedAborted(ls, vs);
      var m := |Trained(ls, vs).error.printed.accuracies|;
      assert ls[..m] == losses[..m] && vs[..m] == validation[..m];
      assert ls[m] == losses[m] && vs[m] == validation[m];
    } else {
      TrainedAccuracies(ls, vs);
    }
  }

  /**
   * A run that completes reports one validation accuracy per epoch, each
   * the result of that epoch's bounded pass, with `0 < total` and
   * `correct <= total`.
   */
  lemma {:induction false} TrainedAccuracies(losses: seq<seq<int>>, validation: seq<seq<Evaluation.Batch>>)
    requires |validation| == |losses| && ValidationShaped(validation)
    requires Trained(losses, validation).Ok?
    ensures var accs := Trained(losses, validation).value.accuracies;
      |accs| == |losses| &&
      forall e :: 0 <= e < |losses| ==>
        Validate(validation[e]) == Ok(accs[e]) && 0 < accs[e].total && accs[e].correct <= accs[e].total
  {
    if losses != [] {
      var n := |losses| - 1;
      TrainedAccuracies(losses[..n], validation[..n]);
      forall e | 0 <= e < n ensures validation[..n][e] == validation[e] { }
    }
  }

  /** A completed run is a completed shorter run plus one epoch whose validation succeeded. */
  lemma TrainedOkLast(losses: seq<seq<int>>, validation: seq<seq<Evaluation.Batch>>)
    requires |validation| == |losses| && ValidationShaped(validation)
    requires losses != [] && Trained(losses, validation).Ok?
    ensures var n := |losses| - 1;
      ValidationShaped(validation[..n]) &&
      Trained(losses[..n], validation[..n]).Ok? && Validate(validation[n]).Ok? &&
      Trained(losses, validation).value ==
        TrainReport(Trained(losses[..n], validation[..n]).value.logs + EpochLogs(n, losses[n]),
                    Trained(losses[..n], validation[..n]).value.accuracies + [Validate(validation[n]).value])
  {
  }

  /** Line `l` closes a window of exactly 900 steps of its epoch and carries that window's loss sum. */
  ghost predicate ClosesWindow(losses: seq<seq<int>>, l: LossLog) {
    1 <= l.epoch <= |losses| && l.step % LogEvery == 0 && LogEvery <= l.step <= |losses[l.epoch - 1]| &&
    l.windowSum == Sum(losses[l.epoch - 1][l.step - LogEvery..l.step])
  }

  lemma ClosesWindowInLonger(ls: seq<seq<int>>, losses: seq<seq<int>>, l: LossLog)
    requires ls <= losses && ClosesWindow(ls, l)
    ensures ClosesWindow(losses, l)
  {
    assert ls[l.epoch - 1] == losses[l.epoch - 1];
  }

  lemma EpochLogClosesWindow(losses: seq<seq<int>>, n: nat, k: nat)
    requires n < |losses| && k < |EpochLogs(n, losses[n])|
    ensures ClosesWindow(losses, EpochLogs(n, losses[n])[k])
  {
    var l := EpochLogs(n, losses[n])[k];
    assert l == LossLog(n + 1, LogEvery * (k + 1), Sum(losses[n][LogEvery * k..LogEvery * (k + 1)]));
    assert l.step - LogEvery == LogEvery * k;
  }

  /** A run that completes logs only lines that close a 900-step window of their epoch. */
  lemma {:induction false} TrainedLogs(losses: seq<seq<int>>, validation: seq<seq<Evaluation.Batch>>)
    requires |validation| == |losses| && ValidationShaped(validation)
    requires Trained(losses, validation).Ok?
    ensures forall l :: l in Trained(losses, validation).value.logs ==> ClosesWindow(losses, l)
  {
    if losses != [] {
      var n := |losses| - 1;
      var ls, vs := losses[..n], validation[..n];
      TrainedOkLast(losses, validation);
      TrainedLogs(ls, vs);
      var before := Trained(ls, vs).value.logs;
      var now := EpochLogs(n, losses[n]);
      forall l: LossLog | l in before + now
        ensures ClosesWindow(losses, l)
      {
        if l in before {
          ClosesWindowInLonger(ls, losses, l);
        } else {
          var k :| 0 <= k < |now| && now[k] == l;
          EpochLogClosesWindow(losses, n, k);
        }
      }
    }
  }

  /** One step of the template-conditioned training loader. */
  datatype TrainStep = TrainStep(templates: seq<int>, loss: int)

  function LossesOf(steps: seq<TrainStep>): (ls: seq<int>)
    ensures |ls| == |steps| && forall k :: 0 <= k < |steps| ==> ls[k] == steps[k].loss
  {
    seq(|steps|, k requires 0 <= k < |steps| => steps[k].loss)
  }

  /** Every template id of an epoch's steps fits a one-hot row of length `teml`. */
  predicate StepsFit(steps: seq<TrainStep>, teml: nat) {
    forall k, j :: 0 <= k < |steps| && 0 <= j < |steps[k].templates| ==> 0 <= steps[k].templates[j] < teml
  }

  /**
   * One epoch of `train_model_withT`: each step one-hot encodes its
   * templates for the network, then the same logging counter as
   * `RunEpoch` runs over the step losses.
   */
  method RunEpochWithT(epoch: nat, teml: nat, steps: seq<TrainStep>) returns (logs: seq<LossLog>, running: int)
    requires StepsFit(steps, teml)
    ensures logs == EpochLogs(epoch, LossesOf(steps))
    ensures running == Sum(LossesOf(steps)[|steps| - |steps| % LogEvery..])
  {
    var losses := LossesOf(steps);
    logs, running := [], 0;
    var step := 0;
    while step < |steps|
      invariant 0 <= step <= |steps|
      invariant logs == LogsUpTo(epoch, losses, step)
      invariant running == Sum(losses[step - step % LogEvery..step])
    {
      var oneHot := OneHot.GetOneHotTem(steps[step].templates, teml);
      logs, running := CountStep(epoch, losses, step, logs, running);
      step := step + 1;
    }
    assert losses[step - step % LogEvery..step] == losses[|losses| - |losses| % LogEvery..];
  }

  function AllLosses(steps: seq<seq<TrainStep>>): (ls: seq<seq<int>>)
    ensures |ls| == |steps| && forall e :: 0 <= e < |steps| ==> ls[e] == LossesOf(steps[e])
  {
    seq(|steps|, e requires 0 <= e < |steps| => LossesOf(steps[e]))
  }

  function AllUnwrapped(validation: seq<seq<Evaluation.TBatch>>): (vs: seq<seq<Evaluation.Batch>>)
    ensures |vs| == |validation| && forall e :: 0 <= e < |validation| ==> vs[e] == Evaluation.Unwrap(validation[e])
  {
    seq(|validation|, e requires 0 <= e < |validation| => Evaluation.Unwrap(validation[e]))
  }

  /**
   * `train_model_withT`: as `train_model`, with templates encoded at every
   * training step and every validation batch.
   */
  method TrainModelWithT(teml: nat, steps: seq<seq<TrainStep>>, validation: seq<seq<Evaluation.TBatch>>)
    returns (r: Result<TrainReport, Aborted>)
    requires |validation| == |steps|
    requires forall e :: 0 <= e < |steps| ==> StepsFit(steps[e], teml)
    requires forall e :: 0 <= e < |validation| ==> Evaluation.TemplatesFit(validation[e], teml)
    requires forall e, k :: 0 <= e < |validation| && 0 <= k < |validation[e]| ==>
               validation[e][k].batch.Top1? && Evaluation.WellShaped(validation[e][k].batch)
    ensures ValidationShaped(AllUnwrapped(validation))
    ensures r == Trained(AllLosses(steps), AllUnwrapped(validation))
  {
    ghost var ls := AllLosses(steps);
    ghost var vs := AllUnwrapped(validation);
    var logs: seq<LossLog> := [];
    var accs: seq<Evaluation.Accuracy> := [];
    var epoch := 0;
    while epoch < |steps|
      invariant 0 <= epoch <= |steps|
      invariant Trained(ls[..epoch], vs[..epoch]) == Ok(TrainReport(logs, accs))
    {
      TrainedStep(ls, vs, epoch);
      var epochLogs, _ := RunEpochWithT(epoch, teml, steps[epoch]);
      logs := logs + epochLogs;
      forall tb | tb in validation[epoch] ensures tb.batch.Top1? && Evaluation.WellShaped(tb.batch) {
        var k :| 0 <= k < |validation[epoch]| && validation[epoch][k] == tb;
      }
      var acc := Evaluation.TestModelWithT(teml, validation[epoch], false);
      if acc.Err? {
        TrainedErrSticks(ls, vs, epoch + 1);
        return Err(Aborted(TrainReport(logs, accs), acc.error));
      }
      accs := accs + [acc.value];
      epoch := epoch + 1;
    }
    assert ls[..epoch] == ls && vs[..epoch] == vs;
    r := Ok(TrainReport(logs, accs));
  }
}
