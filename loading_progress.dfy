/** The analysis progress panel (app/components/LoadingProgress.tsx): a
    clamped bar and a list of steps, each active once the progress reaches
    its share of 100. Arithmetic is exact here. */
module LoadingProgress {
  import ProgressBar

  /** What one step shows. */
  datatype StepView = StepView(step: string, active: bool, current: bool)

  /** `(index + 1) * (100 / steps.length)`. */
  function Threshold(index: nat, n: nat): real
    requires n > 0
  {
    (index + 1) as real * (100.0 / n as real)
  }

  /** The step list as rendered. */
  function StepViews(progress: real, currentStep: string, steps: seq<string>): (vs: seq<StepView>)
    ensures |vs| == |steps|
    ensures forall i :: 0 <= i < |vs| ==> vs[i].step == steps[i]
    ensures forall i :: 0 <= i < |vs| ==> (vs[i].active <==> progress >= Threshold(i, |steps|))
    ensures forall i :: 0 <= i < |vs| ==> (vs[i].current <==> steps[i] == currentStep)
  {
    seq(|steps|, i requires 0 <= i < |steps| => StepView(steps[i], progress >= Threshold(i, |steps|), steps[i] == currentStep))
  }

  /** The width of the bar. */
  function BarWidth(progress: real): real
  {
    ProgressBar.Clamp(progress)
  }

  /** Thresholds grow with the index. */
  lemma ThresholdMonotone(i: nat, j: nat, n: nat)
    requires n > 0 && i <= j
    ensures Threshold(i, n) <= Threshold(j, n)
  {
    var share := 100.0 / n as real;
    assert share > 0.0;
    assert (j + 1) as real * share - (i + 1) as real * share == (j - i) as real * share;
  }

  /** The active steps form a prefix of the list, and the last step is
      active exactly at progress 100 or more. */
  lemma ActiveSteps(progress: real, currentStep: string, steps: seq<string>)
    ensures var vs := StepViews(progress, currentStep, steps);
      forall i, j :: 0 <= i <= j < |vs| && vs[j].active ==> vs[i].active
    ensures |steps| > 0 ==> (StepViews(progress, currentStep, steps)[|steps| - 1].active <==> progress >= 100.0)
  {
    var vs := StepViews(progress, currentStep, steps);
    forall i, j | 0 <= i <= j < |vs| && vs[j].active
      ensures vs[i].active
    {
      ThresholdMonotone(i, j, |steps|);
    }
    if |steps| > 0 {
      var n := |steps| as real;
      assert Threshold(|steps| - 1, |steps|) == n * (100.0 / n);
    }
  }
}
