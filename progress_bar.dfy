/** The progress bar (app/components/ProgressBar.tsx): the width is the
    progress clamped to [0, 100]. */
module ProgressBar {
  import opened Common

  /** `Math.min(100, Math.max(0, progress))`. */
  function Clamp(progress: real): (c: real)
    ensures 0.0 <= c <= 100.0
  {
    MinReal(100.0, MaxReal(0.0, progress))
  }

  /** In-range values are kept, clamping twice is clamping once, and a
      larger input never gives a smaller width. */
  lemma ClampProperties(p: real, q: real)
    ensures 0.0 <= p <= 100.0 ==> Clamp(p) == p
    ensures Clamp(Clamp(p)) == Clamp(p)
    ensures p <= q ==> Clamp(p) <= Clamp(q)
    ensures p < 0.0 ==> Clamp(p) == 0.0
    ensures p > 100.0 ==> Clamp(p) == 100.0
  {
  }

  /** The label row shows only for a label that is given and not empty. */
  predicate ShowsLabel(caption: Option<string>)
  {
    caption.Some? && caption.value != ""
  }
}
