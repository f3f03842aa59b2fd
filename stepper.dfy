/**
 * The `Stepper` across the top of both wizards: a circle per step, a progress line and the
 * "Step k of n" caption.
 */
module Stepper {
  import opened Text
  import opened Wrappers
  import Wizard

  /** How one step is drawn: `isCompleted`, `isCurrent` and `isClickable`. */
  datatype StepView = StepView(completed: bool, current: bool, clickable: bool)

  function ViewOf(index: int, currentStep: int, hasHandler: bool): (r: StepView)
    ensures r.completed <==> index < currentStep
    ensures r.current <==> index == currentStep
    ensures r.clickable <==> hasHandler && (r.completed || r.current)
    ensures !(r.completed && r.current)
  {
    StepView(index < currentStep, index == currentStep, hasHandler && index <= currentStep)
  }

  /** How many of the first `n` steps satisfy a property, counted by index. */
  function CountCompleted(n: nat, currentStep: int): nat {
    if n == 0 then 0
    else CountCompleted(n - 1, currentStep) + (if ViewOf(n - 1, currentStep, false).completed then 1 else 0)
  }

  function CountCurrent(n: nat, currentStep: int): nat {
    if n == 0 then 0
    else CountCurrent(n - 1, currentStep) + (if ViewOf(n - 1, currentStep, false).current then 1 else 0)
  }

  /** On a step within range exactly one step is current and exactly `currentStep` are completed. */
  lemma {:induction false} Counts(n: nat, currentStep: int)
    requires 0 <= currentStep <= n
    ensures CountCompleted(n, currentStep) == currentStep
    ensures CountCurrent(n, currentStep) == if currentStep < n then 1 else 0
  {
    if n > 0 {
      if currentStep == n {
        Counts(n - 1, currentStep - 1);
        CountsShift(n - 1, currentStep);
      } else {
        Counts(n - 1, currentStep);
      }
    }
  }

  /** Below the current step every step is completed and none is current. */
  lemma {:induction false} CountsShift(n: nat, currentStep: int)
    requires n < currentStep
    ensures CountCompleted(n, currentStep) == n && CountCurrent(n, currentStep) == 0
  {
    if n > 0 {
      CountsShift(n - 1, currentStep);
    }
  }

  /** A click on a clickable circle moves the wizard exactly to that step; the wizard itself
      would ignore a click further on, which the stepper never offers. */
  lemma ClickableMovesWizard(index: int, currentStep: int)
    ensures ViewOf(index, currentStep, true).clickable ==> Wizard.ClickStep(currentStep, index) == index
    ensures !ViewOf(index, currentStep, true).clickable ==> Wizard.ClickStep(currentStep, index) == currentStep
  {
  }

  /** The width of the progress line, in percent. With a single step the division is by zero,
      which JavaScript answers with Infinity. */
  datatype Width = Percent(p: real) | Infinite

  function ProgressWidth(currentStep: int, n: nat): Width {
    if currentStep > 0 then
      if n - 1 == 0 then Infinite else Percent((currentStep as real / (n - 1) as real) * 100.0)
    else Percent(0.0)
  }

  /** The line is empty on the first step, full on the last, and in between grows with the step. */
  lemma ProgressEndpoints(currentStep: int, n: nat)
    ensures currentStep <= 0 ==> ProgressWidth(currentStep, n) == Percent(0.0)
    ensures n >= 2 && currentStep == n - 1 ==> ProgressWidth(currentStep, n) == Percent(100.0)
    ensures n >= 2 && 0 <= currentStep < n ==>
      var w := ProgressWidth(currentStep, n); w.Percent? && 0.0 <= w.p <= 100.0
    ensures n == 1 && currentStep > 0 ==> ProgressWidth(currentStep, n) == Infinite
  {
    if n >= 2 && 0 < currentStep < n {
      var d := (n - 1) as real;
      assert currentStep as real <= d;
      assert currentStep as real / d <= 1.0;
    }
  }

  lemma ProgressMonotone(s1: int, s2: int, n: nat)
    requires n >= 2 && 0 <= s1 <= s2 < n
    ensures ProgressWidth(s1, n).p <= ProgressWidth(s2, n).p
  {
    if s1 > 0 {
      var d := (n - 1) as real;
      assert s1 as real / d <= s2 as real / d;
    } else {
      ProgressEndpoints(s2, n);
    }
  }

  /** The caption `Step {currentStep + 1} of {steps.length}: {title}`. Reading the title of a
      step that does not exist throws, so the caption exists only for a step within range. */
  function Caption(currentStep: int, titles: seq<string>): (r: Option<string>)
    ensures r.Some? <==> 0 <= currentStep < |titles|
    ensures r.Some? ==> IsPrefix("Step " + NatToString(currentStep + 1) + " of " + NatToString(|titles|), r.value)
  {
    if 0 <= currentStep < |titles| then
      var head := "Step " + NatToString(currentStep + 1) + " of " + NatToString(|titles|);
      var s := head + ": " + titles[currentStep];
      assert s[..|head|] == head;
      Some(s)
    else None
  }

  /** The index of the first blank of `s`, or its length. */
  function FirstBlank(s: string): (r: nat)
    ensures r <= |s| && (r < |s| ==> s[r] == ' ')
    ensures forall i :: 0 <= i < r ==> s[i] != ' '
  {
    if s == [] then 0 else if s[0] == ' ' then 0 else 1 + FirstBlank(s[1..])
  }

  /** After a run of digits, the first blank is the one that ends it. */
  lemma {:induction false} FirstBlankAfterDigits(a: string, r: string)
    requires forall i :: 0 <= i < |a| ==> IsDigit(a[i])
    requires r != [] && r[0] == ' '
    ensures FirstBlank(a + r) == |a|
  {
    if a != [] {
      assert (a + r)[1..] == a[1..] + r;
      FirstBlankAfterDigits(a[1..], r);
    }
  }

  /** A run of digits followed by a blank is read back whole: two such texts agree only if
      their digits do. */
  lemma DigitsThenBlank(a: string, b: string, r1: string, r2: string)
    requires forall i :: 0 <= i < |a| ==> IsDigit(a[i])
    requires forall i :: 0 <= i < |b| ==> IsDigit(b[i])
    requires r1 != [] && r2 != [] && r1[0] == ' ' && r2[0] == ' '
    requires a + r1 == b + r2
    ensures a == b
  {
    FirstBlankAfterDigits(a, r1);
    FirstBlankAfterDigits(b, r2);
    assert (a + r1)[..|a|] == a && (b + r2)[..|b|] == b;
  }

  /** The caption of a step in range, split after its number. */
  lemma CaptionText(step: int, titles: seq<string>)
    requires 0 <= step < |titles|
    ensures Caption(step, titles).value == "Step " + (NatToString(step + 1) + (" of " + NatToString(|titles|) + ": " + titles[step]))
  {
  }

  /** Different steps get different captions, whatever their titles. */
  lemma CaptionsDiffer(s1: int, s2: int, titles: seq<string>)
    requires 0 <= s1 < |titles| && 0 <= s2 < |titles| && s1 != s2
    ensures Caption(s1, titles) != Caption(s2, titles)
  {
    var a, b := NatToString(s1 + 1), NatToString(s2 + 1);
    var r1 := " of " + NatToString(|titles|) + ": " + titles[s1];
    var r2 := " of " + NatToString(|titles|) + ": " + titles[s2];
    var c1, c2 := Caption(s1, titles).value, Caption(s2, titles).value;
    CaptionText(s1, titles);
    CaptionText(s2, titles);
    NatToStringInjective(s1 + 1, s2 + 1);
    if c1 == c2 {
      assert c1[5..] == a + r1 && c2[5..] == b + r2;
      DigitsThenBlank(a, b, r1, r2);
    }
  }
}
