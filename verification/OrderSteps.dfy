/**
  The order-progress indicator: four steps, the current one found from the
  page's path, and for each step whether its circle is completed or active
  and whether the line after it is completed.
 */
module OrderSteps {
  import opened Text

  datatype Step = Step(id: nat, name: string, path: string)

  const Steps: seq<Step> := [
    Step(1, "Билеты", "/search"),
    Step(2, "Пассажиры", "/passengers"),
    Step(3, "Оплата", "/payment"),
    Step(4, "Проверка", "/confirmation")]

  /** `steps.findIndex(...)` from index `i`: the first step whose path starts
      the pathname, or -1. */
  function FindStep(pathname: string, i: nat): (k: int)
    requires i <= |Steps|
    ensures k == -1 || i <= k < |Steps|
    ensures k >= 0 ==> StartsWith(pathname, Steps[k].path)
    ensures k >= 0 ==> forall j :: i <= j < k ==> !StartsWith(pathname, Steps[j].path)
    ensures k == -1 ==> forall j :: i <= j < |Steps| ==> !StartsWith(pathname, Steps[j].path)
    decreases |Steps| - i
  {
    if i == |Steps| then -1
    else if StartsWith(pathname, Steps[i].path) then i
    else FindStep(pathname, i + 1)
  }

  /** `currentStep`: one more than the index of the first matching step, so
      0 when no step matches. */
  function CurrentStep(pathname: string): (n: nat)
    ensures n <= |Steps|
    ensures n == 0 <==> forall j :: 0 <= j < |Steps| ==> !StartsWith(pathname, Steps[j].path)
    ensures n > 0 ==> StartsWith(pathname, Steps[n - 1].path)
  {
    FindStep(pathname, 0) + 1
  }

  /** Two prefixes of one text: the shorter is a prefix of the longer. */
  lemma PrefixesNest(p: string, a: string, b: string)
    requires StartsWith(p, a) && StartsWith(p, b) && |a| <= |b|
    ensures StartsWith(b, a)
  {
    assert b[..|a|] == p[..|b|][..|a|] == p[..|a|];
  }

  /** No step's path is a prefix of another's. */
  lemma PathsIndependent(i: nat, j: nat)
    requires i < |Steps| && j < |Steps| && i != j
    ensures !StartsWith(Steps[j].path, Steps[i].path)
  {
    var a := Steps[i].path;
    var b := Steps[j].path;
    if |a| <= |b| {
      assert a[1] != b[1] || a[3] != b[3];
    }
  }

  /** A pathname matches at most one step, so the step found does not
      depend on the order of the list: step `k` is current exactly when its
      path starts the pathname. */
  lemma CurrentStepIffPrefix(pathname: string, k: nat)
    requires 1 <= k <= |Steps|
    ensures CurrentStep(pathname) == k <==> StartsWith(pathname, Steps[k - 1].path)
  {
    var n := CurrentStep(pathname);
    if StartsWith(pathname, Steps[k - 1].path) && n != k {
      assert n > 0;
      var a := Steps[n - 1].path;
      var b := Steps[k - 1].path;
      if |a| <= |b| {
        PrefixesNest(pathname, a, b);
        PathsIndependent(n - 1, k - 1);
      } else {
        PrefixesNest(pathname, b, a);
        PathsIndependent(k - 1, n - 1);
      }
    }
  }

  /** A few pages: the payment page is step 3, a passenger sub-page step 2,
      and the main page none. */
  lemma CurrentStepExamples()
    ensures CurrentStep("/payment") == 3
    ensures CurrentStep("/passengers/2") == 2
    ensures CurrentStep("/") == 0
  {
    CurrentStepIffPrefix("/payment", 3);
    assert StartsWith("/payment", "/payment");
    CurrentStepIffPrefix("/passengers/2", 2);
    assert "/passengers/2"[..11] == "/passengers";
  }

  // ---------------------------------------------------------------------
  // The circles and the lines
  // ---------------------------------------------------------------------

  /** A step's circle: its two style flags and what it shows. */
  datatype Circle = Circle(completed: bool, active: bool, mark: string)

  /** The circle of a step: completed before the current step, active at it;
      a completed step shows a check mark, any other its number. */
  function CircleOf(current: nat, s: Step): (c: Circle)
    ensures c.completed <==> s.id < current
    ensures c.active <==> s.id == current
    ensures !(c.completed && c.active)
    ensures c.completed ==> c.mark == "✓"
    ensures !c.completed ==> c.mark == NatToString(s.id)
  {
    var completed := current > s.id;
    Circle(completed, current == s.id, if completed then "✓" else NatToString(s.id))
  }

  /** The line after a step is completed once the step after it is. */
  function LineCompleted(current: nat, s: Step): (done: bool)
    ensures done ==> CircleOf(current, s).completed
  {
    current > s.id + 1
  }

  /** The steps are numbered 1 to 4 in list order. */
  lemma StepIds()
    ensures forall i :: 0 <= i < |Steps| ==> Steps[i].id == i + 1
  {
  }

  /** On any page at most one circle is active, and exactly one when a step
      matches; the completed circles are the ones before it. */
  lemma OneActiveStep(pathname: string, i: nat, j: nat)
    requires i < |Steps| && j < |Steps|
    ensures CircleOf(CurrentStep(pathname), Steps[i]).active && CircleOf(CurrentStep(pathname), Steps[j]).active ==> i == j
    ensures CurrentStep(pathname) > 0 ==> CircleOf(CurrentStep(pathname), Steps[CurrentStep(pathname) - 1]).active
    ensures CircleOf(CurrentStep(pathname), Steps[i]).completed <==> i + 1 < CurrentStep(pathname)
  {
    StepIds();
  }

  /** The line after step `i` is completed exactly when step `i + 1` is. */
  lemma LineFollowsNextStep(current: nat, i: nat)
    requires i + 1 < |Steps|
    ensures LineCompleted(current, Steps[i]) <==> CircleOf(current, Steps[i + 1]).completed
  {
    StepIds();
  }
}
