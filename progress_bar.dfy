/** frontend/src/components/ProgressBar.js: one numbered circle per step,
    each completed, current or pending relative to `currentStep`, an
    optional label beside it and a separator arrow between neighbours. */
module ProgressBar {
  import opened Wrappers

  datatype Status = Completed | Current | Pending

  /** `isCompleted` / `isCurrent` for step number `n`. */
  function StepStatus(n: int, currentStep: int): (s: Status)
    ensures s == Completed <==> n < currentStep
    ensures s == Current <==> n == currentStep
    ensures s == Pending <==> n > currentStep
  {
    if n < currentStep then Completed
    else if n == currentStep then Current
    else Pending
  }

  /** `labels && labels[index] && …`: a label is shown only when a labels
      array is passed and holds a non-empty string at that index. */
  function LabelAt(labels: Option<seq<string>>, index: nat): (r: Option<string>)
    ensures r.Some? <==> labels.Some? && index < |labels.value| && labels.value[index] != ""
    ensures r.Some? ==> r.value == labels.value[index]
  {
    match labels
    case None => None
    case Some(ls) => if index < |ls| && ls[index] != "" then Some(ls[index]) else None
  }

  /** What the bar renders, in order: a circle per step and arrows. */
  datatype Item = Circle(number: int, status: Status, caption: Option<string>) | Arrow

  /** The circle for array index `index` (step number `index + 1`). */
  function CircleAt(index: nat, currentStep: int, labels: Option<seq<string>>): Item
  {
    Circle(index + 1, StepStatus(index + 1, currentStep), LabelAt(labels, index))
  }

  /** The fragments for indices `from` .. `totalSteps - 1`: each circle is
      followed by an arrow unless its step is the last. */
  function RenderFrom(from: nat, totalSteps: nat, currentStep: int, labels: Option<seq<string>>): (r: seq<Item>)
    requires from <= totalSteps
    decreases totalSteps - from
  {
    if from == totalSteps then []
    else
      [CircleAt(from, currentStep, labels)]
      + (if from + 1 < totalSteps then [Arrow] else [])
      + RenderFrom(from + 1, totalSteps, currentStep, labels)
  }

  /** `[...Array(totalSteps)].map(...)`; a negative length is a RangeError
      in the source, so `totalSteps` is a natural number here. */
  function Render(currentStep: int, totalSteps: nat, labels: Option<seq<string>>): (r: seq<Item>)
  {
    RenderFrom(0, totalSteps, currentStep, labels)
  }

  /** Layout of the rendered fragments: circles at even positions, numbered
      `from + 1`, `from + 2`, … in order, with an arrow between each pair. */
  lemma {:induction false} RenderFromLayout(from: nat, totalSteps: nat, currentStep: int, labels: Option<seq<string>>)
    requires from < totalSteps
    ensures var r := RenderFrom(from, totalSteps, currentStep, labels);
            |r| == 2 * (totalSteps - from) - 1
            && (forall p :: 0 <= p < |r| && p % 2 == 0 ==> r[p] == CircleAt(from + p / 2, currentStep, labels))
            && (forall p :: 0 <= p < |r| && p % 2 == 1 ==> r[p] == Arrow)
    decreases totalSteps - from
  {
    var r := RenderFrom(from, totalSteps, currentStep, labels);
    if from + 1 < totalSteps {
      RenderFromLayout(from + 1, totalSteps, currentStep, labels);
      var rest := RenderFrom(from + 1, totalSteps, currentStep, labels);
      assert r == [CircleAt(from, currentStep, labels), Arrow] + rest;
      forall p | 2 <= p < |r|
        ensures r[p] == rest[p - 2]
      {
      }
    }
  }

  /** The whole bar: `2 * totalSteps - 1` fragments, step `k` at position
      `2 * (k - 1)`, and an arrow after every step except the last. */
  lemma RenderLayout(currentStep: int, totalSteps: nat, labels: Option<seq<string>>)
    ensures var r := Render(currentStep, totalSteps, labels);
            |r| == (if totalSteps == 0 then 0 else 2 * totalSteps - 1)
            && (forall p :: 0 <= p < |r| && p % 2 == 0 ==> r[p] == CircleAt(p / 2, currentStep, labels))
            && (forall p :: 0 <= p < |r| && p % 2 == 1 ==> r[p] == Arrow)
  {
    if totalSteps > 0 {
      RenderFromLayout(0, totalSteps, currentStep, labels);
    }
  }

  function ArrowCount(items: seq<Item>): (n: nat)
    ensures n <= |items|
  {
    if |items| == 0 then 0 else (if items[0].Arrow? then 1 else 0) + ArrowCount(items[1..])
  }

  function CurrentCount(items: seq<Item>): (n: nat)
    ensures n <= |items|
  {
    if |items| == 0 then 0 else (if items[0].Circle? && items[0].status == Current then 1 else 0) + CurrentCount(items[1..])
  }

  /** Counts over the fragments for `from` .. `totalSteps - 1`. */
  lemma {:induction false} RenderFromCounts(from: nat, totalSteps: nat, currentStep: int, labels: Option<seq<string>>)
    requires from < totalSteps
    ensures ArrowCount(RenderFrom(from, totalSteps, currentStep, labels)) == totalSteps - from - 1
    ensures CurrentCount(RenderFrom(from, totalSteps, currentStep, labels))
            == (if from + 1 <= currentStep <= totalSteps then 1 else 0)
    decreases totalSteps - from
  {
    var r := RenderFrom(from, totalSteps, currentStep, labels);
    var head := [CircleAt(from, currentStep, labels)] + (if from + 1 < totalSteps then [Arrow] else []);
    var rest := RenderFrom(from + 1, totalSteps, currentStep, labels);
    assert r == head + rest;
    CountsAppend(head, rest);
    if from + 1 < totalSteps {
      RenderFromCounts(from + 1, totalSteps, currentStep, labels);
      assert head[1..] == [Arrow];
      assert ArrowCount(head) == 1 && ArrowCount(head[1..][1..]) == 0;
    } else {
      assert rest == [];
      assert head[1..] == [];
    }
  }

  lemma {:induction false} CountsAppend(xs: seq<Item>, ys: seq<Item>)
    ensures ArrowCount(xs + ys) == ArrowCount(xs) + ArrowCount(ys)
    ensures CurrentCount(xs + ys) == CurrentCount(xs) + CurrentCount(ys)
    decreases |xs|
  {
    if |xs| > 0 {
      assert (xs + ys)[1..] == xs[1..] + ys;
      CountsAppend(xs[1..], ys);
    } else {
      assert xs + ys == ys;
    }
  }

  /** `totalSteps - 1` arrows, and exactly one current step when
      `currentStep` lies in 1..totalSteps (none otherwise). */
  lemma RenderCounts(currentStep: int, totalSteps: nat, labels: Option<seq<string>>)
    requires totalSteps >= 1
    ensures ArrowCount(Render(currentStep, totalSteps, labels)) == totalSteps - 1
    ensures CurrentCount(Render(currentStep, totalSteps, labels))
            == (if 1 <= currentStep <= totalSteps then 1 else 0)
  {
    RenderFromCounts(0, totalSteps, currentStep, labels);
  }

  /** With `currentStep` in range, the completed circles are exactly steps
      1 .. currentStep - 1, and the only current one is `currentStep`. */
  lemma CompletedSteps(currentStep: int, totalSteps: nat, labels: Option<seq<string>>, p: nat)
    requires 1 <= currentStep <= totalSteps
    requires p < |Render(currentStep, totalSteps, labels)| && p % 2 == 0
    ensures var c := Render(currentStep, totalSteps, labels)[p];
            c.Circle? && 1 <= c.number <= totalSteps
            && (c.status == Completed <==> c.number < currentStep)
            && (c.status == Current <==> c.number == currentStep)
  {
    RenderLayout(currentStep, totalSteps, labels);
  }
}
