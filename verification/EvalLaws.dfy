/**
  What plain evaluation promises of each kind of step and of steps in a row, said of its
  results alone. The other pipeline modules carry these laws to runs, pauses and resumes.
*/
module EvalLaws {
  import opened Wrappers
  import opened PipelineModel
  import opened PipelineMachine
  import opened SuspendedTree
  import opened RunRefinement
  import opened ParallelMerge

  // ------------------------------------------------------------- map steps

  // Each item of xs has been given to the agent as often as it is in xs; nothing else happened.
  ghost predicate RanOnEach(events: multiset<Event>, agentId: string, xs: seq<Value>)
  {
    forall e :: events[e]
      == if e.Ran? && e.call == Call(agentId, None, e.call.input) then multiset(xs)[e.call.input] else 0
  }

  // The outputs of the items, each at its place.
  ghost predicate ItemsDone(w: World, agentId: string, xs: seq<Value>, r: ItemsRes)
  {
    && |r.values| == |xs| && RanOnEach(r.events, agentId, xs)
    && forall i :: 0 <= i < |xs| ==> w.run(Call(agentId, None, xs[i])) == Some(r.values[i])
  }

  lemma {:induction false} ItemsEach(w: World, agentId: string, xs: seq<Value>)
    ensures var r := EvalItems(w, agentId, xs);
      && (r.Some? ==> ItemsDone(w, agentId, xs, r.value))
      && (r.None? ==> exists i :: 0 <= i < |xs| && w.run(Call(agentId, None, xs[i])).None?)
    decreases xs
  {
    if xs != [] && w.run(Call(agentId, None, xs[0])).Some? {
      ItemsEach(w, agentId, xs[1..]);
      var rest := EvalItems(w, agentId, xs[1..]);
      if rest.Some? {
        ItemsCons(w, agentId, xs, rest.value);
      } else {
        var i :| 0 <= i < |xs[1..]| && w.run(Call(agentId, None, xs[1..][i])).None?;
        assert xs[i + 1] == xs[1..][i];
      }
    }
  }

  lemma ItemsCons(w: World, agentId: string, xs: seq<Value>, rest: ItemsRes)
    requires xs != [] && ItemsDone(w, agentId, xs[1..], rest) && w.run(Call(agentId, None, xs[0])).Some?
    ensures var call := Call(agentId, None, xs[0]);
      ItemsDone(w, agentId, xs, ItemsRes([w.run(call).value] + rest.values, multiset{Ran(call)} + rest.events))
  {
    assert xs == [xs[0]] + xs[1..];
    assert multiset(xs) == multiset{xs[0]} + multiset(xs[1..]);
  }

  /**
    A map step gives every item of an array to its agent, once each, and collects the outputs
    at the items' places; it fails exactly when the agent does on one of them. A value that is
    no array is the one item.
  */
  lemma MapRunsOnEach(w: World, pid: Pid, agentId: string, index: nat, value: Value, lbl: Label, xs: seq<Value>)
    requires value == Items(xs) || (!value.Items? && xs == [value])
    ensures var r := EvalStep(w, pid, MapStep(agentId), index, value, lbl);
      && (r.Some? <==> forall i :: 0 <= i < |xs| ==> w.run(Call(agentId, None, xs[i])).Some?)
      && (r.Some? ==>
            && r.value.lbl == lbl && RanOnEach(r.value.events, agentId, xs)
            && r.value.value.Items? && |r.value.value.items| == |xs|
            && forall i :: 0 <= i < |xs| ==> w.run(Call(agentId, None, xs[i])) == Some(r.value.value.items[i]))
  {
    ItemsEach(w, agentId, xs);
  }

  // ------------------------------------------------------- steps in a row

  // What b makes of the outcome of a.
  function FollowedBy(w: World, pid: Pid, first: Option<Res>, b: seq<Step>, base: nat): Option<Res>
  {
    if first.None? then None
    else Plus(first.value.events, Eval(w, pid, b, base, first.value.value, first.value.lbl))
  }

  lemma FollowedPlus(w: World, pid: Pid, e: multiset<Event>, first: Option<Res>, b: seq<Step>, base: nat)
    ensures FollowedBy(w, pid, Plus(e, first), b, base) == Plus(e, FollowedBy(w, pid, first, b, base))
  {
    if first.Some? {
      PlusPlus(e, first.value.events, Eval(w, pid, b, base, first.value.value, first.value.lbl));
    }
  }

  // The steps after the first, entered as it leaves them.
  function AfterFirst(w: World, pid: Pid, steps: seq<Step>, base: nat, value: Value, h: Res): Option<Res>
    requires steps != []
  {
    Eval(w, pid, steps[1..], base + 1, Next(steps[0], value, h.value), h.lbl)
  }

  function Around(pid: Pid, base: nat, h: Res): multiset<Event>
  {
    multiset{Started(pid, base)} + h.events + multiset{Ended(pid, base, h.value)}
  }

  lemma FirstThenRest(w: World, pid: Pid, steps: seq<Step>, base: nat, value: Value, lbl: Label)
    requires steps != []
    ensures var h := EvalStep(w, pid, steps[0], base, value, lbl);
      Eval(w, pid, steps, base, value, lbl)
      == if h.None? then None
         else Plus(Around(pid, base, h.value), AfterFirst(w, pid, steps, base, value, h.value))
  {
    EvalUnfold(w, pid, steps, base, value, lbl);
  }

  lemma {:induction false} EvalInTwo(w: World, pid: Pid, a: seq<Step>, b: seq<Step>, base: nat, value: Value,
                                     lbl: Label)
    ensures Eval(w, pid, a + b, base, value, lbl)
         == FollowedBy(w, pid, Eval(w, pid, a, base, value, lbl), b, base + |a|)
    decreases a, 1
  {
    if a == [] {
      assert a + b == b;
      PlusNone(Eval(w, pid, b, base, value, lbl));
    } else {
      var h := EvalStep(w, pid, a[0], base, value, lbl);
      FirstThenRest(w, pid, a, base, value, lbl);
      FirstThenRest(w, pid, a + b, base, value, lbl);
      if h.Some? { InTwoLater(w, pid, a, b, base, value, h.value); }
    }
  }

  lemma {:induction false} InTwoLater(w: World, pid: Pid, a: seq<Step>, b: seq<Step>, base: nat, value: Value, h: Res)
    requires a != []
    ensures Plus(Around(pid, base, h), AfterFirst(w, pid, a + b, base, value, h))
         == FollowedBy(w, pid, Plus(Around(pid, base, h), AfterFirst(w, pid, a, base, value, h)), b, base + |a|)
    decreases a, 0
  {
    assert (a + b)[1..] == a[1..] + b;
    EvalInTwo(w, pid, a[1..], b, base + 1, Next(a[0], value, h.value), h.lbl);
    FollowedPlus(w, pid, Around(pid, base, h), AfterFirst(w, pid, a, base, value, h), b, base + |a|);
  }

  lemma PlusNone(r: Option<Res>)
    ensures Plus(multiset{}, r) == r
  {
    assert r.Some? ==> multiset{} + r.value.events == r.value.events;
  }

  /**
    Steps in a row: the second part starts from the value and label the first part ended with.
  */
  lemma StepsCompose(w: World, pid: Pid, a: seq<Step>, b: seq<Step>, base: nat, value: Value, lbl: Label)
    ensures var r, first := Eval(w, pid, a + b, base, value, lbl), Eval(w, pid, a, base, value, lbl);
      && (r.Some? <==>
            first.Some? && Eval(w, pid, b, base + |a|, first.value.value, first.value.lbl).Some?)
      && (r.Some? ==>
            var second := Eval(w, pid, b, base + |a|, first.value.value, first.value.lbl).value;
            && r.value.value == second.value && r.value.lbl == second.lbl
            && r.value.events == first.value.events + second.events)
  {
    EvalInTwo(w, pid, a, b, base, value, lbl);
  }

  // -------------------------------------------------------------- one step

  // A pipeline of one step.
  function Alone(w: World, pid: Pid, step: Step, base: nat, value: Value, lbl: Label): Option<Res>
  {
    Eval(w, pid, [step], base, value, lbl)
  }

  lemma AloneIsStep(w: World, pid: Pid, step: Step, base: nat, value: Value, lbl: Label)
    ensures var r, h := Alone(w, pid, step, base, value, lbl), EvalStep(w, pid, step, base, value, lbl);
      && r.Some? == h.Some?
      && (h.Some? ==>
            && r.value.lbl == h.value.lbl && r.value.value == Next(step, value, h.value.value)
            && r.value.events == multiset{Started(pid, base), Ended(pid, base, h.value.value)} + h.value.events)
  {
    FirstThenRest(w, pid, [step], base, value, lbl);
    var h := EvalStep(w, pid, step, base, value, lbl);
    if h.Some? { NothingAfter(w, pid, step, base, value, h.value); }
  }

  lemma NothingAfter(w: World, pid: Pid, step: Step, base: nat, value: Value, h: Res)
    ensures AfterFirst(w, pid, [step], base, value, h) == Some(Res(Next(step, value, h.value), h.lbl, multiset{}))
    ensures Around(pid, base, h) + multiset{} == multiset{Started(pid, base), Ended(pid, base, h.value)} + h.events
  {
  }

  /**
    An agent step hands on its agent's output and keeps the label. A decision step hands on the
    value it was given, sets the label to its answer's, and shows label and answer as its output.
  */
  lemma AgentsAndDecisions(w: World, pid: Pid, step: Step, base: nat, value: Value, lbl: Label)
    requires step.AgentStep? || step.DecisionStep?
    ensures var r := Alone(w, pid, step, base, value, lbl);
      if step.AgentStep? then
        var call := Call(step.agentId, step.skill, value);
        && r.Some? == w.run(call).Some?
        && (r.Some? ==>
              && w.run(call) == Some(r.value.value) && r.value.lbl == lbl
              && r.value.events == multiset{Started(pid, base), Ran(call), Ended(pid, base, r.value.value)})
      else
        var a := w.decide(step.question, value);
        && r.Some? == a.Some?
        && (r.Some? ==>
              && r.value.value == value && r.value.lbl == Some(a.value.lbl)
              && r.value.events
                 == multiset{Started(pid, base), Ended(pid, base, Answered(a.value.lbl, a.value.answer))})
  {
    AloneIsStep(w, pid, step, base, value, lbl);
  }

  // ------------------------------------------------------------- branches

  // A label never goes away again.
  lemma {:induction false} LabelStays(w: World, pid: Pid, steps: seq<Step>, base: nat, value: Value, lbl: Label)
    ensures var r := Eval(w, pid, steps, base, value, lbl); r.Some? && lbl.Some? ==> r.value.lbl.Some?
    decreases steps, 1
  {
    if steps != [] {
      StepLabelStays(w, pid, steps[0], base, value, lbl);
      var h := EvalStep(w, pid, steps[0], base, value, lbl);
      if h.Some? {
        LabelStays(w, pid, steps[1..], base + 1, Next(steps[0], value, h.value.value), h.value.lbl);
      }
    }
  }

  lemma {:induction false} StepLabelStays(w: World, pid: Pid, step: Step, index: nat, value: Value, lbl: Label)
    ensures var r := EvalStep(w, pid, step, index, value, lbl); r.Some? && lbl.Some? ==> r.value.lbl.Some?
    decreases step, 0
  {
    if step.ParallelStep? && lbl.Some? {
      var r := EvalSlots(w, pid, step.slots, index, 0, value, lbl);
      if r.Some? { JoinedStays(lbl, lbl, r.value.labels); }
    }
  }

  lemma {:induction false} JoinedStays(incoming: Label, current: Label, labels: seq<Label>)
    requires current.Some?
    ensures var j := JoinAll(incoming, Agreed(current), labels); j.Agreed? ==> j.lbl.Some?
    decreases labels
  {
    if labels != [] {
      var next := Join(incoming, Agreed(current), labels[0]);
      if next.Agreed? { JoinedStays(incoming, next.lbl, labels[1..]); } else { ConflictStays(incoming, labels[1..]); }
    }
  }

  lemma {:induction false} ConflictStays(incoming: Label, labels: seq<Label>)
    ensures JoinAll(incoming, Conflict, labels) == Conflict
    decreases labels
  {
    if labels != [] { ConflictStays(incoming, labels[1..]); }
  }

  // Arm k of a branch: a case, or the default for -1.
  predicate ArmFits(step: Step, k: int, seen: string)
    requires step.BranchStep?
  {
    if k < 0 then k == -1 && forall i :: 0 <= i < |step.cases| ==> step.cases[i].eq != seen
    else k < |step.cases| && step.cases[k].eq == seen && forall i :: 0 <= i < k ==> step.cases[i].eq != seen
  }

  /**
    A branch is the arm it takes: that arm's value, label and events, and the note of the
    choice. Without a path the label it looks at is the latest decision's, and it fails when
    there was none; with one it is the string found there, and the default when there is none.
  */
  lemma BranchIsItsArm(w: World, pid: Pid, step: Step, index: nat, value: Value, lbl: Label, k: int)
    requires step.BranchStep? && step.otherwise.Default? && -1 <= k < |step.cases|
    requires if step.on.Some? && w.labelAt(value, step.on.value).None? then k == -1
             else if step.on.Some? then ArmFits(step, k, w.labelAt(value, step.on.value).value)
             else lbl.Some? && ArmFits(step, k, lbl.value)
    ensures var r := EvalStep(w, pid, step, index, value, lbl);
      var arm := Eval(w, ArmPid(pid, index), if k < 0 then step.otherwise.arm else step.cases[k].arm, 0, value, lbl);
      && r.Some? == arm.Some?
      && (r.Some? ==>
            && r.value.value == arm.value.value && r.value.lbl == arm.value.lbl
            && r.value.events == arm.value.events + multiset{Took(pid, index, k)})
  {
    ArmChosen(w, step, value, lbl);
    assert SelectArm(w, step, value, lbl) == Chosen(k);
    LabelStays(w, ArmPid(pid, index), if k < 0 then step.otherwise.arm else step.cases[k].arm, 0, value, lbl);
  }

  lemma BranchFails(w: World, pid: Pid, step: Step, index: nat, value: Value, lbl: Label)
    requires step.BranchStep? && (step.otherwise.NoDefault? || (step.on.None? && lbl.None?))
    ensures EvalStep(w, pid, step, index, value, lbl).None?
  {
  }

  // -------------------------------------------------------- parallel steps

  // Slot k for itself: a pipeline of one step, entered with the value and label all slots get.
  function OneSlot(w: World, pid: Pid, step: Step, index: nat, k: nat, value: Value, lbl: Label): Option<Res>
  {
    EvalStep(w, SlotPid(pid, index, k), step, 0, value, lbl)
  }

  // The slots' outputs and labels are those each slot has for itself.
  ghost predicate SlotsApart(w: World, pid: Pid, slots: seq<Step>, index: nat, slot: nat, value: Value, lbl: Label,
                             r: SlotsRes)
  {
    && |r.values| == |r.labels| == |slots|
    && forall k :: 0 <= k < |slots| ==>
         var one := OneSlot(w, pid, slots[k], index, slot + k, value, lbl);
         one.Some? && one.value.value == r.values[k] && one.value.lbl == r.labels[k]
  }

  ghost predicate SlotFails(w: World, pid: Pid, slots: seq<Step>, index: nat, slot: nat, value: Value, lbl: Label,
                            k: nat)
  {
    k < |slots| && OneSlot(w, pid, slots[k], index, slot + k, value, lbl).None?
  }

  lemma {:induction false} SlotsEach(w: World, pid: Pid, slots: seq<Step>, index: nat, slot: nat, value: Value,
                                     lbl: Label)
    ensures var r := EvalSlots(w, pid, slots, index, slot, value, lbl);
      && (r.Some? ==> SlotsApart(w, pid, slots, index, slot, value, lbl, r.value))
      && (r.None? ==> exists k: nat :: SlotFails(w, pid, slots, index, slot, value, lbl, k))
    decreases slots
  {
    if slots != [] {
      SlotFirst(w, pid, slots, index, slot, value, lbl);
      SlotsEach(w, pid, slots[1..], index, slot + 1, value, lbl);
      var one, rest := OneSlot(w, pid, slots[0], index, slot, value, lbl),
                       EvalSlots(w, pid, slots[1..], index, slot + 1, value, lbl);
      if one.None? {
        assert SlotFails(w, pid, slots, index, slot, value, lbl, 0);
      } else if rest.None? {
        var k: nat :| SlotFails(w, pid, slots[1..], index, slot + 1, value, lbl, k);
        assert slots[1..][k] == slots[k + 1] && slot + 1 + k == slot + (k + 1);
        assert SlotFails(w, pid, slots, index, slot, value, lbl, k + 1);
      } else {
        SlotsCons(w, pid, slots, index, slot, value, lbl, rest.value);
      }
    }
  }

  lemma SlotFirst(w: World, pid: Pid, slots: seq<Step>, index: nat, slot: nat, value: Value, lbl: Label)
    requires slots != []
    ensures var one := OneSlot(w, pid, slots[0], index, slot, value, lbl);
      var all, rest := EvalSlots(w, pid, slots, index, slot, value, lbl),
                       EvalSlots(w, pid, slots[1..], index, slot + 1, value, lbl);
      if one.None? || rest.None? then all.None?
      else
        && all.Some? && all.value.values == [one.value.value] + rest.value.values
        && all.value.labels == [one.value.lbl] + rest.value.labels
  {
  }

  lemma SlotsCons(w: World, pid: Pid, slots: seq<Step>, index: nat, slot: nat, value: Value, lbl: Label, rest: SlotsRes)
    requires slots != [] && SlotsApart(w, pid, slots[1..], index, slot + 1, value, lbl, rest)
    requires OneSlot(w, pid, slots[0], index, slot, value, lbl).Some?
    ensures var one := OneSlot(w, pid, slots[0], index, slot, value, lbl).value;
      forall ev :: SlotsApart(w, pid, slots, index, slot, value, lbl,
                              SlotsRes([one.value] + rest.values, [one.lbl] + rest.labels, ev))
  {
    var one := OneSlot(w, pid, slots[0], index, slot, value, lbl).value;
    var values, labels := [one.value] + rest.values, [one.lbl] + rest.labels;
    forall k | 0 <= k < |slots|
      ensures OneSlot(w, pid, slots[k], index, slot + k, value, lbl) == Some(Res(values[k], labels[k],
                OneSlot(w, pid, slots[k], index, slot + k, value, lbl).value.events))
    {
      if k > 0 { assert slots[1..][k - 1] == slots[k] && slot + 1 + (k - 1) == slot + k; }
    }
  }

  // The label slot k brings.
  function LabelOf(w: World, pid: Pid, slots: seq<Step>, index: nat, value: Value, lbl: Label, k: nat): Label
    requires k < |slots|
  {
    var one := OneSlot(w, pid, slots[k], index, k, value, lbl);
    if one.Some? then one.value.lbl else None
  }

  // Slots i and j bring different new labels.
  ghost predicate LabelsDiffer(w: World, pid: Pid, slots: seq<Step>, index: nat, value: Value, lbl: Label, i: nat,
                               j: nat)
    requires i < |slots| && j < |slots|
  {
    var a, b := LabelOf(w, pid, slots, index, value, lbl, i), LabelOf(w, pid, slots, index, value, lbl, j);
    a.Some? && b.Some? && a != lbl && b != lbl && a != b
  }

  lemma ParallelIs(w: World, pid: Pid, slots: seq<Step>, index: nat, value: Value, lbl: Label)
    ensures EvalStep(w, pid, ParallelStep(slots), index, value, lbl)
         == SlotsGoal(lbl, Agreed(lbl), EvalSlots(w, pid, slots, index, 0, value, lbl))
  {
  }

  /**
    A parallel step gives every slot the same value and label, and fails exactly when a slot
    does or two of them bring different new labels.
  */
  lemma SlotsFail(w: World, pid: Pid, slots: seq<Step>, index: nat, value: Value, lbl: Label)
    ensures EvalStep(w, pid, ParallelStep(slots), index, value, lbl).None? <==>
      || (exists k :: 0 <= k < |slots| && OneSlot(w, pid, slots[k], index, k, value, lbl).None?)
      || (exists i, j :: 0 <= i < |slots| && 0 <= j < |slots|
                         && LabelsDiffer(w, pid, slots, index, value, lbl, i, j))
  {
    ParallelIs(w, pid, slots, index, value, lbl);
    SlotsEach(w, pid, slots, index, 0, value, lbl);
    var all := EvalSlots(w, pid, slots, index, 0, value, lbl);
    if all.Some? {
      LabelsClash(w, pid, slots, index, value, lbl, all.value);
    } else {
      var k: nat :| SlotFails(w, pid, slots, index, 0, value, lbl, k);
      assert OneSlot(w, pid, slots[k], index, k, value, lbl).None?;
    }
  }

  lemma LabelsClash(w: World, pid: Pid, slots: seq<Step>, index: nat, value: Value, lbl: Label, r: SlotsRes)
    requires SlotsApart(w, pid, slots, index, 0, value, lbl, r)
    ensures forall k :: 0 <= k < |slots| ==> OneSlot(w, pid, slots[k], index, k, value, lbl).Some?
    ensures JoinAll(lbl, Agreed(lbl), r.labels) == Conflict <==>
      exists i, j :: 0 <= i < |slots| && 0 <= j < |slots| && LabelsDiffer(w, pid, slots, index, value, lbl, i, j)
  {
    SlotLabels(w, pid, slots, index, value, lbl, r);
    JoinMeaning(lbl, r.labels);
    if i, j :| 0 <= i < |slots| && 0 <= j < |slots| && IsNew(lbl, r.labels[i]) && IsNew(lbl, r.labels[j])
               && r.labels[i] != r.labels[j] {
      assert LabelsDiffer(w, pid, slots, index, value, lbl, i, j);
    }
  }

  /**
    Otherwise it shows the slots' outputs at their own places. The new label a slot brings is
    the label after it, or the incoming one when none brings one.
  */
  lemma SlotsShow(w: World, pid: Pid, slots: seq<Step>, index: nat, value: Value, lbl: Label)
    requires EvalStep(w, pid, ParallelStep(slots), index, value, lbl).Some?
    ensures var r := EvalStep(w, pid, ParallelStep(slots), index, value, lbl).value;
      && r.value.Items? && |r.value.items| == |slots|
      && (forall k :: 0 <= k < |slots| ==>
            && OneSlot(w, pid, slots[k], index, k, value, lbl).Some?
            && OneSlot(w, pid, slots[k], index, k, value, lbl).value.value == r.value.items[k])
      && (forall k :: 0 <= k < |slots| && IsNew(lbl, LabelOf(w, pid, slots, index, value, lbl, k)) ==>
            r.lbl == LabelOf(w, pid, slots, index, value, lbl, k))
      && ((forall k :: 0 <= k < |slots| ==> !IsNew(lbl, LabelOf(w, pid, slots, index, value, lbl, k))) ==>
            r.lbl == lbl)
  {
    ParallelIs(w, pid, slots, index, value, lbl);
    SlotsEach(w, pid, slots, index, 0, value, lbl);
    var all := EvalSlots(w, pid, slots, index, 0, value, lbl).value;
    SlotLabels(w, pid, slots, index, value, lbl, all);
    JoinMeaning(lbl, all.labels);
  }

  lemma SlotLabels(w: World, pid: Pid, slots: seq<Step>, index: nat, value: Value, lbl: Label, r: SlotsRes)
    requires SlotsApart(w, pid, slots, index, 0, value, lbl, r)
    ensures forall k :: 0 <= k < |slots| ==>
      && OneSlot(w, pid, slots[k], index, k, value, lbl).Some?
      && OneSlot(w, pid, slots[k], index, k, value, lbl).value.value == r.values[k]
      && LabelOf(w, pid, slots, index, value, lbl, k) == r.labels[k]
  {
    forall k | 0 <= k < |slots|
      ensures OneSlot(w, pid, slots[k], index, k, value, lbl).Some?
      ensures OneSlot(w, pid, slots[k], index, k, value, lbl).value.value == r.values[k]
      ensures LabelOf(w, pid, slots, index, value, lbl, k) == r.labels[k]
    {
      assert OneSlot(w, pid, slots[k], index, 0 + k, value, lbl).Some?;
    }
  }
}
