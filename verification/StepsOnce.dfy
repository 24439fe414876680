/**
  Every step on the taken path opens once and closes once, over the first run and all
  resumes together, and no two steps of an invocation share a run id.
*/
module StepsOnce {
  import opened Wrappers
  import opened PipelineModel
  import opened PipelineMachine
  import opened RunRefinement
  import opened PipelineMeaning

  // Started and Ended crumbs match one to one, and a step has one output.
  ghost predicate OncePerStep(ev: multiset<Event>)
  {
    && (forall p, i :: Started(p, i) in ev ==> ev[Started(p, i)] == 1 && exists o :: Ended(p, i, o) in ev)
    && (forall p, i, o :: Ended(p, i, o) in ev ==> ev[Ended(p, i, o)] == 1 && Started(p, i) in ev)
    && (forall p, i, o, o' :: Ended(p, i, o) in ev && Ended(p, i, o') in ev ==> o == o')
  }

  lemma OnceSum(a: multiset<Event>, b: multiset<Event>)
    requires OncePerStep(a) && OncePerStep(b)
    requires forall p, i :: !(Started(p, i) in a && Started(p, i) in b)
    ensures OncePerStep(a + b)
  {
    forall p, i | Started(p, i) in a + b
      ensures (a + b)[Started(p, i)] == 1 && exists o :: Ended(p, i, o) in a + b
    {
      if Started(p, i) in a {
        var o :| Ended(p, i, o) in a;
        assert Ended(p, i, o) in a + b;
      } else {
        var o :| Ended(p, i, o) in b;
        assert Ended(p, i, o) in a + b;
      }
    }
  }

  // ---------------------------------------------------- where step ids live

  function SegIndex(s: Segment): nat { s.index }

  ghost predicate Below(p: Pid, pid: Pid)
  {
    |p.path| > |pid.path| && p.path[..|pid.path|] == pid.path
  }

  // The steps lo <= .. < hi of pipeline pid and everything inside them.
  ghost predicate Within(p: Pid, i: nat, pid: Pid, lo: nat, hi: nat)
  {
    if p.path == pid.path then lo <= i < hi else Below(p, pid) && lo <= SegIndex(p.path[|pid.path|]) < hi
  }

  // Strictly inside step (pid, index).
  ghost predicate InsideStep(p: Pid, pid: Pid, index: nat)
  {
    Below(p, pid) && SegIndex(p.path[|pid.path|]) == index
  }

  ghost predicate AllWithin(ev: multiset<Event>, pid: Pid, lo: nat, hi: nat)
  {
    forall p, i :: Started(p, i) in ev ==> Within(p, i, pid, lo, hi)
  }

  ghost predicate AllInside(ev: multiset<Event>, pid: Pid, index: nat)
  {
    forall p, i :: Started(p, i) in ev ==> InsideStep(p, pid, index)
  }

  // Inside one of the slots from `slot` on.
  ghost predicate AllInSlots(ev: multiset<Event>, pid: Pid, index: nat, slot: nat)
  {
    forall p, i :: Started(p, i) in ev ==>
      Below(p, pid) && p.path[|pid.path|].SlotOf? && p.path[|pid.path|].index == index
        && p.path[|pid.path|].slot >= slot
  }

  lemma ChildInside(p: Pid, i: nat, pid: Pid, s: Segment, lo: nat, hi: nat)
    requires Within(p, i, pid.(path := pid.path + [s]), lo, hi)
    ensures Below(p, pid) && p.path[|pid.path|] == s
  {
    var sub := pid.path + [s];
    assert p.path[..|sub|] == sub;
    assert p.path[..|pid.path|] == sub[..|pid.path|] == pid.path;
    assert p.path[|pid.path|] == p.path[..|sub|][|pid.path|] == s;
  }

  // A step's own pair of crumbs beside what happens inside it.
  lemma OwnPair(pid: Pid, index: nat, output: Value, inner: multiset<Event>)
    requires OncePerStep(inner) && AllInside(inner, pid, index)
    ensures OncePerStep(StepEvents(pid, index, output) + inner)
    ensures AllWithin(StepEvents(pid, index, output) + inner, pid, index, index + 1)
  {
    var own := StepEvents(pid, index, output);
    assert OncePerStep(own) by { assert Ended(pid, index, output) in own; }
    OnceSum(own, inner);
  }

  lemma StepThenRest(pid: Pid, index: nat, output: Value, inner: multiset<Event>, rest: multiset<Event>, hi: nat)
    requires OncePerStep(inner) && AllInside(inner, pid, index)
    requires OnceWithin(rest, pid, index + 1, hi) && index < hi
    ensures OnceWithin(StepEvents(pid, index, output) + inner + rest, pid, index, hi)
  {
    OwnPair(pid, index, output, inner);
    var first := StepEvents(pid, index, output) + inner;
    forall p, i ensures !(Started(p, i) in first && Started(p, i) in rest)
    {
      if Started(p, i) in first { assert Within(p, i, pid, index, index + 1); }
    }
    OnceSum(first, rest);
  }

  lemma ArmThenNothing(pid: Pid, index: nat, k: int, inner: multiset<Event>, n: nat)
    requires OnceWithin(inner, ArmPid(pid, index), 0, n)
    ensures OncePerStep(multiset{Took(pid, index, k)} + inner)
    ensures AllInside(multiset{Took(pid, index, k)} + inner, pid, index)
  {
    OnceSum(multiset{Took(pid, index, k)}, inner);
    forall p, i | Started(p, i) in inner ensures InsideStep(p, pid, index)
    {
      ChildInside(p, i, pid, ArmOf(index), 0, n);
    }
  }

  // -------------------------------------------------- the evaluator's crumbs

  ghost predicate OnceWithin(ev: multiset<Event>, pid: Pid, lo: nat, hi: nat)
  {
    OncePerStep(ev) && AllWithin(ev, pid, lo, hi)
  }

  lemma {:induction false} EvalOnce(w: World, pid: Pid, steps: seq<Step>, base: nat, value: Value, lbl: Label,
                                    hi: nat)
    requires hi == base + |steps|
    ensures var r := Eval(w, pid, steps, base, value, lbl);
      r.Some? ==> OnceWithin(r.value.events, pid, base, hi)
    decreases steps, 1
  {
    if Eval(w, pid, steps, base, value, lbl).Some? {
      var ev := Eval(w, pid, steps, base, value, lbl).value.events;
      if steps == [] {
        assert ev == multiset{};
      } else {
        var h := EvalStep(w, pid, steps[0], base, value, lbl).value;
        var rest := Eval(w, pid, steps[1..], base + 1, Next(steps[0], value, h.value), h.lbl).value;
        EvalStepOnce(w, pid, steps[0], base, value, lbl);
        EvalOnce(w, pid, steps[1..], base + 1, Next(steps[0], value, h.value), h.lbl, hi);
        StepThenRest(pid, base, h.value, h.events, rest.events, hi);
        assert ev == StepEvents(pid, base, h.value) + h.events + rest.events;
      }
    }
  }

  lemma {:induction false} EvalStepOnce(w: World, pid: Pid, step: Step, index: nat, value: Value, lbl: Label)
    ensures var r := EvalStep(w, pid, step, index, value, lbl);
      r.Some? ==> OncePerStep(r.value.events) && AllInside(r.value.events, pid, index)
    decreases step, 0, 1
  {
    match step
    case AgentStep(_, _) =>
    case MapStep(agentId) => ItemsHaveNoSteps(w, agentId, AsItems(value));
    case DecisionStep(_) =>
    case BranchStep(_, _, _) => EvalBranchOnce(w, pid, step, index, value, lbl);
    case ParallelStep(slots) =>
      EvalSlotsOnce(w, pid, slots, index, 0, value, lbl);
      ParallelEvents(w, pid, step, index, value, lbl);
  }

  // The crumbs inside a parallel step are those of its slots.
  lemma ParallelEvents(w: World, pid: Pid, step: Step, index: nat, value: Value, lbl: Label)
    requires step.ParallelStep?
    ensures var r, s := EvalStep(w, pid, step, index, value, lbl), EvalSlots(w, pid, step.slots, index, 0, value, lbl);
      r.Some? ==> s.Some? && r.value.events == s.value.events
  {
  }

  lemma {:induction false} EvalBranchOnce(w: World, pid: Pid, step: Step, index: nat, value: Value, lbl: Label)
    requires step.BranchStep?
    ensures var r := EvalStep(w, pid, step, index, value, lbl);
      r.Some? ==> OncePerStep(r.value.events) && AllInside(r.value.events, pid, index)
    decreases step, 0, 0
  {
    if step.otherwise.Default? && SelectArm(w, step, value, lbl).Chosen? {
      var k := SelectArm(w, step, value, lbl).caseIndex;
      var taken := if k >= 0 then step.cases[k].arm else step.otherwise.arm;
      EvalOnce(w, ArmPid(pid, index), taken, 0, value, lbl, |taken|);
      var r := Eval(w, ArmPid(pid, index), taken, 0, value, lbl);
      if r.Some? { ArmThenNothing(pid, index, k, r.value.events, |taken|); }
    }
  }

  lemma {:induction false} ItemsHaveNoSteps(w: World, agentId: string, items: seq<Value>)
    ensures var r := EvalItems(w, agentId, items);
      r.Some? ==> forall e :: e in r.value.events ==> e.Ran?
    decreases items
  {
    if items != [] { ItemsHaveNoSteps(w, agentId, items[1..]); }
  }

  lemma {:induction false} EvalSlotsOnce(w: World, pid: Pid, slots: seq<Step>, index: nat, slot: nat, value: Value,
                                         lbl: Label)
    ensures var r := EvalSlots(w, pid, slots, index, slot, value, lbl);
      r.Some? ==> OncePerStep(r.value.events) && AllInSlots(r.value.events, pid, index, slot)
    decreases slots, 0
  {
    if slots != [] {
      var sub := SlotPid(pid, index, slot);
      var h := EvalStep(w, sub, slots[0], 0, value, lbl);
      var rest := EvalSlots(w, pid, slots[1..], index, slot + 1, value, lbl);
      EvalStepOnce(w, sub, slots[0], 0, value, lbl);
      EvalSlotsOnce(w, pid, slots[1..], index, slot + 1, value, lbl);
      if h.Some? && rest.Some? {
        SlotThenRest(pid, index, slot, h.value.value, h.value.events, rest.value.events);
      }
    }
  }

  // A slot's own crumbs beside those of the slots after it.
  lemma SlotThenRest(pid: Pid, index: nat, slot: nat, output: Value, inner: multiset<Event>, rest: multiset<Event>)
    requires OncePerStep(inner) && AllInside(inner, SlotPid(pid, index, slot), 0)
    requires OncePerStep(rest) && AllInSlots(rest, pid, index, slot + 1)
    ensures var all := StepEvents(SlotPid(pid, index, slot), 0, output) + inner + rest;
      OncePerStep(all) && AllInSlots(all, pid, index, slot)
  {
    var sub := SlotPid(pid, index, slot);
    var own := StepEvents(sub, 0, output) + inner;
    OwnPair(sub, 0, output, inner);
    forall p, i | Started(p, i) in own ensures Below(p, pid) && p.path[|pid.path|] == SlotOf(index, slot)
    {
      ChildInside(p, i, pid, SlotOf(index, slot), 0, 1);
    }
    OnceSum(own, rest);
  }

  // Careful resumes and the documented limit are equally good.
  lemma EitherSameMeaning(w: World, pid: Pid, steps: seq<Step>, value: Value, lbl: Label, st0: State, ids: seq<nat>)
    requires Fresh(RowsOf(st0))
    requires var (st1, r1) := Run(w, pid, steps, 0, value, lbl, None, st0);
      r1.Suspended? ==> Careful(w, ids, st1, st0.store.Keys) || PausesAlone(w, ids, st1, st0.store.Keys)
    ensures var (st1, r1) := Run(w, pid, steps, 0, value, lbl, None, st0);
      var (st', r) := if r1.Suspended? then Play(w, ids, st1) else (st1, r1);
      SameMeaning(Eval(w, pid, steps, 0, value, lbl), st0, st', r)
  {
    var (st1, r1) := Run(w, pid, steps, 0, value, lbl, None, st0);
    if r1.Suspended? && !Careful(w, ids, st1, st0.store.Keys) {
      RepausesAloneSameMeaning(w, pid, steps, value, lbl, st0, ids);
    } else {
      PausesSameMeaning(w, pid, steps, value, lbl, st0, ids);
    }
  }

  /**
    The run-once theorem: a run that ends, however often it was paused, has opened and
    closed each of its steps exactly once.
  */
  lemma FinishedStepsOnce(w: World, pid: Pid, steps: seq<Step>, value: Value, lbl: Label, st0: State, ids: seq<nat>)
    returns (ev: multiset<Event>)
    requires Fresh(RowsOf(st0))
    requires var (st1, r1) := Run(w, pid, steps, 0, value, lbl, None, st0);
      r1.Suspended? ==> Careful(w, ids, st1, st0.store.Keys) || PausesAlone(w, ids, st1, st0.store.Keys)
    ensures var (st1, r1) := Run(w, pid, steps, 0, value, lbl, None, st0);
      var (st', r) := if r1.Suspended? then Play(w, ids, st1) else (st1, r1);
      r.Done? ==> st'.emitted == st0.emitted + ev && OncePerStep(ev)
                  && (forall i :: 0 <= i < |steps| ==> Started(pid, i) in ev)
  {
    EitherSameMeaning(w, pid, steps, value, lbl, st0, ids);
    EvalOnce(w, pid, steps, 0, value, lbl, |steps|);
    var goal := Eval(w, pid, steps, 0, value, lbl);
    ev := if goal.Some? then goal.value.events else multiset{};
    if goal.Some? { AllStarted(w, pid, steps, 0, value, lbl); }
  }

  lemma {:induction false} AllStarted(w: World, pid: Pid, steps: seq<Step>, base: nat, value: Value, lbl: Label)
    requires Eval(w, pid, steps, base, value, lbl).Some?
    ensures forall i :: base <= i < base + |steps| ==>
      Started(pid, i) in Eval(w, pid, steps, base, value, lbl).value.events
    decreases steps
  {
    if steps != [] {
      var h := EvalStep(w, pid, steps[0], base, value, lbl).value;
      AllStarted(w, pid, steps[1..], base + 1, Next(steps[0], value, h.value), h.lbl);
    }
  }

  // And one that still waits has opened none of them twice.
  lemma WaitingStepsOnce(w: World, pid: Pid, steps: seq<Step>, value: Value, lbl: Label, st0: State, ids: seq<nat>)
    requires Fresh(RowsOf(st0)) && Eval(w, pid, steps, 0, value, lbl).Some?
    requires forall p, i :: Started(p, i) !in st0.emitted && forall o :: Ended(p, i, o) !in st0.emitted
    requires var (st1, r1) := Run(w, pid, steps, 0, value, lbl, None, st0);
      r1.Suspended? && (Careful(w, ids, st1, st0.store.Keys) || PausesAlone(w, ids, st1, st0.store.Keys))
    ensures var st' := Play(w, ids, Run(w, pid, steps, 0, value, lbl, None, st0).0).0;
      forall p, i :: st'.emitted[Started(p, i)] <= 1 && forall o :: st'.emitted[Ended(p, i, o)] <= 1
  {
    EitherSameMeaning(w, pid, steps, value, lbl, st0, ids);
    EvalOnce(w, pid, steps, 0, value, lbl, |steps|);
    var goal := Eval(w, pid, steps, 0, value, lbl).value.events;
    var st' := Play(w, ids, Run(w, pid, steps, 0, value, lbl, None, st0).0).0;
    assert st'.emitted <= st0.emitted + goal;
    forall p, i ensures st'.emitted[Started(p, i)] <= 1 && forall o :: st'.emitted[Ended(p, i, o)] <= 1
    {
      assert (st0.emitted + goal)[Started(p, i)] <= 1;
      forall o ensures st'.emitted[Ended(p, i, o)] <= 1 { assert (st0.emitted + goal)[Ended(p, i, o)] <= 1; }
    }
  }
}
