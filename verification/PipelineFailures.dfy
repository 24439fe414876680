/**
  How a pipeline fails: which error each kind of step ends with, what a failing slot does to its
  siblings, and what a resume of a row in the wrong state reports.
*/
module PipelineFailures {
  import opened Wrappers
  import opened PipelineModel
  import opened PipelineMachine
  import opened RunRefinement
  import opened ParallelMerge

  // ------------------------------------------------------------------ one step

  /**
    A step fails with its own error, and a step that fails has closed nothing: an agent that
    throws, a decision that cannot be made, a branch without a default, or one without a path
    where no decision came before.
  */
  lemma StepFailsAs(w: World, step: Step, value: Value, parent: Frame, st: State)
    ensures step.AgentStep? && w.pauses(st.runs) == 0 && w.run(Call(step.agentId, step.skill, value)) == None ==>
      RunStep(w, step, value, parent, st)
      == (st.Emit(Ran(Call(step.agentId, step.skill, value))).(runs := st.runs + 1), Failed(AgentThrew))
    ensures step.DecisionStep? && w.decide(step.question, value) == None ==>
      RunStep(w, step, value, parent, st) == (st, Failed(DecisionThrew))
    ensures step.BranchStep? && step.otherwise.NoDefault? ==>
      RunStep(w, step, value, parent, st) == (st, Failed(BranchDefault))
    ensures step.BranchStep? && step.otherwise.Default? && step.on == None && parent.lbl == None ==>
      RunStep(w, step, value, parent, st) == (st, Failed(BranchNoLabel))
  {
  }

  // The steps before the first that fails are closed, and none after it begins.
  lemma FirstFailureStops(w: World, pid: Pid, steps: seq<Step>, base: nat, value: Value, lbl: Label,
                          outer: Option<Frame>, st: State)
    requires steps != []
    ensures var (st1, r) := Turn(w, steps[0], value, Frame(pid, base, steps[1..], lbl, Plain, outer), st);
      r.Failed? ==> Run(w, pid, steps, base, value, lbl, outer, st) == (st1, r)
  {
  }

  // -------------------------------------------------------------- parallel steps

  // What each slot comes to when they are run in turn.
  function SlotOutcomes(w: World, slots: seq<Step>, slot: nat, value: Value, parent: Frame, st: State)
    : (rs: seq<Outcome>)
    ensures |rs| == |slots|
    decreases slots
  {
    if slots == [] then []
    else
      var (st1, r) := RunSlot(w, slots[0], slot, value, parent, st);
      [r] + SlotOutcomes(w, slots[1..], slot + 1, value, parent, st1)
  }

  // The errors of the slots that failed, in slot order.
  function Errors(rs: seq<Outcome>): seq<Error>
  {
    if rs == [] then [] else (if rs[0].Failed? then [rs[0].error] else []) + Errors(rs[1..])
  }

  // The labels of the slots that ended.
  function Labels(rs: seq<Outcome>): seq<Label>
  {
    if rs == [] then [] else (if rs[0].Done? then [rs[0].lbl] else []) + Labels(rs[1..])
  }

  // Two slots that ended brought different new labels.
  ghost predicate Clash(incoming: Label, rs: seq<Outcome>)
  {
    exists i, j :: 0 <= i < |Labels(rs)| && 0 <= j < |Labels(rs)| && IsNew(incoming, Labels(rs)[i])
      && IsNew(incoming, Labels(rs)[j]) && Labels(rs)[i] != Labels(rs)[j]
  }

  // The errors collected: those of the slots, and one for a conflict where it arose.
  ghost predicate Collects(incoming: Label, acc: Acc, rs: seq<Outcome>, acc': Acc)
  {
    && acc'.joined == JoinAll(incoming, acc.joined, Labels(rs))
    && acc'.conflicted == acc'.joined.Conflict?
    && multiset(acc'.errors) == multiset(acc.errors) + multiset(Errors(rs))
       + (if acc'.joined.Conflict? && !acc.joined.Conflict? then multiset{DecisionConflict} else multiset{})
  }

  lemma {:induction false} SlotsCollect(w: World, slots: seq<Step>, slot: nat, value: Value, parent: Frame, st: State,
                                        acc: Acc)
    requires acc.conflicted == acc.joined.Conflict?
    ensures Collects(parent.lbl, acc, SlotOutcomes(w, slots, slot, value, parent, st),
                     RunSlots(w, slots, slot, value, parent, st, acc).1)
    decreases slots
  {
    if slots == [] {
      NothingCollected(parent.lbl, acc);
    } else {
      var (st1, r) := RunSlot(w, slots[0], slot, value, parent, st);
      CollectsOne(parent.lbl, acc, r);
      SlotsCollect(w, slots[1..], slot + 1, value, parent, st1, acc.After(parent.lbl, r));
      CollectsMore(w, slots, slot, value, parent, st, acc, st1, r);
    }
  }

  lemma NothingCollected(incoming: Label, acc: Acc)
    requires acc.conflicted == acc.joined.Conflict?
    ensures Collects(incoming, acc, [], acc)
  {
  }

  lemma CollectsMore(w: World, slots: seq<Step>, slot: nat, value: Value, parent: Frame, st: State, acc: Acc,
                     st1: State, r: Outcome)
    requires slots != [] && (st1, r) == RunSlot(w, slots[0], slot, value, parent, st)
    requires acc.conflicted == acc.joined.Conflict?
    requires Collects(parent.lbl, acc.After(parent.lbl, r), SlotOutcomes(w, slots[1..], slot + 1, value, parent, st1),
                      RunSlots(w, slots[1..], slot + 1, value, parent, st1, acc.After(parent.lbl, r)).1)
    ensures Collects(parent.lbl, acc, SlotOutcomes(w, slots, slot, value, parent, st),
                     RunSlots(w, slots, slot, value, parent, st, acc).1)
  {
    var rest := SlotOutcomes(w, slots[1..], slot + 1, value, parent, st1);
    RunSlotsUnfold(w, slots, slot, value, parent, st, acc);
    CollectsCons(parent.lbl, acc, r, rest, RunSlots(w, slots, slot, value, parent, st, acc).1);
  }

  lemma CollectsCons(incoming: Label, acc: Acc, r: Outcome, rest: seq<Outcome>, acc': Acc)
    requires acc.conflicted == acc.joined.Conflict? && Collects(incoming, acc.After(incoming, r), rest, acc')
    ensures Collects(incoming, acc, [r] + rest, acc')
  {
    var acc1 := acc.After(incoming, r);
    ConsOutcome(r, rest);
    JoinsOne(incoming, acc, r, Labels(rest));
    if acc1.joined.Conflict? { ConflictKept(incoming, Labels(rest)); }
    CollectsOne(incoming, acc, r);
  }

  lemma ConsOutcome(r: Outcome, rest: seq<Outcome>)
    ensures Labels([r] + rest) == (if r.Done? then [r.lbl] else []) + Labels(rest)
    ensures Errors([r] + rest) == (if r.Failed? then [r.error] else []) + Errors(rest)
  {
    assert ([r] + rest)[1..] == rest;
  }

  lemma JoinsOne(incoming: Label, acc: Acc, r: Outcome, labels: seq<Label>)
    ensures JoinAll(incoming, acc.joined, (if r.Done? then [r.lbl] else []) + labels)
         == JoinAll(incoming, acc.After(incoming, r).joined, labels)
  {
    if r.Done? {
      assert ([r.lbl] + labels)[1..] == labels;
    } else {
      assert [] + labels == labels;
    }
  }

  lemma CollectsOne(incoming: Label, acc: Acc, r: Outcome)
    requires acc.conflicted == acc.joined.Conflict?
    ensures var acc1 := acc.After(incoming, r);
      && acc1.conflicted == acc1.joined.Conflict? && (acc.joined.Conflict? ==> acc1.joined.Conflict?)
      && multiset(acc1.errors) == multiset(acc.errors) + multiset(if r.Failed? then [r.error] else [])
         + (if acc1.joined.Conflict? && !acc.joined.Conflict? then multiset{DecisionConflict} else multiset{})
  {
  }

  lemma {:induction false} ConflictKept(incoming: Label, labels: seq<Label>)
    ensures JoinAll(incoming, Conflict, labels) == Conflict
    decreases labels
  {
    if labels != [] { ConflictKept(incoming, labels[1..]); }
  }

  /**
    All slots of a parallel step are run, whatever becomes of some. The step fails exactly when a
    slot does or two that ended brought different new labels: with the one error there is, or with
    the number of them.
  */
  lemma ParallelFailsAs(w: World, step: Step, value: Value, parent: Frame, st: State)
    requires step.ParallelStep?
    ensures var rs, r := SlotOutcomes(w, step.slots, 0, value, parent, st), RunStep(w, step, value, parent, st).1;
      var n := |Errors(rs)| + if Clash(parent.lbl, rs) then 1 else 0;
      && (r.Failed? <==> n > 0)
      && (n == 1 ==> r == Failed(if Clash(parent.lbl, rs) then DecisionConflict else Errors(rs)[0]))
      && (n > 1 ==> r == Failed(Several(n)))
  {
    ErrorsCounted(w, step.slots, value, parent, st);
    FailsWith(w, step, value, parent, st);
  }

  lemma ErrorsCounted(w: World, slots: seq<Step>, value: Value, parent: Frame, st: State)
    ensures var rs := SlotOutcomes(w, slots, 0, value, parent, st);
      var errors := RunSlots(w, slots, 0, value, parent, st, Acc([], [], Agreed(parent.lbl), [], false)).1.errors;
      && |errors| == |Errors(rs)| + (if Clash(parent.lbl, rs) then 1 else 0)
      && (|errors| == 1 ==> errors[0] == if Clash(parent.lbl, rs) then DecisionConflict else Errors(rs)[0])
  {
    var rs, acc0 := SlotOutcomes(w, slots, 0, value, parent, st), Acc([], [], Agreed(parent.lbl), [], false);
    var acc := RunSlots(w, slots, 0, value, parent, st, acc0).1;
    SlotsCollect(w, slots, 0, value, parent, st, acc0);
    ClashIsConflict(parent.lbl, rs);
    CountsErrors(acc.errors, Errors(rs), acc.joined.Conflict?);
  }

  lemma ClashIsConflict(incoming: Label, rs: seq<Outcome>)
    ensures Clash(incoming, rs) <==> JoinAll(incoming, Agreed(incoming), Labels(rs)) == Conflict
  {
    JoinMeaning(incoming, Labels(rs));
  }

  lemma CountsErrors(all: seq<Error>, errors: seq<Error>, clash: bool)
    requires multiset(all) == multiset(errors) + (if clash then multiset{DecisionConflict} else multiset{})
    ensures |all| == |errors| + if clash then 1 else 0
    ensures |all| == 1 ==> all[0] == if clash then DecisionConflict else errors[0]
  {
    assert |all| == |multiset(all)| && |errors| == |multiset(errors)|;
    if |all| == 1 {
      assert all[0] in multiset(all);
      if !clash { assert errors == [errors[0]] && all == [all[0]]; }
    }
  }

  lemma FailsWith(w: World, step: Step, value: Value, parent: Frame, st: State)
    requires step.ParallelStep?
    ensures var acc := RunSlots(w, step.slots, 0, value, parent, st, Acc([], [], Agreed(parent.lbl), [], false)).1;
      var r := RunStep(w, step, value, parent, st).1;
      && (acc.errors == [] ==> !r.Failed?)
      && (acc.errors != [] ==> r == Failed(if |acc.errors| == 1 then acc.errors[0] else Several(|acc.errors|)))
  {
  }

  // ------------------------------------------------------------------ resuming

  // An output is written at its slot's place and nowhere else; places before it that the list
  // does not have yet hold null.
  lemma WrittenAtItsPlace(s: seq<Value>, i: nat, v: Value)
    ensures var r := SetAt(s, i, v);
      && |r| == (if i < |s| then |s| else i + 1)
      && forall k :: 0 <= k < |r| ==> r[k] == if k == i then v else if k < |s| then s[k] else Null
  {
  }

  // A row that is gone, a slot whose sibling data was never written, and labels that clash with
  // the siblings' are reported, and the store is as the resume found it.
  lemma ResumeFailsAs(w: World, id: nat, f: Frame, output: Value, handed: Label, st: State)
    ensures id !in st.store ==> Resume(w, id, st) == (st, Failed(CheckpointNotFound))
    ensures f.progress.InSlot? && handed.Some? && handed != f.progress.incoming && f.lbl.Some?
            && f.lbl != f.progress.incoming && f.lbl != handed ==>
      Continue(w, Some(f), output, handed, st) == (st, Failed(DecisionConflict))
    ensures f.progress.InSlot? && f.progress.pending == [] && (handed == None || handed == f.lbl) ==>
      Continue(w, Some(f), output, handed, st) == (st, Failed(StateLost))
  {
  }
}
