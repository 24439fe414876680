/**
  The pipeline in the source's own form: loops that update `current` and the latest
  label, a store written in place, and recursion into arms, slots and outer frames.
  Every method is proved equal to its function in PipelineMachine, so the theorems
  about those functions hold of it.
*/
module PipelineRunner {
  import opened Wrappers
  import opened PipelineModel
  import opened PipelineMachine

  lemma RunTurns(w: World, pid: Pid, steps: seq<Step>, i: nat, base: nat, value: Value, lbl: Label,
                 outer: Option<Frame>, st: State)
    requires i < |steps|
    ensures var (st1, r) := Turn(w, steps[i], value, Frame(pid, base + i, steps[i + 1..], lbl, Plain, outer), st);
      Run(w, pid, steps[i..], base + i, value, lbl, outer, st) ==
      if r.Done? then Run(w, pid, steps[i + 1..], base + (i + 1), Next(steps[i], value, r.value), r.lbl, outer, st1)
      else (st1, r)
  {
    assert steps[i..][0] == steps[i] && steps[i..][1..] == steps[i + 1..];
  }

  // A slot's pipeline is one turn.
  lemma SlotTurn(w: World, slots: seq<Step>, slot: nat, value: Value, parent: Frame, st: State, acc: Acc)
    requires slot < |slots|
    ensures var (st1, r) := Turn(w, slots[slot], value, SlotStepFrame(parent, slot), st);
      RunSlots(w, slots[slot..], slot, value, parent, st, acc)
      == RunSlots(w, slots[slot + 1..], slot + 1, value, parent, st1,
                  acc.After(parent.lbl, r))
  {
    assert slots[slot..][0] == slots[slot] && slots[slot..][1..] == slots[slot + 1..];
  }

  // A chain can be rewritten exactly when the walk finds the frame and it takes the update.
  lemma {:induction false} AmendFound(f: Frame, pid: Pid, index: nat, u: Update)
    ensures Amend(f, pid, index, u).Some?
        <==> FindFrame(f, pid, index).Some? && Apply(FrameFound(f, pid, index), u).Some?
    decreases f
  {
    if !IsSlotFrame(f, pid, index) && f.outer.Some? { AmendFound(f.outer.value, pid, index, u); }
  }

  class Runner {
    const w: World
    var store: map<nat, Checkpoint>
    var next: nat
    var runs: nat
    var emitted: multiset<Event>

    constructor (w: World)
      ensures this.w == w && Now() == State(map[], 0, 0, multiset{})
    {
      this.w := w;
      store, next, runs, emitted := map[], 0, 0, multiset{};
    }

    function Now(): State
      reads this
    {
      State(store, next, runs, emitted)
    }

    method Emit(e: Event)
      modifies this`emitted
      ensures Now() == old(Now()).Emit(e)
    {
      emitted := emitted + multiset{e};
    }

    // A resumed or fresh agent run: pauses once more, throws, or ends.
    method SettleRun(call: Call, pauses: nat, parent: Frame) returns (r: Outcome)
      modifies this`store, this`next
      ensures (Now(), r) == Settle(w, call, pauses, parent, old(Now()))
    {
      if pauses > 0 {
        var id := next;
        store := store[id := Checkpoint(call, pauses - 1, parent)];
        next := next + 1;
        return Suspended([id]);
      }
      match w.run(call)
      case None => r := Failed(AgentThrew);
      case Some(v) => r := Done(v, None);
    }

    method RunAgentCall(call: Call, parent: Frame) returns (r: Outcome)
      modifies this
      ensures (Now(), r) == RunAgent(w, call, parent, old(Now()))
    {
      var pauses := w.pauses(runs);
      Emit(Ran(call));
      runs := runs + 1;
      r := SettleRun(call, pauses, parent);
    }

    // The fan-out of a map step, started or picked up again.
    method RunMap(agentId: string, items: seq<Value>, settled: seq<Value>, parent: Frame) returns (r: Outcome)
      modifies this
      ensures (Now(), r) == RunItems(w, agentId, items, settled, parent, old(Now()))
    {
      var results, j := settled, 0;
      while j < |items|
        invariant 0 <= j <= |items|
        invariant RunItems(w, agentId, items, settled, parent, old(Now()))
               == RunItems(w, agentId, items[j..], results, parent, Now())
      {
        assert items[j..][1..] == items[j + 1..];
        var frame := parent.(progress := Mapping(agentId, results, items[j + 1..]));
        r := RunAgentCall(Call(agentId, None, items[j]), frame);
        if !r.Done? { return; }
        results := results + [r.value];
        j := j + 1;
      }
      r := Done(Items(results), None);
    }

    ghost function OnlyTurn(pid: Pid, steps: seq<Step>, base: nat, input: Value, lbl: Label, outer: Option<Frame>,
                            st: State)
      : (State, Outcome)
      requires |steps| == 1
    {
      Turn(w, steps[0], input, Frame(pid, base, [], lbl, Plain, outer), st)
    }

    method RunPipeline(pid: Pid, steps: seq<Step>, base: nat, input: Value, lbl: Label, outer: Option<Frame>)
      returns (r: Outcome, closed: Value)
      modifies this
      ensures (Now(), r) == Run(w, pid, steps, base, input, lbl, outer, old(Now()))
      // A one-step pipeline is one turn; `closed` is the output on its step:end crumb.
      ensures |steps| == 1 ==>
        (Now(), if r.Done? then Done(closed, r.lbl) else r) == OnlyTurn(pid, steps, base, input, lbl, outer, old(Now()))
      decreases steps, 3
    {
      var current, lastDecision := input, lbl;
      closed := Null;
      ghost var only := if |steps| == 1 then Some(OnlyTurn(pid, steps, base, input, lbl, outer, Now())) else None;
      ghost var goal := Run(w, pid, steps, base, input, lbl, outer, Now());
      assert steps[0..] == steps;
      var i := 0;
      while i < |steps|
        invariant 0 <= i <= |steps|
        invariant goal == Run(w, pid, steps[i..], base + i, current, lastDecision, outer, Now())
        invariant i == 0 ==> current == input && lastDecision == lbl && Now() == old(Now())
        invariant only.Some? && i == 1 ==> only.value == (Now(), Done(closed, lastDecision))
      {
        r, current := NextStep(pid, steps, i, base, current, lastDecision, outer);
        if !r.Done? { return; }
        closed, lastDecision := r.value, r.lbl;
        i := i + 1;
      }
      assert steps[i..] == [];
      r := Done(current, lastDecision);
    }

    // Step i and the value that the next one sees.
    method NextStep(pid: Pid, steps: seq<Step>, i: nat, base: nat, current: Value, lbl: Label, outer: Option<Frame>)
      returns (r: Outcome, after: Value)
      requires i < |steps|
      modifies this
      ensures |steps| == 1 ==> (Now(), r) == OnlyTurn(pid, steps, base, current, lbl, outer, old(Now()))
      ensures Run(w, pid, steps[i..], base + i, current, lbl, outer, old(Now()))
           == if r.Done? then Run(w, pid, steps[i + 1..], base + (i + 1), after, r.lbl, outer, Now()) else (Now(), r)
      decreases steps, 2
    {
      RunTurns(w, pid, steps, i, base, current, lbl, outer, Now());
      assert |steps| == 1 ==> i == 0 && steps[i + 1..] == [];
      r := TakeTurn(steps[i], current, Frame(pid, base + i, steps[i + 1..], lbl, Plain, outer));
      after := current;
      if r.Done? && !steps[i].DecisionStep? { after := r.value; }
    }

    method TakeTurn(step: Step, current: Value, parent: Frame) returns (r: Outcome)
      modifies this
      ensures (Now(), r) == Turn(w, step, current, parent, old(Now()))
      decreases step, 2, 1
    {
      Emit(Started(parent.pid, parent.index));
      r := RunOneStep(step, current, parent);
      if r.Done? { Emit(Ended(parent.pid, parent.index, r.value)); }
    }

    method RunOneStep(step: Step, current: Value, parent: Frame) returns (r: Outcome)
      modifies this
      ensures (Now(), r) == RunStep(w, step, current, parent, old(Now()))
      decreases step, 2, 0
    {
      var lbl := parent.lbl;
      match step
      case AgentStep(agentId, skill) =>
        r := RunAgentCall(Call(agentId, skill, current), parent);
        if r.Done? { r := Done(r.value, lbl); }
      case MapStep(agentId) =>
        r := RunMap(agentId, AsItems(current), [], parent);
        if r.Done? { r := Done(r.value, lbl); }
      case DecisionStep(question) =>
        match w.decide(question, current) {
          case None => r := Failed(DecisionThrew);
          case Some(a) => r := Done(Answered(a.lbl, a.answer), Some(a.lbl));
        }
      case BranchStep(on, cases, otherwise) =>
        if otherwise.NoDefault? { return Failed(BranchDefault); }
        var taken := SelectArm(w, step, current, lbl);
        if taken.NoLabel? { return Failed(BranchNoLabel); }
        Emit(Took(parent.pid, parent.index, taken.caseIndex));
        var arm := if taken.caseIndex >= 0 then cases[taken.caseIndex].arm else otherwise.arm;
        if arm == [] { return Done(current, lbl); }
        var closed;
        r, closed := RunPipeline(ArmPid(parent.pid, parent.index), arm, 0, current, lbl, Some(parent));
        if r.Done? { r := Done(r.value, Adopt(lbl, r.lbl)); }
      case ParallelStep(slots) =>
        r := RunParallel(step, current, parent);
    }

    // Slots are run one after another here; the source lets them overlap.
    method RunParallel(step: Step, current: Value, parent: Frame) returns (r: Outcome)
      requires step.ParallelStep?
      modifies this
      ensures (Now(), r) == RunStep(w, step, current, parent, old(Now()))
      decreases step, 1
    {
      var acc, slot := Acc([], [], Agreed(parent.lbl), [], false), 0;
      while slot < |step.slots|
        invariant 0 <= slot <= |step.slots|
        invariant RunSlots(w, step.slots, 0, current, parent, old(Now()), Acc([], [], Agreed(parent.lbl), [], false))
               == RunSlots(w, step.slots[slot..], slot, current, parent, Now(), acc)
      {
        SlotTurn(w, step.slots, slot, current, parent, Now(), acc);
        var out, closed := RunSlotPipeline(step, slot, current, parent);
        acc := acc.After(parent.lbl, if out.Done? then Done(closed, out.lbl) else out);
        slot := slot + 1;
      }
      if acc.errors != [] {
        return Failed(if |acc.errors| == 1 then acc.errors[0] else Several(|acc.errors|));
      }
      if acc.ids != [] {
        var ok := AmendRows(acc.ids, parent.pid, parent.index, FillIn(acc.outputs, acc.ids, acc.joined));
        return Suspended(acc.ids);
      }
      r := Done(Items(acc.outputs), if acc.joined.Agreed? then acc.joined.lbl else parent.lbl);
    }

    method RunSlotPipeline(step: Step, slot: nat, current: Value, parent: Frame) returns (r: Outcome, closed: Value)
      requires step.ParallelStep? && slot < |step.slots|
      modifies this
      ensures (Now(), if r.Done? then Done(closed, r.lbl) else r)
           == Turn(w, step.slots[slot], current, SlotStepFrame(parent, slot), old(Now()))
      decreases step, 0
    {
      var rest := step.slots[slot..];
      var only := rest[..1];
      assert slot == 0 ==> rest == step.slots;
      assert |rest| == 1 ==> only == rest;
      r, closed := RunPipeline(SlotPid(parent.pid, parent.index, slot), only, 0, current, parent.lbl,
                               Some(SlotFrame(parent, slot)));
    }

    // Writes sibling data into the stored rows; stops where the labels clash.
    method AmendRows(ids: seq<nat>, pid: Pid, index: nat, u: Update) returns (ok: bool)
      modifies this`store
      ensures (store, ok) == AmendAll(old(store), ids, pid, index, u)
    {
      var k := 0;
      while k < |ids|
        invariant 0 <= k <= |ids|
        invariant AmendAll(old(store), ids, pid, index, u) == AmendAll(store, ids[k..], pid, index, u)
      {
        assert ids[k..][0] == ids[k] && ids[k..][1..] == ids[k + 1..];
        if ids[k] in store {
          var cp := store[ids[k]];
          var hit := FindParallelFrame(cp.parent, pid, index);
          AmendFound(cp.parent, pid, index, u);
          if hit.Some? {
            if Apply(hit.value, u).None? { return false; }
            // The frame is written where the walk found it, and the row saved again.
            store := store[ids[k] := cp.(parent := Amend(cp.parent, pid, index, u).value)];
          }
        }
        k := k + 1;
      }
      ok := true;
    }

    // Walks the chain outwards to the frame of parallel step (pid, index).
    method FindParallelFrame(parent: Frame, pid: Pid, index: nat) returns (hit: Option<Frame>)
      ensures hit == FindFrame(parent, pid, index)
    {
      var frame := Some(parent);
      while frame.Some?
        invariant FindFrame(parent, pid, index) == if frame.Some? then FindFrame(frame.value, pid, index) else None
        decreases Depth(frame)
      {
        if IsSlotFrame(frame.value, pid, index) { return frame; }
        frame := frame.value.outer;
      }
      hit := None;
    }

    // The listed checkpoints that are still stored.
    method StillPending(pending: seq<nat>) returns (still: seq<nat>)
      ensures still == StillStored(pending, store)
    {
      still := [];
      var k := 0;
      while k < |pending|
        invariant 0 <= k <= |pending|
        invariant still + StillStored(pending[k..], store) == StillStored(pending, store)
      {
        assert pending[k..][0] == pending[k] && pending[k..][1..] == pending[k + 1..];
        if pending[k] in store { still := still + [pending[k]]; }
        k := k + 1;
      }
    }

    // Finishes one frame with the resumed output, then pops to the next.
    method ContinueParent(parent: Frame, resumed: Value, handed: Label) returns (r: Outcome)
      modifies this
      ensures (Now(), r) == Continue(w, Some(parent), resumed, handed, old(Now()))
      decreases Depth(Some(parent)), 0
    {
      match parent.progress
      case Plain =>
        r := CloseFrame(parent.(lbl := Adopt(parent.lbl, handed)), resumed);
      case Mapping(agentId, settled, remaining) =>
        var adopted := parent.(lbl := Adopt(parent.lbl, handed));
        r := RunMap(agentId, remaining, settled + [resumed], adopted);
        if r.Done? { r := CloseFrame(adopted, r.value); }
      case InSlot(slot, settled, pending, incoming) =>
        var joined := Join(incoming, Agreed(parent.lbl), handed);
        if joined.Conflict? { return Failed(DecisionConflict); }
        if pending == [] { return Failed(StateLost); }
        var still := StillPending(pending);
        if still == [] {
          r := CloseFrame(parent.(lbl := joined.lbl), Items(SetAt(settled, slot, resumed)));
        } else {
          var ok := AmendRows(still, parent.pid, parent.index, SettleSlot(slot, resumed, joined.lbl));
          r := if ok then Suspended([]) else Failed(DecisionConflict);
        }
    }

    // Emits the step:end that was still due and runs what remains of the frame.
    method CloseFrame(f: Frame, output: Value) returns (r: Outcome)
      modifies this
      ensures (Now(), r) == Close(w, f, output, old(Now()))
      decreases Depth(f.outer), 1
    {
      Emit(Ended(f.pid, f.index, output));
      var closed;
      r, closed := RunPipeline(f.pid, f.remaining, f.index + 1, output, f.lbl, f.outer);
      if r.Done? && f.outer.Some? {
        r := ContinueParent(f.outer.value, r.value, r.lbl);
      }
    }

    // Claims a stored checkpoint, answers it, and continues what it was part of.
    method ResumeCheckpoint(id: nat) returns (r: Outcome)
      modifies this
      ensures (Now(), r) == Resume(w, id, old(Now()))
    {
      if id !in store { return Failed(CheckpointNotFound); }
      var cp := store[id];
      store := store - {id};
      r := SettleRun(cp.call, cp.pauses, cp.parent);
      if r.Done? { r := ContinueParent(cp.parent, r.value, None); }
    }
  }
}
