/**
  The pipeline as the source runs it: suspended agent runs are checkpoints in a
  store, and the rest of the computation is the stack of frames each checkpoint
  carries. `Run` is runPipeline, `Continue` is continuePipelineParent and `Resume`
  is a resume of one stored checkpoint. The imperative form is class
  PipelineRunner.Runner, which is proved equal to these functions.
*/
module PipelineMachine {
  import opened Wrappers
  import opened PipelineModel

  datatype Progress =
    | Plain
    | Mapping(agentId: string, settledItems: seq<Value>, remainingItems: seq<Value>)
    | InSlot(slot: nat, settled: seq<Value>, pending: seq<nat>, incoming: Label)

  // One stored continuation: what is left after the step (pid, index).
  datatype Frame = Frame(
    pid: Pid, index: nat, remaining: seq<Step>, lbl: Label, progress: Progress, outer: Option<Frame>)

  // A paused agent run. `pauses` is how often it will still pause when resumed.
  datatype Checkpoint = Checkpoint(call: Call, pauses: nat, parent: Frame)

  datatype Error = AgentThrew | DecisionThrew | BranchDefault | BranchNoLabel | DecisionConflict
                 | StateLost | CheckpointNotFound | Several(count: nat)

  // `ids` are the checkpoints whose human:required crumb this call surfaced.
  datatype Outcome = Done(value: Value, lbl: Label) | Suspended(ids: seq<nat>) | Failed(error: Error)

  // `emitted` forgets the order of crumbs: parallel slots interleave theirs.
  datatype State = State(store: map<nat, Checkpoint>, next: nat, runs: nat, emitted: multiset<Event>)
  {
    function Emit(e: Event): State { this.(emitted := emitted + multiset{e}) }
  }

  // ------------------------------------------------------------ agent runs

  // An agent run, fresh or resumed, pauses again or ends.
  function Settle(w: World, call: Call, pauses: nat, parent: Frame, st: State): (State, Outcome)
  {
    if pauses > 0 then
      (st.(store := st.store[st.next := Checkpoint(call, pauses - 1, parent)], next := st.next + 1),
       Suspended([st.next]))
    else
      match w.run(call)
      case None => (st, Failed(AgentThrew))
      case Some(v) => (st, Done(v, None))
  }

  function RunAgent(w: World, call: Call, parent: Frame, st: State): (State, Outcome)
  {
    Settle(w, call, w.pauses(st.runs), parent, st.Emit(Ran(call)).(runs := st.runs + 1))
  }

  // The fan-out of a map step, from `items` on; `results` are already there.
  function RunItems(w: World, agentId: string, items: seq<Value>, results: seq<Value>, parent: Frame, st: State)
    : (State, Outcome)
    decreases items
  {
    if items == [] then (st, Done(Items(results), None))
    else
      var frame := parent.(progress := Mapping(agentId, results, items[1..]));
      var (st1, r) := RunAgent(w, Call(agentId, None, items[0]), frame, st);
      match r
      case Done(v, _) => RunItems(w, agentId, items[1..], results + [v], parent, st1)
      case Suspended(_) => (st1, r)
      case Failed(_) => (st1, r)
  }

  // -------------------------------------------------------------- pipeline

  function Run(w: World, pid: Pid, steps: seq<Step>, base: nat, value: Value, lbl: Label,
               outer: Option<Frame>, st: State): (State, Outcome)
    decreases steps, 2
  {
    if steps == [] then (st, Done(value, lbl))
    else
      var (st1, r) := Turn(w, steps[0], value, Frame(pid, base, steps[1..], lbl, Plain, outer), st);
      if r.Done? then Run(w, pid, steps[1..], base + 1, Next(steps[0], value, r.value), r.lbl, outer, st1)
      else (st1, r)
  }

  // One turn of the loop over a pipeline's steps: open the step, run it, close it.
  function Turn(w: World, step: Step, value: Value, parent: Frame, st: State): (State, Outcome)
    decreases step, 1
  {
    var (st1, r) := RunStep(w, step, value, parent, st.Emit(Started(parent.pid, parent.index)));
    (if r.Done? then st1.Emit(Ended(parent.pid, parent.index, r.value)) else st1, r)
  }

  // One step; `parent` is the frame a pause inside this step would leave.
  function RunStep(w: World, step: Step, value: Value, parent: Frame, st: State): (State, Outcome)
    decreases step, 0
  {
    var lbl := parent.lbl;
    match step
    case AgentStep(agentId, skill) =>
      var (st1, r) := RunAgent(w, Call(agentId, skill, value), parent, st);
      (st1, if r.Done? then Done(r.value, lbl) else r)
    case MapStep(agentId) =>
      var (st1, r) := RunItems(w, agentId, AsItems(value), [], parent, st);
      (st1, if r.Done? then Done(r.value, lbl) else r)
    case DecisionStep(question) =>
      (match w.decide(question, value)
       case None => (st, Failed(DecisionThrew))
       case Some(a) => (st, Done(Answered(a.lbl, a.answer), Some(a.lbl))))
    case BranchStep(on, cases, otherwise) =>
      if otherwise.NoDefault? then (st, Failed(BranchDefault))
      else (
        match SelectArm(w, step, value, lbl)
        case NoLabel => (st, Failed(BranchNoLabel))
        case Chosen(k) =>
          var taken := if k >= 0 then cases[k].arm else otherwise.arm;
          var st0 := st.Emit(Took(parent.pid, parent.index, k));
          if taken == [] then (st0, Done(value, lbl))
          else
            var (st1, r) := Run(w, ArmPid(parent.pid, parent.index), taken, 0, value, lbl, Some(parent), st0);
            (st1, if r.Done? then Done(r.value, Adopt(lbl, r.lbl)) else r))
    case ParallelStep(slots) =>
      var (st1, acc) := RunSlots(w, slots, 0, value, parent, st, Acc([], [], Agreed(lbl), [], false));
      if acc.errors != [] then (st1, Failed(if |acc.errors| == 1 then acc.errors[0] else Several(|acc.errors|)))
      else if acc.ids != [] then
        (st1.(store := AmendAll(st1.store, acc.ids, parent.pid, parent.index,
                                FillIn(acc.outputs, acc.ids, acc.joined)).0), Suspended(acc.ids))
      else (st1, Done(Items(acc.outputs), if acc.joined.Agreed? then acc.joined.lbl else lbl))
  }

  // What the slots of a parallel step leave behind once all have settled. A conflict is
  // recorded once: after it, `joined` stays Conflict.
  datatype Acc = Acc(outputs: seq<Value>, ids: seq<nat>, joined: Joined, errors: seq<Error>, conflicted: bool)
  {
    function Settled(incoming: Label, output: Value, lbl: Label): Acc
    {
      var j := Join(incoming, joined, lbl);
      Acc(outputs + [output], ids, j,
          if j.Conflict? && !conflicted then errors + [DecisionConflict] else errors, j.Conflict?)
    }

    function Paused(more: seq<nat>): Acc { this.(outputs := outputs + [Null], ids := ids + more) }

    function After(incoming: Label, r: Outcome): Acc
    {
      match r
      case Done(v, l) => Settled(incoming, v, l)
      case Suspended(more) => Paused(more)
      case Failed(e) => Threw(e)
    }

    function Threw(e: Error): Acc { this.(outputs := outputs + [Null], errors := errors + [e]) }
  }

  // The frame a pause inside slot `slot` leaves: sibling data is still missing from it.
  function SlotFrame(parent: Frame, slot: nat): Frame
  {
    parent.(progress := InSlot(slot, [], [], parent.lbl))
  }

  // A slot is a pipeline of its own, of one step.
  function SlotStepFrame(parent: Frame, slot: nat): Frame
  {
    Frame(SlotPid(parent.pid, parent.index, slot), 0, [], parent.lbl, Plain, Some(SlotFrame(parent, slot)))
  }

  function RunSlots(w: World, slots: seq<Step>, slot: nat, value: Value, parent: Frame, st: State, acc: Acc)
    : (State, Acc)
    decreases slots, 0
  {
    if slots == [] then (st, acc)
    else
      var (st1, r) := Turn(w, slots[0], value, SlotStepFrame(parent, slot), st);
      RunSlots(w, slots[1..], slot + 1, value, parent, st1, acc.After(parent.lbl, r))
  }

  // -------------------------------------------- sibling data in the store

  datatype Update =
    | FillIn(outputs: seq<Value>, ids: seq<nat>, joined: Joined)
    | SettleSlot(slot: nat, output: Value, lbl: Label)

  predicate IsSlotFrame(f: Frame, pid: Pid, index: nat)
  {
    f.progress.InSlot? && f.pid == pid && f.index == index
  }

  // The innermost frame of parallel step (pid, index) on a chain.
  function FindFrame(f: Frame, pid: Pid, index: nat): (r: Option<Frame>)
    ensures r.Some? ==> IsSlotFrame(r.value, pid, index)
  {
    if IsSlotFrame(f, pid, index) then Some(f)
    else if f.outer.Some? then FindFrame(f.outer.value, pid, index)
    else None
  }

  // `s[i] := v` on an array that may be shorter than i.
  function SetAt(s: seq<Value>, i: nat, v: Value): seq<Value>
  {
    if i < |s| then s[i := v] else s + seq(i - |s|, _ => Null) + [v]
  }

  function Apply(f: Frame, u: Update): Option<Frame>
    requires f.progress.InSlot?
  {
    match u
    case FillIn(outputs, ids, joined) =>
      Some(f.(lbl := if joined.Agreed? then joined.lbl else f.lbl,
              progress := f.progress.(settled := outputs, pending := ids)))
    case SettleSlot(slot, output, lbl) =>
      match Join(f.progress.incoming, Agreed(f.lbl), lbl)
      case Conflict => None
      case Agreed(l) => Some(f.(lbl := l, progress := f.progress.(settled := SetAt(f.progress.settled, slot, output))))
  }

  function Amend(f: Frame, pid: Pid, index: nat, u: Update): Option<Frame>
    decreases f
  {
    if IsSlotFrame(f, pid, index) then Apply(f, u)
    else if f.outer.Some? then
      match Amend(f.outer.value, pid, index, u)
      case None => None
      case Some(o) => Some(f.(outer := Some(o)))
    else None
  }

  // Rewrites one stored checkpoint; a row that is gone, has no such frame, or whose
  // labels would conflict is left alone.
  function AmendOne(store: map<nat, Checkpoint>, id: nat, pid: Pid, index: nat, u: Update): map<nat, Checkpoint>
  {
    if id !in store then store
    else
      match Amend(store[id].parent, pid, index, u)
      case None => store
      case Some(f) => store[id := store[id].(parent := f)]
  }

  // True when writing `u` into the row's frame would throw.
  predicate Clashes(store: map<nat, Checkpoint>, id: nat, pid: Pid, index: nat, u: Update)
  {
    id in store
    && FindFrame(store[id].parent, pid, index).Some?
    && Apply(FrameFound(store[id].parent, pid, index), u) == None
  }

  // Rewrites the rows in turn and stops at the first whose labels clash (false).
  function AmendAll(store: map<nat, Checkpoint>, ids: seq<nat>, pid: Pid, index: nat, u: Update)
    : (map<nat, Checkpoint>, bool)
  {
    if ids == [] then (store, true)
    else if Clashes(store, ids[0], pid, index, u) then (store, false)
    else AmendAll(AmendOne(store, ids[0], pid, index, u), ids[1..], pid, index, u)
  }

  function FrameFound(f: Frame, pid: Pid, index: nat): (g: Frame)
    requires FindFrame(f, pid, index).Some?
    ensures g.progress.InSlot?
  {
    FindFrame(f, pid, index).value
  }

  // -------------------------------------------------------------- resuming

  function StillStored(ids: seq<nat>, store: map<nat, Checkpoint>): seq<nat>
  {
    if ids == [] then []
    else (if ids[0] in store then [ids[0]] else []) + StillStored(ids[1..], store)
  }

  function Depth(parent: Option<Frame>): nat
  {
    if parent.None? then 0 else 1 + Depth(parent.value.outer)
  }

  // Gives `output` to the step `parent` is waiting on. With no frame left the whole
  // pipeline has finished.
  function Continue(w: World, parent: Option<Frame>, output: Value, handed: Label, st: State): (State, Outcome)
    decreases Depth(parent), 0
  {
    if parent == None then (st, Done(output, handed))
    else
      var f := parent.value;
      match f.progress
      case Plain => Close(w, f.(lbl := Adopt(f.lbl, handed)), output, st)
      case Mapping(agentId, settled, remaining) =>
        var g := f.(lbl := Adopt(f.lbl, handed));
        var (st1, r) := RunItems(w, agentId, remaining, settled + [output], g, st);
        if r.Done? then Close(w, g, r.value, st1) else (st1, r)
      case InSlot(slot, settled, pending, incoming) =>
        match Join(incoming, Agreed(f.lbl), handed)
        case Conflict => (st, Failed(DecisionConflict))
        case Agreed(l) =>
          if pending == [] then (st, Failed(StateLost))
          else
            var still := StillStored(pending, st.store);
            if still == [] then Close(w, f.(lbl := l), Items(SetAt(settled, slot, output)), st)
            else
              var u := SettleSlot(slot, output, l);
              var (store', ok) := AmendAll(st.store, still, f.pid, f.index, u);
              (st.(store := store'), if ok then Suspended([]) else Failed(DecisionConflict))
  }

  // Closes the step, runs what remains of this frame, then pops to the next one.
  function Close(w: World, f: Frame, output: Value, st: State): (State, Outcome)
    decreases Depth(f.outer), 1
  {
    var (st1, r) := Run(w, f.pid, f.remaining, f.index + 1, output, f.lbl, f.outer,
                        st.Emit(Ended(f.pid, f.index, output)));
    if r.Done? then Continue(w, f.outer, r.value, r.lbl, st1) else (st1, r)
  }

  function Resume(w: World, id: nat, st: State): (State, Outcome)
  {
    if id !in st.store then (st, Failed(CheckpointNotFound))
    else
      var cp := st.store[id];
      var (st1, r) := Settle(w, cp.call, cp.pauses, cp.parent, st.(store := st.store - {id}));
      if r.Done? then Continue(w, Some(cp.parent), r.value, None, st1) else (st1, r)
  }
}
