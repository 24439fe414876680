/**
  A suspended pipeline as one tree, and what it still has to compute. The store holds
  the same tree cut into one frame stack per paused agent run; `Stored` says how.
*/
module SuspendedTree {
  import opened Wrappers
  import opened PipelineModel
  import opened PipelineMachine

  // A pipeline activation that is waiting in the step (pid, index).
  datatype Tree = Tree(pid: Pid, index: nat, remaining: seq<Step>, lbl: Label, hole: Hole)

  datatype Hole =
    | Leaf(id: nat, call: Call, pauses: nat)
    | InMap(id: nat, call: Call, pauses: nat, settled: seq<Value>, rest: seq<Value>)
    | InArm(arm: Tree)
    | InSlots(incoming: Label, pending: seq<nat>, slots: seq<Slot>)

  datatype Slot = Settled(output: Value) | Paused(tree: Tree)

  // The checkpoints a tree is made of.
  ghost function Ids(t: Tree): set<nat>
    decreases t
  {
    match t.hole
    case Leaf(id, _, _) => {id}
    case InMap(id, _, _, _, _) => {id}
    case InArm(arm) => Ids(arm)
    case InSlots(_, _, slots) => SlotsIds(slots)
  }

  ghost function SlotsIds(slots: seq<Slot>): (ids: set<nat>)
    ensures forall j, id :: 0 <= j < |slots| && id in IdsIn(slots[j]) ==> id in ids
    ensures forall id :: id in ids ==> exists j :: 0 <= j < |slots| && id in IdsIn(slots[j])
    decreases slots
  {
    set j, id | 0 <= j < |slots| && id in IdsIn(slots[j]) :: id
  }

  ghost function IdsIn(s: Slot): (ids: set<nat>)
    ensures s.Paused? ==> ids == Ids(s.tree)
    decreases s
  {
    if s.Paused? then Ids(s.tree) else {}
  }

  // The sibling outputs a slot's frame carries: null where a slot is still paused.
  function Outputs(slots: seq<Slot>): (v: seq<Value>)
    ensures |v| == |slots|
    ensures forall j :: 0 <= j < |slots| ==> v[j] == if slots[j].Settled? then slots[j].output else Null
  {
    seq(|slots|, j requires 0 <= j < |slots| => if slots[j].Settled? then slots[j].output else Null)
  }

  function FrameOf(t: Tree, progress: Progress, outer: Option<Frame>): Frame
  {
    Frame(t.pid, t.index, t.remaining, t.lbl, progress, outer)
  }

  function SlotFrameOf(t: Tree, slot: nat, outer: Option<Frame>): Frame
    requires t.hole.InSlots?
  {
    FrameOf(t, InSlot(slot, Outputs(t.hole.slots), t.hole.pending, t.hole.incoming), outer)
  }

  // Every leaf of the tree is a stored checkpoint whose frames spell its way out.
  ghost predicate Stored(t: Tree, outer: Option<Frame>, store: map<nat, Checkpoint>)
    decreases t
  {
    match t.hole
    case Leaf(id, call, pauses) =>
      id in store && store[id] == Checkpoint(call, pauses, FrameOf(t, Plain, outer))
    case InMap(id, call, pauses, settled, rest) =>
      id in store && store[id] == Checkpoint(call, pauses, FrameOf(t, Mapping(call.agentId, settled, rest), outer))
    case InArm(arm) => Stored(arm, Some(FrameOf(t, Plain, outer)), store)
    case InSlots(_, _, slots) =>
      forall j :: 0 <= j < |slots| && slots[j].Paused? ==> Stored(slots[j].tree, Some(SlotFrameOf(t, j, outer)), store)
  }

  ghost predicate NoDup(s: seq<nat>) { forall i, j :: 0 <= i < j < |s| ==> s[i] != s[j] }

  // The name structure and the bookkeeping every tree the machine builds has.
  ghost predicate Shape(t: Tree, next: nat)
    decreases t
  {
    match t.hole
    case Leaf(_, _, _) => true
    case InMap(_, call, _, _, _) => call.skill == None
    case InArm(arm) => arm.pid == ArmPid(t.pid, t.index) && Shape(arm, next)
    case InSlots(incoming, pending, slots) =>
      && (t.lbl == incoming || t.lbl.Some?)
      && pending != [] && NoDup(pending) && (forall p :: p in pending ==> p < next)
      && (exists j :: 0 <= j < |slots| && slots[j].Paused?)
      && (forall j :: 0 <= j < |slots| && slots[j].Paused? ==>
            slots[j].tree.pid == SlotPid(t.pid, t.index, j) && Shape(slots[j].tree, next))
      && (forall j, k :: 0 <= j < k < |slots| && slots[j].Paused? && slots[k].Paused? ==>
            Ids(slots[j].tree) !! Ids(slots[k].tree))
  }

  // A listed id that is still stored belongs to this parallel step.
  ghost predicate Tidy(t: Tree, store: map<nat, Checkpoint>)
    decreases t
  {
    match t.hole
    case Leaf(_, _, _) => true
    case InMap(_, _, _, _, _) => true
    case InArm(arm) => Tidy(arm, store)
    case InSlots(_, pending, slots) =>
      && (forall p :: p in pending && p in store ==> p in Ids(t))
      && (forall j :: 0 <= j < |slots| && slots[j].Paused? ==> Tidy(slots[j].tree, store))
  }

  // Every checkpoint below a parallel step is on that step's list: true when the step
  // has just suspended.
  ghost predicate AllListed(t: Tree)
    decreases t
  {
    match t.hole
    case Leaf(_, _, _) => true
    case InMap(_, _, _, _, _) => true
    case InArm(arm) => AllListed(arm)
    case InSlots(_, pending, slots) =>
      && (forall id :: id in Ids(t) ==> id in pending)
      && (forall j :: 0 <= j < |slots| && slots[j].Paused? ==> AllListed(slots[j].tree))
  }

  // ------------------------------------------------- what is left to compute

  function Plus(ev: multiset<Event>, r: Option<Res>): Option<Res>
  {
    if r.None? then None else Some(r.value.(events := ev + r.value.events))
  }

  // Close step (pid, index) with the output of h, then evaluate the steps after it.
  function Then(w: World, pid: Pid, steps: seq<Step>, index: nat, h: Option<Res>): Option<Res>
  {
    match h
    case None => None
    case Some(r) =>
      match Eval(w, pid, steps, index + 1, r.value, r.lbl)
      case None => None
      case Some(rest) =>
        Some(Res(rest.value, rest.lbl, r.events + multiset{Ended(pid, index, r.value)} + rest.events))
  }

  // The fan-out of a map step whose first results are known.
  function MapGoal(w: World, agentId: string, items: seq<Value>, results: seq<Value>, lbl: Label): Option<Res>
  {
    match EvalItems(w, agentId, items)
    case None => None
    case Some(r) => Some(Res(Items(results + r.values), lbl, r.events))
  }

  // A parallel step whose slots' labels still have to join `joined`.
  function SlotsGoal(incoming: Label, joined: Joined, r: Option<SlotsRes>): Option<Res>
  {
    match r
    case None => None
    case Some(s) =>
      match JoinAll(incoming, joined, s.labels)
      case Conflict => None
      case Agreed(l) => Some(Res(Items(s.values), l, s.events))
  }

  // The value, label and events the whole activation will end with.
  function Denote(w: World, t: Tree): Option<Res>
    decreases t, 1
  {
    Then(w, t.pid, t.remaining, t.index, DenoteStep(w, t))
  }

  // The same for the suspended step alone.
  function DenoteStep(w: World, t: Tree): Option<Res>
    decreases t, 0
  {
    match t.hole
    case Leaf(_, call, _) =>
      (match w.run(call)
       case None => None
       case Some(v) => Some(Res(v, t.lbl, multiset{})))
    case InMap(_, call, _, settled, rest) =>
      (match w.run(call)
       case None => None
       case Some(v) => MapGoal(w, call.agentId, rest, settled + [v], t.lbl))
    case InArm(arm) =>
      (match Denote(w, arm)
       case None => None
       case Some(r) => Some(Res(r.value, Adopt(t.lbl, r.lbl), r.events)))
    case InSlots(incoming, _, slots) => SlotsGoal(incoming, Agreed(t.lbl), DenoteSlots(w, slots))
  }

  // A settled slot's label has been joined already, so it contributes none.
  function DenoteSlots(w: World, slots: seq<Slot>): (r: Option<SlotsRes>)
    ensures r.Some? ==> |r.value.values| == |r.value.labels| == |slots|
    decreases slots
  {
    if slots == [] then Some(SlotsRes([], [], multiset{}))
    else ConsSlot(DenoteSlot(w, slots[0]), DenoteSlots(w, slots[1..]))
  }

  function DenoteSlot(w: World, s: Slot): Option<Res>
    decreases s
  {
    match s
    case Settled(output) => Some(Res(output, None, multiset{}))
    case Paused(t) => Denote(w, t)
  }

  function ConsSlot(head: Option<Res>, rest: Option<SlotsRes>): Option<SlotsRes>
  {
    if head.None? || rest.None? then None
    else Some(SlotsRes([head.value.value] + rest.value.values, [head.value.lbl] + rest.value.labels,
                       head.value.events + rest.value.events))
  }
}
