/**
  The step language of a pipeline, and what a pipeline means when no agent ever
  pauses: `Eval` is a plain recursive evaluator, the reference every other
  pipeline module is compared with.
*/
module PipelineModel {
  import opened Wrappers

  // A JSON value, as far as the pipeline looks at one.
  datatype Value =
    | Null
    | Text(text: string)
    | Number(number: int)
    | Items(items: seq<Value>)
    | Answered(lbl: string, answer: Value)

  // The latest decision label, absent until a decision step has run.
  type Label = Option<string>

  datatype Step =
    | AgentStep(agentId: string, skill: Option<string>)
    | MapStep(agentId: string)
    | DecisionStep(question: nat)
    | BranchStep(on: Option<string>, cases: seq<Case>, otherwise: Default)
    | ParallelStep(slots: seq<Step>)

  datatype Case = Case(eq: string, arm: seq<Step>)

  // A branch is stored with a default arm; one without it is refused when it runs.
  datatype Default = NoDefault | Default(arm: seq<Step>)

  datatype Call = Call(agentId: string, skill: Option<string>, input: Value)

  datatype Answer = Answer(lbl: string, answer: Value)

  /**
    Everything a pipeline asks of the outside. `run` is what a leaf agent finally
    outputs (None: it throws), `decide` the decision host, `labelAt` the string at a
    dotted path of a value (None: no string there), and `pauses` says how often the
    n-th agent run of an invocation stops for a human before it ends.
  */
  datatype World = World(
    run: Call -> Option<Value>,
    decide: (nat, Value) -> Option<Answer>,
    labelAt: (Value, string) -> Option<string>,
    pauses: nat -> nat)

  /**
    A pipeline id together with the invocation it belongs to. The source writes the
    path as text (`:2:branch`, `:0:parallel:1`); module StepIds renders it and proves
    that the text determines the path.
  */
  datatype Pid = Pid(run: string, name: string, path: seq<Segment>)
  datatype Segment = ArmOf(index: nat) | SlotOf(index: nat, slot: nat)

  function ArmPid(pid: Pid, index: nat): Pid { pid.(path := pid.path + [ArmOf(index)]) }

  function SlotPid(pid: Pid, index: nat, slot: nat): Pid { pid.(path := pid.path + [SlotOf(index, slot)]) }

  // The crumbs the claims are about; a step's crumbs carry (pid, index) as its run id.
  datatype Event =
    | Started(pid: Pid, index: nat)
    | Ended(pid: Pid, index: nat, output: Value)
    | Took(pid: Pid, index: nat, caseIndex: int)
    | Ran(call: Call)

  // ------------------------------------------------------------ branch arms

  datatype Selected = Chosen(caseIndex: int) | NoLabel

  // The first case that equals the label, or -1.
  function FindCase(cases: seq<Case>, lbl: string): (k: int)
    ensures -1 <= k < |cases|
    ensures k >= 0 ==> cases[k].eq == lbl && forall i :: 0 <= i < k ==> cases[i].eq != lbl
    ensures k < 0 ==> forall i :: 0 <= i < |cases| ==> cases[i].eq != lbl
  {
    if cases == [] then -1
    else if cases[0].eq == lbl then 0
    else
      var rest := FindCase(cases[1..], lbl);
      if rest < 0 then -1 else rest + 1
  }

  function SelectArm(w: World, step: Step, value: Value, lbl: Label): (s: Selected)
    requires step.BranchStep?
    ensures s.Chosen? ==> -1 <= s.caseIndex < |step.cases|
  {
    if step.on.Some? then
      match w.labelAt(value, step.on.value)
      case None => Chosen(-1)
      case Some(l) => Chosen(FindCase(step.cases, l))
    else
      match lbl
      case None => NoLabel
      case Some(l) => Chosen(FindCase(step.cases, l))
  }

  // The label a branch looks at: the string at its path, or the latest decision's.
  function LabelSeen(w: World, step: Step, value: Value, lbl: Label): Label
    requires step.BranchStep?
  {
    if step.on.Some? then w.labelAt(value, step.on.value) else lbl
  }

  // A branch without a path needs a decision before it; otherwise it takes the first case
  // that equals the label it sees, and its default exactly when no case does.
  lemma ArmChosen(w: World, step: Step, value: Value, lbl: Label)
    requires step.BranchStep?
    ensures var s, seen := SelectArm(w, step, value, lbl), LabelSeen(w, step, value, lbl);
      && (s.NoLabel? <==> step.on.None? && lbl.None?)
      && (s.Chosen? ==> (s.caseIndex < 0 <==> forall i :: 0 <= i < |step.cases| ==> seen != Some(step.cases[i].eq)))
      && (s.Chosen? && s.caseIndex >= 0 ==>
            seen == Some(step.cases[s.caseIndex].eq)
            && forall i :: 0 <= i < s.caseIndex ==> seen != Some(step.cases[i].eq))
  {
    var seen := LabelSeen(w, step, value, lbl);
    if seen.Some? {
      var k := FindCase(step.cases, seen.value);
      assert k >= 0 ==> seen == Some(step.cases[k].eq);
    }
  }

  // ------------------------------------------------- joining slot labels

  datatype Joined = Agreed(lbl: Label) | Conflict

  // One new slot label replaces the one the step was entered with; a second,
  // different one is a conflict.
  function Join(incoming: Label, current: Joined, slotLabel: Label): Joined
  {
    match current
    case Conflict => Conflict
    case Agreed(c) =>
      if slotLabel == None || slotLabel == incoming then current
      else if c == None || c == incoming || c == slotLabel then Agreed(slotLabel)
      else Conflict
  }

  function JoinAll(incoming: Label, current: Joined, labels: seq<Label>): Joined
    decreases labels
  {
    if labels == [] then current else JoinAll(incoming, Join(incoming, current, labels[0]), labels[1..])
  }

  // A label handed to an enclosing frame: it replaces the frame's own when present.
  function Adopt(own: Label, handed: Label): Label { if handed.Some? then handed else own }

  // ------------------------------------------------------- plain evaluation

  datatype Res = Res(value: Value, lbl: Label, events: multiset<Event>)
  datatype ItemsRes = ItemsRes(values: seq<Value>, events: multiset<Event>)
  datatype SlotsRes = SlotsRes(values: seq<Value>, labels: seq<Label>, events: multiset<Event>)

  function AsItems(value: Value): seq<Value> { if value.Items? then value.items else [value] }

  // What the step after `step` sees: a decision leaves the value alone.
  function Next(step: Step, value: Value, output: Value): Value
  {
    if step.DecisionStep? then value else output
  }

  function StepEvents(pid: Pid, index: nat, output: Value): multiset<Event>
  {
    multiset{Started(pid, index), Ended(pid, index, output)}
  }

  function Eval(w: World, pid: Pid, steps: seq<Step>, base: nat, value: Value, lbl: Label): Option<Res>
    decreases steps, 1
  {
    if steps == [] then Some(Res(value, lbl, multiset{}))
    else
      match EvalStep(w, pid, steps[0], base, value, lbl)
      case None => None
      case Some(r) =>
        match Eval(w, pid, steps[1..], base + 1, Next(steps[0], value, r.value), r.lbl)
        case None => None
        case Some(rest) => Some(Res(rest.value, rest.lbl, StepEvents(pid, base, r.value) + r.events + rest.events))
  }

  // The step's output, the label after it, and the events inside it.
  function EvalStep(w: World, pid: Pid, step: Step, index: nat, value: Value, lbl: Label): Option<Res>
    decreases step, 0
  {
    match step
    case AgentStep(agentId, skill) =>
      var call := Call(agentId, skill, value);
      (match w.run(call)
       case None => None
       case Some(v) => Some(Res(v, lbl, multiset{Ran(call)})))
    case MapStep(agentId) =>
      (match EvalItems(w, agentId, AsItems(value))
       case None => None
       case Some(r) => Some(Res(Items(r.values), lbl, r.events)))
    case DecisionStep(question) =>
      (match w.decide(question, value)
       case None => None
       case Some(a) => Some(Res(Answered(a.lbl, a.answer), Some(a.lbl), multiset{})))
    case BranchStep(on, cases, otherwise) =>
      if otherwise.NoDefault? then None
      else (
        match SelectArm(w, step, value, lbl)
        case NoLabel => None
        case Chosen(k) =>
          var taken := if k >= 0 then cases[k].arm else otherwise.arm;
          match Eval(w, ArmPid(pid, index), taken, 0, value, lbl)
          case None => None
          case Some(r) => Some(Res(r.value, Adopt(lbl, r.lbl), multiset{Took(pid, index, k)} + r.events)))
    case ParallelStep(slots) =>
      (match EvalSlots(w, pid, slots, index, 0, value, lbl)
       case None => None
       case Some(r) =>
         match JoinAll(lbl, Agreed(lbl), r.labels)
         case Conflict => None
         case Agreed(l) => Some(Res(Items(r.values), l, r.events)))
  }

  function EvalItems(w: World, agentId: string, items: seq<Value>): Option<ItemsRes>
  {
    if items == [] then Some(ItemsRes([], multiset{}))
    else
      var call := Call(agentId, None, items[0]);
      match w.run(call)
      case None => None
      case Some(v) =>
        match EvalItems(w, agentId, items[1..])
        case None => None
        case Some(r) => Some(ItemsRes([v] + r.values, multiset{Ran(call)} + r.events))
  }

  // Slots are pipelines of one step each, all given the same value and label.
  function EvalSlots(w: World, pid: Pid, slots: seq<Step>, index: nat, slot: nat, value: Value, lbl: Label)
    : (r: Option<SlotsRes>)
    ensures r.Some? ==> |r.value.values| == |r.value.labels| == |slots|
    decreases slots, 0
  {
    if slots == [] then Some(SlotsRes([], [], multiset{}))
    else
      var sub := SlotPid(pid, index, slot);
      match EvalStep(w, sub, slots[0], 0, value, lbl)
      case None => None
      case Some(r) =>
        match EvalSlots(w, pid, slots[1..], index, slot + 1, value, lbl)
        case None => None
        case Some(rest) =>
          Some(SlotsRes([r.value] + rest.values, [r.lbl] + rest.labels,
            StepEvents(sub, 0, r.value) + r.events + rest.events))
  }
}
