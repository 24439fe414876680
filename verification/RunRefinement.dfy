/**
  A run that may pause agrees with the plain evaluator: it ends with the evaluator's
  result, fails only when the evaluator does, or leaves a tree that denotes the rest.
*/
module RunRefinement {
  import opened Wrappers
  import opened PipelineModel
  import opened PipelineMachine
  import opened SuspendedTree

  // -------------------------------------------------------- joining labels

  lemma JoinSwap(incoming: Label, c: Joined, a: Label, b: Label)
    ensures Join(incoming, Join(incoming, c, a), b) == Join(incoming, Join(incoming, c, b), a)
  {
  }

  // Joining a label before the others or after them is the same.
  lemma {:induction false} JoinPush(incoming: Label, c: Joined, a: Label, labels: seq<Label>)
    ensures JoinAll(incoming, Join(incoming, c, a), labels) == Join(incoming, JoinAll(incoming, c, labels), a)
    decreases labels
  {
    if labels != [] {
      JoinSwap(incoming, c, a, labels[0]);
      JoinPush(incoming, Join(incoming, c, labels[0]), a, labels[1..]);
    }
  }

  lemma {:induction false} JoinConflict(incoming: Label, labels: seq<Label>)
    ensures JoinAll(incoming, Conflict, labels) == Conflict
    decreases labels
  {
    if labels != [] { JoinConflict(incoming, labels[1..]); }
  }

  // A join either keeps the incoming label or is present.
  ghost predicate LabelOk(incoming: Label, joined: Joined)
  {
    joined.Agreed? ==> joined.lbl == incoming || joined.lbl.Some?
  }

  // ------------------------------------------------------- frame conditions

  // The part of a state the checkpoints live in.
  datatype Rows = Rows(store: map<nat, Checkpoint>, next: nat)

  function RowsOf(st: State): Rows { Rows(st.store, st.next) }

  ghost predicate Fresh(a: Rows) { forall i :: i in a.store ==> i < a.next }

  // Old rows are untouched, new rows have new ids.
  ghost predicate Keeps(a: Rows, b: Rows)
  {
    && a.next <= b.next
    && Fresh(b)
    && (forall i :: i in a.store ==> i in b.store && b.store[i] == a.store[i])
    && (forall i :: i in b.store && i !in a.store ==> a.next <= i)
  }

  lemma KeepsTrans(a: Rows, b: Rows, c: Rows)
    requires Keeps(a, b) && Keeps(b, c)
    ensures Keeps(a, c)
  {
  }

  // The rows b has and a has not are exactly the leaves of t.
  ghost predicate Leaves(t: Tree, outer: Option<Frame>, a: Rows, b: Rows)
  {
    && Shape(t, b.next) && AllListed(t) && Tidy(t, b.store)
    && Stored(t, outer, b.store)
    && (forall i :: i in Ids(t) ==> a.next <= i)
    && b.store.Keys == a.store.Keys + Ids(t)
  }

  ghost predicate Lists(ids: seq<nat>, s: set<nat>)
  {
    NoDup(ids) && forall i :: i in ids <==> i in s
  }

  // -------------------------------------------------- trees in a changed store

  // A tree only looks at its own rows.
  lemma {:induction false} StoredFrame(t: Tree, outer: Option<Frame>, s: map<nat, Checkpoint>, s': map<nat, Checkpoint>)
    requires Stored(t, outer, s)
    requires forall i :: i in Ids(t) && i in s ==> i in s' && s'[i] == s[i]
    ensures Stored(t, outer, s')
    decreases t
  {
    match t.hole
    case Leaf(_, _, _) =>
    case InMap(_, _, _, _, _) =>
    case InArm(arm) => StoredFrame(arm, Some(FrameOf(t, Plain, outer)), s, s');
    case InSlots(_, _, slots) =>
      forall j | 0 <= j < |slots| && slots[j].Paused?
        ensures Stored(slots[j].tree, Some(SlotFrameOf(t, j, outer)), s')
      {
        assert IdsIn(slots[j]) <= Ids(t);
        StoredFrame(slots[j].tree, Some(SlotFrameOf(t, j, outer)), s, s');
      }
  }

  lemma {:induction false} StoredIds(t: Tree, outer: Option<Frame>, s: map<nat, Checkpoint>)
    requires Stored(t, outer, s)
    ensures forall i :: i in Ids(t) ==> i in s
    decreases t
  {
    match t.hole
    case Leaf(_, _, _) =>
    case InMap(_, _, _, _, _) =>
    case InArm(arm) => StoredIds(arm, Some(FrameOf(t, Plain, outer)), s);
    case InSlots(_, _, slots) =>
      forall i | i in Ids(t) ensures i in s
      {
        var j :| 0 <= j < |slots| && i in IdsIn(slots[j]);
        StoredIds(slots[j].tree, Some(SlotFrameOf(t, j, outer)), s);
      }
  }

  lemma {:induction false} ShapeGrows(t: Tree, next: nat, next': nat)
    requires Shape(t, next) && next <= next'
    ensures Shape(t, next')
    decreases t
  {
    match t.hole
    case Leaf(_, _, _) =>
    case InMap(_, _, _, _, _) =>
    case InArm(arm) => ShapeGrows(arm, next, next');
    case InSlots(_, _, slots) =>
      forall j | 0 <= j < |slots| && slots[j].Paused? ensures Shape(slots[j].tree, next')
      {
        ShapeGrows(slots[j].tree, next, next');
      }
  }

  // Rows that are gone or that are new leave a tree tidy.
  lemma {:induction false} TidyFrame(t: Tree, next: nat, s: map<nat, Checkpoint>, s': map<nat, Checkpoint>)
    requires Shape(t, next) && Tidy(t, s)
    requires forall i :: i in s' && i !in s ==> next <= i
    ensures Tidy(t, s')
    decreases t
  {
    match t.hole
    case Leaf(_, _, _) =>
    case InMap(_, _, _, _, _) =>
    case InArm(arm) => TidyFrame(arm, next, s, s');
    case InSlots(_, _, slots) =>
      forall j | 0 <= j < |slots| && slots[j].Paused? ensures Tidy(slots[j].tree, s')
      {
        TidyFrame(slots[j].tree, next, s, s');
      }
  }

  // ------------------------------------------------------- amending siblings

  lemma SlotIds(t: Tree, j: nat)
    requires t.hole.InSlots? && j < |t.hole.slots| && t.hole.slots[j].Paused?
    ensures Ids(t.hole.slots[j].tree) <= Ids(t)
  {
    assert IdsIn(t.hole.slots[j]) <= Ids(t);
  }

  // The chain of every leaf runs through `outer`, so a parallel frame above the tree
  // is found from each of them.
  lemma {:induction false} ChainReaches(t: Tree, next: nat, outer: Frame, pid: Pid, index: nat, u: Update,
                                        s: map<nat, Checkpoint>, i: nat)
    requires Shape(t, next) && Stored(t, Some(outer), s) && i in Ids(t)
    requires |t.pid.path| > |pid.path|
    ensures i in s && FindFrame(s[i].parent, pid, index) == FindFrame(outer, pid, index)
    ensures Amend(s[i].parent, pid, index, u).Some? == Amend(outer, pid, index, u).Some?
    decreases t
  {
    match t.hole
    case Leaf(_, _, _) =>
    case InMap(_, _, _, _, _) =>
    case InArm(arm) =>
      ChainReaches(arm, next, FrameOf(t, Plain, Some(outer)), pid, index, u, s, i);
    case InSlots(_, _, slots) =>
      var j :| 0 <= j < |slots| && i in IdsIn(slots[j]);
      ChainReaches(slots[j].tree, next, SlotFrameOf(t, j, Some(outer)), pid, index, u, s, i);
  }

  ghost predicate Amended(ids: set<nat>, s: map<nat, Checkpoint>, s': map<nat, Checkpoint>,
                          pid: Pid, index: nat, u: Update)
  {
    forall i :: i in ids && i in s ==>
      && i in s' && Amend(s[i].parent, pid, index, u).Some?
      && s'[i] == s[i].(parent := Amend(s[i].parent, pid, index, u).value)
  }

  // So rewriting that frame in every row rewrites it for the tree.
  lemma {:induction false} AmendStored(t: Tree, next: nat, outer: Frame, outer': Frame, pid: Pid, index: nat, u: Update,
                                       s: map<nat, Checkpoint>, s': map<nat, Checkpoint>)
    requires Shape(t, next) && Stored(t, Some(outer), s)
    requires |t.pid.path| > |pid.path|
    requires Amend(outer, pid, index, u) == Some(outer')
    requires Amended(Ids(t), s, s', pid, index, u)
    ensures Stored(t, Some(outer'), s')
    decreases t
  {
    match t.hole
    case Leaf(_, _, _) =>
    case InMap(_, _, _, _, _) =>
    case InArm(arm) =>
      AmendStored(arm, next, FrameOf(t, Plain, Some(outer)), FrameOf(t, Plain, Some(outer')), pid, index, u, s, s');
    case InSlots(_, _, slots) =>
      forall j | 0 <= j < |slots| && slots[j].Paused?
        ensures Stored(slots[j].tree, Some(SlotFrameOf(t, j, Some(outer'))), s')
      {
        SlotIds(t, j);
        var f, f' := SlotFrameOf(t, j, Some(outer)), SlotFrameOf(t, j, Some(outer'));
        AmendStored(slots[j].tree, next, f, f', pid, index, u, s, s');
      }
  }

  // Rewriting distinct rows, none of which clashes.
  lemma {:induction false} AmendAllRows(s: map<nat, Checkpoint>, ids: seq<nat>, pid: Pid, index: nat, u: Update)
    requires NoDup(ids)
    requires forall i :: i in ids ==> !Clashes(s, i, pid, index, u)
    ensures var (s', ok) := AmendAll(s, ids, pid, index, u);
      && ok && s'.Keys == s.Keys
      && (forall i :: i in s && i !in ids ==> s'[i] == s[i])
      && (forall i :: i in s && i in ids ==> s'[i] == AmendOne(s, i, pid, index, u)[i])
    decreases ids
  {
    if ids != [] {
      var s1 := AmendOne(s, ids[0], pid, index, u);
      assert s1.Keys == s.Keys;
      assert forall i :: i in s && i != ids[0] ==> s1[i] == s[i];
      assert forall i :: i in ids[1..] ==> i in ids && i != ids[0];
      assert forall i :: i in ids[1..] ==> Clashes(s1, i, pid, index, u) == Clashes(s, i, pid, index, u);
      AmendAllRows(s1, ids[1..], pid, index, u);
    }
  }

  // ------------------------------------------------------------ agent runs

  lemma RunAgentRefines(w: World, call: Call, parent: Frame, st: State)
    requires Fresh(RowsOf(st))
    ensures var (st', r) := RunAgent(w, call, parent, st);
      && Keeps(RowsOf(st), RowsOf(st')) && st'.emitted == st.emitted + multiset{Ran(call)}
      && (r.Done? ==> w.run(call) == Some(r.value) && st'.store == st.store)
      && (r.Failed? ==> w.run(call) == None)
      && (r.Suspended? ==> exists p: nat ::
            && r.ids == [st.next] && st'.next == st.next + 1
            && st'.store == st.store[st.next := Checkpoint(call, p, parent)])
  {
    var p := w.pauses(st.runs);
    if p > 0 {
      assert RunAgent(w, call, parent, st).0.store == st.store[st.next := Checkpoint(call, p - 1, parent)];
    }
  }

  ghost predicate ItemPaused(t: Tree, parent: Frame, ids: seq<nat>)
  {
    && t.hole.InMap? && t.hole.call.skill == None && ids == [t.hole.id]
    && FrameOf(t, Plain, parent.outer) == parent.(progress := Plain)
  }

  lemma {:induction false} RunItemsRefines(
      w: World, agentId: string, items: seq<Value>, results: seq<Value>, parent: Frame, st: State)
    returns (ev: multiset<Event>, t: Tree)
    requires Fresh(RowsOf(st))
    ensures var (st', r) := RunItems(w, agentId, items, results, parent, st);
      var goal := MapGoal(w, agentId, items, results, parent.lbl);
      && Keeps(RowsOf(st), RowsOf(st')) && st'.emitted == st.emitted + ev
      && (r.Done? ==> goal == Some(Res(r.value, parent.lbl, ev)) && st'.store == st.store)
      && (r.Failed? ==> goal == None)
      && (r.Suspended? ==>
            && goal == Plus(ev, DenoteStep(w, t)) && ItemPaused(t, parent, r.ids)
            && t.hole.id !in st.store && st.next <= t.hole.id < st'.next
            && Stored(t, parent.outer, st'.store) && st'.store.Keys == st.store.Keys + {t.hole.id})
    decreases items
  {
    ev := multiset{};
    t := Tree(parent.pid, parent.index, parent.remaining, parent.lbl, Leaf(0, Call("", None, Null), 0));
    if items == [] {
      assert results + [] == results;
    } else {
      var call := Call(agentId, None, items[0]);
      var frame := parent.(progress := Mapping(agentId, results, items[1..]));
      RunAgentRefines(w, call, frame, st);
      var (st1, r) := RunAgent(w, call, frame, st);
      ev := multiset{Ran(call)};
      if w.run(call).Some? { MapGoalStep(w, agentId, items, results, parent.lbl, w.run(call).value); }
      match r
      case Done(v, _) =>
        var ev1;
        ev1, t := RunItemsRefines(w, agentId, items[1..], results + [v], parent, st1);
        PlusPlus(ev, ev1, DenoteStep(w, t));
        ev := ev + ev1;
      case Failed(_) =>
      case Suspended(_) =>
        var p: nat :| st1.store == st.store[st.next := Checkpoint(call, p, frame)];
        t := t.(hole := InMap(st.next, call, p, results, items[1..]));
    }
  }

  lemma PlusPlus(a: multiset<Event>, b: multiset<Event>, r: Option<Res>)
    ensures Plus(a, Plus(b, r)) == Plus(a + b, r)
  {
    if r.Some? { assert a + (b + r.value.events) == a + b + r.value.events; }
  }

  lemma MapGoalStep(w: World, agentId: string, items: seq<Value>, results: seq<Value>, lbl: Label, v: Value)
    requires items != [] && w.run(Call(agentId, None, items[0])) == Some(v)
    ensures MapGoal(w, agentId, items, results, lbl)
         == Plus(multiset{Ran(Call(agentId, None, items[0]))}, MapGoal(w, agentId, items[1..], results + [v], lbl))
  {
    match EvalItems(w, agentId, items[1..])
    case None =>
    case Some(r) => assert results + ([v] + r.values) == results + [v] + r.values;
  }

  // ------------------------------------------------------ steps and pipelines

  ghost predicate Refines(goal: Option<Res>, ev: multiset<Event>, st: State, st': State, r: Outcome,
                          rest: Option<Res>, t: Tree, outer: Option<Frame>)
  {
    && Keeps(RowsOf(st), RowsOf(st')) && st'.emitted == st.emitted + ev
    && (r.Done? ==> goal == Some(Res(r.value, r.lbl, ev)) && st'.store == st.store)
    && (r.Failed? ==> goal == None)
    && (r.Suspended? ==> goal == Plus(ev, rest) && Leaves(t, outer, RowsOf(st), RowsOf(st')) && Lists(r.ids, Ids(t)))
  }

  ghost predicate At(t: Tree, parent: Frame)
  {
    t.pid == parent.pid && t.index == parent.index && t.remaining == parent.remaining
  }

  function NoTree(): Tree { Tree(Pid("", "", []), 0, [], None, Leaf(0, Call("", None, Null), 0)) }

  lemma ThenPlus(w: World, pid: Pid, steps: seq<Step>, index: nat, ev: multiset<Event>, h: Option<Res>)
    ensures Then(w, pid, steps, index, Plus(ev, h)) == Plus(ev, Then(w, pid, steps, index, h))
  {
    match h
    case None =>
    case Some(r) =>
      match Eval(w, pid, steps, index + 1, r.value, r.lbl)
      case None =>
      case Some(rest) =>
        var e := multiset{Ended(pid, index, r.value)};
        assert (ev + r.events) + e + rest.events == ev + (r.events + e + rest.events);
  }

  // A pipeline is its first step, closed, and the rest.
  lemma EvalUnfold(w: World, pid: Pid, steps: seq<Step>, base: nat, value: Value, lbl: Label)
    requires steps != []
    ensures var h := EvalStep(w, pid, steps[0], base, value, lbl);
      && (h == None ==> Eval(w, pid, steps, base, value, lbl) == None)
      && (h.Some? ==>
            Eval(w, pid, steps, base, value, lbl)
            == Plus(multiset{Started(pid, base)} + h.value.events + multiset{Ended(pid, base, h.value.value)},
                    Eval(w, pid, steps[1..], base + 1, Next(steps[0], value, h.value.value), h.value.lbl)))
      && (!steps[0].DecisionStep? ==>
            Eval(w, pid, steps, base, value, lbl)
            == Plus(multiset{Started(pid, base)}, Then(w, pid, steps[1..], base, h)))
  {
    var h := EvalStep(w, pid, steps[0], base, value, lbl);
    if h.Some? {
      var s, e := multiset{Started(pid, base)}, multiset{Ended(pid, base, h.value.value)};
      var rest := Eval(w, pid, steps[1..], base + 1, Next(steps[0], value, h.value.value), h.value.lbl);
      if rest.Some? {
        assert StepEvents(pid, base, h.value.value) == s + e;
        assert s + e + h.value.events + rest.value.events == s + h.value.events + e + rest.value.events;
        assert s + e + h.value.events + rest.value.events == s + (h.value.events + e + rest.value.events);
      }
    }
  }

  lemma {:induction false} RunRefines(w: World, pid: Pid, steps: seq<Step>, base: nat, value: Value, lbl: Label,
                                      outer: Option<Frame>, st: State)
    returns (ev: multiset<Event>, t: Tree)
    requires Fresh(RowsOf(st))
    ensures var (st', r) := Run(w, pid, steps, base, value, lbl, outer, st);
      && Refines(Eval(w, pid, steps, base, value, lbl), ev, st, st', r, Denote(w, t), t, outer)
      && (r.Suspended? ==> t.pid == pid)
    decreases steps, 1
  {
    ev, t := multiset{}, NoTree();
    if steps != [] {
      var parent := Frame(pid, base, steps[1..], lbl, Plain, outer);
      var st0 := st.Emit(Started(pid, base));
      ev, t := RunStepRefines(w, steps[0], value, parent, st0);
      var (st1, r) := RunStep(w, steps[0], value, parent, st0);
      EvalUnfold(w, pid, steps, base, value, lbl);
      if r.Done? {
        var st2 := st1.Emit(Ended(pid, base, r.value));
        var ev2;
        ev2, t := RunRefines(w, pid, steps[1..], base + 1, Next(steps[0], value, r.value), r.lbl, outer, st2);
        var rest := Run(w, pid, steps[1..], base + 1, Next(steps[0], value, r.value), r.lbl, outer, st2);
        var ev1 := multiset{Started(pid, base)} + ev + multiset{Ended(pid, base, r.value)};
        RefinesAfter(Eval(w, pid, steps[1..], base + 1, Next(steps[0], value, r.value), r.lbl),
                     ev1, ev2, st, st2, rest.0, rest.1, Denote(w, t), t, outer);
        ev := ev1 + ev2;
      } else {
        ThenPlus(w, pid, steps[1..], base, ev, DenoteStep(w, t));
        ev := RefinesBefore(Then(w, pid, steps[1..], base, EvalStep(w, pid, steps[0], base, value, lbl)),
                            Started(pid, base), ev, st, st1, r, Denote(w, t), t, outer);
      }
    }
  }

  // Something done before a refined stretch that leaves the rows alone ...
  lemma RefinesAfter(goal: Option<Res>, ev1: multiset<Event>, ev2: multiset<Event>, st: State, st2: State, st': State,
                     r: Outcome, rest: Option<Res>, t: Tree, outer: Option<Frame>)
    requires Refines(goal, ev2, st2, st', r, rest, t, outer)
    requires Keeps(RowsOf(st), RowsOf(st2)) && st2.store == st.store && st2.emitted == st.emitted + ev1
    ensures Refines(Plus(ev1, goal), ev1 + ev2, st, st', r, rest, t, outer)
  {
    KeepsTrans(RowsOf(st), RowsOf(st2), RowsOf(st'));
    PlusPlus(ev1, ev2, rest);
    assert st.emitted + ev1 + ev2 == st.emitted + (ev1 + ev2);
    if r.Suspended? {
      LeavesEarlier(t, outer, RowsOf(st), RowsOf(st2), RowsOf(st'));
    }
  }

  lemma LeavesEarlier(t: Tree, outer: Option<Frame>, a: Rows, b: Rows, c: Rows)
    requires Leaves(t, outer, b, c) && a.store == b.store && a.next <= b.next
    ensures Leaves(t, outer, a, c)
  {
  }

  // ... for one crumb in particular.
  lemma RefinesBefore(goal: Option<Res>, e: Event, ev: multiset<Event>, st: State, st': State,
                      r: Outcome, rest: Option<Res>, t: Tree, outer: Option<Frame>)
    returns (ev': multiset<Event>)
    requires Fresh(RowsOf(st))
    requires Refines(goal, ev, st.Emit(e), st', r, rest, t, outer)
    ensures Refines(Plus(multiset{e}, goal), ev', st, st', r, rest, t, outer)
  {
    RefinesAfter(goal, multiset{e}, ev, st, st.Emit(e), st', r, rest, t, outer);
    ev' := multiset{e} + ev;
  }

  lemma {:induction false} RunStepRefines(w: World, step: Step, value: Value, parent: Frame, st: State)
    returns (ev: multiset<Event>, t: Tree)
    requires Fresh(RowsOf(st)) && parent.progress.Plain?
    ensures var (st', r) := RunStep(w, step, value, parent, st);
      && Refines(EvalStep(w, parent.pid, step, parent.index, value, parent.lbl), ev, st, st', r,
                 DenoteStep(w, t), t, parent.outer)
      && (r.Suspended? ==> At(t, parent) && !step.DecisionStep?)
    decreases step, 0
  {
    ev, t := multiset{}, NoTree();
    match step
    case AgentStep(agentId, skill) =>
      ev, t := RunAgentStepRefines(w, step, value, parent, st);
    case MapStep(agentId) =>
      ev, t := RunItemsRefines(w, agentId, AsItems(value), [], parent, st);
      MapGoalIsStep(w, parent.pid, agentId, parent.index, value, parent.lbl);
      if RunStep(w, step, value, parent, st).1.Suspended? { assert Ids(t) == {t.hole.id}; }
    case DecisionStep(question) =>
    case BranchStep(on, cases, otherwise) =>
      ev, t := RunBranchRefines(w, step, value, parent, st);
    case ParallelStep(slots) =>
      ev, t := RunParallelRefines(w, step, value, parent, st);
  }

  lemma RunAgentStepRefines(w: World, step: Step, value: Value, parent: Frame, st: State)
    returns (ev: multiset<Event>, t: Tree)
    requires Fresh(RowsOf(st)) && parent.progress.Plain? && step.AgentStep?
    ensures var (st', r) := RunStep(w, step, value, parent, st);
      && Refines(EvalStep(w, parent.pid, step, parent.index, value, parent.lbl), ev, st, st', r,
                 DenoteStep(w, t), t, parent.outer)
      && (r.Suspended? ==> At(t, parent))
  {
    var call := Call(step.agentId, step.skill, value);
    ev, t := multiset{Ran(call)}, NoTree();
    RunAgentRefines(w, call, parent, st);
    var (st1, r) := RunAgent(w, call, parent, st);
    if r.Suspended? {
      var p: nat :| st1.store == st.store[st.next := Checkpoint(call, p, parent)];
      t := Tree(parent.pid, parent.index, parent.remaining, parent.lbl, Leaf(st.next, call, p));
      assert FrameOf(t, Plain, parent.outer) == parent;
      assert Ids(t) == {st.next};
      assert ev + multiset{} == ev;
    }
  }

  lemma MapGoalIsStep(w: World, pid: Pid, agentId: string, index: nat, value: Value, lbl: Label)
    ensures EvalStep(w, pid, MapStep(agentId), index, value, lbl) == MapGoal(w, agentId, AsItems(value), [], lbl)
  {
    match EvalItems(w, agentId, AsItems(value))
    case None =>
    case Some(r) => assert [] + r.values == r.values;
  }

  lemma {:induction false} RunBranchRefines(w: World, step: Step, value: Value, parent: Frame, st: State)
    returns (ev: multiset<Event>, t: Tree)
    requires Fresh(RowsOf(st)) && parent.progress.Plain? && step.BranchStep?
    ensures var (st', r) := RunStep(w, step, value, parent, st);
      && Refines(EvalStep(w, parent.pid, step, parent.index, value, parent.lbl), ev, st, st', r,
                 DenoteStep(w, t), t, parent.outer)
      && (r.Suspended? ==> At(t, parent))
    decreases step, -1
  {
    ev, t := multiset{}, NoTree();
    var lbl := parent.lbl;
    if step.otherwise.Default? && SelectArm(w, step, value, lbl).Chosen? {
      var k := SelectArm(w, step, value, lbl).caseIndex;
      var taken := if k >= 0 then step.cases[k].arm else step.otherwise.arm;
      var sub := ArmPid(parent.pid, parent.index);
      var st0 := st.Emit(Took(parent.pid, parent.index, k));
      var arm;
      ev, arm := RunRefines(w, sub, taken, 0, value, lbl, Some(parent), st0);
      var (st1, r) := Run(w, sub, taken, 0, value, lbl, Some(parent), st0);
      t := ArmTree(parent, arm);
      var goal := Eval(w, sub, taken, 0, value, lbl);
      ArmRefines(goal, ev, st0, st1, r, w, arm, parent);
      ev := RefinesBefore(ArmGoal(lbl, goal), Took(parent.pid, parent.index, k), ev, st, st1, ArmOutcome(lbl, r),
                          DenoteStep(w, t), t, parent.outer);
      RunBranchUnfold(w, step, value, parent, st, k, taken);
    }
  }

  lemma RunBranchUnfold(w: World, step: Step, value: Value, parent: Frame, st: State, k: int, taken: seq<Step>)
    requires step.BranchStep? && step.otherwise.Default? && SelectArm(w, step, value, parent.lbl) == Chosen(k)
    requires taken == if k >= 0 then step.cases[k].arm else step.otherwise.arm
    ensures var (st1, r) := Run(w, ArmPid(parent.pid, parent.index), taken, 0, value, parent.lbl, Some(parent),
                                st.Emit(Took(parent.pid, parent.index, k)));
      RunStep(w, step, value, parent, st) == (st1, ArmOutcome(parent.lbl, r))
    ensures EvalStep(w, parent.pid, step, parent.index, value, parent.lbl)
         == Plus(multiset{Took(parent.pid, parent.index, k)},
                 ArmGoal(parent.lbl, Eval(w, ArmPid(parent.pid, parent.index), taken, 0, value, parent.lbl)))
  {
  }

  function ArmTree(parent: Frame, arm: Tree): Tree
  {
    Tree(parent.pid, parent.index, parent.remaining, parent.lbl, InArm(arm))
  }

  function ArmGoal(lbl: Label, r: Option<Res>): Option<Res>
  {
    if r.None? then None else Some(r.value.(lbl := Adopt(lbl, r.value.lbl)))
  }

  function ArmOutcome(lbl: Label, r: Outcome): Outcome
  {
    if r.Done? then Done(r.value, Adopt(lbl, r.lbl)) else r
  }

  lemma ArmRefines(goal: Option<Res>, ev: multiset<Event>, st: State, st': State, r: Outcome,
                   w: World, arm: Tree, parent: Frame)
    requires parent.progress.Plain?
    requires Refines(goal, ev, st, st', r, Denote(w, arm), arm, Some(parent))
    requires r.Suspended? ==> arm.pid == ArmPid(parent.pid, parent.index)
    ensures var t := ArmTree(parent, arm);
      Refines(ArmGoal(parent.lbl, goal), ev, st, st', ArmOutcome(parent.lbl, r), DenoteStep(w, t), t, parent.outer)
  {
    var t := ArmTree(parent, arm);
    assert FrameOf(t, Plain, parent.outer) == parent;
    assert DenoteStep(w, t) == ArmGoal(parent.lbl, Denote(w, arm));
    assert Ids(t) == Ids(arm);
  }

  // --------------------------------------------------------- parallel steps

  // What slot `slot` will contribute: a pipeline of that one step.
  function SlotGoal(w: World, pid: Pid, index: nat, slot: nat, step: Step, value: Value, lbl: Label): Option<Res>
  {
    var sub := SlotPid(pid, index, slot);
    Plus(multiset{Started(sub, 0)}, Then(w, sub, [], 0, EvalStep(w, sub, step, 0, value, lbl)))
  }

  lemma EvalSlotsUnfold(w: World, pid: Pid, slots: seq<Step>, index: nat, slot: nat, value: Value, lbl: Label)
    requires slots != []
    ensures EvalSlots(w, pid, slots, index, slot, value, lbl)
         == ConsSlot(SlotGoal(w, pid, index, slot, slots[0], value, lbl),
                     EvalSlots(w, pid, slots[1..], index, slot + 1, value, lbl))
  {
    var sub := SlotPid(pid, index, slot);
    match EvalStep(w, sub, slots[0], 0, value, lbl)
    case None =>
    case Some(r) =>
      var s, e := multiset{Started(sub, 0)}, multiset{Ended(sub, 0, r.value)};
      assert StepEvents(sub, 0, r.value) + r.events == s + (r.events + e + multiset{});
  }

  function RunSlot(w: World, step: Step, slot: nat, value: Value, parent: Frame, st: State): (State, Outcome)
  {
    Turn(w, step, value, SlotStepFrame(parent, slot), st)
  }

  lemma {:induction false} RunSlotRefines(w: World, step: Step, slot: nat, value: Value, parent: Frame, st: State)
    returns (ev: multiset<Event>, t: Tree)
    requires Fresh(RowsOf(st))
    ensures var (st', r) := RunSlot(w, step, slot, value, parent, st);
      && Refines(SlotGoal(w, parent.pid, parent.index, slot, step, value, parent.lbl), ev, st, st', r,
                 Denote(w, t), t, Some(SlotFrame(parent, slot)))
      && (r.Suspended? ==> t.pid == SlotPid(parent.pid, parent.index, slot))
    decreases step, 1
  {
    var sub := SlotPid(parent.pid, parent.index, slot);
    var outer := Some(SlotFrame(parent, slot));
    var inner := Frame(sub, 0, [], parent.lbl, Plain, outer);
    var st0 := st.Emit(Started(sub, 0));
    ev, t := RunStepRefines(w, step, value, inner, st0);
    var (st1, r) := RunStep(w, step, value, inner, st0);
    var h := EvalStep(w, sub, step, 0, value, parent.lbl);
    if r.Done? {
      ev := SlotDone(w, sub, h, ev, st, st1, r);
    } else {
      ThenPlus(w, sub, [], 0, ev, DenoteStep(w, t));
      ev := RefinesBefore(Then(w, sub, [], 0, h), Started(sub, 0), ev, st, st1, r, Denote(w, t), t, outer);
    }
  }

  lemma SlotDone(w: World, sub: Pid, h: Option<Res>, ev: multiset<Event>, st: State, st1: State, r: Outcome)
    returns (ev': multiset<Event>)
    requires r.Done? && h == Some(Res(r.value, r.lbl, ev))
    requires st1.emitted == st.Emit(Started(sub, 0)).emitted + ev
    ensures Plus(multiset{Started(sub, 0)}, Then(w, sub, [], 0, h)) == Some(Res(r.value, r.lbl, ev'))
    ensures st1.Emit(Ended(sub, 0, r.value)).emitted == st.emitted + ev'
  {
    var s, e := multiset{Started(sub, 0)}, multiset{Ended(sub, 0, r.value)};
    ev' := s + (ev + e + multiset{});
    assert st.emitted + s + ev + e == st.emitted + ev';
  }

  // The paused slots' trees are what the slots added to the store.
  ghost predicate SlotsLeft(ss: seq<Slot>, slot: nat, parent: Frame, a: Rows, b: Rows)
  {
    && (forall k :: 0 <= k < |ss| && ss[k].Paused? ==>
          SlotLeft(ss[k].tree, slot + k, parent, a.next, b))
    && (forall j, k :: 0 <= j < k < |ss| && ss[j].Paused? && ss[k].Paused? ==> Ids(ss[j].tree) !! Ids(ss[k].tree))
    && b.store.Keys == a.store.Keys + SlotsIds(ss)
  }

  ghost predicate SlotLeft(t: Tree, slot: nat, parent: Frame, from: nat, b: Rows)
  {
    && t.pid == SlotPid(parent.pid, parent.index, slot)
    && Shape(t, b.next) && AllListed(t) && Tidy(t, b.store)
    && Stored(t, Some(SlotFrame(parent, slot)), b.store)
    && forall i :: i in Ids(t) ==> from <= i < b.next
  }

  // Values and events match, and the labels still join to the same.
  ghost predicate SameSlots(incoming: Label, before: Joined, goal: Option<SlotsRes>,
                            ev: multiset<Event>, after: Joined, rest: Option<SlotsRes>)
  {
    if goal.None? || rest.None? then goal.None? && rest.None?
    else
      && goal.value.values == rest.value.values
      && goal.value.events == ev + rest.value.events
      && JoinAll(incoming, before, goal.value.labels) == JoinAll(incoming, after, rest.value.labels)
  }

  ghost predicate AccOk(incoming: Label, acc: Acc)
  {
    acc.errors == [] && acc.joined.Agreed? && !acc.conflicted && LabelOk(incoming, acc.joined)
  }

  ghost predicate SlotsRefine(goal: Option<SlotsRes>, ev: multiset<Event>, w: World, ss: seq<Slot>, ids: seq<nat>,
                              slot: nat, parent: Frame, st: State, acc: Acc, st': State, acc': Acc)
  {
    if acc'.errors != [] then SlotsGoal(parent.lbl, acc.joined, goal) == None
    else
      && AccOk(parent.lbl, acc')
      && SameSlots(parent.lbl, acc.joined, goal, ev, acc'.joined, DenoteSlots(w, ss))
      && acc'.outputs == acc.outputs + Outputs(ss)
      && acc'.ids == acc.ids + ids && Lists(ids, SlotsIds(ss))
      && SlotsLeft(ss, slot, parent, RowsOf(st), RowsOf(st'))
  }

  lemma {:induction false} RunSlotsRefines(w: World, slots: seq<Step>, slot: nat, value: Value, parent: Frame,
                                           st: State, acc: Acc)
    returns (ev: multiset<Event>, ss: seq<Slot>, ids: seq<nat>)
    requires Fresh(RowsOf(st))
    ensures var (st', acc') := RunSlots(w, slots, slot, value, parent, st, acc);
      && Keeps(RowsOf(st), RowsOf(st')) && st'.emitted == st.emitted + ev
      && (acc.errors != [] ==> acc'.errors != [])
    ensures var (st', acc') := RunSlots(w, slots, slot, value, parent, st, acc);
      AccOk(parent.lbl, acc) ==>
        SlotsRefine(EvalSlots(w, parent.pid, slots, parent.index, slot, value, parent.lbl), ev, w, ss, ids,
                    slot, parent, st, acc, st', acc')
    decreases slots, 0
  {
    if slots == [] {
      ev, ss, ids := multiset{}, [], [];
      assert SlotsIds([]) == {};
    } else {
      var evT, t := RunSlotRefines(w, slots[0], slot, value, parent, st);
      var (st1, r) := RunSlot(w, slots[0], slot, value, parent, st);
      var acc1 := acc.After(parent.lbl, r);
      RunSlotsUnfold(w, slots, slot, value, parent, st, acc);
      var ev1, ss1, ids1 := RunSlotsRefines(w, slots[1..], slot + 1, value, parent, st1, acc1);
      var (st', acc') := RunSlots(w, slots[1..], slot + 1, value, parent, st1, acc1);
      ev, ss, ids := evT + ev1, [SlotAfter(r, t)] + ss1, (if r.Suspended? then r.ids else []) + ids1;
      KeepsTrans(RowsOf(st), RowsOf(st1), RowsOf(st'));
      assert st.emitted + evT + ev1 == st.emitted + (evT + ev1);
      if AccOk(parent.lbl, acc) {
        EvalSlotsUnfold(w, parent.pid, slots, parent.index, slot, value, parent.lbl);
        SlotsRefineCons(SlotGoal(w, parent.pid, parent.index, slot, slots[0], value, parent.lbl),
                        EvalSlots(w, parent.pid, slots[1..], parent.index, slot + 1, value, parent.lbl),
                        evT, ev1, w, t, ss1, ids1, slot, parent, st, acc, st1, r, st', acc');
      }
    }
  }

  lemma SlotsRefineCons(head: Option<Res>, rest: Option<SlotsRes>, evT: multiset<Event>, ev: multiset<Event>,
                        w: World, t: Tree, ss: seq<Slot>, ids: seq<nat>, slot: nat, parent: Frame,
                        st: State, acc: Acc, st1: State, r: Outcome, st': State, acc': Acc)
    requires AccOk(parent.lbl, acc) && Fresh(RowsOf(st)) && Keeps(RowsOf(st1), RowsOf(st'))
    requires Refines(head, evT, st, st1, r, Denote(w, t), t, Some(SlotFrame(parent, slot)))
    requires r.Suspended? ==> t.pid == SlotPid(parent.pid, parent.index, slot)
    requires var acc1 := acc.After(parent.lbl, r);
      && (acc1.errors != [] ==> acc'.errors != [])
      && (AccOk(parent.lbl, acc1) ==>
            SlotsRefine(rest, ev, w, ss, ids, slot + 1, parent, st1, acc1, st', acc'))
    ensures SlotsRefine(ConsSlot(head, rest), evT + ev, w, [SlotAfter(r, t)] + ss,
                        (if r.Suspended? then r.ids else []) + ids, slot, parent, st, acc, st', acc')
  {
    var acc1 := acc.After(parent.lbl, r);
    var more := if r.Suspended? then r.ids else [];
    var s := SlotAfter(r, t);
    AccStep(parent.lbl, acc, r);
    if acc'.errors != [] {
      NoSlotsGoal(parent.lbl, acc, acc1, r, head, evT, Denote(w, t), rest);
    } else {
      assert SameSlots(parent.lbl, acc.joined, ConsSlot(head, rest), evT + ev, acc'.joined,
                       DenoteSlots(w, [s] + ss)) by {
        SameSlotsCons(w, parent.lbl, acc, r, head, evT, t, rest, ev, acc'.joined, ss);
      }
      assert SlotsLeft([s] + ss, slot, parent, RowsOf(st), RowsOf(st')) by {
        SlotsLeftCons(s, ss, slot, parent, RowsOf(st), RowsOf(st1), RowsOf(st'));
      }
      assert Lists(more + ids, SlotsIds([s] + ss)) && acc'.outputs == acc.outputs + Outputs([s] + ss) by {
        ListsCons(s, ss, more, ids, slot, parent, RowsOf(st), RowsOf(st1), RowsOf(st'));
        OutputsCons(acc, acc1, parent.lbl, r, t, ss);
      }
      assert acc.ids + more + ids == acc.ids + (more + ids);
    }
  }

  lemma OutputsCons(acc: Acc, acc1: Acc, incoming: Label, r: Outcome, t: Tree, ss: seq<Slot>)
    requires acc1 == acc.After(incoming, r)
    ensures acc1.outputs + Outputs(ss) == acc.outputs + Outputs([SlotAfter(r, t)] + ss)
  {
    var s := SlotAfter(r, t);
    assert Outputs([s] + ss) == [if s.Settled? then s.output else Null] + Outputs(ss);
  }

  lemma RunSlotsUnfold(w: World, slots: seq<Step>, slot: nat, value: Value, parent: Frame, st: State, acc: Acc)
    requires slots != []
    ensures var (st1, r) := RunSlot(w, slots[0], slot, value, parent, st);
      RunSlots(w, slots, slot, value, parent, st, acc)
      == RunSlots(w, slots[1..], slot + 1, value, parent, st1, acc.After(parent.lbl, r))
  {
  }

  lemma ListsCons(s: Slot, ss: seq<Slot>, more: seq<nat>, ids: seq<nat>, slot: nat, parent: Frame,
                  a: Rows, b: Rows, c: Rows)
    requires Keeps(a, b) && Lists(ids, SlotsIds(ss)) && Lists(more, IdsIn(s))
    requires s.Paused? ==> Stored(s.tree, Some(SlotFrame(parent, slot)), b.store)
    requires SlotsLeft(ss, slot + 1, parent, b, c)
    ensures Lists(more + ids, SlotsIds([s] + ss))
  {
    SlotsIdsCons(s, ss);
    if s.Paused? { StoredIds(s.tree, Some(SlotFrame(parent, slot)), b.store); }
    forall i | i in ids ensures i >= b.next
    {
      var k :| 0 <= k < |ss| && i in IdsIn(ss[k]);
      assert SlotLeft(ss[k].tree, slot + 1 + k, parent, b.next, c);
    }
    var all := more + ids;
    forall i, j | 0 <= i < j < |all| ensures all[i] != all[j]
    {
      if i < |more| <= j {
        assert all[i] in more && all[j] in ids;
      }
    }
  }

  function SlotAfter(r: Outcome, t: Tree): Slot
  {
    match r
    case Done(v, _) => Slot.Settled(v)
    case Suspended(_) => Slot.Paused(t)
    case Failed(_) => Slot.Settled(Null)
  }

  lemma AccStep(incoming: Label, acc: Acc, r: Outcome)
    requires AccOk(incoming, acc)
    ensures var acc1 := acc.After(incoming, r);
      && (acc1.errors == [] ==> AccOk(incoming, acc1))
      && (acc1.errors != [] ==> r.Failed? || (r.Done? && Join(incoming, acc.joined, r.lbl) == Conflict))
  {
  }

  // An error in one slot, or a conflict, is an error of the step.
  lemma NoSlotsGoal(incoming: Label, acc: Acc, acc1: Acc, r: Outcome, head: Option<Res>, ev: multiset<Event>,
                    den: Option<Res>, rest: Option<SlotsRes>)
    requires AccOk(incoming, acc) && acc1 == acc.After(incoming, r)
    requires r.Failed? ==> head == None
    requires r.Done? ==> head == Some(Res(r.value, r.lbl, ev))
    requires acc1.errors == [] ==> SlotsGoal(incoming, acc1.joined, rest) == None
    ensures SlotsGoal(incoming, acc.joined, ConsSlot(head, rest)) == None
  {
    if head.Some? && rest.Some? {
      var l := head.value.lbl;
      var all := ConsSlot(head, rest).value.labels;
      assert all[0] == l && all[1..] == rest.value.labels;
      if acc1.errors != [] {
        JoinConflict(incoming, rest.value.labels);
      } else {
        JoinPush(incoming, acc.joined, l, rest.value.labels);
      }
    }
  }

  lemma SameSlotsCons(w: World, incoming: Label, acc: Acc, r: Outcome, head: Option<Res>, evT: multiset<Event>, t: Tree,
                      rest: Option<SlotsRes>, ev: multiset<Event>, after: Joined, ss: seq<Slot>)
    requires AccOk(incoming, acc) && AccOk(incoming, acc.After(incoming, r))
    requires r.Done? ==> head == Some(Res(r.value, r.lbl, evT))
    requires r.Suspended? ==> head == Plus(evT, Denote(w, t))
    requires SameSlots(incoming, acc.After(incoming, r).joined, rest, ev, after, DenoteSlots(w, ss))
    ensures SameSlots(incoming, acc.joined, ConsSlot(head, rest), evT + ev, after,
                      DenoteSlots(w, [SlotAfter(r, t)] + ss))
  {
    var s := SlotAfter(r, t);
    assert ([s] + ss)[1..] == ss;
    if head.Some? && rest.Some? {
      var l := head.value.lbl;
      var labels := ConsSlot(head, rest).value.labels;
      assert DenoteSlot(w, s).Some?;
      var den := DenoteSlots(w, [s] + ss).value;
      assert labels[0] == l && labels[1..] == rest.value.labels;
      assert den.labels[1..] == DenoteSlots(w, ss).value.labels;
      JoinPush(incoming, acc.joined, l, rest.value.labels);
      JoinPush(incoming, after, den.labels[0], den.labels[1..]);
    }
  }

  lemma SlotsLeftCons(s: Slot, ss: seq<Slot>, slot: nat, parent: Frame, a: Rows, b: Rows, c: Rows)
    requires Fresh(a) && Keeps(a, b) && Keeps(b, c)
    requires if s.Paused? then Leaves(s.tree, Some(SlotFrame(parent, slot)), a, b)
                               && s.tree.pid == SlotPid(parent.pid, parent.index, slot)
             else b.store == a.store
    requires SlotsLeft(ss, slot + 1, parent, b, c)
    ensures SlotsLeft([s] + ss, slot, parent, a, c)
  {
    var all := [s] + ss;
    assert all[1..] == ss;
    forall k | 0 <= k < |all| && all[k].Paused? ensures SlotLeft(all[k].tree, slot + k, parent, a.next, c)
    {
      if k == 0 {
        StoredIds(s.tree, Some(SlotFrame(parent, slot)), b.store);
        StoredFrame(s.tree, Some(SlotFrame(parent, slot)), b.store, c.store);
        ShapeGrows(s.tree, b.next, c.next);
        TidyFrame(s.tree, b.next, b.store, c.store);
      } else {
        assert SlotLeft(ss[k - 1].tree, slot + 1 + (k - 1), parent, b.next, c);
      }
    }
    forall j, k | 0 <= j < k < |all| && all[j].Paused? && all[k].Paused?
      ensures Ids(all[j].tree) !! Ids(all[k].tree)
    {
      assert SlotLeft(ss[k - 1].tree, slot + 1 + (k - 1), parent, b.next, c);
      if j == 0 { StoredIds(s.tree, Some(SlotFrame(parent, slot)), b.store); }
    }
    SlotsIdsCons(s, ss);
  }

  lemma SlotsIdsCons(s: Slot, ss: seq<Slot>)
    ensures SlotsIds([s] + ss) == IdsIn(s) + SlotsIds(ss)
  {
    var all := [s] + ss;
    forall i | i in SlotsIds(all) ensures i in IdsIn(s) + SlotsIds(ss)
    {
      var j :| 0 <= j < |all| && i in IdsIn(all[j]);
      if j > 0 { assert i in IdsIn(ss[j - 1]); }
    }
    forall i | i in IdsIn(s) + SlotsIds(ss) ensures i in SlotsIds(all)
    {
      if i in IdsIn(s) {
        assert i in IdsIn(all[0]);
      } else {
        var j :| 0 <= j < |ss| && i in IdsIn(ss[j]);
        assert i in IdsIn(all[j + 1]);
      }
    }
  }

  lemma {:induction false} RunParallelRefines(w: World, step: Step, value: Value, parent: Frame, st: State)
    returns (ev: multiset<Event>, t: Tree)
    requires Fresh(RowsOf(st)) && parent.progress.Plain? && step.ParallelStep?
    ensures var (st', r) := RunStep(w, step, value, parent, st);
      && Refines(EvalStep(w, parent.pid, step, parent.index, value, parent.lbl), ev, st, st', r,
                 DenoteStep(w, t), t, parent.outer)
      && (r.Suspended? ==> At(t, parent))
    decreases step, -1
  {
    var lbl := parent.lbl;
    var acc0 := Acc([], [], Agreed(lbl), [], false);
    var ss, ids;
    ev, ss, ids := RunSlotsRefines(w, step.slots, 0, value, parent, st, acc0);
    var (st1, acc) := RunSlots(w, step.slots, 0, value, parent, st, acc0);
    var goal := EvalSlots(w, parent.pid, step.slots, parent.index, 0, value, lbl);
    t := ParTree(parent, acc, ss);
    RunParallelUnfold(w, step, value, parent, st);
    ParallelRefines(goal, ev, w, ss, ids, parent, st, acc0, st1, acc);
  }

  // No slot paused: the step is done.
  lemma ParallelDone(goal: Option<SlotsRes>, ev: multiset<Event>, w: World, ss: seq<Slot>, ids: seq<nat>,
                     parent: Frame, st: State, acc0: Acc, st1: State, acc: Acc)
    requires acc0 == Acc([], [], Agreed(parent.lbl), [], false) && acc.errors == [] && acc.ids == []
    requires Keeps(RowsOf(st), RowsOf(st1))
    requires SlotsRefine(goal, ev, w, ss, ids, 0, parent, st, acc0, st1, acc)
    ensures acc.joined.Agreed? && st1.store == st.store
    ensures SlotsGoal(parent.lbl, Agreed(parent.lbl), goal) == Some(Res(Items(acc.outputs), acc.joined.lbl, ev))
  {
    assert acc.ids == ids && acc.outputs == Outputs(ss);
    SameSlotsGoal(parent.lbl, Agreed(parent.lbl), goal, ev, acc.joined, DenoteSlots(w, ss));
    assert SlotsIds(ss) == {};
    AllSettled(w, ss, 0, parent, RowsOf(st), RowsOf(st1), parent.lbl, acc.joined);
    assert st1.store == st.store;
    assert ev + multiset{} == ev;
  }

  lemma ParallelWaits(goal: Option<SlotsRes>, ev: multiset<Event>, w: World, ss: seq<Slot>, parent: Frame, st: State,
                      st1: State, acc: Acc)
    requires Fresh(RowsOf(st)) && parent.progress.Plain? && Keeps(RowsOf(st), RowsOf(st1))
    requires AccOk(parent.lbl, acc) && acc.ids != [] && acc.outputs == Outputs(ss)
    requires SlotsLeft(ss, 0, parent, RowsOf(st), RowsOf(st1)) && Lists(acc.ids, SlotsIds(ss))
    requires SameSlots(parent.lbl, Agreed(parent.lbl), goal, ev, acc.joined, DenoteSlots(w, ss))
    ensures var t := ParTree(parent, acc, ss);
      && SlotsGoal(parent.lbl, Agreed(parent.lbl), goal) == Plus(ev, DenoteStep(w, t))
      && Keeps(RowsOf(st), RowsOf(ParState(parent, st1, acc)))
      && Leaves(t, parent.outer, RowsOf(st), RowsOf(ParState(parent, st1, acc))) && Lists(acc.ids, Ids(t))
  {
    ParallelGoal(goal, ev, w, ss, parent, acc);
    ParallelLeaves(parent, st, st1, acc, ss);
  }

  lemma ParallelGoal(goal: Option<SlotsRes>, ev: multiset<Event>, w: World, ss: seq<Slot>, parent: Frame, acc: Acc)
    requires acc.joined.Agreed?
    requires SameSlots(parent.lbl, Agreed(parent.lbl), goal, ev, acc.joined, DenoteSlots(w, ss))
    ensures SlotsGoal(parent.lbl, Agreed(parent.lbl), goal) == Plus(ev, DenoteStep(w, ParTree(parent, acc, ss)))
  {
    SameSlotsGoal(parent.lbl, Agreed(parent.lbl), goal, ev, acc.joined, DenoteSlots(w, ss));
  }

  lemma ParallelLeaves(parent: Frame, st: State, st1: State, acc: Acc, ss: seq<Slot>)
    requires Fresh(RowsOf(st)) && parent.progress.Plain? && Keeps(RowsOf(st), RowsOf(st1))
    requires AccOk(parent.lbl, acc) && acc.ids != [] && acc.outputs == Outputs(ss)
    requires SlotsLeft(ss, 0, parent, RowsOf(st), RowsOf(st1)) && Lists(acc.ids, SlotsIds(ss))
    ensures var t, c := ParTree(parent, acc, ss), RowsOf(ParState(parent, st1, acc));
      Keeps(RowsOf(st), c) && Leaves(t, parent.outer, RowsOf(st), c) && Lists(acc.ids, Ids(t))
  {
    FillLeaves(parent, acc, ss, RowsOf(st), RowsOf(st1));
  }

  lemma ParallelRefines(goal: Option<SlotsRes>, ev: multiset<Event>, w: World, ss: seq<Slot>, ids: seq<nat>,
                        parent: Frame, st: State, acc0: Acc, st1: State, acc: Acc)
    requires Fresh(RowsOf(st)) && parent.progress.Plain?
    requires acc0 == Acc([], [], Agreed(parent.lbl), [], false)
    requires Keeps(RowsOf(st), RowsOf(st1)) && st1.emitted == st.emitted + ev
    requires SlotsRefine(goal, ev, w, ss, ids, 0, parent, st, acc0, st1, acc)
    ensures acc.joined.Agreed? || acc.errors != []
    ensures var t := ParTree(parent, acc, ss);
      Refines(SlotsGoal(parent.lbl, Agreed(parent.lbl), goal), ev, st, ParState(parent, st1, acc), ParOutcome(acc),
              DenoteStep(w, t), t, parent.outer)
  {
    if acc.errors == [] {
      if acc.ids == [] {
        ParallelDone(goal, ev, w, ss, ids, parent, st, acc0, st1, acc);
      } else {
        assert acc.ids == ids && acc.outputs == Outputs(ss);
        ParallelWaits(goal, ev, w, ss, parent, st, st1, acc);
      }
    }
  }

  function ParState(parent: Frame, st1: State, acc: Acc): State
  {
    if acc.errors == [] && acc.ids != []
    then st1.(store := AmendAll(st1.store, acc.ids, parent.pid, parent.index,
                                FillIn(acc.outputs, acc.ids, acc.joined)).0)
    else st1
  }

  function ParOutcome(acc: Acc): Outcome
    requires acc.joined.Agreed? || acc.errors != []
  {
    if acc.errors != [] then Failed(if |acc.errors| == 1 then acc.errors[0] else Several(|acc.errors|))
    else if acc.ids != [] then Suspended(acc.ids)
    else Done(Items(acc.outputs), acc.joined.lbl)
  }

  lemma RunParallelUnfold(w: World, step: Step, value: Value, parent: Frame, st: State)
    requires step.ParallelStep?
    ensures EvalStep(w, parent.pid, step, parent.index, value, parent.lbl)
         == SlotsGoal(parent.lbl, Agreed(parent.lbl),
                      EvalSlots(w, parent.pid, step.slots, parent.index, 0, value, parent.lbl))
    ensures var (st1, acc) := RunSlots(w, step.slots, 0, value, parent, st, Acc([], [], Agreed(parent.lbl), [], false));
      acc.joined.Agreed? || acc.errors != [] ==>
        RunStep(w, step, value, parent, st)
        == (ParState(parent, st1, acc), ParOutcome(acc))
  {
  }

  function ParTree(parent: Frame, acc: Acc, ss: seq<Slot>): Tree
  {
    Tree(parent.pid, parent.index, parent.remaining,
         if acc.joined.Agreed? then acc.joined.lbl else parent.lbl, InSlots(parent.lbl, acc.ids, ss))
  }

  lemma SameSlotsGoal(incoming: Label, before: Joined, goal: Option<SlotsRes>, ev: multiset<Event>, after: Joined,
                      rest: Option<SlotsRes>)
    requires SameSlots(incoming, before, goal, ev, after, rest)
    ensures SlotsGoal(incoming, before, goal) == Plus(ev, SlotsGoal(incoming, after, rest))
  {
  }

  lemma {:induction false} SomeId(t: Tree, next: nat) returns (i: nat)
    requires Shape(t, next)
    ensures i in Ids(t)
    decreases t
  {
    match t.hole
    case Leaf(id, _, _) => i := id;
    case InMap(id, _, _, _, _) => i := id;
    case InArm(arm) => i := SomeId(arm, next);
    case InSlots(_, _, slots) =>
      var j :| 0 <= j < |slots| && slots[j].Paused?;
      i := SomeId(slots[j].tree, next);
      assert i in IdsIn(slots[j]);
  }

  // A paused slot has left a checkpoint behind ...
  lemma PausedHasIds(ss: seq<Slot>, k: nat, slot: nat, parent: Frame, a: Rows, b: Rows)
    requires SlotsLeft(ss, slot, parent, a, b) && k < |ss|
    ensures ss[k].Paused? ==> IdsIn(ss[k]) != {} && IdsIn(ss[k]) <= SlotsIds(ss)
  {
    if ss[k].Paused? {
      assert SlotLeft(ss[k].tree, slot + k, parent, a.next, b);
      var i := SomeId(ss[k].tree, b.next);
      assert i in IdsIn(ss[k]);
    }
  }

  // ... so with none left behind, every slot has settled.
  lemma AllSettled(w: World, ss: seq<Slot>, slot: nat, parent: Frame, a: Rows, b: Rows, incoming: Label, joined: Joined)
    requires SlotsLeft(ss, slot, parent, a, b) && SlotsIds(ss) == {}
    ensures DenoteSlots(w, ss).Some?
    ensures SlotsGoal(incoming, joined, DenoteSlots(w, ss))
         == if joined.Conflict? then None else Some(Res(Items(Outputs(ss)), joined.lbl, multiset{}))
  {
    forall k | 0 <= k < |ss| ensures ss[k].Settled? { PausedHasIds(ss, k, slot, parent, a, b); }
    SettledSlots(w, ss, incoming, joined);
  }

  lemma {:induction false} SettledSlots(w: World, ss: seq<Slot>, incoming: Label, joined: Joined)
    requires forall k :: 0 <= k < |ss| ==> ss[k].Settled?
    ensures DenoteSlots(w, ss).Some?
    ensures DenoteSlots(w, ss).value.values == Outputs(ss) && DenoteSlots(w, ss).value.events == multiset{}
    ensures JoinAll(incoming, joined, DenoteSlots(w, ss).value.labels) == joined
    decreases ss
  {
    if ss != [] {
      SettledSlots(w, ss[1..], incoming, joined);
      assert ss[0].Settled?;
      assert DenoteSlot(w, ss[0]) == Some(Res(ss[0].output, None, multiset{}));
      var r, rest := DenoteSlots(w, ss).value, DenoteSlots(w, ss[1..]).value;
      assert r.labels[1..] == rest.labels && r.labels[0] == None;
      assert Outputs(ss) == [ss[0].output] + Outputs(ss[1..]);
    }
  }

  // Filling in the sibling data turns the slots' trees into one tree.
  lemma FillLeaves(parent: Frame, acc: Acc, ss: seq<Slot>, a: Rows, b: Rows)
    requires parent.progress.Plain? && AccOk(parent.lbl, acc) && acc.ids != [] && acc.outputs == Outputs(ss)
    requires Fresh(a) && Keeps(a, b) && SlotsLeft(ss, 0, parent, a, b) && Lists(acc.ids, SlotsIds(ss))
    ensures var t, u := ParTree(parent, acc, ss), FillIn(acc.outputs, acc.ids, acc.joined);
      var c := Rows(AmendAll(b.store, acc.ids, parent.pid, parent.index, u).0, b.next);
      Keeps(a, c) && Leaves(t, parent.outer, a, c) && Lists(acc.ids, Ids(t))
  {
    var t, u := ParTree(parent, acc, ss), FillIn(acc.outputs, acc.ids, acc.joined);
    var c := Rows(AmendAll(b.store, acc.ids, parent.pid, parent.index, u).0, b.next);
    AmendAllRows(b.store, acc.ids, parent.pid, parent.index, u);
    forall i | i in acc.ids ensures a.next <= i < b.next
    {
      var k :| 0 <= k < |ss| && i in IdsIn(ss[k]);
      assert SlotLeft(ss[k].tree, 0 + k, parent, a.next, b);
    }
    FillShape(parent, acc, ss, a, b);
    forall k | 0 <= k < |ss| && ss[k].Paused?
      ensures Stored(ss[k].tree, Some(SlotFrameOf(t, k, parent.outer)), c.store) && Tidy(ss[k].tree, c.store)
    {
      assert SlotLeft(ss[k].tree, 0 + k, parent, a.next, b);
      FillSlot(t, ss[k].tree, k, parent, acc, ss, b, c, u);
      TidyFrame(ss[k].tree, b.next, b.store, c.store);
    }
    assert Stored(t, parent.outer, c.store);
    assert Tidy(t, c.store);
  }

  lemma FillShape(parent: Frame, acc: Acc, ss: seq<Slot>, a: Rows, b: Rows)
    requires parent.progress.Plain? && AccOk(parent.lbl, acc) && acc.ids != []
    requires SlotsLeft(ss, 0, parent, a, b) && Lists(acc.ids, SlotsIds(ss))
    requires forall i :: i in acc.ids ==> i < b.next
    ensures Shape(ParTree(parent, acc, ss), b.next) && AllListed(ParTree(parent, acc, ss))
  {
    var t := ParTree(parent, acc, ss);
    forall k | 0 <= k < |ss| && ss[k].Paused?
      ensures ss[k].tree.pid == SlotPid(t.pid, t.index, k) && Shape(ss[k].tree, b.next) && AllListed(ss[k].tree)
    {
      assert SlotLeft(ss[k].tree, 0 + k, parent, a.next, b);
    }
    assert exists k :: 0 <= k < |ss| && ss[k].Paused? by {
      assert acc.ids[0] in SlotsIds(ss);
      var k :| 0 <= k < |ss| && acc.ids[0] in IdsIn(ss[k]);
      assert ss[k].Paused?;
    }
  }

  lemma FillSlot(t: Tree, sub: Tree, k: nat, parent: Frame, acc: Acc, ss: seq<Slot>, b: Rows, c: Rows, u: Update)
    requires parent.progress.Plain? && acc.joined.Agreed? && acc.outputs == Outputs(ss)
    requires t == ParTree(parent, acc, ss) && u == FillIn(acc.outputs, acc.ids, acc.joined)
    requires k < |ss| && ss[k] == Slot.Paused(sub) && Lists(acc.ids, SlotsIds(ss))
    requires SlotLeft(sub, k, parent, 0, b)
    requires forall i :: i in b.store && i in acc.ids ==>
      i in c.store && c.store[i] == AmendOne(b.store, i, parent.pid, parent.index, u)[i]
    ensures Stored(sub, Some(SlotFrameOf(t, k, parent.outer)), c.store)
  {
    var f, f' := SlotFrame(parent, k), SlotFrameOf(t, k, parent.outer);
    assert Amend(f, parent.pid, parent.index, u) == Some(f');
    forall i | i in Ids(sub) && i in b.store
      ensures && i in c.store && Amend(b.store[i].parent, parent.pid, parent.index, u).Some?
              && c.store[i] == b.store[i].(parent := Amend(b.store[i].parent, parent.pid, parent.index, u).value)
    {
      assert i in IdsIn(ss[k]);
      ChainReaches(sub, b.next, f, parent.pid, parent.index, u, b.store, i);
    }
    AmendStored(sub, b.next, f, f', parent.pid, parent.index, u, b.store, c.store);
  }
}
