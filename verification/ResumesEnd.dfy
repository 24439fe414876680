/**
  Resuming comes to an end, and after exactly as many resumes as the agent runs of plain
  evaluation pause in all. The measure is the load of the store: how often its rows will
  still be resumed. Beginning an agent run adds its pauses to it, and a resume takes one off.
*/
module ResumesEnd {
  import opened Wrappers
  import opened PipelineModel
  import opened PipelineMachine
  import opened RunRefinement
  import opened PipelineMeaning

  // The pauses of the agent runs from the from-th to before the to-th.
  function PauseSum(w: World, from: nat, to: nat): nat
  {
    if to <= from then 0 else PauseSum(w, from, to - 1) + w.pauses(to - 1)
  }

  lemma {:induction false} PauseSumSplit(w: World, a: nat, b: nat, c: nat)
    requires a <= b <= c
    ensures PauseSum(w, a, c) == PauseSum(w, a, b) + PauseSum(w, b, c)
    decreases c
  {
    if b < c { PauseSumSplit(w, a, b, c - 1); }
  }

  // ------------------------------------------------------------------ the load

  // How often the rows below n will still be resumed.
  function LoadBelow(store: map<nat, Checkpoint>, n: nat): nat
  {
    if n == 0 then 0
    else LoadBelow(store, n - 1) + if n - 1 in store then store[n - 1].pauses + 1 else 0
  }

  function Load(a: Rows): nat { LoadBelow(a.store, a.next) }

  // Two stores with the same rows and the same pauses left have the same load.
  ghost predicate SamePauses(s: map<nat, Checkpoint>, s': map<nat, Checkpoint>)
  {
    s.Keys == s'.Keys && forall i :: i in s ==> s[i].pauses == s'[i].pauses
  }

  lemma {:induction false} SameLoad(s: map<nat, Checkpoint>, s': map<nat, Checkpoint>, n: nat)
    requires forall i :: i < n ==> (i in s <==> i in s') && (i in s ==> s[i].pauses == s'[i].pauses)
    ensures LoadBelow(s, n) == LoadBelow(s', n)
  {
    if n > 0 { SameLoad(s, s', n - 1); }
  }

  lemma {:induction false} LoadWithout(s: map<nat, Checkpoint>, n: nat, id: nat)
    requires id in s && id < n
    ensures LoadBelow(s - {id}, n) + s[id].pauses + 1 == LoadBelow(s, n)
  {
    if id == n - 1 { SameLoad(s, s - {id}, n - 1); } else { LoadWithout(s, n - 1, id); }
  }

  lemma LoadWith(a: Rows, cp: Checkpoint)
    ensures Load(Rows(a.store[a.next := cp], a.next + 1)) == Load(a) + cp.pauses + 1
  {
    SameLoad(a.store, a.store[a.next := cp], a.next);
  }

  // A store that holds more rows than another, and those unchanged, has more load.
  lemma {:induction false} LoadAbove(s: map<nat, Checkpoint>, s': map<nat, Checkpoint>, n: nat)
    requires forall i :: i < n && i in s ==> i in s' && s'[i].pauses == s[i].pauses
    ensures LoadBelow(s, n) <= LoadBelow(s', n)
    ensures (exists i :: i < n && i in s' && i !in s) ==> LoadBelow(s, n) < LoadBelow(s', n)
  {
    if n > 0 { LoadAbove(s, s', n - 1); }
  }

  // Rows beyond the ids handed out do not exist.
  lemma {:induction false} LoadFurther(s: map<nat, Checkpoint>, n: nat, m: nat)
    requires n <= m && forall i :: i in s ==> i < n
    ensures LoadBelow(s, n) == LoadBelow(s, m)
  {
    if n < m { LoadFurther(s, n, m - 1); }
  }

  // ------------------------------------------------------------ counting runs

  // How many agent runs were begun.
  ghost function RanIn(ev: multiset<Event>): nat
    decreases |ev|
  {
    if ev == multiset{} then 0
    else
      var e :| e in ev;
      RanIn(ev - multiset{e}) + if e.Ran? then 1 else 0
  }

  lemma {:induction false} RanTake(ev: multiset<Event>, e: Event)
    requires e in ev
    ensures RanIn(ev) == RanIn(ev - multiset{e}) + if e.Ran? then 1 else 0
    decreases |ev|
  {
    var f :| f in ev && RanIn(ev) == RanIn(ev - multiset{f}) + if f.Ran? then 1 else 0;
    if f != e {
      RanTake(ev - multiset{f}, e);
      RanTake(ev - multiset{e}, f);
      assert ev - multiset{f} - multiset{e} == ev - multiset{e} - multiset{f};
    }
  }

  lemma RanAdd(ev: multiset<Event>, e: Event)
    ensures RanIn(ev + multiset{e}) == RanIn(ev) + if e.Ran? then 1 else 0
  {
    RanTake(ev + multiset{e}, e);
    assert ev + multiset{e} - multiset{e} == ev;
  }

  lemma {:induction false} RanSum(a: multiset<Event>, b: multiset<Event>)
    ensures RanIn(a + b) == RanIn(a) + RanIn(b)
    decreases |b|
  {
    if b == multiset{} {
      assert a + b == a;
    } else {
      var e :| e in b;
      RanSum(a, b - multiset{e});
      RanTake(b, e);
      RanAdd(a + (b - multiset{e}), e);
      assert a + b == a + (b - multiset{e}) + multiset{e};
    }
  }

  // ------------------------------------------------- what running on does to it

  // From a to b the load has grown by the pauses of the runs begun in between.
  ghost predicate Rises(w: World, a: State, b: State)
  {
    && Fresh(RowsOf(b)) && a.next <= b.next && a.runs <= b.runs && a.emitted <= b.emitted
    && Load(RowsOf(b)) == Load(RowsOf(a)) + PauseSum(w, a.runs, b.runs)
    && RanIn(b.emitted) == RanIn(a.emitted) + (b.runs - a.runs)
  }

  lemma RisesThen(w: World, a: State, b: State, c: State)
    requires Rises(w, a, b) && Rises(w, b, c)
    ensures Rises(w, a, c)
  {
    PauseSumSplit(w, a.runs, b.runs, c.runs);
  }

  lemma RisesNot(w: World, a: State)
    requires Fresh(RowsOf(a))
    ensures Rises(w, a, a)
  {
  }

  lemma EmitRises(w: World, a: State, e: Event)
    requires Fresh(RowsOf(a)) && !e.Ran?
    ensures Rises(w, a, a.Emit(e))
  {
    RanAdd(a.emitted, e);
  }

  lemma RunAgentRises(w: World, call: Call, parent: Frame, st: State)
    requires Fresh(RowsOf(st))
    ensures Rises(w, st, RunAgent(w, call, parent, st).0)
  {
    var p := w.pauses(st.runs);
    RanAdd(st.emitted, Ran(call));
    OneRun(w, st.runs);
    if p > 0 { LoadWith(RowsOf(st), Checkpoint(call, p - 1, parent)); }
  }

  lemma OneRun(w: World, k: nat)
    ensures PauseSum(w, k, k + 1) == w.pauses(k)
  {
    assert PauseSum(w, k, k) == 0;
  }

  lemma {:induction false} RunItemsRises(w: World, agentId: string, items: seq<Value>, results: seq<Value>,
                                         parent: Frame, st: State)
    requires Fresh(RowsOf(st))
    ensures Rises(w, st, RunItems(w, agentId, items, results, parent, st).0)
    decreases items
  {
    if items == [] {
      RisesNot(w, st);
    } else {
      var frame := parent.(progress := Mapping(agentId, results, items[1..]));
      var (st1, r) := RunAgent(w, Call(agentId, None, items[0]), frame, st);
      RunAgentRises(w, Call(agentId, None, items[0]), frame, st);
      if r.Done? {
        RunItemsRises(w, agentId, items[1..], results + [r.value], parent, st1);
        RisesThen(w, st, st1, RunItems(w, agentId, items, results, parent, st).0);
      }
    }
  }

  lemma {:induction false} AmendPauses(s: map<nat, Checkpoint>, ids: seq<nat>, pid: Pid, index: nat, u: Update)
    ensures SamePauses(s, AmendAll(s, ids, pid, index, u).0)
    decreases ids
  {
    if ids != [] && !Clashes(s, ids[0], pid, index, u) {
      AmendPauses(AmendOne(s, ids[0], pid, index, u), ids[1..], pid, index, u);
    }
  }

  lemma AmendRises(w: World, st: State, ids: seq<nat>, pid: Pid, index: nat, u: Update)
    requires Fresh(RowsOf(st))
    ensures Rises(w, st, st.(store := AmendAll(st.store, ids, pid, index, u).0))
  {
    AmendPauses(st.store, ids, pid, index, u);
    SameLoad(st.store, AmendAll(st.store, ids, pid, index, u).0, st.next);
  }

  lemma {:induction false} RunRises(w: World, pid: Pid, steps: seq<Step>, base: nat, value: Value, lbl: Label,
                                    outer: Option<Frame>, st: State)
    requires Fresh(RowsOf(st))
    ensures Rises(w, st, Run(w, pid, steps, base, value, lbl, outer, st).0)
    decreases steps, 2
  {
    if steps == [] {
      RisesNot(w, st);
    } else {
      var frame := Frame(pid, base, steps[1..], lbl, Plain, outer);
      var (st1, r) := Turn(w, steps[0], value, frame, st);
      TurnRises(w, steps[0], value, frame, st);
      if r.Done? {
        var next := Next(steps[0], value, r.value);
        RunRises(w, pid, steps[1..], base + 1, next, r.lbl, outer, st1);
        RisesThen(w, st, st1, Run(w, pid, steps[1..], base + 1, next, r.lbl, outer, st1).0);
      }
    }
  }

  lemma {:induction false} TurnRises(w: World, step: Step, value: Value, parent: Frame, st: State)
    requires Fresh(RowsOf(st))
    ensures Rises(w, st, Turn(w, step, value, parent, st).0)
    decreases step, 1
  {
    var st0 := st.Emit(Started(parent.pid, parent.index));
    var (st1, r) := RunStep(w, step, value, parent, st0);
    EmitRises(w, st, Started(parent.pid, parent.index));
    RunStepRises(w, step, value, parent, st0);
    RisesThen(w, st, st0, st1);
    if r.Done? {
      EmitRises(w, st1, Ended(parent.pid, parent.index, r.value));
      RisesThen(w, st, st1, st1.Emit(Ended(parent.pid, parent.index, r.value)));
    }
  }

  lemma {:induction false} RunStepRises(w: World, step: Step, value: Value, parent: Frame, st: State)
    requires Fresh(RowsOf(st))
    ensures Rises(w, st, RunStep(w, step, value, parent, st).0)
    decreases step, 0
  {
    match step
    case AgentStep(agentId, skill) => RunAgentRises(w, Call(agentId, skill, value), parent, st);
    case MapStep(agentId) => RunItemsRises(w, agentId, AsItems(value), [], parent, st);
    case DecisionStep(_) => RisesNot(w, st);
    case BranchStep(on, cases, otherwise) => RunBranchRises(w, step, value, parent, st);
    case ParallelStep(slots) => RunParallelRises(w, step, value, parent, st);
  }

  lemma {:induction false} RunBranchRises(w: World, step: Step, value: Value, parent: Frame, st: State)
    requires step.BranchStep? && Fresh(RowsOf(st))
    ensures Rises(w, st, RunStep(w, step, value, parent, st).0)
    decreases step, 0, 0
  {
    RisesNot(w, st);
    if step.otherwise.Default? && SelectArm(w, step, value, parent.lbl).Chosen? {
      var k := SelectArm(w, step, value, parent.lbl).caseIndex;
      var taken := if k >= 0 then step.cases[k].arm else step.otherwise.arm;
      var st0 := st.Emit(Took(parent.pid, parent.index, k));
      EmitRises(w, st, Took(parent.pid, parent.index, k));
      if taken != [] {
        var sub := ArmPid(parent.pid, parent.index);
        RunRises(w, sub, taken, 0, value, parent.lbl, Some(parent), st0);
        RisesThen(w, st, st0, Run(w, sub, taken, 0, value, parent.lbl, Some(parent), st0).0);
      }
    }
  }

  lemma {:induction false} RunParallelRises(w: World, step: Step, value: Value, parent: Frame, st: State)
    requires step.ParallelStep? && Fresh(RowsOf(st))
    ensures Rises(w, st, RunStep(w, step, value, parent, st).0)
    decreases step, 0, 0
  {
    var acc0 := Acc([], [], Agreed(parent.lbl), [], false);
    var (st1, acc) := RunSlots(w, step.slots, 0, value, parent, st, acc0);
    RunSlotsRises(w, step.slots, 0, value, parent, st, acc0);
    if acc.errors == [] && acc.ids != [] {
      var u := FillIn(acc.outputs, acc.ids, acc.joined);
      AmendRises(w, st1, acc.ids, parent.pid, parent.index, u);
      RisesThen(w, st, st1, st1.(store := AmendAll(st1.store, acc.ids, parent.pid, parent.index, u).0));
    }
  }

  lemma {:induction false} RunSlotsRises(w: World, slots: seq<Step>, slot: nat, value: Value, parent: Frame, st: State,
                                         acc: Acc)
    requires Fresh(RowsOf(st))
    ensures Rises(w, st, RunSlots(w, slots, slot, value, parent, st, acc).0)
    decreases slots, 0
  {
    if slots == [] {
      RisesNot(w, st);
    } else {
      var frame := SlotStepFrame(parent, slot);
      var (st1, r) := Turn(w, slots[0], value, frame, st);
      TurnRises(w, slots[0], value, frame, st);
      RunSlotsRises(w, slots[1..], slot + 1, value, parent, st1, acc.After(parent.lbl, r));
      RisesThen(w, st, st1, RunSlots(w, slots[1..], slot + 1, value, parent, st1, acc.After(parent.lbl, r)).0);
    }
  }

  lemma {:induction false} ContinueRises(w: World, parent: Option<Frame>, output: Value, handed: Label, st: State)
    requires Fresh(RowsOf(st))
    ensures Rises(w, st, Continue(w, parent, output, handed, st).0)
    decreases Depth(parent), 0
  {
    RisesNot(w, st);
    if parent.Some? {
      var f := parent.value;
      match f.progress
      case Plain => CloseRises(w, f.(lbl := Adopt(f.lbl, handed)), output, st);
      case Mapping(agentId, settled, remaining) =>
        var g := f.(lbl := Adopt(f.lbl, handed));
        var (st1, r) := RunItems(w, agentId, remaining, settled + [output], g, st);
        RunItemsRises(w, agentId, remaining, settled + [output], g, st);
        if r.Done? {
          CloseRises(w, g, r.value, st1);
          RisesThen(w, st, st1, Close(w, g, r.value, st1).0);
        }
      case InSlot(slot, settled, pending, incoming) =>
        var joined := Join(incoming, Agreed(f.lbl), handed);
        if joined.Agreed? && pending != [] {
          var still := StillStored(pending, st.store);
          if still == [] {
            CloseRises(w, f.(lbl := joined.lbl), Items(SetAt(settled, slot, output)), st);
          } else {
            AmendRises(w, st, still, f.pid, f.index, SettleSlot(slot, output, joined.lbl));
          }
        }
    }
  }

  lemma {:induction false} CloseRises(w: World, f: Frame, output: Value, st: State)
    requires Fresh(RowsOf(st))
    ensures Rises(w, st.Emit(Ended(f.pid, f.index, output)), Close(w, f, output, st).0)
    ensures Rises(w, st, Close(w, f, output, st).0)
    decreases Depth(f.outer), 1
  {
    var st0 := st.Emit(Ended(f.pid, f.index, output));
    var (st1, r) := Run(w, f.pid, f.remaining, f.index + 1, output, f.lbl, f.outer, st0);
    EmitRises(w, st, Ended(f.pid, f.index, output));
    RunRises(w, f.pid, f.remaining, f.index + 1, output, f.lbl, f.outer, st0);
    if r.Done? {
      ContinueRises(w, f.outer, r.value, r.lbl, st1);
      RisesThen(w, st0, st1, Continue(w, f.outer, r.value, r.lbl, st1).0);
    }
    RisesThen(w, st, st0, Close(w, f, output, st).0);
  }

  // A resume takes one off the load, whatever it goes on to do.
  ghost predicate Spends(w: World, a: State, n: nat, b: State)
  {
    && Fresh(RowsOf(b)) && a.next <= b.next && a.runs <= b.runs
    && Load(RowsOf(b)) + n == Load(RowsOf(a)) + PauseSum(w, a.runs, b.runs)
    && RanIn(b.emitted) == RanIn(a.emitted) + (b.runs - a.runs)
  }

  lemma ResumeSpends(w: World, id: nat, st: State)
    requires Fresh(RowsOf(st)) && id in st.store
    ensures Spends(w, st, 1, Resume(w, id, st).0)
  {
    var cp, taken := st.store[id], st.(store := st.store - {id});
    LoadWithout(st.store, st.next, id);
    if cp.pauses > 0 {
      LoadWith(RowsOf(taken), Checkpoint(cp.call, cp.pauses - 1, cp.parent));
    } else if w.run(cp.call).Some? {
      ContinueRises(w, Some(cp.parent), w.run(cp.call).value, None, taken);
    }
  }

  // Every resume of the play is of a stored row.
  ghost predicate Present(w: World, ids: seq<nat>, st: State)
    decreases ids
  {
    ids != [] ==>
      ids[0] in st.store && (Resume(w, ids[0], st).1.Suspended? ==> Present(w, ids[1..], Resume(w, ids[0], st).0))
  }

  lemma {:induction false} CarefulPresent(w: World, ids: seq<nat>, st: State, others: set<nat>)
    requires Careful(w, ids, st, others) || PausesAlone(w, ids, st, others)
    ensures Present(w, ids, st)
    decreases ids
  {
    if ids != [] && Resume(w, ids[0], st).1.Suspended? {
      CarefulPresent(w, ids[1..], Resume(w, ids[0], st).0, others);
    }
  }

  lemma {:induction false} PlaySpends(w: World, ids: seq<nat>, st: State) returns (used: nat)
    requires Fresh(RowsOf(st)) && Present(w, ids, st)
    ensures used <= |ids| && (Play(w, ids, st).1.Suspended? ==> used == |ids|)
    ensures Spends(w, st, used, Play(w, ids, st).0)
    decreases ids
  {
    if ids == [] {
      used := 0;
    } else {
      var (st1, r) := Resume(w, ids[0], st);
      ResumeSpends(w, ids[0], st);
      used := 1;
      if r.Suspended? {
        var more := PlaySpends(w, ids[1..], st1);
        PauseSumSplit(w, st.runs, st1.runs, Play(w, ids[1..], st1).0.runs);
        used := 1 + more;
      }
    }
  }

  // ----------------------------------------------------------------- the result

  // All the pauses of the agent runs that plain evaluation begins.
  ghost function AllPauses(w: World, st0: State, goal: Res): nat
  {
    PauseSum(w, st0.runs, st0.runs + RanIn(goal.events))
  }

  // A run that has ended has used up its pauses ...
  lemma DoneHasSpent(w: World, st0: State, st: State, goal: Res, used: nat)
    requires Fresh(RowsOf(st0)) && Spends(w, st0, used, st)
    requires st.emitted == st0.emitted + goal.events && st.store == st0.store
    ensures used == AllPauses(w, st0, goal)
  {
    RanSum(st0.emitted, goal.events);
    LoadFurther(st0.store, st0.next, st.next);
  }

  // ... and one that still has a checkpoint has not.
  lemma WaitingHasNot(w: World, st0: State, st: State, goal: Res, used: nat, id: nat)
    requires Fresh(RowsOf(st0)) && Spends(w, st0, used, st) && st.emitted <= st0.emitted + goal.events
    requires id in st.store && id !in st0.store
    requires forall i :: i in st0.store ==> i in st.store && st.store[i] == st0.store[i]
    ensures used < AllPauses(w, st0, goal)
  {
    MoreLoad(RowsOf(st0), RowsOf(st), id);
    FewerRan(st0.emitted, goal.events, st.emitted);
    PauseSumSplit(w, st0.runs, st.runs, st0.runs + RanIn(goal.events));
  }

  lemma MoreLoad(a: Rows, b: Rows, id: nat)
    requires Fresh(a) && Fresh(b) && a.next <= b.next && id in b.store && id !in a.store
    requires forall i :: i in a.store ==> i in b.store && b.store[i] == a.store[i]
    ensures Load(a) < Load(b)
  {
    LoadFurther(a.store, a.next, b.next);
    LoadAbove(a.store, b.store, b.next);
  }

  lemma FewerRan(had: multiset<Event>, more: multiset<Event>, emitted: multiset<Event>)
    requires emitted <= had + more
    ensures RanIn(emitted) <= RanIn(had) + RanIn(more)
  {
    var rest := had + more - emitted;
    assert emitted + rest == had + more;
    RanSum(emitted, rest);
    RanSum(had, more);
  }

  lemma EndsWhenSpent(w: World, st0: State, st: State, r: Outcome, goal: Res, used: nat)
    requires Fresh(RowsOf(st0)) && Spends(w, st0, used, st) && SameMeaning(Some(goal), st0, st, r)
    ensures r.Done? ==> used == AllPauses(w, st0, goal)
    ensures r.Suspended? ==> used < AllPauses(w, st0, goal)
  {
    match r
    case Done(_, _) => DoneHasSpent(w, st0, st, goal, used);
    case Suspended(_) =>
      var id :| id in st.store && id !in st0.store;
      WaitingHasNot(w, st0, st, goal, used, id);
    case Failed(_) =>
  }

  // A run and the resumes after it spend together what the run has brought.
  lemma RunThenSpends(w: World, a: State, b: State, used: nat, c: State)
    requires Rises(w, a, b) && Spends(w, b, used, c)
    ensures Spends(w, a, used, c)
  {
    PauseSumSplit(w, a.runs, b.runs, c.runs);
  }

  // A run, and the resumes after it if it pauses.
  function RunAndResume(w: World, pid: Pid, steps: seq<Step>, value: Value, lbl: Label, ids: seq<nat>, st0: State)
    : (State, Outcome)
  {
    var (st1, r1) := Run(w, pid, steps, 0, value, lbl, None, st0);
    if r1.Suspended? then Play(w, ids, st1) else (st1, r1)
  }

  lemma EndsAfter(w: World, pid: Pid, steps: seq<Step>, value: Value, lbl: Label, st0: State, ids: seq<nat>, goal: Res)
    requires Fresh(RowsOf(st0))
    requires Run(w, pid, steps, 0, value, lbl, None, st0).1.Suspended? ==>
      Present(w, ids, Run(w, pid, steps, 0, value, lbl, None, st0).0)
    requires SameMeaning(Some(goal), st0, RunAndResume(w, pid, steps, value, lbl, ids, st0).0,
                         RunAndResume(w, pid, steps, value, lbl, ids, st0).1)
    ensures EndsInTime(w, Some(goal), st0, |ids|, RunAndResume(w, pid, steps, value, lbl, ids, st0).1)
  {
    var (st1, r1) := Run(w, pid, steps, 0, value, lbl, None, st0);
    RunRises(w, pid, steps, 0, value, lbl, None, st0);
    if r1.Suspended? {
      var used := PlaySpends(w, ids, st1);
      RunThenSpends(w, st0, st1, used, Play(w, ids, st1).0);
      EndsWhenSpent(w, st0, Play(w, ids, st1).0, Play(w, ids, st1).1, goal, used);
    } else {
      EndsWhenSpent(w, st0, st1, r1, goal, 0);
    }
  }

  // Done once the pauses are used up, and waiting before.
  ghost predicate EndsInTime(w: World, goal: Option<Res>, st0: State, n: nat, r: Outcome)
  {
    goal.Some? ==>
      if n >= AllPauses(w, st0, goal.value) then r == Done(goal.value.value, goal.value.lbl) else r.Suspended?
  }

  /**
    The main theorem. Run a pipeline and resume its checkpoints one by one, in any careful
    order. What comes of it is what plain evaluation demands; and whenever plain evaluation
    succeeds the run ends with its value and label, exactly when as many resumes have been
    made as the agent runs of plain evaluation pause in all.
  */
  lemma PausesPreserveMeaning(w: World, pid: Pid, steps: seq<Step>, value: Value, lbl: Label, st0: State, ids: seq<nat>)
    requires Fresh(RowsOf(st0))
    requires var (st1, r1) := Run(w, pid, steps, 0, value, lbl, None, st0);
      r1.Suspended? ==> Careful(w, ids, st1, st0.store.Keys)
    ensures var (st', r) := RunAndResume(w, pid, steps, value, lbl, ids, st0);
      var goal := Eval(w, pid, steps, 0, value, lbl);
      SameMeaning(goal, st0, st', r) && EndsInTime(w, goal, st0, |ids|, r)
  {
    var (st1, r1) := Run(w, pid, steps, 0, value, lbl, None, st0);
    var goal := Eval(w, pid, steps, 0, value, lbl);
    PausesSameMeaning(w, pid, steps, value, lbl, st0, ids);
    if r1.Suspended? { CarefulPresent(w, ids, st1, st0.store.Keys); }
    if goal.Some? { EndsAfter(w, pid, steps, value, lbl, st0, ids, goal.value); }
  }

  // The same under the documented limit alone.
  lemma RepausesAlonePreserveMeaning(w: World, pid: Pid, steps: seq<Step>, value: Value, lbl: Label, st0: State,
                                     ids: seq<nat>)
    requires Fresh(RowsOf(st0))
    requires var (st1, r1) := Run(w, pid, steps, 0, value, lbl, None, st0);
      r1.Suspended? && PausesAlone(w, ids, st1, st0.store.Keys)
    ensures var (st', r) := RunAndResume(w, pid, steps, value, lbl, ids, st0);
      var goal := Eval(w, pid, steps, 0, value, lbl);
      SameMeaning(goal, st0, st', r) && EndsInTime(w, goal, st0, |ids|, r)
  {
    var st1 := Run(w, pid, steps, 0, value, lbl, None, st0).0;
    var goal := Eval(w, pid, steps, 0, value, lbl);
    RepausesAloneSameMeaning(w, pid, steps, value, lbl, st0, ids);
    CarefulPresent(w, ids, st1, st0.store.Keys);
    if goal.Some? { EndsAfter(w, pid, steps, value, lbl, st0, ids, goal.value); }
  }
}
