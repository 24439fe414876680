/**
  Pausing and resuming preserve what a pipeline means: the main theorems about whole
  runs, stated on the store a caller can see.
*/
module PipelineMeaning {
  import opened Wrappers
  import opened PipelineModel
  import opened PipelineMachine
  import opened SuspendedTree
  import opened RunRefinement
  import opened ResumeRefinement

  // ------------------------------------------- what a caller sees in the store

  // The frames of a checkpoint, innermost first.
  ghost predicate OnChain(g: Frame, f: Frame)
    decreases f
  {
    g == f || (f.outer.Some? && OnChain(g, f.outer.value))
  }

  // Two rows wait in different slots of the same parallel step.
  ghost predicate Beside(g: Frame, f: Frame, h: Frame, f': Frame)
  {
    && OnChain(g, f) && OnChain(h, f')
    && g.progress.InSlot? && h.progress.InSlot?
    && g.pid == h.pid && g.index == h.index && g.progress.slot != h.progress.slot
  }

  /**
    The condition of a safe resume: every row that waits beside `id` in some parallel
    step is on the pendingCheckpointIds of id's frame for that step.
  */
  ghost predicate SiblingsNamed(store: map<nat, Checkpoint>, id: nat)
    requires id in store
  {
    forall i, g, h :: i in store && Beside(g, store[id].parent, h, store[i].parent) ==> i in g.progress.pending
  }

  // A row made at or after `from` waits beside an older one.
  ghost predicate MixedRows(store: map<nat, Checkpoint>, from: nat)
  {
    exists i, i', g, h :: i in store && i' in store && i >= from > i' && Beside(g, store[i].parent, h, store[i'].parent)
  }

  lemma {:induction false} ChainThrough(t: Tree, outer: Frame, store: map<nat, Checkpoint>, g: Frame)
    requires Stored(t, Some(outer), store) && OnChain(g, outer)
    ensures forall i :: i in Ids(t) ==> i in store && OnChain(g, store[i].parent)
    decreases t
  {
    match t.hole
    case Leaf(_, _, _) =>
    case InMap(_, _, _, _, _) =>
    case InArm(arm) => ChainThrough(arm, FrameOf(t, Plain, Some(outer)), store, g);
    case InSlots(_, _, slots) =>
      forall i | i in Ids(t) ensures i in store && OnChain(g, store[i].parent)
      {
        var j :| 0 <= j < |slots| && i in IdsIn(slots[j]);
        ChainThrough(slots[j].tree, SlotFrameOf(t, j, Some(outer)), store, g);
      }
  }

  lemma SlotsBeside(t: Tree, outer: Option<Frame>, store: map<nat, Checkpoint>, j: nat, k: nat, i: nat, i': nat)
    requires Stored(t, outer, store) && t.hole.InSlots?
    requires j < |t.hole.slots| && k < |t.hole.slots| && j != k
    requires i in IdsIn(t.hole.slots[j]) && i' in IdsIn(t.hole.slots[k])
    ensures i in store && i' in store
    ensures Beside(SlotFrameOf(t, j, outer), store[i].parent, SlotFrameOf(t, k, outer), store[i'].parent)
  {
    ChainThrough(t.hole.slots[j].tree, SlotFrameOf(t, j, outer), store, SlotFrameOf(t, j, outer));
    ChainThrough(t.hole.slots[k].tree, SlotFrameOf(t, k, outer), store, SlotFrameOf(t, k, outer));
  }

  lemma {:induction false} NamedLinked(t: Tree, outer: Option<Frame>, store: map<nat, Checkpoint>, id: nat)
    requires Stored(t, outer, store) && id in store && SiblingsNamed(store, id)
    ensures Linked(t, id)
    decreases t
  {
    match t.hole
    case Leaf(_, _, _) =>
    case InMap(_, _, _, _, _) =>
    case InArm(arm) => NamedLinked(arm, Some(FrameOf(t, Plain, outer)), store, id);
    case InSlots(_, pending, slots) =>
      forall j | 0 <= j < |slots| && slots[j].Paused? && id in Ids(slots[j].tree)
        ensures Linked(slots[j].tree, id) && OthersListed(slots, j, pending)
      {
        NamedLinked(slots[j].tree, Some(SlotFrameOf(t, j, outer)), store, id);
        forall k, i | 0 <= k < |slots| && k != j && i in IdsIn(slots[k]) ensures i in pending
        {
          SlotsBeside(t, outer, store, j, k, id, i);
        }
      }
  }

  lemma {:induction false} MixedStored(t: Tree, outer: Option<Frame>, store: map<nat, Checkpoint>, from: nat)
    requires Stored(t, outer, store) && Mixed(t, from)
    ensures MixedRows(store, from)
    decreases t
  {
    match t.hole
    case InArm(arm) => MixedStored(arm, Some(FrameOf(t, Plain, outer)), store, from);
    case InSlots(_, _, slots) =>
      if MixedSlots(slots, from) {
        var j, k, i, i' :| 0 <= j < |slots| && 0 <= k < |slots| && j != k
          && i in IdsIn(slots[j]) && i' in IdsIn(slots[k]) && i >= from > i';
        SlotsBeside(t, outer, store, j, k, i, i');
      } else {
        var j :| 0 <= j < |slots| && slots[j].Paused? && Mixed(slots[j].tree, from);
        MixedStored(slots[j].tree, Some(SlotFrameOf(t, j, outer)), store, from);
      }
  }

  lemma {:induction false} NamedAllLinked(t: Tree, id: nat)
    requires AllNamed(t)
    ensures Linked(t, id)
    decreases t
  {
    match t.hole
    case Leaf(_, _, _) =>
    case InMap(_, _, _, _, _) =>
    case InArm(arm) => NamedAllLinked(arm, id);
    case InSlots(_, _, slots) =>
      forall j | 0 <= j < |slots| && slots[j].Paused? && id in Ids(slots[j].tree) ensures Linked(slots[j].tree, id)
      {
        NamedAllLinked(slots[j].tree, id);
      }
  }

  // ------------------------------------------------------------- whole runs

  // Resumes the checkpoints of `ids` one after another until the pipeline ends or throws.
  function Play(w: World, ids: seq<nat>, st: State): (State, Outcome)
    decreases ids
  {
    if ids == [] then (st, Suspended([]))
    else
      var (st1, r) := Resume(w, ids[0], st);
      if r.Suspended? then Play(w, ids[1..], st1) else (st1, r)
  }

  // Every resume is of a stored row of this run, and one that will end its agent run
  // is safe. `others` are the rows of other runs.
  ghost predicate Careful(w: World, ids: seq<nat>, st: State, others: set<nat>)
    decreases ids
  {
    ids != [] ==>
      && ids[0] in st.store && ids[0] !in others
      && (st.store[ids[0]].pauses == 0 ==> SiblingsNamed(st.store, ids[0]))
      && (Resume(w, ids[0], st).1.Suspended? ==> Careful(w, ids[1..], Resume(w, ids[0], st).0, others))
  }

  // No resume makes a slot pause again while a slot beside it is still waiting.
  ghost predicate PausesAlone(w: World, ids: seq<nat>, st: State, others: set<nat>)
    decreases ids
  {
    ids != [] ==>
      && ids[0] in st.store && ids[0] !in others
      && (Resume(w, ids[0], st).1.Suspended? ==>
            && !MixedRows(Resume(w, ids[0], st).0.store, st.next)
            && PausesAlone(w, ids[1..], Resume(w, ids[0], st).0, others))
  }

  // The rows of a suspended run beside the untouched rows of others.
  ghost predicate Among(t: Tree, base: map<nat, Checkpoint>, st: State)
  {
    && Inside(t, None, RowsOf(st))
    && st.store.Keys == base.Keys + Ids(t) && base.Keys !! Ids(t)
    && forall i :: i in base ==> st.store[i] == base[i]
  }

  // What one resume makes of a suspended run, seen from the whole store.
  ghost predicate ResumedAmong(w: World, t: Tree, base: map<nat, Checkpoint>, st: State, ev: multiset<Event>,
                               left: Left, st': State, r: Outcome)
  {
    match left
    case Waiting(t') => r.Suspended? && st'.emitted == st.emitted + ev && Among(t', base, st')
                        && Denote(w, t) == Plus(ev, Denote(w, t')) && NamesKept(t, t', st.next)
    case Over(v, l, _) => r == Done(v, l) && st'.emitted == st.emitted + ev && st'.store == base
                          && Denote(w, t) == Some(Res(v, l, ev))
    case Broke => r.Failed? && Denote(w, t) == None
  }

  lemma ResumeAmong(w: World, t: Tree, base: map<nat, Checkpoint>, id: nat, st: State)
    returns (ev: multiset<Event>, left: Left)
    requires Among(t, base, st) && id in st.store && id !in base
    requires st.store[id].pauses == 0 ==> Linked(t, id)
    ensures ResumedAmong(w, t, base, st, ev, left, Resume(w, id, st).0, Resume(w, id, st).1)
  {
    ev, left := ResumeCarries(w, t, id, st);
    var (st', r) := Resume(w, id, st);
    match left
    case Waiting(t') =>
      assert forall i :: i in base ==> i in st.store && i !in Ids(t);
      assert forall i :: i in base ==> i < st.next;
    case Over(v, l, stE) => assert stE.store.Keys == base.Keys;
    case Broke =>
  }

  // What a play that starts in t can end with.
  ghost predicate Played(w: World, t: Tree, base: map<nat, Checkpoint>, ev: multiset<Event>, st: State,
                         st': State, r: Outcome)
  {
    match r
    case Done(v, l) => st'.emitted == st.emitted + ev && st'.store == base && Denote(w, t) == Some(Res(v, l, ev))
    case Failed(_) => Denote(w, t) == None
    case Suspended(_) =>
      st'.emitted == st.emitted + ev && exists t' :: Among(t', base, st') && Denote(w, t) == Plus(ev, Denote(w, t'))
  }

  lemma {:induction false} PlayMeaning(w: World, t: Tree, base: map<nat, Checkpoint>, ids: seq<nat>, st: State)
    returns (ev: multiset<Event>)
    requires Among(t, base, st) && Careful(w, ids, st, base.Keys)
    ensures var (st', r) := Play(w, ids, st); Played(w, t, base, ev, st, st', r)
    decreases ids
  {
    ev := multiset{};
    if ids == [] {
      PlusNothing(Denote(w, t));
      assert st.emitted + ev == st.emitted;
    } else {
      if st.store[ids[0]].pauses == 0 { NamedLinked(t, None, st.store, ids[0]); }
      var left;
      ev, left := ResumeAmong(w, t, base, ids[0], st);
      if left.Waiting? {
        var st1 := Resume(w, ids[0], st).0;
        var ev1 := PlayMeaning(w, left.tree, base, ids[1..], st1);
        var (st', r) := Play(w, ids[1..], st1);
        PlayedThen(w, t, left.tree, base, ev, ev1, st, st1, st', r);
        ev := ev + ev1;
      }
    }
  }

  lemma PlayedThen(w: World, t: Tree, t1: Tree, base: map<nat, Checkpoint>, ev: multiset<Event>, ev1: multiset<Event>,
                   st: State, st1: State, st': State, r: Outcome)
    requires st1.emitted == st.emitted + ev && Denote(w, t) == Plus(ev, Denote(w, t1))
    requires Played(w, t1, base, ev1, st1, st', r)
    ensures Played(w, t, base, ev + ev1, st, st', r)
  {
    assert st.emitted + ev + ev1 == st.emitted + (ev + ev1);
    if r.Suspended? {
      var t' :| Among(t', base, st') && Denote(w, t1) == Plus(ev1, Denote(w, t'));
      PlusPlus(ev, ev1, Denote(w, t'));
    }
  }

  /**
    What plain evaluation demands of a run that began with st0: if it has ended, its value,
    label and crumbs are those of plain evaluation and the store is as it was; if it threw,
    plain evaluation fails; and if it waits, some checkpoint of it is stored, no row of
    others has changed, and nothing has been emitted that plain evaluation would not.
  */
  ghost predicate SameMeaning(goal: Option<Res>, st0: State, st: State, r: Outcome)
  {
    match r
    case Done(v, l) =>
      goal.Some? && goal.value.value == v && goal.value.lbl == l
      && st.emitted == st0.emitted + goal.value.events && st.store == st0.store
    case Failed(_) => goal == None
    case Suspended(_) =>
      && (exists id :: id in st.store && id !in st0.store)
      && (forall id :: id in st0.store ==> id in st.store && st.store[id] == st0.store[id])
      && (goal.Some? ==> st.emitted <= st0.emitted + goal.value.events)
  }

  // What a play from a suspended run ended with, seen from the run's beginning.
  lemma PlayedMeans(w: World, t: Tree, goal: Option<Res>, ev: multiset<Event>, ev1: multiset<Event>, st0: State,
                    st1: State, st': State, r: Outcome)
    requires st1.emitted == st0.emitted + ev && goal == Plus(ev, Denote(w, t))
    requires Played(w, t, st0.store, ev1, st1, st', r)
    ensures SameMeaning(goal, st0, st', r)
  {
    assert st0.emitted + ev + ev1 == st0.emitted + (ev + ev1);
    if r.Suspended? {
      var t' :| Among(t', st0.store, st') && Denote(w, t) == Plus(ev1, Denote(w, t'));
      PlusPlus(ev, ev1, Denote(w, t'));
      var id := SomeId(t', st'.next);
    }
  }

  /**
    Run a pipeline and resume its checkpoints one by one, in any order: what comes of it is
    what plain evaluation demands. That it comes to an end is shown in module ResumesEnd.
  */
  lemma PausesSameMeaning(w: World, pid: Pid, steps: seq<Step>, value: Value, lbl: Label, st0: State, ids: seq<nat>)
    requires Fresh(RowsOf(st0))
    requires var (st1, r1) := Run(w, pid, steps, 0, value, lbl, None, st0);
      r1.Suspended? ==> Careful(w, ids, st1, st0.store.Keys)
    ensures var (st1, r1) := Run(w, pid, steps, 0, value, lbl, None, st0);
      var (st', r) := if r1.Suspended? then Play(w, ids, st1) else (st1, r1);
      SameMeaning(Eval(w, pid, steps, 0, value, lbl), st0, st', r)
  {
    var ev, t := RunRefines(w, pid, steps, 0, value, lbl, None, st0);
    var (st1, r1) := Run(w, pid, steps, 0, value, lbl, None, st0);
    if r1.Suspended? {
      var ev1 := PlayMeaning(w, t, st0.store, ids, st1);
      var (st', r) := Play(w, ids, st1);
      PlayedMeans(w, t, Eval(w, pid, steps, 0, value, lbl), ev, ev1, st0, st1, st', r);
    }
  }

  /**
    The documented condition: when no slot pauses again beside a waiting one, every
    resume is safe, whatever the order.
  */
  lemma {:induction false} AlonePlayMeaning(w: World, t: Tree, base: map<nat, Checkpoint>, ids: seq<nat>, st: State)
    returns (ev: multiset<Event>)
    requires Among(t, base, st) && AllNamed(t) && PausesAlone(w, ids, st, base.Keys)
    ensures var (st', r) := Play(w, ids, st); Played(w, t, base, ev, st, st', r)
    decreases ids
  {
    ev := multiset{};
    if ids == [] {
      PlusNothing(Denote(w, t));
      assert st.emitted + ev == st.emitted;
    } else {
      NamedAllLinked(t, ids[0]);
      var left;
      ev, left := ResumeAmong(w, t, base, ids[0], st);
      if left.Waiting? {
        var st1 := Resume(w, ids[0], st).0;
        assert AllNamed(left.tree) by {
          if Mixed(left.tree, st.next) { MixedStored(left.tree, None, st1.store, st.next); }
        }
        var ev1 := AlonePlayMeaning(w, left.tree, base, ids[1..], st1);
        var (st', r) := Play(w, ids[1..], st1);
        PlayedThen(w, t, left.tree, base, ev, ev1, st, st1, st', r);
        ev := ev + ev1;
      }
    }
  }

  lemma RepausesAloneSameMeaning(w: World, pid: Pid, steps: seq<Step>, value: Value, lbl: Label, st0: State,
                                     ids: seq<nat>)
    requires Fresh(RowsOf(st0))
    requires var (st1, r1) := Run(w, pid, steps, 0, value, lbl, None, st0);
      r1.Suspended? && PausesAlone(w, ids, st1, st0.store.Keys)
    ensures var (st', r) := Play(w, ids, Run(w, pid, steps, 0, value, lbl, None, st0).0);
      SameMeaning(Eval(w, pid, steps, 0, value, lbl), st0, st', r)
  {
    var ev, t := RunRefines(w, pid, steps, 0, value, lbl, None, st0);
    var st1 := Run(w, pid, steps, 0, value, lbl, None, st0).0;
    ListedNamed(t);
    var ev1 := AlonePlayMeaning(w, t, st0.store, ids, st1);
    var (st', r) := Play(w, ids, st1);
    PlayedMeans(w, t, Eval(w, pid, steps, 0, value, lbl), ev, ev1, st0, st1, st', r);
  }
}
