/**
  Resuming one checkpoint of a suspended pipeline turns its tree into a tree that
  denotes the same result, or ends with that result.
*/
module ResumeRefinement {
  import opened Wrappers
  import opened PipelineModel
  import opened PipelineMachine
  import opened SuspendedTree
  import opened RunRefinement

  // A suspended pipeline and the rows it lives in.
  ghost predicate Inside(t: Tree, outer: Option<Frame>, a: Rows)
  {
    Fresh(a) && Shape(t, a.next) && Stored(t, outer, a.store) && Tidy(t, a.store)
  }

  // Every parallel step above leaf `id` lists what its other slots have stored.
  ghost predicate Linked(t: Tree, id: nat)
    decreases t
  {
    match t.hole
    case Leaf(_, _, _) => true
    case InMap(_, _, _, _, _) => true
    case InArm(arm) => Linked(arm, id)
    case InSlots(_, pending, slots) =>
      forall j :: 0 <= j < |slots| && slots[j].Paused? && id in Ids(slots[j].tree) ==>
        Linked(slots[j].tree, id) && OthersListed(slots, j, pending)
  }

  ghost predicate OthersListed(slots: seq<Slot>, j: nat, pending: seq<nat>)
  {
    forall k, i :: 0 <= k < |slots| && k != j && i in IdsIn(slots[k]) ==> i in pending
  }

  // The same for every leaf at once.
  ghost predicate AllNamed(t: Tree)
    decreases t
  {
    match t.hole
    case Leaf(_, _, _) => true
    case InMap(_, _, _, _, _) => true
    case InArm(arm) => AllNamed(arm)
    case InSlots(_, pending, slots) =>
      forall j :: 0 <= j < |slots| && slots[j].Paused? ==> AllNamed(slots[j].tree) && OthersListed(slots, j, pending)
  }

  // Some parallel step has a row made at or after `from` beside an older one.
  ghost predicate Mixed(t: Tree, from: nat)
    decreases t
  {
    match t.hole
    case Leaf(_, _, _) => false
    case InMap(_, _, _, _, _) => false
    case InArm(arm) => Mixed(arm, from)
    case InSlots(_, _, slots) =>
      || MixedSlots(slots, from)
      || exists j :: 0 <= j < |slots| && slots[j].Paused? && Mixed(slots[j].tree, from)
  }

  ghost predicate MixedSlots(slots: seq<Slot>, from: nat)
  {
    exists j, k, i, i' :: 0 <= j < |slots| && 0 <= k < |slots| && j != k
      && i in IdsIn(slots[j]) && i' in IdsIn(slots[k]) && i >= from > i'
  }

  // A tree all of whose siblings are named keeps that unless a slot paused again
  // beside one that was waiting.
  ghost predicate NamesKept(t: Tree, t': Tree, from: nat)
  {
    AllNamed(t) ==> AllNamed(t') || Mixed(t', from)
  }

  // Tree t in rows a has become tree t' in rows b; no other row has changed.
  ghost predicate Becomes(t: Tree, t': Tree, outer: Option<Frame>, a: Rows, b: Rows)
  {
    && NamesKept(t, t', a.next)
    && a.next <= b.next && Inside(t', outer, b) && t'.pid == t.pid
    && b.store.Keys == (a.store.Keys - Ids(t)) + Ids(t')
    && (forall i :: i in a.store && i !in Ids(t) ==> i in b.store && b.store[i] == a.store[i])
    && (forall i :: i in Ids(t') && i !in Ids(t) ==> a.next <= i)
  }

  // What a stretch of work leaves: a tree, the end of this activation, or an error.
  datatype Left = Waiting(tree: Tree) | Over(value: Value, lbl: Label, st: State) | Broke

  // `result` is what running on from `st` gave; `goal` what it should come to.
  ghost predicate Carries(goal: Option<Res>, ev: multiset<Event>, w: World, t: Tree, outer: Option<Frame>, a: Rows,
                          st: State, result: (State, Outcome), left: Left)
  {
    match left
    case Waiting(t') =>
      && result.1.Suspended? && result.0.emitted == st.emitted + ev
      && goal == Plus(ev, Denote(w, t')) && Becomes(t, t', outer, a, RowsOf(result.0))
    case Over(v, l, stE) =>
      && result == Continue(w, outer, v, l, stE) && stE.emitted == st.emitted + ev
      && goal == Some(Res(v, l, ev)) && stE.store == a.store - Ids(t) && a.next <= stE.next
    case Broke => result.1.Failed? && goal == None
  }

  // ----------------------------------------------------------- closing a step

  // The suspended step of t has its output: close it and run what remains.
  lemma CloseCarries(w: World, t: Tree, f: Frame, output: Value, a: Rows, st: State)
    returns (ev: multiset<Event>, left: Left)
    requires Fresh(a) && st.store == a.store - Ids(t) && a.next <= st.next
    requires f.pid == t.pid
    ensures !left.Over? || left.st.next >= st.next
    ensures Carries(Then(w, f.pid, f.remaining, f.index, Some(Res(output, f.lbl, multiset{}))), ev, w, t, f.outer, a,
                    st, Close(w, f, output, st), left)
  {
    var e := Ended(f.pid, f.index, output);
    var st0 := st.Emit(e);
    var t';
    ev, t' := RunRefines(w, f.pid, f.remaining, f.index + 1, output, f.lbl, f.outer, st0);
    var goal := Eval(w, f.pid, f.remaining, f.index + 1, output, f.lbl);
    var (st1, r) := Run(w, f.pid, f.remaining, f.index + 1, output, f.lbl, f.outer, st0);
    ThenNow(w, f.pid, f.remaining, f.index, output, f.lbl);
    ev := RefinesBefore(goal, e, ev, st, st1, r, Denote(w, t'), t', f.outer);
    left := match r case Done(v, l) => Over(v, l, st1) case Failed(_) => Broke case Suspended(_) => Waiting(t');
    RefinesCarries(Plus(multiset{e}, goal), ev, w, t, t', f.outer, a, st, st1, r, left);
    CloseUnfold(w, f, output, st);
  }

  lemma CloseUnfold(w: World, f: Frame, output: Value, st: State)
    ensures var (st1, r) := Run(w, f.pid, f.remaining, f.index + 1, output, f.lbl, f.outer,
                                st.Emit(Ended(f.pid, f.index, output)));
      Close(w, f, output, st) == if r.Done? then Continue(w, f.outer, r.value, r.lbl, st1) else (st1, r)
  {
  }

  lemma RefinesCarries(goal: Option<Res>, ev: multiset<Event>, w: World, t: Tree, t': Tree, outer: Option<Frame>,
                       a: Rows, st: State, st1: State, r: Outcome, left: Left)
    requires Fresh(a) && st.store == a.store - Ids(t) && a.next <= st.next
    requires Refines(goal, ev, st, st1, r, Denote(w, t'), t', outer)
    requires r.Suspended? ==> t'.pid == t.pid
    requires left == match r case Done(v, l) => Over(v, l, st1) case Failed(_) => Broke case Suspended(_) => Waiting(t')
    ensures Carries(goal, ev, w, t, outer, a, st,
                    if r.Done? then Continue(w, outer, r.value, r.lbl, st1) else (st1, r), left)
  {
    if r.Suspended? { LeavesBecomes(t, t', outer, a, RowsOf(st), RowsOf(st1)); }
  }

  lemma LeavesBecomes(t: Tree, t': Tree, outer: Option<Frame>, a: Rows, b: Rows, c: Rows)
    requires Fresh(a) && b.store == a.store - Ids(t) && a.next <= b.next && t'.pid == t.pid
    requires Keeps(b, c) && Leaves(t', outer, b, c)
    ensures Becomes(t, t', outer, a, c)
  {
    ListedNamed(t');
  }

  lemma {:induction false} ListedNamed(t: Tree)
    requires AllListed(t)
    ensures AllNamed(t)
    decreases t
  {
    match t.hole
    case Leaf(_, _, _) =>
    case InMap(_, _, _, _, _) =>
    case InArm(arm) => ListedNamed(arm);
    case InSlots(_, pending, slots) =>
      forall j | 0 <= j < |slots| && slots[j].Paused? ensures AllNamed(slots[j].tree)
      {
        ListedNamed(slots[j].tree);
      }
  }

  lemma ThenNow(w: World, pid: Pid, steps: seq<Step>, index: nat, output: Value, lbl: Label)
    ensures Then(w, pid, steps, index, Some(Res(output, lbl, multiset{})))
         == Plus(multiset{Ended(pid, index, output)}, Eval(w, pid, steps, index + 1, output, lbl))
  {
    var rest := Eval(w, pid, steps, index + 1, output, lbl);
    if rest.Some? {
      var e := multiset{Ended(pid, index, output)};
      assert multiset{} + e + rest.value.events == e + rest.value.events;
    }
  }

  // The same when the step itself still had events to come.
  lemma CarriesAfter(goal: Option<Res>, ev1: multiset<Event>, ev2: multiset<Event>, w: World, t: Tree,
                     outer: Option<Frame>, a: Rows, st: State, st1: State, result: (State, Outcome), left: Left)
    requires Carries(goal, ev2, w, t, outer, a, st1, result, left)
    requires st1.emitted == st.emitted + ev1
    ensures Carries(Plus(ev1, goal), ev1 + ev2, w, t, outer, a, st, result, left)
  {
    assert st.emitted + ev1 + ev2 == st.emitted + (ev1 + ev2);
    if left.Waiting? { PlusPlus(ev1, ev2, Denote(w, left.tree)); }
  }

  // --------------------------------------------------- one slot among others

  // The changed slot itself, its label either kept or joined early.
  ghost predicate SlotChanged(incoming: Label, c: Joined, c': Joined, d: Option<Res>, d': Option<Res>,
                              ev: multiset<Event>)
  {
    && d.None? == d'.None?
    && (d.Some? ==>
          && d.value.value == d'.value.value && d.value.events == ev + d'.value.events
          && ((d.value.lbl == d'.value.lbl && c' == c)
              || (d'.value.lbl == None && c' == Join(incoming, c, d.value.lbl))))
  }

  lemma HeadChanges(incoming: Label, c: Joined, c': Joined, d: Option<Res>, d': Option<Res>, ev: multiset<Event>,
                    rest: Option<SlotsRes>)
    requires SlotChanged(incoming, c, c', d, d', ev)
    ensures SameSlots(incoming, c, ConsSlot(d, rest), ev, c', ConsSlot(d', rest))
  {
    if d.Some? && rest.Some? {
      assert ConsSlot(d, rest).value.labels[1..] == rest.value.labels;
      assert ConsSlot(d', rest).value.labels[1..] == rest.value.labels;
    }
  }

  lemma TailChanges(incoming: Label, c: Joined, c': Joined, h: Option<Res>, ev: multiset<Event>, rest: Option<SlotsRes>,
                    rest': Option<SlotsRes>)
    requires h.Some? ==>
      SameSlots(incoming, Join(incoming, c, h.value.lbl), rest, ev, Join(incoming, c', h.value.lbl), rest')
    ensures SameSlots(incoming, c, ConsSlot(h, rest), ev, c', ConsSlot(h, rest'))
  {
    if h.Some? && rest.Some? && rest'.Some? {
      assert ConsSlot(h, rest).value.labels[1..] == rest.value.labels;
      assert ConsSlot(h, rest').value.labels[1..] == rest'.value.labels;
      assert ConsSlot(h, rest).value.events == ev + ConsSlot(h, rest').value.events;
    }
  }

  // Changing slot j changes nothing else.
  lemma {:induction false} SlotChanges(w: World, incoming: Label, c: Joined, c': Joined, slots: seq<Slot>, j: nat,
                                       s: Slot, ev: multiset<Event>)
    requires j < |slots|
    requires SlotChanged(incoming, c, c', DenoteSlot(w, slots[j]), DenoteSlot(w, s), ev)
    ensures SameSlots(incoming, c, DenoteSlots(w, slots), ev, c', DenoteSlots(w, slots[j := s]))
    ensures DenoteSlot(w, slots[j]).None? ==> DenoteSlots(w, slots).None?
    decreases slots
  {
    var d, d' := DenoteSlot(w, slots[j]), DenoteSlot(w, s);
    var slots' := slots[j := s];
    if j == 0 {
      assert slots'[1..] == slots[1..];
      HeadChanges(incoming, c, c', d, d', ev, DenoteSlots(w, slots[1..]));
    } else {
      assert slots'[0] == slots[0] && slots'[1..] == slots[1..][j - 1 := s];
      var h := DenoteSlot(w, slots[0]);
      var head := if h.Some? then h.value.lbl else None;
      if d.Some? { JoinSwap(incoming, c, head, d.value.lbl); }
      SlotChanges(w, incoming, Join(incoming, c, head), Join(incoming, c', head), slots[1..], j - 1, s, ev);
      TailChanges(incoming, c, c', h, ev, DenoteSlots(w, slots[1..]), DenoteSlots(w, slots'[1..]));
    }
  }

  // -------------------------------------------------- a slot comes to its end

  lemma {:induction false} StillStoredIds(ids: seq<nat>, s: map<nat, Checkpoint>)
    requires NoDup(ids)
    ensures NoDup(StillStored(ids, s))
    ensures forall i :: i in StillStored(ids, s) <==> i in ids && i in s
    decreases ids
  {
    if ids != [] {
      StillStoredIds(ids[1..], s);
      assert forall i :: i in ids <==> i == ids[0] || i in ids[1..];
      assert ids[0] !in ids[1..];
      assert StillStored(ids, s) == (if ids[0] in s then [ids[0]] else []) + StillStored(ids[1..], s);
    }
  }

  // A label that has been joined joins again without effect.
  lemma JoinAgain(incoming: Label, c: Label, l: Label, handed: Label)
    requires c == incoming || c.Some?
    requires Join(incoming, Agreed(c), handed) == Agreed(l)
    ensures Join(incoming, Agreed(c), l) == Agreed(l)
    ensures l == incoming || l.Some?
  {
  }

  function SettledTree(t: Tree, j: nat, v: Value, l: Label): Tree
    requires t.hole.InSlots? && j < |t.hole.slots|
  {
    t.(lbl := l, hole := t.hole.(slots := t.hole.slots[j := Slot.Settled(v)]))
  }

  // A slot of t has ended with v and l, its rows are gone, and the others are listed.
  ghost predicate SlotOver(t: Tree, j: nat, outer: Option<Frame>, a: Rows, st: State)
  {
    && t.hole.InSlots? && j < |t.hole.slots| && t.hole.slots[j].Paused?
    && Inside(t, outer, a) && OthersListed(t.hole.slots, j, t.hole.pending)
    && st.store == a.store - Ids(t.hole.slots[j].tree) && a.next <= st.next
  }

  // The listed rows that are left are exactly the leaves of the other slots.
  lemma OtherRows(t: Tree, j: nat, outer: Option<Frame>, a: Rows, st: State)
    requires SlotOver(t, j, outer, a, st)
    ensures var still := StillStored(t.hole.pending, st.store);
      NoDup(still) && forall i :: i in still <==> i in Ids(t) && i !in Ids(t.hole.slots[j].tree)
  {
    var slots := t.hole.slots;
    StillStoredIds(t.hole.pending, st.store);
    StoredIds(t, outer, a.store);
    forall i | i in Ids(t) && i !in Ids(slots[j].tree) ensures i in t.hole.pending && i in st.store
    {
      var k :| 0 <= k < |slots| && i in IdsIn(slots[k]);
      assert k != j;
    }
  }

  lemma SlotContinue(w: World, t: Tree, j: nat, outer: Option<Frame>, v: Value, handed: Label, st: State)
    requires t.hole.InSlots? && j < |t.hole.slots| && t.hole.pending != []
    ensures var f := SlotFrameOf(t, j, outer);
      var still := StillStored(t.hole.pending, st.store);
      Continue(w, Some(f), v, handed, st) ==
      match Join(t.hole.incoming, Agreed(t.lbl), handed)
      case Conflict => (st, Failed(DecisionConflict))
      case Agreed(l) =>
        if still == [] then Close(w, f.(lbl := l), Items(Outputs(t.hole.slots)[j := v]), st)
        else
          var (s, ok) := AmendAll(st.store, still, t.pid, t.index, SettleSlot(j, v, l));
          (st.(store := s), if ok then Suspended([]) else Failed(DecisionConflict))
  {
  }

  // While other slots wait, the output goes into each of their frames.
  lemma SiblingsAmended(t: Tree, j: nat, outer: Option<Frame>, v: Value, handed: Label, l: Label, a: Rows, st: State)
    requires SlotOver(t, j, outer, a, st)
    requires Join(t.hole.incoming, Agreed(t.lbl), handed) == Agreed(l)
    requires StillStored(t.hole.pending, st.store) != []
    ensures var still := StillStored(t.hole.pending, st.store);
      var (s, ok) := AmendAll(st.store, still, t.pid, t.index, SettleSlot(j, v, l));
      ok && (Fresh(RowsOf(st)) ==> Becomes(t, SettledTree(t, j, v, l), outer, a, Rows(s, st.next)))
  {
    var still, u := StillStored(t.hole.pending, st.store), SettleSlot(j, v, l);
    var t', slots := SettledTree(t, j, v, l), t.hole.slots;
    JoinAgain(t.hole.incoming, t.lbl, l, handed);
    OtherRows(t, j, outer, a, st);
    forall k | 0 <= k < |slots| && slots[k].Paused? && k != j
      ensures Stored(slots[k].tree, Some(SlotFrameOf(t, k, outer)), st.store)
      ensures Ids(slots[k].tree) !! Ids(slots[j].tree)
      ensures IdsIn(slots[k]) <= Ids(t)
      ensures forall i :: i in IdsIn(slots[k]) ==> ChainOk(st.store, i, t, k, outer, u)
    {
      StoredFrame(slots[k].tree, Some(SlotFrameOf(t, k, outer)), a.store, st.store);
      forall i | i in IdsIn(slots[k]) ensures ChainOk(st.store, i, t, k, outer, u)
      {
        SlotFrameAmended(t, j, v, l, k, outer);
        ChainReaches(slots[k].tree, a.next, SlotFrameOf(t, k, outer), t.pid, t.index, u, st.store, i);
      }
    }
    forall i | i in still ensures !Clashes(st.store, i, t.pid, t.index, u)
    {
      var k :| 0 <= k < |slots| && i in IdsIn(slots[k]);
      assert ChainOk(st.store, i, t, k, outer, u);
    }
    AmendAllRows(st.store, still, t.pid, t.index, u);
    if Fresh(RowsOf(st)) {
      AmendedBecomes(t, j, outer, v, l, a, st, still, AmendAll(st.store, still, t.pid, t.index, u).0);
    }
  }

  // The output and the joined label, written into the frame of another slot.
  lemma SlotFrameAmended(t: Tree, j: nat, v: Value, l: Label, k: nat, outer: Option<Frame>)
    requires t.hole.InSlots? && j < |t.hole.slots|
    requires Join(t.hole.incoming, Agreed(t.lbl), l) == Agreed(l)
    ensures Apply(SlotFrameOf(t, k, outer), SettleSlot(j, v, l)) == Some(SlotFrameOf(SettledTree(t, j, v, l), k, outer))
    ensures Amend(SlotFrameOf(t, k, outer), t.pid, t.index, SettleSlot(j, v, l))
         == Some(SlotFrameOf(SettledTree(t, j, v, l), k, outer))
  {
    assert Outputs(t.hole.slots)[j := v] == Outputs(t.hole.slots[j := Slot.Settled(v)]);
  }

  // `s` is st's store with the rows `still` amended.
  ghost predicate AmendedRows(t: Tree, j: nat, outer: Option<Frame>, u: Update, st: State, still: seq<nat>,
                              s: map<nat, Checkpoint>)
    requires t.hole.InSlots?
  {
    && s.Keys == st.store.Keys
    && (forall i :: i in st.store && i !in still ==> s[i] == st.store[i])
    && (forall i :: i in st.store && i in still ==> s[i] == AmendOne(st.store, i, t.pid, t.index, u)[i])
    && (forall k, i :: 0 <= k < |t.hole.slots| && k != j && i in IdsIn(t.hole.slots[k]) ==>
          ChainOk(st.store, i, t, k, outer, u) && i in still)
  }

  lemma AmendedSlot(t: Tree, j: nat, k: nat, outer: Option<Frame>, v: Value, l: Label, a: Rows, st: State,
                    still: seq<nat>, s: map<nat, Checkpoint>)
    requires SlotOver(t, j, outer, a, st)
    requires Join(t.hole.incoming, Agreed(t.lbl), l) == Agreed(l)
    requires AmendedRows(t, j, outer, SettleSlot(j, v, l), st, still, s)
    requires k < |t.hole.slots| && t.hole.slots[k].Paused? && k != j
    ensures var sub := t.hole.slots[k].tree;
      Stored(sub, Some(SlotFrameOf(SettledTree(t, j, v, l), k, outer)), s) && Tidy(sub, s) && Shape(sub, st.next)
  {
    var u, t', sub := SettleSlot(j, v, l), SettledTree(t, j, v, l), t.hole.slots[k].tree;
    assert IdsIn(t.hole.slots[k]) == Ids(sub);
    SlotFrameAmended(t, j, v, l, k, outer);
    forall i | i in Ids(sub) && i in st.store
      ensures i in s && Amend(st.store[i].parent, t.pid, t.index, u).Some?
           && s[i] == st.store[i].(parent := Amend(st.store[i].parent, t.pid, t.index, u).value)
    {
      assert i in IdsIn(t.hole.slots[k]);
      assert ChainOk(st.store, i, t, k, outer, u) && i in still;
    }
    StoredFrame(sub, Some(SlotFrameOf(t, k, outer)), a.store, st.store) by {
      assert Ids(t.hole.slots[j].tree) !! Ids(sub) by { assert j < k || k < j; }
    }
    AmendStored(sub, a.next, SlotFrameOf(t, k, outer), SlotFrameOf(t', k, outer), t.pid, t.index, u, st.store, s);
    TidyFrame(sub, a.next, a.store, s);
    ShapeGrows(sub, a.next, st.next);
  }

  lemma AmendedBecomes(t: Tree, j: nat, outer: Option<Frame>, v: Value, l: Label, a: Rows, st: State,
                       still: seq<nat>, s: map<nat, Checkpoint>)
    requires SlotOver(t, j, outer, a, st) && Fresh(RowsOf(st)) && still != []
    requires Join(t.hole.incoming, Agreed(t.lbl), l) == Agreed(l) && (l == t.hole.incoming || l.Some?)
    requires forall i :: i in still <==> i in Ids(t) && i !in Ids(t.hole.slots[j].tree)
    requires AmendedRows(t, j, outer, SettleSlot(j, v, l), st, still, s)
    ensures Becomes(t, SettledTree(t, j, v, l), outer, a, Rows(s, st.next))
  {
    var t', slots := SettledTree(t, j, v, l), t.hole.slots;
    var slots', b := t'.hole.slots, Rows(s, st.next);
    forall k | 0 <= k < |slots'| && slots'[k].Paused?
      ensures SlotInside(t', k, outer, b)
    {
      AmendedSlot(t, j, k, outer, v, l, a, st, still, s);
    }
    SomeoneWaits(t, j, v, l, still);
    SlotReplaced(t, t', j, outer, a, b);
  }

  lemma SomeoneWaits(t: Tree, j: nat, v: Value, l: Label, still: seq<nat>)
    requires t.hole.InSlots? && j < |t.hole.slots| && t.hole.slots[j].Paused? && still != []
    requires forall i :: i in still <==> i in Ids(t) && i !in Ids(t.hole.slots[j].tree)
    ensures var slots' := SettledTree(t, j, v, l).hole.slots; exists k :: 0 <= k < |slots'| && slots'[k].Paused?
  {
    var slots := t.hole.slots;
    assert still[0] in still;
    var k :| 0 <= k < |slots| && still[0] in IdsIn(slots[k]);
    assert k != j && SettledTree(t, j, v, l).hole.slots[k].Paused?;
  }

  ghost predicate SlotInside(t: Tree, k: nat, outer: Option<Frame>, b: Rows)
    requires t.hole.InSlots? && k < |t.hole.slots| && t.hole.slots[k].Paused?
  {
    var sub := t.hole.slots[k].tree;
    && Stored(sub, Some(SlotFrameOf(t, k, outer)), b.store) && Tidy(sub, b.store) && Shape(sub, b.next)
    && sub.pid == SlotPid(t.pid, t.index, k)
  }

  // Slot j of t has changed and the others are where they belong: so is the whole tree.
  lemma SlotReplaced(t: Tree, t': Tree, j: nat, outer: Option<Frame>, a: Rows, b: Rows)
    requires Inside(t, outer, a) && t.hole.InSlots? && j < |t.hole.slots| && t.hole.slots[j].Paused?
    requires t'.hole.InSlots? && |t'.hole.slots| == |t.hole.slots|
    requires t' == t.(lbl := t'.lbl, hole := t.hole.(slots := t.hole.slots[j := t'.hole.slots[j]]))
    requires t'.lbl == t.hole.incoming || t'.lbl.Some?
    requires a.next <= b.next && Fresh(b)
    requires exists k :: 0 <= k < |t'.hole.slots| && t'.hole.slots[k].Paused?
    requires forall k :: 0 <= k < |t'.hole.slots| && t'.hole.slots[k].Paused? ==> SlotInside(t', k, outer, b)
    requires forall i :: i in IdsIn(t'.hole.slots[j]) ==> i in Ids(t.hole.slots[j].tree) || a.next <= i
    requires b.store.Keys == (a.store.Keys - Ids(t.hole.slots[j].tree)) + IdsIn(t'.hole.slots[j])
    requires forall i :: i in a.store && i !in Ids(t) ==> i in b.store && b.store[i] == a.store[i]
    requires t'.hole.slots[j].Paused? ==> NamesKept(t.hole.slots[j].tree, t'.hole.slots[j].tree, a.next)
    ensures Becomes(t, t', outer, a, b)
  {
    ReplacedNames(t, t', j, outer, a);
    ReplacedShape(t, t', j, outer, a, b);
    ReplacedTidy(t, t', j, outer, a, b);
  }

  lemma NewBesideOld(slots: seq<Slot>, m: nat, k: nat, i: nat, a: Rows)
    requires m < |slots| && k < |slots| && m != k && i in IdsIn(slots[m]) && i >= a.next
    requires slots[k].Paused? && Shape(slots[k].tree, a.next) && forall x :: x in IdsIn(slots[k]) ==> x < a.next
    ensures MixedSlots(slots, a.next)
  {
    var i' := SomeId(slots[k].tree, a.next);
    assert i' in IdsIn(slots[k]);
  }

  lemma ReplacedNames(t: Tree, t': Tree, j: nat, outer: Option<Frame>, a: Rows)
    requires Inside(t, outer, a) && t.hole.InSlots? && j < |t.hole.slots| && t.hole.slots[j].Paused?
    requires t'.hole.InSlots? && |t'.hole.slots| == |t.hole.slots|
    requires t' == t.(lbl := t'.lbl, hole := t.hole.(slots := t.hole.slots[j := t'.hole.slots[j]]))
    requires forall i :: i in IdsIn(t'.hole.slots[j]) ==> i in Ids(t.hole.slots[j].tree) || a.next <= i
    requires t'.hole.slots[j].Paused? ==> NamesKept(t.hole.slots[j].tree, t'.hole.slots[j].tree, a.next)
    ensures NamesKept(t, t', a.next)
  {
    var slots, slots', pending := t.hole.slots, t'.hole.slots, t.hole.pending;
    if AllNamed(t) && !Mixed(t', a.next) {
      StoredIds(t, outer, a.store);
      forall k, m, i | 0 <= k < |slots'| && slots'[k].Paused? && 0 <= m < |slots'| && m != k && i in IdsIn(slots'[m])
        ensures i in pending
      {
        assert IdsIn(slots[m]) <= Ids(t) && IdsIn(slots[k]) <= Ids(t);
        if i < a.next {
          assert i in IdsIn(slots[m]);
          assert OthersListed(slots, k, pending);
        } else {
          NewBesideOld(slots', m, k, i, a);
        }
      }
      forall k | 0 <= k < |slots'| && slots'[k].Paused?
        ensures AllNamed(slots'[k].tree) && OthersListed(slots', k, pending)
      {
        if k != j { assert slots'[k] == slots[k]; }
      }
    }
  }

  lemma ReplacedTidy(t: Tree, t': Tree, j: nat, outer: Option<Frame>, a: Rows, b: Rows)
    requires Inside(t, outer, a) && t.hole.InSlots? && j < |t.hole.slots| && t.hole.slots[j].Paused?
    requires t'.hole.InSlots? && |t'.hole.slots| == |t.hole.slots|
    requires t' == t.(lbl := t'.lbl, hole := t.hole.(slots := t.hole.slots[j := t'.hole.slots[j]]))
    requires forall k :: 0 <= k < |t'.hole.slots| && t'.hole.slots[k].Paused? ==> SlotInside(t', k, outer, b)
    requires forall i :: i in IdsIn(t'.hole.slots[j]) ==> i in Ids(t.hole.slots[j].tree) || a.next <= i
    requires b.store.Keys == (a.store.Keys - Ids(t.hole.slots[j].tree)) + IdsIn(t'.hole.slots[j])
    ensures Stored(t', outer, b.store) && Tidy(t', b.store)
    ensures b.store.Keys == (a.store.Keys - Ids(t)) + Ids(t')
    ensures forall i :: i in Ids(t') && i !in Ids(t) ==> a.next <= i
  {
    StoredIds(t, outer, a.store);
    assert IdsIn(t.hole.slots[j]) <= Ids(t);
    ReplacedIds(t, j, t'.hole.slots[j], a.next);
    forall k | 0 <= k < |t'.hole.slots| && t'.hole.slots[k].Paused?
      ensures Stored(t'.hole.slots[k].tree, Some(SlotFrameOf(t', k, outer)), b.store)
      ensures Tidy(t'.hole.slots[k].tree, b.store)
    {
      assert SlotInside(t', k, outer, b);
    }
  }

  lemma ReplacedShape(t: Tree, t': Tree, j: nat, outer: Option<Frame>, a: Rows, b: Rows)
    requires Inside(t, outer, a) && t.hole.InSlots? && j < |t.hole.slots| && t.hole.slots[j].Paused?
    requires t'.hole.InSlots? && |t'.hole.slots| == |t.hole.slots|
    requires t' == t.(lbl := t'.lbl, hole := t.hole.(slots := t.hole.slots[j := t'.hole.slots[j]]))
    requires t'.lbl == t.hole.incoming || t'.lbl.Some?
    requires a.next <= b.next
    requires exists k :: 0 <= k < |t'.hole.slots| && t'.hole.slots[k].Paused?
    requires forall k :: 0 <= k < |t'.hole.slots| && t'.hole.slots[k].Paused? ==> SlotInside(t', k, outer, b)
    requires forall i :: i in IdsIn(t'.hole.slots[j]) ==> i in Ids(t.hole.slots[j].tree) || a.next <= i
    ensures Shape(t', b.next)
  {
    var slots, slots' := t.hole.slots, t'.hole.slots;
    StoredIds(t, outer, a.store);
    forall k | 0 <= k < |slots'| && slots'[k].Paused? && k != j && slots'[j].Paused?
      ensures Ids(slots'[k].tree) !! Ids(slots'[j].tree)
    {
      assert IdsIn(slots[k]) <= Ids(t);
      assert Ids(slots[k].tree) !! Ids(slots[j].tree) by { assert j < k || k < j; }
      assert Ids(slots'[j].tree) == IdsIn(slots'[j]);
    }
    forall i, k | 0 <= i < k < |slots'| && slots'[i].Paused? && slots'[k].Paused?
      ensures Ids(slots'[i].tree) !! Ids(slots'[k].tree)
    {
      if i != j && k != j { assert slots'[i] == slots[i] && slots'[k] == slots[k]; }
    }
    forall k | 0 <= k < |slots'| && slots'[k].Paused?
      ensures slots'[k].tree.pid == SlotPid(t'.pid, t'.index, k) && Shape(slots'[k].tree, b.next)
    {
      assert SlotInside(t', k, outer, b);
    }
  }

  lemma ReplacedIds(t: Tree, j: nat, s: Slot, next: nat)
    requires Shape(t, next) && t.hole.InSlots? && j < |t.hole.slots| && t.hole.slots[j].Paused?
    ensures SlotsIds(t.hole.slots[j := s]) == (Ids(t) - Ids(t.hole.slots[j].tree)) + IdsIn(s)
  {
    var slots, slots' := t.hole.slots, t.hole.slots[j := s];
    assert slots'[j] == s;
    forall i | i in SlotsIds(slots') ensures i in (Ids(t) - Ids(slots[j].tree)) + IdsIn(s)
    {
      var k :| 0 <= k < |slots'| && i in IdsIn(slots'[k]);
      if k != j {
        assert i in IdsIn(slots[k]);
        assert Ids(slots[k].tree) !! Ids(slots[j].tree) by { assert j < k || k < j; }
      }
    }
    forall i | i in (Ids(t) - Ids(slots[j].tree)) + IdsIn(s) ensures i in SlotsIds(slots')
    {
      if i in IdsIn(s) {
        assert i in IdsIn(slots'[j]);
      } else {
        var k :| 0 <= k < |slots| && i in IdsIn(slots[k]);
        assert i in IdsIn(slots'[k]);
      }
    }
  }

  ghost predicate ChainOk(s: map<nat, Checkpoint>, i: nat, t: Tree, k: nat, outer: Option<Frame>, u: Update)
    requires t.hole.InSlots?
  {
    && i in s && FindFrame(s[i].parent, t.pid, t.index) == Some(SlotFrameOf(t, k, outer))
    && Apply(SlotFrameOf(t, k, outer), u).Some?
    && Amend(s[i].parent, t.pid, t.index, u).Some?
  }

  // What t comes to once slot j is known to end with v and the label `handed`.
  function SettledGoal(w: World, t: Tree, j: nat, v: Value, handed: Label): Option<Res>
    requires t.hole.InSlots? && j < |t.hole.slots|
  {
    Then(w, t.pid, t.remaining, t.index,
         SlotsGoal(t.hole.incoming, Join(t.hole.incoming, Agreed(t.lbl), handed),
                   DenoteSlots(w, t.hole.slots[j := Slot.Settled(v)])))
  }

  lemma SlotDenotes(w: World, t: Tree, j: nat, v: Value, handed: Label, ev: multiset<Event>)
    requires t.hole.InSlots? && j < |t.hole.slots| && t.hole.slots[j].Paused?
    requires Denote(w, t.hole.slots[j].tree) == Some(Res(v, handed, ev))
    ensures Denote(w, t) == Plus(ev, SettledGoal(w, t, j, v, handed))
  {
    var inc, c, slots, s := t.hole.incoming, Agreed(t.lbl), t.hole.slots, Slot.Settled(v);
    assert DenoteSlot(w, slots[j]) == Some(Res(v, handed, ev));
    assert DenoteSlot(w, s) == Some(Res(v, None, multiset{}));
    SlotChanges(w, inc, c, Join(inc, c, handed), slots, j, s, ev);
    SameSlotsGoal(inc, c, DenoteSlots(w, slots), ev, Join(inc, c, handed), DenoteSlots(w, slots[j := s]));
    ThenPlus(w, t.pid, t.remaining, t.index, ev, SlotsGoal(inc, Join(inc, c, handed), DenoteSlots(w, slots[j := s])));
  }

  // The end of one slot: a conflict, a write into the slots that wait, or, when none
  // does, the end of the parallel step.
  lemma SlotEnds(w: World, t: Tree, j: nat, outer: Option<Frame>, v: Value, handed: Label, a: Rows, st: State)
    returns (ev: multiset<Event>, left: Left)
    requires SlotOver(t, j, outer, a, st) && Fresh(RowsOf(st))
    ensures Carries(SettledGoal(w, t, j, v, handed), ev, w, t, outer, a, st,
                    Continue(w, Some(SlotFrameOf(t, j, outer)), v, handed, st), left)
  {
    var inc, slots := t.hole.incoming, t.hole.slots;
    var still := StillStored(t.hole.pending, st.store);
    ev := multiset{};
    SlotContinue(w, t, j, outer, v, handed, st);
    match Join(inc, Agreed(t.lbl), handed)
    case Conflict =>
      left := Broke;
      var d := DenoteSlots(w, slots[j := Slot.Settled(v)]);
      if d.Some? { JoinConflict(inc, d.value.labels); }
    case Agreed(l) =>
      if still == [] {
        ev, left := LastSlotEnds(w, t, j, outer, v, handed, l, a, st);
      } else {
        SiblingsAmended(t, j, outer, v, handed, l, a, st);
        left := Waiting(SettledTree(t, j, v, l));
        PlusNothing(Denote(w, SettledTree(t, j, v, l)));
      }
  }

  lemma PlusNothing(r: Option<Res>)
    ensures Plus(multiset{}, r) == r
  {
    if r.Some? { assert multiset{} + r.value.events == r.value.events; }
  }

  lemma OtherWaits(t: Tree, j: nat, k: nat, outer: Option<Frame>, a: Rows, st: State)
    requires SlotOver(t, j, outer, a, st) && k < |t.hole.slots| && k != j && t.hole.slots[k].Paused?
    ensures StillStored(t.hole.pending, st.store) != []
  {
    OtherRows(t, j, outer, a, st);
    var i := SomeId(t.hole.slots[k].tree, a.next);
    assert i in IdsIn(t.hole.slots[k]);
    assert Ids(t.hole.slots[k].tree) !! Ids(t.hole.slots[j].tree) by { assert j < k || k < j; }
  }

  lemma LastSlotEnds(w: World, t: Tree, j: nat, outer: Option<Frame>, v: Value, handed: Label, l: Label, a: Rows,
                     st: State)
    returns (ev: multiset<Event>, left: Left)
    requires SlotOver(t, j, outer, a, st) && Fresh(RowsOf(st))
    requires Join(t.hole.incoming, Agreed(t.lbl), handed) == Agreed(l)
    requires StillStored(t.hole.pending, st.store) == []
    ensures Carries(SettledGoal(w, t, j, v, handed), ev, w, t, outer, a, st,
                    Continue(w, Some(SlotFrameOf(t, j, outer)), v, handed, st), left)
  {
    var slots := t.hole.slots;
    var slots' := slots[j := Slot.Settled(v)];
    OtherRows(t, j, outer, a, st);
    SlotContinue(w, t, j, outer, v, handed, st);
    assert IdsIn(slots[j]) <= Ids(t);
    forall k | 0 <= k < |slots'| ensures slots'[k].Settled?
    {
      if k != j && slots[k].Paused? { OtherWaits(t, j, k, outer, a, st); }
    }
    SettledSlots(w, slots', t.hole.incoming, Agreed(l));
    assert Outputs(slots)[j := v] == Outputs(slots');
    var f := SlotFrameOf(t, j, outer);
    assert Ids(t) == Ids(slots[j].tree);
    ev, left := CloseCarries(w, t, f.(lbl := l), Items(Outputs(slots')), a, st);
  }

  // -------------------------------------------------------- the whole tree

  // A resumed map item: its output joins the settled ones, then the others run.
  lemma MapContinues(w: World, t: Tree, outer: Option<Frame>, v: Value, a: Rows, st: State)
    returns (ev: multiset<Event>, left: Left)
    requires t.hole.InMap? && Inside(t, outer, a) && Fresh(RowsOf(st))
    requires st.store == a.store - Ids(t) && st.next == a.next
    requires w.run(t.hole.call) == Some(v)
    ensures Carries(Denote(w, t), ev, w, t, outer, a, st,
                    Continue(w, Some(a.store[t.hole.id].parent), v, None, st), left)
  {
    var agentId, rest, results := t.hole.call.agentId, t.hole.rest, t.hole.settled + [v];
    var g := FrameOf(t, Mapping(agentId, t.hole.settled, rest), outer);
    assert a.store[t.hole.id].parent == g;
    var t1;
    ev, t1 := RunItemsRefines(w, agentId, rest, results, g, st);
    var (st1, r) := RunItems(w, agentId, rest, results, g, st);
    var goal := MapGoal(w, agentId, rest, results, t.lbl);
    match r
    case Failed(_) => left := Broke;
    case Suspended(_) =>
      left := Waiting(t1);
      ThenPlus(w, t.pid, t.remaining, t.index, ev, DenoteStep(w, t1));
      assert Ids(t1) == {t1.hole.id};
      MapWaits(t, t1, outer, a, st, st1);
    case Done(output, _) =>
      var ev2;
      ev2, left := CloseCarries(w, t, g, output, a, st1);
      PlusSome(output, t.lbl, ev);
      ThenPlus(w, t.pid, t.remaining, t.index, ev, Some(Res(output, t.lbl, multiset{})));
      CarriesAfter(Then(w, t.pid, t.remaining, t.index, Some(Res(output, t.lbl, multiset{}))), ev, ev2, w, t, outer, a,
                   st, st1, Close(w, g, output, st1), left);
      ev := ev + ev2;
  }

  lemma PlusSome(v: Value, l: Label, ev: multiset<Event>)
    ensures Plus(ev, Some(Res(v, l, multiset{}))) == Some(Res(v, l, ev))
  {
    assert ev + multiset{} == ev;
  }

  lemma MapWaits(t: Tree, t1: Tree, outer: Option<Frame>, a: Rows, st: State, st1: State)
    requires Inside(t, outer, a) && st.store == a.store - Ids(t) && st.next == a.next
    requires Keeps(RowsOf(st), RowsOf(st1)) && t1.hole.InMap? && t1.hole.call.skill == None && t1.pid == t.pid
    requires Stored(t1, outer, st1.store) && st.next <= t1.hole.id && st1.store.Keys == st.store.Keys + {t1.hole.id}
    ensures Becomes(t, t1, outer, a, RowsOf(st1))
  {
    assert Ids(t1) == {t1.hole.id};
  }

  // Agent run `id` of the tree has ended with v.
  lemma {:induction false} ContinueTree(w: World, t: Tree, outer: Option<Frame>, id: nat, v: Value, a: Rows, st: State)
    returns (ev: multiset<Event>, left: Left)
    requires Inside(t, outer, a) && id in Ids(t) && Linked(t, id) && id in a.store
    requires st.store == a.store - {id} && st.next == a.next
    requires w.run(a.store[id].call) == Some(v)
    ensures Carries(Denote(w, t), ev, w, t, outer, a, st, Continue(w, Some(a.store[id].parent), v, None, st), left)
    decreases t
  {
    match t.hole
    case Leaf(_, _, _) =>
      var f := FrameOf(t, Plain, outer);
      ev, left := CloseCarries(w, t, f, v, a, st);
    case InMap(_, _, _, _, _) =>
      ev, left := MapContinues(w, t, outer, v, a, st);
    case InArm(arm) =>
      var f := FrameOf(t, Plain, outer);
      ev, left := ContinueTree(w, arm, Some(f), id, v, a, st);
      ev, left := ArmCarries(w, t, arm, outer, ev, left, a, st, Continue(w, Some(a.store[id].parent), v, None, st));
    case InSlots(incoming, pending, slots) =>
      var j :| 0 <= j < |slots| && id in IdsIn(slots[j]);
      ev, left := ContinueTree(w, slots[j].tree, Some(SlotFrameOf(t, j, outer)), id, v, a, st);
      ev, left := SlotCarries(w, t, j, outer, ev, left, a, st, Continue(w, Some(a.store[id].parent), v, None, st));
  }

  lemma ArmCarries(w: World, t: Tree, arm: Tree, outer: Option<Frame>, ev0: multiset<Event>, left0: Left,
                   a: Rows, st: State, result: (State, Outcome))
    returns (ev: multiset<Event>, left: Left)
    requires t.hole == InArm(arm) && Inside(t, outer, a)
    requires Carries(Denote(w, arm), ev0, w, arm, Some(FrameOf(t, Plain, outer)), a, st, result, left0)
    ensures Carries(Denote(w, t), ev, w, t, outer, a, st, result, left)
  {
    ev, left := ev0, left0;
    assert Ids(t) == Ids(arm);
    match left0
    case Broke =>
    case Waiting(arm') =>
      var t' := t.(hole := InArm(arm'));
      left := Waiting(t');
      ThenPlus(w, t.pid, t.remaining, t.index, ev0, DenoteStep(w, t'));
      ArmBecomes(t, arm, arm', outer, a, RowsOf(result.0));
    case Over(v, l, stE) =>
      var f := FrameOf(t, Plain, outer);
      var l' := Adopt(t.lbl, l);
      assert result == Close(w, f.(lbl := l'), v, stE);
      var ev2;
      ev2, left := CloseCarries(w, t, f.(lbl := l'), v, a, stE);
      PlusSome(v, l', ev0);
      ThenPlus(w, t.pid, t.remaining, t.index, ev0, Some(Res(v, l', multiset{})));
      CarriesAfter(Then(w, t.pid, t.remaining, t.index, Some(Res(v, l', multiset{}))), ev0, ev2, w, t, outer, a, st,
                   stE, result, left);
      ev := ev0 + ev2;
  }

  lemma ArmBecomes(t: Tree, arm: Tree, arm': Tree, outer: Option<Frame>, a: Rows, b: Rows)
    requires t.hole == InArm(arm) && Inside(t, outer, a)
    requires Becomes(arm, arm', Some(FrameOf(t, Plain, outer)), a, b)
    ensures Becomes(t, t.(hole := InArm(arm')), outer, a, b)
  {
    var t' := t.(hole := InArm(arm'));
    assert FrameOf(t', Plain, outer) == FrameOf(t, Plain, outer);
    assert Ids(t) == Ids(arm) && Ids(t') == Ids(arm');
  }

  lemma SlotCarries(w: World, t: Tree, j: nat, outer: Option<Frame>, ev0: multiset<Event>, left0: Left,
                    a: Rows, st: State, result: (State, Outcome))
    returns (ev: multiset<Event>, left: Left)
    requires Inside(t, outer, a) && t.hole.InSlots? && j < |t.hole.slots| && t.hole.slots[j].Paused?
    requires OthersListed(t.hole.slots, j, t.hole.pending)
    requires Carries(Denote(w, t.hole.slots[j].tree), ev0, w, t.hole.slots[j].tree, Some(SlotFrameOf(t, j, outer)), a,
                     st, result, left0)
    ensures Carries(Denote(w, t), ev, w, t, outer, a, st, result, left)
  {
    ev, left := ev0, left0;
    var slots, sub := t.hole.slots, t.hole.slots[j].tree;
    match left0
    case Broke =>
      SlotBroke(w, t, j);
    case Waiting(sub') =>
      var t' := t.(hole := t.hole.(slots := slots[j := Slot.Paused(sub')]));
      left := Waiting(t');
      SlotWaits(w, t, t', j, sub', ev0);
      SlotBecomes(t, t', j, sub', outer, a, RowsOf(result.0));
    case Over(v, l, stE) =>
      var ev2;
      ev2, left := SlotEnds(w, t, j, outer, v, l, a, stE);
      SlotDenotes(w, t, j, v, l, ev0);
      CarriesAfter(SettledGoal(w, t, j, v, l), ev0, ev2, w, t, outer, a, st, stE, result, left);
      ev := ev0 + ev2;
  }

  lemma SlotBroke(w: World, t: Tree, j: nat)
    requires t.hole.InSlots? && j < |t.hole.slots| && t.hole.slots[j].Paused?
    requires Denote(w, t.hole.slots[j].tree) == None
    ensures Denote(w, t) == None
  {
    SlotChanges(w, t.hole.incoming, Conflict, Conflict, t.hole.slots, j, t.hole.slots[j], multiset{});
  }

  lemma SlotWaits(w: World, t: Tree, t': Tree, j: nat, sub': Tree, ev: multiset<Event>)
    requires t.hole.InSlots? && j < |t.hole.slots| && t.hole.slots[j].Paused?
    requires t' == t.(hole := t.hole.(slots := t.hole.slots[j := Slot.Paused(sub')]))
    requires Denote(w, t.hole.slots[j].tree) == Plus(ev, Denote(w, sub'))
    ensures Denote(w, t) == Plus(ev, Denote(w, t'))
  {
    var inc, c, slots := t.hole.incoming, Agreed(t.lbl), t.hole.slots;
    SlotStillPaused(w, inc, c, slots, j, sub', ev);
    DenoteUnfold(w, t);
    DenoteUnfold(w, t');
    ThenPlus(w, t.pid, t.remaining, t.index, ev, SlotsGoal(inc, c, DenoteSlots(w, t'.hole.slots)));
  }

  lemma DenoteUnfold(w: World, t: Tree)
    requires t.hole.InSlots?
    ensures Denote(w, t) == Then(w, t.pid, t.remaining, t.index,
                                 SlotsGoal(t.hole.incoming, Agreed(t.lbl), DenoteSlots(w, t.hole.slots)))
  {
  }

  lemma SlotStillPaused(w: World, incoming: Label, c: Joined, slots: seq<Slot>, j: nat, sub': Tree, ev: multiset<Event>)
    requires j < |slots| && slots[j].Paused? && Denote(w, slots[j].tree) == Plus(ev, Denote(w, sub'))
    ensures SlotsGoal(incoming, c, DenoteSlots(w, slots))
         == Plus(ev, SlotsGoal(incoming, c, DenoteSlots(w, slots[j := Slot.Paused(sub')])))
  {
    var s := Slot.Paused(sub');
    var d, d' := DenoteSlot(w, slots[j]), DenoteSlot(w, s);
    assert d == Denote(w, slots[j].tree) && d' == Denote(w, sub');
    SlotChanges(w, incoming, c, c, slots, j, s, ev);
    SameSlotsGoal(incoming, c, DenoteSlots(w, slots), ev, c, DenoteSlots(w, slots[j := s]));
  }

  // A slot that waits again leaves the frames of every slot as they were.
  lemma SlotBecomes(t: Tree, t': Tree, j: nat, sub': Tree, outer: Option<Frame>, a: Rows, b: Rows)
    requires Inside(t, outer, a) && t.hole.InSlots? && j < |t.hole.slots| && t.hole.slots[j].Paused?
    requires t' == t.(hole := t.hole.(slots := t.hole.slots[j := Slot.Paused(sub')]))
    requires Becomes(t.hole.slots[j].tree, sub', Some(SlotFrameOf(t, j, outer)), a, b)
    ensures Becomes(t, t', outer, a, b)
  {
    var slots, slots' := t.hole.slots, t'.hole.slots;
    StoredIds(t, outer, a.store);
    assert IdsIn(slots[j]) <= Ids(t);
    assert Outputs(slots') == Outputs(slots);
    forall k | 0 <= k < |slots'| && slots'[k].Paused? ensures SlotInside(t', k, outer, b)
    {
      assert SlotFrameOf(t', k, outer) == SlotFrameOf(t, k, outer);
      if k != j {
        assert IdsIn(slots[k]) <= Ids(t);
        assert Ids(slots[k].tree) !! Ids(slots[j].tree) by { assert j < k || k < j; }
        StoredFrame(slots[k].tree, Some(SlotFrameOf(t, k, outer)), a.store, b.store);
        TidyFrame(slots[k].tree, a.next, a.store, b.store);
        ShapeGrows(slots[k].tree, a.next, b.next);
      }
    }
    assert slots'[j].Paused?;
    SlotReplaced(t, t', j, outer, a, b);
  }

  // ------------------------------------------------------------ one resume

  // A run that pauses again is the same tree with a new row for that leaf.
  lemma {:induction false} PauseAgain(w: World, t: Tree, outer: Option<Frame>, id: nat, a: Rows, b: Rows)
    returns (t': Tree)
    requires Inside(t, outer, a) && id in Ids(t) && id in a.store && a.store[id].pauses > 0
    requires b == Rows((a.store - {id})[a.next := a.store[id].(pauses := a.store[id].pauses - 1)], a.next + 1)
    ensures Becomes(t, t', outer, a, b) && Denote(w, t) == Denote(w, t')
    decreases t
  {
    match t.hole
    case Leaf(_, call, pauses) =>
      t' := t.(hole := Leaf(a.next, call, pauses - 1));
      assert Ids(t') == {a.next};
    case InMap(_, call, pauses, settled, rest) =>
      t' := t.(hole := InMap(a.next, call, pauses - 1, settled, rest));
      assert Ids(t') == {a.next};
    case InArm(arm) =>
      var arm' := PauseAgain(w, arm, Some(FrameOf(t, Plain, outer)), id, a, b);
      t' := t.(hole := InArm(arm'));
      ArmBecomes(t, arm, arm', outer, a, b);
    case InSlots(_, _, slots) =>
      var j :| 0 <= j < |slots| && id in IdsIn(slots[j]);
      var sub' := PauseAgain(w, slots[j].tree, Some(SlotFrameOf(t, j, outer)), id, a, b);
      t' := t.(hole := t.hole.(slots := slots[j := Slot.Paused(sub')]));
      PlusNothing(Denote(w, sub'));
      SlotWaits(w, t, t', j, sub', multiset{});
      PlusNothing(Denote(w, t'));
      SlotBecomes(t, t', j, sub', outer, a, b);
  }

  /**
    Resuming one stored checkpoint of a suspended pipeline: what is still to come is
    what was to come less the events of this resume, every other row is untouched, and
    the resume fails only when plain evaluation fails.
  */
  lemma {:induction false} ResumeCarries(w: World, t: Tree, id: nat, st: State)
    returns (ev: multiset<Event>, left: Left)
    requires Inside(t, None, RowsOf(st)) && id in Ids(t)
    requires id in st.store && (st.store[id].pauses == 0 ==> Linked(t, id))
    ensures Carries(Denote(w, t), ev, w, t, None, RowsOf(st), st, Resume(w, id, st), left)
  {
    var cp := st.store[id];
    var st0 := st.(store := st.store - {id});
    ev := multiset{};
    if cp.pauses > 0 {
      var b := Resume(w, id, st).0;
      var t' := PauseAgain(w, t, None, id, RowsOf(st), RowsOf(b));
      PlusNothing(Denote(w, t'));
      left := Waiting(t');
    } else if w.run(cp.call) == None {
      left := Broke;
      LeafThrows(w, t, None, id, RowsOf(st));
    } else {
      ev, left := ContinueTree(w, t, None, id, w.run(cp.call).value, RowsOf(st), st0);
    }
  }

  lemma {:induction false} LeafThrows(w: World, t: Tree, outer: Option<Frame>, id: nat, a: Rows)
    requires Inside(t, outer, a) && id in Ids(t) && id in a.store && w.run(a.store[id].call) == None
    ensures Denote(w, t) == None
    decreases t
  {
    match t.hole
    case Leaf(_, _, _) =>
    case InMap(_, _, _, _, _) =>
    case InArm(arm) => LeafThrows(w, arm, Some(FrameOf(t, Plain, outer)), id, a);
    case InSlots(_, _, slots) =>
      var j :| 0 <= j < |slots| && id in IdsIn(slots[j]);
      LeafThrows(w, slots[j].tree, Some(SlotFrameOf(t, j, outer)), id, a);
      SlotBroke(w, t, j);
  }
}
