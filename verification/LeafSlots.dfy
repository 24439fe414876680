/**
  A parallel step whose slots are agents, resumed in any order whatever: exactly when what
  it ends with is right. Slots may pause again beside waiting ones, and then the rows no
  longer know the same outputs; so each waiting slot is followed with what its own row knows.
*/
module LeafSlots {
  import opened Wrappers
  import opened PipelineModel
  import opened PipelineMachine
  import opened SuspendedTree
  import opened RunRefinement
  import opened ResumeRefinement
  import opened PipelineMeaning

  // ------------------------------------------------------ the step and its rows

  // The step, the ids its frames list, and the rows of other runs. None of these changes
  // while the step waits.
  datatype Scene = Scene(
    w: World, pid: Pid, slots: seq<Step>, value: Value, lbl: Label, listed: seq<nat>, others: set<nat>)
  {
    function Output(k: nat): (v: Value)
      requires AllAgents(w, slots, value) && k < |slots|
      ensures v != Null
    {
      w.run(CallOf(slots[k], value)).value
    }

    // The frame of the step that slot k's row carries, knowing the outputs `known`.
    function StepFrame(k: nat, known: seq<Value>): Frame
    {
      Frame(pid, 0, [], lbl, InSlot(k, known, listed, lbl), None)
    }

    function LeafFrame(k: nat, known: seq<Value>): Frame
    {
      Frame(SlotPid(pid, 0, k), 0, [], lbl, Plain, Some(StepFrame(k, known)))
    }
  }

  function CallOf(slot: Step, value: Value): Call
  {
    if slot.AgentStep? then Call(slot.agentId, slot.skill, value) else Call("", None, value)
  }

  // Every slot is an agent that ends with an output other than null.
  ghost predicate AllAgents(w: World, slots: seq<Step>, value: Value)
  {
    forall k :: 0 <= k < |slots| ==>
      slots[k].AgentStep? && w.run(CallOf(slots[k], value)).Some? && w.run(CallOf(slots[k], value)).value != Null
  }

  ghost function AgentOutputs(w: World, slots: seq<Step>, value: Value): (outputs: seq<Value>)
    requires AllAgents(w, slots, value)
    ensures |outputs| == |slots|
    ensures forall k :: 0 <= k < |slots| ==> outputs[k] == w.run(CallOf(slots[k], value)).value
  {
    seq(|slots|, k requires 0 <= k < |slots| => w.run(CallOf(slots[k], value)).value)
  }

  // Where a slot is: ended, or waiting in a row that knows some of the outputs.
  datatype Place = Finished | Waits(id: nat, pauses: nat, known: seq<Value>)

  ghost predicate RowAt(c: Scene, st: State, k: nat, p: Place)
    requires k < |c.slots|
  {
    p.Waits? ==>
      && p.id in st.store && p.id !in c.others && p.id < st.next && |p.known| == |c.slots|
      && st.store[p.id] == Checkpoint(CallOf(c.slots[k], c.value), p.pauses, c.LeafFrame(k, p.known))
  }

  ghost predicate HeldBy(places: seq<Place>, i: nat)
  {
    exists k :: 0 <= k < |places| && places[k].Waits? && places[k].id == i
  }

  // Two waiting slots have two rows.
  ghost predicate RowsApart(places: seq<Place>)
  {
    forall j, k :: 0 <= j < k < |places| && places[j].Waits? && places[k].Waits? ==> places[j].id != places[k].id
  }

  // The rows of this run are those of the waiting slots, one each.
  ghost predicate At(c: Scene, places: seq<Place>, st: State)
  {
    && |places| == |c.slots|
    && (forall k :: 0 <= k < |places| ==> RowAt(c, st, k, places[k]))
    && RowsApart(places)
    && (forall i :: i in st.store && i !in c.others ==> HeldBy(places, i))
  }

  ghost predicate Listing(c: Scene, st: State)
  {
    && c.listed != [] && NoDup(c.listed)
    && (forall p :: p in c.listed ==> p < st.next && p !in c.others)
    && (forall p :: p in c.others ==> p < st.next)
  }

  // Another row of the run is stored.
  ghost predicate AnotherWaits(st: State, others: set<nat>, id: nat)
  {
    exists i :: i in st.store && i !in others && i != id
  }

  ghost predicate AloneAt(places: seq<Place>, k: nat)
  {
    forall m :: 0 <= m < |places| && m != k ==> places[m].Finished?
  }

  lemma AloneIsAlone(c: Scene, places: seq<Place>, st: State, k: nat)
    requires At(c, places, st) && k < |places| && places[k].Waits?
    ensures AnotherWaits(st, c.others, places[k].id) <==> !AloneAt(places, k)
  {
    if m :| 0 <= m < |places| && m != k && !places[m].Finished? {
      assert RowAt(c, st, m, places[m]);
      assert places[m].id != places[k].id by { assert m < k || k < m; }
    }
  }

  // ------------------------------------------------------------- one resume

  // The agent of slot k pauses again: a new row, which no frame lists.
  lemma LeafRepauses(c: Scene, places: seq<Place>, st: State, k: nat)
    requires Listing(c, st) && At(c, places, st) && k < |places| && places[k].Waits? && places[k].pauses > 0
    ensures var p := places[k];
      var (st1, r) := Resume(c.w, p.id, st);
      && r.Suspended? && st1.next == st.next + 1 && Listing(c, st1)
      && At(c, places[k := Waits(st.next, p.pauses - 1, p.known)], st1)
  {
    var p := places[k];
    var places' := places[k := Waits(st.next, p.pauses - 1, p.known)];
    var st1 := Resume(c.w, p.id, st).0;
    assert RowAt(c, st, k, p);
    var row := Checkpoint(st.store[p.id].call, p.pauses - 1, st.store[p.id].parent);
    assert st1.store == (st.store - {p.id})[st.next := row];
    forall m | 0 <= m < |places'| ensures RowAt(c, st1, m, places'[m])
    {
      assert RowAt(c, st, m, places[m]);
      assert m != k ==> m < k || k < m;
    }
    forall i | i in st1.store && i !in c.others ensures HeldBy(places', i)
    {
      if i == st.next {
        assert places'[k].id == i;
      } else {
        assert HeldBy(places, i);
        var m :| 0 <= m < |places| && places[m].Waits? && places[m].id == i;
        assert places'[m] == places[m];
      }
    }
  }

  // What slot k's end leaves when listed rows still wait: those come to know its output.
  ghost function Told(c: Scene, places: seq<Place>, k: nat): (told: seq<Place>)
    requires AllAgents(c.w, c.slots, c.value) && k < |places| == |c.slots|
    requires forall m :: 0 <= m < |places| && places[m].Waits? ==> |places[m].known| == |c.slots|
    ensures |told| == |places|
  {
    seq(|places|, m requires 0 <= m < |places| =>
      if m == k then Finished
      else if places[m].Waits? && places[m].id in c.listed then places[m].(known := places[m].known[k := c.Output(k)])
      else places[m])
  }

  ghost predicate ListedWaits(c: Scene, places: seq<Place>, k: nat)
  {
    exists m :: 0 <= m < |places| && m != k && places[m].Waits? && places[m].id in c.listed
  }

  // The state in which slot k's output reaches the step.
  function AfterLeaf(c: Scene, st: State, k: nat, id: nat): State
    requires AllAgents(c.w, c.slots, c.value) && k < |c.slots|
  {
    st.(store := st.store - {id}).Emit(Ended(SlotPid(c.pid, 0, k), 0, c.Output(k)))
  }

  lemma LeafCloses(c: Scene, places: seq<Place>, st: State, k: nat)
    requires AllAgents(c.w, c.slots, c.value) && Listing(c, st) && At(c, places, st)
    requires k < |places| && places[k].Waits? && places[k].pauses == 0
    ensures var p := places[k];
      Resume(c.w, p.id, st)
      == Continue(c.w, Some(c.StepFrame(k, p.known)), c.Output(k), c.lbl, AfterLeaf(c, st, k, p.id))
  {
    var p := places[k];
    assert RowAt(c, st, k, p);
    var f, st0 := c.LeafFrame(k, p.known), st.(store := st.store - {p.id});
    assert Resume(c.w, p.id, st) == Continue(c.w, Some(f), c.Output(k), None, st0);
    assert f.(lbl := Adopt(f.lbl, None)) == f;
    assert Continue(c.w, Some(f), c.Output(k), None, st0) == Close(c.w, f, c.Output(k), st0);
  }

  lemma StillListed(c: Scene, places: seq<Place>, st: State, k: nat)
    requires AllAgents(c.w, c.slots, c.value) && Listing(c, st) && At(c, places, st)
    requires k < |places| && places[k].Waits?
    ensures StillStored(c.listed, AfterLeaf(c, st, k, places[k].id).store) != [] <==> ListedWaits(c, places, k)
  {
    var s := AfterLeaf(c, st, k, places[k].id).store;
    var still := StillStored(c.listed, s);
    StillStoredIds(c.listed, s);
    if still != [] {
      assert still[0] in still;
      assert HeldBy(places, still[0]);
    }
    if m :| 0 <= m < |places| && m != k && places[m].Waits? && places[m].id in c.listed {
      assert RowAt(c, st, m, places[m]);
      assert m < k || k < m;
      assert places[m].id in still;
    }
  }

  // With no listed row left the step is over, with what slot k's row knows.
  lemma LeafPasses(c: Scene, places: seq<Place>, st: State, k: nat)
    requires AllAgents(c.w, c.slots, c.value) && Listing(c, st) && At(c, places, st)
    requires k < |places| && places[k].Waits? && places[k].pauses == 0 && !ListedWaits(c, places, k)
    ensures |places[k].known| == |c.slots|
    ensures Resume(c.w, places[k].id, st).1 == Done(Items(places[k].known[k := c.Output(k)]), c.lbl)
  {
    var p := places[k];
    assert RowAt(c, st, k, p);
    LeafCloses(c, places, st, k);
    StillListed(c, places, st, k);
    var f, st1, merged := c.StepFrame(k, p.known), AfterLeaf(c, st, k, p.id), Items(p.known[k := c.Output(k)]);
    assert Continue(c.w, Some(f), c.Output(k), c.lbl, st1) == Close(c.w, f.(lbl := c.lbl), merged, st1);
  }

  // Else the listed rows, and only they, are told.
  lemma LeafTells(c: Scene, places: seq<Place>, st: State, k: nat)
    requires AllAgents(c.w, c.slots, c.value) && Listing(c, st) && At(c, places, st)
    requires k < |places| && places[k].Waits? && places[k].pauses == 0 && ListedWaits(c, places, k)
    ensures forall m :: 0 <= m < |places| && places[m].Waits? ==> |places[m].known| == |c.slots|
    ensures var (st1, r) := Resume(c.w, places[k].id, st);
      && r == Suspended([]) && st1.next == st.next && Listing(c, st1) && At(c, Told(c, places, k), st1)
  {
    forall m | 0 <= m < |places| && places[m].Waits? ensures |places[m].known| == |c.slots|
    {
      assert RowAt(c, st, m, places[m]);
    }
    LeafCloses(c, places, st, k);
    StillListed(c, places, st, k);
    var store' := AfterTold(c, st, k, places[k].id);
    RowsTold(c, places, st, k);
    assert Resume(c.w, places[k].id, st) == (AfterLeaf(c, st, k, places[k].id).(store := store'), Suspended([]));
    ToldRows(c, places, st, k, store');
  }

  function AfterTold(c: Scene, st: State, k: nat, id: nat): map<nat, Checkpoint>
    requires AllAgents(c.w, c.slots, c.value) && k < |c.slots|
  {
    var s := AfterLeaf(c, st, k, id).store;
    AmendAll(s, StillStored(c.listed, s), c.pid, 0, SettleSlot(k, c.Output(k), c.lbl)).0
  }

  lemma RowsTold(c: Scene, places: seq<Place>, st: State, k: nat)
    requires AllAgents(c.w, c.slots, c.value) && Listing(c, st) && At(c, places, st)
    requires k < |places| && places[k].Waits?
    ensures var s, u := AfterLeaf(c, st, k, places[k].id).store, SettleSlot(k, c.Output(k), c.lbl);
      && AmendAll(s, StillStored(c.listed, s), c.pid, 0, u).1
      && AfterTold(c, st, k, places[k].id).Keys == s.Keys
      && forall i :: i in s ==>
           AfterTold(c, st, k, places[k].id)[i] == if i in c.listed then AmendOne(s, i, c.pid, 0, u)[i] else s[i]
  {
    var s, u := AfterLeaf(c, st, k, places[k].id).store, SettleSlot(k, c.Output(k), c.lbl);
    StillStoredIds(c.listed, s);
    forall i | i in StillStored(c.listed, s) ensures !Clashes(s, i, c.pid, 0, u)
    {
      assert HeldBy(places, i);
      var m :| 0 <= m < |places| && places[m].Waits? && places[m].id == i;
      LeafAmended(c, places, st, m, k);
    }
    AmendAllRows(s, StillStored(c.listed, s), c.pid, 0, u);
  }

  lemma LeafAmended(c: Scene, places: seq<Place>, st: State, m: nat, k: nat)
    requires AllAgents(c.w, c.slots, c.value) && At(c, places, st) && k < |places| && m < |places| && places[m].Waits?
    ensures |places[m].known| == |c.slots| && places[m].id in st.store
    ensures var row, u := st.store[places[m].id], SettleSlot(k, c.Output(k), c.lbl);
      && FindFrame(row.parent, c.pid, 0) == Some(c.StepFrame(m, places[m].known))
      && Apply(c.StepFrame(m, places[m].known), u).Some?
      && Amend(row.parent, c.pid, 0, u) == Some(c.LeafFrame(m, places[m].known[k := c.Output(k)]))
  {
    assert RowAt(c, st, m, places[m]);
  }

  lemma ToldRows(c: Scene, places: seq<Place>, st: State, k: nat, store': map<nat, Checkpoint>)
    requires AllAgents(c.w, c.slots, c.value) && Listing(c, st) && At(c, places, st) && k < |places| && places[k].Waits?
    requires forall m :: 0 <= m < |places| && places[m].Waits? ==> |places[m].known| == |c.slots|
    requires store'.Keys == st.store.Keys - {places[k].id}
    requires var u := SettleSlot(k, c.Output(k), c.lbl);
      forall i :: i in store' ==>
        store'[i] == if i in c.listed then AmendOne(st.store - {places[k].id}, i, c.pid, 0, u)[i] else st.store[i]
    ensures At(c, Told(c, places, k), AfterLeaf(c, st, k, places[k].id).(store := store'))
  {
    var st', told := AfterLeaf(c, st, k, places[k].id).(store := store'), Told(c, places, k);
    forall m | 0 <= m < |told| ensures RowAt(c, st', m, told[m])
    {
      assert RowAt(c, st, m, places[m]);
      if m != k && places[m].Waits? {
        assert m < k || k < m;
        LeafAmended(c, places, st, m, k);
      }
    }
    forall i | i in st'.store && i !in c.others ensures HeldBy(told, i)
    {
      assert HeldBy(places, i);
      var m :| 0 <= m < |places| && places[m].Waits? && places[m].id == i;
      assert told[m].Waits? && told[m].id == i;
    }
  }

  // ------------------------------------------------------- what a row knows

  // `beside` are the rows left by runs that have paused again beside a waiting row.
  ghost predicate Informed(c: Scene, places: seq<Place>, beside: set<nat>)
    requires AllAgents(c.w, c.slots, c.value) && |places| == |c.slots|
  {
    forall k :: 0 <= k < |places| && places[k].Waits? ==> RowInformed(c, places, k, beside)
  }

  // A row knows no output of a slot that waits. It is listed or alone and knows every other,
  // or it is not listed and there is one it does not know.
  ghost predicate RowInformed(c: Scene, places: seq<Place>, k: nat, beside: set<nat>)
    requires AllAgents(c.w, c.slots, c.value) && k < |places| == |c.slots| && places[k].Waits?
  {
    var known := places[k].known;
    && |known| == |c.slots|
    && (forall m :: 0 <= m < |places| && !places[m].Finished? ==> known[m] == Null)
    && (if places[k].id in beside then
          places[k].id !in c.listed && exists m :: 0 <= m < |places| && m != k && known[m] == Null
        else
          && (places[k].id in c.listed || AloneAt(places, k))
          && forall m :: 0 <= m < |places| && places[m].Finished? ==> known[m] == c.Output(m))
  }

  // The rows left beside others after row `id` has paused again as row `next`.
  function BesideAfter(beside: set<nat>, id: nat, next: nat, another: bool): set<nat>
  {
    if another || id in beside then beside + {next} else beside
  }

  lemma RepauseInforms(c: Scene, places: seq<Place>, st: State, k: nat, beside: set<nat>)
    requires AllAgents(c.w, c.slots, c.value) && Listing(c, st) && At(c, places, st) && Informed(c, places, beside)
    requires k < |places| && places[k].Waits? && places[k].pauses > 0 && forall i :: i in beside ==> i < st.next
    ensures var p := places[k];
      Informed(c, places[k := Waits(st.next, p.pauses - 1, p.known)],
               BesideAfter(beside, p.id, st.next, !AloneAt(places, k)))
  {
    var p := places[k];
    var places' := places[k := Waits(st.next, p.pauses - 1, p.known)];
    var beside' := BesideAfter(beside, p.id, st.next, !AloneAt(places, k));
    forall m | 0 <= m < |places'| && places'[m].Waits? ensures RowInformed(c, places', m, beside')
    {
      assert RowAt(c, st, m, places[m]) && RowInformed(c, places, m, beside) && RowInformed(c, places, k, beside);
      assert forall n :: 0 <= n < |places| ==> places'[n].Finished? == places[n].Finished?;
      assert AloneAt(places', m) == AloneAt(places, m);
    }
  }

  lemma EndInforms(c: Scene, places: seq<Place>, st: State, k: nat, beside: set<nat>)
    requires AllAgents(c.w, c.slots, c.value) && At(c, places, st) && Informed(c, places, beside)
    requires k < |places| && places[k].Waits?
    requires forall m :: 0 <= m < |places| && places[m].Waits? ==> |places[m].known| == |c.slots|
    ensures Informed(c, Told(c, places, k), beside)
  {
    var told := Told(c, places, k);
    forall m | 0 <= m < |told| && told[m].Waits? ensures RowInformed(c, told, m, beside)
    {
      assert RowInformed(c, places, m, beside);
      assert !AloneAt(places, m);
      assert forall n :: 0 <= n < |told| && n != k ==> told[n].Finished? == places[n].Finished?;
      if told[m].id in beside {
        var n :| 0 <= n < |places| && n != m && places[m].known[n] == Null;
        assert told[m].known[n] == Null;
      }
    }
  }

  // The slot that passes the step has every output right exactly when it is alone and has
  // never paused again beside another.
  lemma PassesRight(c: Scene, places: seq<Place>, k: nat, beside: set<nat>)
    requires AllAgents(c.w, c.slots, c.value) && |places| == |c.slots| && Informed(c, places, beside)
    requires k < |places| && places[k].Waits?
    ensures |places[k].known| == |c.slots|
    ensures places[k].known[k := c.Output(k)] == AgentOutputs(c.w, c.slots, c.value)
       <==> AloneAt(places, k) && places[k].id !in beside
  {
    var known, outputs := places[k].known, AgentOutputs(c.w, c.slots, c.value);
    assert RowInformed(c, places, k, beside);
    if places[k].id in beside {
      var m :| 0 <= m < |places| && m != k && known[m] == Null;
      assert known[k := c.Output(k)][m] != outputs[m];
    } else if !AloneAt(places, k) {
      var m :| 0 <= m < |places| && m != k && !places[m].Finished?;
      assert known[k := c.Output(k)][m] != outputs[m];
    }
  }

  // ------------------------------------------------------------- whole runs

  // Every resume is of a stored row of this run.
  ghost predicate OwnRows(w: World, ids: seq<nat>, st: State, others: set<nat>)
    decreases ids
  {
    ids != [] ==>
      && ids[0] in st.store && ids[0] !in others
      && (Resume(w, ids[0], st).1.Suspended? ==> OwnRows(w, ids[1..], Resume(w, ids[0], st).0, others))
  }

  // The slot that ends the play ends with no other waiting, and its agent run has never
  // paused again while another slot waited.
  ghost predicate LastNeverBeside(w: World, ids: seq<nat>, st: State, others: set<nat>, beside: set<nat>)
    decreases ids
  {
    ids != [] && ids[0] in st.store &&
    var (st1, r) := Resume(w, ids[0], st);
    var another := AnotherWaits(st, others, ids[0]);
    if st.store[ids[0]].pauses > 0 then
      LastNeverBeside(w, ids[1..], st1, others, BesideAfter(beside, ids[0], st.next, another))
    else if r.Suspended? then LastNeverBeside(w, ids[1..], st1, others, beside)
    else !another && ids[0] !in beside
  }

  // The play ends right exactly when its last slot was never left behind.
  ghost predicate RightIffLast(c: Scene, ids: seq<nat>, st: State, beside: set<nat>)
    requires AllAgents(c.w, c.slots, c.value)
  {
    var r := Play(c.w, ids, st).1;
    && !r.Failed?
    && (r.Done? ==>
          && r.lbl == c.lbl
          && (r.value == Items(AgentOutputs(c.w, c.slots, c.value))
              <==> LastNeverBeside(c.w, ids, st, c.others, beside)))
  }

  lemma {:induction false} PlayLeaves(c: Scene, places: seq<Place>, ids: seq<nat>, st: State, beside: set<nat>)
    requires AllAgents(c.w, c.slots, c.value) && Listing(c, st) && At(c, places, st) && Informed(c, places, beside)
    requires OwnRows(c.w, ids, st, c.others) && forall i :: i in beside ==> i < st.next
    ensures RightIffLast(c, ids, st, beside)
    decreases ids
  {
    if ids != [] {
      assert HeldBy(places, ids[0]);
      var k :| 0 <= k < |places| && places[k].Waits? && places[k].id == ids[0];
      var st1 := Resume(c.w, ids[0], st).0;
      assert RowAt(c, st, k, places[k]);
      AloneIsAlone(c, places, st, k);
      if places[k].pauses > 0 {
        LeafRepauses(c, places, st, k);
        RepauseInforms(c, places, st, k, beside);
        PlayLeaves(c, places[k := Waits(st.next, places[k].pauses - 1, places[k].known)], ids[1..], st1,
                   BesideAfter(beside, ids[0], st.next, !AloneAt(places, k)));
      } else if ListedWaits(c, places, k) {
        LeafTells(c, places, st, k);
        EndInforms(c, places, st, k, beside);
        PlayLeaves(c, Told(c, places, k), ids[1..], st1, beside);
      } else {
        LeafPasses(c, places, st, k);
        PassesRight(c, places, k, beside);
      }
    }
  }

  // ------------------------------------------------------------ the first pause

  // What a slot leaves behind before the sibling data is filled in.
  ghost predicate FreshRow(slots: seq<Step>, slot: nat, value: Value, parent: Frame, store: map<nat, Checkpoint>,
                           from: nat, next: nat, k: nat, p: Place)
    requires k < |slots|
  {
    p.Waits? ==>
      && from <= p.id < next && p.id in store
      && store[p.id] == Checkpoint(CallOf(slots[k], value), p.pauses, SlotStepFrame(parent, slot + k))
  }

  // The rows the slots added are those of `places`, in slot order, and `ids` names them.
  ghost predicate Begun(slots: seq<Step>, slot: nat, value: Value, parent: Frame, st: State, st': State,
                        places: seq<Place>, ids: seq<nat>)
  {
    && |places| == |slots| && st.next <= st'.next
    && (forall k :: 0 <= k < |places| ==>
          FreshRow(slots, slot, value, parent, st'.store, st.next, st'.next, k, places[k]))
    && RowsApart(places)
    && (forall i :: i in st'.store ==> i in st.store || HeldBy(places, i))
    && (forall i :: i in st.store ==> i in st'.store && st'.store[i] == st.store[i])
    && NoDup(ids) && (forall i :: i in ids <==> HeldBy(places, i))
  }

  // What the step knows once all slots have settled: the outputs of those that did not pause.
  ghost function KnownAtFirst(w: World, slots: seq<Step>, value: Value, places: seq<Place>): (known: seq<Value>)
    requires AllAgents(w, slots, value) && |places| == |slots|
    ensures |known| == |slots|
  {
    seq(|slots|, k requires 0 <= k < |slots| =>
      if places[k].Finished? then w.run(CallOf(slots[k], value)).value else Null)
  }

  // The first of the slots has ended with r, or left row st.next.
  ghost predicate SlotBegun(w: World, slots: seq<Step>, slot: nat, value: Value, parent: Frame, st: State, st1: State,
                            r: Outcome, p: Place)
    requires AllAgents(w, slots, value) && slots != []
  {
    if p.Waits? then
      && r == Suspended([st.next]) && p.id == st.next && st1.next == st.next + 1
      && st1.store == st.store[st.next := Checkpoint(CallOf(slots[0], value), p.pauses, SlotStepFrame(parent, slot))]
    else
      && r == Done(w.run(CallOf(slots[0], value)).value, parent.lbl)
      && st1.store == st.store && st1.next == st.next
  }

  lemma AgentSlot(w: World, slots: seq<Step>, slot: nat, value: Value, parent: Frame, st: State) returns (p: Place)
    requires AllAgents(w, slots, value) && slots != []
    ensures var (st1, r) := RunSlot(w, slots[0], slot, value, parent, st);
      SlotBegun(w, slots, slot, value, parent, st, st1, r, p)
  {
    var frame := SlotStepFrame(parent, slot);
    var st0 := st.Emit(Started(frame.pid, 0));
    p := if w.pauses(st.runs) > 0 then Waits(st.next, w.pauses(st.runs) - 1, []) else Finished;
    assert RunStep(w, slots[0], value, frame, st0).0 == RunAgent(w, CallOf(slots[0], value), frame, st0).0;
  }

  function OwnId(p: Place): seq<nat> { if p.Waits? then [p.id] else [] }

  // What the accumulator holds after the slots of `places`.
  ghost predicate Counted(w: World, slots: seq<Step>, value: Value, places: seq<Place>, ids: seq<nat>,
                          acc: Acc, acc': Acc)
    requires AllAgents(w, slots, value) && |places| == |slots|
  {
    acc' == Acc(acc.outputs + KnownAtFirst(w, slots, value, places), acc.ids + ids, acc.joined, [], false)
  }

  lemma {:induction false} BeginSlots(w: World, slots: seq<Step>, slot: nat, value: Value, parent: Frame, st: State,
                                      acc: Acc)
    returns (places: seq<Place>, ids: seq<nat>)
    requires AllAgents(w, slots, value) && Fresh(RowsOf(st))
    requires acc.errors == [] && acc.joined == Agreed(parent.lbl) && !acc.conflicted
    ensures var (st', acc') := RunSlots(w, slots, slot, value, parent, st, acc);
      && Begun(slots, slot, value, parent, st, st', places, ids)
      && Counted(w, slots, value, places, ids, acc, acc')
    decreases slots
  {
    if slots == [] {
      places, ids := [], [];
      assert KnownAtFirst(w, slots, value, places) == [];
    } else {
      var p := AgentSlot(w, slots, slot, value, parent, st);
      var (st1, r) := RunSlot(w, slots[0], slot, value, parent, st);
      var acc1 := acc.After(parent.lbl, r);
      RunSlotsUnfold(w, slots, slot, value, parent, st, acc);
      var rest, ids1 := BeginSlots(w, slots[1..], slot + 1, value, parent, st1, acc1);
      var (st', acc') := RunSlots(w, slots[1..], slot + 1, value, parent, st1, acc1);
      places, ids := [p] + rest, OwnId(p) + ids1;
      BegunCons(w, slots, slot, value, parent, st, st1, st', r, p, rest, ids1);
      CountedCons(w, slots, slot, value, parent, st, st1, r, p, rest, ids1, acc, acc');
    }
  }

  lemma CountedCons(w: World, slots: seq<Step>, slot: nat, value: Value, parent: Frame, st: State, st1: State,
                    r: Outcome, p: Place, rest: seq<Place>, ids1: seq<nat>, acc: Acc, acc': Acc)
    requires AllAgents(w, slots, value) && slots != [] && |rest| == |slots| - 1
    requires SlotBegun(w, slots, slot, value, parent, st, st1, r, p)
    requires acc.errors == [] && acc.joined == Agreed(parent.lbl) && !acc.conflicted
    requires Counted(w, slots[1..], value, rest, ids1, acc.After(parent.lbl, r), acc')
    ensures Counted(w, slots, value, [p] + rest, OwnId(p) + ids1, acc, acc')
  {
    var head := if p.Finished? then w.run(CallOf(slots[0], value)).value else Null;
    var acc1 := acc.After(parent.lbl, r);
    assert acc1.outputs == acc.outputs + [head] && acc1.ids == acc.ids + OwnId(p);
    assert KnownAtFirst(w, slots, value, [p] + rest) == [head] + KnownAtFirst(w, slots[1..], value, rest);
    assert acc.outputs + [head] + KnownAtFirst(w, slots[1..], value, rest)
        == acc.outputs + KnownAtFirst(w, slots, value, [p] + rest);
    assert acc.ids + OwnId(p) + ids1 == acc.ids + (OwnId(p) + ids1);
  }

  lemma BegunCons(w: World, slots: seq<Step>, slot: nat, value: Value, parent: Frame, st: State, st1: State, st': State,
                  r: Outcome, p: Place, rest: seq<Place>, ids1: seq<nat>)
    requires AllAgents(w, slots, value) && slots != [] && Fresh(RowsOf(st))
    requires SlotBegun(w, slots, slot, value, parent, st, st1, r, p)
    requires Begun(slots[1..], slot + 1, value, parent, st1, st', rest, ids1)
    ensures Begun(slots, slot, value, parent, st, st', [p] + rest, OwnId(p) + ids1)
  {
    var places := [p] + rest;
    forall k | 0 <= k < |places|
      ensures FreshRow(slots, slot, value, parent, st'.store, st.next, st'.next, k, places[k])
    {
      if k > 0 { LaterRow(slots, slot, value, parent, st, st1, st', k, rest); }
    }
    forall i: nat | HeldBy(rest, i) ensures i >= st1.next
    {
      var k :| 0 <= k < |rest| && rest[k].Waits? && rest[k].id == i;
      LaterRow(slots, slot, value, parent, st, st1, st', k + 1, rest);
    }
    IdsCons(p, rest, ids1, st1.next);
  }

  lemma LaterRow(slots: seq<Step>, slot: nat, value: Value, parent: Frame, st: State, st1: State, st': State, k: nat,
                 rest: seq<Place>)
    requires slots != [] && |rest| == |slots| - 1 && 0 < k < |slots| && st.next <= st1.next
    requires forall m :: 0 <= m < |rest| ==>
      FreshRow(slots[1..], slot + 1, value, parent, st'.store, st1.next, st'.next, m, rest[m])
    ensures FreshRow(slots, slot, value, parent, st'.store, st.next, st'.next, k, rest[k - 1])
    ensures rest[k - 1].Waits? ==> rest[k - 1].id >= st1.next
  {
    assert FreshRow(slots[1..], slot + 1, value, parent, st'.store, st1.next, st'.next, k - 1, rest[k - 1]);
    assert slots[1..][k - 1] == slots[k] && slot + 1 + (k - 1) == slot + k;
  }

  lemma IdsCons(p: Place, rest: seq<Place>, ids1: seq<nat>, from: nat)
    requires RowsApart(rest) && NoDup(ids1) && forall i :: i in ids1 <==> HeldBy(rest, i)
    requires (p.Waits? ==> p.id < from) && forall i: nat :: HeldBy(rest, i) ==> i >= from
    ensures var places, ids := [p] + rest, OwnId(p) + ids1;
      && RowsApart(places) && NoDup(ids)
      && (forall i :: i in ids <==> HeldBy(places, i))
      && (forall i :: HeldBy(places, i) <==> (p.Waits? && p.id == i) || HeldBy(rest, i))
  {
    var places, ids := [p] + rest, OwnId(p) + ids1;
    forall i ensures HeldBy(places, i) <==> (p.Waits? && p.id == i) || HeldBy(rest, i)
    {
      HeldCons(p, rest, i);
    }
    forall k | 0 < k < |places| && places[0].Waits? && places[k].Waits? ensures places[0].id != places[k].id
    {
      assert HeldBy(rest, rest[k - 1].id);
    }
    forall i, j | 0 <= i < j < |ids| ensures ids[i] != ids[j]
    {
      assert ids1[j - |OwnId(p)|] in ids1;
    }
  }

  lemma HeldCons(p: Place, rest: seq<Place>, i: nat)
    ensures HeldBy([p] + rest, i) <==> (p.Waits? && p.id == i) || HeldBy(rest, i)
  {
    if k :| 0 <= k < |rest| && rest[k].Waits? && rest[k].id == i {
      assert ([p] + rest)[k + 1] == rest[k];
    }
    if p.Waits? && p.id == i {
      assert ([p] + rest)[0] == p;
    }
  }

  // Filling in the sibling data: every row is listed and knows the same outputs.
  ghost function Filled(places: seq<Place>, known: seq<Value>): (filled: seq<Place>)
    ensures |filled| == |places|
    ensures forall k :: 0 <= k < |places| ==>
      filled[k] == if places[k].Waits? then places[k].(known := known) else Finished
  {
    seq(|places|, k requires 0 <= k < |places| => if places[k].Waits? then places[k].(known := known) else Finished)
  }

  function StepParent(pid: Pid, lbl: Label): Frame { Frame(pid, 0, [], lbl, Plain, None) }

  lemma FillPlaces(c: Scene, places: seq<Place>, st: State, st': State)
    requires AllAgents(c.w, c.slots, c.value) && Fresh(RowsOf(st)) && c.others == st.store.Keys && c.listed != []
    requires Begun(c.slots, 0, c.value, StepParent(c.pid, c.lbl), st, st', places, c.listed)
    ensures var known := KnownAtFirst(c.w, c.slots, c.value, places);
      var (s, ok) := AmendAll(st'.store, c.listed, c.pid, 0, FillIn(known, c.listed, Agreed(c.lbl)));
      At(c, Filled(places, known), st'.(store := s)) && Listing(c, st'.(store := s))
  {
    var known := KnownAtFirst(c.w, c.slots, c.value, places);
    var u := FillIn(known, c.listed, Agreed(c.lbl));
    var s, filled := AmendAll(st'.store, c.listed, c.pid, 0, u).0, Filled(places, known);
    forall i | i in c.listed ensures !Clashes(st'.store, i, c.pid, 0, u) && i < st'.next && i !in c.others
    {
      assert HeldBy(places, i);
      var k :| 0 <= k < |places| && places[k].Waits? && places[k].id == i;
      FreshAmended(c, places, st, st', k, known);
    }
    AmendAllRows(st'.store, c.listed, c.pid, 0, u);
    forall k | 0 <= k < |filled| ensures RowAt(c, st'.(store := s), k, filled[k])
    {
      if places[k].Waits? {
        FreshAmended(c, places, st, st', k, known);
        assert HeldBy(places, places[k].id);
      }
    }
    forall i | i in s && i !in c.others ensures HeldBy(filled, i)
    {
      assert HeldBy(places, i);
      var k :| 0 <= k < |places| && places[k].Waits? && places[k].id == i;
      assert filled[k].id == i;
    }
  }

  lemma FreshAmended(c: Scene, places: seq<Place>, st: State, st': State, k: nat, known: seq<Value>)
    requires Fresh(RowsOf(st)) && c.others == st.store.Keys && k < |places| && places[k].Waits?
    requires Begun(c.slots, 0, c.value, StepParent(c.pid, c.lbl), st, st', places, c.listed)
    ensures var id, u := places[k].id, FillIn(known, c.listed, Agreed(c.lbl));
      && id in st'.store && id !in c.others && id < st'.next
      && !Clashes(st'.store, id, c.pid, 0, u)
      && AmendOne(st'.store, id, c.pid, 0, u)[id]
         == Checkpoint(CallOf(c.slots[k], c.value), places[k].pauses, c.LeafFrame(k, known))
  {
    assert FreshRow(c.slots, 0, c.value, StepParent(c.pid, c.lbl), st'.store, st.next, st'.next, k, places[k]);
    var u, f := FillIn(known, c.listed, Agreed(c.lbl)), SlotStepFrame(StepParent(c.pid, c.lbl), k);
    assert Amend(f, c.pid, 0, u) == Some(c.LeafFrame(k, known));
  }

  lemma FilledInformed(c: Scene, places: seq<Place>)
    requires AllAgents(c.w, c.slots, c.value) && |places| == |c.slots|
    requires forall i :: HeldBy(places, i) ==> i in c.listed
    ensures Informed(c, Filled(places, KnownAtFirst(c.w, c.slots, c.value, places)), {})
  {
    var filled := Filled(places, KnownAtFirst(c.w, c.slots, c.value, places));
    forall k | 0 <= k < |filled| && filled[k].Waits? ensures RowInformed(c, filled, k, {})
    {
      assert HeldBy(places, places[k].id);
    }
  }

  // ---------------------------------------------------------------- the theorem

  lemma {:induction false} EvalAgents(w: World, pid: Pid, slots: seq<Step>, slot: nat, value: Value, lbl: Label)
    requires AllAgents(w, slots, value)
    ensures var goal := EvalSlots(w, pid, slots, 0, slot, value, lbl);
      && goal.Some? && goal.value.values == AgentOutputs(w, slots, value)
      && JoinAll(lbl, Agreed(lbl), goal.value.labels) == Agreed(lbl)
    decreases slots
  {
    if slots != [] {
      EvalSlotsUnfold(w, pid, slots, 0, slot, value, lbl);
      EvalAgents(w, pid, slots[1..], slot + 1, value, lbl);
      AgentGoal(w, pid, slots[0], slot, value, lbl);
      ConsPlain(SlotGoal(w, pid, 0, slot, slots[0], value, lbl),
                EvalSlots(w, pid, slots[1..], 0, slot + 1, value, lbl), lbl);
      assert AgentOutputs(w, slots, value)
          == [w.run(CallOf(slots[0], value)).value] + AgentOutputs(w, slots[1..], value);
    }
  }

  lemma ConsPlain(head: Option<Res>, rest: Option<SlotsRes>, lbl: Label)
    requires head.Some? && head.value.lbl == lbl
    requires rest.Some? && JoinAll(lbl, Agreed(lbl), rest.value.labels) == Agreed(lbl)
    ensures var goal := ConsSlot(head, rest);
      && goal.Some? && goal.value.values == [head.value.value] + rest.value.values
      && JoinAll(lbl, Agreed(lbl), goal.value.labels) == Agreed(lbl)
  {
    assert ([lbl] + rest.value.labels)[1..] == rest.value.labels;
  }

  lemma AgentGoal(w: World, pid: Pid, step: Step, slot: nat, value: Value, lbl: Label)
    requires step.AgentStep? && w.run(CallOf(step, value)).Some?
    ensures var head := SlotGoal(w, pid, 0, slot, step, value, lbl);
      head.Some? && head.value.value == w.run(CallOf(step, value)).value && head.value.lbl == lbl
  {
  }

  ghost predicate EndsPlainly(goal: Option<Res>, r: Outcome)
  {
    goal.Some? && r == Done(goal.value.value, goal.value.lbl)
  }

  // What is true of the step's run and of any resumes of its rows afterwards.
  ghost predicate LastDecides(w: World, goal: Option<Res>, r: Outcome, ids: seq<nat>, st1: State, others: set<nat>)
  {
    && goal.Some? && !r.Failed?
    && (r.Done? ==> EndsPlainly(goal, r))
    && (r.Suspended? && OwnRows(w, ids, st1, others) ==>
          && !Play(w, ids, st1).1.Failed?
          && (Play(w, ids, st1).1.Done? ==>
                (EndsPlainly(goal, Play(w, ids, st1).1) <==> LastNeverBeside(w, ids, st1, others, {}))))
  }

  /**
    A parallel step of agents whose outputs are not null, resumed in any order and paused
    again at any time, never fails; and it ends with the plain output if and only if the slot
    that ends it ends with no other waiting and never paused again while another waited.
  */
  lemma LastSlotDecides(w: World, pid: Pid, slots: seq<Step>, value: Value, lbl: Label, st0: State, ids: seq<nat>)
    requires AllAgents(w, slots, value) && Fresh(RowsOf(st0))
    ensures LastDecides(w, Eval(w, pid, [ParallelStep(slots)], 0, value, lbl),
                        Run(w, pid, [ParallelStep(slots)], 0, value, lbl, None, st0).1, ids,
                        Run(w, pid, [ParallelStep(slots)], 0, value, lbl, None, st0).0, st0.store.Keys)
  {
    var parent, e0 := StepParent(pid, lbl), st0.Emit(Started(pid, 0));
    var (st', acc) := RunSlots(w, slots, 0, value, parent, e0, NoneYet(lbl));
    var places, listed := BeginSlots(w, slots, 0, value, parent, e0, NoneYet(lbl));
    assert acc == Acc(KnownAtFirst(w, slots, value, places), listed, Agreed(lbl), [], false);
    PlainOutput(w, pid, slots, value, lbl);
    StepAlone(w, pid, slots, value, lbl, st0, st', acc);
    if listed == [] {
      NoneWaits(w, slots, value, places);
    } else {
      var c := Scene(w, pid, slots, value, lbl, listed, st0.store.Keys);
      var st1 := Run(w, pid, [ParallelStep(slots)], 0, value, lbl, None, st0).0;
      if OwnRows(w, ids, st1, c.others) {
        PlayFromPause(c, places, e0, st', st1, ids);
      }
    }
  }

  lemma NoneWaits(w: World, slots: seq<Step>, value: Value, places: seq<Place>)
    requires AllAgents(w, slots, value) && |places| == |slots| && forall i: nat :: !HeldBy(places, i)
    ensures KnownAtFirst(w, slots, value, places) == AgentOutputs(w, slots, value)
  {
    forall k | 0 <= k < |places| && places[k].Waits? ensures false { assert HeldBy(places, places[k].id); }
  }

  // Every resume of the rows the step first leaves.
  lemma PlayFromPause(c: Scene, places: seq<Place>, st: State, st': State, st1: State, ids: seq<nat>)
    requires AllAgents(c.w, c.slots, c.value) && Fresh(RowsOf(st)) && c.others == st.store.Keys && c.listed != []
    requires Begun(c.slots, 0, c.value, StepParent(c.pid, c.lbl), st, st', places, c.listed)
    requires var u := FillIn(KnownAtFirst(c.w, c.slots, c.value, places), c.listed, Agreed(c.lbl));
      st1 == st'.(store := AmendAll(st'.store, c.listed, c.pid, 0, u).0)
    requires OwnRows(c.w, ids, st1, c.others)
    ensures RightIffLast(c, ids, st1, {})
  {
    FillPlaces(c, places, st, st');
    FilledInformed(c, places);
    PlayLeaves(c, Filled(places, KnownAtFirst(c.w, c.slots, c.value, places)), ids, st1, {});
  }

  function NoneYet(lbl: Label): Acc { Acc([], [], Agreed(lbl), [], false) }

  lemma PlainOutput(w: World, pid: Pid, slots: seq<Step>, value: Value, lbl: Label)
    requires AllAgents(w, slots, value)
    ensures var goal := Eval(w, pid, [ParallelStep(slots)], 0, value, lbl);
      goal.Some? && goal.value.value == Items(AgentOutputs(w, slots, value)) && goal.value.lbl == lbl
  {
    EvalAgents(w, pid, slots, 0, value, lbl);
    EvalUnfold(w, pid, [ParallelStep(slots)], 0, value, lbl);
  }

  lemma StepAlone(w: World, pid: Pid, slots: seq<Step>, value: Value, lbl: Label, st0: State, st': State, acc: Acc)
    requires (st', acc)
      == RunSlots(w, slots, 0, value, StepParent(pid, lbl), st0.Emit(Started(pid, 0)), NoneYet(lbl))
    requires acc.errors == [] && acc.joined == Agreed(lbl)
    ensures var (st1, r) := Run(w, pid, [ParallelStep(slots)], 0, value, lbl, None, st0);
      if acc.ids == [] then r == Done(Items(acc.outputs), lbl)
      else
        && r == Suspended(acc.ids)
        && st1 == st'.(store := AmendAll(st'.store, acc.ids, pid, 0, FillIn(acc.outputs, acc.ids, acc.joined)).0)
  {
    var parent := StepParent(pid, lbl);
    RunParallelUnfold(w, ParallelStep(slots), value, parent, st0.Emit(Started(pid, 0)));
    assert [ParallelStep(slots)][1..] == [];
  }
}
