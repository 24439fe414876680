/**
  What a parallel step promises: the order slots settle in does not matter to the
  joined label, exactly the last slot to end goes past the step, and a slot's end is
  handled right exactly when every slot that waits is named in its frame.
*/
module ParallelMerge {
  import opened Wrappers
  import opened PipelineModel
  import opened PipelineMachine
  import opened SuspendedTree
  import opened RunRefinement
  import opened ResumeRefinement
  import opened PipelineMeaning
  import opened ResumesEnd

  // ---------------------------------------------------------- joining labels

  function Without(labels: seq<Label>, k: nat): seq<Label>
    requires k < |labels|
  {
    labels[..k] + labels[k + 1..]
  }

  lemma WithoutOne(labels: seq<Label>, k: nat)
    requires k < |labels|
    ensures multiset(Without(labels, k)) == multiset(labels) - multiset{labels[k]}
  {
    assert labels == labels[..k] + [labels[k]] + labels[k + 1..];
  }

  // Any label can be joined first.
  lemma {:induction false} JoinFirst(incoming: Label, c: Joined, labels: seq<Label>, k: nat)
    requires k < |labels|
    ensures JoinAll(incoming, c, labels) == JoinAll(incoming, Join(incoming, c, labels[k]), Without(labels, k))
    decreases labels
  {
    if k == 0 {
      assert Without(labels, 0) == labels[1..];
    } else {
      JoinFirst(incoming, Join(incoming, c, labels[0]), labels[1..], k - 1);
      assert Without(labels, k)[0] == labels[0] && Without(labels, k)[1..] == Without(labels[1..], k - 1);
      JoinSwap(incoming, c, labels[0], labels[k]);
    }
  }

  /**
    Joining slot labels gives the same label, or a conflict, in whatever order the slots settle.
  */
  lemma {:induction false} JoinPermuted(incoming: Label, c: Joined, xs: seq<Label>, ys: seq<Label>)
    requires multiset(xs) == multiset(ys)
    ensures JoinAll(incoming, c, xs) == JoinAll(incoming, c, ys)
    decreases xs
  {
    if xs == [] {
      assert |ys| == |multiset(ys)| == 0;
    } else {
      assert xs[0] in multiset(ys);
      var k :| 0 <= k < |ys| && ys[k] == xs[0];
      WithoutOne(xs, 0);
      WithoutOne(ys, k);
      assert Without(xs, 0) == xs[1..];
      JoinFirst(incoming, c, ys, k);
      JoinPermuted(incoming, Join(incoming, c, xs[0]), xs[1..], Without(ys, k));
    }
  }

  predicate IsNew(incoming: Label, l: Label) { l.Some? && l != incoming }

  // The join is a conflict exactly when two slots brought different new labels; else it
  // is the one new label, or the incoming one.
  lemma {:induction false} JoinMeaning(incoming: Label, labels: seq<Label>)
    ensures JoinAll(incoming, Agreed(incoming), labels) == Conflict <==>
      exists i, j :: 0 <= i < |labels| && 0 <= j < |labels| && IsNew(incoming, labels[i])
        && IsNew(incoming, labels[j]) && labels[i] != labels[j]
    ensures JoinAll(incoming, Agreed(incoming), labels).Agreed? ==>
      forall i :: 0 <= i < |labels| && IsNew(incoming, labels[i]) ==>
        JoinAll(incoming, Agreed(incoming), labels) == Agreed(labels[i])
    ensures (forall i :: 0 <= i < |labels| ==> !IsNew(incoming, labels[i])) ==>
      JoinAll(incoming, Agreed(incoming), labels) == Agreed(incoming)
    decreases |labels|
  {
    if labels != [] {
      var n := |labels| - 1;
      var init, last := labels[..n], labels[n];
      JoinMeaning(incoming, init);
      JoinFirst(incoming, Agreed(incoming), labels, n);
      assert Without(labels, n) == init;
      JoinPush(incoming, Agreed(incoming), last, init);
      var before := JoinAll(incoming, Agreed(incoming), init);
      assert JoinAll(incoming, Agreed(incoming), labels) == Join(incoming, before, last);
      assert forall i :: 0 <= i < n ==> init[i] == labels[i];
      if before.Agreed? && (exists i :: 0 <= i < n && IsNew(incoming, init[i])) {
        var i :| 0 <= i < n && IsNew(incoming, init[i]);
        assert before == Agreed(init[i]) && IsNew(incoming, labels[i]);
      }
    }
  }

  // ------------------------------------------------------ the end of a slot

  /**
    While another slot waits, the end of slot j only writes into the waiting rows and
    emits nothing; with none waiting, the step is closed with every slot's output at
    its own index.
  */
  lemma LastSlotMerges(w: World, t: Tree, j: nat, outer: Option<Frame>, v: Value, handed: Label, l: Label, a: Rows,
                       st: State)
    requires SlotOver(t, j, outer, a, st) && Fresh(RowsOf(st))
    requires Join(t.hole.incoming, Agreed(t.lbl), handed) == Agreed(l)
    ensures var slots := t.hole.slots;
      var result := Continue(w, Some(SlotFrameOf(t, j, outer)), v, handed, st);
      if exists k :: 0 <= k < |slots| && k != j && slots[k].Paused? then
        && result.1 == Suspended([]) && result.0.emitted == st.emitted && result.0.runs == st.runs
        && Becomes(t, SettledTree(t, j, v, l), outer, a, RowsOf(result.0))
      else
        && result == Close(w, SlotFrameOf(t, j, outer).(lbl := l), Items(Outputs(slots)[j := v]), st)
        && (forall k :: 0 <= k < |slots| && k != j ==> Outputs(slots)[j := v][k] == slots[k].output)
  {
    var slots := t.hole.slots;
    SlotContinue(w, t, j, outer, v, handed, st);
    if exists k :: 0 <= k < |slots| && k != j && slots[k].Paused? {
      var k :| 0 <= k < |slots| && k != j && slots[k].Paused?;
      OtherWaits(t, j, k, outer, a, st);
      SiblingsAmended(t, j, outer, v, handed, l, a, st);
    } else if StillStored(t.hole.pending, st.store) != [] {
      ListedWaits(t, j, outer, a, st);
    }
  }

  lemma ListedWaits(t: Tree, j: nat, outer: Option<Frame>, a: Rows, st: State)
    requires SlotOver(t, j, outer, a, st) && StillStored(t.hole.pending, st.store) != []
    ensures exists k :: 0 <= k < |t.hole.slots| && k != j && t.hole.slots[k].Paused?
  {
    OtherRows(t, j, outer, a, st);
    var i := StillStored(t.hole.pending, st.store)[0];
    assert i in StillStored(t.hole.pending, st.store);
    var k :| 0 <= k < |t.hole.slots| && i in IdsIn(t.hole.slots[k]);
  }

  lemma {:induction false} AmendAllOthers(s: map<nat, Checkpoint>, ids: seq<nat>, pid: Pid, index: nat, u: Update,
                                          i: nat)
    requires i in s && i !in ids
    ensures i in AmendAll(s, ids, pid, index, u).0 && AmendAll(s, ids, pid, index, u).0[i] == s[i]
    decreases ids
  {
    if ids != [] && !Clashes(s, ids[0], pid, index, u) {
      AmendAllOthers(AmendOne(s, ids[0], pid, index, u), ids[1..], pid, index, u, i);
    }
  }

  // Tree t, with frame chain `outer` around it, is somewhere inside root.
  ghost predicate Occurs(root: Tree, around: Option<Frame>, t: Tree, outer: Option<Frame>)
    decreases root
  {
    || (t == root && outer == around)
    || match root.hole
       case Leaf(_, _, _) => false
       case InMap(_, _, _, _, _) => false
       case InArm(arm) => Occurs(arm, Some(FrameOf(root, Plain, around)), t, outer)
       case InSlots(_, _, slots) =>
         exists k :: 0 <= k < |slots| && slots[k].Paused?
           && Occurs(slots[k].tree, Some(SlotFrameOf(root, k, around)), t, outer)
  }

  // Every frame of the chain belongs to a pipeline whose path is shorter than n.
  ghost predicate Shorter(chain: Option<Frame>, n: nat)
    decreases Depth(chain)
  {
    chain.Some? ==> |chain.value.pid.path| < n && Shorter(chain.value.outer, n)
  }

  lemma {:induction false} ShorterGrows(chain: Option<Frame>, n: nat, m: nat)
    requires Shorter(chain, n) && n <= m
    ensures Shorter(chain, m)
    decreases Depth(chain)
  {
    if chain.Some? { ShorterGrows(chain.value.outer, n, m); }
  }

  // What is true of the whole suspended run is true of each part of it, and the frames
  // around a part are those of other steps.
  lemma {:induction false} OccursInside(root: Tree, around: Option<Frame>, t: Tree, outer: Option<Frame>, a: Rows)
    requires Inside(root, around, a) && Occurs(root, around, t, outer) && Shorter(around, |root.pid.path|)
    ensures Inside(t, outer, a) && Shorter(outer, |t.pid.path|)
    decreases root
  {
    if !(t == root && outer == around) {
      match root.hole
      case InArm(arm) =>
        ShorterGrows(around, |root.pid.path|, |arm.pid.path|);
        OccursInside(arm, Some(FrameOf(root, Plain, around)), t, outer, a);
      case InSlots(_, _, slots) =>
        var k :| 0 <= k < |slots| && slots[k].Paused?
          && Occurs(slots[k].tree, Some(SlotFrameOf(root, k, around)), t, outer);
        ShorterGrows(around, |root.pid.path|, |slots[k].tree.pid.path|);
        OccursInside(slots[k].tree, Some(SlotFrameOf(root, k, around)), t, outer, a);
    }
  }

  // ------------------------------------------- what a row holds of the step

  // Row i is there, and its frame of parallel step (pid, index) says p and l.
  ghost predicate Holds(s: map<nat, Checkpoint>, i: nat, pid: Pid, index: nat, p: Progress, l: Label)
  {
    && i in s && FindFrame(s[i].parent, pid, index).Some?
    && FindFrame(s[i].parent, pid, index).value.progress == p && FindFrame(s[i].parent, pid, index).value.lbl == l
  }

  // Writing into the frame of another step does not touch it ...
  lemma {:induction false} AmendElsewhere(f: Frame, pid: Pid, index: nat, u: Update, pid': Pid, index': nat)
    requires (pid, index) != (pid', index')
    ensures Amend(f, pid, index, u).Some? ==>
      var r, r' := FindFrame(f, pid', index'), FindFrame(Amend(f, pid, index, u).value, pid', index');
      r.Some? == r'.Some? && (r.Some? ==> r.value.progress == r'.value.progress && r.value.lbl == r'.value.lbl)
    decreases f
  {
    if !IsSlotFrame(f, pid, index) && f.outer.Some? { AmendElsewhere(f.outer.value, pid, index, u, pid', index'); }
  }

  lemma {:induction false} AmendAllHolds(s: map<nat, Checkpoint>, ids: seq<nat>, pid: Pid, index: nat, u: Update,
                                         i: nat, pid': Pid, index': nat, p: Progress, l: Label)
    requires (pid, index) != (pid', index') && Holds(s, i, pid', index', p, l)
    ensures Holds(AmendAll(s, ids, pid, index, u).0, i, pid', index', p, l)
    decreases ids
  {
    if ids != [] && !Clashes(s, ids[0], pid, index, u) {
      AmendElsewhere(s[i].parent, pid, index, u, pid', index');
      AmendAllHolds(AmendOne(s, ids[0], pid, index, u), ids[1..], pid, index, u, i, pid', index', p, l);
    }
  }

  // ... and nor does going on from a frame outside it.
  lemma {:induction false} ContinueHolds(w: World, parent: Option<Frame>, output: Value, handed: Label, st: State,
                                         i: nat, pid: Pid, index: nat, p: Progress, l: Label)
    requires Fresh(RowsOf(st)) && Holds(st.store, i, pid, index, p, l) && Shorter(parent, |pid.path|)
    ensures Holds(Continue(w, parent, output, handed, st).0.store, i, pid, index, p, l)
    decreases Depth(parent), 0
  {
    if parent.Some? {
      var f := parent.value;
      match f.progress
      case Plain => CloseHolds(w, f.(lbl := Adopt(f.lbl, handed)), output, st, i, pid, index, p, l);
      case Mapping(agentId, settled, remaining) =>
        var g := f.(lbl := Adopt(f.lbl, handed));
        var (st1, r) := RunItems(w, agentId, remaining, settled + [output], g, st);
        var ev, t := RunItemsRefines(w, agentId, remaining, settled + [output], g, st);
        if r.Done? { CloseHolds(w, g, r.value, st1, i, pid, index, p, l); }
      case InSlot(slot, settled, pending, incoming) =>
        var joined := Join(incoming, Agreed(f.lbl), handed);
        if joined.Agreed? && pending != [] {
          var still := StillStored(pending, st.store);
          if still == [] {
            CloseHolds(w, f.(lbl := joined.lbl), Items(SetAt(settled, slot, output)), st, i, pid, index, p, l);
          } else {
            AmendAllHolds(st.store, still, f.pid, f.index, SettleSlot(slot, output, joined.lbl), i, pid, index, p, l);
          }
        }
    }
  }

  lemma {:induction false} CloseHolds(w: World, f: Frame, output: Value, st: State, i: nat, pid: Pid, index: nat,
                                      p: Progress, l: Label)
    requires Fresh(RowsOf(st)) && Holds(st.store, i, pid, index, p, l) && Shorter(f.outer, |pid.path|)
    ensures Holds(Close(w, f, output, st).0.store, i, pid, index, p, l)
    decreases Depth(f.outer), 1
  {
    var st0 := st.Emit(Ended(f.pid, f.index, output));
    var (st1, r) := Run(w, f.pid, f.remaining, f.index + 1, output, f.lbl, f.outer, st0);
    var ev, t := RunRefines(w, f.pid, f.remaining, f.index + 1, output, f.lbl, f.outer, st0);
    if r.Done? { ContinueHolds(w, f.outer, r.value, r.lbl, st1, i, pid, index, p, l); }
  }

  // ------------------------------------------------------ the exact condition

  // Slot j of a parallel step has ended while others wait.
  ghost predicate EndsBesideOthers(t: Tree, j: nat, outer: Option<Frame>, a: Rows, st: State)
  {
    && Inside(t, outer, a) && t.hole.InSlots? && j < |t.hole.slots| && t.hole.slots[j].Paused?
    && st.store == a.store - Ids(t.hole.slots[j].tree) && a.next <= st.next
    && exists k :: 0 <= k < |t.hole.slots| && k != j && t.hole.slots[k].Paused?
  }

  // Every waiting row holds the output and the joined label.
  ghost predicate RowsRight(t: Tree, j: nat, outer: Option<Frame>, v: Value, l: Label, result: (State, Outcome))
    requires t.hole.InSlots? && j < |t.hole.slots|
  {
    result.1.Suspended? && Stored(SettledTree(t, j, v, l), outer, result.0.store)
  }

  // And the step still waits: nothing has been emitted.
  ghost predicate EndedRight(t: Tree, j: nat, outer: Option<Frame>, v: Value, l: Label, st: State,
                             result: (State, Outcome))
    requires t.hole.InSlots? && j < |t.hole.slots|
  {
    RowsRight(t, j, outer, v, l, result) && result.0.emitted == st.emitted
  }

  // The end of the slot tells the others nothing: its place holds null already.
  ghost predicate NothingToTell(t: Tree, v: Value, l: Label) { v == Null && l == t.lbl }

  /**
    The exact condition, for a parallel step anywhere in a suspended run: the waiting rows
    come to hold the ended slot's output and label if and only if every one of them is on the
    pendingCheckpointIds of that slot's frame. A slot that has nothing to tell leaves the
    step waiting as it should also when only some of them are.
  */
  lemma RightIffListed(w: World, root: Tree, t: Tree, j: nat, outer: Option<Frame>, v: Value, handed: Label, l: Label,
                       a: Rows, st: State)
    requires Inside(root, None, a) && Occurs(root, None, t, outer) && EndsBesideOthers(t, j, outer, a, st)
    requires Join(t.hole.incoming, Agreed(t.lbl), handed) == Agreed(l)
    ensures var result := Continue(w, Some(SlotFrameOf(t, j, outer)), v, handed, st);
      var listed := OthersListed(t.hole.slots, j, t.hole.pending);
      && (!NothingToTell(t, v, l) ==> (RowsRight(t, j, outer, v, l, result) <==> listed))
      && (EndedRight(t, j, outer, v, l, st, result) <==>
            listed || (NothingToTell(t, v, l) && exists i :: i in t.hole.pending && i in st.store))
  {
    OccursInside(root, None, t, outer, a);
    if OthersListed(t.hole.slots, j, t.hole.pending) {
      LastSlotMerges(w, t, j, outer, v, handed, l, a, st);
    } else if NothingToTell(t, v, l) {
      NothingTold(w, t, j, outer, handed, a, st);
    } else {
      UnlistedNotRight(w, t, j, outer, v, handed, l, a, st);
    }
  }

  lemma UnlistedNotRight(w: World, t: Tree, j: nat, outer: Option<Frame>, v: Value, handed: Label, l: Label, a: Rows,
                         st: State)
    requires EndsBesideOthers(t, j, outer, a, st) && Join(t.hole.incoming, Agreed(t.lbl), handed) == Agreed(l)
    requires Shorter(outer, |t.pid.path|) && !OthersListed(t.hole.slots, j, t.hole.pending) && !NothingToTell(t, v, l)
    ensures !RowsRight(t, j, outer, v, l, Continue(w, Some(SlotFrameOf(t, j, outer)), v, handed, st))
  {
    var k, i :| 0 <= k < |t.hole.slots| && k != j && i in IdsIn(t.hole.slots[k]) && i !in t.hole.pending;
    UnlistedUntouched(w, t, j, k, outer, v, handed, l, a, st, i);
    UnlistedWrong(t, j, k, outer, v, l, a, i, Continue(w, Some(SlotFrameOf(t, j, outer)), v, handed, st).0.store);
  }

  /**
    The exact condition of the failure: a slot that ends while another waits goes past the
    step if and only if no row on the pendingCheckpointIds of its frame is stored any more.
  */
  lemma PassedEarlyIff(w: World, t: Tree, j: nat, outer: Option<Frame>, v: Value, handed: Label, l: Label, a: Rows,
                       st: State)
    requires EndsBesideOthers(t, j, outer, a, st) && Join(t.hole.incoming, Agreed(t.lbl), handed) == Agreed(l)
    ensures var result := Continue(w, Some(SlotFrameOf(t, j, outer)), v, handed, st);
      var f, merged := SlotFrameOf(t, j, outer), Items(Outputs(t.hole.slots)[j := v]);
      && (result.0.emitted != st.emitted <==> forall i :: i in t.hole.pending ==> i !in st.store)
      && (result.0.emitted != st.emitted ==> st.emitted + multiset{Ended(f.pid, f.index, merged)} <= result.0.emitted)
  {
    var still := StillStored(t.hole.pending, st.store);
    StillStoredIds(t.hole.pending, st.store);
    SlotContinue(w, t, j, outer, v, handed, st);
    if still == [] {
      var f, merged := SlotFrameOf(t, j, outer).(lbl := l), Items(Outputs(t.hole.slots)[j := v]);
      CloseRises(w, f, merged, st);
      GoingOnEmits(w, st, Ended(f.pid, f.index, merged), Close(w, f, merged, st).0);
      assert forall i :: i in t.hole.pending && i in st.store ==> i in still;
    } else {
      assert still[0] in still;
    }
  }

  // The row's own frame of the step, before slot j ended.
  lemma RowHolds(t: Tree, j: nat, k: nat, outer: Option<Frame>, a: Rows, st: State, i: nat)
    requires EndsBesideOthers(t, j, outer, a, st) && k < |t.hole.slots| && k != j && i in IdsIn(t.hole.slots[k])
    ensures i in a.store && i in st.store && st.store[i] == a.store[i] && i in Ids(t)
    ensures FindFrame(st.store[i].parent, t.pid, t.index) == Some(SlotFrameOf(t, k, outer))
  {
    ChainReaches(t.hole.slots[k].tree, a.next, SlotFrameOf(t, k, outer), t.pid, t.index, FillIn([], [], Conflict),
                 a.store, i);
    assert Ids(t.hole.slots[k].tree) !! Ids(t.hole.slots[j].tree) by { assert j < k || k < j; }
  }

  // A row nobody lists is not told, however far the run goes on.
  lemma UnlistedUntouched(w: World, t: Tree, j: nat, k: nat, outer: Option<Frame>, v: Value, handed: Label, l: Label,
                          a: Rows, st: State, i: nat)
    requires EndsBesideOthers(t, j, outer, a, st) && Join(t.hole.incoming, Agreed(t.lbl), handed) == Agreed(l)
    requires k < |t.hole.slots| && k != j && i in IdsIn(t.hole.slots[k]) && i !in t.hole.pending
    requires Shorter(outer, |t.pid.path|)
    ensures var f := SlotFrameOf(t, k, outer);
      Holds(Continue(w, Some(SlotFrameOf(t, j, outer)), v, handed, st).0.store, i, t.pid, t.index, f.progress, t.lbl)
  {
    RowHolds(t, j, k, outer, a, st, i);
    var still, output := StillStored(t.hole.pending, st.store), Items(Outputs(t.hole.slots)[j := v]);
    assert i !in still by { StillStoredIds(t.hole.pending, st.store); }
    SlotContinue(w, t, j, outer, v, handed, st);
    if still == [] {
      CloseHolds(w, SlotFrameOf(t, j, outer).(lbl := l), output, st, i, t.pid, t.index,
                 SlotFrameOf(t, k, outer).progress, t.lbl);
    } else {
      AmendAllOthers(st.store, still, t.pid, t.index, SettleSlot(j, v, l), i);
    }
  }

  lemma UnlistedWrong(t: Tree, j: nat, k: nat, outer: Option<Frame>, v: Value, l: Label, a: Rows, i: nat,
                      s: map<nat, Checkpoint>)
    requires Inside(t, outer, a) && t.hole.InSlots? && j < |t.hole.slots| && t.hole.slots[j].Paused?
    requires k < |t.hole.slots| && k != j && i in IdsIn(t.hole.slots[k]) && !NothingToTell(t, v, l)
    requires Holds(s, i, t.pid, t.index, SlotFrameOf(t, k, outer).progress, t.lbl)
    ensures !Stored(SettledTree(t, j, v, l), outer, s)
  {
    var t', sub := SettledTree(t, j, v, l), t.hole.slots[k].tree;
    assert t'.hole.slots[k] == t.hole.slots[k];
    assert Outputs(t.hole.slots)[j] == Null && Outputs(t'.hole.slots)[j] == v;
    if Stored(t', outer, s) {
      ChainReaches(sub, a.next, SlotFrameOf(t', k, outer), t.pid, t.index, FillIn([], [], Conflict), s, i);
    }
  }

  // ---------------------------------------------- a slot with nothing to tell

  lemma {:induction false} AmendSame(f: Frame, pid: Pid, index: nat, u: Update)
    requires FindFrame(f, pid, index).Some? && Apply(FrameFound(f, pid, index), u) == FindFrame(f, pid, index)
    ensures Amend(f, pid, index, u) == Some(f)
    decreases f
  {
    if !IsSlotFrame(f, pid, index) { AmendSame(f.outer.value, pid, index, u); }
  }

  lemma {:induction false} AmendAllSame(s: map<nat, Checkpoint>, ids: seq<nat>, pid: Pid, index: nat, u: Update)
    requires forall i :: i in ids && i in s ==>
      FindFrame(s[i].parent, pid, index).Some?
      && Apply(FrameFound(s[i].parent, pid, index), u) == FindFrame(s[i].parent, pid, index)
    ensures AmendAll(s, ids, pid, index, u) == (s, true)
    decreases ids
  {
    if ids != [] {
      assert ids[0] in ids;
      if ids[0] in s {
        AmendSame(s[ids[0]].parent, pid, index, u);
        assert s[ids[0] := s[ids[0]]] == s;
      }
      AmendAllSame(s, ids[1..], pid, index, u);
    }
  }

  // Writing null where null is changes no frame, so the step waits exactly as before when a
  // listed row keeps it from going on; with none it goes on, and its end is emitted.
  lemma NothingTold(w: World, t: Tree, j: nat, outer: Option<Frame>, handed: Label, a: Rows, st: State)
    requires EndsBesideOthers(t, j, outer, a, st) && Join(t.hole.incoming, Agreed(t.lbl), handed) == Agreed(t.lbl)
    ensures EndedRight(t, j, outer, Null, t.lbl, st, Continue(w, Some(SlotFrameOf(t, j, outer)), Null, handed, st))
        <==> exists i :: i in t.hole.pending && i in st.store
  {
    PassedEarlyIff(w, t, j, outer, Null, handed, t.lbl, a, st);
    if exists i :: i in t.hole.pending && i in st.store {
      NothingToldWaits(w, t, j, outer, handed, a, st);
    }
  }

  lemma NothingToldWaits(w: World, t: Tree, j: nat, outer: Option<Frame>, handed: Label, a: Rows, st: State)
    requires EndsBesideOthers(t, j, outer, a, st) && Join(t.hole.incoming, Agreed(t.lbl), handed) == Agreed(t.lbl)
    requires exists i :: i in t.hole.pending && i in st.store
    ensures EndedRight(t, j, outer, Null, t.lbl, st, Continue(w, Some(SlotFrameOf(t, j, outer)), Null, handed, st))
  {
    var still, u := StillStored(t.hole.pending, st.store), SettleSlot(j, Null, t.lbl);
    assert still != [] && forall i :: i in still ==> i in t.hole.pending by {
      StillStoredIds(t.hole.pending, st.store);
    }
    SlotContinue(w, t, j, outer, Null, handed, st);
    assert AmendAll(st.store, still, t.pid, t.index, u) == (st.store, true) by {
      ListedAllUnchanged(t, j, outer, handed, a, st, still);
      AmendAllSame(st.store, still, t.pid, t.index, u);
    }
    StillThere(t, j, outer, a, st);
  }

  lemma ListedAllUnchanged(t: Tree, j: nat, outer: Option<Frame>, handed: Label, a: Rows, st: State, still: seq<nat>)
    requires EndsBesideOthers(t, j, outer, a, st) && forall i :: i in still ==> i in t.hole.pending
    requires Join(t.hole.incoming, Agreed(t.lbl), handed) == Agreed(t.lbl)
    ensures forall i :: i in still && i in st.store ==>
      FindFrame(st.store[i].parent, t.pid, t.index).Some?
      && Apply(FrameFound(st.store[i].parent, t.pid, t.index), SettleSlot(j, Null, t.lbl))
         == FindFrame(st.store[i].parent, t.pid, t.index)
  {
    forall i | i in still && i in st.store
      ensures FindFrame(st.store[i].parent, t.pid, t.index).Some?
      ensures Apply(FrameFound(st.store[i].parent, t.pid, t.index), SettleSlot(j, Null, t.lbl))
           == FindFrame(st.store[i].parent, t.pid, t.index)
    {
      ListedUnchanged(t, j, outer, handed, a, st, i);
    }
  }

  lemma GoingOnEmits(w: World, st: State, e: Event, st': State)
    requires Rises(w, st.Emit(e), st')
    ensures st'.emitted != st.emitted
  {
    assert st.Emit(e).emitted[e] == st.emitted[e] + 1;
  }

  lemma ListedUnchanged(t: Tree, j: nat, outer: Option<Frame>, handed: Label, a: Rows, st: State, i: nat)
    requires EndsBesideOthers(t, j, outer, a, st) && i in t.hole.pending && i in st.store
    requires Join(t.hole.incoming, Agreed(t.lbl), handed) == Agreed(t.lbl)
    ensures FindFrame(st.store[i].parent, t.pid, t.index).Some?
    ensures Apply(FrameFound(st.store[i].parent, t.pid, t.index), SettleSlot(j, Null, t.lbl))
         == FindFrame(st.store[i].parent, t.pid, t.index)
  {
    assert i in Ids(t);
    var k :| 0 <= k < |t.hole.slots| && i in IdsIn(t.hole.slots[k]);
    RowHolds(t, j, k, outer, a, st, i);
    JoinAgain(t.hole.incoming, t.lbl, t.lbl, handed);
    assert Outputs(t.hole.slots)[j := Null] == Outputs(t.hole.slots);
  }

  lemma StillThere(t: Tree, j: nat, outer: Option<Frame>, a: Rows, st: State)
    requires EndsBesideOthers(t, j, outer, a, st)
    ensures Stored(SettledTree(t, j, Null, t.lbl), outer, st.store)
  {
    var t', slots := SettledTree(t, j, Null, t.lbl), t.hole.slots;
    assert Outputs(t'.hole.slots) == Outputs(slots);
    forall k | 0 <= k < |slots| && k != j && slots[k].Paused?
      ensures Stored(slots[k].tree, Some(SlotFrameOf(t', k, outer)), st.store)
    {
      assert Ids(slots[k].tree) !! Ids(slots[j].tree) by { assert j < k || k < j; }
      StoredFrame(slots[k].tree, Some(SlotFrameOf(t, k, outer)), a.store, st.store);
    }
  }

  // ------------------------------------------- a second pause beside a sibling

  // Two agents side by side; the first pauses twice, the second once.
  function TwoSlots(): seq<Step> { [ParallelStep([AgentStep("a", None), AgentStep("b", None)])] }

  function Outside(): World
  {
    World(_ => Some(Text("done")), (_, _) => None, (_, _) => None, n => if n == 0 then 2 else 1)
  }

  function Root(): Pid { Pid("run", "pipe", []) }

  function Empty(): State { State(map[], 0, 0, multiset{}) }

  function CallOf(agentId: string): Call { Call(agentId, None, Null) }

  function Top(): Frame { Frame(Root(), 0, [], None, Plain, None) }

  function SlotRow(slot: nat): Frame
  {
    Frame(SlotPid(Root(), 0, slot), 0, [], None, Plain, Some(SlotFrame(Top(), slot)))
  }

  function FilledRow(slot: nat): Frame
  {
    SlotRow(slot).(outer := Some(Top().(progress := InSlot(slot, [Null, Null], [0, 1], None))))
  }

  function NoSlots(): Acc { Acc([], [], Agreed(None), [], false) }

  // Both slots pause.
  lemma BothPause() returns (s: State)
    ensures RunSlots(Outside(), TwoSlots()[0].slots, 0, Null, Top(), Empty().Emit(Started(Root(), 0)), NoSlots())
         == (s, Acc([Null, Null], [0, 1], Agreed(None), [], false))
    ensures s.store == map[0 := Checkpoint(CallOf("a"), 1, SlotRow(0)), 1 := Checkpoint(CallOf("b"), 0, SlotRow(1))]
    ensures s.next == 2
  {
    var w, slots, e0 := Outside(), TwoSlots()[0].slots, Empty().Emit(Started(Root(), 0));
    var (s1, r1) := RunSlot(w, slots[0], 0, Null, Top(), e0);
    assert r1 == Suspended([0]) && s1.next == 1 && s1.runs == 1;
    var (s2, r2) := RunSlot(w, slots[1], 1, Null, Top(), s1);
    assert r2 == Suspended([1]);
    var acc1 := NoSlots().After(None, r1);
    RunSlotsUnfold(w, slots, 0, Null, Top(), e0, NoSlots());
    RunSlotsUnfold(w, slots[1..], 1, Null, Top(), s1, acc1);
    assert acc1.After(None, r2) == Acc([Null, Null], [0, 1], Agreed(None), [], false);
    s := s2;
  }

  // So the step suspends, and both frames list rows 0 and 1.
  lemma BothListed()
    ensures var (st1, r1) := Run(Outside(), Root(), TwoSlots(), 0, Null, None, None, Empty());
      && r1 == Suspended([0, 1]) && st1.store.Keys == {0, 1} && st1.next == 2
      && st1.store[0].pauses == 1 && st1.store[1] == Checkpoint(CallOf("b"), 0, FilledRow(1))
  {
    var s := BothPause();
    var u, step, e0 := FillIn([Null, Null], [0, 1], Agreed(None)), TwoSlots()[0], Empty().Emit(Started(Root(), 0));
    var s' := AmendAll(s.store, [0, 1], Root(), 0, u).0;
    BothAmended(s.store);
    assert RunStep(Outside(), step, Null, Top(), e0) == (s.(store := s'), Suspended([0, 1])) by {
      RunParallelUnfold(Outside(), step, Null, Top(), e0);
    }
    assert TwoSlots()[1..] == [];
    assert Run(Outside(), Root(), TwoSlots(), 0, Null, None, None, Empty()) == (s.(store := s'), Suspended([0, 1]));
  }

  lemma BothAmended(s: map<nat, Checkpoint>)
    requires s == map[0 := Checkpoint(CallOf("a"), 1, SlotRow(0)), 1 := Checkpoint(CallOf("b"), 0, SlotRow(1))]
    ensures var s' := AmendAll(s, [0, 1], Root(), 0, FillIn([Null, Null], [0, 1], Agreed(None))).0;
      s'.Keys == {0, 1} && s'[0].pauses == 1 && s'[1] == Checkpoint(CallOf("b"), 0, FilledRow(1))
  {
    var u := FillIn([Null, Null], [0, 1], Agreed(None));
    assert Amend(SlotRow(1), Root(), 0, u) == Some(FilledRow(1));
    AmendAllRows(s, [0, 1], Root(), 0, u);
    assert AmendOne(s, 1, Root(), 0, u)[1] == s[1].(parent := FilledRow(1));
    assert AmendOne(s, 0, Root(), 0, u)[0].pauses == 1;
  }

  /**
    Resuming a (which pauses again) and then b ends the pipeline with null in a's slot:
    a's new checkpoint is on no pending list.
  */
  lemma RepauseLosesSlot()
    ensures var (st1, r1) := Run(Outside(), Root(), TwoSlots(), 0, Null, None, None, Empty());
      r1 == Suspended([0, 1]) && Play(Outside(), [0, 1], st1).1 == Done(Items([Null, Text("done")]), None)
    ensures Eval(Outside(), Root(), TwoSlots(), 0, Null, None).Some?
    ensures Eval(Outside(), Root(), TwoSlots(), 0, Null, None).value.value == Items([Text("done"), Text("done")])
  {
    var w := Outside();
    BothListed();
    var st1 := Run(w, Root(), TwoSlots(), 0, Null, None, None, Empty()).0;
    // a pauses again as row 2, which no list names.
    var st2 := Resume(w, 0, st1).0;
    assert Resume(w, 0, st1).1 == Suspended([2]);
    BEnds(st2);
    assert [0, 1][1..] == [1] && Play(w, [0, 1], st1) == Play(w, [1], st2);
    assert Play(w, [1], st2) == Resume(w, 1, st2);
    BothDone();
  }

  // b ends, finds neither 0 nor 1 stored, and goes past the step.
  lemma BEnds(st: State)
    requires st.store.Keys == {1, 2} && st.store[1] == Checkpoint(CallOf("b"), 0, FilledRow(1))
    ensures Resume(Outside(), 1, st).1 == Done(Items([Null, Text("done")]), None)
  {
    var w, outer := Outside(), FilledRow(1).outer;
    var st3 := st.(store := st.store - {1});
    assert [0, 1][1..] == [1] && StillStored([1], st3.store) == [];
    assert StillStored([0, 1], st3.store) == [];
    var st4 := st3.Emit(Ended(SlotRow(1).pid, 0, Text("done")));
    assert Continue(w, Some(FilledRow(1)), Text("done"), None, st3) == Continue(w, outer, Text("done"), None, st4);
    var g, merged := outer.value, Items([Null, Text("done")]);
    assert SetAt([Null, Null], 1, Text("done")) == [Null, Text("done")];
    assert Continue(w, outer, Text("done"), None, st4) == Close(w, g.(lbl := None), merged, st4);
    assert Close(w, g.(lbl := None), merged, st4).1 == Done(merged, None);
  }

  lemma BothDone()
    ensures Eval(Outside(), Root(), TwoSlots(), 0, Null, None).Some?
    ensures Eval(Outside(), Root(), TwoSlots(), 0, Null, None).value.value == Items([Text("done"), Text("done")])
  {
    var slots := TwoSlots()[0].slots;
    assert slots[1..] == [slots[1]];
    assert forall s: Step, sub, v :: s.AgentStep? ==>
      EvalStep(Outside(), sub, s, 0, v, None)
      == Some(Res(Text("done"), None, multiset{Ran(Call(s.agentId, s.skill, v))}));
    assert slots[1..][1..] == [] && EvalSlots(Outside(), Root(), [], 0, 2, Null, None).Some?;
    assert EvalSlots(Outside(), Root(), slots[1..], 0, 1, Null, None).Some?;
    assert EvalSlots(Outside(), Root(), slots[1..], 0, 1, Null, None).value.values == [Text("done")];
    assert EvalStep(Outside(), Root(), TwoSlots()[0], 0, Null, None).value.value == Items([Text("done"), Text("done")]);
  }
}
