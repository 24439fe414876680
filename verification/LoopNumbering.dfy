/**
  An agent's own loops: start, iterate and finish calls on one host run, with iterations
  that may pause for a human, hosts rebuilt from the store, and discarded attempts.
*/
module LoopNumbering {
  import opened Wrappers

  datatype Value = Undefined | Data(text: string) | Steered(previous: Value, feedback: Value)

  datatype Status = Running | Completed | Exhausted | Failed

  // An iteration as it is stored.
  datatype Row = Row(index: int, input: Value, output: Value)

  datatype Loop = Loop(
    maxIterations: int, status: Status, iterations: int, rows: seq<Row>,
    lastOutput: Option<Value>, result: Option<Value>)

  // The runtime's cursor on the loop that is running.
  datatype Active = Active(id: nat, iteration: int, lastOutput: Value)

  // What links a paused iteration to its loop.
  datatype Link = Link(id: nat, iteration: int, input: Value)

  // The host run is in this process, or waits for a paused iteration, or is not here: it
  // has ended, or paused on something else.
  datatype Place = Live | Parked(link: Link) | Away

  // `inFlight` are the inputs of the iterations whose pipelines are running.
  datatype State = State(
    loops: seq<Loop>, place: Place, active: Option<Active>, busy: bool,
    suspended: Option<Link>, started: Option<nat>, inFlight: seq<Value>)

  const EMPTY := State([], Away, None, false, None, None, [])

  datatype Action =
    | Rebuild
    | Start(allowed: bool, input: Value)
    | Iterate(feedback: Option<Value>)
    | Finish(result: Option<Value>)
    | IterationEnds(output: Value, replaced: Option<Value>)
    | IterationThrows
    | IterationSuspends
    | Park
    | PauseElsewhere
    | WorkerEnds(output: Value, replaced: Option<Value>)
    | HostLost
    | StoredFailed(id: nat)
    | Reset
    | Finalize(failed: bool)

  // ---------------------------------------------------------------- one action

  function OrElse<T>(a: Option<T>, b: T): T { if a.Some? then a.value else b }

  function FindRunning(loops: seq<Loop>): (r: Option<nat>)
    ensures r.Some? ==> r.value < |loops| && loops[r.value].status == Running
    ensures r.None? ==> forall i :: 0 <= i < |loops| ==> loops[i].status != Running
  {
    if loops == [] then None
    else
      var front := FindRunning(loops[..|loops| - 1]);
      if front.Some? then front
      else if loops[|loops| - 1].status == Running then Some(|loops| - 1) else None
  }

  // A runtime made from the store; `restored` is the output of an iteration just completed.
  function Rebuilt(loops: seq<Loop>, restored: Option<Value>): State
  {
    var found := FindRunning(loops);
    var active :=
      if found.None? then None
      else
        var l := loops[found.value];
        var row := if l.rows == [] then Undefined else l.rows[|l.rows| - 1].output;
        Some(Active(found.value, l.iterations, OrElse(restored, OrElse(l.lastOutput, row))));
    State(loops, Live, active, false, None, None, [])
  }

  function NotHere(loops: seq<Loop>, place: Place): State { State(loops, place, None, false, None, None, []) }

  function Closed(loops: seq<Loop>, id: nat, status: Status, result: Option<Value>): seq<Loop>
  {
    if id < |loops| then loops[id := loops[id].(status := status, result := result)] else loops
  }

  // Only a loop still running can be failed from outside.
  function MarkedFailed(loops: seq<Loop>, id: nat): seq<Loop>
  {
    if id < |loops| && loops[id].status == Running then Closed(loops, id, Failed, None) else loops
  }

  // The row of one finished iteration and the loop's own count.
  function Written(loops: seq<Loop>, id: nat, row: Row, last: Value): seq<Loop>
  {
    if id < |loops| then
      var l := loops[id];
      loops[id := l.(rows := l.rows + [row], iterations := row.index, lastOutput := Some(last))]
    else loops
  }

  // The loop the attempt left open ends with the run.
  function Finalized(s: State, failed: bool): State
  {
    if s.active.None? then s
    else
      var a := s.active.value;
      var loops := if failed then Closed(s.loops, a.id, Failed, None)
                   else Closed(s.loops, a.id, Completed, Some(a.lastOutput));
      s.(loops := loops, active := None)
  }

  function Next(s: State, max: int, act: Action): State
  {
    match act
    case Rebuild => if s.place.Away? then Rebuilt(s.loops, None) else s
    case Start(allowed, input) =>
      if !s.place.Live? || s.busy || s.suspended.Some? || s.active.Some? || !allowed then s
      else
        var id := |s.loops|;
        s.(loops := s.loops + [Loop(max, Running, 0, [], None, None)],
           active := Some(Active(id, 0, Undefined)), started := Some(id), busy := true,
           inFlight := s.inFlight + [input])
    case Iterate(feedback) =>
      if !s.place.Live? || s.busy || s.suspended.Some? || s.active.None? then s
      else
        var a := s.active.value;
        if a.iteration >= max then
          s.(loops := Closed(s.loops, a.id, Exhausted, Some(a.lastOutput)), active := None)
        else
          var input := if feedback.None? then a.lastOutput else Steered(a.lastOutput, feedback.value);
          s.(busy := true, inFlight := s.inFlight + [input])
    case Finish(result) =>
      if !s.place.Live? || s.busy || s.suspended.Some? || s.active.None? then s
      else
        var a := s.active.value;
        s.(loops := Closed(s.loops, a.id, Completed, Some(OrElse(result, a.lastOutput))), active := None)
    case IterationEnds(output, replaced) =>
      if !s.place.Live? || s.inFlight == [] then s
      else
        var done := s.(busy := false, inFlight := s.inFlight[1..]);
        if s.active.None? then done
        else
          var a := s.active.value;
          var last := OrElse(replaced, output);
          done.(loops := Written(s.loops, a.id, Row(a.iteration + 1, s.inFlight[0], output), last),
                active := Some(Active(a.id, a.iteration + 1, last)))
    case IterationThrows =>
      if !s.place.Live? || s.inFlight == [] then s
      else s.(busy := false, inFlight := s.inFlight[1..])
    case IterationSuspends =>
      if !s.place.Live? || s.inFlight == [] || s.active.None? then s
      else
        // The call throws, yet the guard stays held.
        var a := s.active.value;
        s.(suspended := Some(Link(a.id, a.iteration + 1, s.inFlight[0])), inFlight := s.inFlight[1..])
    case Park =>
      if !s.place.Live? || s.inFlight != [] || s.suspended.None? then s
      else NotHere(s.loops, Parked(s.suspended.value))
    case PauseElsewhere =>
      if !s.place.Live? || s.inFlight != [] || s.suspended.Some? then s else NotHere(s.loops, Away)
    case WorkerEnds(output, replaced) =>
      if !s.place.Parked? then s
      else
        var link := s.place.link;
        var last := OrElse(replaced, output);
        Rebuilt(Written(s.loops, link.id, Row(link.iteration, link.input, output), last), Some(last))
    case HostLost =>
      if !s.place.Parked? then s
      else NotHere(MarkedFailed(s.loops, s.place.link.id), Away)
    case StoredFailed(id) => s.(loops := MarkedFailed(s.loops, id))
    case Reset =>
      if !s.place.Live? then s
      else
        var undone :=
          if s.suspended.Some? && s.active.Some? && s.started == Some(s.active.value.id) then Finalized(s, true)
          else s;
        undone.(started := None, busy := false, suspended := None)
    case Finalize(failed) =>
      if !s.place.Live? then s else NotHere(Finalized(s, failed).loops, Away)
  }

  function RunFrom(s: State, max: int, actions: seq<Action>): State
  {
    if actions == [] then s
    else Next(RunFrom(s, max, actions[..|actions| - 1]), max, actions[|actions| - 1])
  }

  function Run(max: int, actions: seq<Action>): State { RunFrom(EMPTY, max, actions) }

  // ---------------------------------------------------------------- numbering

  function Cap(max: int): int { if max > 1 then max else 1 }

  // Rows 1, 2, ... n, no gap and no repeat; n is the stored count and within the cap.
  ghost predicate Numbered(l: Loop, max: int)
  {
    && l.iterations == |l.rows| <= Cap(max)
    && (forall i :: 0 <= i < |l.rows| ==> l.rows[i].index == i + 1)
    && (l.lastOutput.Some? <==> |l.rows| > 0)
  }

  // The iterations begun and not yet written or given up.
  function OpenIterations(s: State): int
  {
    |s.inFlight| + (if s.suspended.Some? then 1 else 0) + (if s.place.Parked? then 1 else 0)
  }

  // The next row of loop `id` would be this one, and there is room for it.
  ghost predicate NextRow(s: State, max: int, id: nat, index: int)
  {
    id < |s.loops| && index == s.loops[id].iterations + 1 <= Cap(max)
  }

  ghost predicate CursorRight(s: State)
  {
    s.active.Some? ==>
      var a := s.active.value;
      && a.id < |s.loops| && a.iteration == s.loops[a.id].iterations
      && a.lastOutput == (if a.iteration > 0 then OrElse(s.loops[a.id].lastOutput, Undefined) else Undefined)
  }

  ghost predicate OpenRight(s: State, max: int)
  {
    match s.place
    case Live =>
      && s.busy == (OpenIterations(s) == 1) && OpenIterations(s) <= 1
      && (s.busy ==> s.active.Some? && NextRow(s, max, s.active.value.id, s.active.value.iteration + 1))
      && (s.suspended.Some? ==>
            s.suspended.value.id == s.active.value.id && s.suspended.value.iteration == s.active.value.iteration + 1)
    case Parked(link) => s == NotHere(s.loops, s.place) && NextRow(s, max, link.id, link.iteration)
    case Away => s == NotHere(s.loops, s.place)
  }

  // No loop is left running that the host does not know of.
  ghost predicate OneRunning(s: State)
  {
    && (forall i, j ::
          0 <= i < |s.loops| && 0 <= j < |s.loops| && s.loops[i].status == Running && s.loops[j].status == Running ==>
            i == j)
    && (s.place.Live? ==> forall i :: 0 <= i < |s.loops| && s.loops[i].status == Running ==>
          s.active.Some? && s.active.value.id == i)
    && (s.place.Parked? ==> forall i :: 0 <= i < |s.loops| && s.loops[i].status == Running ==> s.place.link.id == i)
  }

  ghost predicate Good(s: State, max: int)
  {
    && (forall i :: 0 <= i < |s.loops| ==> Numbered(s.loops[i], max))
    && CursorRight(s) && OpenRight(s, max) && OneRunning(s)
  }

  lemma RebuiltGood(loops: seq<Loop>, max: int, restored: Option<Value>)
    requires forall i :: 0 <= i < |loops| ==> Numbered(loops[i], max)
    requires forall i, j ::
      0 <= i < |loops| && 0 <= j < |loops| && loops[i].status == Running && loops[j].status == Running ==> i == j
    requires restored.Some? ==> forall i :: 0 <= i < |loops| && loops[i].status == Running ==>
      loops[i].iterations > 0 && loops[i].lastOutput == restored
    ensures Good(Rebuilt(loops, restored), max)
  {
  }

  lemma WrittenNumbered(loops: seq<Loop>, max: int, id: nat, row: Row, last: Value)
    requires forall i :: 0 <= i < |loops| ==> Numbered(loops[i], max)
    requires id < |loops| && row.index == loops[id].iterations + 1 <= Cap(max)
    ensures forall i :: 0 <= i < |loops| ==> Numbered(Written(loops, id, row, last)[i], max)
  {
  }

  // A reset may come at any time except while an iteration's pipeline is still running.
  predicate Calm(s: State, act: Action) { act.Reset? ==> s.inFlight == [] }

  lemma ClosedKeeps(s: State, max: int, status: Status, result: Option<Value>, t: State)
    requires Good(s, max) && s.place.Live? && s.active.Some? && status != Running
    requires t == s.(loops := Closed(s.loops, s.active.value.id, status, result), active := None) && !t.busy
    ensures Good(t, max)
  {
  }

  lemma StartGood(s: State, max: int, allowed: bool, input: Value)
    requires Good(s, max)
    ensures Good(Next(s, max, Start(allowed, input)), max)
  {
  }

  lemma IterateGood(s: State, max: int, feedback: Option<Value>)
    requires Good(s, max)
    ensures Good(Next(s, max, Iterate(feedback)), max)
  {
    if s.place.Live? && !s.busy && s.suspended.None? && s.active.Some? {
      if s.active.value.iteration >= max {
        ClosedKeeps(s, max, Exhausted, Some(s.active.value.lastOutput), Next(s, max, Iterate(feedback)));
      }
    }
  }

  lemma FinishGood(s: State, max: int, result: Option<Value>)
    requires Good(s, max)
    ensures Good(Next(s, max, Finish(result)), max)
  {
    if s.place.Live? && !s.busy && s.suspended.None? && s.active.Some? {
      ClosedKeeps(s, max, Completed, Some(OrElse(result, s.active.value.lastOutput)), Next(s, max, Finish(result)));
    }
  }

  lemma EndsGood(s: State, max: int, output: Value, replaced: Option<Value>)
    requires Good(s, max)
    ensures Good(Next(s, max, IterationEnds(output, replaced)), max)
  {
    if s.place.Live? && s.inFlight != [] {
      var a := s.active.value;
      WrittenNumbered(s.loops, max, a.id, Row(a.iteration + 1, s.inFlight[0], output), OrElse(replaced, output));
    }
  }

  lemma WorkerEndsGood(s: State, max: int, output: Value, replaced: Option<Value>)
    requires Good(s, max)
    ensures Good(Next(s, max, WorkerEnds(output, replaced)), max)
  {
    if s.place.Parked? {
      var link, last := s.place.link, OrElse(replaced, output);
      var row := Row(link.iteration, link.input, output);
      WrittenNumbered(s.loops, max, link.id, row, last);
      RebuiltGood(Written(s.loops, link.id, row, last), max, Some(last));
    }
  }

  lemma LeavingGood(s: State, max: int, act: Action)
    requires Good(s, max)
    requires act.IterationThrows? || act.IterationSuspends? || act.Park? || act.PauseElsewhere?
    ensures Good(Next(s, max, act), max)
  {
  }

  lemma FailingGood(s: State, max: int, id: nat)
    requires Good(s, max)
    ensures Good(Next(s, max, StoredFailed(id)), max)
  {
  }

  lemma HostLostGood(s: State, max: int)
    requires Good(s, max)
    ensures Good(Next(s, max, HostLost), max)
  {
  }

  lemma FinalizeGood(s: State, max: int, failed: bool)
    requires Good(s, max)
    ensures Good(Next(s, max, Finalize(failed)), max)
  {
  }

  lemma ResetGood(s: State, max: int)
    requires Good(s, max) && Calm(s, Reset)
    ensures Good(Next(s, max, Reset), max)
  {
  }

  lemma NextGood(s: State, max: int, act: Action)
    requires Good(s, max) && Calm(s, act)
    ensures Good(Next(s, max, act), max)
  {
    match act
    case Rebuild => if s.place.Away? { RebuiltGood(s.loops, max, None); }
    case Start(allowed, input) => StartGood(s, max, allowed, input);
    case Iterate(feedback) => IterateGood(s, max, feedback);
    case Finish(result) => FinishGood(s, max, result);
    case IterationEnds(output, replaced) => EndsGood(s, max, output, replaced);
    case WorkerEnds(output, replaced) => WorkerEndsGood(s, max, output, replaced);
    case Reset => ResetGood(s, max);
    case HostLost => HostLostGood(s, max);
    case StoredFailed(id) => FailingGood(s, max, id);
    case Finalize(failed) => FinalizeGood(s, max, failed);
    case IterationThrows => LeavingGood(s, max, act);
    case IterationSuspends => LeavingGood(s, max, act);
    case Park => LeavingGood(s, max, act);
    case PauseElsewhere => LeavingGood(s, max, act);
  }

  // The runs of one host in which every reset is calm.
  ghost predicate CalmFrom(s: State, max: int, actions: seq<Action>)
  {
    forall i :: 0 <= i < |actions| ==> Calm(RunFrom(s, max, actions[..i]), actions[i])
  }

  // Over any such run: rows are numbered 1, 2, ... n, the stored count is n, n is within
  // the cap, at most one iteration is open, and the runtime's cursor agrees with the store.
  lemma NumberedAlways(max: int, actions: seq<Action>)
    requires CalmFrom(EMPTY, max, actions)
    ensures Good(Run(max, actions), max) && OpenIterations(Run(max, actions)) <= 1
  {
    StaysGood(EMPTY, max, actions);
  }

  lemma {:induction false} StaysGood(s: State, max: int, actions: seq<Action>)
    requires Good(s, max) && CalmFrom(s, max, actions)
    ensures Good(RunFrom(s, max, actions), max) && OpenIterations(RunFrom(s, max, actions)) <= 1
    decreases |actions|
  {
    if actions == [] {
    } else {
      var n := |actions| - 1;
      var front := actions[..n];
      forall i | 0 <= i < |front| ensures Calm(RunFrom(s, max, front[..i]), front[i]) {
        assert front[..i] == actions[..i];
      }
      StaysGood(s, max, front);
      NextGood(RunFrom(s, max, front), max, actions[n]);
    }
    AtMostOne(RunFrom(s, max, actions), max);
  }

  lemma AtMostOne(s: State, max: int)
    requires Good(s, max)
    ensures OpenIterations(s) <= 1
  {
  }

  // What was recorded stays recorded: loops are only added, rows only appended, and a
  // loop that has stopped running never runs again.
  ghost predicate Remembers(was: seq<Loop>, now: seq<Loop>)
  {
    && |was| <= |now|
    && forall i :: 0 <= i < |was| ==>
         was[i].rows <= now[i].rows && was[i].maxIterations == now[i].maxIterations
         && (now[i].status == Running ==> was[i].status == Running)
  }

  lemma NextRemembers(s: State, max: int, act: Action)
    ensures Remembers(s.loops, Next(s, max, act).loops)
  {
  }

  lemma {:induction false} HistoryKept(s: State, max: int, actions: seq<Action>)
    ensures Remembers(s.loops, RunFrom(s, max, actions).loops)
    decreases |actions|
  {
    if actions == [] {
    } else {
      var n := |actions| - 1;
      HistoryKept(s, max, actions[..n]);
      NextRemembers(RunFrom(s, max, actions[..n]), max, actions[n]);
      RemembersThen(s.loops, RunFrom(s, max, actions[..n]).loops, RunFrom(s, max, actions).loops);
    }
  }

  lemma RemembersThen(a: seq<Loop>, b: seq<Loop>, c: seq<Loop>)
    requires Remembers(a, b) && Remembers(b, c)
    ensures Remembers(a, c)
  {
  }

  // Leaving and coming back loses nothing: a runtime rebuilt from the store has the very
  // cursor the host had when it paused, as long as its loop was not failed meanwhile.
  lemma RebuildRestores(s: State, max: int)
    requires Good(s, max) && s.place.Live? && !s.busy
    requires s.active.Some? ==> s.loops[s.active.value.id].status == Running
    ensures Next(Next(s, max, PauseElsewhere), max, Rebuild).active == s.active
    ensures Next(Next(s, max, PauseElsewhere), max, Rebuild).loops == s.loops
  {
    assert Next(s, max, PauseElsewhere) == NotHere(s.loops, Away);
  }

  // A pause does not change the outcome: an iteration that pauses, parks its host and is
  // resumed leaves the same loops and cursor as one that ends at once with that output.
  lemma PausedIterationSame(s: State, max: int, output: Value, replaced: Option<Value>)
    requires Good(s, max) && s.place.Live? && |s.inFlight| == 1
    requires s.active.Some? && s.loops[s.active.value.id].status == Running
    ensures var direct := Next(s, max, IterationEnds(output, replaced));
      var paused := Next(Next(Next(s, max, IterationSuspends), max, Park), max, WorkerEnds(output, replaced));
      paused.loops == direct.loops && paused.active == direct.active && !paused.busy && !direct.busy
  {
    var a := s.active.value;
    var link := Link(a.id, a.iteration + 1, s.inFlight[0]);
    assert Next(Next(s, max, IterationSuspends), max, Park) == NotHere(s.loops, Parked(link));
    var written := Written(s.loops, a.id, Row(link.iteration, link.input, output), OrElse(replaced, output));
    assert written[a.id].status == Running;
    assert FindRunning(written) == Some(a.id);
  }

  // The condition on resets is exact: after a reset two iterations can come to be open at
  // once if and only if a pipeline was still running at the reset.
  lemma ResetSafeIff(s: State, max: int)
    requires Good(s, max) && s.place.Live?
    ensures s.inFlight == [] <==>
      forall more :: CalmFrom(Next(s, max, Reset), max, more) ==>
        OpenIterations(RunFrom(Next(s, max, Reset), max, more)) <= 1
  {
    var t := Next(s, max, Reset);
    if s.inFlight == [] {
      NextGood(s, max, Reset);
      forall more | CalmFrom(t, max, more) ensures OpenIterations(RunFrom(t, max, more)) <= 1 {
        StaysGood(t, max, more);
      }
    } else {
      var one := [Iterate(None)];
      var two := one + [Start(true, Undefined)];
      assert one[..0] == [] && two[..1] == one;
      assert RunFrom(t, max, one) == Next(t, max, Iterate(None));
      assert RunFrom(t, max, two) == Next(Next(t, max, Iterate(None)), max, Start(true, Undefined));
      var more := if s.active.value.iteration >= max then two else one;
      assert CalmFrom(t, max, more);
      assert OpenIterations(RunFrom(t, max, more)) == 2;
    }
  }

  // For example, with a cap of one, a discarded attempt whose pipeline still runs and its
  // retry between them write two rows.
  lemma ResetInFlightOverruns()
    ensures exists actions :: |Run(1, actions).loops| == 1 && Run(1, actions).loops[0].iterations > Cap(1)
  {
    var d, u := Data("x"), None;
    var a1 := [Rebuild];
    var a2 := a1 + [Start(true, d)];
    var a3 := a2 + [Reset];
    var a4 := a3 + [Iterate(u)];
    var a5 := a4 + [IterationEnds(d, u)];
    var a6 := a5 + [IterationEnds(d, u)];
    assert a1[..0] == [] && a2[..1] == a1 && a3[..2] == a2 && a4[..3] == a3 && a5[..4] == a4 && a6[..5] == a5;
    assert Run(1, a1) == State([], Live, None, false, None, None, []);
    var begun := Loop(1, Running, 0, [], None, None);
    var cursor := Some(Active(0, 0, Undefined));
    assert Run(1, a2) == State([begun], Live, cursor, true, None, Some(0), [d]);
    assert Run(1, a3) == State([begun], Live, cursor, false, None, None, [d]);
    assert Run(1, a4) == State([begun], Live, cursor, true, None, None, [d, Undefined]);
    assert Run(1, a5).loops[0].iterations == 1 && Run(1, a5).inFlight == [Undefined];
    assert |Run(1, a6).loops| == 1 && Run(1, a6).loops[0].iterations == 2;
  }

  // ---------------------------------------------------------------- the code

  // The loop tools of one host run and the store behind them. A call that runs a pipeline
  // is in two parts: up to the pipeline, and from its end.
  class Runtime {
    const max: int
    var loops: seq<Loop>
    var place: Place
    var active: Option<Active>
    var loopBusy: bool
    var suspended: Option<Link>
    var attemptStarted: Option<nat>
    var inFlight: seq<Value>

    ghost function Now(): State
      reads this
    {
      State(loops, place, active, loopBusy, suspended, attemptStarted, inFlight)
    }

    constructor (max: int)
      ensures Now() == EMPTY && this.max == max
    {
      this.max := max;
      loops, place, active := [], Away, None;
      loopBusy, suspended, attemptStarted, inFlight := false, None, None, [];
    }

    // Takes the guard unless a call or a paused iteration holds it.
    method ClaimLoopCall() returns (claimed: bool)
      modifies this
      ensures claimed == (old(place).Live? && !old(loopBusy) && old(suspended).None?)
      ensures Now() == if claimed then old(Now()).(busy := true) else old(Now())
    {
      if !place.Live? || loopBusy || suspended.Some? { return false; }
      loopBusy := true;
      return true;
    }

    method BuildLoopTools(restored: Option<Value>)
      modifies this
      ensures Now() == Rebuilt(old(loops), restored)
    {
      var mine := FindRunning(loops);
      active := None;
      if mine.Some? {
        var l := loops[mine.value];
        var last := if l.rows == [] then Undefined else l.rows[|l.rows| - 1].output;
        if l.lastOutput.Some? { last := l.lastOutput.value; }
        if restored.Some? { last := restored.value; }
        active := Some(Active(mine.value, l.iterations, last));
      }
      place, loopBusy, suspended, attemptStarted, inFlight := Live, false, None, None, [];
    }

    method StartLoop(allowed: bool, input: Value)
      modifies this
      ensures Now() == Next(old(Now()), max, Start(allowed, input))
    {
      var claimed := ClaimLoopCall();
      if !claimed { return; }
      if active.Some? || !allowed { loopBusy := false; return; }
      active := Some(Active(|loops|, 0, Undefined));
      attemptStarted := Some(|loops|);
      loops := loops + [Loop(max, Running, 0, [], None, None)];
      inFlight := inFlight + [input];
    }

    method IterateLoop(feedback: Option<Value>)
      modifies this
      ensures Now() == Next(old(Now()), max, Iterate(feedback))
    {
      var claimed := ClaimLoopCall();
      if !claimed { return; }
      if active.None? { loopBusy := false; return; }
      var a := active.value;
      if a.iteration >= max {
        loops := Closed(loops, a.id, Exhausted, Some(a.lastOutput));
        active := None;
        loopBusy := false;
        return;
      }
      var input := a.lastOutput;
      if feedback.Some? { input := Steered(a.lastOutput, feedback.value); }
      inFlight := inFlight + [input];
    }

    method FinishLoop(result: Option<Value>)
      modifies this
      ensures Now() == Next(old(Now()), max, Finish(result))
    {
      var claimed := ClaimLoopCall();
      if !claimed { return; }
      if active.Some? {
        var a := active.value;
        loops := Closed(loops, a.id, Completed, Some(OrElse(result, a.lastOutput)));
        active := None;
      }
      loopBusy := false;
    }

    method FinalizeIteration(output: Value, replaced: Option<Value>)
      requires place.Live? && inFlight != []
      modifies this
      ensures Now() == Next(old(Now()), max, IterationEnds(output, replaced))
    {
      var input := inFlight[0];
      inFlight := inFlight[1..];
      loopBusy := false;
      if active.None? { return; }
      var a := active.value;
      var index := a.iteration + 1;
      var last := if replaced.Some? then replaced.value else output;
      loops := Written(loops, a.id, Row(index, input, output), last);
      active := Some(Active(a.id, index, last));
    }

    method SuspendIteration()
      requires place.Live? && inFlight != [] && active.Some?
      modifies this
      ensures Now() == Next(old(Now()), max, IterationSuspends)
    {
      suspended := Some(Link(active.value.id, active.value.iteration + 1, inFlight[0]));
      inFlight := inFlight[1..];
    }

    // The worker of a parked host has ended: its iteration is written under the number it
    // was begun with, and the host continues with a runtime built afresh.
    method CompleteLoopIteration(output: Value, replaced: Option<Value>)
      requires place.Parked?
      modifies this
      ensures Now() == Next(old(Now()), max, WorkerEnds(output, replaced))
    {
      var link := place.link;
      var last := if replaced.Some? then replaced.value else output;
      loops := Written(loops, link.id, Row(link.iteration, link.input, output), last);
      BuildLoopTools(Some(last));
    }

    method FinalizeActive(failed: bool)
      modifies this
      ensures Now() == Finalized(old(Now()), failed)
    {
      if active.None? { return; }
      var a := active.value;
      if failed {
        loops := Closed(loops, a.id, Failed, None);
      } else {
        loops := Closed(loops, a.id, Completed, Some(a.lastOutput));
      }
      active := None;
    }

    // Undoes what a discarded attempt left open, so that its retry can call the tools.
    method ResetAttempt()
      requires place.Live?
      modifies this
      ensures Now() == Next(old(Now()), max, Reset)
    {
      if suspended.Some? && active.Some? && attemptStarted == Some(active.value.id) {
        FinalizeActive(true);
      }
      attemptStarted, loopBusy, suspended := None, false, None;
    }
  }
}
