/**
  What the loop tools leave in the store and what they hand to pipelines: how a loop ends, what
  its rows hold, and where each iteration's input comes from.
*/
module LoopOutcomes {
  import opened Wrappers
  import opened LoopNumbering

  // ---------------------------------------------------------------- one action

  // The host can take a loop call, and has loop `id` active.
  predicate MayCall(s: State)
  {
    s.place.Live? && !s.busy && s.suspended.None? && s.active.Some? && s.active.value.id < |s.loops|
  }

  // Loop `id` has ended with this status and result; nothing else is different but the cursor.
  ghost predicate OnlyEnded(s: State, t: State, id: nat, status: Status, result: Option<Value>)
  {
    && id < |s.loops| == |t.loops| && t.active.None?
    && t.place == s.place && t.busy == s.busy && t.suspended == s.suspended && t.started == s.started
    && t.inFlight == s.inFlight
    && t.loops[id].status == status && t.loops[id].result == result
    && t.loops[id].rows == s.loops[id].rows && t.loops[id].iterations == s.loops[id].iterations
    && t.loops[id].lastOutput == s.loops[id].lastOutput && t.loops[id].maxIterations == s.loops[id].maxIterations
    && forall i :: 0 <= i < |s.loops| && i != id ==> t.loops[i] == s.loops[i]
  }

  /**
    A finish completes the active loop with the given result, or its last output when none is
    given; an iterate at the cap exhausts it with the last output. Neither does anything when
    the call is refused.
  */
  lemma CallsEndLoops(s: State, max: int, result: Option<Value>, feedback: Option<Value>)
    requires s.active.Some? ==> s.active.value.id < |s.loops|
    ensures MayCall(s) ==>
      OnlyEnded(s, Next(s, max, Finish(result)), s.active.value.id, Completed,
                if result.Some? then result else Some(s.active.value.lastOutput))
    ensures MayCall(s) && s.active.value.iteration >= max ==>
      OnlyEnded(s, Next(s, max, Iterate(feedback)), s.active.value.id, Exhausted, Some(s.active.value.lastOutput))
    ensures !MayCall(s) ==> Next(s, max, Finish(result)) == s && Next(s, max, Iterate(feedback)) == s
  {
  }

  // The end of the host run completes its loop with the last output, or fails it with no result,
  // and leaves no runtime behind.
  lemma RunEndsLoop(s: State, max: int, failed: bool)
    requires s.place.Live? && s.active.Some? && s.active.value.id < |s.loops|
    ensures OnlyEnded(s, Finalized(s, failed), s.active.value.id, if failed then Failed else Completed,
                      if failed then None else Some(s.active.value.lastOutput))
    ensures Next(s, max, Finalize(failed)) == NotHere(Finalized(s, failed).loops, Away)
  {
  }

  // A loop marked failed from outside was running, and is the only one to change.
  lemma FailedFromOutside(s: State, max: int, id: nat)
    ensures var t := Next(s, max, StoredFailed(id));
      && t == s.(loops := t.loops) && |t.loops| == |s.loops|
      && (forall i :: 0 <= i < |s.loops| && (i != id || s.loops[i].status != Running) ==> t.loops[i] == s.loops[i])
      && (id < |s.loops| && s.loops[id].status == Running ==>
            && t.loops[id].status == Failed && t.loops[id].result == None && t.loops[id].rows == s.loops[id].rows
            && t.loops[id].iterations == s.loops[id].iterations && t.loops[id].lastOutput == s.loops[id].lastOutput)
    ensures s.place.Parked? && s.place.link.id == id ==>
      Next(s, max, HostLost).loops == Next(s, max, StoredFailed(id)).loops
  {
  }

  // Loop `id` has one more row; nothing else of the loops is different.
  ghost predicate OneRowMore(was: seq<Loop>, now: seq<Loop>, id: nat, index: int, input: Value, output: Value,
                             last: Value)
  {
    && id < |was| == |now|
    && |now[id].rows| == |was[id].rows| + 1 && now[id].rows[..|was[id].rows|] == was[id].rows
    && now[id].rows[|was[id].rows|].index == index && now[id].rows[|was[id].rows|].input == input
    && now[id].rows[|was[id].rows|].output == output
    && now[id].iterations == index && now[id].lastOutput == Some(last)
    && now[id].status == was[id].status && now[id].result == was[id].result
    && now[id].maxIterations == was[id].maxIterations
    && forall i :: 0 <= i < |was| && i != id ==> now[i] == was[i]
  }

  /**
    The end of an iteration, here or in a worker, writes one row: the number after the cursor's,
    the input it was given and the raw output. What the hook put in its place becomes the last
    output, in the store and for the next call.
  */
  lemma IterationWritten(s: State, max: int, output: Value, replaced: Option<Value>)
    ensures s.place.Live? && s.inFlight != [] && s.active.Some? && s.active.value.id < |s.loops| ==>
      var a, t := s.active.value, Next(s, max, IterationEnds(output, replaced));
      var last := if replaced.Some? then replaced.value else output;
      && OneRowMore(s.loops, t.loops, a.id, a.iteration + 1, s.inFlight[0], output, last)
      && t.active == Some(Active(a.id, a.iteration + 1, last)) && t.inFlight == s.inFlight[1..] && !t.busy
    ensures s.place.Parked? && s.place.link.id < |s.loops| ==>
      var link, t := s.place.link, Next(s, max, WorkerEnds(output, replaced));
      var last := if replaced.Some? then replaced.value else output;
      OneRowMore(s.loops, t.loops, link.id, link.iteration, link.input, output, last)
  {
  }

  /**
    The pipeline of the first iteration gets the input of the call; that of a later one the last
    output as it is, or wrapped with the feedback.
  */
  lemma InputsGiven(s: State, max: int, allowed: bool, input: Value, feedback: Option<Value>)
    ensures var t := Next(s, max, Start(allowed, input));
      if s.place.Live? && !s.busy && s.suspended.None? && s.active.None? && allowed then
        && t.inFlight == s.inFlight + [input] && t.busy && t.active == Some(Active(|s.loops|, 0, Undefined))
        && |t.loops| == |s.loops| + 1 && t.loops[..|s.loops|] == s.loops
        && t.loops[|s.loops|].status == Running && t.loops[|s.loops|].rows == [] && t.loops[|s.loops|].iterations == 0
        && t.loops[|s.loops|].maxIterations == max && t.loops[|s.loops|].lastOutput == None
        && t.loops[|s.loops|].result == None
      else t == s
    ensures MayCall(s) && s.active.value.iteration < max ==>
      var t := Next(s, max, Iterate(feedback));
      && t == s.(busy := true, inFlight := t.inFlight) && |t.inFlight| == |s.inFlight| + 1
      && t.inFlight[..|s.inFlight|] == s.inFlight
      && t.inFlight[|s.inFlight|] == (if feedback.None? then s.active.value.lastOutput
                                      else Steered(s.active.value.lastOutput, feedback.value))
  {
  }

  /**
    A runtime made from the store holds nothing but a cursor on a loop that runs, if there is
    one: its stored count, and the given output, or its stored last output, or its last row's.
  */
  lemma RebuiltFrom(loops: seq<Loop>, restored: Option<Value>)
    ensures var s := Rebuilt(loops, restored);
      && s.loops == loops && s.place.Live? && !s.busy && s.suspended.None? && s.started.None? && s.inFlight == []
      && (s.active.None? <==> forall i :: 0 <= i < |loops| ==> loops[i].status != Running)
      && (s.active.Some? ==>
            var a := s.active.value;
            && a.id < |loops| && loops[a.id].status == Running && a.iteration == loops[a.id].iterations
            && (restored.Some? ==> a.lastOutput == restored.value)
            && (restored.None? && loops[a.id].lastOutput.Some? ==> Some(a.lastOutput) == loops[a.id].lastOutput)
            && (restored.None? && loops[a.id].lastOutput.None? && loops[a.id].rows != [] ==>
                  a.lastOutput == loops[a.id].rows[|loops[a.id].rows| - 1].output))
  {
  }

  /**
    A discarded attempt frees the guard. The loop it started fails if it left an iteration of it
    waiting; any other loop stays as it is.
  */
  lemma ResetUndoes(s: State, max: int)
    requires s.place.Live? && (s.active.Some? ==> s.active.value.id < |s.loops|)
    ensures var t := Next(s, max, Reset);
      && !t.busy && t.suspended.None? && t.started.None? && t.place == s.place && t.inFlight == s.inFlight
      && (if s.suspended.Some? && s.active.Some? && s.started == Some(s.active.value.id) then
            && t.active.None? && |t.loops| == |s.loops|
            && t.loops[s.active.value.id].status == Failed && t.loops[s.active.value.id].result == None
            && forall i :: 0 <= i < |s.loops| && i != s.active.value.id ==> t.loops[i] == s.loops[i]
          else t.loops == s.loops && t.active == s.active)
  {
  }

  /**
    An iteration that throws frees the guard; one that pauses keeps it, under the number it was
    begun with. The host then waits for that worker, or is gone; loops and rows stay as they are.
  */
  lemma IterationLeaves(s: State, max: int)
    requires s.place.Live?
    ensures s.inFlight != [] ==>
      Next(s, max, IterationThrows) == s.(busy := false, inFlight := s.inFlight[1..])
    ensures s.inFlight != [] && s.active.Some? ==>
      var t := Next(s, max, IterationSuspends);
      && t.busy == s.busy && t.loops == s.loops && t.active == s.active && t.inFlight == s.inFlight[1..]
      && t.suspended == Some(Link(s.active.value.id, s.active.value.iteration + 1, s.inFlight[0]))
    ensures s.inFlight == [] ==>
      var act := if s.suspended.Some? then Park else PauseElsewhere;
      var t := Next(s, max, act);
      && t.loops == s.loops && t.active.None? && !t.busy && t.suspended.None? && t.started.None? && t.inFlight == []
      && t.place == (if s.suspended.Some? then Parked(s.suspended.value) else Away)
  {
  }

  // --------------------------------------------------------------- whole runs

  function LastOf(l: Loop): Value { if l.lastOutput.Some? then l.lastOutput.value else Undefined }

  // A loop without an end has no result; one that ended at the cap has had all its iterations
  // and their last output as its result; a completed one has some result, a failed one none.
  ghost predicate EndRight(l: Loop, max: int)
  {
    match l.status
    case Running => l.result == None
    case Completed => l.result.Some?
    case Exhausted => l.iterations >= max && l.result == Some(LastOf(l))
    case Failed => l.result == None
  }

  // The loop a cursor or a paused iteration is on has not been closed by a call.
  predicate Open(loops: seq<Loop>, id: nat)
  {
    id < |loops| && (loops[id].status == Running || loops[id].status == Failed)
  }

  ghost predicate EndsRight(s: State, max: int)
  {
    && (forall i :: 0 <= i < |s.loops| ==> EndRight(s.loops[i], max))
    && (s.active.Some? ==> Open(s.loops, s.active.value.id))
    && (s.place.Parked? ==> Open(s.loops, s.place.link.id))
  }

  // An action that leaves the loops alone and puts no cursor or pause on another loop.
  lemma StillEndsRight(s: State, max: int, t: State)
    requires EndsRight(s, max) && t.loops == s.loops && (t.active.Some? ==> t.active == s.active)
    requires t.place.Parked? ==> Open(s.loops, t.place.link.id)
    ensures EndsRight(t, max)
  {
  }

  lemma LeavingEndsRight(s: State, max: int, act: Action)
    requires Good(s, max) && EndsRight(s, max)
    requires act.IterationThrows? || act.IterationSuspends? || act.Park? || act.PauseElsewhere?
    ensures EndsRight(Next(s, max, act), max)
  {
    StillEndsRight(s, max, Next(s, max, act));
  }

  lemma RebuiltEndsRight(loops: seq<Loop>, max: int, restored: Option<Value>)
    requires forall i :: 0 <= i < |loops| ==> EndRight(loops[i], max)
    ensures EndsRight(Rebuilt(loops, restored), max)
  {
  }

  lemma ClosingEndsRight(s: State, max: int, act: Action)
    requires Good(s, max) && EndsRight(s, max)
    requires act.HostLost? || act.StoredFailed? || act.Finalize? || act.Reset?
    ensures EndsRight(Next(s, max, act), max)
  {
  }

  lemma CallEndsRight(s: State, max: int, act: Action)
    requires Good(s, max) && EndsRight(s, max) && (act.Iterate? || act.Finish? || act.Start?)
    ensures EndsRight(Next(s, max, act), max)
  {
  }

  lemma WrittenEndsRight(s: State, max: int, act: Action)
    requires Good(s, max) && EndsRight(s, max) && (act.IterationEnds? || act.WorkerEnds?)
    ensures EndsRight(Next(s, max, act), max)
  {
    if act.WorkerEnds? && s.place.Parked? {
      var link, last := s.place.link, OrElse(act.replaced, act.output);
      RebuiltEndsRight(Written(s.loops, link.id, Row(link.iteration, link.input, act.output), last), max, Some(last));
    }
  }

  lemma NextEndsRight(s: State, max: int, act: Action)
    requires Good(s, max) && EndsRight(s, max)
    ensures EndsRight(Next(s, max, act), max)
  {
    if act.Rebuild? {
      if s.place.Away? { RebuiltEndsRight(s.loops, max, None); }
    } else if act.IterationEnds? || act.WorkerEnds? {
      WrittenEndsRight(s, max, act);
    } else if act.Iterate? || act.Finish? || act.Start? {
      CallEndsRight(s, max, act);
    } else if act.HostLost? || act.StoredFailed? || act.Finalize? || act.Reset? {
      ClosingEndsRight(s, max, act);
    } else {
      LeavingEndsRight(s, max, act);
    }
  }

  /**
    Over any calm run: a loop that ended at the cap has had all its iterations and keeps their
    last output as its result, a completed one has a result, a running or failed one has none.
  */
  lemma {:induction false} LoopsEndRight(max: int, actions: seq<Action>)
    requires CalmFrom(EMPTY, max, actions)
    ensures EndsRight(Run(max, actions), max) && Good(Run(max, actions), max)
    decreases |actions|
  {
    if actions != [] {
      var n := |actions| - 1;
      forall i | 0 <= i < n ensures Calm(RunFrom(EMPTY, max, actions[..n][..i]), actions[..n][i]) {
        assert actions[..n][..i] == actions[..i];
      }
      LoopsEndRight(max, actions[..n]);
      NextEndsRight(Run(max, actions[..n]), max, actions[n]);
    }
    NumberedAlways(max, actions);
  }
}
