/**
  createAgUiTransformer: crumbs in, AG-UI events out. An assistant message opens on the
  first text delta of a run and closes at the run's next tool call, end, error or pause.
*/
module AgUiFraming {
  import opened Wrappers
  import opened StepIds

  // The text of a message id is `${runId}#${number}`.
  datatype MessageId = MessageId(run: string, number: nat) {
    function Text(): string { run + "#" + Digits(number) }
  }

  // `Other` are the crumbs that open and close nothing; `note` is what is made of them.
  datatype Crumb =
    | RunStart(run: string)
    | RunEnd(run: string, isFile: bool)
    | AgentError(failed: Option<string>)
    | TextDelta(run: string, delta: string)
    | ToolInputStart(run: string, call: string)
    | ToolInputDelta(call: string, delta: string)
    | ToolInputEnd(call: string)
    | ToolCall(run: string, call: string, args: string)
    | ToolResult(run: string, call: string, content: string)
    | HumanRequired(run: string)
    | Other(notes: seq<string>)

  datatype Event =
    | RunStarted(run: string)
    | RunFinished(run: string)
    | RunError
    | MessageStart(id: MessageId)
    | MessageContent(id: MessageId, delta: string)
    | MessageEnd(id: MessageId)
    | CallStart(call: string, parent: Option<MessageId>)
    | CallArgs(call: string, delta: string)
    | CallEnd(call: string)
    | CallResult(id: MessageId, call: string, content: string)
    | FileGenerated
    | Note(note: string)

  datatype State = State(open: map<string, MessageId>, streaming: set<string>, number: nat)

  const INIT := State(map[], {}, 0)

  // ---------------------------------------------------------------- one crumb

  function ParentOf(s: State, run: string): Option<MessageId>
  {
    if run in s.open then Some(s.open[run]) else None
  }

  function Ending(s: State, run: string): seq<Event>
  {
    if run in s.open then [MessageEnd(s.open[run])] else []
  }

  function Shut(s: State, run: string): State { s.(open := s.open - {run}) }

  function Notes(notes: seq<string>): (out: seq<Event>)
    ensures |out| == |notes| && forall i :: 0 <= i < |out| ==> out[i] == Note(notes[i])
  {
    seq(|notes|, i requires 0 <= i < |notes| => Note(notes[i]))
  }

  function Step(s: State, c: Crumb): (State, seq<Event>)
  {
    match c
    case RunStart(run) => (s, [RunStarted(run)])
    case RunEnd(run, isFile) =>
      (Shut(s, run), Ending(s, run) + (if isFile then [FileGenerated] else []) + [RunFinished(run)])
    case AgentError(failed) =>
      // An absent and an empty run id both leave every message open.
      if failed.Some? && failed.value != "" then
        (Shut(s, failed.value), Ending(s, failed.value) + [RunError])
      else
        (s, [RunError])
    case TextDelta(run, delta) =>
      if run in s.open then
        (s, [MessageContent(s.open[run], delta)])
      else
        var id := MessageId(run, s.number + 1);
        (s.(open := s.open[run := id], number := s.number + 1), [MessageStart(id), MessageContent(id, delta)])
    case ToolInputStart(run, call) =>
      (Shut(s, run).(streaming := s.streaming + {call}), Ending(s, run) + [CallStart(call, ParentOf(s, run))])
    case ToolInputDelta(call, delta) => (s, [CallArgs(call, delta)])
    case ToolInputEnd(call) => (s, [CallEnd(call)])
    case ToolCall(run, call, args) =>
      if call in s.streaming then
        (s.(streaming := s.streaming - {call}), [])
      else
        (Shut(s, run), Ending(s, run) + [CallStart(call, ParentOf(s, run)), CallArgs(call, args), CallEnd(call)])
    case ToolResult(run, call, content) =>
      (s.(number := s.number + 1), [CallResult(MessageId(run, s.number + 1), call, content)])
    case HumanRequired(run) => (Shut(s, run), Ending(s, run))
    case Other(notes) => (s, Notes(notes))
  }

  function After(crumbs: seq<Crumb>): State
  {
    if crumbs == [] then INIT
    else Step(After(crumbs[..|crumbs| - 1]), crumbs[|crumbs| - 1]).0
  }

  function Output(crumbs: seq<Crumb>): seq<Event>
  {
    if crumbs == [] then []
    else Output(crumbs[..|crumbs| - 1]) + Step(After(crumbs[..|crumbs| - 1]), crumbs[|crumbs| - 1]).1
  }

  // ---------------------------------------------------------------- framing

  function Mentions(e: Event): Option<MessageId>
  {
    match e
    case MessageStart(id) => Some(id)
    case MessageContent(id, _) => Some(id)
    case MessageEnd(id) => Some(id)
    case CallResult(id, _, _) => Some(id)
    case _ => None
  }

  predicate Introduces(e: Event) { e.MessageStart? || e.CallResult? }

  // An id is brought in once and by the first event that names it, CONTENT and END follow
  // that message's START, and nothing follows its END.
  ghost predicate Framed(out: seq<Event>)
  {
    && (forall i, j :: 0 <= i < j < |out| && Mentions(out[i]).Some? && Mentions(out[i]) == Mentions(out[j]) ==>
          !Introduces(out[j]) && !out[i].MessageEnd?)
    && (forall j :: 0 <= j < |out| && (out[j].MessageContent? || out[j].MessageEnd?) ==>
          MessageStart(out[j].id) in out[..j])
  }

  ghost predicate OpenIn(out: seq<Event>, id: MessageId)
  {
    MessageStart(id) in out && MessageEnd(id) !in out
  }

  // The map of open messages is right about what the client has seen.
  ghost predicate Tracks(open: map<string, MessageId>, number: nat, out: seq<Event>)
  {
    && Framed(out)
    && (forall e :: e in out && Mentions(e).Some? ==> Mentions(e).value.number <= number)
    && (forall id :: OpenIn(out, id) <==> id.run in open && open[id.run] == id)
    && (forall run :: run in open ==> open[run].run == run)
  }

  lemma PushOther(open: map<string, MessageId>, number: nat, out: seq<Event>, e: Event)
    requires Tracks(open, number, out) && Mentions(e).None?
    ensures Tracks(open, number, out + [e])
  {
    FramedPush(out, e);
    forall id ensures OpenIn(out + [e], id) <==> OpenIn(out, id) {}
  }

  // What a further event must satisfy.
  lemma FramedPush(out: seq<Event>, e: Event)
    requires Framed(out)
    requires forall f :: f in out && Mentions(e).Some? && Mentions(f) == Mentions(e) ==>
      !Introduces(e) && !f.MessageEnd?
    requires e.MessageContent? || e.MessageEnd? ==> MessageStart(e.id) in out
    ensures Framed(out + [e])
  {
    var next := out + [e];
    forall j | 0 <= j < |next| && (next[j].MessageContent? || next[j].MessageEnd?)
      ensures MessageStart(next[j].id) in next[..j]
    {
      if j == |out| { assert next[..j] == out; } else { assert next[..j] == out[..j]; }
    }
    forall i, j | 0 <= i < j < |next| && Mentions(next[i]).Some? && Mentions(next[i]) == Mentions(next[j])
      ensures !Introduces(next[j]) && !next[i].MessageEnd?
    {
      if j == |out| { assert out[i] in out; }
    }
  }

  lemma PushStart(open: map<string, MessageId>, number: nat, out: seq<Event>, run: string)
    requires Tracks(open, number, out) && run !in open
    ensures var id := MessageId(run, number + 1);
      Tracks(open[run := id], number + 1, out + [MessageStart(id)])
  {
    var id := MessageId(run, number + 1);
    var next := out + [MessageStart(id)];
    FramedPush(out, MessageStart(id));
    forall m ensures OpenIn(next, m) <==> OpenIn(out, m) || m == id {
      assert MessageEnd(id) !in out;
    }
  }

  lemma PushContent(open: map<string, MessageId>, number: nat, out: seq<Event>, run: string, delta: string)
    requires Tracks(open, number, out) && run in open
    ensures Tracks(open, number, out + [MessageContent(open[run], delta)])
  {
    var e := MessageContent(open[run], delta);
    assert OpenIn(out, open[run]);
    FramedPush(out, e);
    forall m ensures OpenIn(out + [e], m) <==> OpenIn(out, m) {}
  }

  lemma PushEnding(s: State, out: seq<Event>, run: string)
    requires Tracks(s.open, s.number, out)
    ensures Tracks(Shut(s, run).open, s.number, out + Ending(s, run))
  {
    if run in s.open {
      var e := MessageEnd(s.open[run]);
      assert OpenIn(out, s.open[run]);
      FramedPush(out, e);
      forall m ensures OpenIn(out + [e], m) <==> OpenIn(out, m) && m != s.open[run] {}
    } else {
      assert out + Ending(s, run) == out;
      assert s.open - {run} == s.open;
    }
  }

  lemma PushResult(open: map<string, MessageId>, number: nat, out: seq<Event>, e: Event)
    requires Tracks(open, number, out) && e.CallResult? && e.id.number == number + 1
    ensures Tracks(open, number + 1, out + [e])
  {
    FramedPush(out, e);
    forall m ensures OpenIn(out + [e], m) <==> OpenIn(out, m) {}
  }

  lemma {:induction false} PushAll(open: map<string, MessageId>, number: nat, out: seq<Event>, more: seq<Event>)
    requires Tracks(open, number, out) && forall e :: e in more ==> Mentions(e).None?
    ensures Tracks(open, number, out + more)
    decreases |more|
  {
    if more == [] {
      assert out + more == out;
    } else {
      PushOther(open, number, out, more[0]);
      PushAll(open, number, out + [more[0]], more[1..]);
      assert out + [more[0]] + more[1..] == out + more;
    }
  }

  lemma Regroup<T>(a: seq<T>, b: seq<T>, c: seq<T>)
    ensures a + b + c == a + (b + c)
  {
  }

  // A closing crumb: the run's message ends, then events that name none.
  lemma Closing(s: State, out: seq<Event>, run: string, more: seq<Event>)
    requires Tracks(s.open, s.number, out) && forall e :: e in more ==> Mentions(e).None?
    ensures Tracks(Shut(s, run).open, s.number, out + (Ending(s, run) + more))
  {
    PushEnding(s, out, run);
    PushAll(Shut(s, run).open, s.number, out + Ending(s, run), more);
    Regroup(out, Ending(s, run), more);
  }

  lemma FirstTextTracks(s: State, out: seq<Event>, run: string, delta: string)
    requires Tracks(s.open, s.number, out) && run !in s.open
    ensures var id := MessageId(run, s.number + 1);
      Tracks(s.open[run := id], s.number + 1, out + ([MessageStart(id)] + [MessageContent(id, delta)]))
  {
    var id := MessageId(run, s.number + 1);
    PushStart(s.open, s.number, out, run);
    PushContent(s.open[run := id], s.number + 1, out + [MessageStart(id)], run, delta);
    Regroup(out, [MessageStart(id)], [MessageContent(id, delta)]);
  }

  lemma TextTracks(s: State, out: seq<Event>, run: string, delta: string)
    requires Tracks(s.open, s.number, out)
    ensures var (t, more) := Step(s, TextDelta(run, delta)); Tracks(t.open, t.number, out + more)
  {
    if run in s.open {
      PushContent(s.open, s.number, out, run, delta);
    } else {
      var id := MessageId(run, s.number + 1);
      FirstTextTracks(s, out, run, delta);
      assert [MessageStart(id)] + [MessageContent(id, delta)] == Step(s, TextDelta(run, delta)).1;
    }
  }

  lemma RunEndTracks(s: State, out: seq<Event>, run: string, isFile: bool)
    requires Tracks(s.open, s.number, out)
    ensures var (t, more) := Step(s, RunEnd(run, isFile)); Tracks(t.open, t.number, out + more)
  {
    var file := if isFile then [FileGenerated] else [];
    Closing(s, out, run, file + [RunFinished(run)]);
    Regroup(Ending(s, run), file, [RunFinished(run)]);
  }

  lemma ToolCallTracks(s: State, out: seq<Event>, run: string, call: string, args: string)
    requires Tracks(s.open, s.number, out)
    ensures var (t, more) := Step(s, ToolCall(run, call, args)); Tracks(t.open, t.number, out + more)
  {
    if call in s.streaming {
      assert out + [] == out;
    } else {
      Closing(s, out, run, [CallStart(call, ParentOf(s, run)), CallArgs(call, args), CallEnd(call)]);
    }
  }

  lemma StepTracks(s: State, out: seq<Event>, c: Crumb)
    requires Tracks(s.open, s.number, out)
    ensures var (t, more) := Step(s, c); Tracks(t.open, t.number, out + more)
  {
    match c
    case RunEnd(run, isFile) => RunEndTracks(s, out, run, isFile);
    case AgentError(failed) =>
      if failed.Some? && failed.value != "" { Closing(s, out, failed.value, [RunError]); }
      else { PushOther(s.open, s.number, out, RunError); }
    case TextDelta(run, delta) => TextTracks(s, out, run, delta);
    case ToolInputStart(run, call) => Closing(s, out, run, [CallStart(call, ParentOf(s, run))]);
    case ToolCall(run, call, args) => ToolCallTracks(s, out, run, call, args);
    case ToolResult(run, call, content) => PushResult(s.open, s.number, out, Step(s, c).1[0]);
    case HumanRequired(run) => PushEnding(s, out, run);
    case RunStart(_) => PushOther(s.open, s.number, out, Step(s, c).1[0]);
    case ToolInputDelta(_, _) => PushOther(s.open, s.number, out, Step(s, c).1[0]);
    case ToolInputEnd(_) => PushOther(s.open, s.number, out, Step(s, c).1[0]);
    case Other(notes) => PushAll(s.open, s.number, out, Notes(notes));
  }

  // Every message of any stream is one START, its CONTENTs, at most one END, and nothing
  // more; and the messages left open are the ones the transformer remembers.
  lemma {:induction false} EveryMessageFramed(crumbs: seq<Crumb>)
    ensures Framed(Output(crumbs))
    ensures Tracks(After(crumbs).open, After(crumbs).number, Output(crumbs))
    decreases |crumbs|
  {
    if crumbs == [] {
    } else {
      var front := crumbs[..|crumbs| - 1];
      EveryMessageFramed(front);
      StepTracks(After(front), Output(front), crumbs[|crumbs| - 1]);
    }
  }

  lemma OneOpenPerRun(crumbs: seq<Crumb>, a: MessageId, b: MessageId)
    requires OpenIn(Output(crumbs), a) && OpenIn(Output(crumbs), b) && a.run == b.run
    ensures a == b
  {
    EveryMessageFramed(crumbs);
  }

  // The crumbs at which a run's message must not stay open.
  predicate Closes(c: Crumb, run: string)
  {
    match c
    case RunEnd(r, _) => r == run
    case HumanRequired(r) => r == run
    case ToolInputStart(r, _) => r == run
    case AgentError(failed) => failed == Some(run)
    case _ => false
  }

  ghost predicate SomeOpen(out: seq<Event>, run: string)
  {
    exists id: MessageId :: id.run == run && OpenIn(out, id)
  }

  // After such a crumb none is open, with one exception: an error whose run id is the
  // empty string leaves that run's message as it was.
  lemma ClosedAfterwards(crumbs: seq<Crumb>, c: Crumb, run: string)
    requires Closes(c, run)
    ensures SomeOpen(Output(crumbs + [c]), run) <==> c.AgentError? && run == "" && SomeOpen(Output(crumbs), run)
  {
    var all := crumbs + [c];
    assert all[..|all| - 1] == crumbs;
    EveryMessageFramed(crumbs);
    EveryMessageFramed(all);
    var s := After(crumbs);
    assert After(all) == Step(s, c).0;
    assert SomeOpen(Output(crumbs), run) <==> run in s.open by {
      if run in s.open { assert OpenIn(Output(crumbs), s.open[run]); }
    }
    assert SomeOpen(Output(all), run) <==> run in After(all).open by {
      if run in After(all).open { assert OpenIn(Output(all), After(all).open[run]); }
    }
  }

  // For example, a delta of the run whose id is empty and then its error.
  lemma EmptyRunIdStaysOpen()
    ensures SomeOpen(Output([TextDelta("", "x"), AgentError(Some(""))]), "")
  {
    var one, two := [TextDelta("", "x")], [TextDelta("", "x"), AgentError(Some(""))];
    assert one[..0] == [] && two == one + [AgentError(Some(""))];
    assert After([]) == INIT && Output([]) == [];
    var id := MessageId("", 1);
    assert Output(one) == [] + [MessageStart(id), MessageContent(id, "x")];
    assert MessageStart(id) in Output(one);
    assert OpenIn(Output(one), id);
    ClosedAfterwards(one, AgentError(Some("")), "");
  }

  // When a run is reported finished, its message has already been ended.
  ghost predicate EndedFirst(out: seq<Event>)
  {
    forall j :: 0 <= j < |out| && out[j].RunFinished? ==> !SomeOpen(out[..j], out[j].run)
  }

  lemma {:induction false} MessagesEndFirst(crumbs: seq<Crumb>)
    ensures EndedFirst(Output(crumbs))
    decreases |crumbs|
  {
    if crumbs == [] {
    } else {
      var front, c := crumbs[..|crumbs| - 1], crumbs[|crumbs| - 1];
      MessagesEndFirst(front);
      EveryMessageFramed(front);
      var out: seq<Event>, more: seq<Event> := Output(front), Step(After(front), c).1;
      var all := out + more;
      forall j | 0 <= j < |all| && all[j].RunFinished? ensures !SomeOpen(all[..j], all[j].run) {
        if j < |out| {
          assert all[..j] == out[..j];
        } else {
          FinishLast(After(front), c, j - |out|);
          ShutFirst(After(front), out, c);
          assert all[..j] == out + more[..j - |out|];
        }
      }
    }
  }

  // Only a run's end reports it finished, as its last event.
  lemma FinishLast(s: State, c: Crumb, k: nat)
    requires k < |Step(s, c).1| && Step(s, c).1[k].RunFinished?
    ensures c.RunEnd? && k == |Step(s, c).1| - 1 && Step(s, c).1[k].run == c.run
  {
  }

  lemma ShutFirst(s: State, out: seq<Event>, c: Crumb)
    requires Tracks(s.open, s.number, out) && c.RunEnd?
    ensures var more := Step(s, c).1; !SomeOpen(out + more[..|more| - 1], c.run)
  {
    var file := if c.isFile then [FileGenerated] else [];
    var more := Step(s, c).1;
    Closing(s, out, c.run, file);
    assert more[..|more| - 1] == Ending(s, c.run) + file;
    assert c.run !in Shut(s, c.run).open;
  }

  // ---------------------------------------------------------------- text

  function Deltas(crumbs: seq<Crumb>, run: string): seq<string>
  {
    if crumbs == [] then []
    else
      Deltas(crumbs[..|crumbs| - 1], run) + DeltaOf(crumbs[|crumbs| - 1], run)
  }

  function Contents(out: seq<Event>, run: string): seq<string>
  {
    if out == [] then []
    else
      var e := out[|out| - 1];
      Contents(out[..|out| - 1], run) + if e.MessageContent? && e.id.run == run then [e.delta] else []
  }

  lemma {:induction false} ContentsSplit(a: seq<Event>, b: seq<Event>, run: string)
    ensures Contents(a + b, run) == Contents(a, run) + Contents(b, run)
    decreases |b|
  {
    if b == [] {
      assert a + b == a;
    } else {
      ContentsSplit(a, b[..|b| - 1], run);
      assert (a + b)[..|a + b| - 1] == a + b[..|b| - 1];
    }
  }

  lemma {:induction false} NoContents(out: seq<Event>, run: string)
    requires forall e :: e in out ==> !e.MessageContent?
    ensures Contents(out, run) == []
    decreases |out|
  {
    if out != [] { NoContents(out[..|out| - 1], run); }
  }

  function DeltaOf(c: Crumb, run: string): seq<string>
  {
    if c.TextDelta? && c.run == run then [c.delta] else []
  }

  lemma StepContents(s: State, c: Crumb, run: string)
    requires forall r :: r in s.open ==> s.open[r].run == r
    ensures Contents(Step(s, c).1, run) == DeltaOf(c, run)
  {
    var more := Step(s, c).1;
    if c.TextDelta? {
      var n := |more| - 1;
      assert more[n].MessageContent? && more[n].id.run == c.run && more[n].delta == c.delta;
      NoContents(more[..n], run);
    } else {
      NoContents(more, run);
    }
  }

  // What the client reads in a run's messages is the text the run streamed, delta by delta.
  lemma {:induction false} TextKept(crumbs: seq<Crumb>, run: string)
    ensures Contents(Output(crumbs), run) == Deltas(crumbs, run)
    decreases |crumbs|
  {
    if crumbs == [] {
    } else {
      var front, c := crumbs[..|crumbs| - 1], crumbs[|crumbs| - 1];
      TextKept(front, run);
      OpenRuns(front);
      StepContents(After(front), c, run);
      ContentsSplit(Output(front), Step(After(front), c).1, run);
    }
  }

  lemma OpenRuns(crumbs: seq<Crumb>)
    ensures forall r :: r in After(crumbs).open ==> After(crumbs).open[r].run == r
  {
    EveryMessageFramed(crumbs);
  }

  // ---------------------------------------------------------------- tool calls

  datatype CallPart = Begin | Piece(text: string) | Finish | Whole(args: string)

  function PartOf(c: Crumb, call: string): seq<CallPart>
  {
    match c
    case ToolInputStart(_, k) => if k == call then [Begin] else []
    case ToolInputDelta(k, delta) => if k == call then [Piece(delta)] else []
    case ToolInputEnd(k) => if k == call then [Finish] else []
    case ToolCall(_, k, args) => if k == call then [Whole(args)] else []
    case _ => []
  }

  function Parts(crumbs: seq<Crumb>, call: string): seq<CallPart>
  {
    if crumbs == [] then []
    else Parts(crumbs[..|crumbs| - 1], call) + PartOf(crumbs[|crumbs| - 1], call)
  }

  function ShownAs(e: Event, call: string): seq<CallPart>
  {
    match e
    case CallStart(k, _) => if k == call then [Begin] else []
    case CallArgs(k, delta) => if k == call then [Piece(delta)] else []
    case CallEnd(k) => if k == call then [Finish] else []
    case _ => []
  }

  // The events of one call, without the message they hang under.
  function Shown(out: seq<Event>, call: string): seq<CallPart>
  {
    if out == [] then []
    else Shown(out[..|out| - 1], call) + ShownAs(out[|out| - 1], call)
  }

  // Whether the parts end inside a streamed call: begun, and its whole not seen since.
  function Begun(parts: seq<CallPart>): bool
  {
    if parts == [] then false
    else
      match parts[|parts| - 1]
      case Begin => true
      case Whole(_) => false
      case _ => Begun(parts[..|parts| - 1])
  }

  // A call alone: what was streamed is shown as it came, and the whole is shown, framed,
  // only when nothing was streamed.
  function Translated(parts: seq<CallPart>): seq<CallPart>
  {
    if parts == [] then []
    else
      var front, p := parts[..|parts| - 1], parts[|parts| - 1];
      Translated(front) +
      match p
      case Whole(args) => if Begun(front) then [] else [Begin, Piece(args), Finish]
      case _ => [p]
  }

  lemma ShownPush(out: seq<Event>, e: Event, call: string)
    ensures Shown(out + [e], call) == Shown(out, call) + ShownAs(e, call)
  {
    assert (out + [e])[..|out|] == out;
  }

  lemma {:induction false} ShownSplit(a: seq<Event>, b: seq<Event>, call: string)
    ensures Shown(a + b, call) == Shown(a, call) + Shown(b, call)
    decreases |b|
  {
    if b == [] {
      assert a + b == a;
    } else {
      var front, e := b[..|b| - 1], b[|b| - 1];
      ShownSplit(a, front, call);
      ShownPush(a + front, e, call);
      Regroup(a, front, [e]);
      assert front + [e] == b;
      Regroup(Shown(a, call), Shown(front, call), ShownAs(e, call));
    }
  }

  lemma {:induction false} NothingShown(out: seq<Event>, call: string)
    requires forall e :: e in out ==> !e.CallStart? && !e.CallArgs? && !e.CallEnd?
    ensures Shown(out, call) == []
    decreases |out|
  {
    if out != [] { NothingShown(out[..|out| - 1], call); }
  }

  lemma ShownOne(e: Event, call: string)
    ensures Shown([e], call) == ShownAs(e, call)
  {
    assert Shown([e][..0], call) == [];
  }

  function ShownFor(s: State, c: Crumb, call: string): seq<CallPart>
  {
    match c
    case ToolCall(_, k, args) => if k == call && call !in s.streaming then [Begin, Piece(args), Finish] else []
    case _ => PartOf(c, call)
  }

  lemma ShownAfterEnding(s: State, run: string, more: seq<Event>, call: string)
    ensures Shown(Ending(s, run) + more, call) == Shown(more, call)
  {
    ShownSplit(Ending(s, run), more, call);
    NothingShown(Ending(s, run), call);
  }

  lemma ShownThree(a: Event, b: Event, e: Event, call: string)
    ensures Shown([a, b, e], call) == ShownAs(a, call) + ShownAs(b, call) + ShownAs(e, call)
  {
    assert [a, b, e] == [a, b] + [e] && [a, b] == [a] + [b];
    ShownSplit([a, b], [e], call);
    ShownSplit([a], [b], call);
    ShownOne(a, call);
    ShownOne(b, call);
    ShownOne(e, call);
  }

  lemma StepShows(s: State, c: Crumb, call: string)
    ensures Shown(Step(s, c).1, call) == ShownFor(s, c, call)
  {
    match c
    case ToolInputStart(run, k) => InputStartShows(s, run, k, call);
    case ToolInputDelta(k, delta) => ShownOne(CallArgs(k, delta), call);
    case ToolInputEnd(k) => ShownOne(CallEnd(k), call);
    case ToolCall(run, k, args) => CallShows(s, run, k, args, call);
    case _ => QuietShows(s, c, call);
  }

  lemma InputStartShows(s: State, run: string, k: string, call: string)
    ensures Shown(Step(s, ToolInputStart(run, k)).1, call) == ShownFor(s, ToolInputStart(run, k), call)
  {
    ShownAfterEnding(s, run, [CallStart(k, ParentOf(s, run))], call);
    ShownOne(CallStart(k, ParentOf(s, run)), call);
  }

  predicate Quiet(c: Crumb) { !c.ToolInputStart? && !c.ToolInputDelta? && !c.ToolInputEnd? && !c.ToolCall? }

  lemma QuietStep(s: State, c: Crumb)
    requires Quiet(c)
    ensures forall e :: e in Step(s, c).1 ==> !e.CallStart? && !e.CallArgs? && !e.CallEnd?
  {
  }

  lemma QuietShows(s: State, c: Crumb, call: string)
    requires Quiet(c)
    ensures Shown(Step(s, c).1, call) == ShownFor(s, c, call)
  {
    QuietStep(s, c);
    NothingShown(Step(s, c).1, call);
  }

  lemma CallShows(s: State, run: string, k: string, args: string, call: string)
    ensures Shown(Step(s, ToolCall(run, k, args)).1, call) == ShownFor(s, ToolCall(run, k, args), call)
  {
    if k !in s.streaming {
      var a, b, e := CallStart(k, ParentOf(s, run)), CallArgs(k, args), CallEnd(k);
      ShownAfterEnding(s, run, [a, b, e], call);
      ShownThree(a, b, e, call);
    }
  }

  lemma PushPart(parts: seq<CallPart>, p: CallPart)
    ensures Translated(parts + [p]) == Translated(parts) +
      (if p.Whole? then if Begun(parts) then [] else [Begin, Piece(p.args), Finish] else [p])
    ensures Begun(parts + [p]) == (p.Begin? || (!p.Whole? && Begun(parts)))
  {
    assert (parts + [p])[..|parts + [p]| - 1] == parts;
  }

  lemma NoPart(s: State, c: Crumb, call: string)
    requires PartOf(c, call) == []
    ensures ShownFor(s, c, call) == []
    ensures call in Step(s, c).0.streaming <==> call in s.streaming
  {
  }

  lemma OnePart(s: State, c: Crumb, call: string)
    requires PartOf(c, call) != []
    ensures var p := PartOf(c, call);
      |p| == 1
      && ShownFor(s, c, call)
         == (if p[0].Whole? then if call in s.streaming then [] else [Begin, Piece(p[0].args), Finish] else p)
      && (call in Step(s, c).0.streaming <==> p[0].Begin? || (!p[0].Whole? && call in s.streaming))
  {
  }

  lemma AddPart(parts: seq<CallPart>, s: State, c: Crumb, call: string)
    requires call in s.streaming <==> Begun(parts)
    ensures Translated(parts + PartOf(c, call)) == Translated(parts) + ShownFor(s, c, call)
    ensures call in Step(s, c).0.streaming <==> Begun(parts + PartOf(c, call))
  {
    var p := PartOf(c, call);
    if p == [] {
      assert parts + p == parts && Translated(parts) + [] == Translated(parts);
      NoPart(s, c, call);
    } else {
      OnePart(s, c, call);
      PushPart(parts, p[0]);
      assert p == [p[0]];
    }
  }

  // Each call is translated by itself, whatever other runs and calls are woven through it.
  lemma {:induction false} CallAlone(crumbs: seq<Crumb>, call: string)
    ensures Shown(Output(crumbs), call) == Translated(Parts(crumbs, call))
    ensures call in After(crumbs).streaming <==> Begun(Parts(crumbs, call))
    decreases |crumbs|
  {
    if crumbs == [] {
    } else {
      var front, c := crumbs[..|crumbs| - 1], crumbs[|crumbs| - 1];
      CallAlone(front, call);
      StepShows(After(front), c, call);
      ShownSplit(Output(front), Step(After(front), c).1, call);
      AddPart(Parts(front, call), After(front), c, call);
    }
  }

  predicate Pieces(parts: seq<CallPart>) { forall p :: p in parts ==> p.Piece? }

  lemma {:induction false} PiecesAfterBegin(pieces: seq<CallPart>)
    requires Pieces(pieces)
    ensures Translated([Begin] + pieces) == [Begin] + pieces && Begun([Begin] + pieces)
    decreases |pieces|
  {
    if pieces == [] {
      PushPart([], Begin);
      assert [] + [Begin] == [Begin] + pieces == [Begin];
    } else {
      var front, p := pieces[..|pieces| - 1], pieces[|pieces| - 1];
      assert p in pieces && front + [p] == pieces;
      PiecesAfterBegin(front);
      PushPart([Begin] + front, p);
      Regroup([Begin], front, [p]);
    }
  }

  lemma StreamedWhole(pieces: seq<CallPart>, args: string)
    requires Pieces(pieces)
    ensures Translated([Begin] + pieces + [Finish] + [Whole(args)]) == [Begin] + pieces + [Finish]
  {
    var a := [Begin] + pieces;
    PiecesAfterBegin(pieces);
    PushPart(a, Finish);
    PushPart(a + [Finish], Whole(args));
    assert a + [Finish] + [] == a + [Finish];
  }

  // A call that is streamed and then sent whole, or only sent whole, is shown once: one
  // start, its arguments, one end.
  lemma CallFramedOnce(crumbs: seq<Crumb>, call: string, pieces: seq<CallPart>, args: string)
    requires Pieces(pieces)
    ensures Parts(crumbs, call) == [Begin] + pieces + [Finish] + [Whole(args)] ==>
      Shown(Output(crumbs), call) == [Begin] + pieces + [Finish]
    ensures Parts(crumbs, call) == [Whole(args)] ==> Shown(Output(crumbs), call) == [Begin, Piece(args), Finish]
  {
    CallAlone(crumbs, call);
    if Parts(crumbs, call) == [Begin] + pieces + [Finish] + [Whole(args)] { StreamedWhole(pieces, args); }
    if Parts(crumbs, call) == [Whole(args)] {
      PushPart([], Whole(args));
      assert [] + [Whole(args)] == [Whole(args)];
    }
  }

  // A call hangs under the message that its own start has just ended.
  ghost predicate ParentsEnded(out: seq<Event>)
  {
    forall j :: 0 <= j < |out| && out[j].CallStart? && out[j].parent.Some? ==>
      j > 0 && out[j - 1] == MessageEnd(out[j].parent.value)
  }

  lemma {:induction false} CallsHangUnderTheLast(crumbs: seq<Crumb>)
    ensures ParentsEnded(Output(crumbs))
    decreases |crumbs|
  {
    if crumbs == [] {
    } else {
      var front, c := crumbs[..|crumbs| - 1], crumbs[|crumbs| - 1];
      CallsHangUnderTheLast(front);
      StepParents(After(front), c);
    }
  }

  lemma StepParents(s: State, c: Crumb)
    ensures ParentsEnded(Step(s, c).1)
  {
  }

  // ---------------------------------------------------------------- ids as text

  lemma LastHash(a: MessageId)
    ensures var x := a.Text();
      |x| > |a.run| && x[|a.run|] == '#' && forall k :: |a.run| < k < |x| ==> x[k] in "0123456789"
  {
    var x, s := a.Text(), Digits(a.number);
    forall k | |a.run| < k < |x| ensures x[k] in "0123456789" {
      assert x[k] == s[k - |a.run| - 1];
    }
  }

  lemma IdTextInjective(a: MessageId, b: MessageId)
    requires a.Text() == b.Text()
    ensures a == b
  {
    var x := a.Text();
    LastHash(a);
    LastHash(b);
    assert |a.run| == |b.run|;
    assert a.run == x[..|a.run|] && b.run == x[..|b.run|];
    assert Digits(a.number) == x[|a.run| + 1..] && Digits(b.number) == x[|b.run| + 1..];
    DigitsInjective(a.number, b.number);
  }

  // ---------------------------------------------------------------- the transformer

  class Transformer {
    var openMessages: map<string, MessageId>
    var streamingToolCalls: set<string>
    var number: nat

    ghost function Now(): State
      reads this
    {
      State(openMessages, streamingToolCalls, number)
    }

    constructor ()
      ensures Now() == INIT
    {
      openMessages, streamingToolCalls, number := map[], {}, 0;
    }

    method CloseMessage(run: string) returns (closed: Option<MessageId>, out: seq<Event>)
      modifies this
      ensures Now() == Shut(old(Now()), run)
      ensures closed == ParentOf(old(Now()), run) && out == Ending(old(Now()), run)
    {
      if run !in openMessages {
        assert openMessages - {run} == openMessages;
        return None, [];
      }
      var id := openMessages[run];
      openMessages := openMessages - {run};
      return Some(id), [MessageEnd(id)];
    }

    method Transform(c: Crumb) returns (out: seq<Event>)
      modifies this
      ensures (Now(), out) == Step(old(Now()), c)
    {
      match c
      case RunStart(run) => out := [RunStarted(run)];
      case RunEnd(run, isFile) =>
        var _, ending := CloseMessage(run);
        out := ending;
        if isFile { out := out + [FileGenerated]; }
        out := out + [RunFinished(run)];
        assert ending + [] == ending;
      case AgentError(failed) =>
        out := [];
        if failed.Some? && failed.value != "" {
          var _, ending := CloseMessage(failed.value);
          out := ending;
        }
        out := out + [RunError];
        assert [] + [RunError] == [RunError];
      case TextDelta(run, delta) =>
        out := [];
        if run !in openMessages {
          number := number + 1;
          var id := MessageId(run, number);
          openMessages := openMessages[run := id];
          out := out + [MessageStart(id)];
        }
        out := out + [MessageContent(openMessages[run], delta)];
        assert out == Step(old(Now()), c).1;
      case ToolInputStart(run, call) =>
        var parent, ending := CloseMessage(run);
        streamingToolCalls := streamingToolCalls + {call};
        out := ending + [CallStart(call, parent)];
      case ToolInputDelta(call, delta) => out := [CallArgs(call, delta)];
      case ToolInputEnd(call) => out := [CallEnd(call)];
      case ToolCall(run, call, args) =>
        if call in streamingToolCalls {
          streamingToolCalls := streamingToolCalls - {call};
          return [];
        }
        var parent, ending := CloseMessage(run);
        out := ending + [CallStart(call, parent)] + [CallArgs(call, args)] + [CallEnd(call)];
        assert out == ending + [CallStart(call, parent), CallArgs(call, args), CallEnd(call)];
      case ToolResult(run, call, content) =>
        number := number + 1;
        out := [CallResult(MessageId(run, number), call, content)];
      case HumanRequired(run) =>
        var _, ending := CloseMessage(run);
        out := ending;
      case Other(notes) => out := Notes(notes);
    }
  }
}
