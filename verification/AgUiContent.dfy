/**
  What of the crumbs reaches an AG-UI client, beyond the framing: every announcement once and
  in order, messages that end only where they must, and calls under the message they followed.
*/
module AgUiContent {
  import opened Wrappers
  import opened AgUiFraming

  // ------------------------------------------------------------- announcements

  // An event that belongs to no message and no call; a result without the number of its id.
  function Announcement(e: Event): seq<Event>
  {
    match e
    case CallResult(id, call, content) => [CallResult(MessageId(id.run, 0), call, content)]
    case MessageStart(_) => []
    case MessageContent(_, _) => []
    case MessageEnd(_) => []
    case CallStart(_, _) => []
    case CallArgs(_, _) => []
    case CallEnd(_) => []
    case _ => [e]
  }

  function Announcements(out: seq<Event>): seq<Event>
  {
    if out == [] then [] else Announcements(out[..|out| - 1]) + Announcement(out[|out| - 1])
  }

  // What a crumb announces, whatever came before it.
  function AnnouncedBy(c: Crumb): seq<Event>
  {
    match c
    case RunStart(run) => [RunStarted(run)]
    case RunEnd(run, isFile) => if isFile then [FileGenerated, RunFinished(run)] else [RunFinished(run)]
    case AgentError(_) => [RunError]
    case ToolResult(run, call, content) => [CallResult(MessageId(run, 0), call, content)]
    case Other(notes) => Notes(notes)
    case _ => []
  }

  function Announced(crumbs: seq<Crumb>): seq<Event>
  {
    if crumbs == [] then [] else Announced(crumbs[..|crumbs| - 1]) + AnnouncedBy(crumbs[|crumbs| - 1])
  }

  lemma AnnouncementsPush(out: seq<Event>, e: Event)
    ensures Announcements(out + [e]) == Announcements(out) + Announcement(e)
  {
    assert (out + [e])[..|out|] == out;
  }

  lemma OneMoreSplit(a: seq<Event>, b: seq<Event>, e: Event)
    requires Announcements(a + b) == Announcements(a) + Announcements(b)
    ensures Announcements(a + (b + [e])) == Announcements(a) + Announcements(b + [e])
  {
    AnnouncementsPush(b, e);
    AnnouncementsPush(a + b, e);
    Regroup(a, b, [e]);
    Regroup(Announcements(a), Announcements(b), Announcement(e));
  }

  lemma {:induction false} AnnouncementsSplit(a: seq<Event>, b: seq<Event>)
    ensures Announcements(a + b) == Announcements(a) + Announcements(b)
    decreases |b|
  {
    if b == [] {
      assert a + b == a && Announcements(a) + [] == Announcements(a);
    } else {
      var n := |b| - 1;
      AnnouncementsSplit(a, b[..n]);
      OneMoreSplit(a, b[..n], b[n]);
      assert b[..n] + [b[n]] == b;
    }
  }

  lemma {:induction false} AnnouncementsNone(out: seq<Event>)
    requires forall e :: e in out ==> Announcement(e) == []
    ensures Announcements(out) == []
    decreases |out|
  {
    if out != [] { AnnouncementsNone(out[..|out| - 1]); }
  }

  lemma {:induction false} AnnouncementsAll(out: seq<Event>)
    requires forall e :: e in out ==> Announcement(e) == [e]
    ensures Announcements(out) == out
    decreases |out|
  {
    if out != [] { AnnouncementsAll(out[..|out| - 1]); }
  }

  lemma EndingAnnounces(s: State, run: string, more: seq<Event>)
    ensures Announcements(Ending(s, run) + more) == Announcements(more)
  {
    AnnouncementsSplit(Ending(s, run), more);
    AnnouncementsNone(Ending(s, run));
  }

  lemma OneAnnounced(e: Event)
    ensures Announcements([e]) == Announcement(e)
  {
    assert Announcements([e][..0]) == [];
  }

  lemma RunEndAnnounces(s: State, run: string, isFile: bool)
    ensures Announcements(Step(s, RunEnd(run, isFile)).1) == AnnouncedBy(RunEnd(run, isFile))
  {
    var news := AnnouncedBy(RunEnd(run, isFile));
    AnnouncementsAll(news);
    assert Step(s, RunEnd(run, isFile)).1 == Ending(s, run) + news;
    EndingAnnounces(s, run, news);
  }

  lemma ErrorAnnounces(s: State, failed: Option<string>)
    ensures Announcements(Step(s, AgentError(failed)).1) == [RunError]
  {
    OneAnnounced(RunError);
    var more := Step(s, AgentError(failed)).1;
    if failed.Some? && failed.value != "" {
      assert more == Ending(s, failed.value) + [RunError];
      EndingAnnounces(s, failed.value, [RunError]);
    } else {
      assert more == [RunError];
    }
  }

  // Text, calls and pauses announce nothing.
  predicate Silent(c: Crumb)
  {
    c.TextDelta? || c.ToolInputStart? || c.ToolInputDelta? || c.ToolInputEnd? || c.ToolCall? || c.HumanRequired?
  }

  lemma SilentStep(s: State, c: Crumb)
    requires Silent(c)
    ensures forall e :: e in Step(s, c).1 ==> Announcement(e) == []
  {
  }

  lemma StepAnnounces(s: State, c: Crumb)
    ensures Announcements(Step(s, c).1) == AnnouncedBy(c)
  {
    if Silent(c) {
      SilentStep(s, c);
      AnnouncementsNone(Step(s, c).1);
    } else {
      match c
      case RunStart(run) => OneAnnounced(RunStarted(run));
      case RunEnd(run, isFile) => RunEndAnnounces(s, run, isFile);
      case AgentError(failed) => ErrorAnnounces(s, failed);
      case ToolResult(run, call, content) => OneAnnounced(CallResult(MessageId(run, s.number + 1), call, content));
      case Other(notes) => AnnouncementsAll(Notes(notes));
    }
  }

  /**
    The client hears of every run's start and end, error, file and tool result, and of every other
    crumb, once each and in the order of the crumbs, and of nothing else.
  */
  lemma {:induction false} AnnouncedInOrder(crumbs: seq<Crumb>)
    ensures Announcements(Output(crumbs)) == Announced(crumbs)
    decreases |crumbs|
  {
    if crumbs != [] {
      var front, c := crumbs[..|crumbs| - 1], crumbs[|crumbs| - 1];
      AnnouncedInOrder(front);
      StepAnnounces(After(front), c);
      AnnouncementsSplit(Output(front), Step(After(front), c).1);
    }
  }

  // ---------------------------------------------------------------- messages

  // The crumb starts the call: its input begins to stream, or it comes whole and unstreamed.
  predicate StartsCall(crumbs: seq<Crumb>, c: Crumb, run: string)
  {
    || (c.ToolInputStart? && c.run == run)
    || (c.ToolCall? && c.run == run && !Begun(Parts(crumbs, c.call)))
  }

  // The crumbs that end the open message of a run.
  predicate EndsMessage(crumbs: seq<Crumb>, c: Crumb, run: string)
  {
    || (c.RunEnd? && c.run == run)
    || (c.HumanRequired? && c.run == run)
    || (c.AgentError? && c.failed == Some(run) && run != "")
    || StartsCall(crumbs, c, run)
  }

  lemma OpenMeans(crumbs: seq<Crumb>)
    ensures forall id :: OpenIn(Output(crumbs), id) <==>
      id.run in After(crumbs).open && After(crumbs).open[id.run] == id
  {
    EveryMessageFramed(crumbs);
  }

  lemma AfterMore(crumbs: seq<Crumb>, c: Crumb)
    ensures After(crumbs + [c]) == Step(After(crumbs), c).0
    ensures Output(crumbs + [c]) == Output(crumbs) + Step(After(crumbs), c).1
  {
    assert (crumbs + [c])[..|crumbs|] == crumbs;
  }

  /**
    A message stays open until a crumb of its run that must end it: the run's end, pause or
    error, or the start of one of its calls.
  */
  lemma EndsOnlyWhereItMust(crumbs: seq<Crumb>, c: Crumb, id: MessageId)
    requires OpenIn(Output(crumbs), id)
    ensures OpenIn(Output(crumbs + [c]), id) <==> !EndsMessage(crumbs, c, id.run)
  {
    OpenMeans(crumbs);
    OpenMeans(crumbs + [c]);
    AfterMore(crumbs, c);
    if c.ToolCall? { CallAlone(crumbs, c.call); }
  }

  lemma StartStep(s: State, c: Crumb, run: string, parent: Option<MessageId>)
    requires (c.ToolInputStart? || (c.ToolCall? && c.call !in s.streaming)) && c.run == run
    ensures CallStart(c.call, parent) in Step(s, c).1 <==> parent == ParentOf(s, run)
  {
    assert Step(s, c).1[|Ending(s, run)|] == CallStart(c.call, ParentOf(s, run));
  }

  lemma ParentIsOpen(crumbs: seq<Crumb>, run: string, parent: Option<MessageId>)
    ensures parent == ParentOf(After(crumbs), run) <==>
      if parent.Some? then parent.value.run == run && OpenIn(Output(crumbs), parent.value)
      else !SomeOpen(Output(crumbs), run)
  {
    EveryMessageFramed(crumbs);
    var open := After(crumbs).open;
    if run in open { assert OpenIn(Output(crumbs), open[run]); }
  }

  /**
    A call is started under the message that is open in its run, or under none when none is.
  */
  lemma CallUnderOpenMessage(crumbs: seq<Crumb>, c: Crumb, run: string, parent: Option<MessageId>)
    requires StartsCall(crumbs, c, run)
    ensures CallStart(c.call, parent) in Output(crumbs + [c])[|Output(crumbs)|..] <==>
      if parent.Some? then parent.value.run == run && OpenIn(Output(crumbs), parent.value)
      else !SomeOpen(Output(crumbs), run)
  {
    AfterMore(crumbs, c);
    assert Output(crumbs + [c])[|Output(crumbs)|..] == Step(After(crumbs), c).1;
    if c.ToolCall? { CallAlone(crumbs, c.call); }
    StartStep(After(crumbs), c, run, parent);
    ParentIsOpen(crumbs, run, parent);
  }
}
