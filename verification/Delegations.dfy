/**
  A supervisor paused on several delegated sub-runs. Each sub-run that ends becomes one
  tool result; the last one lets the supervisor go on.
*/
module Delegations {
  import opened Filters

  datatype Pending = Pending(call: string, child: nat)

  // A sub-run's checkpoint links to its supervisor's and names the call it answers.
  datatype Row = Child(supervisor: nat, call: string) | Supervisor(pending: seq<Pending>)

  datatype Event = Answered(supervisor: nat, call: string, output: string) | Continued(supervisor: nat)

  // `asked` remembers which calls each supervisor paused on; `next` is the next fresh id.
  datatype State = State(rows: map<nat, Row>, next: nat, asked: map<nat, set<string>>, events: seq<Event>)

  const EMPTY := State(map[], 0, map[], [])

  // A supervisor pauses on some calls, or someone resumes a checkpoint, and that sub-run
  // pauses again or ends.
  datatype Action = Pause(calls: seq<string>) | Resume(id: nat, outcome: Outcome)
  datatype Outcome = PausesAgain | Ends(output: string)

  predicate Distinct(calls: seq<string>) { forall i, j :: 0 <= i < j < |calls| ==> calls[i] != calls[j] }

  function SetOf(calls: seq<string>): set<string> { set c | c in calls }

  function Calls(pending: seq<Pending>): (calls: seq<string>)
    ensures |calls| == |pending| && forall i :: 0 <= i < |calls| ==> calls[i] == pending[i].call
  {
    if pending == [] then [] else [pending[0].call] + Calls(pending[1..])
  }

  function Without(pending: seq<Pending>, call: string): seq<Pending>
  {
    if pending == [] then []
    else (if pending[0].call == call then [] else [pending[0]]) + Without(pending[1..], call)
  }

  // ---------------------------------------------------------------- one action

  function ContinueSupervisor(s: State, supervisor: nat, call: string, output: string): State
  {
    if supervisor !in s.rows || !s.rows[supervisor].Supervisor? then s
    else
      var told := s.(events := s.events + [Answered(supervisor, call, output)]);
      var remaining := Without(s.rows[supervisor].pending, call);
      if remaining != [] then
        told.(rows := told.rows[supervisor := Supervisor(remaining)])
      else
        told.(rows := told.rows - {supervisor}, events := told.events + [Continued(supervisor)])
  }

  function CallAt(calls: seq<string>, first: nat, id: nat): string
    requires first <= id < first + |calls|
  {
    calls[id - first]
  }

  function Children(calls: seq<string>, first: nat, supervisor: nat): (rows: map<nat, Row>)
    ensures forall id :: id in rows <==> first <= id < first + |calls|
    ensures forall id :: id in rows ==> rows[id] == Child(supervisor, CallAt(calls, first, id))
  {
    var n := |calls|;
    if n == 0 then map[]
    else Children(calls[..n - 1], first, supervisor)[first + n - 1 := Child(supervisor, calls[n - 1])]
  }

  function PendingOn(calls: seq<string>, first: nat): (pending: seq<Pending>)
    ensures |pending| == |calls| && forall i :: 0 <= i < |calls| ==> pending[i] == Pending(calls[i], first + i)
  {
    seq(|calls|, i requires 0 <= i < |calls| => Pending(calls[i], first + i))
  }

  function Paused(s: State, calls: seq<string>): State
  {
    var n := |calls|;
    var supervisor := s.next + n;
    var rows := s.rows + Children(calls, s.next, supervisor);
    s.(rows := rows[supervisor := Supervisor(PendingOn(calls, s.next))], next := supervisor + 1,
       asked := s.asked[supervisor := SetOf(calls)])
  }

  function Next(s: State, a: Action): State
  {
    match a
    case Pause(calls) => if calls == [] || !Distinct(calls) then s else Paused(s, calls)
    case Resume(id, outcome) =>
      // A missing checkpoint was resumed before; a supervisor's own waits for its children.
      if id !in s.rows || s.rows[id].Supervisor? then s
      else
        var Child(supervisor, call) := s.rows[id];
        var taken := s.(rows := s.rows - {id});
        match outcome
        case PausesAgain => taken.(rows := taken.rows[s.next := Child(supervisor, call)], next := s.next + 1)
        case Ends(output) => ContinueSupervisor(taken, supervisor, call, output)
  }

  function Run(actions: seq<Action>): State
  {
    if actions == [] then EMPTY else Next(Run(actions[..|actions| - 1]), actions[|actions| - 1])
  }

  // ---------------------------------------------------------------- bookkeeping

  function EventsOf(events: seq<Event>, supervisor: nat): seq<Event>
  {
    if events == [] then []
    else
      var e := events[|events| - 1];
      EventsOf(events[..|events| - 1], supervisor) + if e.supervisor == supervisor then [e] else []
  }

  function Waiting(s: State, supervisor: nat): seq<string>
  {
    if supervisor in s.rows && s.rows[supervisor].Supervisor? then Calls(s.rows[supervisor].pending) else []
  }

  ghost predicate Answers(events: seq<Event>, calls: seq<string>)
  {
    |events| == |calls| && forall i :: 0 <= i < |events| ==> events[i].Answered? && events[i].call == calls[i]
  }

  // What was told so far: some calls answered once each, and the supervisor continued
  // after them exactly when none is waiting.
  ghost predicate Told(events: seq<Event>, supervisor: nat, answered: seq<string>, done: bool)
  {
    && Distinct(answered)
    && if done then events != [] && events[|events| - 1] == Continued(supervisor)
                    && Answers(events[..|events| - 1], answered)
       else Answers(events, answered)
  }

  predicate ChildAt(s: State, id: nat, supervisor: nat, call: string)
  {
    id in s.rows && s.rows[id] == Child(supervisor, call)
  }

  // Exactly the waiting calls have a checkpoint that can still be resumed, one each.
  ghost predicate OneChildEach(s: State, supervisor: nat, waiting: seq<string>)
  {
    && (forall id, c :: ChildAt(s, id, supervisor, c) ==> c in waiting)
    && (forall a, b, c :: ChildAt(s, a, supervisor, c) && ChildAt(s, b, supervisor, c) ==> a == b)
    && (forall c :: c in waiting ==> exists id :: ChildAt(s, id, supervisor, c))
  }

  ghost predicate Kept(s: State, supervisor: nat, answered: seq<string>)
    requires supervisor in s.asked
  {
    var waiting := Waiting(s, supervisor);
    && Told(EventsOf(s.events, supervisor), supervisor, answered, waiting == [])
    && Distinct(waiting) && SetOf(answered) !! SetOf(waiting)
    && SetOf(answered) + SetOf(waiting) == s.asked[supervisor]
    && OneChildEach(s, supervisor, waiting)
    && (supervisor in s.rows ==> s.rows[supervisor].Supervisor?)
  }

  // Ids are handed out in order, and nothing is known of one not handed out.
  ghost predicate Fresh(s: State)
  {
    && (forall id :: id in s.rows ==> id < s.next && (s.rows[id].Child? ==> s.rows[id].supervisor < s.next))
    && (forall id :: id in s.asked ==> id < s.next)
    && (forall e :: e in s.events ==> e.supervisor < s.next)
    && (forall id :: id in s.rows && s.rows[id].Supervisor? ==> id in s.asked && s.rows[id].pending != [])
  }

  // ---------------------------------------------------------------- proofs

  lemma {:induction false} WithoutCall(pending: seq<Pending>, call: string)
    requires Distinct(Calls(pending))
    ensures var rest := Calls(Without(pending, call));
      Distinct(rest) && SetOf(rest) == SetOf(Calls(pending)) - {call}
    decreases pending
  {
    if pending == [] {
    } else {
      var calls := Calls(pending);
      assert calls[1..] == Calls(pending[1..]);
      WithoutCall(pending[1..], call);
      var rest := Calls(Without(pending[1..], call));
      SetOfPush(pending[0].call, calls[1..]);
      assert calls == [pending[0].call] + calls[1..];
      assert pending[0].call !in SetOf(calls[1..]);
      if pending[0].call == call {
        assert Without(pending, call) == Without(pending[1..], call);
      } else {
        assert Without(pending, call) == [pending[0]] + Without(pending[1..], call);
        assert Calls(Without(pending, call)) == [pending[0].call] + rest;
        SetOfPush(pending[0].call, rest);
        assert pending[0].call !in SetOf(rest);
      }
    }
  }

  lemma WithoutCons(first: Pending, rest: seq<Pending>, call: string)
    ensures Without([first] + rest, call) == (if first.call == call then [] else [first]) + Without(rest, call)
  {
    assert ([first] + rest)[1..] == rest;
  }

  lemma JoinedAlike(a: seq<Pending>, b: seq<Pending>, c: seq<Pending>)
    ensures a + b + c == a + (b + c)
  {
  }

  lemma {:induction false} WithoutPush(pending: seq<Pending>, p: Pending, call: string)
    ensures Without(pending + [p], call) == Without(pending, call) + (if p.call != call then [p] else [])
    decreases pending
  {
    if pending == [] {
      WithoutCons(p, [], call);
      assert [] + [p] == [p] + [];
    } else {
      var first, rest := pending[0], pending[1..];
      WithoutPush(rest, p, call);
      WithoutCons(first, rest + [p], call);
      assert pending + [p] == [first] + (rest + [p]);
      JoinedAlike(if first.call == call then [] else [first], Without(rest, call), if p.call != call then [p] else []);
    }
  }

  lemma WithoutLast(pending: seq<Pending>, call: string)
    requires pending != []
    ensures var n := |pending| - 1;
      Without(pending, call) == Without(pending[..n], call) + (if OtherCall(call)(pending[n]) then [pending[n]] else [])
  {
    var n := |pending| - 1;
    WithoutPush(pending[..n], pending[n], call);
    assert pending[..n] + [pending[n]] == pending;
  }

  function OtherCall(call: string): (keep: Pending -> bool)
    ensures forall p :: keep(p) <==> p.call != call
  {
    (p: Pending) => p.call != call
  }

  // What stays waiting are the entries of the other calls, as they were.
  lemma {:induction false} WithoutFilter(pending: seq<Pending>, call: string)
    ensures IsFilter(pending, OtherCall(call), Without(pending, call))
    decreases |pending|
  {
    if pending == [] {
      FilterNone(OtherCall(call));
    } else {
      var n := |pending| - 1;
      WithoutFilter(pending[..n], call);
      FilterLast(pending, OtherCall(call), Without(pending[..n], call));
      WithoutLast(pending, call);
    }
  }

  // A resume does nothing for a row that is gone, or that waits for others itself.
  lemma ResumeRefused(s: State, id: nat, outcome: Outcome)
    requires id !in s.rows || s.rows[id].Supervisor?
    ensures Next(s, Resume(id, outcome)) == s
  {
  }

  // What the end of a call leaves of its supervisor: exactly the entries of the other calls wait,
  // or there is none and it goes on.
  ghost predicate Settled(s: State, t: State, supervisor: nat, call: string, output: string)
    requires supervisor in s.rows && s.rows[supervisor].Supervisor?
  {
    var pending, told := s.rows[supervisor].pending, s.events + [Answered(supervisor, call, output)];
    if supervisor in t.rows then
      && t.rows[supervisor].Supervisor? && t.rows[supervisor].pending != [] && t.events == told
      && IsFilter(pending, OtherCall(call), t.rows[supervisor].pending)
    else t.events == told + [Continued(supervisor)] && IsFilter(pending, OtherCall(call), [])
  }

  /**
    The end of a sub-run takes its row. While its supervisor is there its output is stored under
    its own call, and the supervisor keeps waiting for exactly the other calls or, when there is
    none, is taken and goes on. No other row changes.
  */
  lemma ResumeExactly(s: State, id: nat, output: string)
    requires id in s.rows && s.rows[id].Child?
    ensures var t := Next(s, Resume(id, Ends(output)));
      id !in t.rows && t.rows.Keys <= s.rows.Keys && t.next == s.next && t.asked == s.asked
    ensures var t, sup := Next(s, Resume(id, Ends(output))), s.rows[id].supervisor;
      forall x :: x in s.rows && x != id && x != sup ==> x in t.rows && t.rows[x] == s.rows[x]
    ensures var t, sup, call := Next(s, Resume(id, Ends(output))), s.rows[id].supervisor, s.rows[id].call;
      if sup in s.rows && s.rows[sup].Supervisor? then Settled(s, t, sup, call, output)
      else t == s.(rows := s.rows - {id})
  {
    var sup, call := s.rows[id].supervisor, s.rows[id].call;
    if sup in s.rows && s.rows[sup].Supervisor? {
      SupervisorSettled(s, s.(rows := s.rows - {id}), sup, call, output);
    }
  }

  lemma SupervisorSettled(s: State, taken: State, supervisor: nat, call: string, output: string)
    requires supervisor in s.rows && s.rows[supervisor].Supervisor? && taken.events == s.events
    requires supervisor in taken.rows && taken.rows[supervisor] == s.rows[supervisor]
    ensures Settled(s, ContinueSupervisor(taken, supervisor, call, output), supervisor, call, output)
  {
    WithoutFilter(s.rows[supervisor].pending, call);
  }

  lemma SetOfPush(call: string, calls: seq<string>)
    ensures SetOf([call] + calls) == {call} + SetOf(calls) == SetOf(calls + [call])
  {
  }

  lemma {:induction false} EventsSplit(a: seq<Event>, b: seq<Event>, supervisor: nat)
    ensures EventsOf(a + b, supervisor) == EventsOf(a, supervisor) + EventsOf(b, supervisor)
    decreases |b|
  {
    if b == [] {
      assert a + b == a;
    } else {
      EventsSplit(a, b[..|b| - 1], supervisor);
      assert (a + b)[..|a + b| - 1] == a + b[..|b| - 1];
    }
  }

  lemma {:induction false} NoEventsOf(events: seq<Event>, supervisor: nat)
    requires forall e :: e in events ==> e.supervisor != supervisor
    ensures EventsOf(events, supervisor) == []
    decreases |events|
  {
    if events != [] { NoEventsOf(events[..|events| - 1], supervisor); }
  }

  // What an action adds to the events.
  lemma EventAdded(events: seq<Event>, e: Event, supervisor: nat)
    ensures EventsOf(events + [e], supervisor) ==
      EventsOf(events, supervisor) + if e.supervisor == supervisor then [e] else []
  {
    assert (events + [e])[..|events|] == events;
  }

  // Actions on other supervisors and their children leave this one as it was.
  lemma Untouched(s: State, t: State, supervisor: nat, answered: seq<string>)
    requires supervisor in s.asked && Kept(s, supervisor, answered)
    requires supervisor in t.asked && t.asked[supervisor] == s.asked[supervisor]
    requires supervisor in s.rows <==> supervisor in t.rows
    requires supervisor in s.rows ==> s.rows[supervisor] == t.rows[supervisor]
    requires forall id, c :: ChildAt(s, id, supervisor, c) <==> ChildAt(t, id, supervisor, c)
    requires EventsOf(t.events, supervisor) == EventsOf(s.events, supervisor)
    ensures Kept(t, supervisor, answered)
  {
    assert Waiting(t, supervisor) == Waiting(s, supervisor);
  }

  lemma FreshNext(s: State, a: Action)
    requires Fresh(s)
    ensures Fresh(Next(s, a))
  {
  }

  lemma PauseKeeps(s: State, calls: seq<string>, supervisor: nat, answered: seq<string>)
    requires Fresh(s) && supervisor in s.asked && Kept(s, supervisor, answered)
    ensures Kept(Paused(s, calls), supervisor, answered)
  {
    Untouched(s, Paused(s, calls), supervisor, answered);
  }

  predicate InPlace(calls: seq<string>, first: nat, id: nat, call: string)
  {
    first <= id < first + |calls| && CallAt(calls, first, id) == call
  }

  lemma NewChild(s: State, calls: seq<string>, id: nat, call: string)
    requires Fresh(s)
    ensures ChildAt(Paused(s, calls), id, s.next + |calls|, call) <==> InPlace(calls, s.next, id, call)
  {
    var sup := s.next + |calls|;
    assert id in s.rows ==> s.rows[id] != Child(sup, call);
    assert Paused(s, calls).rows
        == (s.rows + Children(calls, s.next, sup))[sup := Supervisor(PendingOn(calls, s.next))];
  }

  ghost predicate AllInPlace(s: State, supervisor: nat, calls: seq<string>, first: nat)
  {
    forall id, c :: ChildAt(s, id, supervisor, c) <==> InPlace(calls, first, id, c)
  }

  lemma OneEach(s: State, supervisor: nat, calls: seq<string>, first: nat)
    requires Distinct(calls) && AllInPlace(s, supervisor, calls, first)
    ensures OneChildEach(s, supervisor, calls)
  {
    forall id, c | ChildAt(s, id, supervisor, c) ensures c in calls {
      assert InPlace(calls, first, id, c);
    }
    forall a, b, c | ChildAt(s, a, supervisor, c) && ChildAt(s, b, supervisor, c) ensures a == b {
      assert InPlace(calls, first, a, c) && InPlace(calls, first, b, c);
    }
    forall c | c in calls ensures exists id :: ChildAt(s, id, supervisor, c) {
      var i :| 0 <= i < |calls| && calls[i] == c;
      assert InPlace(calls, first, first + i, c);
    }
  }

  lemma NewChildAnywhere(s: State, calls: seq<string>, t: State, supervisor: nat)
    requires Fresh(s) && t == Paused(s, calls) && supervisor == s.next + |calls|
    ensures AllInPlace(t, supervisor, calls, s.next)
  {
    forall id, c ensures ChildAt(t, id, supervisor, c) <==> InPlace(calls, s.next, id, c) {
      NewChild(s, calls, id, c);
    }
  }

  lemma PauseWaits(s: State, calls: seq<string>)
    ensures Waiting(Paused(s, calls), s.next + |calls|) == calls
  {
    assert Calls(PendingOn(calls, s.next)) == calls;
  }

  lemma PauseStarts(s: State, calls: seq<string>, t: State, supervisor: nat)
    requires Fresh(s) && calls != [] && Distinct(calls) && t == Paused(s, calls) && supervisor == s.next + |calls|
    ensures Kept(t, supervisor, [])
  {
    NoEventsOf(s.events, supervisor);
    PauseWaits(s, calls);
    NewChildAnywhere(s, calls, t, supervisor);
    OneEach(t, supervisor, calls, s.next);
    StartKept(t, supervisor, calls);
  }

  lemma StartKept(t: State, supervisor: nat, calls: seq<string>)
    requires supervisor in t.asked && t.asked[supervisor] == SetOf(calls) && calls != [] && Distinct(calls)
    requires EventsOf(t.events, supervisor) == [] && Waiting(t, supervisor) == calls
    requires OneChildEach(t, supervisor, calls) && (supervisor in t.rows ==> t.rows[supervisor].Supervisor?)
    ensures Kept(t, supervisor, [])
  {
    assert SetOf([]) + SetOf(calls) == SetOf(calls);
  }

  lemma PausesAgainKeeps(s: State, id: nat, supervisor: nat, answered: seq<string>)
    requires Fresh(s) && supervisor in s.asked && Kept(s, supervisor, answered)
    requires id in s.rows && s.rows[id].Child?
    ensures Kept(Next(s, Resume(id, PausesAgain)), supervisor, answered)
  {
    var t := Next(s, Resume(id, PausesAgain));
    var waiting := Waiting(s, supervisor);
    assert Waiting(t, supervisor) == waiting;
    forall x, c | ChildAt(t, x, supervisor, c)
      ensures ChildAt(s, if x == s.next then id else x, supervisor, c) && x != id
    {
    }
    forall a, b, c | ChildAt(t, a, supervisor, c) && ChildAt(t, b, supervisor, c) ensures a == b {
      assert ChildAt(s, if a == s.next then id else a, supervisor, c);
      assert ChildAt(s, if b == s.next then id else b, supervisor, c);
    }
    forall c | c in waiting ensures exists x :: ChildAt(t, x, supervisor, c) {
      var x :| ChildAt(s, x, supervisor, c);
      assert ChildAt(t, if x == id then s.next else x, supervisor, c);
    }
    assert OneChildEach(t, supervisor, waiting);
  }

  lemma OtherEvents(s: State, id: nat, output: string, supervisor: nat)
    requires id in s.rows && s.rows[id].Child? && s.rows[id].supervisor != supervisor
    ensures EventsOf(Next(s, Resume(id, Ends(output))).events, supervisor) == EventsOf(s.events, supervisor)
  {
    var other, call := s.rows[id].supervisor, s.rows[id].call;
    EventAdded(s.events, Answered(other, call, output), supervisor);
    EventAdded(s.events + [Answered(other, call, output)], Continued(other), supervisor);
    assert EventsOf(s.events, supervisor) + [] == EventsOf(s.events, supervisor);
  }

  lemma OtherRows(s: State, id: nat, output: string, supervisor: nat)
    requires id in s.rows && s.rows[id].Child? && s.rows[id].supervisor != supervisor
    ensures var t := Next(s, Resume(id, Ends(output)));
      && t.asked == s.asked
      && (s.rows[id].supervisor != id && id != supervisor ==>
           && (supervisor in s.rows <==> supervisor in t.rows)
           && (supervisor in s.rows ==> s.rows[supervisor] == t.rows[supervisor]))
      && forall x, c :: ChildAt(s, x, supervisor, c) <==> ChildAt(t, x, supervisor, c)
  {
  }

  // A sub-run of another supervisor ends.
  lemma OtherEnds(s: State, id: nat, output: string, supervisor: nat, answered: seq<string>)
    requires Fresh(s) && supervisor in s.asked && Kept(s, supervisor, answered)
    requires id in s.rows && s.rows[id].Child? && s.rows[id].supervisor != supervisor
    ensures Kept(Next(s, Resume(id, Ends(output))), supervisor, answered)
  {
    OtherEvents(s, id, output, supervisor);
    OtherRows(s, id, output, supervisor);
    Untouched(s, Next(s, Resume(id, Ends(output))), supervisor, answered);
  }

  // One of its own ends: that call is answered, and no longer waiting.
  lemma OwnEnds(s: State, id: nat, output: string, supervisor: nat, answered: seq<string>)
    requires Fresh(s) && supervisor in s.asked && Kept(s, supervisor, answered)
    requires id in s.rows && s.rows[id].Child? && s.rows[id].supervisor == supervisor
    ensures Kept(Next(s, Resume(id, Ends(output))), supervisor, answered + [s.rows[id].call])
  {
    var call := s.rows[id].call;
    var waiting := Waiting(s, supervisor);
    assert ChildAt(s, id, supervisor, call);
    assert call in SetOf(waiting) && call !in SetOf(answered);
    var rest := Calls(Without(s.rows[supervisor].pending, call));
    WithoutCall(s.rows[supervisor].pending, call);
    EndEffect(s, id, output, supervisor);
    ToldMore(EventsOf(s.events, supervisor), supervisor, answered, call, output);
    SetOfPush(call, answered);
    MovedOver(SetOf(answered), SetOf(waiting), call);
    ChildGone(s, Next(s, Resume(id, Ends(output))), id, output, supervisor, call, waiting, rest);
  }

  lemma MovedOver(answered: set<string>, waiting: set<string>, call: string)
    requires answered !! waiting && call in waiting
    ensures answered + {call} !! waiting - {call}
    ensures (answered + {call}) + (waiting - {call}) == answered + waiting
  {
  }

  lemma EndEffect(s: State, id: nat, output: string, supervisor: nat)
    requires id in s.rows && s.rows[id].Child? && s.rows[id].supervisor == supervisor
    requires supervisor in s.rows && s.rows[supervisor].Supervisor?
    ensures var t, call := Next(s, Resume(id, Ends(output))), s.rows[id].call;
      var rest := Calls(Without(s.rows[supervisor].pending, call));
      var told := EventsOf(s.events, supervisor) + [Answered(supervisor, call, output)];
      && Waiting(t, supervisor) == rest && t.asked == s.asked
      && EventsOf(t.events, supervisor) == (if rest == [] then told + [Continued(supervisor)] else told)
      && (supervisor in t.rows ==> t.rows[supervisor].Supervisor?)
  {
    var call := s.rows[id].call;
    var rest := Without(s.rows[supervisor].pending, call);
    assert rest == [] <==> Calls(rest) == [];
    EventAdded(s.events, Answered(supervisor, call, output), supervisor);
    EventAdded(s.events + [Answered(supervisor, call, output)], Continued(supervisor), supervisor);
  }

  lemma EndTakes(s: State, id: nat, output: string, supervisor: nat, x: nat, c: string)
    requires id in s.rows && s.rows[id].Child? && s.rows[id].supervisor == supervisor
    requires supervisor in s.rows && s.rows[supervisor].Supervisor?
    ensures ChildAt(Next(s, Resume(id, Ends(output))), x, supervisor, c) <==> x != id && ChildAt(s, x, supervisor, c)
  {
  }

  lemma ToldMore(events: seq<Event>, supervisor: nat, answered: seq<string>, call: string, output: string)
    requires Told(events, supervisor, answered, false) && call !in answered
    ensures var more := events + [Answered(supervisor, call, output)];
      Told(more, supervisor, answered + [call], false)
      && Told(more + [Continued(supervisor)], supervisor, answered + [call], true)
  {
    var more := events + [Answered(supervisor, call, output)];
    assert Answers(more, answered + [call]);
    assert (more + [Continued(supervisor)])[..|more|] == more;
  }

  lemma ChildGone(s: State, t: State, id: nat, output: string, supervisor: nat, call: string, waiting: seq<string>,
                  remaining: seq<string>)
    requires OneChildEach(s, supervisor, waiting) && ChildAt(s, id, supervisor, call)
    requires supervisor in s.rows && s.rows[supervisor].Supervisor? && t == Next(s, Resume(id, Ends(output)))
    requires SetOf(remaining) == SetOf(waiting) - {call}
    ensures OneChildEach(t, supervisor, remaining)
  {
    forall x, c ensures ChildAt(t, x, supervisor, c) <==> x != id && ChildAt(s, x, supervisor, c) {
      EndTakes(s, id, output, supervisor, x, c);
    }
    forall x, c | ChildAt(t, x, supervisor, c) ensures c in remaining {
      assert ChildAt(s, x, supervisor, c);
      assert c in SetOf(waiting) - {call};
    }
    forall c | c in remaining ensures exists x :: ChildAt(t, x, supervisor, c) {
      assert c in SetOf(waiting) - {call};
      var x :| ChildAt(s, x, supervisor, c);
      assert ChildAt(t, x, supervisor, c);
    }
  }

  lemma NextKeeps(s: State, a: Action, supervisor: nat, answered: seq<string>) returns (more: seq<string>)
    requires Fresh(s) && supervisor in s.asked && Kept(s, supervisor, answered)
    ensures supervisor in Next(s, a).asked && Kept(Next(s, a), supervisor, more)
  {
    more := answered;
    match a
    case Pause(calls) =>
      if calls != [] && Distinct(calls) { PauseKeeps(s, calls, supervisor, answered); }
    case Resume(id, outcome) =>
      if id in s.rows && s.rows[id].Child? {
        match outcome
        case PausesAgain => PausesAgainKeeps(s, id, supervisor, answered);
        case Ends(output) =>
          if s.rows[id].supervisor != supervisor {
            OtherEnds(s, id, output, supervisor, answered);
          } else {
            more := answered + [s.rows[id].call];
            OwnEnds(s, id, output, supervisor, answered);
          }
      }
  }

  // Over any run, for every supervisor that ever paused: the calls it paused on are parted
  // into those with one tool result each and those with one resumable checkpoint each, and
  // it has gone on, once and after the last result, exactly when none is waiting.
  lemma {:induction false} Bookkept(actions: seq<Action>, supervisor: nat) returns (answered: seq<string>)
    requires supervisor in Run(actions).asked
    ensures Fresh(Run(actions)) && Kept(Run(actions), supervisor, answered)
    decreases |actions|
  {
    var front, a := actions[..|actions| - 1], actions[|actions| - 1];
    AllFresh(front);
    AllFresh(actions);
    var s := Run(front);
    if supervisor in s.asked {
      var before := Bookkept(front, supervisor);
      answered := NextKeeps(s, a, supervisor, before);
    } else {
      answered := [];
      NewlyAsked(s, a, supervisor);
    }
  }

  // Only a pause makes a supervisor known.
  lemma OnlyPausesAsk(s: State, a: Action, supervisor: nat)
    requires supervisor !in s.asked && supervisor in Next(s, a).asked
    ensures a.Pause? && a.calls != [] && Distinct(a.calls) && supervisor == s.next + |a.calls|
  {
  }

  lemma NewlyAsked(s: State, a: Action, supervisor: nat)
    requires Fresh(s) && supervisor !in s.asked && supervisor in Next(s, a).asked
    ensures Kept(Next(s, a), supervisor, [])
  {
    OnlyPausesAsk(s, a, supervisor);
    PauseStarts(s, a.calls, Next(s, a), supervisor);
  }

  lemma {:induction false} AllFresh(actions: seq<Action>)
    ensures Fresh(Run(actions))
    decreases |actions|
  {
    if actions != [] {
      AllFresh(actions[..|actions| - 1]);
      FreshNext(Run(actions[..|actions| - 1]), actions[|actions| - 1]);
    }
  }

  // ---------------------------------------------------------------- the code

  class Runner {
    var rows: map<nat, Row>
    var next: nat
    var asked: map<nat, set<string>>
    var events: seq<Event>

    ghost function Now(): State
      reads this
    {
      State(rows, next, asked, events)
    }

    constructor ()
      ensures Now() == EMPTY
    {
      rows, next, asked, events := map[], 0, map[], [];
    }

    // The result is stored at once; only the last outstanding delegation lets the
    // supervisor go on.
    method ContinueSupervisorParent(supervisor: nat, call: string, output: string)
      modifies this
      ensures Now() == ContinueSupervisor(old(Now()), supervisor, call, output)
    {
      if supervisor !in rows || !rows[supervisor].Supervisor? { return; }
      events := events + [Answered(supervisor, call, output)];
      var remaining := Without(rows[supervisor].pending, call);
      if |remaining| > 0 {
        rows := rows[supervisor := Supervisor(remaining)];
        return;
      }
      rows := rows - {supervisor};
      events := events + [Continued(supervisor)];
    }

    method ResumeRun(id: nat, outcome: Outcome)
      modifies this
      ensures Now() == Next(old(Now()), Resume(id, outcome))
    {
      if id !in rows || rows[id].Supervisor? { return; }
      var Child(supervisor, call) := rows[id];
      rows := rows - {id};
      match outcome
      case PausesAgain =>
        rows := rows[next := Child(supervisor, call)];
        next := next + 1;
      case Ends(output) => ContinueSupervisorParent(supervisor, call, output);
    }
  }
}
