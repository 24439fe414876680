/**
  The in-process transport: publish into the replay buffers and to the live handlers,
  subscribe with replay, unsubscribe. A subscription is named by its handler's number;
  the closure subscribe returns is Unsubscribe of that number, and it keeps hold of the
  handler set it was given, whatever the map holds by then.
*/
module StreamTransport {
  import opened ReplayBuffer
  import opened Filters

  datatype Op =
    | Publish(frame: Frame)
    | Subscribe(handler: nat, runId: string, after: int)
    | Unsubscribe(handler: nat)

  datatype Ticket = Ticket(runId: string, set_: nat)

  // Handler sets are objects: `subscribers` names the one a run has now.
  datatype Hub = Hub(
    buffers: Buffers,
    subscribers: map<string, nat>,
    sets: map<nat, seq<nat>>,
    tickets: map<nat, Ticket>,
    nextSet: nat,
    inbox: map<nat, seq<Frame>>)

  function NewHub(): Hub { Hub(Buffers([], map[]), map[], map[], map[], 0, map[]) }

  function Inbox(hub: Hub, h: nat): seq<Frame> { if h in hub.inbox then hub.inbox[h] else [] }

  function Replayed(frames: seq<Frame>, after: int): seq<Frame>
  {
    if frames == [] then []
    else Replayed(frames[..|frames| - 1], after)
         + (if frames[|frames| - 1].position > after then [frames[|frames| - 1]] else [])
  }

  // What a subscriber with this mark has missed of the frames that are kept: those above the
  // mark, each as often as it is kept and in the same order.
  ghost predicate Missed(kept: seq<Frame>, after: int, frames: seq<Frame>)
  {
    IsFilter(kept, AboveMark(after), frames)
  }

  function AboveMark(after: int): (above: Frame -> bool)
    ensures forall f :: above(f) <==> f.position > after
  {
    (f: Frame) => f.position > after
  }

  lemma {:induction false} ReplayedMissed(kept: seq<Frame>, after: int)
    ensures Missed(kept, after, Replayed(kept, after))
    decreases |kept|
  {
    if kept == [] {
      FilterNone(AboveMark(after));
    } else {
      var n := |kept| - 1;
      ReplayedMissed(kept[..n], after);
      FilterLast(kept, AboveMark(after), Replayed(kept[..n], after));
    }
  }

  function Retained(b: Buffers, r: string): seq<Frame> { if r in b.frames then b.frames[r] else [] }

  // Every handler of the list is called once, in order; a throwing one is no different.
  function Deliver(inbox: map<nat, seq<Frame>>, handlers: seq<nat>, f: Frame): map<nat, seq<Frame>>
    decreases |handlers|
  {
    if handlers == [] then inbox
    else
      var rest := Deliver(inbox, handlers[..|handlers| - 1], f);
      var h := handlers[|handlers| - 1];
      rest[h := (if h in rest then rest[h] else []) + [f]]
  }

  function Drop(handlers: seq<nat>, h: nat): seq<nat>
  {
    if handlers == [] then []
    else if handlers[0] == h then Drop(handlers[1..], h)
    else [handlers[0]] + Drop(handlers[1..], h)
  }

  function Step(hub: Hub, op: Op): Hub
  {
    match op
    case Publish(f) =>
      var b := ReplayBuffer.Publish(hub.buffers, f);
      if f.runId in hub.subscribers && hub.subscribers[f.runId] in hub.sets then
        hub.(buffers := b, inbox := Deliver(hub.inbox, hub.sets[hub.subscribers[f.runId]], f))
      else hub.(buffers := b)
    case Subscribe(h, r, after) =>
      var inbox := hub.inbox[h := Inbox(hub, h) + Replayed(Retained(hub.buffers, r), after)];
      var known := r in hub.subscribers && hub.subscribers[r] in hub.sets;
      var s := if known then hub.subscribers[r] else hub.nextSet;
      var members := if known then hub.sets[s] else [];
      hub.(inbox := inbox,
           subscribers := hub.subscribers[r := s],
           sets := hub.sets[s := if h in members then members else members + [h]],
           tickets := hub.tickets[h := Ticket(r, s)],
           nextSet := if known then hub.nextSet else hub.nextSet + 1)
    case Unsubscribe(h) =>
      if h !in hub.tickets || hub.tickets[h].set_ !in hub.sets then hub
      else
        var t := hub.tickets[h];
        var members := Drop(hub.sets[t.set_], h);
        hub.(sets := hub.sets[t.set_ := members],
             subscribers := if members == [] then hub.subscribers - {t.runId} else hub.subscribers)
  }

  function After(ops: seq<Op>): Hub
  {
    if ops == [] then NewHub() else Step(After(ops[..|ops| - 1]), ops[|ops| - 1])
  }

  // -------------------------------------------------------------- histories

  function Published(ops: seq<Op>): seq<Frame>
  {
    if ops == [] then []
    else
      var op := ops[|ops| - 1];
      Published(ops[..|ops| - 1]) + (if op.Publish? then [op.frame] else [])
  }

  // The handlers subscribed and not yet unsubscribed.
  function Live(ops: seq<Op>): set<nat>
  {
    if ops == [] then {}
    else
      match ops[|ops| - 1]
      case Publish(_) => Live(ops[..|ops| - 1])
      case Subscribe(h, _, _) => Live(ops[..|ops| - 1]) + {h}
      case Unsubscribe(h) => Live(ops[..|ops| - 1]) - {h}
  }

  // The unsubscribe closure of h would take away an entry that is no longer its own: the
  // set it holds is empty, and the run has subscribers again.
  predicate Harmful(hub: Hub, h: nat)
  {
    h in hub.tickets && hub.tickets[h].set_ in hub.sets && hub.sets[hub.tickets[h].set_] == []
    && hub.tickets[h].runId in hub.subscribers
  }

  // Each subscription brings its own handler; it may be unsubscribed any number of times,
  // except where that is harmful.
  predicate Legal(ops: seq<Op>)
  {
    ops == [] ||
    (Legal(ops[..|ops| - 1]) &&
     match ops[|ops| - 1]
     case Publish(_) => true
     case Subscribe(h, _, _) => h !in After(ops[..|ops| - 1]).tickets
     case Unsubscribe(h) => h in After(ops[..|ops| - 1]).tickets && !Harmful(After(ops[..|ops| - 1]), h))
  }

  // ------------------------------------------------------------- invariant

  predicate NoDup(s: seq<nat>) { forall i, j :: 0 <= i < j < |s| ==> s[i] != s[j] }

  // Every run that has subscribers has a handler set of its own, without repeats.
  ghost predicate SetsApart(hub: Hub)
  {
    && (forall s :: s in hub.sets ==> s < hub.nextSet)
    && (forall r :: r in hub.subscribers ==>
          hub.subscribers[r] in hub.sets && hub.sets[hub.subscribers[r]] != [] && NoDup(hub.sets[hub.subscribers[r]]))
    && (forall r, q :: r in hub.subscribers && q in hub.subscribers && r != q ==>
          hub.subscribers[r] != hub.subscribers[q])
  }

  // The sets the map names hold exactly the live handlers of their runs.
  ghost predicate Listed(hub: Hub, live: set<nat>)
    requires SetsApart(hub)
  {
    && (forall h :: h in live ==>
          && h in hub.tickets && hub.tickets[h].runId in hub.subscribers
          && hub.subscribers[hub.tickets[h].runId] == hub.tickets[h].set_
          && h in hub.sets[hub.tickets[h].set_])
    && (forall r, h :: r in hub.subscribers && h in hub.sets[hub.subscribers[r]] ==>
          h in live && h in hub.tickets && hub.tickets[h].runId == r)
  }

  // Every closure holds a set, and one whose handler is not live no longer finds it there.
  ghost predicate Retired(hub: Hub, live: set<nat>)
  {
    forall h :: h in hub.tickets ==>
      hub.tickets[h].set_ in hub.sets && (h !in live ==> h !in hub.sets[hub.tickets[h].set_])
  }

  ghost predicate Valid(hub: Hub, live: set<nat>)
  {
    SetsApart(hub) && Listed(hub, live) && Retired(hub, live) && forall h :: h in hub.inbox ==> h in hub.tickets
  }

  lemma {:induction false} DropKeeps(handlers: seq<nat>, h: nat)
    requires NoDup(handlers)
    ensures NoDup(Drop(handlers, h))
    ensures forall x :: x in Drop(handlers, h) <==> x in handlers && x != h
    decreases handlers
  {
    if handlers != [] {
      DropKeeps(handlers[1..], h);
      assert forall x :: x in handlers <==> x == handlers[0] || x in handlers[1..];
      assert handlers[0] !in Drop(handlers[1..], h);
      if handlers[0] != h { assert Drop(handlers, h) == [handlers[0]] + Drop(handlers[1..], h); }
    }
  }

  lemma {:induction false} DeliverOnce(inbox: map<nat, seq<Frame>>, handlers: seq<nat>, f: Frame)
    requires NoDup(handlers)
    ensures var after := Deliver(inbox, handlers, f);
      && after.Keys == inbox.Keys + (set h | h in handlers)
      && (forall h :: h in handlers ==> after[h] == (if h in inbox then inbox[h] else []) + [f])
      && (forall h :: h in inbox && h !in handlers ==> after[h] == inbox[h])
    decreases |handlers|
  {
    if handlers != [] {
      var n := |handlers| - 1;
      DeliverOnce(inbox, handlers[..n], f);
      assert handlers == handlers[..n] + [handlers[n]];
      assert handlers[n] !in handlers[..n];
    }
  }

  // A publish calls the handlers of its run's set once each and touches nothing else.
  lemma PublishDelivers(hub: Hub, live: set<nat>, f: Frame)
    requires Valid(hub, live)
    ensures var hub' := Step(hub, Publish(f));
      && hub'.subscribers == hub.subscribers && hub'.sets == hub.sets && hub'.tickets == hub.tickets
      && hub'.nextSet == hub.nextSet
      && forall h :: Inbox(hub', h) == Inbox(hub, h) + (if Hears(hub, h, f) then [f] else [])
    ensures forall h :: h in Step(hub, Publish(f)).inbox ==> h in hub.inbox || Hears(hub, h, f)
  {
    if f.runId in hub.subscribers {
      DeliverOnce(hub.inbox, hub.sets[hub.subscribers[f.runId]], f);
    }
  }

  predicate Hears(hub: Hub, h: nat, f: Frame)
  {
    f.runId in hub.subscribers && hub.subscribers[f.runId] in hub.sets && h in hub.sets[hub.subscribers[f.runId]]
  }

  lemma HearsIffLive(hub: Hub, live: set<nat>, h: nat, f: Frame)
    requires Valid(hub, live)
    ensures Hears(hub, h, f) <==> h in live && h in hub.tickets && hub.tickets[h].runId == f.runId
  {
  }

  lemma PublishValid(hub: Hub, live: set<nat>, f: Frame)
    requires Valid(hub, live)
    ensures Valid(Step(hub, Publish(f)), live)
    ensures forall h :: h in live ==>
      Inbox(Step(hub, Publish(f)), h) == Inbox(hub, h) + (if hub.tickets[h].runId == f.runId then [f] else [])
    ensures forall h :: h !in live ==> Inbox(Step(hub, Publish(f)), h) == Inbox(hub, h)
  {
    PublishDelivers(hub, live, f);
    forall h ensures Hears(hub, h, f) <==> h in live && h in hub.tickets && hub.tickets[h].runId == f.runId {
      HearsIffLive(hub, live, h, f);
    }
  }

  lemma SubscribeApart(hub: Hub, live: set<nat>, h: nat, r: string, after: int)
    requires Valid(hub, live) && h !in hub.tickets
    ensures SetsApart(Step(hub, Subscribe(h, r, after)))
  {
    if r in hub.subscribers {
      assert h !in hub.sets[hub.subscribers[r]];
      assert NoDup(hub.sets[hub.subscribers[r]] + [h]);
    } else {
      assert [] + [h] == [h];
    }
  }

  // A further subscriber of a run joins the set the run has.
  lemma JoinSets(hub: Hub, live: set<nat>, h: nat, r: string, after: int)
    requires Valid(hub, live) && h !in hub.tickets && r in hub.subscribers
    ensures var hub', n := Step(hub, Subscribe(h, r, after)), hub.subscribers[r];
      && hub'.subscribers == hub.subscribers
      && hub'.sets == hub.sets[n := hub.sets[n] + [h]] && hub'.tickets == hub.tickets[h := Ticket(r, n)]
  {
    assert h !in hub.sets[hub.subscribers[r]];
    assert hub.subscribers[r := hub.subscribers[r]] == hub.subscribers;
  }

  lemma JoinListed(hub: Hub, live: set<nat>, h: nat, r: string, after: int)
    requires Valid(hub, live) && h !in hub.tickets && r in hub.subscribers
    requires SetsApart(Step(hub, Subscribe(h, r, after)))
    ensures Listed(Step(hub, Subscribe(h, r, after)), live + {h})
  {
    JoinSets(hub, live, h, r, after);
    ListedWithJoined(hub, Step(hub, Subscribe(h, r, after)), live, h, r);
  }

  lemma ListedWithJoined(hub: Hub, hub': Hub, live: set<nat>, h: nat, r: string)
    requires SetsApart(hub) && Listed(hub, live) && h !in hub.tickets && r in hub.subscribers
    requires SetsApart(hub') && hub'.subscribers == hub.subscribers
    requires hub'.sets == hub.sets[hub.subscribers[r] := hub.sets[hub.subscribers[r]] + [h]]
    requires hub'.tickets == hub.tickets[h := Ticket(r, hub.subscribers[r])]
    ensures Listed(hub', live + {h})
  {
    forall q, x | q in hub'.subscribers && x in hub'.sets[hub'.subscribers[q]]
      ensures x in live + {h} && x in hub'.tickets && hub'.tickets[x].runId == q
    {
      assert x in hub.sets[hub.subscribers[q]] || (q == r && x == h);
    }
  }

  // The first subscriber of a run: a fresh set with this one handler.
  lemma FirstSets(hub: Hub, live: set<nat>, h: nat, r: string, after: int)
    requires Valid(hub, live) && r !in hub.subscribers
    ensures var hub', n := Step(hub, Subscribe(h, r, after)), hub.nextSet;
      && n !in hub.sets && hub'.subscribers == hub.subscribers[r := n]
      && hub'.sets == hub.sets[n := [h]] && hub'.tickets == hub.tickets[h := Ticket(r, n)]
  {
    assert [] + [h] == [h];
  }

  lemma FirstListed(hub: Hub, live: set<nat>, h: nat, r: string, after: int)
    requires Valid(hub, live) && h !in hub.tickets && r !in hub.subscribers
    requires SetsApart(Step(hub, Subscribe(h, r, after)))
    ensures Listed(Step(hub, Subscribe(h, r, after)), live + {h})
  {
    FirstSets(hub, live, h, r, after);
    ListedWithFirst(hub, Step(hub, Subscribe(h, r, after)), live, h, r);
  }

  lemma ListedWithFirst(hub: Hub, hub': Hub, live: set<nat>, h: nat, r: string)
    requires SetsApart(hub) && Listed(hub, live) && h !in hub.tickets && r !in hub.subscribers
    requires SetsApart(hub') && hub.nextSet !in hub.sets && hub'.subscribers == hub.subscribers[r := hub.nextSet]
    requires hub'.sets == hub.sets[hub.nextSet := [h]] && hub'.tickets == hub.tickets[h := Ticket(r, hub.nextSet)]
    ensures Listed(hub', live + {h})
  {
    forall q, x | q in hub'.subscribers && x in hub'.sets[hub'.subscribers[q]]
      ensures x in live + {h} && x in hub'.tickets && hub'.tickets[x].runId == q
    {
      if q != r { assert x in hub.sets[hub.subscribers[q]]; }
    }
  }

  lemma SubscribeInbox(hub: Hub, live: set<nat>, h: nat, r: string, after: int)
    requires Valid(hub, live) && h !in hub.tickets
    ensures Inbox(Step(hub, Subscribe(h, r, after)), h) == Replayed(Retained(hub.buffers, r), after)
    ensures forall x :: x != h ==> Inbox(Step(hub, Subscribe(h, r, after)), x) == Inbox(hub, x)
  {
    assert [] + Replayed(Retained(hub.buffers, r), after) == Replayed(Retained(hub.buffers, r), after);
  }

  lemma SubscribeValid(hub: Hub, live: set<nat>, h: nat, r: string, after: int)
    requires Valid(hub, live) && h !in hub.tickets
    ensures Valid(Step(hub, Subscribe(h, r, after)), live + {h})
    ensures Inbox(Step(hub, Subscribe(h, r, after)), h) == Replayed(Retained(hub.buffers, r), after)
    ensures forall x :: x != h ==> Inbox(Step(hub, Subscribe(h, r, after)), x) == Inbox(hub, x)
  {
    SubscribeInbox(hub, live, h, r, after);
    SubscribeApart(hub, live, h, r, after);
    if r in hub.subscribers { JoinListed(hub, live, h, r, after); } else { FirstListed(hub, live, h, r, after); }
    SubscribeRetired(hub, live, h, r, after);
  }

  lemma SubscribeRetired(hub: Hub, live: set<nat>, h: nat, r: string, after: int)
    requires Valid(hub, live) && h !in hub.tickets
    ensures Retired(Step(hub, Subscribe(h, r, after)), live + {h})
  {
    if r in hub.subscribers { JoinSets(hub, live, h, r, after); } else { FirstSets(hub, live, h, r, after); }
  }

  // The handler's set without it; the run's entry goes with the last member.
  lemma LeaveSets(hub: Hub, live: set<nat>, h: nat)
    requires Valid(hub, live) && h in live
    ensures var hub', t := Step(hub, Unsubscribe(h)), hub.tickets[h];
      var members := Drop(hub.sets[t.set_], h);
      && NoDup(members) && (forall x :: x in members <==> x in hub.sets[t.set_] && x != h)
      && hub'.sets == hub.sets[t.set_ := members] && hub'.tickets == hub.tickets && hub'.inbox == hub.inbox
      && hub'.nextSet == hub.nextSet
      && hub'.subscribers == (if members == [] then hub.subscribers - {t.runId} else hub.subscribers)
      && t.runId in hub.subscribers && hub.subscribers[t.runId] == t.set_
  {
    DropKeeps(hub.sets[hub.tickets[h].set_], h);
  }

  lemma LeaveApart(hub: Hub, live: set<nat>, h: nat)
    requires Valid(hub, live) && h in live
    ensures SetsApart(Step(hub, Unsubscribe(h)))
  {
    LeaveSets(hub, live, h);
  }

  lemma LeaveListed(hub: Hub, live: set<nat>, h: nat)
    requires Valid(hub, live) && h in live && SetsApart(Step(hub, Unsubscribe(h)))
    ensures Listed(Step(hub, Unsubscribe(h)), live - {h}) && Retired(Step(hub, Unsubscribe(h)), live - {h})
  {
    LeaveSets(hub, live, h);
  }

  lemma LeaveValid(hub: Hub, live: set<nat>, h: nat)
    requires Valid(hub, live) && h in live
    ensures Valid(Step(hub, Unsubscribe(h)), live - {h})
    ensures Step(hub, Unsubscribe(h)).inbox == hub.inbox && Step(hub, Unsubscribe(h)).tickets == hub.tickets
  {
    LeaveSets(hub, live, h);
    LeaveApart(hub, live, h);
    LeaveListed(hub, live, h);
  }

  // A repeated unsubscribe that is not harmful does nothing at all.
  lemma RepeatIsNothing(hub: Hub, live: set<nat>, h: nat)
    requires Valid(hub, live) && h in hub.tickets && h !in live && !Harmful(hub, h)
    ensures Step(hub, Unsubscribe(h)) == hub
  {
    var t := hub.tickets[h];
    DropAbsent(hub.sets[t.set_], h);
    assert hub.sets[t.set_ := hub.sets[t.set_]] == hub.sets;
    assert t.runId !in hub.subscribers ==> hub.subscribers - {t.runId} == hub.subscribers;
  }

  lemma {:induction false} DropAbsent(handlers: seq<nat>, h: nat)
    requires h !in handlers
    ensures Drop(handlers, h) == handlers
    decreases handlers
  {
    if handlers != [] { DropAbsent(handlers[1..], h); }
  }

  lemma UnsubscribeValid(hub: Hub, live: set<nat>, h: nat)
    requires Valid(hub, live) && h in hub.tickets && !Harmful(hub, h)
    ensures Valid(Step(hub, Unsubscribe(h)), live - {h})
    ensures Step(hub, Unsubscribe(h)).inbox == hub.inbox && Step(hub, Unsubscribe(h)).tickets == hub.tickets
  {
    if h in live {
      LeaveValid(hub, live, h);
    } else {
      RepeatIsNothing(hub, live, h);
      assert live - {h} == live;
    }
  }

  lemma {:induction false} HistoryValid(ops: seq<Op>)
    requires Legal(ops)
    ensures Valid(After(ops), Live(ops)) && After(ops).buffers == AfterAll(Published(ops))
    decreases |ops|
  {
    if ops != [] {
      var init, op := ops[..|ops| - 1], ops[|ops| - 1];
      HistoryValid(init);
      match op
      case Publish(f) =>
        PublishValid(After(init), Live(init), f);
        assert (Published(init) + [f])[..|Published(init)|] == Published(init);
      case Subscribe(h, r, after) =>
        SubscribeValid(After(init), Live(init), h, r, after);
        assert Published(init) + [] == Published(init);
      case Unsubscribe(h) =>
        UnsubscribeValid(After(init), Live(init), h);
        assert Published(init) + [] == Published(init);
    }
  }

  lemma SplitLast(ops: seq<Op>, op: Op)
    ensures (ops + [op])[..|ops + [op]| - 1] == ops
    ensures After(ops + [op]) == Step(After(ops), op)
  {
    assert (ops + [op])[..|ops|] == ops;
  }

  lemma {:induction false} LegalPrefix(ops: seq<Op>, more: seq<Op>)
    requires Legal(ops + more)
    ensures Legal(ops)
    decreases |more|
  {
    if more != [] {
      assert (ops + more)[..|ops + more| - 1] == ops + more[..|more| - 1];
      LegalPrefix(ops, more[..|more| - 1]);
    } else {
      assert ops + more == ops;
    }
  }

  function FramesFor(ops: seq<Op>, r: string): seq<Frame> { FramesOf(Published(ops), r) }

  lemma FramesForStep(ops: seq<Op>, op: Op, r: string)
    ensures FramesFor(ops + [op], r)
         == FramesFor(ops, r) + (if op.Publish? && op.frame.runId == r then [op.frame] else [])
  {
    SplitLast(ops, op);
    var p := Published(ops);
    if op.Publish? {
      assert (p + [op.frame])[..|p|] == p;
    } else {
      assert p + [] == p && FramesOf(p, r) + [] == FramesOf(p, r);
    }
  }

  /**
    Delivery is exact: until it unsubscribes, a subscriber has received the frames of its run
    that are retained above `after`, then every later frame of that run, once each and in
    publish order, and nothing else.
  */
  lemma SubscriptionExact(pre: seq<Op>, h: nat, r: string, after: int, mid: seq<Op>)
    requires Legal(pre + [Subscribe(h, r, after)] + mid) && Unsubscribe(h) !in mid
    ensures exists missed, later ::
      && (r in AfterAll(Published(pre)).frames ==> Missed(AfterAll(Published(pre)).frames[r], after, missed))
      && (r !in AfterAll(Published(pre)).frames ==> missed == [])
      && IsFilter(Published(mid), BelongsTo(r), later)
      && Inbox(After(pre + [Subscribe(h, r, after)] + mid), h) == missed + later
    ensures h in Live(pre + [Subscribe(h, r, after)] + mid)
  {
    InboxSince(pre, h, r, after, mid);
    ReplayedMissed(Retained(AfterAll(Published(pre)), r), after);
    FramesOfFilter(Published(mid), r);
  }

  lemma InboxAtFirst(pre: seq<Op>, h: nat, r: string, after: int)
    requires Legal(pre + [Subscribe(h, r, after)])
    ensures var hub := After(pre + [Subscribe(h, r, after)]);
      && Inbox(hub, h) == Replayed(Retained(AfterAll(Published(pre)), r), after)
      && h in Live(pre + [Subscribe(h, r, after)]) && h in hub.tickets && hub.tickets[h].runId == r
  {
    LegalPrefix(pre, [Subscribe(h, r, after)]);
    HistoryValid(pre);
    SplitLast(pre, Subscribe(h, r, after));
    SubscribeValid(After(pre), Live(pre), h, r, after);
  }

  lemma {:induction false} InboxSince(pre: seq<Op>, h: nat, r: string, after: int, mid: seq<Op>)
    requires Legal(pre + [Subscribe(h, r, after)] + mid) && Unsubscribe(h) !in mid
    ensures Inbox(After(pre + [Subscribe(h, r, after)] + mid), h)
         == Replayed(Retained(AfterAll(Published(pre)), r), after) + FramesFor(mid, r)
    ensures h in Live(pre + [Subscribe(h, r, after)] + mid)
    ensures var hub := After(pre + [Subscribe(h, r, after)] + mid); h in hub.tickets && hub.tickets[h].runId == r
    decreases |mid|
  {
    var start := pre + [Subscribe(h, r, after)];
    if mid == [] {
      assert start + mid == start;
      InboxAtFirst(pre, h, r, after);
      assert Replayed(Retained(AfterAll(Published(pre)), r), after) + FramesFor([], r)
          == Replayed(Retained(AfterAll(Published(pre)), r), after);
    } else {
      var init, op := mid[..|mid| - 1], mid[|mid| - 1];
      assert mid == init + [op] && start + mid == start + init + [op];
      LegalPrefix(start + init, [op]);
      InboxSince(pre, h, r, after, init);
      FramesForStep(init, op, r);
      StepFor(start + init, h, r, op);
      Regroup(Replayed(Retained(AfterAll(Published(pre)), r), after), FramesFor(init, r),
              if op.Publish? && op.frame.runId == r then [op.frame] else []);
    }
  }

  lemma Regroup(a: seq<Frame>, b: seq<Frame>, c: seq<Frame>)
    ensures a + b + c == a + (b + c)
  {
  }

  // What one more step brings a live subscriber of run r.
  lemma StepFor(ops: seq<Op>, h: nat, r: string, op: Op)
    requires Legal(ops + [op]) && h in Live(ops) && op != Unsubscribe(h)
    requires h in After(ops).tickets && After(ops).tickets[h].runId == r
    ensures var hub := After(ops + [op]);
      && h in Live(ops + [op]) && h in hub.tickets && hub.tickets[h].runId == r
      && Inbox(hub, h) == Inbox(After(ops), h) + (if op.Publish? && op.frame.runId == r then [op.frame] else [])
  {
    SplitLast(ops, op);
    LegalPrefix(ops, [op]);
    HistoryValid(ops);
    assert Inbox(After(ops), h) + [] == Inbox(After(ops), h);
    match op
    case Publish(f) => PublishValid(After(ops), Live(ops), f);
    case Subscribe(x, q, a) => SubscribeValid(After(ops), Live(ops), x, q, a);
    case Unsubscribe(x) => UnsubscribeValid(After(ops), Live(ops), x);
  }

  // One more step brings a handler that is not live nothing.
  lemma SilentStep(ops: seq<Op>, h: nat, op: Op)
    requires Legal(ops + [op]) && h !in Live(ops) && h in After(ops).tickets
    ensures Inbox(After(ops + [op]), h) == Inbox(After(ops), h)
    ensures h !in Live(ops + [op]) && h in After(ops + [op]).tickets
  {
    SplitLast(ops, op);
    LegalPrefix(ops, [op]);
    HistoryValid(ops);
    match op
    case Publish(f) => PublishValid(After(ops), Live(ops), f);
    case Subscribe(x, q, a) => SubscribeValid(After(ops), Live(ops), x, q, a);
    case Unsubscribe(x) => UnsubscribeValid(After(ops), Live(ops), x);
  }

  // After it unsubscribes it receives nothing more.
  lemma {:induction false} SilentAfterUnsubscribe(pre: seq<Op>, h: nat, post: seq<Op>)
    requires Legal(pre + [Unsubscribe(h)] + post)
    ensures Inbox(After(pre + [Unsubscribe(h)] + post), h) == Inbox(After(pre), h)
    ensures h !in Live(pre + [Unsubscribe(h)] + post) && h in After(pre + [Unsubscribe(h)] + post).tickets
    decreases |post|
  {
    var start := pre + [Unsubscribe(h)];
    if post == [] {
      assert start + post == start;
      LegalPrefix(pre, [Unsubscribe(h)]);
      HistoryValid(pre);
      SplitLast(pre, Unsubscribe(h));
      UnsubscribeValid(After(pre), Live(pre), h);
    } else {
      var init, op := post[..|post| - 1], post[|post| - 1];
      assert post == init + [op] && start + post == start + init + [op];
      LegalPrefix(start + init, [op]);
      SilentAfterUnsubscribe(pre, h, init);
      SilentStep(start + init, h, op);
    }
  }

  // ------------------------------------------------- unsubscribing twice

  predicate OfRun(hub: Hub, x: nat, r: string) { x in hub.tickets && hub.tickets[x].runId == r }

  // Handler x does not get frame f, although f is of its run.
  predicate Misses(hub: Hub, x: nat, f: Frame)
  {
    OfRun(hub, x, f.runId) && Inbox(Step(hub, Publish(f)), x) != Inbox(hub, x) + [f]
  }

  /**
    The exact condition under which unsubscribing again does harm, after any history: some
    live subscriber misses the next frame of its run if and only if the set the closure
    holds is empty and its run has subscribers again. Then all of them miss it.
  */
  lemma SecondUnsubscribe(ops: seq<Op>, h: nat)
    requires Legal(ops) && h in After(ops).tickets && h !in Live(ops)
    ensures var hub := After(ops);
      && (Harmful(hub, h) <==> exists x, f :: x in Live(ops) && Misses(Step(hub, Unsubscribe(h)), x, f))
      && (Harmful(hub, h) ==> forall x: nat, f: Frame ::
            OfRun(hub, x, f.runId) && OfRun(hub, h, f.runId) ==> Misses(Step(hub, Unsubscribe(h)), x, f))
  {
    HistoryValid(ops);
    if Harmful(After(ops), h) {
      HarmfulCutsOff(After(ops), Live(ops), h);
    } else {
      HarmlessMissesNone(After(ops), Live(ops), h);
    }
  }

  lemma HarmfulCutsOff(hub: Hub, live: set<nat>, h: nat)
    requires Valid(hub, live) && Harmful(hub, h)
    ensures exists x, f :: x in live && Misses(Step(hub, Unsubscribe(h)), x, f)
    ensures forall x: nat, f: Frame ::
      OfRun(hub, x, f.runId) && OfRun(hub, h, f.runId) ==> Misses(Step(hub, Unsubscribe(h)), x, f)
  {
    forall x: nat, f: Frame | OfRun(hub, x, f.runId) && OfRun(hub, h, f.runId)
      ensures Misses(Step(hub, Unsubscribe(h)), x, f)
    {
      CutOff(hub, h, x, f);
    }
    var r := hub.tickets[h].runId;
    var x := hub.sets[hub.subscribers[r]][0];
    assert x in hub.sets[hub.subscribers[r]];
    assert Misses(Step(hub, Unsubscribe(h)), x, Frame(r, 0, ""));
  }

  lemma HarmlessMissesNone(hub: Hub, live: set<nat>, h: nat)
    requires Valid(hub, live) && h in hub.tickets && h !in live && !Harmful(hub, h)
    ensures forall x, f :: x in live ==> !Misses(Step(hub, Unsubscribe(h)), x, f)
  {
    RepeatIsNothing(hub, live, h);
    forall x, f | x in live ensures !Misses(hub, x, f) { PublishValid(hub, live, f); }
  }

  // The run's entry is gone, so a frame of that run reaches no handler.
  lemma CutOff(hub: Hub, h: nat, x: nat, f: Frame)
    requires Harmful(hub, h) && OfRun(hub, x, f.runId) && OfRun(hub, h, f.runId)
    ensures Misses(Step(hub, Unsubscribe(h)), x, f)
  {
    assert Drop([], h) == [];
    var cut := Step(hub, Unsubscribe(h));
    assert f.runId !in cut.subscribers;
    assert |Inbox(Step(cut, Publish(f)), x)| == |Inbox(cut, x)|;
  }

  // Subscribe 0, unsubscribe 0, subscribe 1, unsubscribe 0 again: 1 misses the next frame.
  lemma DoubleUnsubscribeSilencesOther()
    ensures var ops := [Subscribe(0, "r", 0), Unsubscribe(0), Subscribe(1, "r", 0), Unsubscribe(0),
                        Publish(Frame("r", 1, "x"))];
      1 in Live(ops) && Inbox(After(ops), 1) == []
  {
    var o2 := [Subscribe(0, "r", 0), Unsubscribe(0), Subscribe(1, "r", 0)];
    var o3, f := o2 + [Unsubscribe(0)], Frame("r", 1, "x");
    SecondSubscribed();
    FirstDropsRun();
    SplitLast(o2, Unsubscribe(0));
    SplitLast(o3, Publish(f));
    assert o3 + [Publish(f)]
        == [Subscribe(0, "r", 0), Unsubscribe(0), Subscribe(1, "r", 0), Unsubscribe(0), Publish(f)];
    assert 1 in Live(o3);
  }

  function HubWith(subscribers: map<string, nat>, sets: map<nat, seq<nat>>, tickets: map<nat, Ticket>, n: nat,
                   inbox: map<nat, seq<Frame>>): Hub
  {
    Hub(Buffers([], map[]), subscribers, sets, tickets, n, inbox)
  }

  function BothCame(): Hub
  {
    HubWith(map["r" := 1], map[0 := [], 1 := [1]], map[0 := Ticket("r", 0), 1 := Ticket("r", 1)], 2,
            map[0 := [], 1 := []])
  }

  // Its set was emptied before: emptying it again drops the run's present entry.
  lemma FirstDropsRun()
    ensures Step(BothCame(), Unsubscribe(0)).subscribers == map[]
    ensures Step(BothCame(), Unsubscribe(0)).inbox == map[0 := [], 1 := []]
  {
    assert Drop([], 0) == [];
  }

  lemma FirstSubscribes()
    ensures Step(NewHub(), Subscribe(0, "r", 0))
         == HubWith(map["r" := 0], map[0 := [0]], map[0 := Ticket("r", 0)], 1, map[0 := []])
  {
    assert Replayed(Retained(Buffers([], map[]), "r"), 0) == [];
    assert [] + [0] == [0];
  }

  lemma FirstLeaves()
    ensures Step(HubWith(map["r" := 0], map[0 := [0]], map[0 := Ticket("r", 0)], 1, map[0 := []]), Unsubscribe(0))
         == HubWith(map[], map[0 := []], map[0 := Ticket("r", 0)], 1, map[0 := []])
  {
    assert Drop([0], 0) == [];
    assert map["r" := 0 as nat] - {"r"} == map[];
  }

  lemma SecondSubscribes()
    ensures Step(HubWith(map[], map[0 := []], map[0 := Ticket("r", 0)], 1, map[0 := []]), Subscribe(1, "r", 0))
         == BothCame()
  {
    assert Replayed(Retained(Buffers([], map[]), "r"), 0) == [];
    assert [] + [1] == [1];
  }

  lemma SecondSubscribed()
    ensures var ops := [Subscribe(0, "r", 0), Unsubscribe(0), Subscribe(1, "r", 0)];
      1 in Live(ops) && After(ops) == BothCame()
  {
    var o0, o1 := [Subscribe(0, "r", 0)], [Subscribe(0, "r", 0), Unsubscribe(0)];
    assert o0 == [] + [Subscribe(0, "r", 0)] && o1 == o0 + [Unsubscribe(0)];
    assert o1 + [Subscribe(1, "r", 0)] == [Subscribe(0, "r", 0), Unsubscribe(0), Subscribe(1, "r", 0)];
    SplitLast([], Subscribe(0, "r", 0));
    SplitLast(o0, Unsubscribe(0));
    SplitLast(o1, Subscribe(1, "r", 0));
    FirstSubscribes();
    FirstLeaves();
    SecondSubscribes();
  }

  // ------------------------------------------------------ the source's form

  class Transport {
    var order: seq<string>             // the keys of `frames`, least recently published first
    var frames: map<string, seq<Frame>>
    var subscribers: map<string, nat>
    var sets: map<nat, seq<nat>>
    var tickets: map<nat, Ticket>
    var nextSet: nat
    var inbox: map<nat, seq<Frame>>    // what each handler has been called with
    const throws: (nat, Frame) -> bool // whether a handler throws, which may be any

    constructor (throws: (nat, Frame) -> bool)
      ensures Now() == NewHub() && this.throws == throws
    {
      this.throws := throws;
      order, frames, subscribers, sets, tickets, nextSet, inbox := [], map[], map[], map[], map[], 0, map[];
    }

    function Now(): Hub
      reads this
    {
      Hub(Buffers(order, frames), subscribers, sets, tickets, nextSet, inbox)
    }

    method Touch(r: string) returns (buf: seq<Frame>)
      modifies this`order, this`frames
      ensures Buffers(order, frames) == ReplayBuffer.Touch(old(Buffers(order, frames)), r)
      ensures r in frames && buf == frames[r]
    {
      if r in frames {
        buf := frames[r];
        order := Remove(order, r);
      } else {
        buf := [];
        if |order| >= MAX_TRACKED_RUNS {
          var oldest := order[0];
          order, frames := order[1..], frames - {oldest};
        }
        frames := frames[r := buf];
      }
      order := order + [r];
    }

    method PublishFrame(f: Frame)
      modifies this
      ensures Now() == Step(old(Now()), Publish(f))
    {
      var buf := Touch(f.runId);
      buf := buf + [f];
      if |buf| > MAX_FRAMES_PER_RUN { buf := buf[|buf| - MAX_FRAMES_PER_RUN..]; }
      frames := frames[f.runId := buf];
      assert Buffers(order, frames) == ReplayBuffer.Publish(old(Buffers(order, frames)), f);
      if f.runId !in subscribers || subscribers[f.runId] !in sets { return; }
      var handlers, i := sets[subscribers[f.runId]], 0;
      ghost var before := Now();
      while i < |handlers|
        invariant 0 <= i <= |handlers|
        invariant Now() == before.(inbox := inbox) && inbox == Deliver(before.inbox, handlers[..i], f)
      {
        assert handlers[..i + 1][..i] == handlers[..i];
        // Whatever comes out is caught, and the next handler is called.
        var threw := CallHandler(handlers[i], f);
        i := i + 1;
      }
      assert handlers[..i] == handlers;
    }

    // A handler that throws has been called all the same.
    method CallHandler(h: nat, f: Frame) returns (threw: bool)
      modifies this`inbox
      ensures inbox == old(inbox)[h := old(Inbox(Now(), h)) + [f]] && threw == throws(h, f)
    {
      threw := throws(h, f);
      inbox := inbox[h := (if h in inbox then inbox[h] else []) + [f]];
    }

    // The retained frames above `after`, in the order they were published.
    method Replay(h: nat, kept: seq<Frame>, after: int)
      modifies this`inbox
      ensures inbox == old(inbox)[h := old(Inbox(Now(), h)) + Replayed(kept, after)]
      ensures Missed(kept, after, Replayed(kept, after))
    {
      ghost var had := Inbox(Now(), h);
      inbox := inbox[h := if h in inbox then inbox[h] else []];
      assert had + [] == had;
      var i := 0;
      while i < |kept|
        invariant 0 <= i <= |kept|
        invariant inbox == old(inbox)[h := had + Replayed(kept[..i], after)]
      {
        assert kept[..i + 1][..i] == kept[..i];
        Regroup(had, Replayed(kept[..i], after), [kept[i]]);
        assert Replayed(kept[..i], after) + [] == Replayed(kept[..i], after);
        if kept[i].position > after { var threw := CallHandler(h, kept[i]); }
        i := i + 1;
      }
      assert kept[..i] == kept;
      ReplayedMissed(kept, after);
    }

    method SubscribeTo(h: nat, r: string, after: int)
      modifies this
      ensures Now() == Step(old(Now()), Subscribe(h, r, after))
      ensures exists missed ::
        && (r in old(frames) ==> Missed(old(frames)[r], after, missed)) && (r !in old(frames) ==> missed == [])
        && Inbox(Now(), h) == old(Inbox(Now(), h)) + missed
    {
      ghost var kept := if r in frames then frames[r] else [];
      Replay(h, if r in frames then frames[r] else [], after);
      assert Missed(kept, after, Replayed(kept, after));
      JoinRun(h, r);
    }

    // The handler is a member of the run's set from now on.
    method JoinRun(h: nat, r: string)
      modifies this`sets, this`subscribers, this`tickets, this`nextSet
      ensures var known := r in old(subscribers) && old(subscribers)[r] in old(sets);
        var s := if known then old(subscribers)[r] else old(nextSet);
        var members := if known then old(sets)[s] else [];
        && subscribers == old(subscribers)[r := s]
        && sets == old(sets)[s := if h in members then members else members + [h]]
        && tickets == old(tickets)[h := Ticket(r, s)]
        && nextSet == if known then old(nextSet) else old(nextSet) + 1
    {
      if r !in subscribers || subscribers[r] !in sets {
        sets, subscribers, nextSet := sets[nextSet := []], subscribers[r := nextSet], nextSet + 1;
      }
      var s := subscribers[r];
      sets := sets[s := if h in sets[s] then sets[s] else sets[s] + [h]];
      tickets := tickets[h := Ticket(r, s)];
      assert subscribers == old(subscribers)[r := s];
      assert sets == old(sets)[s := sets[s]];
    }

    method Unsubscriber(h: nat)
      modifies this
      ensures Now() == Step(old(Now()), Unsubscribe(h))
    {
      if h !in tickets || tickets[h].set_ !in sets { return; }
      var t := tickets[h];
      sets := sets[t.set_ := Drop(sets[t.set_], h)];
      if sets[t.set_] == [] { subscribers := subscribers - {t.runId}; }
    }
  }
}
