/**
  The transport's bounded replay buffer against the full publish history: which runs
  are tracked, in what order, and which of their frames are kept.
*/
module ReplayBuffer {
  import opened Filters

  const MAX_FRAMES_PER_RUN: nat := 1000
  const MAX_TRACKED_RUNS: nat := 1000

  // `position` is the frame's seq.
  datatype Frame = Frame(runId: string, position: int, crumb: string)

  // A Map in insertion order: `order` lists its keys, oldest first.
  datatype Buffers = Buffers(order: seq<string>, frames: map<string, seq<Frame>>)

  function IndexOf(order: seq<string>, r: string): (k: nat)
    ensures k <= |order| && (k < |order| ==> order[k] == r)
    ensures forall i :: 0 <= i < k ==> order[i] != r
  {
    if order == [] || order[0] == r then 0 else 1 + IndexOf(order[1..], r)
  }

  function Remove(order: seq<string>, r: string): seq<string>
  {
    var k := IndexOf(order, r);
    if k < |order| then order[..k] + order[k + 1..] else order
  }

  // Re-inserts the run last, admitting it (and evicting the oldest) when it is new.
  function Touch(b: Buffers, r: string): Buffers
  {
    if r in b.frames then b.(order := Remove(b.order, r) + [r])
    else
      var room := if |b.order| >= MAX_TRACKED_RUNS
                  then Buffers(b.order[1..], b.frames - {b.order[0]}) else b;
      Buffers(room.order + [r], room.frames[r := []])
  }

  function LastFrames(s: seq<Frame>): seq<Frame>
  {
    if |s| > MAX_FRAMES_PER_RUN then s[|s| - MAX_FRAMES_PER_RUN..] else s
  }

  function Publish(b: Buffers, f: Frame): Buffers
  {
    var t := Touch(b, f.runId);
    if f.runId in t.frames then t.(frames := t.frames[f.runId := LastFrames(t.frames[f.runId] + [f])]) else t
  }

  function AfterAll(history: seq<Frame>): Buffers
  {
    if history == [] then Buffers([], map[])
    else Publish(AfterAll(history[..|history| - 1]), history[|history| - 1])
  }

  // ----------------------------------------- what the full history says

  function RunsIn(s: seq<Frame>): set<string> { set f | f in s :: f.runId }

  // The index of the run's latest frame, or -1.
  function LastOf(h: seq<Frame>, r: string): (k: int)
    ensures -1 <= k < |h|
    ensures k >= 0 ==> h[k].runId == r
    ensures forall i :: k < i < |h| ==> h[i].runId != r
  {
    if h == [] then -1
    else if h[|h| - 1].runId == r then |h| - 1
    else LastOf(h[..|h| - 1], r)
  }

  // The other runs published since this one last was.
  function Since(h: seq<Frame>, r: string): set<string> { RunsIn(h[LastOf(h, r) + 1..]) }

  /**
    A run is among the 1000 most recently published distinct runs.
  */
  predicate Recent(h: seq<Frame>, r: string)
  {
    LastOf(h, r) >= 0 && |Since(h, r)| < MAX_TRACKED_RUNS
  }

  // Where the run last came (back) in: its latest frame at which it was not tracked.
  function AdmittedAt(h: seq<Frame>, r: string): (k: nat)
    ensures k <= |h|
  {
    if h == [] then 0
    else
      var n := |h| - 1;
      if h[n].runId == r && !Recent(h[..n], r) then n else AdmittedAt(h[..n], r)
  }

  function FramesOf(s: seq<Frame>, r: string): seq<Frame>
  {
    if s == [] then []
    else FramesOf(s[..|s| - 1], r) + (if s[|s| - 1].runId == r then [s[|s| - 1]] else [])
  }

  // ------------------------------------------------------------ invariant

  ghost predicate Ordered(h: seq<Frame>, order: seq<string>)
  {
    && |order| <= MAX_TRACKED_RUNS
    && Distinct(order)
    && (forall i :: 0 <= i < |order| ==> PlacedAt(h, order, i))
    && (forall r :: LastOf(h, r) >= 0 && r !in order ==> |Since(h, r)| >= MAX_TRACKED_RUNS)
  }

  predicate Distinct(order: seq<string>) { forall i, j :: 0 <= i < j < |order| ==> order[i] != order[j] }

  // The runs listed after the i-th are those published since it last was.
  ghost predicate PlacedAt(h: seq<Frame>, order: seq<string>, i: nat)
    requires i < |order|
  {
    LastOf(h, order[i]) >= 0 && Since(h, order[i]) == Names(order[i + 1..])
  }

  function Names(order: seq<string>): set<string> { set r | r in order }

  lemma LastOfStep(h: seq<Frame>, f: Frame, r: string)
    ensures LastOf(h + [f], r) == if f.runId == r then |h| else LastOf(h, r)
  {
    assert (h + [f])[..|h|] == h;
  }

  lemma SinceStep(h: seq<Frame>, f: Frame, r: string)
    ensures f.runId == r ==> Since(h + [f], r) == {}
    ensures f.runId != r ==> Since(h + [f], r) == Since(h, r) + {f.runId}
  {
    LastOfStep(h, f, r);
    var k := LastOf(h, r) + 1;
    if f.runId == r {
      assert (h + [f])[|h| + 1..] == [];
    } else {
      assert (h + [f])[k..] == h[k..] + [f];
      RunsInPush(h[k..], f);
    }
  }

  lemma RunsInPush(s: seq<Frame>, f: Frame)
    ensures RunsIn(s + [f]) == RunsIn(s) + {f.runId}
  {
    assert f in s + [f];
    forall x | x in RunsIn(s) ensures x in RunsIn(s + [f]) {
      var g :| g in s && g.runId == x;
      assert g in s + [f];
    }
  }

  lemma {:induction false} NamesSize(order: seq<string>)
    requires Distinct(order)
    ensures |Names(order)| == |order|
    decreases |order|
  {
    if order != [] {
      var init, last := order[..|order| - 1], order[|order| - 1];
      NamesSize(init);
      assert last !in Names(init);
      assert Names(order) == Names(init) + {last};
    }
  }

  lemma NamesConcat(a: seq<string>, b: seq<string>)
    ensures Names(a + b) == Names(a) + Names(b)
  {
  }

  // A list around one of its names.
  lemma RemoveParts(order: seq<string>, r: string) returns (pre: seq<string>, post: seq<string>)
    requires r in order
    ensures order == pre + [r] + post && Remove(order, r) == pre + post
  {
    var k := IndexOf(order, r);
    pre, post := order[..k], order[k + 1..];
  }

  lemma TouchOrdered(h: seq<Frame>, f: Frame, order: seq<string>)
    requires Ordered(h, order) && f.runId in order
    ensures Ordered(h + [f], Remove(order, f.runId) + [f.runId])
    ensures Names(Remove(order, f.runId) + [f.runId]) == Names(order)
  {
    var pre, post := RemoveParts(order, f.runId);
    var r, h', order' := f.runId, h + [f], pre + post + [f.runId];
    MovedNames(pre, r, post);
    forall i | 0 <= i < |order'| ensures PlacedAt(h', order', i)
    {
      if i == |order'| - 1 {
        Latest(h, f, order');
      } else {
        MovedPlace(h, f, pre, post, i);
      }
    }
    forall x | LastOf(h', x) >= 0 && x !in order' ensures |Since(h', x)| >= MAX_TRACKED_RUNS
    {
      assert x in Names(order) <==> x in Names(order');
      assert r in order';
      StillOut(h, f, order, x);
    }
  }

  lemma MovedNames(pre: seq<string>, r: string, post: seq<string>)
    ensures Names(pre + post + [r]) == Names(pre + [r] + post)
    ensures Distinct(pre + [r] + post) ==> Distinct(pre + post + [r])
  {
    NamesConcat(pre + post, [r]);
    NamesConcat(pre, post);
    NamesConcat(pre + [r], post);
    NamesConcat(pre, [r]);
    var a, b := pre + [r] + post, pre + post + [r];
    if Distinct(a) {
      var k := |pre|;
      assert forall i :: 0 <= i < |b| ==> b[i] == a[if i < k then i else if i < |b| - 1 then i + 1 else k];
    }
  }

  lemma Latest(h: seq<Frame>, f: Frame, order: seq<string>)
    requires order != [] && order[|order| - 1] == f.runId
    ensures PlacedAt(h + [f], order, |order| - 1)
  {
    SinceStep(h, f, f.runId);
    LastOfStep(h, f, f.runId);
    assert order[|order|..] == [];
  }

  // A run that stays listed and is not the published one.
  lemma StaysPlaced(h: seq<Frame>, f: Frame, order: seq<string>, was: nat, order': seq<string>, i: nat)
    requires was < |order| && i < |order'| && order[was] == order'[i] != f.runId && PlacedAt(h, order, was)
    requires Names(order'[i + 1..]) == Names(order[was + 1..]) + {f.runId}
    ensures PlacedAt(h + [f], order', i)
  {
    SinceStep(h, f, order[was]);
    LastOfStep(h, f, order[was]);
  }

  lemma MovedTail(pre: seq<string>, r: string, post: seq<string>, i: nat)
    requires i < |pre + post|
    ensures var was := if i < |pre| then i else i + 1;
      && (pre + [r] + post)[was] == (pre + post + [r])[i]
      && Names((pre + post + [r])[i + 1..]) == Names((pre + [r] + post)[was + 1..]) + {r}
  {
    if i < |pre| {
      assert (pre + [r] + post)[i + 1..] == pre[i + 1..] + [r] + post;
      assert (pre + post + [r])[i + 1..] == pre[i + 1..] + post + [r];
      MovedNames(pre[i + 1..], r, post);
      NamesConcat(pre[i + 1..] + post, [r]);
    } else {
      var j := i - |pre|;
      assert (pre + [r] + post)[i + 2..] == post[j + 1..];
      assert (pre + post + [r])[i + 1..] == post[j + 1..] + [r];
      NamesConcat(post[j + 1..], [r]);
    }
  }

  lemma MovedPlace(h: seq<Frame>, f: Frame, pre: seq<string>, post: seq<string>, i: nat)
    requires Ordered(h, pre + [f.runId] + post) && i < |pre + post|
    ensures PlacedAt(h + [f], pre + post + [f.runId], i)
  {
    var order, was := pre + [f.runId] + post, if i < |pre| then i else i + 1;
    MovedTail(pre, f.runId, post, i);
    assert order[|pre|] == f.runId && was != |pre| && PlacedAt(h, order, was);
    assert order[was] != f.runId by { assert Distinct(order); }
    StaysPlaced(h, f, order, was, pre + post + [f.runId], i);
  }

  lemma StillOut(h: seq<Frame>, f: Frame, order: seq<string>, x: string)
    requires Ordered(h, order) && x !in order && x != f.runId && LastOf(h + [f], x) >= 0
    ensures |Since(h + [f], x)| >= MAX_TRACKED_RUNS
  {
    SinceStep(h, f, x);
    LastOfStep(h, f, x);
    SubsetSize(Since(h, x), Since(h + [f], x));
  }

  lemma {:induction false} SubsetSize(a: set<string>, b: set<string>)
    requires a <= b
    ensures |a| <= |b|
  {
    assert b == a + (b - a);
  }

  // How many of the oldest runs make room: one when the map is full.
  function Room(order: seq<string>): nat
  {
    if |order| >= MAX_TRACKED_RUNS then 1 else 0
  }

  lemma AdmitOrdered(h: seq<Frame>, f: Frame, order: seq<string>)
    requires Ordered(h, order) && f.runId !in order
    ensures Ordered(h + [f], order[Room(order)..] + [f.runId])
  {
    var h', order' := h + [f], order[Room(order)..] + [f.runId];
    assert Distinct(order');
    forall i | 0 <= i < |order'| ensures PlacedAt(h', order', i)
    {
      if i == |order'| - 1 { Latest(h, f, order'); } else { AdmitPlace(h, f, order, i); }
    }
    forall x | LastOf(h', x) >= 0 && x !in order' ensures |Since(h', x)| >= MAX_TRACKED_RUNS
    {
      AdmitOut(h, f, order, x);
    }
  }

  lemma AdmitPlace(h: seq<Frame>, f: Frame, order: seq<string>, i: nat)
    requires Ordered(h, order) && f.runId !in order && i + Room(order) < |order|
    ensures PlacedAt(h + [f], order[Room(order)..] + [f.runId], i)
  {
    var was, order' := i + Room(order), order[Room(order)..] + [f.runId];
    assert PlacedAt(h, order, was);
    assert order'[i + 1..] == order[was + 1..] + [f.runId];
    NamesConcat(order[was + 1..], [f.runId]);
    StaysPlaced(h, f, order, was, order', i);
  }

  lemma AdmitOut(h: seq<Frame>, f: Frame, order: seq<string>, x: string)
    requires Ordered(h, order) && f.runId !in order && LastOf(h + [f], x) >= 0
    requires x !in order[Room(order)..] + [f.runId]
    ensures |Since(h + [f], x)| >= MAX_TRACKED_RUNS
  {
    var order' := order[Room(order)..] + [f.runId];
    assert f.runId == order'[|order'| - 1];
    if x in order {
      var i :| 0 <= i < |order| && order[i] == x;
      TailHas(order, Room(order), f.runId, i);
      assert i == 0 && |order| == MAX_TRACKED_RUNS;
      Evicted(h, f, order);
    } else {
      StillOut(h, f, order, x);
    }
  }

  // The run that makes room has 1000 others published since.
  lemma Evicted(h: seq<Frame>, f: Frame, order: seq<string>)
    requires Ordered(h, order) && f.runId !in order && |order| == MAX_TRACKED_RUNS
    ensures |Since(h + [f], order[0])| >= MAX_TRACKED_RUNS
  {
    var rest := order[1..] + [f.runId];
    assert Since(h + [f], order[0]) == Names(rest) by {
      assert PlacedAt(h, order, 0);
      SinceStep(h, f, order[0]);
      NamesConcat(order[1..], [f.runId]);
    }
    assert |Names(rest)| == |rest| by {
      DistinctTail(order, f.runId);
      NamesSize(rest);
    }
  }

  lemma TailHas(order: seq<string>, d: nat, r: string, i: nat)
    requires i < |order| && d <= |order|
    ensures i >= d ==> order[i] in order[d..] + [r]
  {
    if i >= d { assert (order[d..] + [r])[i - d] == order[i]; }
  }

  lemma DistinctTail(order: seq<string>, r: string)
    requires Distinct(order) && r !in order && order != []
    ensures Distinct(order[1..] + [r])
  {
    var rest := order[1..] + [r];
    forall i, j | 0 <= i < j < |rest| ensures rest[i] != rest[j]
    {
      assert rest[i] == order[i + 1];
    }
  }

  ghost predicate Refines(b: Buffers, h: seq<Frame>)
  {
    && Ordered(h, b.order) && b.frames.Keys == Names(b.order)
    && forall r :: r in b.frames ==> b.frames[r] == LastFrames(FramesOf(h[AdmittedAt(h, r)..], r))
  }

  lemma RecentIsListed(h: seq<Frame>, order: seq<string>, r: string)
    requires Ordered(h, order)
    ensures Recent(h, r) <==> r in order
  {
    if r in order {
      var i :| 0 <= i < |order| && order[i] == r;
      assert PlacedAt(h, order, i);
      NamesSize(order[i + 1..]);
    }
  }

  lemma KeptFrames(h: seq<Frame>, f: Frame, r: string)
    ensures r != f.runId || Recent(h, r) ==>
      && AdmittedAt(h + [f], r) == AdmittedAt(h, r)
      && FramesOf((h + [f])[AdmittedAt(h, r)..], r)
         == FramesOf(h[AdmittedAt(h, r)..], r) + (if r == f.runId then [f] else [])
    ensures r == f.runId && !Recent(h, r) ==>
      FramesOf((h + [f])[AdmittedAt(h + [f], r)..], r) == [f]
  {
    assert (h + [f])[..|h|] == h;
    var k := AdmittedAt(h, r);
    assert (h + [f])[k..] == h[k..] + [f];
    assert (h[k..] + [f])[..|h| - k] == h[k..];
    assert (h + [f])[|h|..] == [f] && [f][..0] == [];
    assert FramesOf([], r) + [f] == [f];
    assert FramesOf(h[k..], r) + [] == FramesOf(h[k..], r);
  }

  // Trimming early and trimming late leave the same frames.
  lemma TrimTwice(s: seq<Frame>, f: Frame)
    ensures LastFrames(LastFrames(s) + [f]) == LastFrames(s + [f])
  {
  }

  lemma PublishTouches(b: Buffers, f: Frame)
    requires f.runId in Touch(b, f.runId).frames
    ensures var t, b' := Touch(b, f.runId), Publish(b, f);
      && b'.order == t.order && b'.frames.Keys == t.frames.Keys
      && forall r :: r in b'.frames ==>
           b'.frames[r] == if r == f.runId then LastFrames(t.frames[r] + [f]) else t.frames[r]
  {
  }

  lemma PublishRefines(b: Buffers, h: seq<Frame>, f: Frame)
    requires Refines(b, h)
    ensures Refines(Publish(b, f), h + [f])
  {
    TouchRefines(b, h, f);
    var t, b' := Touch(b, f.runId), Publish(b, f);
    assert f.runId in t.frames by { assert t.order[|t.order| - 1] == f.runId; }
    PublishTouches(b, f);
    PublishedFrames(b, h, f, t, b');
  }

  lemma PublishedFrames(b: Buffers, h: seq<Frame>, f: Frame, t: Buffers, b': Buffers)
    requires Refines(b, h) && b'.frames.Keys == t.frames.Keys
    requires forall r :: r in t.frames ==> t.frames[r] == if r in b.frames then b.frames[r] else []
    requires forall r :: r in t.frames && r != f.runId ==> r in b.frames
    requires forall r :: r in b'.frames ==>
      b'.frames[r] == if r == f.runId then LastFrames(t.frames[r] + [f]) else t.frames[r]
    ensures forall r :: r in b'.frames ==> b'.frames[r] == LastFrames(FramesOf((h + [f])[AdmittedAt(h + [f], r)..], r))
  {
    forall r | r in b'.frames
      ensures b'.frames[r] == LastFrames(FramesOf((h + [f])[AdmittedAt(h + [f], r)..], r))
    {
      FrameRefines(b, h, f, t, r);
    }
  }

  lemma FrameRefines(b: Buffers, h: seq<Frame>, f: Frame, t: Buffers, r: string)
    requires Refines(b, h) && r in t.frames
    requires r != f.runId ==> r in b.frames
    requires t.frames[r] == if r in b.frames then b.frames[r] else []
    ensures LastFrames(FramesOf((h + [f])[AdmittedAt(h + [f], r)..], r))
         == if r == f.runId then LastFrames(t.frames[r] + [f]) else t.frames[r]
  {
    RecentIsListed(h, b.order, r);
    assert r in b.frames <==> r in b.order;
    KeptFrames(h, f, r);
    if r in b.frames {
      TrimTwice(FramesOf(h[AdmittedAt(h, r)..], r), f);
      assert FramesOf(h[AdmittedAt(h, r)..], r) + [] == FramesOf(h[AdmittedAt(h, r)..], r);
    } else {
      assert t.frames[r] + [f] == [f];
    }
  }

  lemma TouchRefines(b: Buffers, h: seq<Frame>, f: Frame)
    requires Refines(b, h)
    ensures var t := Touch(b, f.runId);
      && Ordered(h + [f], t.order) && t.frames.Keys == Names(t.order)
      && (forall r :: r in t.frames ==> t.frames[r] == if r in b.frames then b.frames[r] else [])
      && (forall r :: r in t.frames && r != f.runId ==> r in b.frames)
  {
    if f.runId in b.frames {
      TouchOrdered(h, f, b.order);
    } else {
      AdmitOrdered(h, f, b.order);
      AdmitNames(b, f.runId);
    }
  }

  lemma AdmitNames(b: Buffers, q: string)
    requires b.frames.Keys == Names(b.order) && q !in b.frames && Distinct(b.order)
    ensures Touch(b, q).frames.Keys == Names(Touch(b, q).order)
    ensures Touch(b, q).order == b.order[Room(b.order)..] + [q]
  {
    if |b.order| >= MAX_TRACKED_RUNS {
      assert b.order == [b.order[0]] + b.order[1..];
      assert Names(b.order[1..]) == Names(b.order) - {b.order[0]};
      NamesConcat(b.order[1..], [q]);
    } else {
      assert b.order[0..] == b.order;
      NamesConcat(b.order, [q]);
    }
  }

  /**
    After any history the tracked runs are exactly the (at most 1000) most recently
    published distinct runs, least recent first, and each buffer is the last at most
    1000 frames of its run since the run was last admitted.
  */
  lemma BufferRefinesHistory(h: seq<Frame>)
    ensures Refines(AfterAll(h), h)
    ensures forall r :: r in AfterAll(h).frames <==> Recent(h, r)
    ensures var order := AfterAll(h).order;
      |order| <= MAX_TRACKED_RUNS
      && forall i, j :: 0 <= i < j < |order| ==> LastOf(h, order[i]) < LastOf(h, order[j])
  {
    var b := AfterAll(h);
    AfterAllRefines(h);
    forall r ensures r in b.frames <==> Recent(h, r) { RecentIsListed(h, b.order, r); }
    forall i, j | 0 <= i < j < |b.order| ensures LastOf(h, b.order[i]) < LastOf(h, b.order[j])
    {
      LaterSince(h, b.order, i, j);
    }
  }

  lemma EmptyRefines()
    ensures Refines(Buffers([], map[]), [])
  {
    assert Names([]) == {};
    assert forall r :: LastOf([], r) == -1;
  }

  lemma AfterOneMore(h: seq<Frame>, f: Frame)
    ensures AfterAll(h + [f]) == Publish(AfterAll(h), f)
  {
    assert (h + [f])[..|h|] == h;
  }

  lemma {:induction false} AfterAllRefines(h: seq<Frame>)
    ensures Refines(AfterAll(h), h)
    decreases |h|
  {
    if h == [] {
      EmptyRefines();
    } else {
      var front, f := h[..|h| - 1], h[|h| - 1];
      assert front + [f] == h;
      AfterAllRefines(front);
      AfterOneMore(front, f);
      PublishRefines(AfterAll(front), front, f);
    }
  }

  lemma LaterSince(h: seq<Frame>, order: seq<string>, i: nat, j: nat)
    requires Ordered(h, order) && i < j < |order|
    ensures LastOf(h, order[i]) < LastOf(h, order[j])
  {
    assert PlacedAt(h, order, i);
    assert order[j] == order[i + 1..][j - i - 1];
    assert order[j] in Names(order[i + 1..]);
    var tail := h[LastOf(h, order[i]) + 1..];
    var f :| f in tail && f.runId == order[j];
    var a :| 0 <= a < |tail| && tail[a] == f;
    assert h[LastOf(h, order[i]) + 1 + a] == f;
  }

  // ------------------------------------------------- the same in plain terms

  function BelongsTo(r: string): (own: Frame -> bool)
    ensures forall f :: own(f) <==> f.runId == r
  {
    (f: Frame) => f.runId == r
  }

  lemma {:induction false} FramesOfFilter(s: seq<Frame>, r: string)
    ensures IsFilter(s, BelongsTo(r), FramesOf(s, r))
    decreases |s|
  {
    if s == [] {
      FilterNone(BelongsTo(r));
    } else {
      FramesOfFilter(s[..|s| - 1], r);
      FilterLast(s, BelongsTo(r), FramesOf(s[..|s| - 1], r));
    }
  }

  // Frame k of the history let the run in, and it was never out at a later frame of its own.
  ghost predicate LetInAt(h: seq<Frame>, r: string, k: nat)
  {
    && k < |h| && h[k].runId == r && !Recent(h[..k], r)
    && forall n :: k < n < |h| && h[n].runId == r ==> Recent(h[..n], r)
  }

  lemma LetInNow(h: seq<Frame>, f: Frame)
    requires !Recent(h, f.runId)
    ensures LetInAt(h + [f], f.runId, |h|)
  {
    assert (h + [f])[..|h|] == h;
  }

  lemma StillIn(h: seq<Frame>, f: Frame, r: string, k: nat)
    requires LetInAt(h, r, k) && (f.runId == r ==> Recent(h, r))
    ensures LetInAt(h + [f], r, k)
  {
    var next := h + [f];
    assert next[..k] == h[..k];
    forall n | k < n < |next| && next[n].runId == r ensures Recent(next[..n], r) {
      assert next[..n] == h[..n];
      if n == |h| { assert h[..n] == h; }
    }
  }

  lemma {:induction false} AdmittedIsLetIn(h: seq<Frame>, r: string)
    requires LastOf(h, r) >= 0
    ensures LetInAt(h, r, AdmittedAt(h, r))
    decreases |h|
  {
    var front, f := h[..|h| - 1], h[|h| - 1];
    assert front + [f] == h;
    if f.runId == r && !Recent(front, r) {
      LetInNow(front, f);
    } else {
      LastOfStep(front, f, r);
      AdmittedIsLetIn(front, r);
      StillIn(front, f, r, AdmittedAt(front, r));
    }
  }

  // The last 1000 of `all`, or all of them.
  ghost predicate LastThousand(all: seq<Frame>, kept: seq<Frame>)
  {
    |kept| == (if |all| > 1000 then 1000 else |all|) && kept == all[|all| - |kept|..]
  }

  /**
    A run is tracked exactly when it has been published and fewer than 1000 others have been
    since. Its buffer then holds the last 1000 of its frames from the one on that let it in: the
    latest at which it was not tracked.
  */
  lemma KeptExactly(h: seq<Frame>, r: string)
    ensures r in AfterAll(h).frames <==> LastOf(h, r) >= 0 && |RunsIn(h[LastOf(h, r) + 1..])| < 1000
    ensures r in AfterAll(h).frames ==>
      exists k: nat, own :: KeptFrom(h, r, k, own, AfterAll(h).frames[r])
  {
    TrackedOne(h, r, AfterAll(h));
    RecentMeans(h, r);
    if r in AfterAll(h).frames { KeptSince(h, r, AfterAll(h).frames[r]); }
  }

  lemma RecentMeans(h: seq<Frame>, r: string)
    ensures Recent(h, r) <==> LastOf(h, r) >= 0 && |RunsIn(h[LastOf(h, r) + 1..])| < 1000
  {
  }

  lemma TrackedOne(h: seq<Frame>, r: string, b: Buffers)
    requires b == AfterAll(h)
    ensures r in b.frames <==> Recent(h, r)
    ensures r in b.frames ==> b.frames[r] == LastFrames(FramesOf(h[AdmittedAt(h, r)..], r))
  {
    BufferRefinesHistory(h);
  }

  lemma KeptSince(h: seq<Frame>, r: string, kept: seq<Frame>)
    requires LastOf(h, r) >= 0 && kept == LastFrames(FramesOf(h[AdmittedAt(h, r)..], r))
    ensures KeptFrom(h, r, AdmittedAt(h, r), FramesOf(h[AdmittedAt(h, r)..], r), kept)
  {
    AdmittedIsLetIn(h, r);
    FramesOfFilter(h[AdmittedAt(h, r)..], r);
    LastFramesAre(FramesOf(h[AdmittedAt(h, r)..], r));
  }

  lemma LastFramesAre(all: seq<Frame>)
    ensures LastThousand(all, LastFrames(all))
  {
  }

  // Frame k let the run in, and `kept` are the last 1000 of its frames `own` from there on.
  ghost predicate KeptFrom(h: seq<Frame>, r: string, k: nat, own: seq<Frame>, kept: seq<Frame>)
  {
    LetInAt(h, r, k) && IsFilter(h[k..], BelongsTo(r), own) && LastThousand(own, kept)
  }
}
