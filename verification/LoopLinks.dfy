/**
  Keeping loop hosts and workers linked while an iteration pauses again: where the host's
  link is attached, and how every host above a new leaf is pointed at it.
*/
module LoopLinks {
  import opened Wrappers
  import opened LoopHosts
  import opened Filters

  // ------------------------------------------------------ attaching the link

  // A pipeline frame's hostLoop, for the frames of one chain, innermost first.
  type Frames = seq<Option<Link>>

  function AttachHostLoop(frames: Frames, link: Link): Frames
    requires frames != []
  {
    if |frames| > 1 then [frames[0]] + AttachHostLoop(frames[1..], link)
    else if frames[0].Some? && frames[0].value.loopId != link.loopId then frames
    else [Some(link)]
  }

  // The link a resumed worker finds: the innermost one.
  function LoopHostLinkOf(frames: Frames): Option<Link>
  {
    if frames == [] then None
    else if frames[0].Some? then frames[0]
    else LoopHostLinkOf(frames[1..])
  }

  // No frame but the outermost has a link.
  ghost predicate InnerBare(frames: Frames)
    requires frames != []
  {
    forall i :: 0 <= i < |frames| - 1 ==> frames[i].None?
  }

  // Only the outermost frame is written, and never over another loop's link. A resumed worker
  // finds what it found before, unless all inner frames are bare: then it finds what the
  // outermost now holds. So it finds the new link exactly when it found none before, or the
  // very same one, or its loop's link on the outermost frame with none inside.
  lemma {:induction false} AttachKeepsOthers(frames: Frames, link: Link)
    requires frames != []
    ensures var after, n := AttachHostLoop(frames, link), |frames| - 1;
      && |after| == |frames| && after[..n] == frames[..n]
      && after[n] == (if frames[n].Some? && frames[n].value.loopId != link.loopId then frames[n] else Some(link))
      && LoopHostLinkOf(after) == (if InnerBare(frames) then after[n] else LoopHostLinkOf(frames))
    ensures var found, n := LoopHostLinkOf(frames), |frames| - 1;
      LoopHostLinkOf(AttachHostLoop(frames, link)) == Some(link) <==>
        || found == None
        || found == Some(link)
        || (InnerBare(frames) && frames[n].Some? && frames[n].value.loopId == link.loopId)
    decreases |frames|
  {
    if |frames| > 1 {
      AttachKeepsOthers(frames[1..], link);
      var after := AttachHostLoop(frames, link);
      assert after[1..] == AttachHostLoop(frames[1..], link);
      var n := |frames| - 1;
      assert after[..n] == [frames[0]] + after[1..][..n - 1];
      assert frames[..n] == [frames[0]] + frames[1..][..n - 1];
      BareInside(frames);
    }
  }

  lemma BareInside(frames: Frames)
    requires |frames| > 1
    ensures InnerBare(frames) <==> frames[0].None? && InnerBare(frames[1..])
  {
    if frames[0].None? && InnerBare(frames[1..]) {
      forall i | 0 <= i < |frames| - 1 ensures frames[i].None? {
        if i > 0 { assert frames[i] == frames[1..][i - 1]; }
      }
    }
    if InnerBare(frames) {
      forall i | 0 <= i < |frames[1..]| - 1 ensures frames[1..][i].None? { assert frames[1..][i] == frames[i + 1]; }
    }
  }

  // ------------------------------------------------------ climbing

  function HostsAt(rows: Rows, x: string): seq<string>
  {
    if x in rows && rows[x].parent.Piped? then Checkpoints(rows[x].parent.links) else []
  }

  function Checkpoints(links: seq<Link>): (ids: seq<string>)
    ensures |ids| == |links| && forall i :: 0 <= i < |links| ==> ids[i] == links[i].checkpointId
  {
    seq(|links|, i requires 0 <= i < |links| => links[i].checkpointId)
  }

  // The next checkpoint up: the supervisor, or the outermost host; "" ends the climb.
  function Up(rows: Rows, x: string): string
  {
    if x !in rows || x == "" then ""
    else
      match rows[x].parent
      case NoParent => ""
      case Supervised(c) => c
      case Piped(links) => if links == [] then "" else links[|links| - 1].checkpointId
  }

  function Climb(rows: Rows, x: string, n: nat): string
  {
    if n == 0 then x else Up(rows, Climb(rows, x, n - 1))
  }

  // Host h is named somewhere on the way up from x.
  ghost predicate Above(rows: Rows, x: string, h: string)
  {
    exists n: nat :: Climb(rows, x, n) != "" && h in HostsAt(rows, Climb(rows, x, n))
  }

  // The same walk, stopped at the first checkpoint met twice.
  function HostsAbove(rows: Rows, x: string, seen: set<string>): seq<string>
    decreases rows.Keys - seen
  {
    if x == "" || x in seen || x !in rows then []
    else HostsAt(rows, x) + HostsAbove(rows, Up(rows, x), seen + {x})
  }

  ghost function Visited(rows: Rows, x: string, seen: set<string>): set<string>
    decreases rows.Keys - seen
  {
    if x == "" || x in seen || x !in rows then {}
    else {x} + Visited(rows, Up(rows, x), seen + {x})
  }

  // Nothing is missed by stopping: all that was visited leads only to visited ones.
  lemma {:induction false} VisitedClosed(rows: Rows, x: string, seen: set<string>)
    ensures forall v :: v in Visited(rows, x, seen) ==>
      v in rows && v != "" && (var u := Up(rows, v); u == "" || u !in rows || u in Visited(rows, x, seen) + seen)
    ensures x == "" || x !in rows || x in Visited(rows, x, seen) + seen
    ensures forall h :: h in HostsAbove(rows, x, seen) <==>
      exists v :: v in Visited(rows, x, seen) && h in HostsAt(rows, v)
    decreases rows.Keys - seen
  {
    if x == "" || x in seen || x !in rows {
    } else {
      var u, next := Up(rows, x), seen + {x};
      VisitedClosed(rows, u, next);
      var visited, rest := Visited(rows, x, seen), Visited(rows, u, next);
      forall h ensures h in HostsAbove(rows, x, seen) <==> exists v :: v in visited && h in HostsAt(rows, v) {
        if h in HostsAt(rows, x) {
          assert x in visited;
        } else if h in HostsAbove(rows, u, next) {
          var v :| v in rest && h in HostsAt(rows, v);
          assert v in visited;
        }
      }
    }
  }

  lemma {:induction false} ClimbVisited(rows: Rows, x: string, n: nat)
    ensures var c := Climb(rows, x, n); c == "" || c !in rows || c in Visited(rows, x, {})
    decreases n
  {
    VisitedClosed(rows, x, {});
    if n > 0 { ClimbVisited(rows, x, n - 1); }
  }

  lemma {:induction false} VisitedClimbed(rows: Rows, start: string, n: nat, seen: set<string>, v: string)
    requires v in Visited(rows, Climb(rows, start, n), seen)
    ensures exists m: nat :: Climb(rows, start, m) == v
    decreases rows.Keys - seen
  {
    var x := Climb(rows, start, n);
    if v == x {
    } else {
      assert Climb(rows, start, n + 1) == Up(rows, x);
      VisitedClimbed(rows, start, n + 1, seen + {x}, v);
    }
  }

  // The walk with its guard against cycles finds exactly the hosts above.
  lemma HostsAboveExact(rows: Rows, x: string, h: string)
    ensures h in HostsAbove(rows, x, {}) <==> Above(rows, x, h)
  {
    VisitedClosed(rows, x, {});
    if h in HostsAbove(rows, x, {}) {
      var v :| v in Visited(rows, x, {}) && h in HostsAt(rows, v);
      assert Climb(rows, x, 0) == x;
      VisitedClimbed(rows, x, 0, {}, v);
    }
    if Above(rows, x, h) {
      var n: nat :| Climb(rows, x, n) != "" && h in HostsAt(rows, Climb(rows, x, n));
      ClimbVisited(rows, x, n);
    }
  }

  // One step up, of a stored row: to its supervisor, or to the host of its outermost link.
  predicate StepsTo(rows: Rows, x: string, y: string)
  {
    x in rows &&
    match rows[x].parent
    case NoParent => false
    case Supervised(c) => y == c
    case Piped(links) => links != [] && links[|links| - 1].checkpointId == y
  }

  // A way up from x that passes no empty id.
  ghost predicate WayUp(rows: Rows, x: string, path: seq<string>)
  {
    && path != [] && path[0] == x
    && (forall i :: 0 <= i < |path| ==> path[i] != "")
    && forall i {:trigger path[i]} :: 0 <= i < |path| - 1 ==> StepsTo(rows, path[i], path[i + 1])
  }

  // A link on the row where such a way ends names h.
  ghost predicate NamedOnTheWay(rows: Rows, x: string, h: string)
  {
    exists path :: WayUp(rows, x, path) && NamedAt(rows, path[|path| - 1], h)
  }

  predicate NamedAt(rows: Rows, v: string, h: string)
  {
    v in rows && rows[v].parent.Piped? && exists k :: k in rows[v].parent.links && k.checkpointId == h
  }

  lemma NamedIsHostAt(rows: Rows, v: string, h: string)
    ensures h in HostsAt(rows, v) <==> NamedAt(rows, v, h)
  {
    if v in rows && rows[v].parent.Piped? {
      var links := rows[v].parent.links;
      if h in HostsAt(rows, v) {
        var i :| 0 <= i < |links| && Checkpoints(links)[i] == h;
        assert links[i] in links;
      }
      if NamedAt(rows, v, h) {
        var k :| k in links && k.checkpointId == h;
        var i :| 0 <= i < |links| && links[i] == k;
        assert Checkpoints(links)[i] == h;
      }
    }
  }

  lemma {:induction false} ClimbAlong(rows: Rows, x: string, path: seq<string>, n: nat)
    requires WayUp(rows, x, path) && n < |path|
    ensures Climb(rows, x, n) == path[n]
    decreases n
  {
    if n > 0 {
      ClimbAlong(rows, x, path, n - 1);
      assert StepsTo(rows, path[n - 1], path[n - 1 + 1]);
      UpIs(rows, path[n - 1], path[n]);
    }
  }

  lemma UpIs(rows: Rows, x: string, y: string)
    requires x != "" && StepsTo(rows, x, y)
    ensures Up(rows, x) == y
  {
  }

  lemma {:induction false} ClimbWay(rows: Rows, x: string, n: nat) returns (path: seq<string>)
    requires Climb(rows, x, n) != ""
    ensures WayUp(rows, x, path) && path[|path| - 1] == Climb(rows, x, n)
    decreases n
  {
    if n == 0 {
      path := [x];
    } else {
      var front := ClimbWay(rows, x, n - 1);
      path := front + [Climb(rows, x, n)];
      forall i | 0 <= i < |path| - 1 ensures StepsTo(rows, path[i], path[i + 1]) {
        if i < |front| - 1 { assert StepsTo(rows, front[i], front[i + 1]); }
      }
    }
  }

  /**
    The hosts above a checkpoint are those that a link names on the way up: from a row to its
    supervisor, or to the host of its outermost link.
  */
  lemma AboveIsNamed(rows: Rows, x: string, h: string)
    ensures h in HostsAbove(rows, x, {}) <==> NamedOnTheWay(rows, x, h)
  {
    HostsAboveExact(rows, x, h);
    if Above(rows, x, h) {
      var n: nat :| Climb(rows, x, n) != "" && h in HostsAt(rows, Climb(rows, x, n));
      var path := ClimbWay(rows, x, n);
      NamedIsHostAt(rows, Climb(rows, x, n), h);
    }
    if NamedOnTheWay(rows, x, h) {
      var path :| WayUp(rows, x, path) && NamedAt(rows, path[|path| - 1], h);
      ClimbAlong(rows, x, path, |path| - 1);
      NamedIsHostAt(rows, path[|path| - 1], h);
      assert Climb(rows, x, |path| - 1) != "";
    }
  }

  // ------------------------------------------------------ retargeting

  function LiveEntries(rows: Rows, pending: seq<string>, leaf: string, releasing: Option<string>): seq<string>
  {
    if pending == [] then []
    else
      var e := pending[|pending| - 1];
      LiveEntries(rows, pending[..|pending| - 1], leaf, releasing) +
      if Some(e) != releasing && (e == leaf || e in rows) then [e] else []
  }

  function NewPending(rows: Rows, pending: seq<string>, leaf: string, releasing: Option<string>): seq<string>
  {
    var live := LiveEntries(rows, pending, leaf, releasing);
    if leaf in live then live else live + [leaf]
  }

  predicate LoopHostWaiting(row: Row) { !row.tool.OtherTool? && row.pending != [] }

  predicate Retargets(rows: Rows, leaf: string, h: string)
  {
    h in HostsAbove(rows, leaf, {}) && h != leaf && h in rows && LoopHostWaiting(rows[h])
  }

  function NewRow(rows: Rows, leaf: string, releasing: Option<string>, id: string): Row
    requires id in rows
  {
    if Retargets(rows, leaf, id) then rows[id].(pending := NewPending(rows, rows[id].pending, leaf, releasing))
    else rows[id]
  }

  function Rewritten(rows: Rows, leaf: string, releasing: Option<string>): Rows
  {
    map id | id in rows :: NewRow(rows, leaf, releasing, id)
  }

  function Retargeted(rows: Rows, leaf: string, releasing: Option<string>): Rows
  {
    if leaf in rows then Rewritten(rows, leaf, releasing) else rows
  }

  lemma {:induction false} LiveEntriesAre(rows: Rows, pending: seq<string>, leaf: string, releasing: Option<string>)
    ensures forall e :: e in LiveEntries(rows, pending, leaf, releasing) <==>
      e in pending && Some(e) != releasing && (e == leaf || e in rows)
    decreases |pending|
  {
    if pending != [] {
      var n := |pending| - 1;
      LiveEntriesAre(rows, pending[..n], leaf, releasing);
      assert forall e :: e in pending <==> e in pending[..n] || e == pending[n];
    }
  }

  function StillWanted(rows: Rows, leaf: string, releasing: Option<string>): (keep: string -> bool)
    ensures forall e :: keep(e) <==> Some(e) != releasing && (e == leaf || e in rows)
  {
    (e: string) => Some(e) != releasing && (e == leaf || e in rows)
  }

  lemma {:induction false} LiveEntriesFilter(rows: Rows, pending: seq<string>, leaf: string, releasing: Option<string>)
    ensures IsFilter(pending, StillWanted(rows, leaf, releasing), LiveEntries(rows, pending, leaf, releasing))
    decreases |pending|
  {
    if pending == [] {
      FilterNone(StillWanted(rows, leaf, releasing));
    } else {
      var n := |pending| - 1;
      LiveEntriesFilter(rows, pending[..n], leaf, releasing);
      FilterLast(pending, StillWanted(rows, leaf, releasing), LiveEntries(rows, pending[..n], leaf, releasing));
    }
  }

  // A loop tool's row that waits for a named leaf on the way up from it.
  ghost predicate WaitsAbove(rows: Rows, leaf: string, h: string)
  {
    && h in rows && h != leaf && NamedOnTheWay(rows, leaf, h)
    && rows[h].tool in {StartLoop, IterateLoop} && rows[h].pending != []
  }

  // The children kept, in their order, and the leaf if it was not among them.
  ghost predicate PointedAt(was: seq<string>, now: seq<string>, keep: string -> bool, leaf: string)
  {
    exists live :: IsFilter(was, keep, live) && now == if leaf in live then live else live + [leaf]
  }

  /**
    Every loop host above a stored leaf then waits for the children it already waited for that
    are stored and not being released, in their order, and for that leaf, and for nothing else; no
    other row is changed, and of these rows nothing but the list.
  */
  lemma HostsPointAtStored(rows: Rows, leaf: string, releasing: Option<string>, h: string)
    requires leaf in rows && h in rows
    ensures var after := Retargeted(rows, leaf, releasing);
      && after.Keys == rows.Keys
      && (if WaitsAbove(rows, leaf, h) then
            && PointedAt(rows[h].pending, after[h].pending, StillWanted(rows, leaf, releasing), leaf)
            && (forall e :: e in after[h].pending <==>
                  e == leaf || (e in rows[h].pending && e in rows && Some(e) != releasing))
            && after[h] == rows[h].(pending := after[h].pending)
          else after[h] == rows[h])
  {
    AboveIsNamed(rows, leaf, h);
    LiveEntriesAre(rows, rows[h].pending, leaf, releasing);
    LiveEntriesFilter(rows, rows[h].pending, leaf, releasing);
  }

  // Once the released worker's row is deleted, none of those hosts has lost all children.
  lemma NoneOrphaned(rows: Rows, leaf: string, releasing: string, h: string)
    requires leaf in rows && leaf != releasing && h in rows && h != leaf
    requires WaitsAbove(rows, leaf, h)
    ensures var after := Retargeted(rows, leaf, Some(releasing)) - {releasing};
      h in after ==> exists e :: e in after[h].pending && e in after
  {
    HostsPointAtStored(rows, leaf, Some(releasing), h);
  }

  // The walk reads parents only, so writing the hosts does not change it.
  lemma {:induction false} SameHosts(rows: Rows, rows': Rows, x: string, seen: set<string>)
    requires rows.Keys == rows'.Keys && forall id :: id in rows ==> rows[id].parent == rows'[id].parent
    ensures HostsAbove(rows, x, seen) == HostsAbove(rows', x, seen)
    decreases rows.Keys - seen
  {
    if x == "" || x in seen || x !in rows {
    } else {
      SameHosts(rows, rows', Up(rows, x), seen + {x});
    }
  }

  lemma {:induction false} LiveTwice(rows: Rows, rows': Rows, pending: seq<string>, leaf: string,
                                     releasing: Option<string>)
    requires rows.Keys == rows'.Keys
    ensures var live := LiveEntries(rows, pending, leaf, releasing); LiveEntries(rows', live, leaf, releasing) == live
    decreases |pending|
  {
    if pending != [] {
      var n := |pending| - 1;
      LiveTwice(rows, rows', pending[..n], leaf, releasing);
      var front := LiveEntries(rows, pending[..n], leaf, releasing);
      var live := LiveEntries(rows, pending, leaf, releasing);
      if live != front {
        assert live == front + [pending[n]] && live[..|live| - 1] == front;
      }
    }
  }

  lemma NewPendingTwice(rows: Rows, after: Rows, pending: seq<string>, leaf: string, releasing: Option<string>)
    requires after.Keys == rows.Keys
    ensures var next := NewPending(rows, pending, leaf, releasing); NewPending(after, next, leaf, releasing) == next
  {
    var live, next := LiveEntries(rows, pending, leaf, releasing), NewPending(rows, pending, leaf, releasing);
    LiveTwice(rows, after, pending, leaf, releasing);
    if leaf !in live {
      assert next[..|next| - 1] == live;
      assert LiveEntries(after, next, leaf, releasing) == live + if Some(leaf) == releasing then [] else [leaf];
      assert live + [] == live;
    }
  }

  lemma NewRowTwice(rows: Rows, after: Rows, leaf: string, releasing: Option<string>, id: string)
    requires id in rows && after.Keys == rows.Keys && after[id] == NewRow(rows, leaf, releasing, id)
    requires HostsAbove(rows, leaf, {}) == HostsAbove(after, leaf, {})
    ensures NewRow(after, leaf, releasing, id) == after[id]
  {
    NewPendingTwice(rows, after, rows[id].pending, leaf, releasing);
  }

  // Doing it again changes nothing more.
  lemma RetargetTwice(rows: Rows, leaf: string, releasing: Option<string>)
    ensures var after := Retargeted(rows, leaf, releasing); Retargeted(after, leaf, releasing) == after
  {
    if leaf in rows {
      var after := Retargeted(rows, leaf, releasing);
      forall id | id in rows ensures rows[id].parent == after[id].parent {}
      SameHosts(rows, after, leaf, {});
      forall id | id in rows ensures NewRow(after, leaf, releasing, id) == after[id] {
        NewRowTwice(rows, after, leaf, releasing, id);
      }
    }
  }

  // ------------------------------------------------------ the source's form

  class Retargeter {
    var rows: Rows

    constructor (rows: Rows)
      ensures this.rows == rows
    {
      this.rows := rows;
    }

    method CollectHostIds(leaf: string) returns (hostIds: seq<string>)
      ensures hostIds == HostsAbove(rows, leaf, {})
    {
      var seen: set<string> := {};
      var current := leaf;
      hostIds := [];
      while current != "" && current !in seen && current in rows
        invariant hostIds + HostsAbove(rows, current, seen) == HostsAbove(rows, leaf, {})
        decreases rows.Keys - seen
      {
        var next := HostsAt(rows, current);
        assert hostIds + (next + HostsAbove(rows, Up(rows, current), seen + {current}))
          == hostIds + next + HostsAbove(rows, Up(rows, current), seen + {current});
        seen := seen + {current};
        hostIds := hostIds + next;
        current := Up(rows, current);
      }
      assert hostIds + [] == hostIds;
    }

    method RetargetLoopHostPending(leaf: string, releasing: Option<string>) returns (below: bool)
      modifies this
      ensures rows == Retargeted(old(rows), leaf, releasing)
      ensures below <==> leaf in old(rows) && exists h :: NamedOnTheWay(old(rows), leaf, h)
    {
      var hostIds := CollectHostIds(leaf);
      below := leaf in rows && hostIds != [];
      SomeAbove(rows, leaf, hostIds);
      if !below {
        if leaf in rows { AllRewritten(rows, rows, leaf, releasing, hostIds); }
        return;
      }
      var i := 0;
      while i < |hostIds|
        invariant 0 <= i <= |hostIds|
        invariant PartlyRewritten(old(rows), rows, leaf, releasing, hostIds[..i])
      {
        RewriteOne(old(rows), rows, leaf, releasing, hostIds, i);
        var h := hostIds[i];
        // A host already written is skipped: the ids are taken once each.
        if h != leaf && h in rows && h !in hostIds[..i] && LoopHostWaiting(rows[h]) {
          rows := rows[h := rows[h].(pending := NewPending(rows, rows[h].pending, leaf, releasing))];
        }
        i := i + 1;
      }
      assert hostIds[..i] == hostIds;
      AllRewritten(old(rows), rows, leaf, releasing, hostIds);
    }
  }

  lemma AllRewritten(was: Rows, rows: Rows, leaf: string, releasing: Option<string>, hostIds: seq<string>)
    requires hostIds == HostsAbove(was, leaf, {}) && PartlyRewritten(was, rows, leaf, releasing, hostIds)
    ensures rows == Rewritten(was, leaf, releasing)
  {
    forall id | id in rows ensures rows[id] == NewRow(was, leaf, releasing, id) {}
  }

  lemma SomeAbove(rows: Rows, leaf: string, hostIds: seq<string>)
    requires hostIds == HostsAbove(rows, leaf, {})
    ensures hostIds != [] <==> exists h :: NamedOnTheWay(rows, leaf, h)
  {
    if hostIds != [] {
      AboveIsNamed(rows, leaf, hostIds[0]);
      assert NamedOnTheWay(rows, leaf, hostIds[0]);
    } else {
      forall h ensures !NamedOnTheWay(rows, leaf, h) { AboveIsNamed(rows, leaf, h); }
    }
  }

  // The hosts of `done` have their new rows, all others their old ones.
  ghost predicate PartlyRewritten(was: Rows, rows: Rows, leaf: string, releasing: Option<string>, done: seq<string>)
  {
    && rows.Keys == was.Keys
    && forall id :: id in rows ==> rows[id] == if id in done then NewRow(was, leaf, releasing, id) else was[id]
  }

  lemma RewriteOne(was: Rows, rows: Rows, leaf: string, releasing: Option<string>, hostIds: seq<string>, i: nat)
    requires i < |hostIds| && hostIds == HostsAbove(was, leaf, {})
    requires PartlyRewritten(was, rows, leaf, releasing, hostIds[..i])
    ensures var h := hostIds[i];
      var next :=
        if h != leaf && h in rows && h !in hostIds[..i] && LoopHostWaiting(rows[h]) then
          rows[h := rows[h].(pending := NewPending(rows, rows[h].pending, leaf, releasing))]
        else rows;
      PartlyRewritten(was, next, leaf, releasing, hostIds[..i + 1])
  {
    var h := hostIds[i];
    assert hostIds[..i + 1] == hostIds[..i] + [h];
    assert h in hostIds;
    if h in rows { SameLive(rows, was, was[h].pending, leaf, releasing); }
  }

  lemma {:induction false} SameLive(rows: Rows, rows': Rows, pending: seq<string>, leaf: string,
                                    releasing: Option<string>)
    requires rows.Keys == rows'.Keys
    ensures LiveEntries(rows, pending, leaf, releasing) == LiveEntries(rows', pending, leaf, releasing)
    decreases |pending|
  {
    if pending != [] { SameLive(rows, rows', pending[..|pending| - 1], leaf, releasing); }
  }
}
