/**
  Stored loops and the checkpoints that point at each other: a worker names its loop
  host in `hostLoop`, the host names its workers in `pending`. Cleaning up after a
  failure is a closure over those links.
*/
module LoopHosts {
  import opened Wrappers
  import opened Filters

  datatype Link = Link(checkpointId: string, loopId: string)

  // The hostLoop links of a checkpoint's frames, innermost first, or its supervisor.
  datatype Parent = NoParent | Supervised(checkpointId: string) | Piped(links: seq<Link>)

  datatype Tool = StartLoop | IterateLoop | OtherTool

  datatype Row = Row(executionId: string, tool: Tool, pending: seq<string>, parent: Parent,
                     sessionId: string, agentId: string, runId: string)

  datatype Status = Running | Completed | Exhausted | LoopFailed

  datatype Loop = Loop(status: Status, sessionId: string, agentId: string, runId: string)

  type Rows = map<string, Row>

  // ------------------------------------------------------ following the links

  // Where a chain goes on from a checkpoint with this parent.
  function Next(p: Parent): set<string>
  {
    match p
    case NoParent => {}
    case Supervised(c) => {c} - {""}
    case Piped(links) => Targets(links) - {""}
  }

  // Closed under following supervisor and host links.
  ghost predicate ChainClosed(rows: Rows, c: set<string>)
  {
    forall x :: x in c && x in rows ==> Next(rows[x].parent) <= c
  }

  function LinksOf(rows: Rows, x: string): seq<Link>
  {
    if x in rows && rows[x].parent.Piped? then rows[x].parent.links else []
  }

  function HostIds(rows: Rows, c: set<string>): set<string>
  {
    set x, l | x in c && l in LinksOf(rows, x) :: l.checkpointId
  }

  function LinkLoops(rows: Rows, c: set<string>): set<string>
  {
    set x, l | x in c && l in LinksOf(rows, x) :: l.loopId
  }

  // Every closed set with `start` in it contains `s`.
  ghost predicate Forced(rows: Rows, start: set<string>, s: set<string>)
  {
    forall c :: start <= c && ChainClosed(rows, c) ==> s <= c
  }

  // The rows of `s` lead nowhere outside `all`.
  ghost predicate Followed(rows: Rows, s: set<string>, all: set<string>)
  {
    forall x :: x in s && x in rows ==> Next(rows[x].parent) <= all
  }

  function Targets(links: seq<Link>): set<string> { set l | l in links :: l.checkpointId }

  function Named(links: seq<Link>): set<string> { set l | l in links :: l.loopId }

  lemma TargetsAdd(links: seq<Link>, i: nat)
    requires i < |links|
    ensures Targets(links[..i + 1]) == Targets(links[..i]) + {links[i].checkpointId}
    ensures Named(links[..i + 1]) == Named(links[..i]) + {links[i].loopId}
  {
    assert links[..i + 1] == links[..i] + [links[i]];
  }

  lemma ForcedLink(rows: Rows, id: string, link: Link, s: set<string>, more: set<string>)
    requires id in rows && rows[id].parent.Piped? && link in rows[id].parent.links
    requires Forced(rows, {id}, s) && Forced(rows, {link.checkpointId} - {""}, more)
    ensures Forced(rows, {id}, s + more)
  {
    forall c | {id} <= c && ChainClosed(rows, c) ensures s + more <= c
    {
      assert {link.checkpointId} - {""} <= Next(rows[id].parent) <= c;
    }
  }

  // A supervised row adds itself to what its supervisor's chain has added.
  lemma SupervisedStep(rows: Rows, id: string, c: string, seen: set<string>, more: set<string>)
    requires id in rows && rows[id].parent == Supervised(c) && id in seen && (c != "" ==> c in seen)
    requires Followed(rows, more, seen) && Forced(rows, {c} - {""}, more)
    ensures Followed(rows, more + {id}, seen) && Forced(rows, {id}, more + {id})
    ensures HostIds(rows, more + {id}) == HostIds(rows, more) && LinkLoops(rows, more + {id}) == LinkLoops(rows, more)
  {
    forall d | {id} <= d && ChainClosed(rows, d) ensures more + {id} <= d {
      assert Next(rows[id].parent) <= d;
    }
    assert HostIds(rows, {id}) == {} && LinkLoops(rows, {id}) == {};
    HostIdsUnion(rows, more, {id});
  }

  // What the first i links and the chains behind them (`done`) have added.
  ghost predicate Collected(rows: Rows, links: seq<Link>, i: nat, done: set<string>, ids: set<string>,
                            ids': set<string>, loops: set<string>, loops': set<string>)
    requires i <= |links|
  {
    && ids' == ids + Targets(links[..i]) + HostIds(rows, done)
    && loops' == loops + Named(links[..i]) + LinkLoops(rows, done)
  }

  lemma CollectedStep(rows: Rows, links: seq<Link>, i: nat, done: set<string>, more: set<string>, ids: set<string>,
                      ids1: set<string>, ids2: set<string>, loops: set<string>, loops1: set<string>,
                      loops2: set<string>)
    requires i < |links| && Collected(rows, links, i, done, ids, ids1, loops, loops1)
    requires ids2 == ids1 + {links[i].checkpointId} + HostIds(rows, more)
    requires loops2 == loops1 + {links[i].loopId} + LinkLoops(rows, more)
    ensures Collected(rows, links, i + 1, done + more, ids, ids2, loops, loops2)
  {
    TargetsAdd(links, i);
    HostIdsUnion(rows, done, more);
  }

  // A row with its links and all that is behind them.
  lemma CollectedAll(rows: Rows, id: string, done: set<string>, ids: set<string>, ids': set<string>,
                     loops: set<string>, loops': set<string>)
    requires id in rows && rows[id].parent.Piped?
    requires var links := rows[id].parent.links; Collected(rows, links, |links|, done, ids, ids', loops, loops')
    ensures ids' == ids + HostIds(rows, {id} + done) && loops' == loops + LinkLoops(rows, {id} + done)
  {
    var links := rows[id].parent.links;
    assert links[..|links|] == links;
    HostIdsUnion(rows, {id}, done);
    HostIdsOfOne(rows, id);
  }

  lemma HostIdsOfOne(rows: Rows, id: string)
    ensures HostIds(rows, {id}) == Targets(LinksOf(rows, id))
    ensures LinkLoops(rows, {id}) == Named(LinksOf(rows, id))
  {
    assert id in {id};
  }

  // The least set that contains `start` and is closed.
  ghost predicate IsChain(rows: Rows, start: set<string>, c: set<string>)
  {
    start <= c && ChainClosed(rows, c) && Forced(rows, start, c)
  }

  // ----------------------------------------------- hosts that lost every child

  predicate IsLoopHost(row: Row) { row.tool != OtherTool && row.pending != [] }

  // A child is gone when it is being deleted or is not a row of the execution.
  predicate Gone(rows: Rows, execution: string, s: set<string>, child: string)
  {
    child in s || child !in rows || rows[child].executionId != execution
  }

  predicate Orphaned(rows: Rows, execution: string, s: set<string>, id: string)
  {
    && id in rows && rows[id].executionId == execution && IsLoopHost(rows[id])
    && forall c :: c in rows[id].pending ==> Gone(rows, execution, s, c)
  }

  ghost predicate HostClosed(rows: Rows, execution: string, s: set<string>)
  {
    forall id :: Orphaned(rows, execution, s, id) ==> id in s
  }

  // The least set with `base` in it that no host with all children gone is outside of.
  ghost predicate IsCleanup(rows: Rows, execution: string, base: set<string>, s: set<string>)
  {
    base <= s && HostClosed(rows, execution, s)
    && forall d :: base <= d && HostClosed(rows, execution, d) ==> s <= d
  }

  // There is only one of each least set.
  lemma CleanupUnique(rows: Rows, execution: string, base: set<string>, s: set<string>, s': set<string>)
    requires IsCleanup(rows, execution, base, s) && IsCleanup(rows, execution, base, s')
    ensures s == s'
  {
    assert s <= s' && s' <= s;
  }

  lemma ChainUnique(rows: Rows, start: set<string>, c: set<string>, c': set<string>)
    requires IsChain(rows, start, c) && IsChain(rows, start, c')
    ensures c == c'
  {
    assert c <= c' && c' <= c;
  }

  // A link on one of these rows names loop l.
  ghost predicate LinkNames(rows: Rows, chain: set<string>, l: string)
  {
    exists x, k :: x in chain && x in rows && rows[x].parent.Piped? && k in rows[x].parent.links && k.loopId == l
  }

  // The loop is of the session, agent and run of one of these hosts.
  ghost predicate OfAHost(rows: Rows, hosts: set<string>, loop: Loop)
  {
    exists h :: h in hosts && h in rows && rows[h].sessionId == loop.sessionId
                && rows[h].agentId == loop.agentId && rows[h].runId == loop.runId
  }

  // A running loop is failed if it is one of those given, a link on the chain names it, or it is
  // of the run of a host deleted beyond the chain; no other loop changes.
  ghost predicate LoopsCleaned(rows: Rows, loops: map<string, Loop>, loopIds: set<string>, chain: set<string>,
                               beyond: set<string>, loops': map<string, Loop>)
  {
    && loops'.Keys == loops.Keys
    && forall l :: l in loops ==>
         if loops[l].status == Running
            && (l in loopIds || LinkNames(rows, chain, l) || OfAHost(rows, beyond, loops[l]))
         then loops'[l] == loops[l].(status := LoopFailed)
         else loops'[l] == loops[l]
  }

  // Cleaning up `ids` finds the chain above them and deletes s.
  ghost predicate Cleans(rows: Rows, loops: map<string, Loop>, execution: string, loopIds: set<string>,
                         ids: set<string>, chain: set<string>, s: set<string>, rows': Rows, loops': map<string, Loop>)
  {
    && IsChain(rows, ids, chain)
    && IsCleanup(rows, execution, ids + HostIds(rows, chain), s)
    && rows' == rows - s
    && LoopsCleaned(rows, loops, loopIds, chain, s - (ids + HostIds(rows, chain)), loops')
  }

  // What is left of rows and loops when `ids` and `loopIds` are cleaned up: the hosts on the
  // chains above the ids go with them, and then the least further set of childless hosts.
  ghost predicate CleanedUp(rows: Rows, loops: map<string, Loop>, execution: string, loopIds: set<string>,
                            ids: set<string>, rows': Rows, loops': map<string, Loop>)
  {
    exists chain, s :: Cleans(rows, loops, execution, loopIds, ids, chain, s, rows', loops')
  }

  // The store alone decides what a cleanup leaves: the order of its scans does not.
  lemma CleanupDetermined(rows: Rows, loops: map<string, Loop>, execution: string, loopIds: set<string>,
                          ids: set<string>, r1: Rows, l1: map<string, Loop>, r2: Rows, l2: map<string, Loop>)
    requires CleanedUp(rows, loops, execution, loopIds, ids, r1, l1)
    requires CleanedUp(rows, loops, execution, loopIds, ids, r2, l2)
    ensures r1 == r2 && l1 == l2
  {
    var c1, s1 :| Cleans(rows, loops, execution, loopIds, ids, c1, s1, r1, l1);
    var c2, s2 :| Cleans(rows, loops, execution, loopIds, ids, c2, s2, r2, l2);
    ChainUnique(rows, ids, c1, c2);
    CleanupUnique(rows, execution, ids + HostIds(rows, c1), s1, s2);
    assert forall l :: l in loops ==> l1[l] == l2[l];
  }

  // One step up: to the supervisor of a stored row, or to a host one of its links names.
  predicate StepsUp(rows: Rows, x: string, y: string)
  {
    x in rows && y != "" &&
    match rows[x].parent
    case NoParent => false
    case Supervised(c) => y == c
    case Piped(links) => exists k :: k in links && k.checkpointId == y
  }

  ghost predicate Climb(rows: Rows, start: set<string>, path: seq<string>)
  {
    && path != [] && path[0] in start
    && forall i {:trigger path[i]} :: 0 <= i < |path| - 1 ==> StepsUp(rows, path[i], path[i + 1])
  }

  ghost predicate Reached(rows: Rows, start: set<string>, x: string)
  {
    exists path :: Climb(rows, start, path) && path[|path| - 1] == x
  }

  lemma ReachedOn(rows: Rows, start: set<string>, x: string, y: string)
    requires Reached(rows, start, x) && StepsUp(rows, x, y)
    ensures Reached(rows, start, y)
  {
    var path :| Climb(rows, start, path) && path[|path| - 1] == x;
    var next := path + [y];
    forall i | 0 <= i < |next| - 1 ensures StepsUp(rows, next[i], next[i + 1]) {
      if i < |path| - 1 { assert StepsUp(rows, path[i], path[i + 1]); }
    }
    assert Climb(rows, start, next) && next[|next| - 1] == y;
  }

  lemma {:induction false} ClimbStays(rows: Rows, start: set<string>, c: set<string>, path: seq<string>)
    requires start <= c && ChainClosed(rows, c) && Climb(rows, start, path)
    ensures path[|path| - 1] in c
    decreases |path|
  {
    var n := |path| - 1;
    if n > 0 {
      var front := path[..n];
      forall i | 0 <= i < |front| - 1 ensures StepsUp(rows, front[i], front[i + 1]) {
        assert StepsUp(rows, path[i], path[i + 1]);
      }
      ClimbStays(rows, start, c, front);
      assert StepsUp(rows, path[n - 1], path[n - 1 + 1]);
      assert path[n] in Next(rows[path[n - 1]].parent);
    }
  }

  /**
    The chain is what can be reached by climbing: from a row to its supervisor, or to the hosts
    that its frames' links name.
  */
  lemma ChainIsReached(rows: Rows, start: set<string>, chain: set<string>)
    requires IsChain(rows, start, chain)
    ensures forall x :: x in chain <==> Reached(rows, start, x)
  {
    forall x | Reached(rows, start, x) ensures x in chain {
      var path :| Climb(rows, start, path) && path[|path| - 1] == x;
      ClimbStays(rows, start, chain, path);
    }
    var reached := set x | x in chain && Reached(rows, start, x);
    forall x | x in start ensures x in reached {
      assert Climb(rows, start, [x]) && [x][|[x]| - 1] == x;
    }
    forall x | x in reached && x in rows ensures Next(rows[x].parent) <= reached {
      forall y | y in Next(rows[x].parent) ensures y in reached {
        assert StepsUp(rows, x, y);
        ReachedOn(rows, start, x, y);
      }
    }
    assert ChainClosed(rows, reached) && chain <= reached;
  }

  // No pending child of h is left: each is deleted, not stored, or of another execution.
  ghost predicate LostAll(rows: Rows, execution: string, s: set<string>, h: string)
  {
    && h in rows && rows[h].executionId == execution && rows[h].tool in {StartLoop, IterateLoop}
    && rows[h].pending != []
    && forall c :: c in rows[h].pending ==> c in s || c !in rows || rows[c].executionId != execution
  }

  /**
    What a cleanup deletes: the given ids, the hosts that a link on the chain above them names,
    and beyond these exactly the hosts of the execution that lost all their children.
  */
  lemma DeletedExactly(rows: Rows, loops: map<string, Loop>, execution: string, loopIds: set<string>,
                       ids: set<string>, chain: set<string>, s: set<string>, rows': Rows, loops': map<string, Loop>)
    requires Cleans(rows, loops, execution, loopIds, ids, chain, s, rows', loops')
    ensures forall x :: x in chain <==> Reached(rows, ids, x)
    ensures forall h :: h in rows ==>
      (h !in rows' <==>
        || h in ids
        || (exists x, k :: x in chain && x in rows && rows[x].parent.Piped? && k in rows[x].parent.links
                           && k.checkpointId == h)
        || LostAll(rows, execution, s, h))
  {
    ChainIsReached(rows, ids, chain);
    var base := ids + HostIds(rows, chain);
    forall h | h in s && h !in base ensures LostAll(rows, execution, s, h) {
      OnlyChildless(rows, execution, base, s, h);
    }
    forall h | LostAll(rows, execution, s, h) ensures h in s {
      assert Orphaned(rows, execution, s, h);
    }
    forall h ensures h in HostIds(rows, chain) <==>
      exists x, k :: x in chain && x in rows && rows[x].parent.Piped? && k in rows[x].parent.links
                     && k.checkpointId == h
    {
      if x, k :| x in chain && x in rows && rows[x].parent.Piped? && k in rows[x].parent.links && k.checkpointId == h {
        assert k in LinksOf(rows, x);
      }
    }
  }

  // The least set has no host with a child left: without it the set would be closed too.
  lemma OnlyChildless(rows: Rows, execution: string, base: set<string>, s: set<string>, h: string)
    requires IsCleanup(rows, execution, base, s) && h in s && h !in base
    ensures Orphaned(rows, execution, s, h)
  {
    if !Orphaned(rows, execution, s, h) {
      var d := s - {h};
      forall id | Orphaned(rows, execution, d, id) ensures id in d {
        assert Orphaned(rows, execution, s, id);
      }
      assert base <= d && HostClosed(rows, execution, d);
    }
  }

  /**
    After a cleanup no surviving loop host of the execution has lost all its children.
  */
  lemma SurvivorsKeepAChild(rows: Rows, loops: map<string, Loop>, execution: string, loopIds: set<string>,
                            ids: set<string>, rows': Rows, loops': map<string, Loop>, id: string)
    requires CleanedUp(rows, loops, execution, loopIds, ids, rows', loops')
    requires id in rows' && rows'[id].executionId == execution && rows'[id].tool in {StartLoop, IterateLoop}
    requires rows'[id].pending != []
    ensures exists c :: c in rows'[id].pending && c in rows' && rows'[c].executionId == execution
  {
    var chain, s :| Cleans(rows, loops, execution, loopIds, ids, chain, s, rows', loops');
    assert !Orphaned(rows, execution, s, id);
    var c :| c in rows[id].pending && !Gone(rows, execution, s, c);
    assert c in rows - s;
  }

  // ------------------------------------------------ a failing worker's hosts

  // The still-stored children of a host other than the failing one.
  function LiveOthers(rows: Rows, pending: seq<string>, failing: string): seq<string>
  {
    if pending == [] then []
    else (if pending[0] != failing && pending[0] in rows then [pending[0]] else [])
         + LiveOthers(rows, pending[1..], failing)
  }

  lemma {:induction false} LiveOthersAre(rows: Rows, pending: seq<string>, failing: string)
    ensures forall c :: c in LiveOthers(rows, pending, failing) <==> c in pending && c != failing && c in rows
    ensures |LiveOthers(rows, pending, failing)| <= |pending|
    ensures |LiveOthers(rows, pending, failing)| == |pending| ==> LiveOthers(rows, pending, failing) == pending
    decreases pending
  {
    if pending != [] {
      var rest, first := pending[1..], pending[0];
      LiveOthersAre(rows, rest, failing);
      LiveOthersCons(rows, first, rest, failing);
      assert pending == [first] + rest;
    }
  }

  lemma LiveOthersCons(rows: Rows, first: string, rest: seq<string>, failing: string)
    ensures LiveOthers(rows, [first] + rest, failing)
         == (if first != failing && first in rows then [first] else []) + LiveOthers(rows, rest, failing)
  {
    assert ([first] + rest)[1..] == rest;
  }

  lemma {:induction false} LiveOthersSame(rows: Rows, rows': Rows, pending: seq<string>, failing: string)
    requires forall c :: c in pending ==> (c in rows <==> c in rows')
    ensures LiveOthers(rows, pending, failing) == LiveOthers(rows', pending, failing)
    decreases pending
  {
    if pending != [] { LiveOthersSame(rows, rows', pending[1..], failing); }
  }

  lemma {:induction false} LiveOthersPush(rows: Rows, pending: seq<string>, c: string, failing: string)
    ensures LiveOthers(rows, pending + [c], failing)
         == LiveOthers(rows, pending, failing) + (if c != failing && c in rows then [c] else [])
    decreases pending
  {
    if pending == [] {
      assert [] + [c] == [c];
    } else {
      LiveOthersPush(rows, pending[1..], c, failing);
      assert pending + [c] == [pending[0]] + (pending[1..] + [c]);
    }
  }

  function StillThere(rows: Rows, failing: string): (keep: string -> bool)
    ensures forall c :: keep(c) <==> c != failing && c in rows
  {
    (c: string) => c != failing && c in rows
  }

  lemma {:induction false} LiveOthersFilter(rows: Rows, pending: seq<string>, failing: string)
    ensures IsFilter(pending, StillThere(rows, failing), LiveOthers(rows, pending, failing))
    decreases |pending|
  {
    var keep := StillThere(rows, failing);
    if pending == [] {
      FilterNone(keep);
    } else {
      var n := |pending| - 1;
      LiveOthersFilter(rows, pending[..n], failing);
      FilterLast(pending, keep, LiveOthers(rows, pending[..n], failing));
      LiveOthersPush(rows, pending[..n], pending[n], failing);
      assert pending[..n] + [pending[n]] == pending;
    }
  }

  // `hosts` holds every host link; pending lists name leaves and supervisors are no hosts.
  ghost predicate LinksWithin(p: Parent, hosts: set<string>)
  {
    && (p.Piped? ==> Targets(p.links) <= hosts)
    && (p.Supervised? ==> p.checkpointId !in hosts)
  }

  ghost predicate Leafy(rows: Rows, hosts: set<string>)
  {
    forall id :: id in rows ==>
      LinksWithin(rows[id].parent, hosts) && forall c :: c in rows[id].pending ==> c !in hosts
  }

  // What the walk makes of one host.
  ghost predicate HostSettled(rows: Rows, rows': Rows, failing: string, h: string)
  {
    h in rows &&
    var live := LiveOthers(rows, rows[h].pending, failing);
    if live == [] then h !in rows' else h in rows' && rows'[h] == rows[h].(pending := live)
  }

  // Where a walk leads from a parent, supervisors and hosts alike.
  function Onward(p: Parent): set<string>
  {
    match p
    case NoParent => {}
    case Supervised(c) => {c}
    case Piped(links) => Targets(links)
  }

  // A stretch of the walk: `visited` are the ids it has newly seen, of which the stored
  // hosts are settled; nothing else changes.
  ghost predicate Walked(rows: Rows, rows': Rows, hosts: set<string>, failing: string, visited: set<string>)
  {
    && (forall h :: h in visited && h in hosts && h in rows ==> HostSettled(rows, rows', failing, h))
    && (forall id :: id in rows && !(id in visited && id in hosts) ==> id in rows' && rows'[id] == rows[id])
    && rows'.Keys <= rows.Keys
  }

  // Everything behind the stored rows of `visited` is in `seen`.
  ghost predicate Pursued(rows: Rows, visited: set<string>, seen: set<string>)
  {
    forall x :: x in visited && x in rows ==> Onward(rows[x].parent) <= seen
  }

  // Nothing but what lies onward from `start` is in v.
  ghost predicate Led(rows: Rows, start: set<string>, v: set<string>)
  {
    forall c :: start <= c && Pursued(rows, c, c) ==> v <= c
  }

  // The least set that contains `start` and everything onward from its rows.
  ghost predicate IsWalk(rows: Rows, start: set<string>, v: set<string>)
  {
    start <= v && Pursued(rows, v, v) && Led(rows, start, v)
  }

  // Where a row's parent leads: to its supervisor, or to a host one of its links names.
  predicate LeadsTo(p: Parent, y: string)
  {
    match p
    case NoParent => false
    case Supervised(c) => y == c
    case Piped(links) => exists k :: k in links && k.checkpointId == y
  }

  ghost predicate Trail(rows: Rows, parent: Parent, path: seq<string>)
  {
    && path != [] && LeadsTo(parent, path[0])
    && forall i {:trigger path[i]} :: 0 <= i < |path| - 1 ==>
         path[i] in rows && LeadsTo(rows[path[i]].parent, path[i + 1])
  }

  ghost predicate TrailTo(rows: Rows, parent: Parent, x: string)
  {
    exists path :: Trail(rows, parent, path) && path[|path| - 1] == x
  }

  lemma TrailOn(rows: Rows, parent: Parent, x: string, y: string)
    requires TrailTo(rows, parent, x) && x in rows && LeadsTo(rows[x].parent, y)
    ensures TrailTo(rows, parent, y)
  {
    var path :| Trail(rows, parent, path) && path[|path| - 1] == x;
    var next := path + [y];
    forall i | 0 <= i < |next| - 1 ensures next[i] in rows && LeadsTo(rows[next[i]].parent, next[i + 1]) {
      if i < |path| - 1 { assert path[i] in rows && LeadsTo(rows[path[i]].parent, path[i + 1]); }
    }
    assert Trail(rows, parent, next) && next[|next| - 1] == y;
  }

  lemma {:induction false} TrailStays(rows: Rows, parent: Parent, v: set<string>, path: seq<string>)
    requires Onward(parent) <= v && Pursued(rows, v, v) && Trail(rows, parent, path)
    ensures path[|path| - 1] in v
    decreases |path|
  {
    var n := |path| - 1;
    if n == 0 {
      assert path[0] in Onward(parent);
    } else {
      var front := path[..n];
      forall i | 0 <= i < |front| - 1 ensures front[i] in rows && LeadsTo(rows[front[i]].parent, front[i + 1]) {
        assert path[i] in rows && LeadsTo(rows[path[i]].parent, path[i + 1]);
      }
      TrailStays(rows, parent, v, front);
      assert LeadsTo(rows[path[n - 1]].parent, path[n - 1 + 1]);
      assert path[n] in Onward(rows[path[n - 1]].parent);
    }
  }

  /**
    The walk from a parent visits exactly what can be reached from it over supervisors and the
    hosts that links name.
  */
  lemma WalkIsReached(rows: Rows, parent: Parent, v: set<string>)
    requires IsWalk(rows, Onward(parent), v)
    ensures forall x :: x in v <==> TrailTo(rows, parent, x)
  {
    forall x | TrailTo(rows, parent, x) ensures x in v {
      var path :| Trail(rows, parent, path) && path[|path| - 1] == x;
      TrailStays(rows, parent, v, path);
    }
    var reached := set x | x in v && TrailTo(rows, parent, x);
    forall x | x in Onward(parent) ensures x in reached {
      assert LeadsTo(parent, x);
      assert Trail(rows, parent, [x]) && [x][|[x]| - 1] == x;
    }
    forall x | x in reached && x in rows ensures Onward(rows[x].parent) <= reached {
      forall y | y in Onward(rows[x].parent) ensures y in reached {
        assert LeadsTo(rows[x].parent, y);
        TrailOn(rows, parent, x, y);
      }
    }
    assert Pursued(rows, reached, reached) && v <= reached;
  }

  /**
    A stored host that the walk visits goes exactly when no other child of it is stored; else it
    keeps those children, in their order, and everything else it was.
  */
  lemma HostKeepsExactly(rows: Rows, rows': Rows, hosts: set<string>, failing: string, visited: set<string>, h: string)
    requires Walked(rows, rows', hosts, failing, visited) && h in rows && h in hosts && h in visited
    ensures h in rows' <==> exists c :: c in rows[h].pending && c != failing && c in rows
    ensures h in rows' ==>
      && IsFilter(rows[h].pending, StillThere(rows, failing), rows'[h].pending)
      && rows'[h].parent == rows[h].parent && rows'[h].tool == rows[h].tool
      && rows'[h].executionId == rows[h].executionId && rows'[h].sessionId == rows[h].sessionId
      && rows'[h].agentId == rows[h].agentId && rows'[h].runId == rows[h].runId
  {
    assert HostSettled(rows, rows', failing, h);
    var live := LiveOthers(rows, rows[h].pending, failing);
    LiveOthersAre(rows, rows[h].pending, failing);
    LiveOthersFilter(rows, rows[h].pending, failing);
    if live != [] { assert live[0] in live; }
  }

  lemma WalkUnique(rows: Rows, start: set<string>, v: set<string>, v': set<string>)
    requires IsWalk(rows, start, v) && IsWalk(rows, start, v')
    ensures v == v'
  {
    assert v <= v' && v' <= v;
  }

  function LinkSet(linked: seq<Link>): set<Link> { set k | k in linked }

  function ParentLinks(p: Parent): set<Link>
  {
    if p.Piped? then LinkSet(p.links) else {}
  }

  // The links the rows of `visited` carry.
  function RowLinks(rows: Rows, visited: set<string>): set<Link>
  {
    set x, k | x in visited && k in LinksOf(rows, x) :: k
  }

  // The rows that are left have the parents they had.
  ghost predicate ParentsKept(a: Rows, b: Rows)
  {
    b.Keys <= a.Keys && forall id :: id in b ==> b[id].parent == a[id].parent
  }

  lemma WalkedKeepsParents(a: Rows, b: Rows, hosts: set<string>, failing: string, v: set<string>)
    requires Walked(a, b, hosts, failing, v)
    ensures ParentsKept(a, b)
  {
    forall id | id in b ensures b[id].parent == a[id].parent {
      if id in v && id in hosts { assert HostSettled(a, b, failing, id); }
    }
  }

  lemma FewerLinks(a: Rows, b: Rows, v: set<string>)
    requires ParentsKept(a, b)
    ensures RowLinks(b, v) <= RowLinks(a, v)
  {
    forall k | k in RowLinks(b, v) ensures k in RowLinks(a, v) {
      var x :| x in v && k in LinksOf(b, x);
      assert k in LinksOf(a, x);
    }
  }

  lemma RowLinksUnion(rows: Rows, v: set<string>, v': set<string>)
    ensures RowLinks(rows, v + v') == RowLinks(rows, v) + RowLinks(rows, v')
  {
  }

  // What lies onward later lay onward before.
  lemma LedBefore(a: Rows, b: Rows, start: set<string>, v: set<string>)
    requires ParentsKept(a, b) && Led(b, start, v)
    ensures Led(a, start, v)
  {
    forall c | start <= c && Pursued(a, c, c) ensures v <= c {
      assert Pursued(b, c, c);
    }
  }

  lemma LedUnion(rows: Rows, s: set<string>, s': set<string>, v: set<string>, v': set<string>)
    requires Led(rows, s, v) && Led(rows, s', v')
    ensures Led(rows, s + s', v + v')
  {
  }

  // One stored id, and what lies onward from its row.
  lemma LedFromOne(rows: Rows, id: string, v: set<string>)
    requires id in rows && Led(rows, Onward(rows[id].parent), v)
    ensures Led(rows, {id}, {id} + v)
  {
  }

  // A loop stops running only when a walked link names it and that link's host was deleted.
  ghost predicate OnlyOrphanedLoops(rows: Rows, rows': Rows, loops: map<string, Loop>, loops': map<string, Loop>,
                                    links: set<Link>)
  {
    && loops'.Keys == loops.Keys
    && (forall l :: l in loops ==> loops'[l] == loops[l] || FailedBy(rows, rows', loops[l], loops'[l], l, links))
  }

  ghost predicate FailedBy(rows: Rows, rows': Rows, loop: Loop, loop': Loop, id: string, links: set<Link>)
  {
    && loop.status == Running && loop' == loop.(status := LoopFailed)
    && exists k :: k in links && k.loopId == id && k.checkpointId in rows && k.checkpointId !in rows'
  }

  // The loop of a deleted host no longer runs.
  ghost predicate OrphansStopped(rows: Rows, rows': Rows, loops': map<string, Loop>, visited: set<string>,
                                 links: set<Link>)
  {
    forall h :: h in visited && h in rows && h !in rows' ==> StoppedBy(loops', h, links)
  }

  ghost predicate StoppedBy(loops: map<string, Loop>, h: string, links: set<Link>)
  {
    exists k :: k in links && k.checkpointId == h && (k.loopId in loops ==> loops[k.loopId].status != Running)
  }

  // More links than needed do no harm.
  lemma MoreLinks(a: Rows, b: Rows, la: map<string, Loop>, lb: map<string, Loop>, v: set<string>, k: set<Link>,
                  more: set<Link>)
    requires OnlyOrphanedLoops(a, b, la, lb, k) && OrphansStopped(a, b, lb, v, k) && k <= more
    ensures OnlyOrphanedLoops(a, b, la, lb, more) && OrphansStopped(a, b, lb, v, more)
  {
    forall l | l in la ensures lb[l] == la[l] || FailedBy(a, b, la[l], lb[l], l, more) {
      if lb[l] != la[l] { assert FailedBy(a, b, la[l], lb[l], l, k); }
    }
    forall h | h in v && h in a && h !in b ensures StoppedBy(lb, h, more) { assert StoppedBy(lb, h, k); }
  }

  // The links of two stretches: the second's were there for the first.
  lemma LinksTogether(a: Rows, b: Rows, hosts: set<string>, failing: string, v: set<string>, v': set<string>,
                      k: set<Link>, k': set<Link>)
    requires Walked(a, b, hosts, failing, v)
    ensures (k + RowLinks(a, v)) + (k' + RowLinks(b, v')) <= k + k' + RowLinks(a, v + v')
  {
    WalkedKeepsParents(a, b, hosts, failing, v);
    FewerLinks(a, b, v');
    RowLinksUnion(a, v, v');
  }

  lemma StretchLoops(a: Rows, b: Rows, c: Rows, la: map<string, Loop>, lb: map<string, Loop>, lc: map<string, Loop>,
                     hosts: set<string>, failing: string, v: set<string>, v': set<string>, k: set<Link>, k': set<Link>)
    requires Walked(a, b, hosts, failing, v) && Walked(b, c, hosts, failing, v') && v !! v'
    requires OnlyOrphanedLoops(a, b, la, lb, k + RowLinks(a, v)) && OrphansStopped(a, b, lb, v, k + RowLinks(a, v))
    requires OnlyOrphanedLoops(b, c, lb, lc, k' + RowLinks(b, v')) && OrphansStopped(b, c, lc, v', k' + RowLinks(b, v'))
    ensures OnlyOrphanedLoops(a, c, la, lc, k + k' + RowLinks(a, v + v'))
    ensures OrphansStopped(a, c, lc, v + v', k + k' + RowLinks(a, v + v'))
  {
    LinksTogether(a, b, hosts, failing, v, v', k, k');
    LoopsTogether(a, b, c, la, lb, lc, hosts, failing, v, v', k + RowLinks(a, v), k' + RowLinks(b, v'),
                  k + k' + RowLinks(a, v + v'));
  }

  lemma LoopsTogether(a: Rows, b: Rows, c: Rows, la: map<string, Loop>, lb: map<string, Loop>, lc: map<string, Loop>,
                      hosts: set<string>, failing: string, v: set<string>, v': set<string>, k: set<Link>, k': set<Link>,
                      all: set<Link>)
    requires Walked(a, b, hosts, failing, v) && Walked(b, c, hosts, failing, v') && v !! v' && k + k' <= all
    requires OnlyOrphanedLoops(a, b, la, lb, k) && OrphansStopped(a, b, lb, v, k)
    requires OnlyOrphanedLoops(b, c, lb, lc, k') && OrphansStopped(b, c, lc, v', k')
    ensures OnlyOrphanedLoops(a, c, la, lc, all) && OrphansStopped(a, c, lc, v + v', all)
  {
    LoopsThen(a, b, c, la, lb, lc, k, k');
    OrphansThen(a, b, c, lb, lc, hosts, failing, v, v', k, k');
    MoreLinks(a, c, la, lc, v + v', k + k', all);
  }

  lemma WalkedThen(a: Rows, b: Rows, c: Rows, hosts: set<string>, failing: string, v: set<string>, v': set<string>)
    requires Leafy(a, hosts) && Leafy(b, hosts) && v !! v'
    requires Walked(a, b, hosts, failing, v) && Walked(b, c, hosts, failing, v')
    ensures Walked(a, c, hosts, failing, v + v')
  {
    forall h | h in v + v' && h in hosts && h in a ensures HostSettled(a, c, failing, h)
    {
      if h in v {
        assert HostSettled(a, b, failing, h);
      } else {
        assert a[h] == b[h];
        LiveOthersSame(a, b, a[h].pending, failing);
      }
    }
  }

  // Two stretches keep their parents: what the second pursued was there for the first.
  lemma PursuedThen(a: Rows, b: Rows, hosts: set<string>, failing: string, v: set<string>, v': set<string>,
                    seen: set<string>, seen': set<string>)
    requires Walked(a, b, hosts, failing, v) && v !! v' && seen <= seen'
    requires Pursued(a, v, seen) && Pursued(b, v', seen')
    ensures Pursued(a, v + v', seen')
  {
  }

  lemma LoopsThen(a: Rows, b: Rows, c: Rows, la: map<string, Loop>, lb: map<string, Loop>, lc: map<string, Loop>,
                  k: set<Link>, k': set<Link>)
    requires c.Keys <= b.Keys <= a.Keys
    requires OnlyOrphanedLoops(a, b, la, lb, k) && OnlyOrphanedLoops(b, c, lb, lc, k')
    ensures OnlyOrphanedLoops(a, c, la, lc, k + k')
  {
    forall l | l in la ensures lc[l] == la[l] || FailedBy(a, c, la[l], lc[l], l, k + k')
    {
      if lb[l] != la[l] {
        assert FailedBy(a, b, la[l], lb[l], l, k);
        var x :| x in k && x.loopId == l && x.checkpointId in a && x.checkpointId !in b;
        assert x in k + k' && x.checkpointId !in c;
      } else if lc[l] != lb[l] {
        assert FailedBy(b, c, lb[l], lc[l], l, k');
        var x :| x in k' && x.loopId == l && x.checkpointId in b && x.checkpointId !in c;
        assert x in k + k' && x.checkpointId in a;
      }
    }
  }

  lemma OrphansThen(a: Rows, b: Rows, c: Rows, lb: map<string, Loop>, lc: map<string, Loop>, hosts: set<string>,
                    failing: string, v: set<string>, v': set<string>, k: set<Link>, k': set<Link>)
    requires Walked(a, b, hosts, failing, v) && Walked(b, c, hosts, failing, v') && v !! v'
    requires OrphansStopped(a, b, lb, v, k) && OrphansStopped(b, c, lc, v', k')
    requires OnlyOrphanedLoops(b, c, lb, lc, k')
    ensures OrphansStopped(a, c, lc, v + v', k + k')
  {
    forall h | h in v + v' && h in a && h !in c ensures StoppedBy(lc, h, k + k')
    {
      if h in v {
        assert h !in b;
        assert StoppedBy(lb, h, k);
        var x :| x in k && x.checkpointId == h && (x.loopId in lb ==> lb[x.loopId].status != Running);
        assert x in k + k';
      } else {
        assert StoppedBy(lc, h, k');
        var x :| x in k' && x.checkpointId == h && (x.loopId in lc ==> lc[x.loopId].status != Running);
        assert x in k + k';
      }
    }
  }

  // A loop keeps running as long as every host that a walked link names it with survives.
  lemma SurvivingLoops(rows: Rows, rows': Rows, parent: Parent, visited: set<string>, loops: map<string, Loop>,
                       loops': map<string, Loop>, l: string)
    requires OnlyOrphanedLoops(rows, rows', loops, loops', ParentLinks(parent) + RowLinks(rows, visited)) && l in loops
    requires forall k ::
      k in ParentLinks(parent) + RowLinks(rows, visited) && k.loopId == l && k.checkpointId in rows ==>
        k.checkpointId in rows'
    ensures loops'[l] == loops[l]
  {
    assert !FailedBy(rows, rows', loops[l], loops'[l], l, ParentLinks(parent) + RowLinks(rows, visited));
  }

  // Of these links, those that name loop l name it with host h.
  ghost predicate NamedBy(links: set<Link>, l: string, h: string)
  {
    forall k :: k in links && k.loopId == l ==> k.checkpointId == h
  }

  // A sibling that is still stored keeps its host, listed there, and the loops that walked
  // links name with that host only.
  lemma SiblingKeepsHost(rows: Rows, rows': Rows, parent: Parent, hosts: set<string>, failing: string,
                         visited: set<string>, loops: map<string, Loop>, loops': map<string, Loop>, h: string,
                         c: string, l: string)
    requires Leafy(rows, hosts) && Walked(rows, rows', hosts, failing, visited)
    requires OnlyOrphanedLoops(rows, rows', loops, loops', ParentLinks(parent) + RowLinks(rows, visited))
    requires h in hosts && h in rows && c in rows[h].pending && c != failing && c in rows
    ensures h in rows' && c in rows' && c in rows'[h].pending
    ensures l in loops && NamedBy(ParentLinks(parent) + RowLinks(rows, visited), l, h) ==> loops'[l] == loops[l]
  {
    LiveOthersAre(rows, rows[h].pending, failing);
    if h in visited { assert HostSettled(rows, rows', failing, h); }
    if l in loops && NamedBy(ParentLinks(parent) + RowLinks(rows, visited), l, h) {
      SurvivingLoops(rows, rows', parent, visited, loops, loops', l);
    }
  }

  // When each host stands for one loop, the loop of a deleted host no longer runs.
  lemma DeletedHostStops(rows: Rows, rows': Rows, parent: Parent, visited: set<string>, loops': map<string, Loop>,
                         link: Link)
    requires OrphansStopped(rows, rows', loops', visited, ParentLinks(parent) + RowLinks(rows, visited))
    requires link in ParentLinks(parent) + RowLinks(rows, visited) && link.loopId in loops'
    requires forall k :: k in ParentLinks(parent) + RowLinks(rows, visited) && k.checkpointId == link.checkpointId ==>
      k.loopId == link.loopId
    requires link.checkpointId in visited && link.checkpointId in rows && link.checkpointId !in rows'
    ensures loops'[link.loopId].status != Running
  {
    assert StoppedBy(loops', link.checkpointId, ParentLinks(parent) + RowLinks(rows, visited));
  }

  // ------------------------------------------------------ the source's form

  class Host {
    const execution: string
    var rows: Rows
    var loops: map<string, Loop>

    constructor (execution: string, rows: Rows, loops: map<string, Loop>)
      ensures this.execution == execution && this.rows == rows && this.loops == loops
    {
      this.execution, this.rows, this.loops := execution, rows, loops;
    }

    // Follows supervisor and host links from `id`; `seen` keeps a cycle from looping.
    method CollectLoopChain(id: string, loopIds: set<string>, toDelete: set<string>, seen: set<string>)
      returns (loopIds': set<string>, toDelete': set<string>, seen': set<string>)
      requires "" !in seen
      ensures seen <= seen' && "" !in seen' && (id != "" ==> id in seen')
      ensures Followed(rows, seen' - seen, seen') && Forced(rows, {id} - {""}, seen' - seen)
      ensures toDelete' == toDelete + HostIds(rows, seen' - seen)
      ensures loopIds' == loopIds + LinkLoops(rows, seen' - seen)
      decreases rows.Keys - seen, 1
    {
      loopIds', toDelete', seen' := loopIds, toDelete, seen;
      if id == "" || id in seen {
        assert seen' - seen == {};
        return;
      }
      seen' := seen + {id};
      assert seen' - seen == {id};
      if id !in rows { return; }
      match rows[id].parent
      case NoParent =>
      case Supervised(c) =>
        loopIds', toDelete', seen' := CollectLoopChain(c, loopIds, toDelete, seen');
        SupervisedStep(rows, id, c, seen', seen' - (seen + {id}));
        assert seen' - seen == (seen' - (seen + {id})) + {id};
      case Piped(links) =>
        loopIds', toDelete', seen' := CollectHosts(id, links, loopIds, toDelete, seen);
    }

    method CollectHosts(id: string, links: seq<Link>, loopIds: set<string>, toDelete: set<string>, seen: set<string>)
      returns (loopIds': set<string>, toDelete': set<string>, seen': set<string>)
      requires "" !in seen && id !in seen && id != "" && id in rows && rows[id].parent == Piped(links)
      ensures seen + {id} <= seen' && "" !in seen'
      ensures Followed(rows, seen' - seen, seen') && Forced(rows, {id}, seen' - seen)
      ensures toDelete' == toDelete + HostIds(rows, seen' - seen)
      ensures loopIds' == loopIds + LinkLoops(rows, seen' - seen)
      decreases rows.Keys - seen, 0
    {
      loopIds', toDelete', seen' := loopIds, toDelete, seen + {id};
      ghost var done: set<string> := {};  // what the links followed so far have added
      assert HostIds(rows, {}) == {} && LinkLoops(rows, {}) == {};
      var i := 0;
      while i < |links|
        invariant 0 <= i <= |links|
        invariant "" !in seen' && seen' == seen + {id} + done && done !! seen + {id}
        invariant Targets(links[..i]) - {""} <= seen'
        invariant Followed(rows, done, seen') && Forced(rows, {id}, done)
        invariant Collected(rows, links, i, done, toDelete, toDelete', loopIds, loopIds')
      {
        var link := links[i];
        ghost var before, ids1, loops1 := seen', toDelete', loopIds';
        loopIds', toDelete', seen' := CollectLoopChain(link.checkpointId, loopIds' + {link.loopId},
                                                       toDelete' + {link.checkpointId}, seen');
        ghost var more := seen' - before;
        CollectedStep(rows, links, i, done, more, toDelete, ids1, toDelete', loopIds, loops1, loopIds');
        TargetsAdd(links, i);
        ForcedLink(rows, id, link, done, more);
        assert seen' == seen + {id} + (done + more);
        done := done + more;
        i := i + 1;
      }
      assert links[..i] == links;
      assert seen' - seen == {id} + done;
      CollectedAll(rows, id, done, toDelete, toDelete', loopIds, loopIds');
    }
  
    // A host whose pending children are all gone goes too, until no more do.
    method CollectHostsPendingOn(loopIds: set<string>, toDelete: set<string>)
      returns (loopIds': set<string>, toDelete': set<string>)
      ensures IsCleanup(rows, execution, toDelete, toDelete')
      ensures loopIds' == loopIds + HostLoops(rows, loops, toDelete' - toDelete)
    {
      loopIds', toDelete' := loopIds, toDelete;
      assert HostLoops(rows, loops, {}) == {};
      var grew := true;
      while grew
        invariant toDelete <= toDelete'
        invariant forall d :: toDelete <= d && HostClosed(rows, execution, d) ==> toDelete' <= d
        invariant loopIds' == loopIds + HostLoops(rows, loops, toDelete' - toDelete)
        invariant !grew ==> HostClosed(rows, execution, toDelete')
        decreases rows.Keys - toDelete', grew
      {
        loopIds', toDelete', grew := OnePass(loopIds', toDelete');
      }
    }

    // One pass over the execution's checkpoints.
    method OnePass(loopIds: set<string>, toDelete: set<string>)
      returns (loopIds': set<string>, toDelete': set<string>, grew: bool)
      ensures toDelete <= toDelete' && toDelete' - toDelete <= rows.Keys
      ensures grew ==> toDelete < toDelete'
      ensures !grew ==> toDelete' == toDelete && HostClosed(rows, execution, toDelete)
      ensures forall d :: toDelete <= d && HostClosed(rows, execution, d) ==> toDelete' <= d
      ensures loopIds' == loopIds + HostLoops(rows, loops, toDelete' - toDelete)
    {
      loopIds', toDelete', grew := loopIds, toDelete, false;
      assert HostLoops(rows, loops, {}) == {};
      var all := set id | id in rows && rows[id].executionId == execution;
      var todo := all;
      while todo != {}
        invariant todo <= all && toDelete <= toDelete' && toDelete' - toDelete <= rows.Keys
        invariant grew <==> toDelete < toDelete'
        invariant !grew ==> forall id :: id in all - todo && Orphaned(rows, execution, toDelete', id) ==>
          id in toDelete'
        invariant forall d :: toDelete <= d && HostClosed(rows, execution, d) ==> toDelete' <= d
        invariant loopIds' == loopIds + HostLoops(rows, loops, toDelete' - toDelete)
        decreases todo
      {
        var id :| id in todo;
        todo := todo - {id};
        if id !in toDelete' && Orphaned(rows, execution, toDelete', id) {
          OrphanForced(rows, execution, toDelete, toDelete', id);
          HostLoopsAdd(rows, loops, toDelete' - toDelete, id);
          assert toDelete' + {id} - toDelete == (toDelete' - toDelete) + {id};
          toDelete', grew := toDelete' + {id}, true;
          loopIds' := loopIds' + RunningLoops(loops, rows[id]);
        }
      }
    }

    method MarkLoopFailed(loopId: string)
      modifies this`loops
      ensures loops == FailLoops(old(loops), {loopId})
    {
      if loopId !in loops || loops[loopId].status != Running { return; }
      loops := loops[loopId := loops[loopId].(status := LoopFailed)];
    }

    /**
      failOpenLoops: deletes the given checkpoints, the loop hosts their chains lead to,
      and then the least further set of hosts without children; fails the loops named
      on the way.
    */
    method FailOpenLoops(loopIds: seq<string>, checkpointIds: seq<string>)
      modifies this
      ensures CleanedUp(old(rows), old(loops), execution, (set id | id in loopIds) - {""},
                        (set id | id in checkpointIds) - {""}, rows, loops)
    {
      var failing, toDelete := (set id | id in loopIds) - {""}, (set id | id in checkpointIds) - {""};
      ghost var ids := toDelete;
      var named, chain;
      named, toDelete, chain := CollectLeaves(toDelete);
      failing := failing + named;
      ghost var base := toDelete;
      failing, toDelete := CollectHostsPendingOn(failing, toDelete);
      FailAll(failing);
      rows := rows - toDelete;
      assert IsChain(old(rows), ids, chain) && base == ids + HostIds(old(rows), chain);
      assert IsCleanup(old(rows), execution, base, toDelete);
      FailedAre(old(rows), old(loops), (set id | id in loopIds) - {""}, chain, toDelete - base, loops);
      assert Cleans(old(rows), old(loops), execution, (set id | id in loopIds) - {""}, ids, chain, toDelete, rows,
                    loops);
    }

    method CollectLeaves(ids: set<string>) returns (loopIds: set<string>, toDelete: set<string>, seen: set<string>)
      requires "" !in ids
      ensures IsChain(rows, ids, seen)
      ensures toDelete == ids + HostIds(rows, seen) && loopIds == LinkLoops(rows, seen)
    {
      loopIds, toDelete, seen := {}, ids, {};
      assert HostIds(rows, {}) == {} && LinkLoops(rows, {}) == {};
      var todo := ids;
      while todo != {}
        invariant todo <= ids && "" !in seen && ids - todo <= seen
        invariant Followed(rows, seen, seen) && Forced(rows, ids, seen)
        invariant toDelete == ids + HostIds(rows, seen) && loopIds == LinkLoops(rows, seen)
        decreases todo
      {
        var leaf :| leaf in todo;
        ghost var before := seen;
        todo := todo - {leaf};
        loopIds, toDelete, seen := CollectLoopChain(leaf, loopIds, toDelete, seen);
        assert seen == before + (seen - before);
        HostIdsUnion(rows, before, seen - before);
        ForcedLeaf(rows, ids, leaf, before, seen - before);
      }
    }

    method FailAll(failing: set<string>)
      modifies this`loops
      ensures loops == FailLoops(old(loops), failing)
    {
      var todo := failing;
      assert FailLoops(loops, {}) == loops;
      while todo != {}
        invariant todo <= failing && loops == FailLoops(old(loops), failing - todo)
        decreases todo
      {
        var id :| id in todo;
        MarkLoopFailed(id);
        assert failing - (todo - {id}) == (failing - todo) + {id};
        todo := todo - {id};
      }
      assert failing - todo == failing;
    }

    // What a stretch of the walk leaves, from the rows and loops it found. The links it acts on
    // are `links` and those of the rows it has visited.
    twostate predicate Dropped(hosts: set<string>, failing: string, visited: set<string>, seen: set<string>,
                               links: set<Link>)
      reads this
    {
      && Leafy(rows, hosts)
      && Walked(old(rows), rows, hosts, failing, visited) && Pursued(old(rows), visited, seen)
      && OnlyOrphanedLoops(old(rows), rows, old(loops), loops, links + RowLinks(old(rows), visited))
      && OrphansStopped(old(rows), rows, loops, visited, links + RowLinks(old(rows), visited))
    }

    /**
      dropPendingLoopHosts: walks the hosts above a failing worker, and no others. A host
      keeps exactly its still-stored other children, or goes, and its loop with it, when
      there is none.
    */
    method DropPendingLoopHosts(parent: Parent, failing: string, seen: set<string>, ghost hosts: set<string>)
      returns (seen': set<string>)
      requires LinksWithin(parent, hosts) && Leafy(rows, hosts)
      modifies this
      ensures seen <= seen' && Onward(parent) <= seen' && Led(old(rows), Onward(parent), seen' - seen)
      ensures Dropped(hosts, failing, seen' - seen, seen', ParentLinks(parent))
      ensures seen == {} ==> IsWalk(old(rows), Onward(parent), seen')
      decreases rows.Keys - seen, 1
    {
      seen' := seen;
      match parent
      case NoParent =>
        assert seen' - seen == {};
        NoStretch(rows, loops, hosts, failing, seen);
      case Supervised(c) => seen' := DropSupervised(c, failing, seen, hosts);
      case Piped(linked) =>
        seen' := DropLinkedHosts(linked, failing, seen, hosts);
        assert ParentLinks(parent) == LinkSet(linked);
      assert seen == {} ==> seen' - seen == seen';
    }

    method DropSupervised(c: string, failing: string, seen: set<string>, ghost hosts: set<string>)
      returns (seen': set<string>)
      requires c !in hosts && Leafy(rows, hosts)
      modifies this
      ensures seen + {c} <= seen' && Led(old(rows), {c}, seen' - seen)
      ensures Dropped(hosts, failing, seen' - seen, seen', {})
      decreases rows.Keys - seen, 0, 0, 0
    {
      seen' := seen;
      if c in seen {
        assert seen' - seen == {};
        NoStretch(rows, loops, hosts, failing, seen);
        return;
      }
      seen' := seen + {c};
      assert seen' - seen == {c};
      if c !in rows {
        NotStored(rows, loops, hosts, failing, c, seen');
        return;
      }
      ghost var parent := rows[c].parent;
      seen' := DropPendingLoopHosts(rows[c].parent, failing, seen', hosts);
      ghost var v := seen' - (seen + {c});
      assert seen' - seen == {c} + v;
      LedFromOne(old(rows), c, v);
      Supervisor(old(rows), rows, old(loops), loops, hosts, failing, c, v, seen');
    }

    method DropLinkedHosts(linked: seq<Link>, failing: string, seen: set<string>, ghost hosts: set<string>)
      returns (seen': set<string>)
      requires Targets(linked) <= hosts && Leafy(rows, hosts)
      modifies this
      ensures seen <= seen' && Targets(linked) <= seen' && Led(old(rows), Targets(linked), seen' - seen)
      ensures Dropped(hosts, failing, seen' - seen, seen', LinkSet(linked))
      decreases rows.Keys - seen, 0, |linked| + 1
    {
      seen' := seen;
      assert seen' - seen == {} && LinkSet(linked[..0]) == {};
      NoStretch(rows, loops, hosts, failing, seen);
      var i := 0;
      while i < |linked|
        invariant 0 <= i <= |linked| && seen <= seen'
        invariant Targets(linked[..i]) <= seen' && Led(old(rows), Targets(linked[..i]), seen' - seen)
        invariant Dropped(hosts, failing, seen' - seen, seen', LinkSet(linked[..i]))
      {
        TargetsAdd(linked, i);
        LinkSetAdd(linked, i);
        ghost var v := seen' - seen;
        if linked[i].checkpointId !in seen' {
          assert linked[i].checkpointId in Targets(linked);
          ghost var before, mid, midLoops := seen', rows, loops;
          seen' := DropHost(linked[i], failing, seen', hosts);
          ghost var v' := seen' - before;
          WalkedKeepsParents(old(rows), mid, hosts, failing, v);
          LedBefore(old(rows), mid, {linked[i].checkpointId}, v');
          LedUnion(old(rows), Targets(linked[..i]), {linked[i].checkpointId}, v, v');
          WalkedThen(old(rows), mid, rows, hosts, failing, v, v');
          PursuedThen(old(rows), mid, hosts, failing, v, v', before, seen');
          StretchLoops(old(rows), mid, rows, old(loops), midLoops, loops, hosts, failing, v, v', LinkSet(linked[..i]),
                       {linked[i]});
          assert seen' - seen == v + v';
        } else {
          MoreLinks(old(rows), rows, old(loops), loops, v, LinkSet(linked[..i]) + RowLinks(old(rows), v),
                    LinkSet(linked[..i + 1]) + RowLinks(old(rows), v));
        }
        i := i + 1;
      }
      assert linked[..i] == linked;
    }

    method DropHost(link: Link, failing: string, seen: set<string>, ghost hosts: set<string>)
      returns (seen': set<string>)
      requires link.checkpointId in hosts && link.checkpointId !in seen && Leafy(rows, hosts)
      modifies this
      ensures seen + {link.checkpointId} <= seen' && Led(old(rows), {link.checkpointId}, seen' - seen)
      ensures Dropped(hosts, failing, seen' - seen, seen', {link})
      decreases rows.Keys - seen, 0, 0
    {
      var h := link.checkpointId;
      seen' := seen + {h};
      assert seen' - seen == {h};
      if h !in rows {
        NotStored(rows, loops, hosts, failing, h, seen');
        MoreLinks(rows, rows, loops, loops, {h}, RowLinks(rows, {h}), {link} + RowLinks(rows, {h}));
        return;
      }
      var parent := rows[h].parent;
      DropOne(link, failing, hosts);
      ghost var mid, midLoops := rows, loops;
      seen' := DropPendingLoopHosts(parent, failing, seen', hosts);
      ghost var v := seen' - (seen + {h});
      assert seen' - seen == {h} + v;
      WalkedKeepsParents(old(rows), mid, hosts, failing, {h});
      LedBefore(old(rows), mid, Onward(parent), v);
      LedFromOne(old(rows), h, v);
      HostAndOnward(old(rows), mid, rows, old(loops), midLoops, loops, hosts, failing, link, v, seen, seen');
    }

    // One stored host: drop the failing child, or the host when it was the last live one.
    method DropOne(link: Link, failing: string, ghost hosts: set<string>)
      requires link.checkpointId in hosts && link.checkpointId in rows && Leafy(rows, hosts)
      modifies this
      ensures Leafy(rows, hosts) && Walked(old(rows), rows, hosts, failing, {link.checkpointId})
      ensures OnlyOrphanedLoops(old(rows), rows, old(loops), loops, {link})
      ensures OrphansStopped(old(rows), rows, loops, {link.checkpointId}, {link})
    {
      var h := link.checkpointId;
      var host := rows[h];
      var live := LivePending(host.pending, failing);
      LiveOthersAre(rows, host.pending, failing);
      if live == [] {
        rows := rows - {h};
        MarkLoopFailed(link.loopId);
        assert link in {link};
      } else if |live| != |host.pending| {
        rows := rows[h := host.(pending := live)];
      }
      assert HostSettled(old(rows), rows, failing, h);
    }

    method LivePending(pending: seq<string>, failing: string) returns (live: seq<string>)
      ensures live == LiveOthers(rows, pending, failing)
    {
      live := [];
      var i := 0;
      while i < |pending|
        invariant 0 <= i <= |pending|
        invariant live + LiveOthers(rows, pending[i..], failing) == LiveOthers(rows, pending, failing)
      {
        assert pending[i..][0] == pending[i] && pending[i..][1..] == pending[i + 1..];
        if pending[i] != failing && pending[i] in rows { live := live + [pending[i]]; }
        i := i + 1;
      }
    }
  }

  lemma LinkSetAdd(linked: seq<Link>, i: nat)
    requires i < |linked|
    ensures LinkSet(linked[..i + 1]) == LinkSet(linked[..i]) + {linked[i]}
  {
    assert linked[..i + 1] == linked[..i] + [linked[i]];
  }

  // Before the first step nothing has changed.
  lemma NoStretch(rows: Rows, loops: map<string, Loop>, hosts: set<string>, failing: string, seen: set<string>)
    ensures Walked(rows, rows, hosts, failing, {}) && Pursued(rows, {}, seen) && Led(rows, {}, {})
    ensures forall links ::
      OnlyOrphanedLoops(rows, rows, loops, loops, links) && OrphansStopped(rows, rows, loops, {}, links)
  {
  }

  // An id that is not stored leads nowhere.
  lemma NotStored(rows: Rows, loops: map<string, Loop>, hosts: set<string>, failing: string, id: string,
                  seen: set<string>)
    requires id !in rows
    ensures Walked(rows, rows, hosts, failing, {id}) && Pursued(rows, {id}, seen) && Led(rows, {id}, {id})
    ensures forall links ::
      OnlyOrphanedLoops(rows, rows, loops, loops, links) && OrphansStopped(rows, rows, loops, {id}, links)
  {
  }

  // A supervisor is passed through: its row stays, and its parent's links are its own.
  lemma Supervisor(a: Rows, b: Rows, la: map<string, Loop>, lb: map<string, Loop>, hosts: set<string>, failing: string,
                   c: string, v: set<string>, seen: set<string>)
    requires c in a && c !in hosts && Onward(a[c].parent) <= seen
    requires Walked(a, b, hosts, failing, v) && Pursued(a, v, seen)
    requires OnlyOrphanedLoops(a, b, la, lb, ParentLinks(a[c].parent) + RowLinks(a, v))
    requires OrphansStopped(a, b, lb, v, ParentLinks(a[c].parent) + RowLinks(a, v))
    ensures Walked(a, b, hosts, failing, {c} + v) && Pursued(a, {c} + v, seen)
    ensures OnlyOrphanedLoops(a, b, la, lb, RowLinks(a, {c} + v))
      && OrphansStopped(a, b, lb, {c} + v, RowLinks(a, {c} + v))
  {
    RowLinksUnion(a, {c}, v);
    OwnLinks(a, c);
    MoreLinks(a, b, la, lb, v, ParentLinks(a[c].parent) + RowLinks(a, v), RowLinks(a, {c} + v));
  }

  lemma OwnLinks(rows: Rows, id: string)
    requires id in rows
    ensures ParentLinks(rows[id].parent) <= RowLinks(rows, {id})
  {
    forall k | k in ParentLinks(rows[id].parent) ensures k in RowLinks(rows, {id}) {
      assert k in LinksOf(rows, id);
    }
  }

  // A host is settled, and then the walk goes on from the parent it had.
  lemma HostAndOnward(a: Rows, b: Rows, c: Rows, la: map<string, Loop>, lb: map<string, Loop>, lc: map<string, Loop>,
                      hosts: set<string>, failing: string, link: Link, v: set<string>, seen: set<string>,
                      seen': set<string>)
    requires Leafy(a, hosts) && Leafy(b, hosts)
    requires link.checkpointId in a && link.checkpointId !in v && Onward(a[link.checkpointId].parent) <= seen'
    requires Walked(a, b, hosts, failing, {link.checkpointId}) && Walked(b, c, hosts, failing, v)
      && Pursued(b, v, seen')
    requires OnlyOrphanedLoops(a, b, la, lb, {link}) && OrphansStopped(a, b, lb, {link.checkpointId}, {link})
    requires OnlyOrphanedLoops(b, c, lb, lc, ParentLinks(a[link.checkpointId].parent) + RowLinks(b, v))
    requires OrphansStopped(b, c, lc, v, ParentLinks(a[link.checkpointId].parent) + RowLinks(b, v))
    ensures Walked(a, c, hosts, failing, {link.checkpointId} + v) && Pursued(a, {link.checkpointId} + v, seen')
    ensures OnlyOrphanedLoops(a, c, la, lc, {link} + RowLinks(a, {link.checkpointId} + v))
    ensures OrphansStopped(a, c, lc, {link.checkpointId} + v, {link} + RowLinks(a, {link.checkpointId} + v))
  {
    var h := link.checkpointId;
    WalkedThen(a, b, c, hosts, failing, {h}, v);
    PursuedThen(a, b, hosts, failing, {h}, v, seen', seen');
    LinksOnward(a, b, hosts, failing, link, v);
    LoopsTogether(a, b, c, la, lb, lc, hosts, failing, {h}, v, {link}, ParentLinks(a[h].parent) + RowLinks(b, v),
                  {link} + RowLinks(a, {h} + v));
  }

  lemma LinksOnward(a: Rows, b: Rows, hosts: set<string>, failing: string, link: Link, v: set<string>)
    requires link.checkpointId in a && Walked(a, b, hosts, failing, {link.checkpointId})
    ensures {link} + (ParentLinks(a[link.checkpointId].parent) + RowLinks(b, v))
         <= {link} + RowLinks(a, {link.checkpointId} + v)
  {
    WalkedKeepsParents(a, b, hosts, failing, {link.checkpointId});
    FewerLinks(a, b, v);
    OwnLinks(a, link.checkpointId);
    RowLinksUnion(a, {link.checkpointId}, v);
  }

  // The loops of the run a host belongs to that are still running.
  function RunningLoops(loops: map<string, Loop>, host: Row): set<string>
  {
    set l | l in loops && loops[l].status == Running && loops[l].sessionId == host.sessionId
            && loops[l].agentId == host.agentId && loops[l].runId == host.runId
  }

  function HostLoops(rows: Rows, loops: map<string, Loop>, ids: set<string>): set<string>
  {
    set id, l | id in ids && id in rows && l in RunningLoops(loops, rows[id]) :: l
  }

  lemma HostLoopsAdd(rows: Rows, loops: map<string, Loop>, ids: set<string>, id: string)
    requires id in rows
    ensures HostLoops(rows, loops, ids + {id}) == HostLoops(rows, loops, ids) + RunningLoops(loops, rows[id])
  {
    assert id in ids + {id};
  }

  function FailLoops(loops: map<string, Loop>, ids: set<string>): map<string, Loop>
  {
    map l | l in loops :: if l in ids && loops[l].status == Running then loops[l].(status := LoopFailed) else loops[l]
  }

  // The loops collected are those a link names and those of the deleted hosts' runs.
  lemma FailedAre(rows: Rows, loops: map<string, Loop>, loopIds: set<string>, chain: set<string>, beyond: set<string>,
                  loops': map<string, Loop>)
    requires loops' == FailLoops(loops, loopIds + LinkLoops(rows, chain) + HostLoops(rows, loops, beyond))
    ensures LoopsCleaned(rows, loops, loopIds, chain, beyond, loops')
  {
    forall l | l in loops && loops[l].status == Running
      ensures l in LinkLoops(rows, chain) <==> LinkNames(rows, chain, l)
      ensures l in HostLoops(rows, loops, beyond) <==> OfAHost(rows, beyond, loops[l])
    {
      if l in LinkLoops(rows, chain) {
        var x, k :| x in chain && k in LinksOf(rows, x) && k.loopId == l;
      }
      if LinkNames(rows, chain, l) {
        var x, k :| x in chain && x in rows && rows[x].parent.Piped? && k in rows[x].parent.links && k.loopId == l;
        assert k in LinksOf(rows, x);
      }
      if OfAHost(rows, beyond, loops[l]) {
        var h :| h in beyond && h in rows && rows[h].sessionId == loops[l].sessionId
                 && rows[h].agentId == loops[l].agentId && rows[h].runId == loops[l].runId;
        assert l in RunningLoops(loops, rows[h]);
      }
    }
  }

  lemma OrphanForced(rows: Rows, execution: string, base: set<string>, s: set<string>, id: string)
    requires Orphaned(rows, execution, s, id)
    requires forall d :: base <= d && HostClosed(rows, execution, d) ==> s <= d
    ensures forall d :: base <= d && HostClosed(rows, execution, d) ==> s + {id} <= d
  {
    forall d | base <= d && HostClosed(rows, execution, d) ensures s + {id} <= d
    {
      assert s <= d;
      assert Orphaned(rows, execution, d, id);
    }
  }

  lemma ForcedLeaf(rows: Rows, ids: set<string>, leaf: string, s: set<string>, more: set<string>)
    requires leaf in ids && Forced(rows, ids, s) && Forced(rows, {leaf} - {""}, more)
    ensures Forced(rows, ids, s + more)
  {
    forall c | ids <= c && ChainClosed(rows, c) ensures s + more <= c
    {
      assert {leaf} - {""} <= c;
    }
  }

  lemma HostIdsUnion(rows: Rows, a: set<string>, b: set<string>)
    ensures HostIds(rows, a + b) == HostIds(rows, a) + HostIds(rows, b)
    ensures LinkLoops(rows, a + b) == LinkLoops(rows, a) + LinkLoops(rows, b)
  {
  }
}
