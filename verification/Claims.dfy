/**
  Resuming a checkpoint: any number of attempts race for one stored row. A loop worker's
  row is claimed and stays; any other row is deleted, unless it is already claimed.
*/
module Claims {
  import opened Wrappers

  // ---------------------------------------------------------------- one row

  // What the store knows of one checkpoint id.
  datatype Row = Absent | Unclaimed | Claimed

  function Saved(row: Row): Row { if row.Absent? then Unclaimed else row }

  function Claim(row: Row): (Row, bool) { if row.Unclaimed? then (Claimed, true) else (row, false) }

  function Delete(row: Row, unclaimedOnly: bool): (Row, bool)
  {
    if unclaimedOnly && row.Claimed? then (row, false) else (Absent, !row.Absent?)
  }

  // ---------------------------------------------------------------- the race

  // An attempt first reads the row, finds out whether it belongs to a loop worker, and
  // only later claims or deletes; a winner on the claim path deletes the row in the end.
  datatype Phase = Looked(worker: bool) | Won(worker: bool) | Lost | Released

  // `created` and `discarded` count how often the row came into being, and how often it
  // was removed unclaimed by someone who did not get to resume it.
  datatype World = World(row: Row, phases: map<nat, Phase>, created: nat, discarded: nat)

  const START := World(Absent, map[], 0, 0)

  // What can happen next, in any order: a step of some attempt, or someone else saving
  // the row (again) or deleting it whatever its state.
  datatype Action = Look(who: nat, worker: bool) | Settle(who: nat) | Release(who: nat) | Save | Drop

  function Removed(w: World): World
  {
    w.(row := Delete(w.row, false).0, discarded := w.discarded + if w.row.Unclaimed? then 1 else 0)
  }

  function Next(w: World, a: Action): World
  {
    match a
    case Look(who, worker) =>
      if who in w.phases then w
      else w.(phases := w.phases[who := if w.row.Absent? then Lost else Looked(worker)])
    case Settle(who) =>
      if who !in w.phases || !w.phases[who].Looked? then w
      else
        var worker := w.phases[who].worker;
        var (row, won) := if worker then Claim(w.row) else Delete(w.row, true);
        w.(row := row, phases := w.phases[who := if won then Won(worker) else Lost])
    case Release(who) =>
      if who !in w.phases || w.phases[who] != Won(true) then w
      else Removed(w).(phases := w.phases[who := Released])
    case Save => w.(row := Saved(w.row), created := w.created + if w.row.Absent? then 1 else 0)
    case Drop => Removed(w)
  }

  function Run(actions: seq<Action>): World
  {
    if actions == [] then START else Next(Run(actions[..|actions| - 1]), actions[|actions| - 1])
  }

  predicate PastTheClaim(p: Phase) { p.Won? || p.Released? }

  function Winners(w: World): set<nat> { set who | who in w.phases && PastTheClaim(w.phases[who]) }

  // Every row that ever came into being was won by one attempt, or thrown away, or is
  // still there to be won.
  ghost predicate Accounted(w: World)
  {
    |Winners(w)| + w.discarded + (if w.row.Unclaimed? then 1 else 0) == w.created
  }

  lemma SameWinners(w: World, v: World)
    requires forall who ::
      (who in w.phases && PastTheClaim(w.phases[who])) <==> (who in v.phases && PastTheClaim(v.phases[who]))
    ensures Winners(w) == Winners(v)
  {
  }

  lemma NextAccounted(w: World, a: Action)
    requires Accounted(w)
    ensures Accounted(Next(w, a))
  {
    var v := Next(w, a);
    if a.Settle? && a.who in w.phases && w.phases[a.who].Looked? && PastTheClaim(v.phases[a.who]) {
      assert Winners(v) == Winners(w) + {a.who};
    } else {
      SameWinners(w, v);
    }
  }

  lemma {:induction false} EveryRowAccounted(actions: seq<Action>)
    ensures Accounted(Run(actions))
  {
    if actions == [] {
    } else {
      EveryRowAccounted(actions[..|actions| - 1]);
      NextAccounted(Run(actions[..|actions| - 1]), actions[|actions| - 1]);
    }
  }

  // Any interleaving of any number of attempts on a row that is not saved again after its
  // deletion lets at most one of them past the claim; and if no one threw the row away,
  // exactly one once it is no longer there to be won.
  lemma OneWinner(actions: seq<Action>, a: nat, b: nat)
    requires Run(actions).created <= 1
    ensures a in Winners(Run(actions)) && b in Winners(Run(actions)) ==> a == b
    ensures Run(actions).created == 1 && Run(actions).discarded == 0 && !Run(actions).row.Unclaimed? ==>
      |Winners(Run(actions))| == 1
  {
    EveryRowAccounted(actions);
    var s := Winners(Run(actions));
    if a in s && b in s {
      assert {a, b} <= s;
      Smaller({a, b}, s);
    }
  }

  lemma {:induction false} Smaller(s: set<nat>, t: set<nat>)
    requires s <= t
    ensures |s| <= |t|
  {
    assert t == s + (t - s);
  }

  // A winner's own clean-up never throws away a row that someone could still resume.
  lemma ReleaseDiscardsNothing(actions: seq<Action>, who: nat)
    requires Run(actions + [Release(who)]).created <= 1
    ensures Run(actions + [Release(who)]).discarded == Run(actions).discarded
  {
    var all := actions + [Release(who)];
    assert all[..|all| - 1] == actions;
    EveryRowAccounted(actions);
    var w := Run(actions);
    if who in w.phases && w.phases[who] == Won(true) {
      assert who in Winners(w);
      assert |Winners(w)| > 0;
    }
  }

  /**
    The deciding step of an attempt: it wins exactly when the row is there and unclaimed, so the
    first one to settle does. A loop worker's row is then claimed and stays, any other row is gone;
    the row of an attempt that loses is as it was.
  */
  lemma FirstToSettleWins(w: World, who: nat, worker: bool)
    requires who in w.phases && w.phases[who] == Looked(worker)
    ensures var v := Next(w, Settle(who));
      && v.phases[who] == (if w.row.Unclaimed? then Won(worker) else Lost)
      && v.row == (if !w.row.Unclaimed? then w.row else if worker then Claimed else Absent)
      && v.created == w.created && v.discarded == w.discarded
      && forall other :: other in w.phases && other != who ==> other in v.phases && v.phases[other] == w.phases[other]
  {
  }

  // The other steps: an attempt on a missing row loses at once, only a worker that won deletes
  // its row in the end, and a row saved again keeps its claim.
  lemma OtherSteps(w: World, who: nat, worker: bool)
    ensures who !in w.phases ==>
      Next(w, Look(who, worker)) == w.(phases := w.phases[who := if w.row == Absent then Lost else Looked(worker)])
    ensures who in w.phases && w.phases[who] == Won(true) ==>
      Next(w, Release(who)).row == Absent && Next(w, Release(who)).phases == w.phases[who := Released]
    ensures !(who in w.phases && w.phases[who] == Won(true)) ==> Next(w, Release(who)) == w
    ensures Next(w, Save).row == (if w.row == Claimed then Claimed else Unclaimed)
    ensures Next(w, Drop).row == Absent && Next(w, Drop).phases == w.phases
  {
  }

  // Saving a claimed row again does not free it: the attempts after that still lose.
  lemma SavingKeepsTheClaim(w: World, who: nat, worker: bool)
    requires w.row.Claimed? && who in w.phases && w.phases[who] == Looked(worker)
    ensures Next(Next(w, Save), Settle(who)).phases[who] == Lost
    ensures Next(Next(w, Save), Settle(who)).row.Claimed?
  {
  }

  // The limit is real: a row saved again after it was taken can be won a second time.
  lemma SavedAgainWonTwice()
    ensures exists actions :: Run(actions).created == 2 && |Winners(Run(actions))| == 2
  {
    var a1 := [Save, Look(0, false)];
    var a2 := a1 + [Look(1, false)];
    var a3 := a2 + [Settle(0)];
    var a4 := a3 + [Save];
    var a5 := a4 + [Settle(1)];
    assert [Save][..0] == [] && a1[..1] == [Save] && a2[..2] == a1 && a3[..3] == a2 && a4[..4] == a3 && a5[..5] == a4;
    assert Run([Save]) == World(Unclaimed, map[], 1, 0);
    assert Run(a1) == World(Unclaimed, map[0 := Looked(false)], 1, 0);
    assert Run(a2) == World(Unclaimed, map[0 := Looked(false), 1 := Looked(false)], 1, 0);
    assert Run(a3) == World(Absent, map[0 := Won(false), 1 := Looked(false)], 1, 0);
    assert Run(a4) == World(Unclaimed, map[0 := Won(false), 1 := Looked(false)], 2, 0);
    assert Run(a5) == World(Absent, map[0 := Won(false), 1 := Won(false)], 2, 0);
    assert Winners(Run(a5)) == {0, 1};
  }

  // ---------------------------------------------------------------- the store

  datatype Record = Record(id: string, executionId: string, body: string)

  class CheckpointStore {
    var checkpoints: map<string, Record>
    var claimed: set<string>

    ghost predicate Valid()
      reads this
    {
      claimed <= checkpoints.Keys && forall id :: id in checkpoints ==> checkpoints[id].id == id
    }

    ghost function RowOf(id: string): Row
      reads this
    {
      if id !in checkpoints then Absent else if id in claimed then Claimed else Unclaimed
    }

    // No other row is touched.
    twostate predicate OnlyRow(id: string)
      reads this
    {
      forall other :: other != id ==>
        RowOf(other) == old(RowOf(other)) && (other in checkpoints ==> checkpoints[other] == old(checkpoints)[other])
    }

    constructor ()
      ensures Valid() && forall id :: RowOf(id) == Absent
    {
      checkpoints, claimed := map[], {};
    }

    // Refuses a record without an execution id.
    method SaveCheckpoint(record: Record) returns (ok: bool)
      requires Valid()
      modifies this
      ensures Valid() && ok == (record.executionId != "")
      ensures ok ==> RowOf(record.id) == Saved(old(RowOf(record.id))) && checkpoints[record.id] == record
      ensures ok ==> OnlyRow(record.id)
      ensures !ok ==> checkpoints == old(checkpoints) && claimed == old(claimed)
    {
      if record.executionId == "" { return false; }
      checkpoints := checkpoints[record.id := record];
      return true;
    }

    method GetCheckpoint(id: string) returns (r: Option<Record>)
      requires Valid()
      ensures r.None? <==> RowOf(id).Absent?
      ensures r.Some? ==> r.value == checkpoints[id]
    {
      if id in checkpoints { return Some(checkpoints[id]); }
      return None;
    }

    method ClaimCheckpoint(id: string) returns (r: Option<Record>)
      requires Valid()
      modifies this
      ensures Valid() && checkpoints == old(checkpoints)
      ensures (RowOf(id), r.Some?) == Claim(old(RowOf(id))) && OnlyRow(id)
      ensures r.Some? <==> old(RowOf(id)).Unclaimed?
      ensures RowOf(id) == if r.Some? then Claimed else old(RowOf(id))
      ensures r.Some? ==> r.value == checkpoints[id]
    {
      if id !in checkpoints || id in claimed { return None; }
      claimed := claimed + {id};
      return Some(checkpoints[id]);
    }

    method DeleteCheckpoint(id: string, unclaimedOnly: bool) returns (r: Option<Record>)
      requires Valid()
      modifies this
      ensures Valid() && OnlyRow(id)
      ensures (RowOf(id), r.Some?) == Delete(old(RowOf(id)), unclaimedOnly)
      ensures RowOf(id) == if unclaimedOnly && old(RowOf(id)).Claimed? then Claimed else Absent
      ensures r.Some? <==> !old(RowOf(id)).Absent? && RowOf(id).Absent?
      ensures r.Some? ==> r.value == old(checkpoints)[id]
      ensures !RowOf(id).Absent? ==> checkpoints == old(checkpoints)
    {
      r := if id in checkpoints then Some(checkpoints[id]) else None;
      if unclaimedOnly && id in claimed { return None; }
      checkpoints := checkpoints - {id};
      claimed := claimed - {id};
    }
  }

  // The step of an attempt that decides: the same one as `Settle`.
  method TakeCheckpoint(store: CheckpointStore, id: string, loopWorker: bool) returns (won: bool)
    requires store.Valid()
    modifies store
    ensures store.Valid() && store.OnlyRow(id)
    ensures (store.RowOf(id), won) ==
      if loopWorker then Claim(old(store.RowOf(id))) else Delete(old(store.RowOf(id)), true)
    ensures won <==> old(store.RowOf(id)).Unclaimed?
    ensures store.RowOf(id) == if !won then old(store.RowOf(id)) else if loopWorker then Claimed else Absent
  {
    if !loopWorker {
      var deleted := store.DeleteCheckpoint(id, true);
      return deleted.Some?;
    }
    var claimed := store.ClaimCheckpoint(id);
    return claimed.Some?;
  }
}
