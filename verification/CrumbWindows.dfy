/**
  When the writer writes, and what a read gives back: windows that never grow past the limit,
  the entries each step appends, and reads sorted by position, above a mark, up to a limit.
*/
module CrumbWindows {
  import opened Wrappers
  import opened Filters
  import opened CrumbLog

  // ------------------------------------------------------------ what is written

  // Window i of `ws` as the entry it becomes, when windows are closed from the first on.
  function EntryOf(ws: seq<Window>, counter: nat, i: nat): Entry
    requires i < |ws|
  {
    Entry(counter + 1 + i, Delta(ws[i].kind, ws[i].text))
  }

  // The log has these windows' entries behind what it had.
  ghost predicate WindowsWritten(s: RunLog, log: seq<Entry>)
  {
    && |log| == |s.log| + |s.windows| && log[..|s.log|] == s.log
    && forall i :: 0 <= i < |s.windows| ==> log[|s.log| + i] == EntryOf(s.windows, s.counter, i)
  }

  /**
    Closing all windows writes one entry for each, in the order they were opened, with positions
    that go on from the counter.
  */
  lemma {:induction false} FlushAllWrites(s: RunLog)
    requires Valid(s)
    ensures var s' := FlushAll(s);
      s'.windows == [] && s'.counter == s.counter + |s.windows| && WindowsWritten(s, s'.log)
    decreases |s.windows|
  {
    if s.windows != [] {
      var s1 := Flush(s, s.windows[0].kind);
      FlushFirst(s);
      FlushAllWrites(s1);
      OneThenRest(s, s1, FlushAll(s).log);
    } else {
      assert s.log[..|s.log|] == s.log;
    }
  }

  lemma FlushFirst(s: RunLog)
    requires Valid(s) && s.windows != []
    ensures var s1 := Flush(s, s.windows[0].kind);
      && Valid(s1) && s1.counter == s.counter + 1 && s1.windows == s.windows[1..]
      && s1.log == s.log + [EntryOf(s.windows, s.counter, 0)]
  {
    FlushKeeps(s, s.windows[0].kind, TextDelta);
    assert Find(s.windows, s.windows[0].kind) == 0;
  }

  lemma OneThenRest(s: RunLog, s1: RunLog, log: seq<Entry>)
    requires s.windows != [] && s1.windows == s.windows[1..] && s1.counter == s.counter + 1
    requires s1.log == s.log + [EntryOf(s.windows, s.counter, 0)] && WindowsWritten(s1, log)
    ensures WindowsWritten(s, log)
  {
    assert log[..|s.log|] == log[..|s1.log|][..|s.log|];
    forall i | 0 <= i < |s.windows| ensures log[|s.log| + i] == EntryOf(s.windows, s.counter, i) {
      if i == 0 {
        assert log[|s.log|] == log[..|s1.log|][|s.log|];
      } else {
        assert log[|s1.log| + (i - 1)] == EntryOf(s1.windows, s1.counter, i - 1);
      }
    }
  }

  /**
    A crumb that is no delta closes all windows, takes the next position, and is written there
    if it is one of the logged kinds.
  */
  lemma WholeWrites(cfg: Config, s: RunLog, logged: bool, content: string)
    requires Valid(s)
    ensures var x := Whole(logged, content);
      var s', p := Step(cfg, s, Stream(x)), Position(s, x);
      && p == s.counter + |s.windows| + 1 && s'.counter == p && s'.windows == []
      && exists flushed :: WindowsWritten(s, flushed) && s'.log == if logged then flushed + [Entry(p, x)] else flushed
  {
    FlushAllWrites(s);
    FlushAllKeeps(s, TextDelta);
    assert WindowsWritten(s, FlushAll(s).log);
  }

  // The timer of a window, or the end of the stream.
  lemma TimerWrites(cfg: Config, s: RunLog, kind: Kind)
    requires Valid(s)
    ensures var s' := Step(cfg, s, Timer(kind));
      if forall w :: w in s.windows ==> w.kind != kind then s' == s
      else
        && s'.counter == s.counter + 1 && s'.log == s.log + [Entry(s.counter + 1, Delta(kind, Buffered(s, kind)))]
        && forall w :: w in s'.windows <==> w in s.windows && w.kind != kind
  {
    var k := Find(s.windows, kind);
    if k < |s.windows| {
      assert s.windows[k] in s.windows;
      var ws' := s.windows[..k] + s.windows[k + 1..];
      forall w | w in s.windows && w.kind != kind ensures w in ws' {
        var i :| 0 <= i < |s.windows| && s.windows[i] == w;
        assert i != k && ws'[if i < k then i else i - 1] == w;
      }
    }
  }

  /**
    A delta joins what its window holds. It is written, with all that waited, exactly when the
    window has then reached the limit; until then nothing is.
  */
  lemma DeltaWrites(cfg: Config, s: RunLog, kind: Kind, text: string)
    requires Valid(s) && cfg.supported
    ensures var s', all := Step(cfg, s, Stream(Delta(kind, text))), Buffered(s, kind) + text;
      if |all| >= cfg.maxBufferBytes then
        && s'.counter == s.counter + 1 && s'.log == s.log + [Entry(s.counter + 1, Delta(kind, all))]
        && Buffered(s', kind) == ""
      else s'.counter == s.counter && s'.log == s.log && Buffered(s', kind) == all
    ensures forall k :: k != kind ==> Buffered(Step(cfg, s, Stream(Delta(kind, text))), k) == Buffered(s, k)
  {
    var s1 := Fill(s, kind, text);
    FillHolds(s, kind, text);
    if |Buffered(s1, kind)| >= cfg.maxBufferBytes {
      FillOpens(s.windows, kind, text);
      FlushHolds(s1, kind);
    }
  }

  // Without a log in the store no window is opened.
  lemma UnsupportedKeepsNothing(cfg: Config, s: RunLog, kind: Kind, text: string)
    requires !cfg.supported
    ensures Step(cfg, s, Stream(Delta(kind, text))) == s
  {
  }

  lemma FillHolds(s: RunLog, kind: Kind, text: string)
    requires Valid(s)
    ensures var s' := Fill(s, kind, text);
      && Valid(s') && s'.counter == s.counter && s'.log == s.log
      && forall k :: Buffered(s', k) == if k == kind then Buffered(s, kind) + text else Buffered(s, k)
  {
    FillValid(s, kind, text);
    forall k
      ensures Buffered(Fill(s, kind, text), k) == if k == kind then Buffered(s, kind) + text else Buffered(s, k)
    {
      FillKeeps(s, kind, text, k);
      assert Buffered(s, k) + "" == Buffered(s, k);
    }
  }

  lemma FlushHolds(s: RunLog, kind: Kind)
    requires Valid(s) && Find(s.windows, kind) < |s.windows|
    ensures var s' := Flush(s, kind);
      && s'.counter == s.counter + 1 && s'.log == s.log + [Entry(s.counter + 1, Delta(kind, Buffered(s, kind)))]
      && forall k :: Buffered(s', k) == if k == kind then "" else Buffered(s, k)
  {
    var i := Find(s.windows, kind);
    assert Flush(s, kind).windows == s.windows[..i] + s.windows[i + 1..];
    RemovedHolds(s.windows, i);
  }

  lemma RemovedHolds(ws: seq<Window>, i: nat)
    requires i < |ws| && forall a, b :: 0 <= a < b < |ws| ==> ws[a].kind != ws[b].kind
    ensures var ws' := ws[..i] + ws[i + 1..];
      forall k :: WaitingIn(ws', k) == if k == ws[i].kind then "" else WaitingIn(ws, k)
  {
    forall k ensures WaitingIn(ws[..i] + ws[i + 1..], k) == if k == ws[i].kind then "" else WaitingIn(ws, k) {
      FindRemoved(ws, i, k);
    }
  }

  lemma FillOpens(ws: seq<Window>, kind: Kind, text: string)
    ensures Find(FillWindows(ws, kind, text), kind) < |FillWindows(ws, kind, text)|
  {
    var k, ws' := Find(ws, kind), FillWindows(ws, kind, text);
    assert ws'[k].kind == kind;
  }

  // No window holds as much as the limit.
  ghost predicate Small(cfg: Config, s: RunLog)
  {
    forall k :: Buffered(s, k) == "" || |Buffered(s, k)| < cfg.maxBufferBytes
  }

  lemma StepSmall(cfg: Config, s: RunLog, op: Op)
    requires Valid(s) && cfg.supported && Small(cfg, s)
    ensures Small(cfg, Step(cfg, s, op))
  {
    match op
    case Timer(kind) => FlushSmall(cfg, s, kind);
    case Finalize => NoWindowsSmall(cfg, s);
    case Stream(Delta(kind, text)) => DeltaSmall(cfg, s, kind, text);
    case Stream(Whole(logged, content)) => WholeWrites(cfg, s, logged, content);
  }

  lemma FlushSmall(cfg: Config, s: RunLog, kind: Kind)
    requires Valid(s) && Small(cfg, s)
    ensures Small(cfg, Flush(s, kind))
  {
    if Find(s.windows, kind) < |s.windows| { FlushHolds(s, kind); }
  }

  lemma NoWindowsSmall(cfg: Config, s: RunLog)
    requires Valid(s)
    ensures Small(cfg, FlushAll(s))
  {
    FlushAllWrites(s);
  }

  lemma DeltaSmall(cfg: Config, s: RunLog, kind: Kind, text: string)
    requires Valid(s) && cfg.supported && Small(cfg, s)
    ensures Small(cfg, Step(cfg, s, Stream(Delta(kind, text))))
  {
    DeltaWrites(cfg, s, kind, text);
  }

  /**
    Over any steps and timers no window comes to hold as much as the limit between two steps.
  */
  lemma {:induction false} WindowsStaySmall(cfg: Config, s: RunLog, ops: seq<Op>)
    requires Valid(s) && cfg.supported && Small(cfg, s)
    ensures Small(cfg, After(cfg, s, ops))
    decreases |ops|
  {
    if ops != [] {
      var n := |ops| - 1;
      WindowsStaySmall(cfg, s, ops[..n]);
      TextConserved(cfg, s, ops[..n], TextDelta);
      StepSmall(cfg, After(cfg, s, ops[..n]), ops[n]);
    }
  }

  // ---------------------------------------------------------------- reading

  // The entries at one position, in the order they stand.
  function At(log: seq<Entry>, p: nat): seq<Entry>
  {
    if log == [] then [] else (if log[0].seq_ == p then [log[0]] else []) + At(log[1..], p)
  }

  lemma {:induction false} AtPush(log: seq<Entry>, e: Entry, p: nat)
    ensures At(log + [e], p) == At(log, p) + (if e.seq_ == p then [e] else [])
    decreases log
  {
    if log == [] {
      assert [] + [e] == [e];
    } else {
      AtPush(log[1..], e, p);
      assert (log + [e])[1..] == log[1..] + [e];
    }
  }

  lemma {:induction false} NoneAt(log: seq<Entry>, p: nat)
    requires forall i :: 0 <= i < |log| ==> log[i].seq_ > p
    ensures At(log, p) == []
    decreases log
  {
    if log != [] { NoneAt(log[1..], p); }
  }

  ghost predicate BySeq(log: seq<Entry>) { forall i, j :: 0 <= i < j < |log| ==> log[i].seq_ <= log[j].seq_ }

  lemma {:induction false} InsertBySeq(e: Entry, sorted: seq<Entry>)
    requires BySeq(sorted)
    ensures BySeq(Insert(e, sorted)) && forall x :: x in Insert(e, sorted) <==> x == e || x in sorted
    decreases sorted
  {
    if sorted != [] && sorted[0].seq_ <= e.seq_ {
      InsertBySeq(e, sorted[1..]);
      FrontBySeq(sorted[0], Insert(e, sorted[1..]));
      assert sorted == [sorted[0]] + sorted[1..];
    }
  }

  lemma FrontBySeq(first: Entry, rest: seq<Entry>)
    requires BySeq(rest) && forall x :: x in rest ==> first.seq_ <= x.seq_
    ensures BySeq([first] + rest)
  {
  }

  lemma {:induction false} InsertAt(e: Entry, sorted: seq<Entry>, p: nat)
    requires BySeq(sorted)
    ensures At(Insert(e, sorted), p) == At(sorted, p) + (if e.seq_ == p then [e] else [])
    decreases sorted
  {
    if sorted == [] || sorted[0].seq_ > e.seq_ {
      AtCons(e, sorted, p);
      if e.seq_ == p { NoneAt(sorted, p); }
    } else {
      InsertAt(e, sorted[1..], p);
      AtCons(sorted[0], Insert(e, sorted[1..]), p);
    }
  }

  lemma AtCons(first: Entry, rest: seq<Entry>, p: nat)
    ensures At([first] + rest, p) == (if first.seq_ == p then [first] else []) + At(rest, p)
  {
    assert ([first] + rest)[1..] == rest;
  }

  /**
    The rows are read in the order of their positions; rows at the same position are all there,
    in the order they were written.
  */
  lemma {:induction false} SortedStable(log: seq<Entry>, p: nat)
    ensures BySeq(SortBySeq(log)) && At(SortBySeq(log), p) == At(log, p)
    ensures forall x :: x in SortBySeq(log) <==> x in log
    decreases |log|
  {
    if log != [] {
      var n := |log| - 1;
      SortedStable(log[..n], p);
      InsertBySeq(log[n], SortBySeq(log[..n]));
      InsertAt(log[n], SortBySeq(log[..n]), p);
      AtPush(log[..n], log[n], p);
      assert log[..n] + [log[n]] == log;
    }
  }

  function AboveMark(mark: nat): (keep: Entry -> bool)
    ensures forall e :: keep(e) <==> e.seq_ > mark
  {
    (e: Entry) => e.seq_ > mark
  }

  lemma {:induction false} AboveFilter(log: seq<Entry>, mark: nat)
    ensures IsFilter(log, AboveMark(mark), Above(log, mark))
    decreases |log|
  {
    if log == [] {
      FilterNone(AboveMark(mark));
    } else {
      var n := |log| - 1;
      AboveFilter(log[..n], mark);
      FilterLast(log, AboveMark(mark), Above(log[..n], mark));
    }
  }

  /**
    A read gives the sorted rows, those above the mark when one is given, and of these the first
    `limit` when one is given that is not zero.
  */
  lemma ReadExactly(log: seq<Entry>, afterSeq: Option<nat>, limit: nat)
    ensures exists rows ::
      && (if afterSeq.Some? then IsFilter(SortBySeq(log), AboveMark(afterSeq.value), rows) else rows == SortBySeq(log))
      && GetCrumbs(log, afterSeq, limit) <= rows
      && |GetCrumbs(log, afterSeq, limit)| == if limit != 0 && limit < |rows| then limit else |rows|
  {
    if afterSeq.Some? { AboveFilter(SortBySeq(log), afterSeq.value); }
    var rows := if afterSeq.Some? then Above(SortBySeq(log), afterSeq.value) else SortBySeq(log);
    assert GetCrumbs(log, afterSeq, limit) <= rows;
  }
}
